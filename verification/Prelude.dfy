/** Option, and the few facts about sequences that the rest of the project shares. */
module Prelude {

  datatype Option<+T> = None | Some(value: T)

  function Min(a: int, b: int): int {
    if a <= b then a else b
  }

  function Max(a: int, b: int): int {
    if a <= b then b else a
  }

  /** The elements of `xs` that satisfy `p`, in order. */
  function Filter<T(!new)>(p: T -> bool, xs: seq<T>): (r: seq<T>)
    ensures |r| <= |xs|
    ensures forall x :: x in r <==> x in xs && p(x)
  {
    if xs == [] then []
    else if p(xs[0]) then [xs[0]] + Filter(p, xs[1..])
    else Filter(p, xs[1..])
  }

  lemma {:induction false} FilterConcat<T(!new)>(p: T -> bool, xs: seq<T>, ys: seq<T>)
    ensures Filter(p, xs + ys) == Filter(p, xs) + Filter(p, ys)
  {
    if xs == [] {
      assert xs + ys == ys;
    } else {
      assert (xs + ys)[1..] == xs[1..] + ys;
      FilterConcat(p, xs[1..], ys);
    }
  }

  lemma FilterSnoc<T(!new)>(p: T -> bool, xs: seq<T>, y: T)
    ensures Filter(p, xs + [y]) == Filter(p, xs) + (if p(y) then [y] else [])
  {
    FilterConcat(p, xs, [y]);
    assert Filter(p, [y]) == if p(y) then [y] else [];
  }

  lemma FilterLast<T(!new)>(p: T -> bool, xs: seq<T>)
    requires xs != []
    ensures var n := |xs| - 1; Filter(p, xs) == Filter(p, xs[..n]) + (if p(xs[n]) then [xs[n]] else [])
  {
    FilterSnoc(p, xs[..|xs| - 1], xs[|xs| - 1]);
    assert xs[..|xs| - 1] + [xs[|xs| - 1]] == xs;
  }

  /** Filtering a longer prefix only extends the result. */
  lemma FilterPrefix<T(!new)>(p: T -> bool, xs: seq<T>, i: nat)
    requires i <= |xs|
    ensures Filter(p, xs[..i]) <= Filter(p, xs)
  {
    assert xs == xs[..i] + xs[i..];
    FilterConcat(p, xs[..i], xs[i..]);
    assert Filter(p, xs) == Filter(p, xs[..i]) + Filter(p, xs[i..]);
  }

  /** The next element of a list is the next one of the filtered list, or is left out of it. */
  lemma FilterNext<T(!new)>(p: T -> bool, xs: seq<T>, i: nat)
    requires i < |xs|
    ensures var f := |Filter(p, xs[..i])|;
            if p(xs[i]) then |Filter(p, xs[..i + 1])| == f + 1 && f < |Filter(p, xs)| && Filter(p, xs)[f] == xs[i]
            else |Filter(p, xs[..i + 1])| == f
  {
    FilterSnoc(p, xs[..i], xs[i]);
    assert xs[..i + 1] == xs[..i] + [xs[i]];
    FilterPrefix(p, xs, i + 1);
  }

  lemma {:induction false} FilterAll<T(!new)>(p: T -> bool, xs: seq<T>)
    ensures |Filter(p, xs)| == |xs| <==> forall x :: x in xs ==> p(x)
    ensures |Filter(p, xs)| == |xs| ==> Filter(p, xs) == xs
  {
    if xs != [] {
      FilterAll(p, xs[1..]);
      assert forall x :: x in xs <==> x == xs[0] || x in xs[1..];
    }
  }

  lemma {:induction false} FilterNone<T(!new)>(p: T -> bool, xs: seq<T>)
    requires forall x :: x in xs ==> !p(x)
    ensures Filter(p, xs) == []
  {
    if xs != [] {
      FilterNone(p, xs[1..]);
    }
  }

  lemma {:induction false} FilterCommutes<T(!new)>(p: T -> bool, q: T -> bool, xs: seq<T>)
    ensures Filter(p, Filter(q, xs)) == Filter(q, Filter(p, xs))
  {
    if xs != [] {
      FilterCommutes(p, q, xs[1..]);
    }
  }

  function Reverse<T(!new)>(xs: seq<T>): (r: seq<T>)
    ensures |r| == |xs|
    ensures forall i :: 0 <= i < |xs| ==> r[i] == xs[|xs| - 1 - i]
    ensures forall x :: x in r <==> x in xs
  {
    if xs == [] then [] else Reverse(xs[1..]) + [xs[0]]
  }

  lemma {:induction false} FilterReverse<T(!new)>(p: T -> bool, xs: seq<T>)
    ensures Filter(p, Reverse(xs)) == Reverse(Filter(p, xs))
  {
    if xs != [] {
      FilterReverse(p, xs[1..]);
      FilterSnoc(p, Reverse(xs[1..]), xs[0]);
    }
  }

  /** The smallest element of a non-empty list. */
  function Least(xs: seq<int>): (m: int)
    requires xs != []
    ensures m in xs
    ensures forall x :: x in xs ==> m <= x
  {
    if |xs| == 1 then xs[0]
    else
      assert forall x :: x in xs ==> x == xs[0] || x in xs[1..];
      Min(xs[0], Least(xs[1..]))
  }

  /** `f`, `k` times. */
  function Iterate<T>(f: T -> T, x: T, k: nat): T {
    if k == 0 then x else f(Iterate(f, x, k - 1))
  }

  lemma {:induction false} IterateKeeps<T(!new)>(p: T -> bool, f: T -> T, x: T, k: nat)
    requires p(x) && forall y :: p(y) ==> p(f(y))
    ensures p(Iterate(f, x, k))
  {
    if k > 0 {
      IterateKeeps(p, f, x, k - 1);
    }
  }

  /** A fixpoint that is reached stays. */
  lemma {:induction false} IterateStays<T>(f: T -> T, x: T, n: nat, k: nat)
    requires f(Iterate(f, x, n)) == Iterate(f, x, n) && n <= k
    ensures Iterate(f, x, k) == Iterate(f, x, n)
  {
    if n < k {
      IterateStays(f, x, n, k - 1);
    }
  }
}
