/** The list that every pass starts from: what the API server returns, in any order, sorted by creation time, newest
    first. The sort is a library's and not stable; with creation times that differ that does not matter. */
module Listing {
  import opened Prelude
  import opened Objects
  import opened Passes
  import opened PassFacts
  import opened Cluster
  import opened Steps

  function Compare(x: BatchJob, y: BatchJob): int {
    if x.created < y.created then 1
    else if x.created == y.created then 0
    else -1
  }

  ghost predicate NewestFirst(items: seq<BatchJob>) {
    forall i, k :: 0 <= i < k < |items| ==> Compare(items[i], items[k]) <= 0
  }

  /** What a correct sort of `listed` with Compare may return. */
  ghost predicate IsSortOf(items: seq<BatchJob>, listed: seq<BatchJob>) {
    multiset(items) == multiset(listed) && NewestFirst(items)
  }

  ghost predicate TimesDiffer(jobs: seq<BatchJob>) {
    forall x, y :: x in jobs && y in jobs && x != y ==> x.created != y.created
  }

  /** The newest comes first in both. */
  lemma HeadsAgree(a: seq<BatchJob>, b: seq<BatchJob>)
    requires NewestFirst(a) && NewestFirst(b) && multiset(a) == multiset(b) && TimesDiffer(a)
    requires a != [] && b != []
    ensures a[0] == b[0]
  {
    assert a[0] in multiset(b) && b[0] in multiset(a);
    var i :| 0 <= i < |b| && b[i] == a[0];
    var k :| 0 <= k < |a| && a[k] == b[0];
    assert k > 0 ==> Compare(a[0], a[k]) <= 0;
    assert i > 0 ==> Compare(b[0], b[i]) <= 0;
  }

  lemma Tail(a: seq<BatchJob>)
    requires a != []
    ensures multiset(a[1..]) == multiset(a) - multiset{a[0]}
  {
    assert a == [a[0]] + a[1..];
  }

  /** Two sorts of the same list agree when the creation times of its members differ. */
  lemma {:induction false} SortsAgree(a: seq<BatchJob>, b: seq<BatchJob>)
    requires NewestFirst(a) && NewestFirst(b) && multiset(a) == multiset(b) && TimesDiffer(a)
    ensures a == b
  {
    SameLength(a, b);
    if a != [] {
      HeadsAgree(a, b);
      Tail(a);
      Tail(b);
      SortsAgree(a[1..], b[1..]);
      assert a == [a[0]] + a[1..] && b == [b[0]] + b[1..];
    }
  }

  lemma SameLength(a: seq<BatchJob>, b: seq<BatchJob>)
    requires multiset(a) == multiset(b)
    ensures |a| == |b|
  {
    assert |multiset(a)| == |a| && |multiset(b)| == |b|;
  }

  /** A tie is all it takes for the sort not to be determined: neighbours with one creation time may come either
      way round. */
  lemma TiesAreAmbiguous(items: seq<BatchJob>, i: nat)
    requires NewestFirst(items) && i + 1 < |items| && items[i] != items[i + 1]
    requires items[i].created == items[i + 1].created
    ensures var other := items[i := items[i + 1]][i + 1 := items[i]];
            IsSortOf(other, items) && other != items
  {
    var other := items[i := items[i + 1]][i + 1 := items[i]];
    assert multiset(other) == multiset(items);
    forall j, k | 0 <= j < k < |other| ensures Compare(other[j], other[k]) <= 0 {
      var j' := if j == i then i + 1 else if j == i + 1 then i else j;
      var k' := if k == i then i + 1 else if k == i + 1 then i else k;
      assert other[j] == items[j'] && other[k] == items[k'];
    }
  }

  lemma {:induction false} ReverseKeepsElements(jobs: seq<BatchJob>)
    ensures multiset(Reverse(jobs)) == multiset(jobs)
  {
    if jobs != [] {
      ReverseKeepsElements(jobs[1..]);
      assert jobs == [jobs[0]] + jobs[1..];
    }
  }

  /** The API server stamps batch Jobs in the order in which it creates them. */
  ghost predicate Stamped(jobs: seq<BatchJob>) {
    Ordered(jobs) && forall x :: x in jobs ==> x.created == x.uid
  }

  ghost predicate InOrder(jobs: seq<BatchJob>, serial: nat) {
    Stamped(jobs) && forall x :: x in jobs ==> x.uid < serial
  }

  lemma AgeKeepsInOrder(jobs: seq<BatchJob>, jobs': seq<BatchJob>, now: int, serial: nat, serial': nat)
    requires InOrder(jobs, serial) && Age(jobs, jobs', now) && serial <= serial'
    ensures InOrder(jobs', serial')
  {
    forall x | x in jobs' ensures x.created == x.uid && x.uid < serial' {
      var y :| y in jobs && Descends(y, x, now);
    }
  }

  lemma StampedStep(build: Builder, s: State, a: Action)
    requires InOrder(s.w.jobs, s.w.serial)
    ensures InOrder(Next(build, s, a).w.jobs, Next(build, s, a).w.serial)
  {
    var t := Next(build, s, a);
    if Creates(s, a) {
      assert t.w.jobs == s.w.jobs + [NewJob(s.w.serial, s.pc.next)];
    } else {
      StepAges(build, s, a);
      AgeKeepsInOrder(s.w.jobs, t.w.jobs, t.w.now, s.w.serial, t.w.serial);
    }
  }

  lemma {:induction false} StampedHolds(build: Builder, s: State, acts: seq<Action>)
    requires Init(s)
    ensures InOrder(Run(build, s, acts).w.jobs, Run(build, s, acts).w.serial)
  {
    if acts != [] {
      StampedHolds(build, s, acts[..|acts| - 1]);
      StampedStep(build, Run(build, s, acts[..|acts| - 1]), acts[|acts| - 1]);
    }
  }

  lemma StampedTimesDiffer(jobs: seq<BatchJob>)
    requires Stamped(jobs)
    ensures TimesDiffer(jobs)
  {
    forall x, y | x in jobs && y in jobs && x.uid == y.uid ensures x == y {
      SameUidSameJob(jobs, x, y);
    }
  }

  /** In every reachable state every list of the wrapper's batch Jobs comes out of the sort newest first: it is the
      reverse of the creation order, whatever order the API server used and whatever sort the library does. */
  lemma ListIsReverseOfCreation(build: Builder, s: State, acts: seq<Action>, items: seq<BatchJob>)
    requires Init(s) && IsSortOf(items, Run(build, s, acts).w.jobs)
    ensures items == Reverse(Run(build, s, acts).w.jobs)
  {
    var jobs := Run(build, s, acts).w.jobs;
    StampedHolds(build, s, acts);
    StampedTimesDiffer(jobs);
    ReverseKeepsElements(jobs);
    forall x | x in items ensures x in jobs {
      assert x in multiset(jobs);
    }
    ReversedIsNewestFirst(jobs);
    SortsAgree(items, Reverse(jobs));
  }

  lemma ReversedIsNewestFirst(jobs: seq<BatchJob>)
    requires Stamped(jobs)
    ensures NewestFirst(Reverse(jobs))
  {
    var r := Reverse(jobs);
    forall i, k | 0 <= i < k < |r| ensures Compare(r[i], r[k]) <= 0 {
      assert r[i] in jobs && r[k] in jobs;
      assert jobs[|jobs| - 1 - k].uid < jobs[|jobs| - 1 - i].uid;
    }
  }
}
