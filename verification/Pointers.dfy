/** What JSON pointers mean: writing reference tokens down as sections 3 and 4 of RFC 6901 say is the inverse of
    reading them, and a token names an array element exactly when it is the decimal index of one. */
module Pointers {
  import opened Prelude
  import opened Decimal
  import opened Json

  // ---------------------------------------------------------------- tokens

  /** A tilde is written "~0" and a slash "~1". */
  function Escape(t: string): string {
    if t == "" then ""
    else (if t[0] == '~' then "~0" else if t[0] == '/' then "~1" else [t[0]]) + Escape(t[1..])
  }

  lemma {:induction false} UnescapeEscape(t: string)
    ensures Unescape(Escape(t)) == Some(t) && '/' !in Escape(t)
  {
    if t != "" {
      UnescapeEscape(t[1..]);
      var rest := Escape(t[1..]);
      assert [t[0]] + t[1..] == t;
      if t[0] == '~' || t[0] == '/' {
        assert Escape(t)[2..] == rest;
      } else {
        assert Escape(t)[1..] == rest;
      }
    }
  }

  lemma {:induction false} EscapeUnescape(t: string)
    requires '/' !in t && Unescape(t).Some?
    ensures Escape(Unescape(t).value) == t
  {
    if t != "" {
      var u := Unescape(t).value;
      if t[0] == '~' {
        EscapeUnescape(t[2..]);
        assert u[1..] == Unescape(t[2..]).value;
        assert t == [t[0], t[1]] + t[2..];
      } else {
        EscapeUnescape(t[1..]);
        assert u[1..] == Unescape(t[1..]).value;
        assert t == [t[0]] + t[1..];
      }
    }
  }

  // ---------------------------------------------------------------- pointers

  /** A slash before every token. */
  function Written(p: Pointer): string {
    if p == [] then "" else "/" + Escape(p[0]) + Written(p[1..])
  }

  lemma ReadAlone(a: string, u: string)
    requires '/' !in a && Unescape(a) == Some(u)
    ensures UnescapeAll(Split(a)) == Some([u])
  {
    SplitAlone(a);
    assert [a][1..] == [] && UnescapeAll([]) == Some([]) && [u] + [] == [u];
  }

  lemma ReadFirst(a: string, b: string, u: string, p: Pointer)
    requires '/' !in a && Unescape(a) == Some(u) && UnescapeAll(Split(b)) == Some(p)
    ensures UnescapeAll(Split(a + "/" + b)) == Some([u] + p)
  {
    SplitAtSlash(a, b);
    assert ([a] + Split(b))[1..] == Split(b);
  }

  lemma WithoutSlash(a: string, b: string)
    ensures ("/" + a + b)[1..] == a + b
  {
  }

  lemma WrittenBegins(p: Pointer)
    requires p != []
    ensures Written(p) == "/" + Written(p)[1..] && Written(p)[1..] == Escape(p[0]) + Written(p[1..])
  {
    WithoutSlash(Escape(p[0]), Written(p[1..]));
  }

  lemma WrittenAlone(t: string)
    ensures Written([t])[1..] == Escape(t)
  {
    WrittenBegins([t]);
    assert [t][1..] == [] && Escape(t) + "" == Escape(t);
  }

  lemma Regroup(a: string, b: string)
    ensures a + ("/" + b) == a + "/" + b
  {
  }

  lemma {:induction false} SplitWritten(p: Pointer)
    requires p != []
    ensures UnescapeAll(Split(Written(p)[1..])) == Some(p)
  {
    UnescapeEscape(p[0]);
    if |p| == 1 {
      assert p == [p[0]];
      WrittenAlone(p[0]);
      ReadAlone(Escape(p[0]), p[0]);
    } else {
      var rest := Written(p[1..])[1..];
      SplitWritten(p[1..]);
      WrittenBegins(p);
      WrittenBegins(p[1..]);
      Regroup(Escape(p[0]), rest);
      ReadFirst(Escape(p[0]), rest, p[0], p[1..]);
      assert [p[0]] + p[1..] == p;
    }
  }

  lemma {:induction false} SplitAlone(t: string)
    requires '/' !in t
    ensures Split(t) == [t]
  {
    if t != "" {
      SplitAlone(t[1..]);
      assert [t[0]] + t[1..] == t;
    }
  }

  lemma OnePiece(s: string)
    requires '/' !in s && UnescapeAll(Split(s)).Some?
    ensures Written(UnescapeAll(Split(s)).value) == "/" + s
  {
    SplitAlone(s);
    EscapeUnescape(s);
    var u := Unescape(s).value;
    ReadAlone(s, u);
    assert [u][1..] == [] && Escape(u) + "" == s;
  }

  lemma FirstPiece(a: string, b: string)
    requires '/' !in a && UnescapeAll(Split(a + "/" + b)).Some?
    ensures Unescape(a).Some? && UnescapeAll(Split(b)).Some?
    ensures UnescapeAll(Split(a + "/" + b)) == Some([Unescape(a).value] + UnescapeAll(Split(b)).value)
  {
    SplitAtSlash(a, b);
    assert ([a] + Split(b))[1..] == Split(b);
  }

  lemma {:induction false} WrittenPieces(s: string)
    requires UnescapeAll(Split(s)).Some?
    ensures Written(UnescapeAll(Split(s)).value) == "/" + s
    decreases |s|
  {
    var i := FirstSlash(s);
    if i == |s| {
      assert s[..i] == s;
      OnePiece(s);
    } else {
      var a, b := s[..i], s[i + 1..];
      assert s == a + "/" + b;
      FirstPiece(a, b);
      WrittenPieces(b);
      EscapeUnescape(a);
      PutTogether(Unescape(a).value, UnescapeAll(Split(b)).value, a, b);
    }
  }

  lemma PutTogether(u: string, p: Pointer, a: string, b: string)
    requires Escape(u) == a && Written(p) == "/" + b
    ensures Written([u] + p) == "/" + (a + "/" + b)
  {
    assert ([u] + p)[1..] == p;
  }

  function FirstSlash(s: string): (i: nat)
    ensures i <= |s| && '/' !in s[..i] && (i < |s| ==> s[i] == '/')
  {
    if s == "" || s[0] == '/' then 0
    else
      var i := 1 + FirstSlash(s[1..]);
      assert s[..i] == [s[0]] + s[1..][..i - 1];
      i
  }

  /** Reading and writing are inverse: a string is a pointer to the tokens `p` exactly when it is `p` written down. */
  lemma PointsTo(s: string, p: Pointer)
    ensures ParsePointer(s) == Some(p) <==> s == Written(p)
  {
    if s == Written(p) && p != [] {
      SplitWritten(p);
    }
    if ParsePointer(s) == Some(p) && s != "" {
      WrittenPieces(s[1..]);
      assert s == "/" + s[1..];
    }
  }

  /** The two escapes, the one that looks like both, and what is no escape. */
  lemma Escapes()
    ensures Unescape("~1") == Some("/") && Unescape("~0") == Some("~") && Unescape("~01") == Some("~1")
    ensures Unescape("~2") == None && Unescape("~") == None
  {
    assert "/"[1..] == "" && "~"[1..] == "" && "1"[1..] == "" && "~1"[1..] == "1";
    assert Escape("") == "" && Escape("1") == ['1'] + Escape("");
    assert Escape("/") == "~1" && Escape("~") == "~0" && Escape("~1") == "~0" + "1";
    UnescapeEscape("/");
    UnescapeEscape("~");
    UnescapeEscape("~1");
  }

  // ---------------------------------------------------------------- indices

  lemma PrintOneMore(n: nat, c: char)
    requires n >= 1 && IsDigit(c)
    ensures PrintNat(n * 10 + (c as int - '0' as int)) == PrintNat(n) + [c]
  {
    var d := c as int - '0' as int;
    assert (n * 10 + d) % 10 == d && (n * 10 + d) / 10 == n;
    assert '0' + d as char == c;
  }

  lemma OneDigit(c: char)
    requires IsDigit(c)
    ensures DigitsValue([c]) == c as int - '0' as int && PrintNat(DigitsValue([c])) == [c]
  {
    assert [c][..0] == "";
  }

  lemma {:induction false} PrintOfDigits(t: string)
    requires t != "" && AllDigits(t) && (|t| == 1 || t[0] != '0')
    ensures PrintNat(DigitsValue(t)) == t && (|t| > 1 || t[0] != '0' ==> DigitsValue(t) >= 1)
  {
    var n := |t| - 1;
    if n == 0 {
      OneDigit(t[0]);
      assert t == [t[0]];
    } else {
      PrintOfDigits(t[..n]);
      PrintOneMore(DigitsValue(t[..n]), t[n]);
      assert t == t[..n] + [t[n]];
    }
  }

  /** The reference tokens for elements are the decimal numbers without leading zeros. */
  lemma IndicesAreDecimal(t: string, i: nat)
    ensures IsIndex(t) && DigitsValue(t) == i <==> t == PrintNat(i)
  {
    PrintNatRoundTrip(i);
    PrintsNoLeadingZero(i);
    if IsIndex(t) {
      PrintOfDigits(t);
    }
  }

  /** A token that names an element names it by its index, counted from zero; "-" and every other token name none. */
  lemma ElementsAreNamedByIndex(items: seq<Json>, t: string)
    ensures (exists i :: 0 <= i < |items| && t == PrintNat(i)) <==> Child(Array(items), t).Some?
    ensures forall i :: 0 <= i < |items| && t == PrintNat(i) ==> Child(Array(items), t) == Some(items[i])
    ensures Child(Array(items), "-") == None
  {
    forall i | 0 <= i < |items| && t == PrintNat(i) ensures Child(Array(items), t) == Some(items[i]) {
      IndicesAreDecimal(t, i);
    }
    if Child(Array(items), t).Some? {
      IndicesAreDecimal(t, DigitsValue(t));
    }
    assert !IsDigit("-"[0]);
  }

  /** A token that names a member names it by its key; scalars have neither members nor elements. */
  lemma MembersAreNamedByKey(doc: Json, t: string)
    requires !doc.Array?
    ensures Child(doc, t) == if doc.Object? && t in doc.fields then Some(doc.fields[t]) else None
  {
  }
}
