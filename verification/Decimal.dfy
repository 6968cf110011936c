/** Printing an int32 with `%d`, and reading it back with `strconv.ParseInt(x, 10, 32)`. */
module Decimal {
  import opened Prelude

  type int32 = x: int | -0x8000_0000 <= x < 0x8000_0000

  predicate IsDigit(c: char) {
    '0' <= c <= '9'
  }

  predicate AllDigits(s: string) {
    forall i :: 0 <= i < |s| ==> IsDigit(s[i])
  }

  function DigitsValue(s: string): nat
    requires AllDigits(s)
  {
    if s == [] then 0
    else DigitsValue(s[..|s| - 1]) * 10 + (s[|s| - 1] as int - '0' as int)
  }

  /** A sign is optional, at least one digit is not, nothing else is accepted, and a value outside int32 is an error. */
  function ParseInt32(s: string): Option<int32> {
    var negative := s != [] && s[0] == '-';
    var digits := if s != [] && (s[0] == '-' || s[0] == '+') then s[1..] else s;
    if digits == [] || !AllDigits(digits) then None
    else
      var v: int := if negative then 0 - DigitsValue(digits) else DigitsValue(digits);
      if -0x8000_0000 <= v < 0x8000_0000 then Some(v) else None
  }

  function PrintNat(n: nat): string {
    var last := ['0' + (n % 10) as char];
    if n < 10 then last else PrintNat(n / 10) + last
  }

  function PrintInt(n: int): string {
    if n < 0 then "-" + PrintNat(-n) else PrintNat(n)
  }

  lemma {:induction false} PrintNatRoundTrip(n: nat)
    ensures PrintNat(n) != [] && AllDigits(PrintNat(n)) && DigitsValue(PrintNat(n)) == n
  {
    var last := ['0' + (n % 10) as char];
    if n < 10 {
      assert last[..0] == [];
    } else {
      PrintNatRoundTrip(n / 10);
      assert PrintNat(n)[..|PrintNat(n)| - 1] == PrintNat(n / 10);
    }
  }

  /** Every int32, negative ones included, is read back as it was printed. */
  lemma PrintParse(n: int32)
    ensures ParseInt32(PrintInt(n)) == Some(n)
  {
    var m: int := if n < 0 then 0 - n else n;
    PrintNatRoundTrip(m);
    if n < 0 {
      assert PrintInt(n)[1..] == PrintNat(m);
    } else {
      assert IsDigit(PrintNat(m)[0]);
    }
  }

  // ---------------------------------------------------------------- what the digits mean

  function PowerOfTen(n: nat): nat {
    if n == 0 then 1 else 10 * PowerOfTen(n - 1)
  }

  /** The value of a digit at a place: a digit counts ten times what it counts one place to its right. */
  function PlaceValue(s: string, i: nat): int
    requires i < |s|
  {
    (s[i] as int - 48) * PowerOfTen(|s| - 1 - i)
  }

  /** The values of the digits from place `i` on. */
  function SumOfPlaces(s: string, i: nat): int
    requires i <= |s|
    decreases |s| - i
  {
    if i == |s| then 0 else PlaceValue(s, i) + SumOfPlaces(s, i + 1)
  }

  lemma {:induction false} PlacesShift(s: string, d: char, i: nat)
    requires i <= |s|
    ensures SumOfPlaces(s + [d], i) == 10 * SumOfPlaces(s, i) + (d as int - 48)
    decreases |s| - i
  {
    var t := s + [d];
    if i == |s| {
      assert PlaceValue(t, i) == d as int - 48;
      assert SumOfPlaces(t, i + 1) == 0;
    } else {
      PlacesShift(s, d, i + 1);
      assert PlaceValue(t, i) == 10 * PlaceValue(s, i);
    }
  }

  /** Decimal digits are read in base ten. */
  lemma {:induction false} DigitsArePositional(s: string)
    requires AllDigits(s)
    ensures DigitsValue(s) == SumOfPlaces(s, 0)
  {
    if s != "" {
      var n := |s| - 1;
      DigitsArePositional(s[..n]);
      PlacesShift(s[..n], s[n], 0);
      assert s == s[..n] + [s[n]];
    }
  }

  /** `d` is a non-empty string of the ten digits, and `n` their value. */
  predicate Denotes(d: string, n: int) {
    d != "" && (forall i :: 0 <= i < |d| ==> 48 <= d[i] as int <= 57) && n == SumOfPlaces(d, 0)
  }

  lemma DigitsDenote(d: string, n: int)
    ensures Denotes(d, n) <==> d != "" && AllDigits(d) && n == DigitsValue(d)
  {
    if AllDigits(d) {
      DigitsArePositional(d);
    }
  }

  /** Exactly what is accepted: digits, a sign before them or none, and a value within 32 bits. */
  lemma ParsesIff(s: string, v: int)
    ensures ParseInt32(s) == Some(v) <==>
            -2147483648 <= v <= 2147483647 &&
            (Denotes(s, v) ||
             (s != "" && s[0] == '+' && Denotes(s[1..], v)) ||
             (s != "" && s[0] == '-' && Denotes(s[1..], -v)))
  {
    DigitsDenote(s, v);
    if s != "" {
      DigitsDenote(s[1..], v);
      DigitsDenote(s[1..], -v);
    }
  }

  /** What is printed has no superfluous characters: no plus sign, and no leading zero. */
  lemma {:induction false} PrintsNoLeadingZero(n: nat)
    ensures |PrintNat(n)| > 1 ==> PrintNat(n)[0] != '0'
  {
    if n >= 10 {
      PrintsNoLeadingZero(n / 10);
      PrintNatRoundTrip(n / 10);
      if n < 100 {
        assert PrintNat(n / 10) == ['0' + (n / 10) as char];
      }
    }
  }

  /** And denotes the number. */
  lemma PrintDenotes(n: int32)
    ensures if n >= 0 then Denotes(PrintInt(n), n) && (|PrintInt(n)| > 1 ==> PrintInt(n)[0] != '0')
            else PrintInt(n)[0] == '-' && Denotes(PrintInt(n)[1..], 0 - n) && PrintInt(n)[1] != '0'
  {
    var m: int := if n < 0 then 0 - n else n;
    PrintNatRoundTrip(m);
    PrintsNoLeadingZero(m);
    DigitsDenote(PrintNat(m), m);
    if n < 0 {
      assert PrintInt(n)[1..] == PrintNat(m);
    }
  }
}
