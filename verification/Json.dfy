/** JSON documents, and JSON pointers as section 3 and section 4 of RFC 6901 define them. */
module Json {
  import opened Prelude
  import opened Decimal

  datatype Json =
    | Null
    | Bool(b: bool)
    | Number(n: int)
    | String(s: string)
    | Array(items: seq<Json>)
    | Object(fields: map<string, Json>)

  type Pointer = seq<string>

  /** The pieces of `s` between slashes; never empty. */
  function Split(s: string): (r: seq<string>)
    ensures r != []
  {
    if s == "" then [""]
    else if s[0] == '/' then [""] + Split(s[1..])
    else
      var rest := Split(s[1..]);
      [[s[0]] + rest[0]] + rest[1..]
  }

  /** `~1` stands for a slash and `~0` for a tilde; any other use of a tilde is an error. */
  function Unescape(t: string): Option<string> {
    if t == "" then Some("")
    else if t[0] != '~' then
      match Unescape(t[1..])
      case None => None
      case Some(rest) => Some([t[0]] + rest)
    else if |t| == 1 || (t[1] != '0' && t[1] != '1') then None
    else
      match Unescape(t[2..])
      case None => None
      case Some(rest) => Some([if t[1] == '0' then '~' else '/'] + rest)
  }

  function UnescapeAll(ts: seq<string>): (r: Option<Pointer>)
    ensures r.Some? ==> |r.value| == |ts|
  {
    if ts == [] then Some([])
    else
      match (Unescape(ts[0]), UnescapeAll(ts[1..]))
      case (Some(t), Some(rest)) => Some([t] + rest)
      case _ => None
  }

  /** The empty string is the whole document; every other pointer starts with a slash. */
  function ParsePointer(p: string): Option<Pointer> {
    if p == "" then Some([])
    else if p[0] != '/' then None
    else UnescapeAll(Split(p[1..]))
  }

  /** An array index is "0" or digits without a leading zero. */
  predicate IsIndex(t: string) {
    t != "" && AllDigits(t) && (|t| == 1 || t[0] != '0')
  }

  /** The member or element that one reference token names. */
  function Child(doc: Json, t: string): Option<Json> {
    match doc
    case Object(fields) => if t in fields then Some(fields[t]) else None
    case Array(items) =>
      if IsIndex(t) && DigitsValue(t) < |items| then Some(items[DigitsValue(t)]) else None
    case _ => None
  }

  /** `doc` with the member or element that `t` names replaced. */
  function SetChild(doc: Json, t: string, v: Json): (r: Json)
    requires Child(doc, t).Some?
    ensures Child(r, t) == Some(v)
  {
    match doc
    case Object(fields) => Object(fields[t := v])
    case Array(items) => Array(items[DigitsValue(t) := v])
  }

  function Lookup(doc: Json, p: Pointer): Option<Json> {
    if p == [] then Some(doc)
    else
      match Child(doc, p[0])
      case None => None
      case Some(c) => Lookup(c, p[1..])
  }

  lemma {:induction false} SplitAtSlash(a: string, b: string)
    requires '/' !in a
    ensures Split(a + "/" + b) == [a] + Split(b)
  {
    if a == "" {
      assert a + "/" + b == "/" + b;
      assert ("/" + b)[1..] == b;
    } else {
      var s := a + "/" + b;
      assert s[1..] == a[1..] + "/" + b;
      SplitAtSlash(a[1..], b);
      assert [a[0]] + a[1..] == a;
    }
  }
}
