/** What one patch operation does to a document: to the value that it names, and to everything else. Together with
    Pointers this says of every operation of section 4 of RFC 6902 what its result is and when it is an error. */
module Edits {
  import opened Prelude
  import opened Decimal
  import opened Json
  import opened Patch
  import opened Pointers

  // ---------------------------------------------------------------- what an operation leaves alone

  /** The two pointers part before either ends. */
  predicate Apart(p: Pointer, q: Pointer) {
    p != [] && q != [] && (p[0] != q[0] || Apart(p[1..], q[1..]))
  }

  ghost predicate SameElsewhere(doc: Json, result: Json, p: Pointer) {
    forall q {:trigger Lookup(result, q)} :: Apart(p, q) ==> Lookup(result, q) == Lookup(doc, q)
  }

  /** The operation succeeds, puts `container` where there was another one at `p`, and changes nothing else. */
  ghost predicate Changes(doc: Json, result: Option<Json>, p: Pointer, container: Json) {
    result.Some? && Lookup(result.value, p) == Some(container) && SameElsewhere(doc, result.value, p)
  }

  lemma OtherChildrenStay(doc: Json, t: string, c: Json, u: string)
    requires Child(doc, t).Some? && u != t
    ensures Child(SetChild(doc, t, c), u) == Child(doc, u)
  {
    if doc.Array? && IsIndex(u) {
      IndicesAreDecimal(t, DigitsValue(t));
      IndicesAreDecimal(u, DigitsValue(u));
    }
  }

  lemma {:induction false} EditIsLocal(e: Edit, doc: Json, p: Pointer, t: string, v: Json)
    ensures EditAt(e, doc, p + [t], v).Some? <==>
            Lookup(doc, p).Some? && EditAt(e, Lookup(doc, p).value, [t], v).Some?
    ensures EditAt(e, doc, p + [t], v).Some? ==>
              Changes(doc, EditAt(e, doc, p + [t], v), p, EditAt(e, Lookup(doc, p).value, [t], v).value)
  {
    if p == [] {
      assert p + [t] == [t];
    } else if Child(doc, p[0]).Some? {
      var c := Child(doc, p[0]).value;
      assert (p + [t])[1..] == p[1..] + [t] && (p + [t])[0] == p[0];
      EditIsLocal(e, c, p[1..], t, v);
      if EditAt(e, c, p[1..] + [t], v).Some? {
        var c' := EditAt(e, c, p[1..] + [t], v).value;
        LocalBelow(doc, p, c, c');
      }
    }
  }

  lemma LocalBelow(doc: Json, p: Pointer, c: Json, c': Json)
    requires p != [] && Child(doc, p[0]) == Some(c) && SameElsewhere(c, c', p[1..])
    ensures SameElsewhere(doc, SetChild(doc, p[0], c'), p)
  {
    var r := SetChild(doc, p[0], c');
    forall q | Apart(p, q) ensures Lookup(r, q) == Lookup(doc, q) {
      if q[0] == p[0] {
        assert Lookup(r, q) == Lookup(c', q[1..]) && Lookup(doc, q) == Lookup(c, q[1..]);
      } else {
        OtherChildrenStay(doc, p[0], c', q[0]);
      }
    }
  }

  // ---------------------------------------------------------------- add

  /** `longer` is `items` with `v` at `i`; what was there and after it moves up by one. */
  ghost predicate Inserted(items: seq<Json>, longer: seq<Json>, i: nat, v: Json) {
    && |longer| == |items| + 1 && i <= |items| && longer[i] == v
    && (forall k :: 0 <= k < i ==> longer[k] == items[k])
    && (forall k :: i <= k < |items| ==> longer[k + 1] == items[k])
  }

  function AddTo(p: Pointer, t: string, v: Json): JobPatch {
    JobPatch("add", Written(p + [t]), v, "")
  }

  lemma AddLooksAt(doc: Json, p: Pointer, t: string, v: Json)
    ensures Apply(AddTo(p, t, v), doc) == EditAt(Add, doc, p + [t], v)
  {
    PointsTo(Written(p + [t]), p + [t]);
  }

  /** An add at "-" appends. */
  lemma AddAppends(doc: Json, p: Pointer, v: Json, items: seq<Json>) returns (longer: seq<Json>)
    requires Lookup(doc, p) == Some(Array(items))
    ensures Changes(doc, Apply(AddTo(p, "-", v), doc), p, Array(longer)) && Inserted(items, longer, |items|, v)
  {
    AddLooksAt(doc, p, "-", v);
    EditIsLocal(Add, doc, p, "-", v);
    longer := items + [v];
  }

  /** An add at an index inserts there; behind the end it is an error. */
  lemma AddInserts(doc: Json, p: Pointer, i: nat, v: Json, items: seq<Json>) returns (longer: seq<Json>)
    requires Lookup(doc, p) == Some(Array(items))
    ensures i <= |items| ==>
              Changes(doc, Apply(AddTo(p, PrintNat(i), v), doc), p, Array(longer)) && Inserted(items, longer, i, v)
    ensures i > |items| ==> Apply(AddTo(p, PrintNat(i), v), doc) == None
  {
    var t := PrintNat(i);
    AddLooksAt(doc, p, t, v);
    EditIsLocal(Add, doc, p, t, v);
    IndicesAreDecimal(t, i);
    assert t != "-" by {
      assert !IsDigit("-"[0]);
    }
    longer := if i <= |items| then items[..i] + [v] + items[i..] else [];
  }

  /** Any other token is an error. */
  lemma AddNeedsAPlace(doc: Json, p: Pointer, t: string, v: Json, items: seq<Json>)
    requires Lookup(doc, p) == Some(Array(items)) && Apply(AddTo(p, t, v), doc).Some?
    ensures t == "-" || exists i :: 0 <= i <= |items| && t == PrintNat(i)
  {
    AddLooksAt(doc, p, t, v);
    EditIsLocal(Add, doc, p, t, v);
    if t != "-" {
      IndicesAreDecimal(t, DigitsValue(t));
    }
  }

  /** Every other key keeps its value, or stays absent. */
  ghost predicate OtherKeysStay(fields: map<string, Json>, fields': map<string, Json>, t: string) {
    forall k :: k != t ==> (k in fields' <==> k in fields) && (k in fields ==> fields'[k] == fields[k])
  }

  /** An add to an object sets the member, whether it was there or not. */
  lemma AddSets(doc: Json, p: Pointer, t: string, v: Json, fields: map<string, Json>)
    returns (fields': map<string, Json>)
    requires Lookup(doc, p) == Some(Object(fields))
    ensures Changes(doc, Apply(AddTo(p, t, v), doc), p, Object(fields'))
    ensures t in fields' && fields'[t] == v && OtherKeysStay(fields, fields', t)
  {
    AddLooksAt(doc, p, t, v);
    EditIsLocal(Add, doc, p, t, v);
    fields' := fields[t := v];
  }

  /** Nothing can be added to what is not there, or is no container. */
  lemma AddNeedsAContainer(doc: Json, p: Pointer, t: string, v: Json)
    requires Lookup(doc, p).Some? ==> !Lookup(doc, p).value.Array? && !Lookup(doc, p).value.Object?
    ensures Apply(AddTo(p, t, v), doc) == None
  {
    AddLooksAt(doc, p, t, v);
    EditIsLocal(Add, doc, p, t, v);
  }

  // ---------------------------------------------------------------- remove and replace

  function RemoveAt(p: Pointer, t: string): JobPatch {
    JobPatch("remove", Written(p + [t]), Null, "")
  }

  function ReplaceAt(p: Pointer, t: string, v: Json): JobPatch {
    JobPatch("replace", Written(p + [t]), v, "")
  }

  lemma EditLooksAt(doc: Json, p: Pointer, t: string, v: Json)
    ensures Apply(RemoveAt(p, t), doc) == EditAt(Remove, doc, p + [t], Null)
    ensures Apply(ReplaceAt(p, t, v), doc) == EditAt(Replace, doc, p + [t], v)
  {
    PointsTo(Written(p + [t]), p + [t]);
  }

  /** The element at an index is taken out of an array, and what comes after it moves down by one; or it is replaced,
      and all others stay. */
  lemma ElementsChange(doc: Json, p: Pointer, i: nat, v: Json, items: seq<Json>)
    returns (shorter: seq<Json>, replaced: seq<Json>)
    requires Lookup(doc, p) == Some(Array(items)) && i < |items|
    ensures Changes(doc, Apply(RemoveAt(p, PrintNat(i)), doc), p, Array(shorter)) &&
            Inserted(shorter, items, i, items[i])
    ensures Changes(doc, Apply(ReplaceAt(p, PrintNat(i), v), doc), p, Array(replaced))
    ensures |replaced| == |items| && forall k :: 0 <= k < |items| ==> replaced[k] == if k == i then v else items[k]
  {
    var t := PrintNat(i);
    EditLooksAt(doc, p, t, v);
    EditIsLocal(Remove, doc, p, t, Null);
    EditIsLocal(Replace, doc, p, t, v);
    IndicesAreDecimal(t, i);
    shorter, replaced := items[..i] + items[i + 1..], items[i := v];
  }

  /** A member is taken out of an object, or its value is replaced, and all others stay. */
  lemma MembersChange(doc: Json, p: Pointer, t: string, v: Json, fields: map<string, Json>)
    returns (fewer: map<string, Json>, replaced: map<string, Json>)
    requires Lookup(doc, p) == Some(Object(fields)) && t in fields
    ensures Changes(doc, Apply(RemoveAt(p, t), doc), p, Object(fewer)) && t !in fewer && OtherKeysStay(fields, fewer, t)
    ensures Changes(doc, Apply(ReplaceAt(p, t, v), doc), p, Object(replaced))
    ensures t in replaced && replaced[t] == v && OtherKeysStay(fields, replaced, t)
  {
    EditLooksAt(doc, p, t, v);
    EditIsLocal(Remove, doc, p, t, Null);
    EditIsLocal(Replace, doc, p, t, v);
    fewer, replaced := fields - {t}, fields[t := v];
  }

  lemma {:induction false} LookupSnoc(doc: Json, p: Pointer, t: string)
    ensures Lookup(doc, p + [t]) == match Lookup(doc, p) case None => None case Some(c) => Child(c, t)
  {
    if p == [] {
      assert p + [t] == [t] && [t][1..] == [];
    } else {
      assert (p + [t])[1..] == p[1..] + [t];
      if Child(doc, p[0]).Some? {
        LookupSnoc(Child(doc, p[0]).value, p[1..], t);
      }
    }
  }

  /** What is not there can be neither removed nor replaced. */
  lemma OnlyWhatIsThere(doc: Json, p: Pointer, t: string, v: Json)
    requires Lookup(doc, p + [t]) == None
    ensures Apply(RemoveAt(p, t), doc) == None && Apply(ReplaceAt(p, t, v), doc) == None
  {
    EditLooksAt(doc, p, t, v);
    LookupSnoc(doc, p, t);
    EditIsLocal(Remove, doc, p, t, Null);
    EditIsLocal(Replace, doc, p, t, v);
  }

  /** The whole document can be replaced, in two ways, but not removed. */
  lemma WholeDocument(doc: Json, v: Json)
    ensures Apply(JobPatch("add", "", v, ""), doc) == Apply(JobPatch("replace", "", v, ""), doc) == Some(v)
    ensures Apply(JobPatch("remove", "", v, ""), doc) == None
  {
  }

  // ---------------------------------------------------------------- the other operations

  /** A test succeeds exactly when the value is there, and changes nothing. */
  lemma TestIff(doc: Json, p: Pointer, v: Json)
    ensures var result := Apply(JobPatch("test", Written(p), v, ""), doc);
            (result.Some? <==> Lookup(doc, p) == Some(v)) && (result.Some? ==> result.value == doc)
  {
    PointsTo(Written(p), p);
  }

  /** A copy adds what its source finds. */
  lemma CopyAddsWhatIsThere(doc: Json, from: Pointer, path: string, v: Json)
    ensures Lookup(doc, from) == Some(v) ==>
              Apply(JobPatch("copy", path, Null, Written(from)), doc) == Apply(JobPatch("add", path, v, ""), doc)
    ensures Lookup(doc, from) == None ==> Apply(JobPatch("copy", path, Null, Written(from)), doc) == None
  {
    PointsTo(Written(from), from);
  }

  /** A move takes its source away and then adds it, unless it would go into itself. */
  lemma MoveRemovesAndAdds(doc: Json, from: Pointer, to: Pointer, v: Json)
    ensures var moved := Apply(JobPatch("move", Written(to), Null, Written(from)), doc);
            && (from < to || Lookup(doc, from) == None ==> moved == None)
            && (!(from < to) && Lookup(doc, from) == Some(v) ==>
                  moved == ApplyAll([JobPatch("remove", Written(from), Null, ""), JobPatch("add", Written(to), v, "")],
                                    doc))
  {
    PointsTo(Written(from), from);
    PointsTo(Written(to), to);
    InOrder([JobPatch("remove", Written(from), Null, "")], [JobPatch("add", Written(to), v, "")], doc);
    OneOperation(JobPatch("remove", Written(from), Null, ""), doc);
    if EditAt(Remove, doc, from, Null).Some? {
      OneOperation(JobPatch("add", Written(to), v, ""), EditAt(Remove, doc, from, Null).value);
    }
    assert [JobPatch("remove", Written(from), Null, "")] + [JobPatch("add", Written(to), v, "")] ==
           [JobPatch("remove", Written(from), Null, ""), JobPatch("add", Written(to), v, "")];
  }

  /** What is no pointer, and what is no operation, is an error. */
  lemma MalformedIsAnError(patch: JobPatch, doc: Json)
    requires (forall p :: patch.path != Written(p)) ||
             (HasSource(patch.op) && forall p :: patch.from != Written(p)) ||
             patch.op !in ["add", "remove", "replace", "test", "copy", "move"]
    ensures Apply(patch, doc) == None
  {
    if ParsePointer(patch.path).Some? {
      PointsTo(patch.path, ParsePointer(patch.path).value);
    }
    if ParsePointer(patch.from).Some? {
      PointsTo(patch.from, ParsePointer(patch.from).value);
    }
  }

  // ---------------------------------------------------------------- lists of operations

  lemma OneOperation(patch: JobPatch, doc: Json)
    ensures ApplyAll([patch], doc) == Apply(patch, doc)
  {
    assert [patch][1..] == [];
  }

  /** One after the other: the second list finds what the first has made, and an error ends both. */
  lemma {:induction false} InOrder(a: seq<JobPatch>, b: seq<JobPatch>, doc: Json)
    ensures ApplyAll(a + b, doc) == match ApplyAll(a, doc) case None => None case Some(d) => ApplyAll(b, d)
  {
    if a == [] {
      assert a + b == b;
    } else {
      assert (a + b)[1..] == a[1..] + b;
      if Apply(a[0], doc).Some? {
        InOrder(a[1..], b, Apply(a[0], doc).value);
      }
    }
  }
}
