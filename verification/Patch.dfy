/** JSON Patch as section 4 of RFC 6902 defines it, the rewriting of patch paths that moves a patch from the
    pod template to the whole Job document, and the proof that the rewriting preserves the meaning of the patch. */
module Patch {
  import opened Prelude
  import opened Decimal
  import opened Json

  datatype JobPatch = JobPatch(op: string, path: string, value: Json, from: string)

  const TEMPLATE_PREFIX: string := "/spec/template"

  // ---------------------------------------------------------------- RFC 6902

  datatype Edit = Add | Remove | Replace

  /** The edit applied to the whole document. Removing the document itself is an error. */
  function EditRoot(e: Edit, v: Json): Option<Json> {
    if e == Remove then None else Some(v)
  }

  /** The edit applied to the member or element of `doc` that `t` names. */
  function EditMember(e: Edit, doc: Json, t: string, v: Json): Option<Json> {
    match e
    case Add => (
      match doc
      case Object(fields) => Some(Object(fields[t := v]))
      case Array(items) =>
        if t == "-" then Some(Array(items + [v]))
        else if IsIndex(t) && DigitsValue(t) <= |items| then
          Some(Array(items[..DigitsValue(t)] + [v] + items[DigitsValue(t)..]))
        else None
      case _ => None)
    case Remove =>
      if Child(doc, t).None? then None
      else (
        match doc
        case Object(fields) => Some(Object(fields - {t}))
        case Array(items) => Some(Array(items[..DigitsValue(t)] + items[DigitsValue(t) + 1..])))
    case Replace =>
      if Child(doc, t).None? then None else Some(SetChild(doc, t, v))
  }

  function EditAt(e: Edit, doc: Json, p: Pointer, v: Json): Option<Json> {
    if p == [] then EditRoot(e, v)
    else if |p| == 1 then EditMember(e, doc, p[0], v)
    else
      match Child(doc, p[0])
      case None => None
      case Some(c) =>
        match EditAt(e, c, p[1..], v)
        case None => None
        case Some(c') => Some(SetChild(doc, p[0], c'))
  }

  function Resolve(doc: Json, path: string): Option<Json> {
    match ParsePointer(path)
    case None => None
    case Some(p) => Lookup(doc, p)
  }

  function EditPath(e: Edit, doc: Json, path: string, v: Json): Option<Json> {
    match ParsePointer(path)
    case None => None
    case Some(p) => EditAt(e, doc, p, v)
  }

  /** What is at `from` goes to `path`, where it must not be moved into itself. */
  function MoveFrom(doc: Json, from: Pointer, path: string): Option<Json> {
    match ParsePointer(path)
    case None => None
    case Some(p) =>
      if from < p then None
      else
        match (Lookup(doc, from), EditAt(Remove, doc, from, Null))
        case (Some(v), Some(rest)) => EditAt(Add, rest, p, v)
        case _ => None
  }

  /** One operation; None is an error. An unknown operation is an error. */
  function Apply(patch: JobPatch, doc: Json): Option<Json> {
    if patch.op == "add" then EditPath(Add, doc, patch.path, patch.value)
    else if patch.op == "remove" then EditPath(Remove, doc, patch.path, Null)
    else if patch.op == "replace" then EditPath(Replace, doc, patch.path, patch.value)
    else if patch.op == "test" then
      if Resolve(doc, patch.path) == Some(patch.value) then Some(doc) else None
    else if patch.op == "copy" then
      match Resolve(doc, patch.from)
      case None => None
      case Some(v) => EditPath(Add, doc, patch.path, v)
    else if patch.op == "move" then
      match ParsePointer(patch.from)
      case None => None
      case Some(from) => MoveFrom(doc, from, patch.path)
    else None
  }

  /** The operations in order; the first error ends them all. */
  function ApplyAll(patches: seq<JobPatch>, doc: Json): Option<Json> {
    if patches == [] then Some(doc)
    else
      match Apply(patches[0], doc)
      case None => None
      case Some(doc') => ApplyAll(patches[1..], doc')
  }

  // ---------------------------------------------------------------- the rewriting

  function Rewritten(patch: JobPatch): JobPatch {
    patch.(path := TEMPLATE_PREFIX + patch.path)
  }

  function RewrittenAll(patches: seq<JobPatch>): (r: seq<JobPatch>)
    ensures |r| == |patches|
    ensures forall i :: 0 <= i < |r| ==> r[i] == Rewritten(patches[i])
  {
    seq(|patches|, i requires 0 <= i < |patches| => Rewritten(patches[i]))
  }

  /** The loop over a deep copy of the caller's list: the copy is rewritten in place, the original is left alone, so
      building the same Job again never stacks a second prefix. */
  method RewritePaths(original: array<JobPatch>) returns (patches: array<JobPatch>)
    ensures fresh(patches)
    ensures patches[..] == RewrittenAll(original[..])
    ensures original[..] == old(original[..])
  {
    var copy := original[..];
    patches := new JobPatch[|copy|](i requires 0 <= i < |copy| => copy[i]);
    for i := 0 to patches.Length
      invariant original[..] == copy
      invariant forall k :: 0 <= k < i ==> patches[k] == Rewritten(copy[k])
      invariant forall k :: i <= k < patches.Length ==> patches[k] == copy[k]
    {
      patches[i] := patches[i].(path := TEMPLATE_PREFIX + patches[i].path);
    }
  }

  // ---------------------------------------------------------------- the template inside the Job document

  /** `template` is what `doc` holds at spec.template. */
  predicate Holds(doc: Json, template: Json) {
    doc.Object? && "spec" in doc.fields && doc.fields["spec"].Object? &&
    "template" in doc.fields["spec"].fields && doc.fields["spec"].fields["template"] == template
  }

  /** `doc` with spec.template, and nothing else, replaced. */
  function WithTemplate(doc: Json, template: Json, template': Json): (r: Json)
    requires Holds(doc, template)
    ensures Holds(r, template')
  {
    Object(doc.fields["spec" := Object(doc.fields["spec"].fields["template" := template'])])
  }

  /** What an operation on the whole document should come to: the operation on the template, in place. */
  function InPlace(doc: Json, template: Json, result: Option<Json>): Option<Json>
    requires Holds(doc, template)
  {
    match result case None => None case Some(t) => Some(WithTemplate(doc, template, t))
  }

  lemma WithTemplateTwice(doc: Json, t0: Json, t1: Json, t2: Json)
    requires Holds(doc, t0)
    ensures WithTemplate(WithTemplate(doc, t0, t1), t1, t2) == WithTemplate(doc, t0, t2)
  {
    var spec := doc.fields["spec"].fields;
    assert spec["template" := t1]["template" := t2] == spec["template" := t2];
    var s1, s2 := Object(spec["template" := t1]), Object(spec["template" := t2]);
    assert doc.fields["spec" := s1]["spec" := s2] == doc.fields["spec" := s2];
  }

  lemma WithTemplateIsInjective(doc: Json, t0: Json, t1: Json, t2: Json)
    requires Holds(doc, t0)
    requires WithTemplate(doc, t0, t1) == WithTemplate(doc, t0, t2)
    ensures t1 == t2
  {
    assert Holds(WithTemplate(doc, t0, t1), t1) && Holds(WithTemplate(doc, t0, t2), t2);
  }

  // ---------------------------------------------------------------- pointers

  /** The empty path and every path that starts with a slash. */
  predicate Rooted(path: string) {
    path == "" || path[0] == '/'
  }

  lemma {:induction false} UnescapePlain(t: string)
    requires '~' !in t
    ensures Unescape(t) == Some(t)
  {
    if t != "" {
      UnescapePlain(t[1..]);
      assert [t[0]] + t[1..] == t;
    }
  }

  lemma {:induction false} UnescapeCons(t: string, ts: seq<string>)
    requires '~' !in t
    ensures UnescapeAll([t] + ts) ==
            match UnescapeAll(ts) case None => None case Some(rest) => Some([t] + rest)
  {
    UnescapePlain(t);
    assert ([t] + ts)[1..] == ts;
  }

  predicate Plain(t: string) {
    '/' !in t && '~' !in t
  }

  /** The pieces of a rooted path after its leading slash. */
  function Pieces(path: string): seq<string>
    requires Rooted(path)
  {
    if path == "" then [] else Split(path[1..])
  }

  lemma SplitOne(b: string, path: string)
    requires Plain(b) && Rooted(path)
    ensures Split(b + path) == [b] + Pieces(path)
  {
    if path == "" {
      assert b + path == b;
      SplitPlain(b);
    } else {
      var rest := path[1..];
      assert b + path == b + "/" + rest;
      SplitAtSlash(b, rest);
    }
  }

  lemma SplitPrefixed(a: string, b: string, path: string)
    requires Plain(a) && Plain(b) && Rooted(path)
    ensures Split(a + "/" + (b + path)) == [a] + ([b] + Pieces(path))
  {
    SplitAtSlash(a, b + path);
    SplitOne(b, path);
  }

  lemma TokensAfter(a: string, b: string, path: string)
    requires Plain(a) && Plain(b) && Rooted(path)
    ensures UnescapeAll(Split(a + "/" + (b + path))) ==
            match ParsePointer(path) case None => None case Some(p) => Some([a, b] + p)
  {
    var tail := Pieces(path);
    SplitPrefixed(a, b, path);
    UnescapeCons(a, [b] + tail);
    UnescapeCons(b, tail);
    if ParsePointer(path).Some? {
      var p := ParsePointer(path).value;
      assert [a] + ([b] + p) == [a, b] + p;
    }
  }

  /** The reference tokens of a prefixed path are "spec", "template" and the tokens of the path itself; and the one
      is malformed exactly when the other is. */
  lemma PrefixedTokens(path: string)
    requires Rooted(path)
    ensures ParsePointer(TEMPLATE_PREFIX + path) ==
            match ParsePointer(path) case None => None case Some(p) => Some(["spec", "template"] + p)
  {
    TokensAfter("spec", "template", path);
    assert (TEMPLATE_PREFIX + path)[1..] == "spec" + "/" + ("template" + path);
  }

  lemma {:induction false} SplitPlain(t: string)
    requires '/' !in t
    ensures Split(t) == [t]
  {
    if t != "" {
      SplitPlain(t[1..]);
      assert [t[0]] + t[1..] == t;
    }
  }

  // ---------------------------------------------------------------- one operation

  lemma LookupInTemplate(doc: Json, template: Json, p: Pointer)
    requires Holds(doc, template)
    ensures Lookup(doc, ["spec", "template"] + p) == Lookup(template, p)
  {
    var q := ["spec", "template"] + p;
    assert q[1..][1..] == p;
    assert Lookup(doc, q) == Lookup(doc.fields["spec"], q[1..]);
  }

  lemma EditInTemplate(e: Edit, doc: Json, template: Json, p: Pointer, v: Json)
    requires Holds(doc, template)
    requires e == Remove ==> p != []
    ensures EditAt(e, doc, ["spec", "template"] + p, v) ==
            match EditAt(e, template, p, v) case None => None case Some(t) => Some(WithTemplate(doc, template, t))
  {
    var q := ["spec", "template"] + p;
    var spec := doc.fields["spec"];
    assert q[1..] == ["template"] + p && q[1..][1..] == p;
    assert EditAt(e, spec, q[1..], v) ==
           match EditAt(e, template, p, v) case None => None case Some(t) => Some(Object(spec.fields["template" := t]));
    assert |q| > 1 && q[0] == "spec";
  }

  lemma TemplateStays(doc: Json, template: Json)
    requires Holds(doc, template)
    ensures WithTemplate(doc, template, template) == doc
  {
    var spec := doc.fields["spec"].fields;
    assert spec["template" := template] == spec;
    assert doc.fields["spec" := doc.fields["spec"]] == doc.fields;
  }

  predicate HasSource(op: string) {
    op == "copy" || op == "move"
  }

  /** What an operation says about the template. The source of a copy or a move is not rewritten: it has to be written
      from the root of the whole document. */
  function Meant(patch: JobPatch): JobPatch {
    if HasSource(patch.op) && TEMPLATE_PREFIX <= patch.from then patch.(from := patch.from[|TEMPLATE_PREFIX|..])
    else patch
  }

  function MeantAll(patches: seq<JobPatch>): (r: seq<JobPatch>)
    ensures |r| == |patches|
    ensures forall i :: 0 <= i < |r| ==> r[i] == Meant(patches[i])
  {
    seq(|patches|, i requires 0 <= i < |patches| => Meant(patches[i]))
  }

  /** The operations for which the rewriting is meaning-preserving: at rooted paths, none of them the removal of the
      root, and with sources in the template. */
  predicate Localisable(patch: JobPatch) {
    && Rooted(patch.path)
    && (patch.op == "remove" ==> patch.path != "")
    && (HasSource(patch.op) ==>
          TEMPLATE_PREFIX <= patch.from && Rooted(Meant(patch).from) &&
          (patch.op == "move" ==> Meant(patch).from != ""))
  }

  lemma MoveInTemplate(doc: Json, template: Json, q: Pointer, path: string)
    requires Rooted(path) && Holds(doc, template) && q != []
    ensures MoveFrom(doc, ["spec", "template"] + q, TEMPLATE_PREFIX + path) ==
            InPlace(doc, template, MoveFrom(template, q, path))
  {
    PrefixedTokens(path);
    if ParsePointer(path).Some? {
      var p := ParsePointer(path).value;
      assert (["spec", "template"] + p)[2..] == p && (["spec", "template"] + q)[2..] == q;
      assert ["spec", "template"] + q < ["spec", "template"] + p <==> q < p;
      LookupInTemplate(doc, template, q);
      EditInTemplate(Remove, doc, template, q, Null);
      if Lookup(template, q).Some? && EditAt(Remove, template, q, Null).Some? {
        AddWhatWasRemoved(doc, template, EditAt(Remove, template, q, Null).value, p, Lookup(template, q).value);
      }
    }
  }

  lemma AddWhatWasRemoved(doc: Json, template: Json, rest: Json, p: Pointer, v: Json)
    requires Holds(doc, template)
    ensures EditAt(Add, WithTemplate(doc, template, rest), ["spec", "template"] + p, v) ==
            InPlace(doc, template, EditAt(Add, rest, p, v))
  {
    EditInTemplate(Add, WithTemplate(doc, template, rest), rest, p, v);
    if EditAt(Add, rest, p, v).Some? {
      WithTemplateTwice(doc, template, rest, EditAt(Add, rest, p, v).value);
    }
  }

  /** Written from the root of the whole document, a source works. */
  lemma SourceRewritten(patch: JobPatch, doc: Json, template: Json)
    requires HasSource(patch.op) && Localisable(patch) && Holds(doc, template)
    ensures Apply(Rewritten(patch), doc) == InPlace(doc, template, Apply(Meant(patch), template))
  {
    var from := Meant(patch).from;
    assert patch.from == TEMPLATE_PREFIX + from;
    PrefixedTokens(from);
    if ParsePointer(from).Some? {
      var q := ParsePointer(from).value;
      LookupInTemplate(doc, template, q);
      if patch.op == "move" {
        MoveInTemplate(doc, template, q, patch.path);
      } else if Lookup(template, q).Some? {
        EditRewritten(Add, patch.path, doc, template, Lookup(template, q).value);
      }
    }
  }

  lemma EditRewritten(e: Edit, path: string, doc: Json, template: Json, v: Json)
    requires Rooted(path) && Holds(doc, template) && (e == Remove ==> path != "")
    ensures EditPath(e, doc, TEMPLATE_PREFIX + path, v) == InPlace(doc, template, EditPath(e, template, path, v))
  {
    PrefixedTokens(path);
    if ParsePointer(path).Some? {
      EditInTemplate(e, doc, template, ParsePointer(path).value, v);
    }
  }

  lemma TestRewritten(path: string, doc: Json, template: Json)
    requires Rooted(path) && Holds(doc, template)
    ensures Resolve(doc, TEMPLATE_PREFIX + path) == Resolve(template, path)
  {
    PrefixedTokens(path);
    if ParsePointer(path).Some? {
      LookupInTemplate(doc, template, ParsePointer(path).value);
    }
  }

  lemma ApplyRewritten(patch: JobPatch, doc: Json, template: Json)
    requires Localisable(patch) && Holds(doc, template)
    ensures Apply(Rewritten(patch), doc) == InPlace(doc, template, Apply(Meant(patch), template))
  {
    if HasSource(patch.op) {
      SourceRewritten(patch, doc, template);
    } else if patch.op == "test" {
      TestRewritten(patch.path, doc, template);
      TemplateStays(doc, template);
    } else if patch.op == "remove" {
      EditRewritten(Remove, patch.path, doc, template, Null);
    } else {
      EditRewritten(Add, patch.path, doc, template, patch.value);
      EditRewritten(Replace, patch.path, doc, template, patch.value);
    }
  }

  // ---------------------------------------------------------------- main result

  /** A list of operations written against the template, rewritten and applied to the whole document, succeeds exactly
      when the list succeeds on the template alone, and then changes nothing but the template, into that result. */
  lemma {:induction false} PatchLocalisation(patches: seq<JobPatch>, doc: Json, template: Json)
    requires forall i :: 0 <= i < |patches| ==> Localisable(patches[i])
    requires Holds(doc, template)
    ensures ApplyAll(RewrittenAll(patches), doc) == InPlace(doc, template, ApplyAll(MeantAll(patches), template))
  {
    if patches == [] {
      TemplateStays(doc, template);
    } else {
      ApplyRewritten(patches[0], doc, template);
      assert RewrittenAll(patches)[1..] == RewrittenAll(patches[1..]);
      assert MeantAll(patches)[1..] == MeantAll(patches[1..]);
      if Apply(Meant(patches[0]), template).Some? {
        var t := Apply(Meant(patches[0]), template).value;
        PatchLocalisation(patches[1..], WithTemplate(doc, template, t), t);
        if ApplyAll(MeantAll(patches[1..]), t).Some? {
          WithTemplateTwice(doc, template, t, ApplyAll(MeantAll(patches[1..]), t).value);
        }
      }
    }
  }

  // ---------------------------------------------------------------- where the rewriting is not meaning-preserving

  /** Whether an operation, rewritten, always does on the whole document what it does on the template. */
  ghost predicate MeansTheSame(op: string, path: string) {
    forall doc: Json, template: Json, v: Json {:trigger Holds(doc, template),
      Apply(JobPatch(op, path, v, ""), template)} ::
      Holds(doc, template) ==>
        Apply(Rewritten(JobPatch(op, path, v, "")), doc) ==
        InPlace(doc, template, Apply(JobPatch(op, path, v, ""), template))
  }

  /** A document in which `p` leads to `v`. */
  function Nest(p: Pointer, v: Json): (doc: Json)
    ensures Lookup(doc, p) == Some(v)
  {
    if p == [] then v else Object(map[p[0] := Nest(p[1..], v)])
  }

  lemma {:induction false} UnescapeConcat(a: string, b: string)
    requires '~' !in a
    ensures Unescape(a + b) == match Unescape(b) case None => None case Some(r) => Some(a + r)
  {
    if a == "" {
      assert a + b == b;
      assert Unescape(b).Some? ==> a + Unescape(b).value == Unescape(b).value;
    } else {
      UnescapeConcat(a[1..], b);
      assert (a + b)[1..] == a[1..] + b;
      if Unescape(b).Some? {
        assert [a[0]] + (a[1..] + Unescape(b).value) == a + Unescape(b).value;
      }
    }
  }

  lemma {:induction false} SplitConcat(a: string, b: string)
    requires '/' !in a
    ensures Split(a + b) == [a + Split(b)[0]] + Split(b)[1..]
  {
    if a == "" {
      assert a + b == b && a + Split(b)[0] == Split(b)[0];
    } else {
      SplitConcat(a[1..], b);
      assert (a + b)[1..] == a[1..] + b;
      assert [a[0]] + (a[1..] + Split(b)[0]) == a + Split(b)[0];
    }
  }

  /** The last piece of the prefix runs on into an unrooted path. */
  lemma UnrootedPiece(path: string)
    requires !Rooted(path)
    ensures var first := Split(path)[0];
            first != "" && Split("template" + path)[0] == "template" + first &&
            Unescape("template" + first) != Some("template")
  {
    var first := Split(path)[0];
    SplitConcat("template", path);
    UnescapeConcat("template", first);
    assert Unescape(first).Some? ==> Unescape(first).value != "";
  }

  /** A path without its leading slash names a sibling of the template. */
  lemma UnrootedTokens(path: string)
    requires !Rooted(path) && ParsePointer(TEMPLATE_PREFIX + path).Some?
    ensures var q := ParsePointer(TEMPLATE_PREFIX + path).value;
            |q| >= 2 && q[0] == "spec" && q[1] != "template"
  {
    var rest := Split("template" + path);
    assert (TEMPLATE_PREFIX + path)[1..] == "spec" + "/" + ("template" + path);
    SplitAtSlash("spec", "template" + path);
    UnescapeCons("spec", rest);
    UnrootedPiece(path);
  }

  lemma {:induction false} NestCanBeEdited(e: Edit, p: Pointer, v: Json, w: Json)
    requires p != []
    ensures EditAt(e, Nest(p, v), p, w).Some?
  {
    if |p| > 1 {
      NestCanBeEdited(e, p[1..], v, w);
    }
  }

  /** A Job document with a null template and, next to it, something at `q`. */
  function Beside(q: Pointer): (doc: Json)
    requires |q| >= 2 && q[0] == "spec" && q[1] != "template"
    ensures Holds(doc, Null)
  {
    Object(map["spec" := Object(map["template" := Null, q[1] := Nest(q[2..], Null)])])
  }

  lemma BesideCanBeEdited(e: Edit, q: Pointer)
    requires |q| >= 2 && q[0] == "spec" && q[1] != "template"
    ensures EditAt(e, Beside(q), q, Null).Some? && Lookup(Beside(q), q) == Some(Null)
  {
    var spec := Beside(q).fields["spec"];
    assert q[1..][1..] == q[2..];
    if |q| > 2 {
      NestCanBeEdited(e, q[2..], Null, Null);
    }
    assert EditAt(e, spec, q[1..], Null).Some?;
    assert Lookup(Beside(q), q) == Lookup(spec, q[1..]) == Some(Null);
  }

  predicate IsEdit(op: string) {
    op == "add" || op == "remove" || op == "replace" || op == "test"
  }

  /** An unrooted path is an error on the template, yet names a sibling of the template once rewritten. */
  lemma UnrootedEscapes(op: string, path: string)
    requires IsEdit(op) && !Rooted(path) && ParsePointer(TEMPLATE_PREFIX + path).Some?
    ensures var doc := (UnrootedTokens(path); Beside(ParsePointer(TEMPLATE_PREFIX + path).value));
            Apply(JobPatch(op, path, Null, ""), Null) == None &&
            Apply(Rewritten(JobPatch(op, path, Null, "")), doc).Some?
  {
    UnrootedTokens(path);
    var q := ParsePointer(TEMPLATE_PREFIX + path).value;
    BesideCanBeEdited(Add, q);
    BesideCanBeEdited(Remove, q);
    BesideCanBeEdited(Replace, q);
  }

  /** Removing the root is an error on the template; rewritten it deletes the template. */
  lemma RemoveRootDeletesTheTemplate(doc: Json, template: Json)
    requires Holds(doc, template)
    ensures Apply(JobPatch("remove", "", Null, ""), template) == None
    ensures Apply(Rewritten(JobPatch("remove", "", Null, "")), doc) ==
            Some(Object(doc.fields["spec" := Object(doc.fields["spec"].fields - {"template"})]))
  {
    PrefixedTokens("");
    assert ["spec", "template"] + [] == ["spec", "template"];
    RemoveTwoDown(doc, "spec", "template");
  }

  lemma RemoveTwoDown(doc: Json, a: string, b: string)
    requires doc.Object? && a in doc.fields && doc.fields[a].Object? && b in doc.fields[a].fields
    ensures EditAt(Remove, doc, [a, b], Null) == Some(Object(doc.fields[a := Object(doc.fields[a].fields - {b})]))
  {
    assert [a, b][1..] == [b];
    assert EditAt(Remove, doc.fields[a], [b], Null) == Some(Object(doc.fields[a].fields - {b}));
  }

  lemma LocalisableMeansTheSame(op: string, path: string)
    requires IsEdit(op) && Localisable(JobPatch(op, path, Null, ""))
    ensures MeansTheSame(op, path)
  {
    forall doc: Json, template: Json, v: Json | Holds(doc, template)
      ensures Apply(Rewritten(JobPatch(op, path, v, "")), doc) ==
              InPlace(doc, template, Apply(JobPatch(op, path, v, ""), template))
    {
      ApplyRewritten(JobPatch(op, path, v, ""), doc, template);
    }
  }

  /** Malformed escapes are an error either way. */
  lemma MalformedMeansTheSame(op: string, path: string)
    requires IsEdit(op) && ParsePointer(TEMPLATE_PREFIX + path).None?
    ensures MeansTheSame(op, path)
  {
    if Rooted(path) {
      PrefixedTokens(path);
    }
  }

  /** A document that shows the difference is a counterexample. */
  lemma Differs(op: string, path: string, doc: Json)
    requires Holds(doc, Null) && Apply(JobPatch(op, path, Null, ""), Null) == None
    requires Apply(Rewritten(JobPatch(op, path, Null, "")), doc).Some?
    ensures !MeansTheSame(op, path)
  {
  }

  /** Exactly when add, remove, replace or test keeps its meaning: the path is empty or starts with a slash, and it is
      not the removal of the root; or the path has malformed escapes. */
  lemma RewritingPreservesMeaningIff(op: string, path: string)
    requires IsEdit(op)
    ensures MeansTheSame(op, path) <==>
            Localisable(JobPatch(op, path, Null, "")) || ParsePointer(TEMPLATE_PREFIX + path).None?
  {
    if Localisable(JobPatch(op, path, Null, "")) {
      LocalisableMeansTheSame(op, path);
    } else if ParsePointer(TEMPLATE_PREFIX + path).None? {
      MalformedMeansTheSame(op, path);
    } else if Rooted(path) {
      var doc := Object(map["spec" := Object(map["template" := Null])]);
      RemoveRootDeletesTheTemplate(doc, Null);
      Differs(op, path, doc);
    } else {
      UnrootedEscapes(op, path);
      UnrootedTokens(path);
      Differs(op, path, Beside(ParsePointer(TEMPLATE_PREFIX + path).value));
    }
  }

  lemma {:induction false} AddIsInjective(doc: Json, p: Pointer, v: Json, w: Json)
    ensures EditAt(Add, doc, p, v).Some? <==> EditAt(Add, doc, p, w).Some?
    ensures EditAt(Add, doc, p, v).Some? && EditAt(Add, doc, p, v) == EditAt(Add, doc, p, w) ==> v == w
  {
    if |p| == 1 {
      match doc
      case Object(fields) => assert fields[p[0] := v][p[0]] == v && fields[p[0] := w][p[0]] == w;
      case Array(items) =>
        if p[0] == "-" {
          assert (items + [v])[|items|] == v && (items + [w])[|items|] == w;
        } else if IsIndex(p[0]) && DigitsValue(p[0]) <= |items| {
          var i := DigitsValue(p[0]);
          assert (items[..i] + [v] + items[i..])[i] == v && (items[..i] + [w] + items[i..])[i] == w;
        }
      case _ =>
    } else if |p| > 1 && Child(doc, p[0]).Some? {
      AddIsInjective(Child(doc, p[0]).value, p[1..], v, w);
      var a, b := EditAt(Add, Child(doc, p[0]).value, p[1..], v), EditAt(Add, Child(doc, p[0]).value, p[1..], w);
      if a.Some? {
        assert Child(SetChild(doc, p[0], a.value), p[0]) == a && Child(SetChild(doc, p[0], b.value), p[0]) == b;
      }
    }
  }

  /** `from` is not rewritten, so a `copy` reads the whole document instead of the template. It keeps its meaning
      exactly when `from` finds the same thing in both, or the target does not exist anyway. */
  lemma CopyKeepsMeaningIff(patch: JobPatch, doc: Json, template: Json)
    requires patch.op == "copy" && Rooted(patch.path) && Holds(doc, template)
    ensures (Apply(Rewritten(patch), doc) ==
             InPlace(doc, template, Apply(patch, template)))
            <==>
            (Resolve(doc, patch.from) == Resolve(template, patch.from) ||
             EditPath(Add, template, patch.path, Null).None?)
  {
    PrefixedTokens(patch.path);
    if ParsePointer(patch.path).Some? {
      var p := ParsePointer(patch.path).value;
      var inDoc, inTemplate := Resolve(doc, patch.from), Resolve(template, patch.from);
      if inDoc.Some? {
        EditInTemplate(Add, doc, template, p, inDoc.value);
        AddIsInjective(template, p, inDoc.value, Null);
        if inTemplate.Some? {
          AddIsInjective(template, p, inDoc.value, inTemplate.value);
          var a, b := EditAt(Add, template, p, inDoc.value), EditAt(Add, template, p, inTemplate.value);
          if a.Some? && WithTemplate(doc, template, a.value) == WithTemplate(doc, template, b.value) {
            WithTemplateIsInjective(doc, template, a.value, b.value);
          }
        }
      } else if inTemplate.Some? {
        AddIsInjective(template, p, inTemplate.value, Null);
      }
    }
  }
}
