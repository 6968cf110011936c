/** Moves. The rewriting leaves `from` alone, so what becomes of a move depends on how `from` is written. */
module Moves {
  import opened Prelude
  import opened Decimal
  import opened Json
  import opened Patch

  const TEMPLATE_TOKENS: Pointer := ["spec", "template"]

  // ---------------------------------------------------------------- a source outside the template

  /** Taking something away leaves another document. */
  lemma {:induction false} RemovalShows(doc: Json, p: Pointer)
    requires EditAt(Remove, doc, p, Null).Some?
    ensures EditAt(Remove, doc, p, Null).value != doc
  {
    if |p| > 1 {
      RemovalShows(Child(doc, p[0]).value, p[1..]);
      assert Child(doc, p[0]) != Some(EditAt(Remove, Child(doc, p[0]).value, p[1..], Null).value);
    } else if doc.Object? {
      assert p[0] in doc.fields;
    } else {
      var i := DigitsValue(p[0]);
      assert |doc.items[..i] + doc.items[i + 1..]| == |doc.items| - 1;
    }
  }

  /** Of an object it changes the member that the pointer begins with, and no other. */
  lemma RemovalIsLocal(doc: Json, p: Pointer)
    requires doc.Object? && EditAt(Remove, doc, p, Null).Some?
    ensures var rest := EditAt(Remove, doc, p, Null).value;
            && rest.Object? && p != []
            && (forall k :: k != p[0] ==> Child(rest, k) == Child(doc, k))
            && Child(rest, p[0]) != Child(doc, p[0])
            && (|p| > 1 ==>
                  Child(doc, p[0]).Some? &&
                  Child(rest, p[0]) == EditAt(Remove, Child(doc, p[0]).value, p[1..], Null))
  {
    if |p| > 1 {
      RemovalShows(Child(doc, p[0]).value, p[1..]);
    }
  }

  /** The pointer leads somewhere else than into the template, and not to something that contains it. */
  predicate Elsewhere(p: Pointer) {
    p != [] && (p[0] != "spec" || (|p| > 1 && p[1] != "template"))
  }

  /** A removal elsewhere leaves the template alone, and shows whatever becomes of the template. */
  lemma RemovalElsewhere(doc: Json, template: Json, p: Pointer, t1: Json, t2: Json)
    requires Holds(doc, template) && Elsewhere(p) && EditAt(Remove, doc, p, Null).Some?
    ensures var rest := EditAt(Remove, doc, p, Null).value;
            Holds(rest, template) && WithTemplate(rest, template, t1) != WithTemplate(doc, template, t2)
  {
    var rest := EditAt(Remove, doc, p, Null).value;
    RemovalIsLocal(doc, p);
    if p[0] != "spec" {
      assert Child(rest, "spec") == Child(doc, "spec");
      assert Child(WithTemplate(rest, template, t1), p[0]) == Child(rest, p[0]);
      assert Child(WithTemplate(doc, template, t2), p[0]) == Child(doc, p[0]);
    } else {
      var spec, spec' := doc.fields["spec"], rest.fields["spec"];
      RemovalIsLocal(spec, p[1..]);
      assert Child(spec', "template") == Child(spec, "template");
      assert Child(WithTemplate(rest, template, t1).fields["spec"], p[1]) == Child(spec', p[1]);
      assert Child(WithTemplate(doc, template, t2).fields["spec"], p[1]) == Child(spec, p[1]);
    }
  }

  /** Whatever can be looked up below the root can be removed. */
  lemma {:induction false} FoundCanBeRemoved(doc: Json, p: Pointer)
    requires p != []
    ensures Lookup(doc, p).Some? <==> EditAt(Remove, doc, p, Null).Some?
  {
    if |p| > 1 && Child(doc, p[0]).Some? {
      FoundCanBeRemoved(Child(doc, p[0]).value, p[1..]);
    } else {
      assert p[1..] == [] || Child(doc, p[0]).None?;
    }
  }

  // ---------------------------------------------------------------- when a move is an error

  /** The source can be taken away, and the target is not in it and exists without it. */
  predicate CanMove(doc: Json, from: Pointer, path: string) {
    var target, rest := ParsePointer(path), EditAt(Remove, doc, from, Null);
    target.Some? && rest.Some? && !(from < target.value) && EditAt(Add, rest.value, target.value, Null).Some?
  }

  lemma MoveSucceedsIff(doc: Json, from: Pointer, path: string)
    ensures MoveFrom(doc, from, path).Some? <==> CanMove(doc, from, path)
  {
    if from != [] {
      FoundCanBeRemoved(doc, from);
    }
    var rest := EditAt(Remove, doc, from, Null);
    if rest.Some? && ParsePointer(path).Some? {
      AddIsInjective(rest.value, ParsePointer(path).value, Lookup(doc, from).value, Null);
    }
  }

  // ---------------------------------------------------------------- a move, rewritten

  /** The source is elsewhere than in the template, and it and the target exist. */
  predicate TakesFromElsewhere(doc: Json, template: Json, from: Pointer, path: string) {
    Elsewhere(from) && Lookup(doc, from).Some? && EditPath(Add, template, path, Null).Some?
  }

  lemma AddRewritten(doc: Json, template: Json, path: string, v: Json)
    requires Rooted(path) && Holds(doc, template)
    ensures EditPath(Add, doc, TEMPLATE_PREFIX + path, v) == InPlace(doc, template, EditPath(Add, template, path, v))
    ensures EditPath(Add, template, path, v).Some? <==> EditPath(Add, template, path, Null).Some?
  {
    EditRewritten(Add, path, doc, template, v);
    if ParsePointer(path).Some? {
      AddIsInjective(template, ParsePointer(path).value, v, Null);
    }
  }

  /** With its source elsewhere it succeeds exactly when source and target exist, and then something outside the
      template is gone. */
  lemma MoveFromElsewhere(doc: Json, template: Json, from: Pointer, path: string, result: Option<Json>)
    requires Rooted(path) && Holds(doc, template) && Elsewhere(from)
    ensures var moved := MoveFrom(doc, from, TEMPLATE_PREFIX + path);
            && (moved.Some? <==> TakesFromElsewhere(doc, template, from, path))
            && (moved.Some? ==> moved != InPlace(doc, template, result))
  {
    PrefixedTokens(path);
    FoundCanBeRemoved(doc, from);
    if Lookup(doc, from).Some? {
      var v, rest := Lookup(doc, from).value, EditAt(Remove, doc, from, Null).value;
      RemovalElsewhere(doc, template, from, template, template);
      AddRewritten(rest, template, path, v);
      var added := EditPath(Add, template, path, v);
      if added.Some? && result.Some? {
        RemovalElsewhere(doc, template, from, added.value, result.value);
      }
    }
  }

  /** With a source that contains the template it is an error. */
  lemma MoveFromAround(doc: Json, from: Pointer, path: string)
    requires Rooted(path) && from < TEMPLATE_TOKENS
    ensures MoveFrom(doc, from, TEMPLATE_PREFIX + path) == None
  {
    PrefixedTokens(path);
    if ParsePointer(path).Some? {
      assert from < TEMPLATE_TOKENS + ParsePointer(path).value;
    }
  }

  /** Nothing contains itself. */
  lemma {:induction false} NotInItself(doc: Json, p: Pointer)
    requires p != []
    ensures Lookup(doc, p) != Some(doc)
    decreases doc
  {
    if Lookup(doc, p) == Some(doc) {
      var c := Child(doc, p[0]).value;
      LookupFurther(c, p[1..], p[0]);
      NotInItself(c, p[1..] + [p[0]]);
    }
  }

  lemma {:induction false} LookupFurther(doc: Json, p: Pointer, t: string)
    requires Lookup(doc, p).Some?
    ensures Lookup(doc, p + [t]) == Child(Lookup(doc, p).value, t)
  {
    if p != [] {
      assert (p + [t])[1..] == p[1..] + [t];
      LookupFurther(Child(doc, p[0]).value, p[1..], t);
    }
  }

  /** The template itself cannot be moved into itself; and put back where it was it is not what the template
      would be. */
  lemma MoveOfTheTemplate(doc: Json, template: Json, path: string)
    requires Rooted(path) && Holds(doc, template)
    ensures MoveFrom(doc, TEMPLATE_TOKENS, TEMPLATE_PREFIX + path) ==
            InPlace(doc, template, MoveFrom(template, TEMPLATE_TOKENS, path)) <==>
            path != "" && !CanMove(template, TEMPLATE_TOKENS, path)
  {
    if path == "" {
      PutBack(doc, template);
      var moved := MoveToTheRoot(template, TEMPLATE_TOKENS);
      OnlyTheTemplate(doc, template, moved);
    } else {
      MoveIntoItself(doc, path);
      MoveSucceedsIff(template, TEMPLATE_TOKENS, path);
    }
  }

  lemma MoveIntoItself(doc: Json, path: string)
    requires Rooted(path) && path != ""
    ensures MoveFrom(doc, TEMPLATE_TOKENS, TEMPLATE_PREFIX + path) == None
  {
    PrefixedTokens(path);
    if ParsePointer(path).Some? {
      assert TEMPLATE_TOKENS < TEMPLATE_TOKENS + ParsePointer(path).value;
    }
  }

  lemma MoveToTheRoot(doc: Json, from: Pointer) returns (moved: Option<Json>)
    requires from != []
    ensures moved == MoveFrom(doc, from, "") && moved != Some(doc)
  {
    moved := MoveFrom(doc, from, "");
    NotInItself(doc, from);
  }

  lemma AddTwoDown(doc: Json, a: string, b: string, v: Json)
    requires doc.Object? && a in doc.fields && doc.fields[a].Object?
    ensures EditAt(Add, doc, [a, b], v) == Some(Object(doc.fields[a := Object(doc.fields[a].fields[b := v])]))
  {
    assert [a, b][1..] == [b];
    assert EditAt(Add, doc.fields[a], [b], v) == Some(Object(doc.fields[a].fields[b := v]));
  }

  lemma PutBack(doc: Json, template: Json)
    requires Holds(doc, template)
    ensures MoveFrom(doc, TEMPLATE_TOKENS, TEMPLATE_PREFIX + "") == Some(doc)
  {
    PrefixedTokens("");
    assert TEMPLATE_TOKENS + [] == TEMPLATE_TOKENS;
    RemoveTwoDown(doc, "spec", "template");
    LookupInTemplate(doc, template, []);
    var rest := EditAt(Remove, doc, TEMPLATE_TOKENS, Null).value;
    AddTwoDown(rest, "spec", "template", template);
    ThereAndBack(doc.fields, "spec", "template");
  }

  lemma ThereAndBack(fields: map<string, Json>, a: string, b: string)
    requires a in fields && fields[a].Object? && b in fields[a].fields
    ensures var inner := fields[a].fields;
            fields[a := Object(inner - {b})][a := Object((inner - {b})[b := inner[b]])] == fields
  {
    var inner := fields[a].fields;
    assert (inner - {b})[b := inner[b]] == inner;
  }

  lemma OnlyTheTemplate(doc: Json, template: Json, result: Option<Json>)
    requires Holds(doc, template) && result != Some(template)
    ensures InPlace(doc, template, result) != Some(doc)
  {
    if result.Some? {
      assert Holds(WithTemplate(doc, template, result.value), result.value);
    }
  }

  lemma MoveFromInside(doc: Json, template: Json, from: Pointer, path: string)
    requires Rooted(path) && Holds(doc, template) && TEMPLATE_TOKENS < from
    ensures MoveFrom(doc, from, TEMPLATE_PREFIX + path) == InPlace(doc, template, MoveFrom(template, from, path)) <==>
            MoveFrom(template, from[2..], path) == MoveFrom(template, from, path)
  {
    assert from == TEMPLATE_TOKENS + from[2..];
    MoveInTemplate(doc, template, from[2..], path);
    var a, b := MoveFrom(template, from[2..], path), MoveFrom(template, from, path);
    if a.Some? && b.Some? && InPlace(doc, template, a) == InPlace(doc, template, b) {
      WithTemplateIsInjective(doc, template, a.value, b.value);
    }
  }

  /** Exactly when a move at a rooted path keeps its meaning, although its source is not rewritten. In the document
      the source is looked for as it is written. In the template that is right only if it finds there what `from`,
      without its prefix, finds: a move from elsewhere must be an error on both sides. */
  lemma MoveKeepsMeaningIff(patch: JobPatch, doc: Json, template: Json)
    requires patch.op == "move" && Rooted(patch.path) && Holds(doc, template)
    ensures Apply(Rewritten(patch), doc) == InPlace(doc, template, Apply(patch, template)) <==>
            match ParsePointer(patch.from)
            case None => true
            case Some(from) =>
              if TEMPLATE_TOKENS < from then
                MoveFrom(template, from[2..], patch.path) == MoveFrom(template, from, patch.path)
              else
                && !CanMove(template, from, patch.path)
                && (if from == TEMPLATE_TOKENS then patch.path != ""
                    else !TakesFromElsewhere(doc, template, from, patch.path))
  {
    if ParsePointer(patch.from).Some? {
      var from := ParsePointer(patch.from).value;
      MoveSucceedsIff(template, from, patch.path);
      if TEMPLATE_TOKENS < from {
        MoveFromInside(doc, template, from, patch.path);
      } else if from == TEMPLATE_TOKENS {
        MoveOfTheTemplate(doc, template, patch.path);
      } else if Elsewhere(from) {
        MoveFromElsewhere(doc, template, from, patch.path, MoveFrom(template, from, patch.path));
      } else {
        assert from == [] || from == ["spec"];
        MoveFromAround(doc, from, patch.path);
      }
    }
  }
}
