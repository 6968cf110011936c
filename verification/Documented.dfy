/** The patches that the documentation and the manifests of the repository show, and what they make
    of a pod template. */
module Documented {
  import opened Prelude
  import opened Json
  import opened Patch
  import opened Pointers
  import opened Edits
  import opened Construct

  lemma Unescaped(t: string)
    requires '~' !in t && '/' !in t
    ensures Escape(t) == t
  {
    if t != "" {
      Unescaped(t[1..]);
      assert [t[0]] + t[1..] == t;
    }
  }

  predicate Plain(t: string) {
    '~' !in t && '/' !in t
  }

  lemma WrittenFirst(t: string, p: Pointer)
    requires Plain(t)
    ensures Written([t] + p) == "/" + t + Written(p)
  {
    Unescaped(t);
    assert ([t] + p)[1..] == p;
  }

  lemma Regrouped(a: string, b: string, c: string)
    ensures "/" + a + ("/" + b + ("/" + c + "")) == "/" + a + "/" + b + "/" + c
  {
  }

  lemma ThreeTokens(a: string, b: string, c: string)
    requires Plain(a) && Plain(b) && Plain(c)
    ensures Written([a, b, c]) == "/" + a + "/" + b + "/" + c
  {
    WrittenFirst(c, []);
    WrittenFirst(b, [c]);
    WrittenFirst(a, [b, c]);
    assert [a] + [b, c] == [a, b, c] && [b] + [c] == [b, c] && [c] + [] == [c];
    Regrouped(a, b, c);
  }

  lemma FirstPath()
    ensures "/" + "spec" + "/" + "containers" + "/" + "0" == "/spec/containers/0"
  {
  }

  /** The spec with the unpatched template, and a pointer into the template. */
  function Unpatched(params: map<string, Json>, template: Json): Json {
    Object(params["template" := template])
  }

  lemma SpecChanges(params: map<string, Json>, template: Json, patch: JobPatch, p: Pointer, container: Json)
    requires Localisable(patch) && !HasSource(patch.op) && Changes(template, Apply(patch, template), p, container)
    ensures Changes(Unpatched(params, template), BatchJobSpec(params, template, [patch]), ["template"] + p, container)
  {
    var doc, t' := Unpatched(params, template), Apply(patch, template).value;
    SpecIsParametersAndPatchedTemplate(params, template, [patch]);
    assert MeantAll([patch]) == [patch];
    OneOperation(patch, template);
    var r := Object(params["template" := t']);
    assert BatchJobSpec(params, template, [patch]) == Some(r);
    assert r == SetChild(doc, "template", t');
    assert (["template"] + p)[1..] == p;
    LocalBelow(doc, ["template"] + p, template, t');
  }

  lemma WrittenLast(p: Pointer, t: string)
    requires Plain(t)
    ensures Written(p + [t]) == Written(p) + "/" + t
  {
    if p == [] {
      WrittenFirst(t, []);
      assert p + [t] == [t] + [] && "" + "/" + t == "/" + t + "";
    } else {
      WrittenLast(p[1..], t);
      assert (p + [t])[1..] == p[1..] + [t];
      Shifted("/" + Escape(p[0]), Written(p[1..]), t);
    }
  }

  lemma Shifted(a: string, b: string, t: string)
    ensures a + (b + "/" + t) == a + b + "/" + t
  {
  }

  lemma LastPlace(t: string)
    requires Plain(t)
    ensures Written(["spec", "containers"] + [t]) == "/spec/containers" + "/" + t
  {
    ContainersPath();
    WrittenLast(["spec", "containers"], t);
  }

  lemma ContainersPath()
    ensures Written(["spec", "containers"]) == "/spec/containers"
  {
    WrittenFirst("containers", []);
    WrittenFirst("spec", ["containers"]);
    assert ["spec"] + ["containers"] == ["spec", "containers"] && ["containers"] + [] == ["containers"];
    TwoTokens();
  }

  lemma TwoTokens()
    ensures "/" + "spec" + ("/" + "containers" + "") == "/spec/containers"
  {
  }

  lemma PlacesAreLocal(p: Pointer, t: string, v: Json)
    ensures Localisable(AddTo(p, t, v)) && Localisable(ReplaceAt(p, t, v))
  {
    WrittenBegins(p + [t]);
  }

  /** What a copy or a test that looks outside the template finds. */
  lemma AroundTheTemplate(params: map<string, Json>, template: Json)
    ensures var doc := SeedJob(params, template);
            && Lookup(doc, ["apiVersion"]) == Some(String("batch/v1")) && Lookup(doc, ["kind"]) == Some(String("Job"))
            && Lookup(doc, ["metadata", "name"]) == Some(String("next-job"))
            && Lookup(doc, ["spec"]) == Some(Unpatched(params, template))
  {
    var doc := SeedJob(params, template);
    assert |"apiVersion"| == 10 && |"kind"| == 4 && |"metadata"| == 8 && |"spec"| == 4 && "kind"[0] == 'k' &&
           "spec"[0] == 's';
    assert ["metadata", "name"][1..] == ["name"];
    assert Child(Object(map["name" := String("next-job")]), "name") == Some(String("next-job"));
    assert Lookup(String("next-job"), []) == Some(String("next-job")) && ["name"][1..] == [];
    assert Child(doc, "metadata") == Some(Object(map["name" := String("next-job")]));
  }

  /** An add at the end of any list in the template makes the value the last one of that list in the spec. */
  lemma Appends(params: map<string, Json>, template: Json, p: Pointer, items: seq<Json>, v: Json)
    requires Lookup(template, p) == Some(Array(items))
    ensures Changes(Unpatched(params, template), BatchJobSpec(params, template, [AddTo(p, "-", v)]), ["template"] + p,
                    Array(items + [v]))
  {
    var longer := AddAppends(template, p, v, items);
    assert longer == items + [v];
    PlacesAreLocal(p, "-", v);
    SpecChanges(params, template, AddTo(p, "-", v), p, Array(longer));
  }

  /** The list of containers, for example. */
  lemma AddsAContainer(params: map<string, Json>, template: Json, containers: seq<Json>, v: Json)
    requires Lookup(template, ["spec", "containers"]) == Some(Array(containers))
    ensures Changes(Unpatched(params, template),
                    BatchJobSpec(params, template, [JobPatch("add", "/spec/containers" + "/" + "-", v, "")]),
                    ["template"] + ["spec", "containers"], Array(containers + [v]))
  {
    LastPlace("-");
    Appends(params, template, ["spec", "containers"], containers, v);
  }

  lemma FirstPlace(key: string)
    requires Plain(key)
    ensures Written(["spec", "containers", "0"] + [key]) == "/spec/containers/0" + "/" + key
  {
    ThreeTokens("spec", "containers", "0");
    FirstPath();
    WrittenLast(["spec", "containers", "0"], key);
  }

  /** A replace at /spec/containers/0/name, or at another member of the first container, changes that member. */
  lemma ReplacesInTheFirst(params: map<string, Json>, template: Json, key: string, v: Json, fields: map<string, Json>)
    returns (replaced: map<string, Json>)
    requires Plain(key) && Lookup(template, ["spec", "containers", "0"]) == Some(Object(fields)) && key in fields
    ensures Changes(Unpatched(params, template),
                    BatchJobSpec(params, template, [JobPatch("replace", "/spec/containers/0" + "/" + key, v, "")]),
                    ["template"] + ["spec", "containers", "0"], Object(replaced))
    ensures key in replaced && replaced[key] == v && OtherKeysStay(fields, replaced, key)
  {
    var _, r := MembersChange(template, ["spec", "containers", "0"], key, v, fields);
    replaced := r;
    FirstPlace(key);
    var first := ["spec", "containers", "0"];
    PlacesAreLocal(first, key, v);
    SpecChanges(params, template, ReplaceAt(first, key, v), first, Object(replaced));
  }
}
