/** Building the batch Job of a wrapper Job from its PodProfile, its patches and its own settings. */
module Construct {
  import opened Prelude
  import opened Decimal
  import opened Json
  import opened Patch
  import opened Objects

  const LABEL_SPEC_HASH: string := "jobs.pixiv.net/job-spec-hash"
  const LABEL_CREATED_BY: string := "app.kubernetes.io/created-by"
  const CREATED_BY_VALUE: string := "pixiv-job-controller"
  const LABEL_NAME: string := "jobs.pixiv.net/name"
  const LABEL_TEMPLATE_HASH: string := "pod-template-hash"
  const ANNOTATION_TTL: string := "jobs.pixiv.net/ttl-seconds-after-finished"
  const ANNOTATION_TTL_EXPIRED: string := "jobs.pixiv.net/ttl-expired"
  const OWNER_API_VERSION: string := "pixiv.net/v1"
  const OWNER_KIND: string := "Job"

  /** The wrapper: `jobs.pixiv.net`. `collisions` is status.collisionCount, `deleting` a deletion timestamp. */
  datatype Job = Job(
    name: string,
    deleting: bool,
    limit: int,
    profileRef: string,
    patches: seq<JobPatch>,
    params: map<string, Json>,
    ttl: Option<int32>,
    labels: map<string, string>,
    annotations: map<string, string>,
    collisions: Option<int32>)

  datatype PodProfile = PodProfile(template: Json)

  /** The two hash functions. Nothing is assumed about them. */
  datatype Hashes = Hashes(template: (Json, Option<int32>) -> string, spec: Json -> string)

  // ---------------------------------------------------------------- spec

  /** The Job document before patching: the wrapper's parameters, and the profile's template. */
  function SeedJob(params: map<string, Json>, template: Json): (doc: Json)
    ensures Holds(doc, template)
  {
    Object(map[
      "apiVersion" := String("batch/v1"),
      "kind" := String("Job"),
      "metadata" := Object(map["name" := String("next-job")]),
      "spec" := Object(params["template" := template])])
  }

  function SpecOfDocument(doc: Json): Json {
    match Child(doc, "spec") case Some(spec) => spec case None => Object(map[])
  }

  /** What the construction does: the patches, rewritten, on the whole document. */
  function BatchJobSpec(params: map<string, Json>, template: Json, patches: seq<JobPatch>): Option<Json> {
    if patches == [] then Some(Object(params["template" := template]))
    else
      match ApplyAll(RewrittenAll(patches), SeedJob(params, template))
      case None => None
      case Some(doc) => Some(SpecOfDocument(doc))
  }

  /** What its user is promised: the patches act on the template alone, and the template is all they act on. */
  lemma SpecIsParametersAndPatchedTemplate(params: map<string, Json>, template: Json, patches: seq<JobPatch>)
    requires forall i :: 0 <= i < |patches| ==> Localisable(patches[i])
    ensures BatchJobSpec(params, template, patches) ==
            match ApplyAll(MeantAll(patches), template)
            case None => None
            case Some(t) => Some(Object(params["template" := t]))
  {
    if patches != [] {
      PatchLocalisation(patches, SeedJob(params, template), template);
      if ApplyAll(MeantAll(patches), template).Some? {
        var t := ApplyAll(MeantAll(patches), template).value;
        assert params["template" := template]["template" := t] == params["template" := t];
      }
    }
  }

  /** The construction with its loop over a copied patch list. */
  method BuildBatchJobSpec(params: map<string, Json>, template: Json, patches: array<JobPatch>)
    returns (spec: Option<Json>)
    ensures spec == BatchJobSpec(params, template, patches[..])
    ensures patches[..] == old(patches[..])
  {
    var seed := SeedJob(params, template);
    if patches.Length == 0 {
      return Some(Object(params["template" := template]));
    }
    var rewritten := RewritePaths(patches);
    match ApplyAll(rewritten[..], seed)
    case None => return None;
    case Some(doc) => return Some(SpecOfDocument(doc));
  }

  // ---------------------------------------------------------------- metadata

  function LabelsForList(name: string): map<string, string> {
    map[LABEL_CREATED_BY := CREATED_BY_VALUE, LABEL_NAME := name]
  }

  /** The label selector with which the batch Jobs of the wrapper `name` are listed. */
  predicate Selected(name: string, labels: map<string, string>) {
    forall k :: k in LabelsForList(name) ==> k in labels && labels[k] == LabelsForList(name)[k]
  }

  function TtlFromAnnotations(annotations: map<string, string>): Option<int32> {
    if ANNOTATION_TTL in annotations then ParseInt32(annotations[ANNOTATION_TTL]) else None
  }

  predicate HasTtlExpired(annotations: map<string, string>) {
    ANNOTATION_TTL_EXPIRED in annotations && annotations[ANNOTATION_TTL_EXPIRED] == "true"
  }

  function SpecHash(m: Manifest): string {
    if LABEL_SPEC_HASH in m.labels then m.labels[LABEL_SPEC_HASH] else ""
  }

  function Controls(o: OwnerRef): bool {
    o.controller && o.apiVersion == OWNER_API_VERSION && o.kind == OWNER_KIND
  }

  /** The wrapper that an event of a batch Job is passed to. */
  function OwnerName(owners: seq<OwnerRef>): Option<string> {
    if owners == [] then None
    else if Controls(owners[0]) then Some(owners[0].name)
    else OwnerName(owners[1..])
  }

  function Annotations(job: Job): map<string, string> {
    match job.ttl
    case None => job.annotations
    case Some(ttl) => job.annotations[ANNOTATION_TTL := PrintInt(ttl)]
  }

  function Labels(job: Job, templateHash: string, specHash: string): map<string, string> {
    job.labels + LabelsForList(job.name) + map[LABEL_TEMPLATE_HASH := templateHash, LABEL_SPEC_HASH := specHash]
  }

  function TemplateHash(h: Hashes, job: Job, spec: Json): string {
    (h.template)(match Child(spec, "template") case Some(t) => t case None => Null, job.collisions)
  }

  function BatchJobManifest(h: Hashes, job: Job, profile: PodProfile): Option<Manifest> {
    match BatchJobSpec(job.params, profile.template, job.patches)
    case None => None
    case Some(spec) =>
      var hash := TemplateHash(h, job, spec);
      Some(Manifest(
        job.name + "-" + hash,
        Labels(job, hash, (h.spec)(spec)),
        Annotations(job),
        [OwnerRef(OWNER_API_VERSION, OWNER_KIND, job.name, true)],
        spec))
  }

  /** The construction as the code writes it: the user's metadata first, the essential metadata over it. */
  method BuildBatchJob(h: Hashes, job: Job, profile: PodProfile) returns (r: Option<Manifest>)
    ensures r == BatchJobManifest(h, job, profile)
  {
    var patches := new JobPatch[|job.patches|](i requires 0 <= i < |job.patches| => job.patches[i]);
    assert patches[..] == job.patches;
    var built := BuildBatchJobSpec(job.params, profile.template, patches);
    if built.None? {
      return None;
    }
    var spec := built.value;
    var owners := [OwnerRef(OWNER_API_VERSION, OWNER_KIND, job.name, true)];
    var annotations: map<string, string> := map[];
    var labels: map<string, string> := map[];
    annotations := annotations + job.annotations;
    assert annotations == job.annotations;
    labels := labels + job.labels;
    assert labels == job.labels;
    if job.ttl.Some? {
      annotations := annotations[ANNOTATION_TTL := PrintInt(job.ttl.value)];
    }
    labels := labels + LabelsForList(job.name);
    var hash := TemplateHash(h, job, spec);
    labels := labels[LABEL_TEMPLATE_HASH := hash];
    var name := job.name + "-" + hash;
    labels := labels[LABEL_SPEC_HASH := (h.spec)(spec)];
    assert labels == Labels(job, hash, (h.spec)(spec)) by {
      KeysDiffer();
      OneByOne(job.labels, LabelsForList(job.name), LABEL_TEMPLATE_HASH, hash, LABEL_SPEC_HASH, (h.spec)(spec));
    }
    assert annotations == Annotations(job);
    r := Some(Manifest(name, labels, annotations, owners, spec));
  }

  /** The first owner reference that is a controller of the right kind, found by a loop. */
  method FindOwnerName(owners: seq<OwnerRef>) returns (name: string, ok: bool)
    ensures OwnerName(owners) == if ok then Some(name) else None
    ensures ok ==>
              exists i ::
                && 0 <= i < |owners| && owners[i].name == name
                && owners[i].controller && owners[i].apiVersion == "pixiv.net/v1" && owners[i].kind == "Job"
                && forall k :: 0 <= k < i ==>
                     !(owners[k].controller && owners[k].apiVersion == "pixiv.net/v1" && owners[k].kind == "Job")
    ensures !ok ==>
              forall o :: o in owners ==> !(o.controller && o.apiVersion == "pixiv.net/v1" && o.kind == "Job")
  {
    for i := 0 to |owners|
      invariant OwnerName(owners) == OwnerName(owners[i..])
      invariant forall k :: 0 <= k < i ==> !Controls(owners[k])
    {
      assert owners[i..][1..] == owners[i + 1..];
      if !owners[i].controller {
        continue;
      }
      if owners[i].apiVersion == OWNER_API_VERSION && owners[i].kind == OWNER_KIND {
        return owners[i].name, true;
      }
    }
    return "", false;
  }

  lemma OneByOne(base: map<string, string>, over: map<string, string>, k: string, v: string, l: string, w: string)
    requires k != l
    ensures (base + over)[k := v][l := w] == base + over + map[k := v, l := w]
  {
  }

  lemma KeysDiffer()
    ensures LABEL_CREATED_BY != LABEL_NAME && LABEL_TEMPLATE_HASH != LABEL_NAME &&
            LABEL_TEMPLATE_HASH != LABEL_CREATED_BY
    ensures LABEL_SPEC_HASH != LABEL_NAME && LABEL_SPEC_HASH != LABEL_CREATED_BY &&
            LABEL_SPEC_HASH != LABEL_TEMPLATE_HASH
    ensures ANNOTATION_TTL != ANNOTATION_TTL_EXPIRED
  {
    assert |LABEL_CREATED_BY| == 28 && |LABEL_NAME| == 19 && |LABEL_TEMPLATE_HASH| == 17 && |LABEL_SPEC_HASH| == 28;
    assert LABEL_SPEC_HASH[0] == 'j' && LABEL_CREATED_BY[0] == 'a';
    assert |ANNOTATION_TTL| == 41 && |ANNOTATION_TTL_EXPIRED| == 26;
  }

  /** Whatever labels the user supplies, a built batch Job is listed by its own wrapper and by no other, and its
      events go to that wrapper. */
  lemma BuiltJobBelongsToItsWrapper(h: Hashes, job: Job, profile: PodProfile, name: string)
    requires BatchJobManifest(h, job, profile).Some?
    ensures var m := BatchJobManifest(h, job, profile).value;
            (Selected(name, m.labels) <==> name == job.name) && OwnerName(m.owners) == Some(job.name)
  {
    KeysDiffer();
    var m := BatchJobManifest(h, job, profile).value;
    assert m.labels[LABEL_NAME] == job.name && m.labels[LABEL_CREATED_BY] == CREATED_BY_VALUE;
    assert LABEL_NAME in LabelsForList(name) && LabelsForList(name)[LABEL_NAME] == name;
  }

  /** The TTL read back is the TTL that was set, for every int32 and whatever annotations the user supplies; without
      one it is whatever the user's own annotations say. */
  lemma TtlRoundTrip(h: Hashes, job: Job, profile: PodProfile)
    requires BatchJobManifest(h, job, profile).Some?
    ensures TtlFromAnnotations(BatchJobManifest(h, job, profile).value.annotations) ==
            if job.ttl.Some? then job.ttl else TtlFromAnnotations(job.annotations)
  {
    if job.ttl.Some? {
      PrintParse(job.ttl.value);
    }
  }

  /** A batch Job is born with the expiry mark exactly when the user's annotations set it. */
  lemma BornMarkedIff(h: Hashes, job: Job, profile: PodProfile)
    requires BatchJobManifest(h, job, profile).Some?
    ensures HasTtlExpired(BatchJobManifest(h, job, profile).value.annotations) <==> HasTtlExpired(job.annotations)
  {
    KeysDiffer();
  }

  /** The hash that decides about re-creation depends neither on the collision count, nor on names, nor on metadata. */
  lemma SpecHashIsTheHashOfTheSpec(h: Hashes, job: Job, other: Job, profile: PodProfile)
    requires BatchJobManifest(h, job, profile).Some?
    requires other.params == job.params && other.patches == job.patches
    ensures BatchJobManifest(h, other, profile).Some?
    ensures SpecHash(BatchJobManifest(h, other, profile).value) == SpecHash(BatchJobManifest(h, job, profile).value) ==
            (h.spec)(BatchJobManifest(h, job, profile).value.spec)
  {
    KeysDiffer();
  }

  /** The user's own labels survive wherever the controller does not need the key. */
  lemma UserLabelsSurvive(h: Hashes, job: Job, profile: PodProfile, k: string)
    requires BatchJobManifest(h, job, profile).Some?
    requires k !in {LABEL_CREATED_BY, LABEL_NAME, LABEL_TEMPLATE_HASH, LABEL_SPEC_HASH}
    ensures var m := BatchJobManifest(h, job, profile).value;
            (k in m.labels <==> k in job.labels) && (k in m.labels ==> m.labels[k] == job.labels[k])
  {
  }
}
