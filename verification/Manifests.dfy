/** A manifest key by key: what a batch Job is called, which labels, annotations and owner it gets, and where they
    come from. The keys are spelled out as they are in the cluster. */
module Manifests {
  import opened Prelude
  import opened Decimal
  import opened Json
  import opened Construct

  lemma KeysAreSpelled()
    ensures LABEL_SPEC_HASH == "jobs.pixiv.net/job-spec-hash" && LABEL_TEMPLATE_HASH == "pod-template-hash"
    ensures LABEL_CREATED_BY == "app.kubernetes.io/created-by" && LABEL_NAME == "jobs.pixiv.net/name"
    ensures ANNOTATION_TTL == "jobs.pixiv.net/ttl-seconds-after-finished"
    ensures ANNOTATION_TTL_EXPIRED == "jobs.pixiv.net/ttl-expired"
  {
  }

  /** The name of a batch Job, and a label, carry the hash of its own pod template under the wrapper's
      collision count. */
  lemma NamedAfterItsTemplate(h: Hashes, job: Job, profile: PodProfile, template: Json)
    requires BatchJobManifest(h, job, profile).Some?
    requires Lookup(BatchJobManifest(h, job, profile).value.spec, ["template"]) == Some(template)
    ensures var m, hash := BatchJobManifest(h, job, profile).value, (h.template)(template, job.collisions);
            && m.name == job.name + "-" + hash
            && "pod-template-hash" in m.labels && m.labels["pod-template-hash"] == hash
  {
    KeysAreSpelled();
    KeysDiffer();
  }

  /** So with a hash that tells the templates apart, two manifests of one wrapper, built with the same collision count
      from different templates, have different names: a create call for the new one does not meet the old one. */
  lemma DifferentTemplatesDifferentNames(h: Hashes, job: Job, other: Job, profile: PodProfile, changed: PodProfile,
                                         t: Json, u: Json)
    requires job.name == other.name && job.collisions == other.collisions
    requires BatchJobManifest(h, job, profile).Some? && BatchJobManifest(h, other, changed).Some?
    requires Lookup(BatchJobManifest(h, job, profile).value.spec, ["template"]) == Some(t)
    requires Lookup(BatchJobManifest(h, other, changed).value.spec, ["template"]) == Some(u)
    ensures BatchJobManifest(h, job, profile).value.name != BatchJobManifest(h, other, changed).value.name <==>
            (h.template)(t, job.collisions) != (h.template)(u, job.collisions)
  {
    NamedAfterItsTemplate(h, job, profile, t);
    NamedAfterItsTemplate(h, other, changed, u);
    SamePrefix(job.name + "-", (h.template)(t, job.collisions), (h.template)(u, job.collisions));
  }

  lemma SamePrefix(a: string, b: string, c: string)
    ensures a + b == a + c <==> b == c
  {
    assert (a + b)[|a|..] == b && (a + c)[|a|..] == c;
  }

  /** Every label: four are the controller's, whatever the user says, and all others are the user's. */
  lemma LabelsAre(h: Hashes, job: Job, profile: PodProfile, k: string)
    requires BatchJobManifest(h, job, profile).Some?
    ensures var m := BatchJobManifest(h, job, profile).value;
            && "app.kubernetes.io/created-by" in m.labels && "jobs.pixiv.net/name" in m.labels
            && m.labels["app.kubernetes.io/created-by"] == "pixiv-job-controller"
            && m.labels["jobs.pixiv.net/name"] == job.name
            && "jobs.pixiv.net/job-spec-hash" in m.labels &&
               m.labels["jobs.pixiv.net/job-spec-hash"] == (h.spec)(m.spec)
            && SpecHash(m) == (h.spec)(m.spec)
    ensures k !in ["app.kubernetes.io/created-by", "jobs.pixiv.net/name", "jobs.pixiv.net/job-spec-hash",
                   "pod-template-hash"] ==>
              var m := BatchJobManifest(h, job, profile).value;
              (k in m.labels <==> k in job.labels) && (k in m.labels ==> m.labels[k] == job.labels[k])
  {
    KeysAreSpelled();
    KeysDiffer();
    assert CREATED_BY_VALUE == "pixiv-job-controller";
  }

  /** Every annotation: the TTL, in decimal, if the wrapper has one, and all others are the user's. */
  lemma AnnotationsAre(h: Hashes, job: Job, profile: PodProfile, k: string)
    requires BatchJobManifest(h, job, profile).Some?
    ensures var a := BatchJobManifest(h, job, profile).value.annotations;
            if job.ttl.Some? && k == "jobs.pixiv.net/ttl-seconds-after-finished" then
              k in a && a[k] == PrintInt(job.ttl.value)
            else (k in a <==> k in job.annotations) && (k in a ==> a[k] == job.annotations[k])
  {
    KeysAreSpelled();
  }

  /** One owner: the wrapper, as its controller. */
  lemma OwnedByItsWrapper(h: Hashes, job: Job, profile: PodProfile)
    requires BatchJobManifest(h, job, profile).Some?
    ensures var owners := BatchJobManifest(h, job, profile).value.owners;
            && |owners| == 1 && owners[0].controller && owners[0].name == job.name
            && owners[0].apiVersion == "pixiv.net/v1" && owners[0].kind == "Job"
  {
  }

  /** What is built is the patched spec and nothing else. */
  lemma SpecIsBuilt(h: Hashes, job: Job, profile: PodProfile)
    ensures BatchJobManifest(h, job, profile).Some? <==> BatchJobSpec(job.params, profile.template, job.patches).Some?
    ensures BatchJobManifest(h, job, profile).Some? ==>
              Some(BatchJobManifest(h, job, profile).value.spec) == BatchJobSpec(job.params, profile.template,
                                                                                 job.patches)
  {
  }

  // ---------------------------------------------------------------- what is read back

  /** The mark is one annotation with one value. */
  lemma MarkIs(annotations: map<string, string>)
    ensures HasTtlExpired(annotations) <==>
            "jobs.pixiv.net/ttl-expired" in annotations && annotations["jobs.pixiv.net/ttl-expired"] == "true"
  {
    KeysAreSpelled();
  }

  /** A TTL is read exactly from an annotation that denotes an int32 in decimal, with a sign or without. */
  lemma TtlIs(annotations: map<string, string>, ttl: int32)
    ensures TtlFromAnnotations(annotations) == Some(ttl) <==>
            "jobs.pixiv.net/ttl-seconds-after-finished" in annotations &&
            var s := annotations["jobs.pixiv.net/ttl-seconds-after-finished"];
            Denotes(s, ttl) || (s != "" && s[0] == '+' && Denotes(s[1..], ttl)) ||
            (s != "" && s[0] == '-' && Denotes(s[1..], 0 - ttl))
  {
    KeysAreSpelled();
    if ANNOTATION_TTL in annotations {
      ParsesIff(annotations[ANNOTATION_TTL], ttl);
    }
  }

  /** The list call of a wrapper selects by two labels. */
  lemma SelectedIff(name: string, labels: map<string, string>)
    ensures Selected(name, labels) <==>
            "app.kubernetes.io/created-by" in labels &&
            labels["app.kubernetes.io/created-by"] == "pixiv-job-controller" &&
            "jobs.pixiv.net/name" in labels && labels["jobs.pixiv.net/name"] == name
  {
    KeysAreSpelled();
    KeysDiffer();
    assert CREATED_BY_VALUE == "pixiv-job-controller";
    assert LABEL_NAME in LabelsForList(name) && LABEL_CREATED_BY in LabelsForList(name);
  }
}
