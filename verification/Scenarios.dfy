/** Building blocks for the example runs: the real construction, one wrapper without patches, and a template that
    is a number. */
module Scenarios {
  import opened Prelude
  import opened Decimal
  import opened Json
  import opened Objects
  import opened Construct
  import opened Passes
  import opened PassFacts
  import opened Cluster
  import opened Steps
  import opened AtMostOnce
  import opened History
  import C = Convergence

  function Wrapper(limit: int, ttl: Option<int32>, profile: string): Job {
    Job("job", false, limit, profile, [], map[], ttl, map[], map[], None)
  }

  function Template(n: int): PodProfile {
    PodProfile(Number(n))
  }

  function SpecOf(n: int): Json {
    Object(map["template" := Number(n)])
  }

  /** What is built from the template `n`, whatever the limit and the profile's name. */
  function ManifestOf(h: Hashes, ttl: Option<int32>, n: int): Manifest {
    BatchJobManifest(h, Wrapper(0, ttl, ""), Template(n)).value
  }

  lemma Built(h: Hashes, limit: int, ttl: Option<int32>, profile: string, n: int)
    ensures var m := ManifestOf(h, ttl, n);
            BatchJobManifest(h, Wrapper(limit, ttl, profile), Template(n)) == Some(m) &&
            SpecHash(m) == (h.spec)(SpecOf(n)) && TtlFromAnnotations(m.annotations) == ttl &&
            !HasTtlExpired(m.annotations)
  {
    var job := Wrapper(0, ttl, "");
    assert map[]["template" := Number(n)] == map["template" := Number(n)];
    TtlRoundTrip(h, job, Template(n));
    BornMarkedIff(h, job, Template(n));
    SpecHashIsTheHashOfTheSpec(h, job, job, Template(n));
  }

  /** Nothing is there but the profiles. */
  function Start(profiles: map<string, PodProfile>): State {
    State(World(0, 0, [], None, profiles, false, None, []), Idle(0))
  }

  /** A new batch Job from the template `n`, and what becomes of it when it completes at `at`. */
  function Fresh(h: Hashes, ttl: Option<int32>, uid: nat, n: int): BatchJob {
    NewJob(uid, ManifestOf(h, ttl, n))
  }

  function Completed(at: int): JobCondition {
    JobCondition(Complete, True, Some(at))
  }

  function Done(x: BatchJob, at: int): BatchJob {
    x.(conditions := [Completed(at)])
  }

  lemma DoneIsFinished(x: BatchJob, at: int)
    ensures Finished(Done(x, at)) && FinishedAt(Done(x, at)) == Some(at)
    ensures Marked(Done(x, at)) == Marked(x) && Ttl(Done(x, at)) == Ttl(x)
  {
  }

  /** Unmarked, and still within their TTL: a TTL pass leaves them as they are. */
  lemma TtlPassLeaves(jobs: seq<BatchJob>, now: int)
    requires forall x :: x in jobs ==> !Marked(x) && !NeedsMark(x, now)
    ensures C.AfterTtlPass(jobs, now) == jobs
  {
    C.MarkAllKeeps(jobs, now);
    FilterNone(Marked, jobs);
    assert Uids(TtlDoomed(jobs)) == {};
    EraseNothing(jobs);
  }

  lemma PruneLeaves(jobs: seq<BatchJob>, limit: nat)
    requires |jobs| <= limit
    ensures C.AfterPrune(jobs, limit) == jobs
  {
    PruneDoomedIsEmptyIff(jobs, limit);
    assert Uids(PruneDoomed(jobs, limit)) == {};
    EraseNothing(jobs);
  }

  /** Such batch Jobs within the limit, the newest of which is outdated: a reconcile adds one. */
  lemma OneIsAdded(jobs: seq<BatchJob>, serial: nat, now: int, next: Manifest, limit: nat)
    requires |jobs| <= limit && ShouldCreate(LatestLive(jobs), next)
    requires forall x :: x in jobs ==> !Marked(x) && !NeedsMark(x, now)
    ensures C.Reconciled(C.Store(jobs, serial), now, next, limit) == C.Store(jobs + [NewJob(serial, next)], serial + 1)
  {
    TtlPassLeaves(jobs, now);
    PruneLeaves(jobs, limit);
  }

  /** The newest batch Job completes. */
  lemma NewestCompletes(w: World, older: seq<BatchJob>, x: BatchJob)
    requires w.jobs == older + [x] && x.conditions == [] && forall y :: y in older ==> y.uid != x.uid
    ensures EnvNext(w, Report(x.uid, Completed(w.now))) == w.(jobs := older + [Done(x, w.now)], queued := true)
  {
    assert w.jobs[|older|] == x;
    assert x.conditions + [Completed(w.now)] == [Completed(w.now)];
    assert Map(Reporting(x.uid, Completed(w.now)), w.jobs) == older + [Done(x, w.now)];
  }

  const PROFILES: map<string, PodProfile> := map["" := Template(0)]

  /** The stages of a wrapper's life up to its first batch Job and that one's completion. */
  predicate HasOne(h: Hashes, limit: int, ttl: Option<int32>, x: BatchJob, s: State) {
    && C.StartsFrom(Constructing(h), s, C.Store([x], 1), 0, ManifestOf(h, ttl, 0), limit)
    && s.w.wrapper == Some(Wrapper(limit, ttl, "")) && s.w.profiles == PROFILES
  }

  /** The wrapper is created, and reconciled undisturbed. */
  lemma FirstReconcile(h: Hashes, limit: int, ttl: Option<int32>) returns (acts: seq<Action>, t: State)
    ensures t == Run(Constructing(h), Start(PROFILES), acts)
    ensures forall a :: a in acts ==>
              a == Ctl(Ok) || a == Env(Requeue) || a == Env(SetWrapper(Some(Wrapper(limit, ttl, ""))))
    ensures HasOne(h, limit, ttl, Fresh(h, ttl, 0, 0), t) && t.w.timer == None
  {
    var build, a := Constructing(h), Env(SetWrapper(Some(Wrapper(limit, ttl, ""))));
    var s := Next(build, Start(PROFILES), a);
    Built(h, limit, ttl, "", 0);
    assert C.Reconciled(C.Store([], 0), 0, ManifestOf(h, ttl, 0), limit) == C.Store([Fresh(h, ttl, 0, 0)], 1);
    var rest;
    rest, t := C.CalmReconcile(build, s, C.Store([], 0), 0, ManifestOf(h, ttl, 0), limit);
    C.RunFrom(build, Start(PROFILES), a, rest);
    acts := [a] + rest;
  }

  lemma TheOneCompletes(h: Hashes, limit: int, ttl: Option<int32>, s: State) returns (t: State)
    requires HasOne(h, limit, ttl, Fresh(h, ttl, 0, 0), s)
    ensures t == Next(Constructing(h), s, Env(Report(0, Completed(0))))
    ensures HasOne(h, limit, ttl, Done(Fresh(h, ttl, 0, 0), 0), t) && t.w.queued && t.w.timer == s.w.timer
  {
    t := Next(Constructing(h), s, Env(Report(0, Completed(0))));
    NewestCompletes(s.w, [], Fresh(h, ttl, 0, 0));
    assert [] + [Fresh(h, ttl, 0, 0)] == [Fresh(h, ttl, 0, 0)];
    assert [] + [Done(Fresh(h, ttl, 0, 0), 0)] == [Done(Fresh(h, ttl, 0, 0), 0)];
    Built(h, limit, ttl, "", 0);
  }

  // ---------------------------------------------------------------- counting creations

  function UidsWith(jobs: seq<BatchJob>, hash: string, since: nat): set<nat> {
    set x | x in jobs && SpecHash(x.manifest) == hash && x.uid >= since :: x.uid
  }

  lemma UidsAge(jobs: seq<BatchJob>, jobs': seq<BatchJob>, now: int, hash: string, since: nat)
    requires Age(jobs, jobs', now)
    ensures UidsWith(jobs', hash, since) <= UidsWith(jobs, hash, since)
  {
    forall x | x in jobs' && SpecHash(x.manifest) == hash && x.uid >= since
      ensures x.uid in UidsWith(jobs, hash, since) {
      var y :| y in jobs && Descends(y, x, now);
    }
  }

  /** Every batch Job that is there and was not, has been created. */
  lemma {:induction false} JobsAreLogged(build: Builder, s: State, acts: seq<Action>, hash: string, since: nat)
    requires since <= s.w.serial && forall x :: x in s.w.jobs ==> x.uid < since
    ensures var t := Run(build, s, acts);
            since <= t.w.serial &&
            Creations(s.w.log, hash) + |UidsWith(t.w.jobs, hash, since)| <= Creations(t.w.log, hash)
  {
    if acts == [] {
      assert UidsWith(s.w.jobs, hash, since) == {};
    } else {
      var n := |acts| - 1;
      JobsAreLogged(build, s, acts[..n], hash, since);
      LoggedStep(build, Run(build, s, acts[..n]), acts[n], hash, since);
    }
  }

  lemma LoggedStep(build: Builder, s: State, a: Action, hash: string, since: nat)
    requires since <= s.w.serial
    ensures var t := Next(build, s, a);
            since <= t.w.serial &&
            Creations(s.w.log, hash) + |UidsWith(t.w.jobs, hash, since)| <=
            Creations(t.w.log, hash) + |UidsWith(s.w.jobs, hash, since)|
  {
    var t := Next(build, s, a);
    if Creates(s, a) {
      CreationIsCounted(s.w, s.pc.next, hash);
      assert t.w == Create(s.w, s.pc.next);
      assert UidsWith(t.w.jobs, hash, since) ==
             UidsWith(s.w.jobs, hash, since) + if SpecHash(s.pc.next) == hash then {s.w.serial} else {};
    } else {
      LogStays(build, hash, s, a);
      StepAges(build, s, a);
      UidsAge(s.w.jobs, t.w.jobs, t.w.now, hash, since);
      SubsetIsSmaller(UidsWith(t.w.jobs, hash, since), UidsWith(s.w.jobs, hash, since));
    }
  }
}
