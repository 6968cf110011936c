/** What reconciles work with, and what they leave behind: no wrapper that is being deleted, and no batch Job but
    those that were built from a wrapper that was not. */
module Provenance {
  import opened Prelude
  import opened Objects
  import opened Construct
  import opened Passes
  import opened Cluster
  import opened Steps

  // ---------------------------------------------------------------- a wrapper that is gone or being deleted

  /** The wrapper that the reconcile has read. */
  function HeldJob(pc: Phase): Option<Job> {
    if pc.Idle? || pc.Finishing? then None else Some(pc.job)
  }

  /** At rest, and there is no wrapper, or one whose deletion has begun. */
  predicate HasNoWrapper(s: State) {
    s.pc.Idle? && (s.w.wrapper.Some? ==> s.w.wrapper.value.deleting)
  }

  /** Taking such a wrapper from the queue is all that happens. */
  lemma NothingIsDoneForIt(build: Builder, s: State, o: Outcome)
    requires HasNoWrapper(s)
    ensures Next(build, s, Ctl(o)) == State(s.w.(queued := s.w.queued && o != Ok), s.pc)
  {
  }

  /** Any other wrapper is taken from the queue and reconciled as it was read. */
  lemma ItIsReconciled(build: Builder, s: State)
    requires s.pc.Idle? && s.w.queued && s.w.wrapper.Some? && !s.w.wrapper.value.deleting
    ensures Next(build, s, Ctl(Ok)) == State(s.w.(queued := false), Fetched(s.w.wrapper.value))
  {
  }

  /** The controller has made no call about batch Jobs. */
  predicate Untouched(s: State, t: State) {
    t.w.log == s.w.log && HasNoWrapper(t)
  }

  /** The environment does not bring back the wrapper. */
  predicate StaysAway(s: State, a: Action) {
    a.Env? && a.e.SetWrapper? ==> a.e.wrapper.None? || a.e.wrapper.value.deleting
  }

  lemma StaysUntouched(build: Builder, s: State, a: Action)
    requires HasNoWrapper(s) && StaysAway(s, a)
    ensures Untouched(s, Next(build, s, a)) && Age(s.w.jobs, Next(build, s, a).w.jobs, Next(build, s, a).w.now)
  {
    StepAges(build, s, a);
  }

  /** In every run from there, until the wrapper comes back, the controller creates nothing and deletes nothing. */
  lemma {:induction false} LeftAlone(build: Builder, s: State, acts: seq<Action>)
    requires HasNoWrapper(s) && Along(build, s, acts, StaysAway)
    ensures Untouched(s, Run(build, s, acts))
  {
    if acts != [] {
      var n := |acts| - 1;
      LeftAlone(build, s, acts[..n]);
      StaysUntouched(build, Run(build, s, acts[..n]), acts[n]);
    }
  }

  // ---------------------------------------------------------------- what is held

  /** The manifest is what the construction makes of `job` and some profile. */
  ghost predicate IsBuilt(build: Builder, job: Job, m: Manifest) {
    exists p :: build(job, p) == Some(m)
  }

  ghost predicate HeldInv(build: Builder, pc: Phase) {
    && (HeldJob(pc).Some? ==> !HeldJob(pc).value.deleting)
    && (HoldsManifest(pc) ==> IsBuilt(build, pc.job, pc.next))
  }

  lemma HeldStep(build: Builder, s: State, a: Action)
    requires HeldInv(build, s.pc)
    ensures HeldInv(build, Next(build, s, a).pc)
  {
    if a.Ctl? && s.pc.Fetched? && BuildFor(build, s.pc.job, s.w.profiles).Some? {
      assert build(s.pc.job, s.w.profiles[s.pc.job.profileRef]).Some?;
    }
  }

  lemma {:induction false} HeldHolds(build: Builder, s: State, acts: seq<Action>)
    requires s.pc.Idle?
    ensures HeldInv(build, Run(build, s, acts).pc)
  {
    if acts != [] {
      var n := |acts| - 1;
      HeldHolds(build, s, acts[..n]);
      HeldStep(build, Run(build, s, acts[..n]), acts[n]);
    }
  }

  /** In every run the wrapper that a reconcile works with was not being deleted when it was read, and the manifest
      that it works with was built from that wrapper. */
  lemma NoReconcileOfADeletedWrapper(build: Builder, s: State, acts: seq<Action>)
    requires Init(s)
    ensures var pc := Run(build, s, acts).pc;
            && (!pc.Idle? && !pc.Finishing? ==> !pc.job.deleting)
            && (HoldsManifest(pc) ==> exists p :: build(pc.job, p) == Some(pc.next))
  {
    HeldHolds(build, s, acts);
  }

  // ---------------------------------------------------------------- where batch Jobs come from

  /** The log says that a batch Job was created as it came from the construction, new and without conditions. */
  ghost predicate IsLogged(build: Builder, log: seq<Event>, born: BatchJob) {
    && Created(born) in log && born.conditions == [] && !born.deleting
    && exists job: Job :: !job.deleting && IsBuilt(build, job, born.manifest)
  }

  /** `x` is what may have become of it. */
  predicate ComesFrom(born: BatchJob, x: BatchJob) {
    x.uid == born.uid && x.created == born.created && SameButForTheMark(born.manifest, x.manifest)
  }

  ghost predicate HasOrigin(build: Builder, log: seq<Event>, x: BatchJob) {
    exists born :: IsLogged(build, log, born) && ComesFrom(born, x)
  }

  ghost predicate AllHave(build: Builder, log: seq<Event>, jobs: seq<BatchJob>) {
    forall x :: x in jobs ==> HasOrigin(build, log, x)
  }

  ghost predicate OriginInv(build: Builder, s: State) {
    HeldInv(build, s.pc) && AllHave(build, s.w.log, s.w.jobs)
  }

  lemma LogOnlyGrows(build: Builder, s: State, a: Action)
    ensures s.w.log <= Next(build, s, a).w.log
  {
  }

  lemma OriginStays(build: Builder, log: seq<Event>, log': seq<Event>, y: BatchJob, x: BatchJob, now: int)
    requires log <= log' && HasOrigin(build, log, y) && Descends(y, x, now)
    ensures HasOrigin(build, log', x)
  {
    var born :| IsLogged(build, log, born) && ComesFrom(born, y);
    assert IsLogged(build, log', born) && ComesFrom(born, x);
  }

  lemma NewHasOrigin(build: Builder, w: World, job: Job, next: Manifest)
    requires !job.deleting && IsBuilt(build, job, next)
    ensures HasOrigin(build, Create(w, next).log, NewJob(w.serial, next))
  {
    var born := NewJob(w.serial, next);
    assert Create(w, next).log[|w.log|] == Created(born);
    assert IsLogged(build, Create(w, next).log, born) && ComesFrom(born, born);
  }

  lemma OriginsAge(build: Builder, log: seq<Event>, log': seq<Event>, jobs: seq<BatchJob>, jobs': seq<BatchJob>,
                   now: int)
    requires AllHave(build, log, jobs) && log <= log' && Age(jobs, jobs', now)
    ensures AllHave(build, log', jobs')
  {
    forall x | x in jobs' ensures HasOrigin(build, log', x) {
      var y :| y in jobs && Descends(y, x, now);
      OriginStays(build, log, log', y, x, now);
    }
  }

  lemma OldHaveOrigin(build: Builder, s: State, a: Action)
    requires AllHave(build, s.w.log, s.w.jobs) && !Creates(s, a)
    ensures AllHave(build, Next(build, s, a).w.log, Next(build, s, a).w.jobs)
  {
    var t := Next(build, s, a);
    StepAges(build, s, a);
    LogOnlyGrows(build, s, a);
    OriginsAge(build, s.w.log, t.w.log, s.w.jobs, t.w.jobs, t.w.now);
  }

  lemma AllHaveOrigin(build: Builder, s: State)
    requires OriginInv(build, s) && s.pc.Creating?
    ensures AllHave(build, Create(s.w, s.pc.next).log, Create(s.w, s.pc.next).jobs)
  {
    var t := Create(s.w, s.pc.next);
    NewHasOrigin(build, s.w, s.pc.job, s.pc.next);
    forall x | x in s.w.jobs ensures HasOrigin(build, t.log, x) {
      var born :| IsLogged(build, s.w.log, born) && ComesFrom(born, x);
      assert IsLogged(build, t.log, born);
    }
  }

  lemma {:induction false} OriginHolds(build: Builder, s: State, acts: seq<Action>)
    requires OriginInv(build, s)
    ensures OriginInv(build, Run(build, s, acts))
  {
    if acts != [] {
      var n := |acts| - 1;
      var t := Run(build, s, acts[..n]);
      OriginHolds(build, s, acts[..n]);
      HeldStep(build, t, acts[n]);
      if Creates(t, acts[n]) {
        AllHaveOrigin(build, t);
      } else {
        OldHaveOrigin(build, t, acts[n]);
      }
    }
  }

  /** In every reachable state every batch Job of the wrapper was created by the controller, and it is, name,
      labels, owners, spec and all annotations but the expiry mark, what the construction made of a wrapper that
      was not being deleted. */
  lemma EveryBatchJobWasBuilt(build: Builder, s: State, acts: seq<Action>, x: BatchJob)
    returns (born: BatchJob, job: Job)
    requires Init(s) && x in Run(build, s, acts).w.jobs
    ensures Created(born) in Run(build, s, acts).w.log && born.uid == x.uid && born.created == x.created
    ensures !job.deleting && exists p :: build(job, p) == Some(born.manifest)
    ensures x.manifest.name == born.manifest.name && x.manifest.labels == born.manifest.labels
    ensures x.manifest.owners == born.manifest.owners && x.manifest.spec == born.manifest.spec
    ensures forall k :: k != "jobs.pixiv.net/ttl-expired" ==>
              (k in x.manifest.annotations <==> k in born.manifest.annotations) &&
              (k in x.manifest.annotations ==> x.manifest.annotations[k] == born.manifest.annotations[k])
  {
    OriginHolds(build, s, acts);
    born :| IsLogged(build, Run(build, s, acts).w.log, born) && ComesFrom(born, x);
    job :| !job.deleting && IsBuilt(build, job, born.manifest);
    SameButForTheMarkIff(born.manifest, x.manifest);
  }
}
