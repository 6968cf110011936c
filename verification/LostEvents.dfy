/** Runs, one for each controller, in which the event of a profile is lost: the wrapper comes to rest, and stays
    there, without being what its profile says. */
module LostEvents {
  import opened Prelude
  import opened Objects
  import opened Construct
  import opened Passes
  import opened PassFacts
  import opened Cluster
  import opened Scenarios
  import opened SettledOrQueued
  import C = Convergence
  import Cron = CronJobs

  /** The one batch Job, without a TTL, after it has completed. */
  function Over(h: Hashes): BatchJob {
    Done(Fresh(h, None, 0, 0), 0)
  }

  lemma ItRests(h: Hashes)
    ensures C.AtRest(C.Store([Over(h)], 1), 0, ManifestOf(h, None, 0), 1) && Ordered([Over(h)])
    ensures LatestLive([Over(h)]) == Some(Over(h)) && Finished(Over(h))
    ensures SpecHash(Over(h).manifest) == SpecHash(ManifestOf(h, None, 0)) == (h.spec)(SpecOf(0))
  {
    Built(h, 1, None, "", 0);
    DoneIsFinished(Fresh(h, None, 0, 0), 0);
    FilterNone(Marked, [Over(h)]);
    PruneDoomedIsEmptyIff([Over(h)], 1);
    assert LatestLive([Over(h)]) == Some(Over(h));
  }

  /** The profile changes, and the handler of the event cannot list the wrappers. */
  function Unnoticed(): EnvAction {
    SetProfile("", Some(Template(1)), false)
  }

  lemma NoLongerSettled(h: Hashes, t: State)
    requires (h.spec)(SpecOf(0)) != (h.spec)(SpecOf(1))
    requires t.pc.Idle? && !t.w.queued && t.w.jobs == [Over(h)]
    requires t.w.wrapper == Some(Wrapper(1, None, "")) && t.w.profiles == PROFILES
    ensures Active(t.w) && Settled(Constructing(h), t.w)
    ensures var u := Next(Constructing(h), t, Env(Unnoticed()));
            u.pc.Idle? && Active(u.w) && !u.w.queued && !Settled(Constructing(h), u.w)
  {
    ItRests(h);
    Built(h, 1, None, "", 0);
    Built(h, 1, None, "", 1);
    LostProfileEventIsHarmlessIff(Constructing(h), t, "", Some(Template(1)));
  }

  /** For all hash functions that tell the two specs apart: a run from the start in which every event is seen
      leads to a wrapper at rest, settled; one lost event of its profile later it is still at rest, unqueued, and
      not settled. */
  lemma LostEventUnsettles(h: Hashes) returns (s: State, acts: seq<Action>)
    requires (h.spec)(SpecOf(0)) != (h.spec)(SpecOf(1))
    ensures Init(s) && Along(Constructing(h), s, acts, EverythingIsSeen)
    ensures var t := Run(Constructing(h), s, acts);
            t.pc.Idle? && Active(t.w) && !t.w.queued && Settled(Constructing(h), t.w)
    ensures var u := Next(Constructing(h), Run(Constructing(h), s, acts), Env(Unnoticed()));
            u.pc.Idle? && Active(u.w) && !u.w.queued && !Settled(Constructing(h), u.w)
  {
    var build, report := Constructing(h), Env(Report(0, Completed(0)));
    s := Start(PROFILES);
    var a, t := FirstReconcile(h, 1, None);
    var u := TheOneCompletes(h, 1, None, t);
    ItRests(h);
    var b := C.QueuedRest(build, u, C.Store([Over(h)], 1), 0, ManifestOf(h, None, 0), 1);
    Onward(build, s, a, report, b);
    acts := a + [report] + b;
    AlongAll(build, s, acts, EverythingIsSeen);
    NoLongerSettled(h, Run(build, s, acts));
  }

  // ---------------------------------------------------------------- the other controller

  /** One more action that loses no event. */
  lemma Then(build: Cron.CronBuilder, s: Cron.State, acts: seq<Cron.Action>, a: Cron.Action)
    requires Cron.NothingLost(acts) && (a.Env? ==> Cron.Unlost(a.e))
    ensures Cron.NothingLost(acts + [a])
    ensures Cron.Run(build, s, acts + [a]) == Cron.Next(build, Cron.Run(build, s, acts), a)
  {
    Cron.RunStep(build, s, acts, a);
  }

  lemma LocalStep(build: Cron.CronBuilder, s: Cron.State, name: string)
    ensures var t, l := Cron.Next(build, s, Cron.Ctl(name, true)), Cron.CtlNext(build, s.w, s.phases(name), name, true);
            t.w == l.w && t.phases(name) == l.pc
  {
  }

  lemma Works(build: Cron.CronBuilder, s: Cron.State, acts: seq<Cron.Action>, name: string)
    returns (more: seq<Cron.Action>)
    requires Cron.NothingLost(acts)
    ensures Cron.NothingLost(more)
    ensures var u := Cron.Run(build, s, acts); var t, l := Cron.Run(build, s, more),
              Cron.CtlNext(build, u.w, u.phases(name), name, true); t.w == l.w && t.phases(name) == l.pc
  {
    more := acts + [Cron.Ctl(name, true)];
    Then(build, s, acts, Cron.Ctl(name, true));
    LocalStep(build, Cron.Run(build, s, acts), name);
  }

  /** A whole reconcile. */
  lemma Reconciles(build: Cron.CronBuilder, s: Cron.State, acts: seq<Cron.Action>, name: string)
    returns (more: seq<Cron.Action>)
    requires Cron.NothingLost(acts) && Cron.Run(build, s, acts).phases(name) == Cron.Idle
    ensures Cron.NothingLost(more)
    ensures var t, l := Cron.Run(build, s, more), Cron.Reconciled(build, Cron.Run(build, s, acts).w, name);
            t.w == l.w && t.phases(name) == l.pc
  {
    more := Works(build, s, acts, name);
    more := Works(build, s, more, name);
    more := Works(build, s, more, name);
    more := Works(build, s, more, name);
    more := Works(build, s, more, name);
  }

  function Nothing(): Cron.State {
    Cron.State(Cron.World(map[], map[], map[], map[], {}), (n: string) => Cron.Idle)
  }

  /** The profile and the wrapper are created. */
  lemma Created(build: Cron.CronBuilder, job: Cron.CronJob, profile: PodProfile) returns (acts: seq<Cron.Action>)
    requires !job.deleting
    ensures Cron.NothingLost(acts)
    ensures var t := Cron.Run(build, Nothing(), acts);
            t.phases(job.name) == Cron.Idle && job.name in t.w.queue && Wanted(job, profile, t.w) && t.w.crons == map[]
  {
    var a := Cron.Env(Cron.SetProfile(job.profileRef, Some(profile), true));
    var b := Cron.Env(Cron.SetWrapper(job.name, Some(job)));
    Then(build, Nothing(), [], a);
    Then(build, Nothing(), [] + [a], b);
    acts := [] + [a] + [b];
  }

  predicate Wanted(job: Cron.CronJob, profile: PodProfile, w: Cron.World) {
    && !job.deleting && job.name in w.wrappers && w.wrappers[job.name] == job
    && job.profileRef in w.profiles && w.profiles[job.profileRef] == profile
  }

  lemma CallsKeepInputs(build: Cron.CronBuilder, w: Cron.World, name: string)
    ensures var t := Cron.Reconciled(build, w, name).w; t.wrappers == w.wrappers && t.profiles == w.profiles
  {
  }

  /** Its batch CronJob is there as it was built, and the wrapper is at rest. */
  predicate Rests(job: Cron.CronJob, profile: PodProfile, m: Cron.BatchCronJob, t: Cron.State) {
    && t.phases(job.name) == Cron.Idle && Wanted(job, profile, t.w)
    && Cron.BatchName(job.name) in t.w.crons && t.w.crons[Cron.BatchName(job.name)] == m
  }

  lemma FirstTime(build: Cron.CronBuilder, job: Cron.CronJob, profile: PodProfile) returns (acts: seq<Cron.Action>)
    requires !job.deleting && build(job, profile).Some?
    ensures Cron.NothingLost(acts) && Rests(job, profile, build(job, profile).value, Cron.Run(build, Nothing(), acts))
  {
    acts := Created(build, job, profile);
    var w := Cron.Run(build, Nothing(), acts).w;
    acts := Reconciles(build, Nothing(), acts, job.name);
    CallsKeepInputs(build, w, job.name);
    Cron.OneReconcileSyncs(build, w, job.name);
  }

  /** The creation of the batch CronJob may have queued the wrapper once more. */
  lemma ComesToRest(build: Cron.CronBuilder, job: Cron.CronJob, profile: PodProfile) returns (acts: seq<Cron.Action>)
    requires !job.deleting && build(job, profile).Some?
    ensures Cron.NothingLost(acts)
    ensures var t := Cron.Run(build, Nothing(), acts);
            Rests(job, profile, build(job, profile).value, t) && job.name !in t.w.queue
  {
    acts := FirstTime(build, job, profile);
    var w := Cron.Run(build, Nothing(), acts).w;
    if job.name in w.queue {
      acts := Reconciles(build, Nothing(), acts, job.name);
      Cron.InSyncIsAFixpoint(build, w, job.name, []);
    }
  }

  /** For every construction that makes something else, or nothing, of the new profile: a run from the start in which
      no event is lost leads to a wrapper at rest, in sync; one lost event of its profile later it is still at rest,
      unqueued, and not in sync. */
  lemma LostEventBreaksSync(build: Cron.CronBuilder, job: Cron.CronJob, profile: PodProfile, other: PodProfile)
    returns (s: Cron.State, acts: seq<Cron.Action>)
    requires !job.deleting && build(job, profile).Some?
    requires build(job, other).Some? ==> !Cron.Agrees(build(job, profile).value, build(job, other).value)
    ensures Cron.Init(s) && Cron.NothingLost(acts)
    ensures var t := Cron.Run(build, s, acts);
            t.phases(job.name) == Cron.Idle && Cron.Active(t.w, job.name) && job.name !in t.w.queue &&
            Cron.InSync(build, t.w, job.name)
    ensures var u := Cron.Next(build, Cron.Run(build, s, acts),
                               Cron.Env(Cron.SetProfile(job.profileRef, Some(other), false)));
            u.phases(job.name) == Cron.Idle && Cron.Active(u.w, job.name) && job.name !in u.w.queue &&
            !Cron.InSync(build, u.w, job.name)
  {
    s := Nothing();
    acts := ComesToRest(build, job, profile);
    Cron.NamesHold(build, s, acts);
    Cron.LostProfileEventIsHarmlessIff(build, Cron.Run(build, s, acts).w, job.name, job.profileRef, Some(other));
  }
}
