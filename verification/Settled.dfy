/** The level-triggered promise: a wrapper that is neither queued nor being reconciled is settled. */
module SettledOrQueued {
  import opened Prelude
  import opened Objects
  import opened Construct
  import opened Passes
  import opened PassFacts
  import opened Cluster
  import opened Steps

  /** The newest live batch Job is still running, or it was built from the spec that is desired now. */
  ghost predicate Settled(build: Builder, w: World) {
    Desired(build, w).Some? && !ShouldCreate(LatestLive(w.jobs), Desired(build, w).value)
  }

  /** As long as the wrapper has not been queued again, what the reconcile holds is what it would read now. */
  ghost predicate SettledInv(build: Builder, s: State) {
    !s.w.queued ==>
      match s.pc
      case Idle(_) => Active(s.w) ==> Settled(build, s.w)
      case Fetched(job) => Active(s.w) && s.w.wrapper == Some(job)
      case Bumping(_, _, _, _) => true
      case Finishing(_, _, failed) => failed || Settled(build, s.w)
      case _ => Active(s.w) && Desired(build, s.w) == Some(s.pc.next)
  }

  /** The environment does not remove a live batch Job that carries the expiry mark, for that deletion would not
      be seen. */
  ghost predicate NoUnseenRemoval(s: State, a: Action) {
    a.Env? && a.e.Remove? ==> forall x :: x in s.w.jobs && x.uid == a.e.uid && Live(x) ==> !Marked(x)
  }

  /** And no event of a profile is lost. */
  ghost predicate EverythingIsSeen(s: State, a: Action) {
    NoUnseenRemoval(s, a) && (a.Env? ==> !LosesProfileEvent(a.e))
  }

  lemma EnvKeepsLatest(build: Builder, s: State, e: EnvAction)
    requires EverythingIsSeen(s, Env(e)) && !EnvNext(s.w, e).queued
    ensures LatestLive(EnvNext(s.w, e).jobs) == LatestLive(s.w.jobs)
  {
    EnvIsQuiet(build, s.w, e);
    if e.Remove? {
      LatestLiveSurvives(s.w.jobs, Except(e.uid));
    }
  }

  lemma EnvKeepsSettled(build: Builder, s: State, e: EnvAction)
    requires SettledInv(build, s) && EverythingIsSeen(s, Env(e))
    ensures SettledInv(build, State(EnvNext(s.w, e), s.pc))
  {
    if !EnvNext(s.w, e).queued {
      EnvIsQuiet(build, s.w, e);
      EnvKeepsLatest(build, s, e);
    }
  }

  /** A controller step that does not queue the wrapper changes neither the wrapper nor the profiles. */
  lemma CtlKeepsDesired(build: Builder, s: State, o: Outcome)
    requires !CtlNext(build, s, o).w.queued
    ensures CtlNext(build, s, o).w.wrapper == s.w.wrapper && CtlNext(build, s, o).w.profiles == s.w.profiles
    ensures !s.pc.Idle? ==> !s.w.queued
  {
  }

  lemma CtlKeepsSettled(build: Builder, s: State, o: Outcome)
    requires SettledInv(build, s)
    ensures SettledInv(build, CtlNext(build, s, o))
  {
    var t := CtlNext(build, s, o);
    if !t.w.queued {
      CtlKeepsDesired(build, s, o);
      assert Desired(build, t.w) == Desired(build, s.w);
    }
  }

  lemma SettledStep(build: Builder, s: State, a: Action)
    requires SettledInv(build, s) && EverythingIsSeen(s, a)
    ensures SettledInv(build, Next(build, s, a))
  {
    match a
    case Env(e) => EnvKeepsSettled(build, s, e);
    case Ctl(o) => CtlKeepsSettled(build, s, o);
    case Restart =>
  }

  lemma {:induction false} SettledHolds(build: Builder, s: State, acts: seq<Action>)
    requires SettledInv(build, s) && Along(build, s, acts, EverythingIsSeen)
    ensures SettledInv(build, Run(build, s, acts))
  {
    if acts != [] {
      SettledHolds(build, s, acts[..|acts| - 1]);
      SettledStep(build, Run(build, s, acts[..|acts| - 1]), acts[|acts| - 1]);
    }
  }

  /** In every reachable state a wrapper that exists and is not being deleted is queued, or in flight, or its newest
      live batch Job is unfinished or carries the hash of the spec that is desired now. API calls may fail at will,
      the controller may crash, wrappers and profiles may be edited at any moment. */
  lemma QueuedOrInFlightOrSettled(build: Builder, s: State, acts: seq<Action>)
    requires Init(s) && Along(build, s, acts, EverythingIsSeen)
    ensures var t := Run(build, s, acts);
            t.w.wrapper.Some? && !t.w.wrapper.value.deleting ==>
              var job, newest := t.w.wrapper.value, LatestLive(t.w.jobs);
              t.w.queued || !t.pc.Idle? ||
              (newest.Some? && job.profileRef in t.w.profiles && build(job, t.w.profiles[job.profileRef]).Some? &&
               (!Finished(newest.value) ||
                SpecHash(newest.value.manifest) == SpecHash(build(job, t.w.profiles[job.profileRef]).value)))
  {
    SettledHolds(build, s, acts);
  }

  // ---------------------------------------------------------------- when something goes unseen

  /** The newest live batch Job but one. */
  function RunnerUp(jobs: seq<BatchJob>): Option<BatchJob> {
    if jobs == [] then None
    else if Live(jobs[|jobs| - 1]) then LatestLive(jobs[..|jobs| - 1])
    else RunnerUp(jobs[..|jobs| - 1])
  }

  lemma WithoutTheLast(jobs: seq<BatchJob>)
    requires Ordered(jobs) && jobs != []
    ensures Filter(Except(jobs[|jobs| - 1].uid), jobs) == jobs[..|jobs| - 1]
  {
    var n := |jobs| - 1;
    var p := Except(jobs[n].uid);
    forall y | y in jobs[..n] ensures p(y) {
      var i :| 0 <= i < n && jobs[i] == y;
    }
    FilterAll(p, jobs[..n]);
    FilterLast(p, jobs);
  }

  lemma {:induction false} RunnerUpMovesUp(jobs: seq<BatchJob>, x: BatchJob)
    requires Ordered(jobs) && LatestLive(jobs) == Some(x)
    ensures LatestLive(Filter(Except(x.uid), jobs)) == RunnerUp(jobs)
  {
    var n := |jobs| - 1;
    if Live(jobs[n]) {
      WithoutTheLast(jobs);
    } else {
      var i :| 0 <= i < n && jobs[..n][i] == x;
      assert jobs[i].uid < jobs[n].uid;
      RunnerUpMovesUp(jobs[..n], x);
      LatestLiveOfFiltered(jobs, Except(x.uid));
    }
  }

  /** Exactly when the removal of a batch Job leaves a wrapper at rest neither queued nor settled: it
      carries the expiry mark and is the newest live one, and the next older live one is missing, or has
      finished and is outdated. */
  lemma RemovalStrandsTheWrapperIff(build: Builder, s: State, uid: nat)
    requires s.pc.Idle? && Active(s.w) && !s.w.queued && Settled(build, s.w) && Ordered(s.w.jobs)
    ensures var w', newest := EnvNext(s.w, Remove(uid)), LatestLive(s.w.jobs).value;
            (!w'.queued && !Settled(build, w')) <==>
            (newest.uid == uid && Marked(newest) && ShouldCreate(RunnerUp(s.w.jobs), Desired(build, s.w).value))
  {
    var w', newest := EnvNext(s.w, Remove(uid)), LatestLive(s.w.jobs).value;
    assert Desired(build, w') == Desired(build, s.w);
    if newest.uid == uid {
      RunnerUpMovesUp(s.w.jobs, newest);
      forall x | x in s.w.jobs && x.uid == uid ensures x == newest {
        SameUidSameJob(s.w.jobs, x, newest);
      }
    } else {
      LatestLiveSurvives(s.w.jobs, Except(uid));
    }
  }

  /** Exactly when a lost profile event leaves a wrapper at rest settled: it refers to another profile, or a manifest
      can be built from the new one and the newest live batch Job is still running or has its hash. */
  lemma LostProfileEventIsHarmlessIff(build: Builder, s: State, name: string, profile: Option<PodProfile>)
    requires s.pc.Idle? && Active(s.w) && !s.w.queued && Settled(build, s.w)
    ensures var w', job, newest :=
              EnvNext(s.w, SetProfile(name, profile, false)), s.w.wrapper.value, LatestLive(s.w.jobs).value;
            (w'.queued || Settled(build, w')) <==>
            (job.profileRef != name ||
             (profile.Some? && build(job, profile.value).Some? &&
              (!Finished(newest) || SpecHash(newest.manifest) == SpecHash(build(job, profile.value).value))))
  {
  }
}
