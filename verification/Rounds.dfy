/** Reconciles one after the other, with the clock and the environment standing still and no API call failing:
    what every such run computes, and that it comes to an end although the controller's own writes queue the
    wrapper again. */
module Rounds {
  import opened Prelude
  import opened Objects
  import opened Construct
  import opened Passes
  import opened Cluster
  import opened Convergence

  /** The wrapper is taken from the queue. */
  predicate Takes(s: State, a: Action) {
    a == Ctl(Ok) && s.pc.Idle? && s.w.queued
  }

  function StoreOf(w: World): Store {
    Store(w.jobs, w.serial)
  }

  function Reconciling(now: int, next: Manifest, limit: int): Store -> Store {
    (st: Store) => Reconciled(st, now, next, limit)
  }

  /** The store after `k` reconciles. */
  function Rounds(st: Store, now: int, next: Manifest, limit: int, k: nat): Store {
    Iterate(Reconciling(now, next, limit), st, k)
  }

  lemma ReconciledIsWellFormed(st: Store, now: int, next: Manifest, limit: int)
    requires WellFormed(st)
    ensures WellFormed(Reconciled(st, now, next, limit))
  {
    OneReconcile(st, now, next, limit);
  }

  lemma RoundsAreWellFormed(st: Store, now: int, next: Manifest, limit: int, k: nat)
    requires WellFormed(st)
    ensures WellFormed(Rounds(st, now, next, limit, k))
  {
    forall y: Store | WellFormed(y) ensures WellFormed(Reconciled(y, now, next, limit)) {
      ReconciledIsWellFormed(y, now, next, limit);
    }
    IterateKeeps((y: Store) => WellFormed(y), Reconciling(now, next, limit), st, k);
  }

  lemma SecondRound(st: Store, now: int, next: Manifest, limit: int)
    ensures Rounds(st, now, next, limit, 2) == Reconciled(Reconciled(st, now, next, limit), now, next, limit)
  {
    var f := Reconciling(now, next, limit);
    assert Iterate(f, st, 1) == f(Iterate(f, st, 0));
  }

  /** From the second on they change nothing. */
  lemma RoundsComeToRest(st: Store, now: int, next: Manifest, limit: int, k: nat)
    requires WellFormed(st) && !HasTtlExpired(next.annotations) && k >= 2
    ensures AtRest(Rounds(st, now, next, limit, k), now, next, limit)
    ensures Rounds(st, now, next, limit, k) == Rounds(st, now, next, limit, 2)
  {
    TwoReconcilesSuffice(st, now, next, limit);
    SecondRound(st, now, next, limit);
    IterateStays(Reconciling(now, next, limit), st, 2, k);
  }

  // ---------------------------------------------------------------- what every run computes

  /** What the controller reads, and the clock, are as in `w0`. */
  predicate Reads(w0: World, w: World) {
    w.wrapper == w0.wrapper && w.profiles == w0.profiles && w.now == w0.now
  }

  /** What an undisturbed run starts from: at rest, in front of batch Jobs `w0.jobs` and a manifest `next`
      that is wanted. */
  ghost predicate Starts(build: Builder, w0: World, next: Manifest) {
    Active(w0) && Desired(build, w0) == Some(next) && WellFormed(StoreOf(w0))
  }

  function After(w0: World, next: Manifest, k: nat): Store
    requires Active(w0)
  {
    Rounds(StoreOf(w0), w0.now, next, w0.wrapper.value.limit, k)
  }

  /** `s` is at the end of round `k`, or in the middle of it. */
  ghost predicate InRound(w0: World, next: Manifest, k: nat, s: State)
    requires Active(w0)
  {
    Reads(w0, s.w) &&
    match s.pc
    case Idle(_) => StoreOf(s.w) == After(w0, next, k)
    case Fetched(job) => k > 0 && StoreOf(s.w) == After(w0, next, k - 1) && w0.wrapper == Some(job)
    case _ => k > 0 && Calm(After(w0, next, k - 1), w0.now, next, w0.wrapper.value.limit, s)
  }

  lemma FetchedStep(build: Builder, w0: World, next: Manifest, k: nat, s: State)
    requires Starts(build, w0, next) && InRound(w0, next, k, s) && s.pc.Fetched?
    ensures InRound(w0, next, k, Next(build, s, Ctl(Ok)))
  {
    assert Next(build, s, Ctl(Ok)) == State(s.w, Ready(s.pc.job, next));
  }

  lemma CalmKeepsInputs(build: Builder, s: State)
    requires HoldsManifest(s.pc) && (s.pc.Marking? ==> s.pc.todo <= |s.pc.listed|)
    ensures Next(build, s, Ctl(Ok)).w.wrapper == s.w.wrapper && Next(build, s, Ctl(Ok)).w.profiles == s.w.profiles
    ensures Next(build, s, Ctl(Ok)).w.now == s.w.now && HoldsManifest(s.pc)
    ensures !Next(build, s, Ctl(Ok)).pc.Idle? && !Next(build, s, Ctl(Ok)).pc.Fetched?
  {
  }

  lemma ManifestStep(build: Builder, w0: World, next: Manifest, k: nat, s: State)
    requires Starts(build, w0, next) && InRound(w0, next, k, s) && HoldsManifest(s.pc)
    ensures InRound(w0, next, k, Next(build, s, Ctl(Ok)))
  {
    RoundsAreWellFormed(StoreOf(w0), w0.now, next, w0.wrapper.value.limit, k - 1);
    CalmStep(build, After(w0, next, k - 1), w0.now, next, w0.wrapper.value.limit, s);
    CalmKeepsInputs(build, s);
  }

  lemma CalmFinish(st: Store, now: int, next: Manifest, limit: int, s: State)
    requires Calm(st, now, next, limit, s) && s.pc.Finishing?
    ensures !s.pc.failed && StoreOf(s.w) == Reconciled(st, now, next, limit)
  {
  }

  lemma FinishingStep(build: Builder, w0: World, next: Manifest, k: nat, s: State)
    requires Active(w0) && InRound(w0, next, k, s) && s.pc.Finishing?
    ensures InRound(w0, next, k, Next(build, s, Ctl(Ok)))
  {
    CalmFinish(After(w0, next, k - 1), w0.now, next, w0.wrapper.value.limit, s);
    CalmEnd(build, s);
    assert After(w0, next, k) == Reconciling(w0.now, next, w0.wrapper.value.limit)(After(w0, next, k - 1));
  }

  lemma Requeued(build: Builder, s: State)
    ensures Next(build, s, Env(Requeue)) == State(s.w.(queued := true), s.pc)
  {
  }

  /** It makes no difference that the wrapper is queued meanwhile. */
  lemma SameRound(w0: World, next: Manifest, k: nat, s: State, t: State)
    requires Active(w0) && InRound(w0, next, k, s) && t == State(s.w.(queued := true), s.pc)
    ensures InRound(w0, next, k, t)
  {
    if !s.pc.Idle? && !s.pc.Fetched? {
      CalmWhenQueued(After(w0, next, k - 1), w0.now, next, w0.wrapper.value.limit, s, t);
    }
  }

  lemma CalmWhenQueued(st: Store, now: int, next: Manifest, limit: int, s: State, t: State)
    requires Calm(st, now, next, limit, s) && t.pc == s.pc
    requires t.w.now == s.w.now && t.w.jobs == s.w.jobs && t.w.serial == s.w.serial
    ensures Calm(st, now, next, limit, t)
  {
  }

  lemma IdleStep(build: Builder, w0: World, next: Manifest, k: nat, s: State)
    requires Starts(build, w0, next) && InRound(w0, next, k, s) && s.pc.Idle?
    ensures InRound(w0, next, if s.w.queued then k + 1 else k, Next(build, s, Ctl(Ok)))
  {
  }

  lemma CalmPhases(st: Store, now: int, next: Manifest, limit: int, s: State)
    requires Calm(st, now, next, limit, s)
    ensures HoldsManifest(s.pc) || s.pc.Finishing?
  {
  }

  lemma WorkStep(build: Builder, w0: World, next: Manifest, k: nat, s: State)
    requires Starts(build, w0, next) && InRound(w0, next, k, s)
    ensures InRound(w0, next, if Takes(s, Ctl(Ok)) then k + 1 else k, Next(build, s, Ctl(Ok)))
  {
    if s.pc.Idle? {
      IdleStep(build, w0, next, k, s);
    } else if s.pc.Fetched? {
      FetchedStep(build, w0, next, k, s);
    } else {
      CalmPhases(After(w0, next, k - 1), w0.now, next, w0.wrapper.value.limit, s);
      if s.pc.Finishing? {
        FinishingStep(build, w0, next, k, s);
      } else {
        ManifestStep(build, w0, next, k, s);
      }
    }
  }

  predicate IsUndisturbed(a: Action) {
    a == Ctl(Ok) || a == Env(Requeue)
  }

  lemma RoundStep(build: Builder, w0: World, next: Manifest, k: nat, s: State, a: Action)
    requires Starts(build, w0, next) && InRound(w0, next, k, s) && IsUndisturbed(a)
    ensures InRound(w0, next, if Takes(s, a) then k + 1 else k, Next(build, s, a))
  {
    if a == Ctl(Ok) {
      WorkStep(build, w0, next, k, s);
    } else {
      Requeued(build, s);
      SameRound(w0, next, k, s, Next(build, s, a));
    }
  }

  lemma RoundsHold(build: Builder, s: State, next: Manifest, acts: seq<Action>)
    requires Starts(build, s.w, next) && s.pc.Idle? && Undisturbed(acts)
    ensures InRound(s.w, next, Count(Takes, build, s, acts), Run(build, s, acts))
  {
    var inv := (k: nat, t: State) => Active(s.w) && InRound(s.w, next, k, t);
    forall k: nat, t: State, a: Action | inv(k, t) && IsUndisturbed(a)
      ensures inv(if Takes(t, a) then k + 1 else k, Next(build, t, a))
    {
      RoundStep(build, s.w, next, k, t, a);
    }
    CountedInvariant(Takes, inv, IsUndisturbed, build, s, acts);
  }

  /** Whatever the order in which the controller works and the wrapper is queued: every undisturbed run that has taken
      the wrapper from the queue k times and ends at rest has computed k reconciles. */
  lemma EveryRunComputesItsRounds(build: Builder, s: State, next: Manifest, acts: seq<Action>)
    requires Starts(build, s.w, next) && s.pc.Idle? && Undisturbed(acts) && Run(build, s, acts).pc.Idle?
    ensures StoreOf(Run(build, s, acts).w) ==
            Rounds(StoreOf(s.w), s.w.now, next, s.w.wrapper.value.limit, Count(Takes, build, s, acts))
  {
    RoundsHold(build, s, next, acts);
  }

  // ---------------------------------------------------------------- at rest

  /** The controller works and nothing else happens. */
  predicate OnlyWorks(acts: seq<Action>) {
    forall a :: a in acts ==> a == Ctl(Ok)
  }

  /** Where a reconcile is that has found everything at rest in `w`, or that it is over. */
  ghost predicate InRest(w: World, next: Manifest, s: State)
    requires Active(w)
  {
    match s.pc
    case Idle(_) => s == State(Rested(w), Idle(0))
    case Fetched(job) => s.w == w.(queued := false) && w.wrapper == Some(job)
    case _ => Resting(w.(queued := false), next, w.wrapper.value.limit, s)
  }

  lemma RestStep(build: Builder, w: World, next: Manifest, s: State)
    requires Starts(build, w, next) && AtRest(StoreOf(w), w.now, next, w.wrapper.value.limit) && InRest(w, next, s)
    ensures InRest(w, next, Next(build, s, Ctl(Ok)))
  {
    var w1 := w.(queued := false);
    if s.pc.Fetched? {
      assert Next(build, s, Ctl(Ok)) == State(w1, Ready(s.pc.job, next));
    } else if s.pc.Finishing? {
      RestingClose(build, w1, RequeueDelay(w.jobs, w.now));
    } else if !s.pc.Idle? {
      RestingStep(build, w1, next, w.wrapper.value.limit, s);
      RestingPhases(build, w1, next, w.wrapper.value.limit, s);
    }
  }

  lemma RestingPhases(build: Builder, w: World, next: Manifest, limit: int, s: State)
    requires Resting(w, next, limit, s) && !s.pc.Finishing?
    ensures var t := CtlNext(build, s, Ok); !t.pc.Idle? && !t.pc.Fetched?
  {
  }

  lemma {:induction false} RestHolds(build: Builder, w: World, next: Manifest, s: State, acts: seq<Action>)
    requires Starts(build, w, next) && AtRest(StoreOf(w), w.now, next, w.wrapper.value.limit) && InRest(w, next, s)
    requires OnlyWorks(acts)
    ensures InRest(w, next, Run(build, s, acts))
  {
    if acts != [] {
      var n := |acts| - 1;
      assert acts[n] in acts && forall a :: a in acts[..n] ==> a in acts;
      RestHolds(build, w, next, s, acts[..n]);
      RestStep(build, w, next, Run(build, s, acts[..n]));
    }
  }

  /** A wrapper in the queue that has everything at rest: every run of the controller from there that comes to an end
      has changed nothing but the requeue, and the wrapper is out of the queue. */
  lemma EveryRestingRunChangesNothing(build: Builder, s: State, next: Manifest, acts: seq<Action>)
    requires s.pc.Idle? && s.w.queued && Starts(build, s.w, next)
    requires AtRest(StoreOf(s.w), s.w.now, next, s.w.wrapper.value.limit)
    requires OnlyWorks(acts) && acts != [] && Run(build, s, acts).pc.Idle?
    ensures Run(build, s, acts) == State(Rested(s.w), Idle(0))
  {
    var rest := acts[1..];
    assert acts[0] in acts && forall a :: a in rest ==> a in acts;
    assert acts == [Ctl(Ok)] + rest;
    RunFrom(build, s, Ctl(Ok), rest);
    RestHolds(build, s.w, next, Next(build, s, Ctl(Ok)), rest);
  }

  lemma RestsAfterTwo(build: Builder, s: State, next: Manifest, acts: seq<Action>)
    requires Starts(build, s.w, next) && !HasTtlExpired(next.annotations) && s.pc.Idle? && Undisturbed(acts)
    requires Run(build, s, acts).pc.Idle? && Count(Takes, build, s, acts) >= 2
    ensures var u := Run(build, s, acts);
            Reads(s.w, u.w) && WellFormed(StoreOf(u.w)) && AtRest(StoreOf(u.w), s.w.now, next, s.w.wrapper.value.limit)
  {
    var k := Count(Takes, build, s, acts);
    RoundsHold(build, s, next, acts);
    RoundsComeToRest(StoreOf(s.w), s.w.now, next, s.w.wrapper.value.limit, k);
    RoundsAreWellFormed(StoreOf(s.w), s.w.now, next, s.w.wrapper.value.limit, k);
  }

  /** The wrapper may be queued at any time. Once it has been reconciled twice, everything is at rest, and the next
      time it is queued the controller changes nothing but the requeue. */
  lemma ThirdReconcileChangesNothing(build: Builder, s: State, next: Manifest, acts: seq<Action>, third: seq<Action>)
    requires Starts(build, s.w, next) && !HasTtlExpired(next.annotations) && s.pc.Idle? && Undisturbed(acts)
    requires Run(build, s, acts).pc.Idle? && Count(Takes, build, s, acts) >= 2
    requires var q := Next(build, Run(build, s, acts), Env(Requeue));
             OnlyWorks(third) && third != [] && Run(build, q, third).pc.Idle?
    ensures var u := Run(build, s, acts);
            AtRest(StoreOf(u.w), s.w.now, next, s.w.wrapper.value.limit) &&
            Run(build, Next(build, u, Env(Requeue)), third) == State(Rested(u.w), Idle(0))
  {
    var u := Run(build, s, acts);
    RestsAfterTwo(build, s, next, acts);
    QueuedAtRest(build, s.w, next, u, third);
  }

  lemma QueuedAtRest(build: Builder, w0: World, next: Manifest, u: State, third: seq<Action>)
    requires Starts(build, w0, next) && u.pc.Idle? && Reads(w0, u.w) && WellFormed(StoreOf(u.w))
    requires AtRest(StoreOf(u.w), w0.now, next, w0.wrapper.value.limit)
    requires OnlyWorks(third) && third != [] && Run(build, Next(build, u, Env(Requeue)), third).pc.Idle?
    ensures Run(build, Next(build, u, Env(Requeue)), third) == State(Rested(u.w), Idle(0))
  {
    var q := State(u.w.(queued := true), u.pc);
    Requeued(build, u);
    DesiredStays(build, w0, q.w);
    EveryRestingRunChangesNothing(build, q, next, third);
  }
}
