/** The controller's own marks, deletions and creations queue the wrapper again. From every reachable state that comes
    to an end: as long as only the controller works, at most three reconciles are started. */
module Quiet {
  import opened Prelude
  import opened Objects
  import opened Construct
  import opened Passes
  import opened Cluster
  import opened Safety
  import opened Convergence
  import opened Rounds

  // ---------------------------------------------------------------- from a state at rest

  /** The third reconcile, or what it leaves. */
  ghost predicate IsThird(next: Manifest, limit: int, s: State) {
    && !s.w.queued
    && (!s.pc.Idle? ==> Ordered(s.w.jobs) && AtRest(StoreOf(s.w), s.w.now, next, limit))
    && (!s.pc.Idle? && !s.pc.Fetched? ==> Resting(s.w, next, limit, s))
  }

  ghost predicate UpToThree(next: Manifest, limit: int, k: nat, s: State) {
    k <= 3 && (k == 3 ==> IsThird(next, limit, s))
  }

  lemma ThirdStep(build: Builder, w0: World, next: Manifest, s: State)
    requires Starts(build, w0, next) && Reads(w0, s.w) && IsThird(next, w0.wrapper.value.limit, s)
    requires s.pc.Fetched? ==> w0.wrapper == Some(s.pc.job)
    ensures IsThird(next, w0.wrapper.value.limit, Next(build, s, Ctl(Ok)))
  {
    if s.pc.Fetched? {
      assert Next(build, s, Ctl(Ok)) == State(s.w, Ready(s.pc.job, next));
    } else if s.pc.Finishing? {
      RestingClose(build, s.w, RequeueDelay(s.w.jobs, s.w.now));
    } else if !s.pc.Idle? {
      RestingStep(build, s.w, next, w0.wrapper.value.limit, s);
      RestingPhases(build, s.w, next, w0.wrapper.value.limit, s);
    }
  }

  lemma ThirdBegins(build: Builder, w0: World, next: Manifest, s: State)
    requires Starts(build, w0, next) && !HasTtlExpired(next.annotations) && InRound(w0, next, 2, s)
    requires s.pc.Idle? && s.w.queued
    ensures IsThird(next, w0.wrapper.value.limit, Next(build, s, Ctl(Ok)))
  {
    RoundsComeToRest(StoreOf(w0), w0.now, next, w0.wrapper.value.limit, 2);
    RoundsAreWellFormed(StoreOf(w0), w0.now, next, w0.wrapper.value.limit, 2);
    assert Next(build, s, Ctl(Ok)) == State(s.w.(queued := false), Fetched(w0.wrapper.value));
  }

  lemma UpToThreeStep(build: Builder, w0: World, next: Manifest, k: nat, s: State)
    requires Starts(build, w0, next) && !HasTtlExpired(next.annotations) && InRound(w0, next, k, s)
    requires UpToThree(next, w0.wrapper.value.limit, k, s)
    ensures UpToThree(next, w0.wrapper.value.limit, if Takes(s, Ctl(Ok)) then k + 1 else k, Next(build, s, Ctl(Ok)))
  {
    if k == 3 {
      ThirdStep(build, w0, next, s);
    } else if k == 2 && Takes(s, Ctl(Ok)) {
      ThirdBegins(build, w0, next, s);
    }
  }

  lemma {:induction false} UpToThreeHolds(build: Builder, s: State, next: Manifest, acts: seq<Action>)
    requires Starts(build, s.w, next) && !HasTtlExpired(next.annotations) && s.pc.Idle? && OnlyWorks(acts)
    ensures UpToThree(next, s.w.wrapper.value.limit, Count(Takes, build, s, acts), Run(build, s, acts))
  {
    if acts != [] {
      var n := |acts| - 1;
      assert acts[n] in acts && forall a :: a in acts[..n] ==> a in acts;
      UpToThreeHolds(build, s, next, acts[..n]);
      RoundsHold(build, s, next, acts[..n]);
      UpToThreeStep(build, s.w, next, Count(Takes, build, s, acts[..n]), Run(build, s, acts[..n]));
    }
  }

  /** A wrapper that is gone or being deleted leaves the queue at once. */
  lemma {:induction false} InactiveLeaves(build: Builder, s: State, acts: seq<Action>)
    requires s.pc.Idle? && !Active(s.w) && OnlyWorks(acts)
    ensures Run(build, s, acts) == if acts == [] then s else State(s.w.(queued := false), s.pc)
    ensures Count(Takes, build, s, acts) <= 1 && (s.w.queued || Count(Takes, build, s, acts) == 0)
  {
    if acts != [] {
      var n := |acts| - 1;
      assert acts[n] in acts && forall a :: a in acts[..n] ==> a in acts;
      InactiveLeaves(build, s, acts[..n]);
    }
  }

  // ---------------------------------------------------------------- from every reachable state

  /** The controller works, and whenever the wrapper is at rest a manifest can be built for it, and is not
      born marked. */
  predicate Works(build: Builder, s: State, a: Action) {
    a == Ctl(Ok) && (s.pc.Idle? && Active(s.w) ==> CanBuild(build, s.w))
  }

  function Working(build: Builder): Guard {
    (s: State, a: Action) => Works(build, s, a)
  }

  predicate CanBuild(build: Builder, w: World) {
    Desired(build, w).Some? && !HasTtlExpired(Desired(build, w).value.annotations)
  }

  lemma {:induction false} WorksOnly(build: Builder, s: State, acts: seq<Action>)
    requires Along(build, s, acts, Working(build))
    ensures OnlyWorks(acts)
  {
    if acts != [] {
      WorksOnly(build, s, acts[..|acts| - 1]);
      assert acts == acts[..|acts| - 1] + [acts[|acts| - 1]];
    }
  }

  /** Up to the end of the reconcile under way nothing is taken from the queue. */
  lemma {:induction false} UpToTheEnd(build: Builder, s: State, acts: seq<Action>) returns (n: nat)
    ensures n <= |acts| && Count(Takes, build, s, acts[..n]) == 0 && (n < |acts| ==> Run(build, s, acts[..n]).pc.Idle?)
  {
    n := 0;
    if acts != [] {
      var m := |acts| - 1;
      n := UpToTheEnd(build, s, acts[..m]);
      assert acts[..m][..n] == acts[..n];
      if n == m && !Run(build, s, acts[..m]).pc.Idle? {
        n := |acts|;
        assert acts[..n] == acts;
      }
    }
  }

  lemma FromRest(build: Builder, s: State, acts: seq<Action>)
    requires BaseInv(s) && s.pc.Idle? && Along(build, s, acts, Working(build)) && acts != []
    ensures Count(Takes, build, s, acts) <= 3
  {
    WorksOnly(build, s, acts);
    if Active(s.w) {
      assert acts[..1] + acts[1..] == acts;
      AlongRest(build, s, acts[..1], acts[1..], Working(build));
      assert acts[..1][..0] == [];
      UpToThreeHolds(build, s, Desired(build, s.w).value, acts);
    } else {
      InactiveLeaves(build, s, acts);
    }
  }

  lemma FromTheEnd(build: Builder, s: State, end: seq<Action>, acts: seq<Action>)
    requires BaseInv(s) && Along(build, s, end + acts, Working(build)) && Count(Takes, build, s, end) == 0
    requires acts != [] ==> Run(build, s, end).pc.Idle?
    ensures Count(Takes, build, s, end + acts) <= 3
  {
    CountConcat(Takes, build, s, end, acts);
    AlongRest(build, s, end, acts, Working(build));
    BaseHolds(build, s, end);
    if acts != [] {
      FromRest(build, Run(build, s, end), acts);
    }
  }

  /** What is left of a run after that. */
  lemma SplitAtTheEnd(build: Builder, s: State, acts: seq<Action>) returns (end: seq<Action>, rest: seq<Action>)
    ensures acts == end + rest && Count(Takes, build, s, end) == 0
    ensures rest != [] ==> Run(build, s, end).pc.Idle?
  {
    var n := UpToTheEnd(build, s, acts);
    end, rest := acts[..n], acts[n..];
  }

  lemma FromAnywhere(build: Builder, s: State, acts: seq<Action>)
    requires BaseInv(s) && Along(build, s, acts, Working(build))
    ensures Count(Takes, build, s, acts) <= 3
  {
    var end, rest := SplitAtTheEnd(build, s, acts);
    FromTheEnd(build, s, end, rest);
  }

  /** From every reachable state on, whatever the controller is doing there: as long as only the controller works, the
      wrapper is taken from the queue three times at most. */
  lemma AtMostThreeReconciles(build: Builder, origin: State, earlier: seq<Action>, later: seq<Action>)
    requires Init(origin) && Along(build, Run(build, origin, earlier), later, Working(build))
    ensures Count(Takes, build, Run(build, origin, earlier), later) <= 3
  {
    BaseHolds(build, origin, earlier);
    FromAnywhere(build, Run(build, origin, earlier), later);
  }

  // ---------------------------------------------------------------- and out of the queue for good

  ghost predicate IsQuiet(s: State) {
    s.pc.Idle? && !s.w.queued
  }

  /** From `n` calls of the controller on. */
  ghost predicate GoesQuiet(build: Builder, s: State, n: nat) {
    forall acts {:trigger Run(build, s, acts)} :: OnlyWorks(acts) && |acts| >= n ==> IsQuiet(Run(build, s, acts))
  }

  lemma {:induction false} StaysQuiet(build: Builder, s: State, acts: seq<Action>)
    requires IsQuiet(s) && OnlyWorks(acts)
    ensures Run(build, s, acts) == s
  {
    if acts != [] {
      var n := |acts| - 1;
      assert acts[n] in acts && forall a :: a in acts[..n] ==> a in acts;
      StaysQuiet(build, s, acts[..n]);
    }
  }

  /** The controller's calls are all the same, so one way there is the way there. */
  lemma OneWaySuffices(build: Builder, s: State, way: seq<Action>)
    requires OnlyWorks(way) && IsQuiet(Run(build, s, way))
    ensures GoesQuiet(build, s, |way|)
  {
    forall acts | OnlyWorks(acts) && |acts| >= |way| ensures IsQuiet(Run(build, s, acts)) {
      var rest := acts[|way|..];
      forall i | 0 <= i < |way| ensures acts[i] == way[i] {
        assert acts[i] in acts && way[i] in way;
      }
      assert acts == way + rest;
      assert forall a :: a in rest ==> a in acts;
      RunConcat(build, s, way, rest);
      StaysQuiet(build, Run(build, s, way), rest);
    }
  }

  lemma Join(build: Builder, s: State, a: seq<Action>, b: seq<Action>) returns (acts: seq<Action>)
    requires OnlyWorks(a) && OnlyWorks(b)
    ensures OnlyWorks(acts) && Run(build, s, acts) == Run(build, Run(build, s, a), b)
  {
    RunConcat(build, s, a, b);
    acts := a + b;
  }

  /** A reconcile of a wrapper in the queue, or nothing. */
  lemma NextRound(build: Builder, s: State, st: Store, now: int, next: Manifest, limit: int)
    returns (acts: seq<Action>, u: State)
    requires StartsFrom(build, s, st, now, next, limit) && Ordered(st.jobs)
    ensures OnlyWorks(acts) && u == Run(build, s, acts)
    ensures IsQuiet(u) || StartsFrom(build, u, Reconciled(st, now, next, limit), now, next, limit)
  {
    if s.w.queued {
      acts, u := CalmReconcile(build, s, st, now, next, limit);
    } else {
      acts, u := [], s;
    }
  }

  lemma LastRound(build: Builder, s: State, st: Store, now: int, next: Manifest, limit: int) returns (acts: seq<Action>)
    requires StartsFrom(build, s, st, now, next, limit) && Ordered(st.jobs) && AtRest(st, now, next, limit)
    ensures OnlyWorks(acts) && IsQuiet(Run(build, s, acts))
  {
    if s.w.queued {
      acts := RestingReconcile(build, s, next, limit);
    } else {
      acts := [];
    }
  }

  lemma Quieting(build: Builder, s: State, st: Store, now: int, next: Manifest, limit: int) returns (acts: seq<Action>)
    requires StartsFrom(build, s, st, now, next, limit) && WellFormed(st) && !HasTtlExpired(next.annotations)
    ensures OnlyWorks(acts) && IsQuiet(Run(build, s, acts))
  {
    var one := Reconciled(st, now, next, limit);
    ReconciledIsWellFormed(st, now, next, limit);
    ReconciledIsWellFormed(one, now, next, limit);
    TwoReconcilesSuffice(st, now, next, limit);
    var u, v, b, c;
    acts, u := NextRound(build, s, st, now, next, limit);
    if !IsQuiet(u) {
      b, v := NextRound(build, u, one, now, next, limit);
      acts := Join(build, s, acts, b);
      if !IsQuiet(v) {
        c := LastRound(build, v, Reconciled(one, now, next, limit), now, next, limit);
        acts := Join(build, s, acts, c);
      }
    }
  }

  /** No manifest can be built for it: every reconcile fails and queues it again. */
  ghost predicate Stuck(build: Builder, s: State) {
    Active(s.w) && Desired(build, s.w).None? &&
    match s.pc
    case Idle(_) => s.w.queued
    case Fetched(job) => s.w.wrapper == Some(job)
    case Finishing(_, _, failed) => failed
    case _ => false
  }

  lemma StuckStep(build: Builder, s: State)
    requires Stuck(build, s)
    ensures Stuck(build, Next(build, s, Ctl(Ok)))
  {
    if s.pc.Idle? {
      assert Next(build, s, Ctl(Ok)) == State(s.w.(queued := false), Fetched(s.w.wrapper.value));
    } else if s.pc.Fetched? {
      assert Next(build, s, Ctl(Ok)) == State(s.w, Finishing(s.w.now, None, true));
    } else {
      assert Next(build, s, Ctl(Ok)) == State(s.w.(queued := true), Idle(0));
    }
  }

  lemma {:induction false} StaysStuck(build: Builder, s: State, acts: seq<Action>)
    requires Stuck(build, s) && OnlyWorks(acts)
    ensures Stuck(build, Run(build, s, acts))
  {
    if acts != [] {
      var n := |acts| - 1;
      assert acts[n] in acts && forall a :: a in acts[..n] ==> a in acts;
      StaysStuck(build, s, acts[..n]);
      StuckStep(build, Run(build, s, acts[..n]));
    }
  }

  lemma StuckIsNotQuiet(build: Builder, s: State, n: nat)
    requires Stuck(build, s)
    ensures !GoesQuiet(build, s, n)
  {
    var acts := seq(n, _ => Ctl(Ok));
    StaysStuck(build, s, acts);
    assert !IsQuiet(Run(build, s, acts));
  }

  /** Exactly when a wrapper at rest, in any run, leaves the queue for good if only the controller works: it is not
      queued, or gone or being deleted, or a manifest can be built for it. */
  lemma LeavesTheQueueIff(build: Builder, origin: State, earlier: seq<Action>)
    requires Init(origin) && Run(build, origin, earlier).pc.Idle?
    requires var w := Run(build, origin, earlier).w; Desired(build, w).Some? ==> CanBuild(build, w)
    ensures var s := Run(build, origin, earlier);
            (exists n :: GoesQuiet(build, s, n)) <==> !s.w.queued || !Active(s.w) || Desired(build, s.w).Some?
  {
    var s := Run(build, origin, earlier);
    BaseHolds(build, origin, earlier);
    if !s.w.queued {
      OneWaySuffices(build, s, []);
    } else if !Active(s.w) {
      InactiveLeaves(build, s, [Ctl(Ok)]);
      OneWaySuffices(build, s, [Ctl(Ok)]);
    } else if Desired(build, s.w).Some? {
      var way := Quieting(build, s, StoreOf(s.w), s.w.now, Desired(build, s.w).value, s.w.wrapper.value.limit);
      OneWaySuffices(build, s, way);
    } else {
      forall n: nat ensures !GoesQuiet(build, s, n) {
        StuckIsNotQuiet(build, s, n);
      }
    }
  }
}
