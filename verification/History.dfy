/** How many live batch Jobs a wrapper with the history limit L can have, over all runs in which no list or
    delete call of the prune fails: L + 2, and L + 1 as long as no batch Job finishes between the prune and
    the create decision. */
module History {
  import opened Prelude
  import opened Objects
  import opened Passes
  import opened Cluster
  import opened Steps
  import opened Safety

  function LiveUids(jobs: seq<BatchJob>): set<nat> {
    set x | x in jobs && Live(x) :: x.uid
  }

  function FinishedUids(jobs: seq<BatchJob>): set<nat> {
    set x | x in jobs && FinishedLive(x) :: x.uid
  }

  lemma SubsetIsSmaller(a: set<nat>, b: set<nat>)
    requires a <= b
    ensures |a| <= |b|
  {
    if a != b {
      assert b == a + (b - a);
    }
  }

  lemma {:induction false} ListBoundsSet(xs: seq<BatchJob>)
    ensures |Uids(xs)| <= |xs|
  {
    if xs != [] {
      ListBoundsSet(xs[1..]);
      assert Uids(xs) == {xs[0].uid} + Uids(xs[1..]);
    }
  }

  /** What a prune leaves of the finished batch Jobs. */
  lemma PruneLeavesTheLimit(jobs: seq<BatchJob>, limit: int)
    ensures |FinishedUids(jobs) - Uids(PruneDoomed(jobs, limit))| <= Max(limit, 0)
  {
    var history := Filter(FinishedLive, Reverse(jobs));
    var kept := history[..Kept(jobs, limit)];
    assert history == kept + PruneDoomed(jobs, limit);
    ListBoundsSet(kept);
    SubsetIsSmaller(FinishedUids(jobs) - Uids(PruneDoomed(jobs, limit)), Uids(kept));
  }

  /** And of the live ones: at most one is unfinished. */
  lemma PruneLeavesOneMore(jobs: seq<BatchJob>, limit: int)
    requires OlderAreFinished(jobs)
    ensures |LiveUids(jobs) - Uids(PruneDoomed(jobs, limit))| <= Max(limit, 0) + 1
  {
    PruneLeavesTheLimit(jobs, limit);
    var doomed := Uids(PruneDoomed(jobs, limit));
    var unfinished := LiveUids(jobs) - FinishedUids(jobs);
    assert |unfinished| <= 1 by {
      if unfinished != {} {
        var u :| u in unfinished;
        assert unfinished == {u};
      }
    }
    assert LiveUids(jobs) - doomed <= (FinishedUids(jobs) - doomed) + unfinished;
    SubsetIsSmaller(LiveUids(jobs) - doomed, (FinishedUids(jobs) - doomed) + unfinished);
  }

  lemma AgeShrinksLive(jobs: seq<BatchJob>, jobs': seq<BatchJob>, now': int)
    requires Age(jobs, jobs', now')
    ensures LiveUids(jobs') <= LiveUids(jobs)
  {
    forall x | x in jobs' && Live(x) ensures x.uid in LiveUids(jobs) {
      var y :| y in jobs && Descends(y, x, now');
    }
  }

  // ---------------------------------------------------------------- the invariants

  function DoomedOf(pc: Phase): set<nat> {
    if pc.Pruning? then Uids(pc.doomed) else {}
  }

  predicate AfterPrune(pc: Phase) {
    pc.Pruning? || pc.Decide? || pc.Creating?
  }

  predicate LimitIs(limit: nat, pc: Phase) {
    pc.Idle? || pc.Bumping? || pc.Finishing? || pc.job.limit == limit
  }

  ghost predicate HistoryInv(limit: nat, s: State) {
    && BaseInv(s)
    && LimitIs(limit, s.pc)
    && (s.w.wrapper.Some? ==> s.w.wrapper.value.limit == limit)
    && |LiveUids(s.w.jobs)| <= limit + 2
    && (AfterPrune(s.pc) ==> |LiveUids(s.w.jobs) - DoomedOf(s.pc)| <= limit + 1)
  }

  /** The wrapper's limit stays what it is, and the calls of the prune succeed. */
  ghost predicate PruneWorks(limit: nat, s: State, a: Action) {
    (a.Env? && a.e.SetWrapper? && a.e.wrapper.Some? ==> a.e.wrapper.value.limit == limit) &&
    (a.Ctl? && (s.pc.Swept? || s.pc.Pruning?) ==> a.o == Ok)
  }

  ghost function PruneGuard(limit: nat): Guard {
    (s: State, a: Action) => PruneWorks(limit, s, a)
  }

  lemma LimitStep(build: Builder, limit: nat, s: State, a: Action)
    requires LimitIs(limit, s.pc) && (s.w.wrapper.Some? ==> s.w.wrapper.value.limit == limit)
    requires PruneWorks(limit, s, a)
    ensures var t := Next(build, s, a); LimitIs(limit, t.pc) && (t.w.wrapper.Some? ==> t.w.wrapper.value.limit == limit)
  {
  }

  /** A step of the prune takes one batch Job off the list and out of the store. */
  lemma PruneStepLeaves(build: Builder, s: State)
    requires s.pc.Pruning? && s.pc.doomed != []
    ensures var t := CtlNext(build, s, Ok);
            LiveUids(t.w.jobs) - DoomedOf(t.pc) <= LiveUids(s.w.jobs) - DoomedOf(s.pc)
  {
    var t := CtlNext(build, s, Ok);
    assert t.w.jobs == Erase(s.w.jobs, {s.pc.doomed[0].uid});
    assert forall x :: x in s.pc.doomed ==> x == s.pc.doomed[0] || x in s.pc.doomed[1..];
  }

  /** How a step gets into, or stays within, the part of the reconcile after the prune. */
  lemma EntersAfterPrune(build: Builder, s: State, a: Action)
    requires AfterPrune(Next(build, s, a).pc) && (a.Ctl? && (s.pc.Swept? || s.pc.Pruning?) ==> a.o == Ok)
    ensures s.pc.Swept? || AfterPrune(s.pc)
    ensures s.pc.Swept? && a.Ctl? ==>
              Next(build, s, a).w == s.w &&
              DoomedOf(Next(build, s, a).pc) == Uids(PruneDoomed(s.w.jobs, s.pc.job.limit))
    ensures a.Ctl? ==> !s.pc.Creating?
    ensures !a.Ctl? ==> Next(build, s, a).pc == s.pc
    ensures a.Ctl? && (s.pc.Pruning? ==> s.pc.doomed == []) && !s.pc.Swept? ==>
              Next(build, s, a).w == s.w && DoomedOf(Next(build, s, a).pc) == {} == DoomedOf(s.pc)
  {
  }

  lemma AfterPruneStep(build: Builder, limit: nat, s: State, a: Action)
    requires HistoryInv(limit, s) && PruneWorks(limit, s, a) && AfterPrune(Next(build, s, a).pc)
    ensures var t := Next(build, s, a); |LiveUids(t.w.jobs) - DoomedOf(t.pc)| <= limit + 1
  {
    var t := Next(build, s, a);
    EntersAfterPrune(build, s, a);
    if a.Ctl? {
      if s.pc.Swept? {
        PruneLeavesOneMore(s.w.jobs, limit);
      } else if s.pc.Pruning? && s.pc.doomed != [] {
        PruneStepLeaves(build, s);
        SubsetIsSmaller(LiveUids(t.w.jobs) - DoomedOf(t.pc), LiveUids(s.w.jobs) - DoomedOf(s.pc));
      }
    } else {
      StepAges(build, s, a);
      AgeShrinksLive(s.w.jobs, t.w.jobs, t.w.now);
      SubsetIsSmaller(LiveUids(t.w.jobs) - DoomedOf(t.pc), LiveUids(s.w.jobs) - DoomedOf(s.pc));
    }
  }

  lemma CreateAddsOne(w: World, next: Manifest)
    ensures |LiveUids(Create(w, next).jobs)| <= |LiveUids(w.jobs)| + 1
  {
    var jobs' := Create(w, next).jobs;
    assert LiveUids(jobs') <= LiveUids(w.jobs) + {w.serial};
    SubsetIsSmaller(LiveUids(jobs'), LiveUids(w.jobs) + {w.serial});
  }

  lemma HistoryStep(build: Builder, limit: nat, s: State, a: Action)
    requires HistoryInv(limit, s) && PruneWorks(limit, s, a)
    ensures HistoryInv(limit, Next(build, s, a))
  {
    BaseStep(build, s, a);
    LimitStep(build, limit, s, a);
    if AfterPrune(Next(build, s, a).pc) {
      AfterPruneStep(build, limit, s, a);
    }
    if Creates(s, a) {
      assert LiveUids(s.w.jobs) - {} == LiveUids(s.w.jobs);
      CreateAddsOne(s.w, s.pc.next);
    } else {
      StepAges(build, s, a);
      AgeShrinksLive(s.w.jobs, Next(build, s, a).w.jobs, Next(build, s, a).w.now);
      SubsetIsSmaller(LiveUids(Next(build, s, a).w.jobs), LiveUids(s.w.jobs));
    }
  }

  /** In every reachable state there are at most L + 2 live batch Jobs. */
  lemma {:induction false} AtMostLimitPlusTwo(build: Builder, limit: nat, s: State, acts: seq<Action>)
    requires Init(s) && Along(build, s, acts, PruneGuard(limit))
    ensures HistoryInv(limit, Run(build, s, acts)) && |LiveUids(Run(build, s, acts).w.jobs)| <= limit + 2
  {
    if acts != [] {
      AtMostLimitPlusTwo(build, limit, s, acts[..|acts| - 1]);
      HistoryStep(build, limit, Run(build, s, acts[..|acts| - 1]), acts[|acts| - 1]);
    } else {
      assert LiveUids([]) == {};
    }
  }

  // ---------------------------------------------------------------- without a finish in the window

  /** Between the prune's list and the create decision no batch Job reports that it has finished. */
  predicate NoFinishInWindow(s: State, a: Action) {
    (s.pc.Pruning? || s.pc.Decide?) && a.Env? && a.e.Report? ==> !IsTerminal(a.e.condition)
  }

  ghost predicate TightInv(limit: nat, s: State) {
    && HistoryInv(limit, s)
    && |LiveUids(s.w.jobs)| <= limit + 1
    && (s.pc.Pruning? || s.pc.Decide? ==> |FinishedUids(s.w.jobs) - DoomedOf(s.pc)| <= limit)
    && (s.pc.Creating? ==> |LiveUids(s.w.jobs)| <= limit)
  }

  /** Without a report of a finish the finished batch Jobs only become fewer. */
  lemma EnvShrinksFinished(w: World, e: EnvAction)
    requires e.Report? ==> !IsTerminal(e.condition)
    ensures FinishedUids(EnvNext(w, e).jobs) <= FinishedUids(w.jobs)
  {
    var w' := EnvNext(w, e);
    forall x | x in w'.jobs && FinishedLive(x) ensures x.uid in FinishedUids(w.jobs) {
      if x !in w.jobs {
        var i :| 0 <= i < |w'.jobs| && w'.jobs[i] == x;
        if e.Report? {
          assert x == WithCondition(w.jobs[i], e.uid, e.condition);
          LaterConditionsDoNotMatter(w.jobs[i].conditions, e.condition);
        }
        assert w.jobs[i] in w.jobs;
      }
    }
  }

  lemma PruneStepLeavesFinished(build: Builder, s: State)
    requires s.pc.Pruning? && s.pc.doomed != []
    ensures var t := CtlNext(build, s, Ok);
            FinishedUids(t.w.jobs) - DoomedOf(t.pc) <= FinishedUids(s.w.jobs) - DoomedOf(s.pc)
  {
    var t := CtlNext(build, s, Ok);
    assert t.w.jobs == Erase(s.w.jobs, {s.pc.doomed[0].uid});
    assert forall x :: x in s.pc.doomed ==> x == s.pc.doomed[0] || x in s.pc.doomed[1..];
  }

  lemma TightWindow(build: Builder, limit: nat, s: State, a: Action)
    requires TightInv(limit, s) && PruneWorks(limit, s, a) && NoFinishInWindow(s, a)
    requires Next(build, s, a).pc.Pruning? || Next(build, s, a).pc.Decide?
    ensures var t := Next(build, s, a); |FinishedUids(t.w.jobs) - DoomedOf(t.pc)| <= limit
  {
    var t := Next(build, s, a);
    EntersAfterPrune(build, s, a);
    match a
    case Ctl(o) =>
      if s.pc.Swept? {
        PruneLeavesTheLimit(s.w.jobs, limit);
      } else if s.pc.Pruning? && s.pc.doomed != [] {
        PruneStepLeavesFinished(build, s);
        SubsetIsSmaller(FinishedUids(t.w.jobs) - DoomedOf(t.pc), FinishedUids(s.w.jobs) - DoomedOf(s.pc));
      }
    case Env(e) =>
      EnvShrinksFinished(s.w, e);
      SubsetIsSmaller(FinishedUids(t.w.jobs) - DoomedOf(t.pc), FinishedUids(s.w.jobs) - DoomedOf(s.pc));
    case Restart =>
  }

  lemma TightCreating(build: Builder, limit: nat, s: State, a: Action)
    requires TightInv(limit, s) && Next(build, s, a).pc.Creating?
    ensures |LiveUids(Next(build, s, a).w.jobs)| <= limit
  {
    var t := Next(build, s, a);
    if s.pc.Creating? {
      StepAges(build, s, a);
      AgeShrinksLive(s.w.jobs, t.w.jobs, t.w.now);
      SubsetIsSmaller(LiveUids(t.w.jobs), LiveUids(s.w.jobs));
    } else {
      DecidedToCreate(build, s, a);
      assert LiveUids(s.w.jobs) == FinishedUids(s.w.jobs) - DoomedOf(s.pc);
    }
  }

  lemma TightStep(build: Builder, limit: nat, s: State, a: Action)
    requires TightInv(limit, s) && PruneWorks(limit, s, a) && NoFinishInWindow(s, a)
    ensures TightInv(limit, Next(build, s, a))
  {
    HistoryStep(build, limit, s, a);
    if Next(build, s, a).pc.Pruning? || Next(build, s, a).pc.Decide? {
      TightWindow(build, limit, s, a);
    }
    if Next(build, s, a).pc.Creating? {
      TightCreating(build, limit, s, a);
    }
    if Creates(s, a) {
      CreateAddsOne(s.w, s.pc.next);
    } else {
      StepAges(build, s, a);
      AgeShrinksLive(s.w.jobs, Next(build, s, a).w.jobs, Next(build, s, a).w.now);
      SubsetIsSmaller(LiveUids(Next(build, s, a).w.jobs), LiveUids(s.w.jobs));
    }
  }

  /** And at most L + 1 when no batch Job finishes in the window. */
  lemma {:induction false} AtMostLimitPlusOne(build: Builder, limit: nat, s: State, acts: seq<Action>)
    requires Init(s) && Along(build, s, acts, (t, a) => PruneWorks(limit, t, a) && NoFinishInWindow(t, a))
    ensures TightInv(limit, Run(build, s, acts)) && |LiveUids(Run(build, s, acts).w.jobs)| <= limit + 1
  {
    if acts != [] {
      AtMostLimitPlusOne(build, limit, s, acts[..|acts| - 1]);
      TightStep(build, limit, Run(build, s, acts[..|acts| - 1]), acts[|acts| - 1]);
    } else {
      assert LiveUids([]) == {};
    }
  }
}
