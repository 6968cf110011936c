/** When exactly a reconcile can leave more live batch Jobs than the history limit plus one: it depends on what its
    prune lists. */
module Window {
  import opened Prelude
  import opened Objects
  import opened Construct
  import opened Passes
  import opened PassFacts
  import opened Cluster
  import opened Steps
  import opened Safety
  import opened History

  /** At least the limit of finished batch Jobs, and a newest one that is still running and outdated. */
  predicate Overshoots(listed: seq<BatchJob>, limit: nat, next: Manifest) {
    && |Filter(FinishedLive, listed)| >= limit
    && NewestRuns(listed)
    && SpecHash(LatestLive(listed).value.manifest) != SpecHash(next)
  }

  /** The reconcile is between its prune's list and its create call. */
  ghost function Within(limit: nat): Guard {
    (s: State, a: Action) => PruneWorks(limit, s, a) && AfterPrune(s.pc)
  }

  /** After the list of the prune at `s`, the run `acts` leads to a create call that leaves L + 2 live batch Jobs. */
  ghost predicate EndsTooFull(build: Builder, limit: nat, s: State, acts: seq<Action>) {
    var u := Run(build, Next(build, s, Ctl(Ok)), acts);
    && Along(build, Next(build, s, Ctl(Ok)), acts, Within(limit))
    && u.pc.Creating? && |LiveUids(Next(build, u, Ctl(Ok)).w.jobs)| == limit + 2
  }

  // ---------------------------------------------------------------- what the window keeps

  /** Every batch Job was on the list, alive if it is alive now, with the same labels. */
  ghost predicate FromList(listed: seq<BatchJob>, jobs: seq<BatchJob>) {
    forall x :: x in jobs ==>
      exists y :: y in listed && y.uid == x.uid && y.manifest.labels == x.manifest.labels && (Live(x) ==> Live(y))
  }

  /** The newest live batch Job of the list, if it is still alive, is outdated. */
  ghost predicate NewestIsOutdated(listed: seq<BatchJob>, jobs: seq<BatchJob>, next: Manifest) {
    forall x :: x in jobs && Live(x) && WasNewest(listed, x) ==> SpecHash(x.manifest) != SpecHash(next)
  }

  predicate WasNewest(listed: seq<BatchJob>, x: BatchJob) {
    LatestLive(listed).Some? && x.uid == LatestLive(listed).value.uid
  }

  function LeftOf(listed: seq<BatchJob>, limit: int): set<nat> {
    LiveUids(listed) - Uids(PruneDoomed(listed, limit))
  }

  ghost predicate WindowInv(listed: seq<BatchJob>, limit: nat, next: Manifest, s: State) {
    && BaseInv(s) && AfterPrune(s.pc) && s.pc.next == next
    && FromList(listed, s.w.jobs)
    && LiveUids(s.w.jobs) - DoomedOf(s.pc) <= LeftOf(listed, limit)
    && (s.pc.Creating? ==> NewestIsOutdated(listed, s.w.jobs, next))
  }

  lemma AgeKeepsFromList(listed: seq<BatchJob>, jobs: seq<BatchJob>, jobs': seq<BatchJob>, now: int, next: Manifest)
    requires FromList(listed, jobs) && Age(jobs, jobs', now)
    ensures FromList(listed, jobs')
    ensures NewestIsOutdated(listed, jobs, next) ==> NewestIsOutdated(listed, jobs', next)
  {
    forall x | x in jobs'
      ensures exists y ::
                y in listed && y.uid == x.uid && y.manifest.labels == x.manifest.labels && (Live(x) ==> Live(y))
      ensures NewestIsOutdated(listed, jobs, next) && Live(x) && WasNewest(listed, x) ==>
                SpecHash(x.manifest) != SpecHash(next)
    {
      var z :| z in jobs && Descends(z, x, now);
      var y :| y in listed && y.uid == z.uid && y.manifest.labels == z.manifest.labels && (Live(z) ==> Live(y));
    }
  }

  /** At the decision the newest live batch Job of the list, if it is still alive, is the newest of all. */
  lemma DecisionIsAboutTheNewest(listed: seq<BatchJob>, jobs: seq<BatchJob>, next: Manifest)
    requires Ordered(listed) && Ordered(jobs) && FromList(listed, jobs) && ShouldCreate(LatestLive(jobs), next)
    ensures NewestIsOutdated(listed, jobs, next)
  {
    forall x | x in jobs && Live(x) && WasNewest(listed, x)
      ensures SpecHash(x.manifest) != SpecHash(next)
    {
      LatestLiveIsNewest(jobs, x);
      var z := LatestLive(jobs).value;
      var y :| y in listed && y.uid == z.uid && Live(y);
      LatestLiveIsNewest(listed, y);
    }
  }

  lemma WindowAges(build: Builder, listed: seq<BatchJob>, next: Manifest, s: State, a: Action)
    requires FromList(listed, s.w.jobs) && !Creates(s, a)
    ensures var jobs := Next(build, s, a).w.jobs;
            FromList(listed, jobs) && (NewestIsOutdated(listed, s.w.jobs, next) ==>
                                       NewestIsOutdated(listed, jobs, next))
  {
    StepAges(build, s, a);
    AgeKeepsFromList(listed, s.w.jobs, Next(build, s, a).w.jobs, Next(build, s, a).w.now, next);
  }

  lemma WindowDecides(build: Builder, listed: seq<BatchJob>, next: Manifest, s: State, a: Action)
    requires Ordered(listed) && BaseInv(s) && FromList(listed, s.w.jobs) && s.pc.Decide? && s.pc.next == next
    requires Next(build, s, a).pc.Creating?
    ensures NewestIsOutdated(listed, Next(build, s, a).w.jobs, next)
  {
    DecidedToCreate(build, s, a);
    DecisionIsAboutTheNewest(listed, s.w.jobs, next);
  }

  lemma WindowPhases(build: Builder, s: State, a: Action)
    requires AfterPrune(s.pc) && AfterPrune(Next(build, s, a).pc)
    ensures !Creates(s, a)
    ensures Next(build, s, a).pc.Creating? ==> s.pc.Creating? || s.pc.Decide?
    ensures Next(build, s, a).pc.next == s.pc.next
  {
  }

  lemma WindowStep(build: Builder, listed: seq<BatchJob>, limit: nat, next: Manifest, s: State, a: Action)
    requires Ordered(listed) && WindowInv(listed, limit, next, s) && PruneWorks(limit, s, a)
    requires AfterPrune(Next(build, s, a).pc)
    ensures WindowInv(listed, limit, next, Next(build, s, a))
  {
    WindowPhases(build, s, a);
    BaseStep(build, s, a);
    WindowAges(build, listed, next, s, a);
    WindowShrinks(build, s, a);
    if Next(build, s, a).pc.Creating? && s.pc.Decide? {
      WindowDecides(build, listed, next, s, a);
    }
  }

  lemma WindowShrinks(build: Builder, s: State, a: Action)
    requires AfterPrune(s.pc) && AfterPrune(Next(build, s, a).pc) && (a.Ctl? && s.pc.Pruning? ==> a.o == Ok)
    ensures var t := Next(build, s, a); LiveUids(t.w.jobs) - DoomedOf(t.pc) <= LiveUids(s.w.jobs) - DoomedOf(s.pc)
  {
    var t := Next(build, s, a);
    EntersAfterPrune(build, s, a);
    if a.Ctl? {
      if s.pc.Pruning? && s.pc.doomed != [] {
        PruneStepLeaves(build, s);
      }
    } else {
      StepAges(build, s, a);
      AgeShrinksLive(s.w.jobs, t.w.jobs, t.w.now);
    }
  }

  lemma {:induction false} WindowHolds(build: Builder, listed: seq<BatchJob>, limit: nat, next: Manifest, s: State,
                                       acts: seq<Action>)
    requires Ordered(listed) && WindowInv(listed, limit, next, s) && Along(build, s, acts, Within(limit))
    requires AfterPrune(Run(build, s, acts).pc)
    ensures WindowInv(listed, limit, next, Run(build, s, acts))
  {
    if acts != [] {
      var n := |acts| - 1;
      WindowHolds(build, listed, limit, next, s, acts[..n]);
      WindowStep(build, listed, limit, next, Run(build, s, acts[..n]), acts[n]);
    }
  }

  // ---------------------------------------------------------------- counting

  ghost predicate DistinctUids(xs: seq<BatchJob>) {
    forall i, k :: 0 <= i < k < |xs| ==> xs[i].uid != xs[k].uid
  }

  lemma {:induction false} SizeIsLength(xs: seq<BatchJob>)
    requires DistinctUids(xs)
    ensures |Uids(xs)| == |xs|
  {
    if xs != [] {
      var n := |xs| - 1;
      SizeIsLength(xs[..n]);
      assert xs == xs[..n] + [xs[n]];
      assert Uids(xs) == Uids(xs[..n]) + {xs[n].uid};
    }
  }

  function KeptOf(listed: seq<BatchJob>, limit: int): seq<BatchJob> {
    Filter(FinishedLive, Reverse(listed))[..Kept(listed, limit)]
  }

  lemma KeptIsCounted(listed: seq<BatchJob>, limit: nat)
    requires Ordered(listed)
    ensures |Uids(KeptOf(listed, limit))| == Min(|Filter(FinishedLive, listed)|, limit)
  {
    HistoryIsDescending(listed);
    FilterReverse(FinishedLive, listed);
    SizeIsLength(KeptOf(listed, limit));
  }

  /** What the prune leaves: what it keeps, and the unfinished ones. */
  lemma LeftIsKeptAndUnfinished(listed: seq<BatchJob>, limit: nat, uid: nat)
    requires Ordered(listed)
    ensures uid in LeftOf(listed, limit) <==>
            uid in Uids(KeptOf(listed, limit)) || exists x :: x in listed && x.uid == uid && Live(x) && !Finished(x)
  {
    var history := Filter(FinishedLive, Reverse(listed));
    assert history == KeptOf(listed, limit) + PruneDoomed(listed, limit);
    KeptAndDoomedAreDisjoint(listed, limit);
    forall x, y | x in listed && y in listed && x.uid == y.uid ensures x == y {
      SameUidSameJob(listed, x, y);
    }
    if uid in LeftOf(listed, limit) {
      var x :| x in listed && Live(x) && x.uid == uid;
      assert Finished(x) ==> x in history;
    }
  }

  /** An unfinished live batch Job is the newest live one. */
  lemma UnfinishedIsNewest(listed: seq<BatchJob>, x: BatchJob)
    requires Ordered(listed) && OlderAreFinished(listed) && x in listed && Live(x) && !Finished(x)
    ensures LatestLive(listed) == Some(x)
  {
    LatestLiveIsNewest(listed, x);
  }

  ghost predicate Running(x: BatchJob) {
    Live(x) && !Finished(x)
  }

  lemma LeftWithoutRunning(listed: seq<BatchJob>, limit: nat)
    requires Ordered(listed) && forall x :: x in listed ==> !Running(x)
    ensures LeftOf(listed, limit) == Uids(KeptOf(listed, limit))
  {
    forall uid ensures uid in LeftOf(listed, limit) <==> uid in Uids(KeptOf(listed, limit)) {
      LeftIsKeptAndUnfinished(listed, limit, uid);
    }
  }

  lemma LeftWithRunning(listed: seq<BatchJob>, limit: nat, x: BatchJob)
    requires Ordered(listed) && x in listed && Running(x) && forall y :: y in listed && Running(y) ==> y == x
    ensures LeftOf(listed, limit) == Uids(KeptOf(listed, limit)) + {x.uid} && x.uid !in Uids(KeptOf(listed, limit))
  {
    forall uid ensures uid in LeftOf(listed, limit) <==> uid in Uids(KeptOf(listed, limit)) || uid == x.uid {
      LeftIsKeptAndUnfinished(listed, limit, uid);
    }
    forall y | y in KeptOf(listed, limit) ensures y.uid != x.uid {
      if y.uid == x.uid {
        SameUidSameJob(listed, x, y);
      }
    }
  }

  predicate NewestRuns(listed: seq<BatchJob>) {
    LatestLive(listed).Some? && !Finished(LatestLive(listed).value)
  }

  lemma LeftIsCounted(listed: seq<BatchJob>, limit: nat)
    requires Ordered(listed) && OlderAreFinished(listed)
    ensures |LeftOf(listed, limit)| == Min(|Filter(FinishedLive, listed)|, limit) + if NewestRuns(listed) then 1 else 0
    ensures NewestRuns(listed) ==> LatestLive(listed).value.uid in LeftOf(listed, limit)
  {
    KeptIsCounted(listed, limit);
    forall x | x in listed && Running(x) ensures LatestLive(listed) == Some(x) {
      UnfinishedIsNewest(listed, x);
    }
    if NewestRuns(listed) {
      LeftWithRunning(listed, limit, LatestLive(listed).value);
    } else {
      LeftWithoutRunning(listed, limit);
    }
  }

  // ---------------------------------------------------------------- only then

  lemma CreateAddsExactlyOne(build: Builder, u: State)
    requires BaseInv(u) && u.pc.Creating?
    ensures |LiveUids(Next(build, u, Ctl(Ok)).w.jobs)| == |LiveUids(u.w.jobs)| + 1
  {
    var jobs' := Next(build, u, Ctl(Ok)).w.jobs;
    assert jobs' == u.w.jobs + [NewJob(u.w.serial, u.pc.next)];
    assert NewJob(u.w.serial, u.pc.next) in jobs';
    assert LiveUids(jobs') == LiveUids(u.w.jobs) + {u.w.serial};
  }

  lemma SameSizeSameSet(a: set<nat>, b: set<nat>)
    requires a <= b && |a| >= |b|
    ensures a == b
  {
    assert b == a + (b - a);
    assert |b| == |a| + |b - a|;
  }

  lemma NothingIsMissing(listed: seq<BatchJob>, limit: nat, live: set<nat>)
    requires Ordered(listed) && OlderAreFinished(listed) && live <= LeftOf(listed, limit) && |live| >= limit + 1
    ensures |Filter(FinishedLive, listed)| >= limit && NewestRuns(listed) && LatestLive(listed).value.uid in live
  {
    LeftIsCounted(listed, limit);
    SubsetIsSmaller(live, LeftOf(listed, limit));
    SameSizeSameSet(live, LeftOf(listed, limit));
  }

  lemma NewestStaysOutdated(listed: seq<BatchJob>, jobs: seq<BatchJob>, next: Manifest)
    requires Ordered(listed) && FromList(listed, jobs) && NewestIsOutdated(listed, jobs, next)
    requires LatestLive(listed).Some? && LatestLive(listed).value.uid in LiveUids(jobs)
    ensures SpecHash(LatestLive(listed).value.manifest) != SpecHash(next)
  {
    var newest := LatestLive(listed).value;
    var x :| x in jobs && Live(x) && x.uid == newest.uid;
    var y :| y in listed && y.uid == x.uid && y.manifest.labels == x.manifest.labels;
    SameUidSameJob(listed, y, newest);
  }

  lemma TooFullMeansOvershoots(listed: seq<BatchJob>, limit: nat, next: Manifest, u: State)
    requires Ordered(listed) && OlderAreFinished(listed) && WindowInv(listed, limit, next, u) && u.pc.Creating?
    requires |LiveUids(u.w.jobs)| >= limit + 1
    ensures Overshoots(listed, limit, next)
  {
    assert LiveUids(u.w.jobs) - DoomedOf(u.pc) == LiveUids(u.w.jobs);
    NothingIsMissing(listed, limit, LiveUids(u.w.jobs));
    NewestStaysOutdated(listed, u.w.jobs, next);
  }

  lemma FromItself(jobs: seq<BatchJob>)
    ensures FromList(jobs, jobs)
  {
  }

  lemma ListsInTheWindow(build: Builder, s: State, limit: nat)
    requires BaseInv(s) && s.pc.Swept? && s.pc.job.limit == limit
    ensures WindowInv(s.w.jobs, limit, s.pc.next, Next(build, s, Ctl(Ok)))
  {
    var t := Next(build, s, Ctl(Ok));
    assert t == State(s.w, Pruning(s.pc.job, s.pc.next, s.pc.since, s.pc.delay, PruneDoomed(s.w.jobs, limit)));
    FromItself(s.w.jobs);
    assert LiveUids(t.w.jobs) - DoomedOf(t.pc) == LeftOf(s.w.jobs, limit);
  }

  lemma OnlyThen(build: Builder, limit: nat, s: State, acts: seq<Action>)
    requires BaseInv(s) && s.pc.Swept? && s.pc.job.limit == limit && EndsTooFull(build, limit, s, acts)
    ensures Overshoots(s.w.jobs, limit, s.pc.next)
  {
    var first := Next(build, s, Ctl(Ok));
    ListsInTheWindow(build, s, limit);
    WindowHolds(build, s.w.jobs, limit, s.pc.next, first, acts);
    CreateAddsExactlyOne(build, Run(build, first, acts));
    TooFullMeansOvershoots(s.w.jobs, limit, s.pc.next, Run(build, first, acts));
  }

  // ---------------------------------------------------------------- and then it can

  lemma PruneOne(build: Builder, s: State)
    requires s.pc.Pruning? && s.pc.doomed != []
    ensures var t := Next(build, s, Ctl(Ok));
            t.pc == WithDoomed(s.pc, s.pc.doomed[1..]) && t.w.now == s.w.now &&
            t.w.jobs == Erase(s.w.jobs, {s.pc.doomed[0].uid})
  {
  }

  /** The prune takes its course. */
  lemma {:induction false} Drain(build: Builder, limit: nat, s: State) returns (acts: seq<Action>, t: State)
    requires s.pc.Pruning?
    ensures t == Run(build, s, acts) && Along(build, s, acts, Within(limit))
    ensures t.pc.Decide? && t.pc.next == s.pc.next && t.w.now == s.w.now
    ensures t.w.jobs == Erase(s.w.jobs, Uids(s.pc.doomed))
    decreases |s.pc.doomed|
  {
    var u := Next(build, s, Ctl(Ok));
    if s.pc.doomed == [] {
      assert Uids(s.pc.doomed) == {};
      EraseNothing(s.w.jobs);
      acts, t := [], u;
    } else {
      PruneOne(build, s);
      EraseHead(s.w.jobs, s.pc.doomed);
      acts, t := Drain(build, limit, u);
    }
    AlongOne(build, s, Ctl(Ok), acts, Within(limit));
    acts := [Ctl(Ok)] + acts;
  }

  lemma {:induction false} LatestOfMap(f: BatchJob -> BatchJob, jobs: seq<BatchJob>)
    requires forall x :: x in jobs ==> Live(f(x)) == Live(x)
    ensures LatestLive(Map(f, jobs)) ==
            if LatestLive(jobs).Some? then Some(f(LatestLive(jobs).value)) else None
  {
    if jobs != [] {
      var n := |jobs| - 1;
      LatestOfMap(f, jobs[..n]);
      assert Map(f, jobs)[..n] == Map(f, jobs[..n]);
    }
  }

  lemma ReportKeepsLive(jobs: seq<BatchJob>, uid: nat, c: JobCondition)
    ensures LiveUids(Map(Reporting(uid, c), jobs)) == LiveUids(jobs)
  {
    var jobs' := Map(Reporting(uid, c), jobs);
    forall x | x in jobs && Live(x) ensures x.uid in LiveUids(jobs') {
      var i :| 0 <= i < |jobs| && jobs[i] == x;
      assert jobs'[i] in jobs';
    }
    forall x | x in jobs' && Live(x) ensures x.uid in LiveUids(jobs) {
      var i :| 0 <= i < |jobs'| && jobs'[i] == x;
      assert jobs[i] in jobs;
    }
  }

  /** Once the newest live batch Job has finished, the decision is to create. */
  lemma FinishThenCreate(build: Builder, limit: nat, s: State, x: BatchJob) returns (acts: seq<Action>)
    requires s.pc.Decide? && LatestLive(s.w.jobs) == Some(x) && SpecHash(x.manifest) != SpecHash(s.pc.next)
    ensures Along(build, s, acts, Within(limit))
    ensures var u := Run(build, s, acts); u.pc.Creating? && LiveUids(u.w.jobs) == LiveUids(s.w.jobs)
  {
    var done := JobCondition(Complete, True, Some(s.w.now));
    var report := Env(Report(x.uid, done));
    var u := Next(build, s, report);
    assert u.w.jobs == Map(Reporting(x.uid, done), s.w.jobs) && u.pc == s.pc;
    LatestOfMap(Reporting(x.uid, done), s.w.jobs);
    LaterConditionsDoNotMatter(x.conditions, done);
    ReportKeepsLive(s.w.jobs, x.uid, done);
    DecidesToCreate(build, u);
    assert PruneWorks(limit, u, Ctl(Ok)) && AfterPrune(u.pc) && Within(limit)(u, Ctl(Ok));
    AlongOne(build, u, Ctl(Ok), [], Within(limit));
    AlongOne(build, s, report, [Ctl(Ok)] + [], Within(limit));
    acts := [report] + ([Ctl(Ok)] + []);
  }

  lemma DecidesToCreate(build: Builder, u: State)
    requires u.pc.Decide? && ShouldCreate(LatestLive(u.w.jobs), u.pc.next)
    ensures Next(build, u, Ctl(Ok)).pc.Creating? && Next(build, u, Ctl(Ok)).w == u.w
  {
  }

  lemma ErasedLive(jobs: seq<BatchJob>, doomed: seq<BatchJob>)
    ensures LiveUids(Erase(jobs, Uids(doomed))) == LiveUids(jobs) - Uids(doomed)
  {
  }

  lemma NewestIsSpared(listed: seq<BatchJob>, limit: nat)
    requires Ordered(listed) && NewestRuns(listed)
    ensures LatestLive(Erase(listed, Uids(PruneDoomed(listed, limit)))) == LatestLive(listed)
  {
    var x := LatestLive(listed).value;
    forall y | y in PruneDoomed(listed, limit) ensures y.uid != x.uid {
      if y.uid == x.uid {
        SameUidSameJob(listed, x, y);
      }
    }
    LatestLiveSurvives(listed, Spares(Uids(PruneDoomed(listed, limit))));
  }

  /** From the list to the create call. */
  lemma ToTheCreateCall(build: Builder, limit: nat, first: State, listed: seq<BatchJob>) returns (acts: seq<Action>)
    requires first.pc.Pruning? && first.w.jobs == listed && first.pc.doomed == PruneDoomed(listed, limit)
    requires Ordered(listed) && NewestRuns(listed)
    requires SpecHash(LatestLive(listed).value.manifest) != SpecHash(first.pc.next)
    ensures Along(build, first, acts, Within(limit))
    ensures var u := Run(build, first, acts); u.pc.Creating? && LiveUids(u.w.jobs) == LeftOf(listed, limit)
  {
    var a, t := Drain(build, limit, first);
    NewestIsSpared(listed, limit);
    ErasedLive(listed, PruneDoomed(listed, limit));
    var b := FinishThenCreate(build, limit, t, LatestLive(listed).value);
    acts := a + b;
    RunConcat(build, first, a, b);
    AlongConcat(build, first, a, b, Within(limit));
  }

  lemma FillsUp(build: Builder, limit: nat, listed: seq<BatchJob>, u: State)
    requires BaseInv(u) && u.pc.Creating? && LiveUids(u.w.jobs) == LeftOf(listed, limit)
    requires Ordered(listed) && OlderAreFinished(listed) && NewestRuns(listed) &&
             |Filter(FinishedLive, listed)| >= limit
    ensures |LiveUids(Next(build, u, Ctl(Ok)).w.jobs)| == limit + 2
  {
    LeftIsCounted(listed, limit);
    CreateAddsExactlyOne(build, u);
  }

  lemma AndThen(build: Builder, limit: nat, s: State) returns (acts: seq<Action>)
    requires BaseInv(s) && s.pc.Swept? && s.pc.job.limit == limit && Overshoots(s.w.jobs, limit, s.pc.next)
    ensures EndsTooFull(build, limit, s, acts)
  {
    var first := PruneLists(build, s, limit);
    acts := ToTheCreateCall(build, limit, first, s.w.jobs);
    BaseHolds(build, first, acts);
    FillsUp(build, limit, s.w.jobs, Run(build, first, acts));
  }

  lemma PruneLists(build: Builder, s: State, limit: nat) returns (t: State)
    requires BaseInv(s) && s.pc.Swept? && s.pc.job.limit == limit
    ensures t == Next(build, s, Ctl(Ok)) && BaseInv(t) && t.w == s.w
    ensures t.pc.Pruning? && t.pc.doomed == PruneDoomed(s.w.jobs, limit) && t.pc.next == s.pc.next
  {
    t := Next(build, s, Ctl(Ok));
    BaseStep(build, s, Ctl(Ok));
  }

  /** Exactly when: at the prune's list of a reconcile in any run with the limit L, that reconcile can go on to leave
      L + 2 live batch Jobs if and only if the list has L finished ones or more, and its newest live one is still
      running and outdated. Otherwise no create call of this reconcile leaves more than L + 1. */
  lemma OvershootsIff(build: Builder, limit: nat, origin: State, earlier: seq<Action>)
    requires Init(origin) && Along(build, origin, earlier, PruneGuard(limit))
    requires Run(build, origin, earlier).pc.Swept?
    ensures var s := Run(build, origin, earlier);
            (exists acts :: EndsTooFull(build, limit, s, acts)) <==> Overshoots(s.w.jobs, limit, s.pc.next)
  {
    AtMostLimitPlusTwo(build, limit, origin, earlier);
    CanOvershootIff(build, limit, Run(build, origin, earlier));
  }

  lemma CanOvershootIff(build: Builder, limit: nat, s: State)
    requires BaseInv(s) && s.pc.Swept? && s.pc.job.limit == limit
    ensures (exists acts :: EndsTooFull(build, limit, s, acts)) <==> Overshoots(s.w.jobs, limit, s.pc.next)
  {
    if Overshoots(s.w.jobs, limit, s.pc.next) {
      var acts := AndThen(build, limit, s);
    }
    if acts :| EndsTooFull(build, limit, s, acts) {
      OnlyThen(build, limit, s, acts);
    }
  }
}
