/** Safety of every run, whatever fails and whatever the environment does in between: at most one batch Job of a wrapper
    is live and unfinished, and the controller only ever deletes what it may delete. */
module Safety {
  import opened Prelude
  import opened Objects
  import opened Construct
  import opened Passes
  import opened PassFacts
  import opened Cluster
  import opened Steps

  // ---------------------------------------------------------------- at most one unfinished batch Job

  /** Of two live batch Jobs the older one has finished. */
  ghost predicate OlderAreFinished(jobs: seq<BatchJob>) {
    forall x, y :: x in jobs && y in jobs && Live(x) && Live(y) && x.uid < y.uid ==> Finished(x)
  }

  ghost predicate FinishedInThePast(jobs: seq<BatchJob>, now: int) {
    forall x :: x in jobs && FinishedAt(x).Some? ==> FinishedAt(x).value <= now
  }

  ghost predicate AllFinished(jobs: seq<BatchJob>) {
    forall x :: x in jobs && Live(x) ==> Finished(x)
  }

  ghost predicate Sound(jobs: seq<BatchJob>, now: int, serial: nat) {
    && Ordered(jobs)
    && (forall x :: x in jobs ==> x.uid < serial)
    && OlderAreFinished(jobs)
    && FinishedInThePast(jobs, now)
  }

  ghost predicate BaseInv(s: State) {
    && Sound(s.w.jobs, s.w.now, s.w.serial)
    && (s.pc.Creating? ==> AllFinished(s.w.jobs))
    && ReadTheClock(s.pc, s.w.now)
  }

  /** The clock reading that a reconcile holds is not in the future. */
  predicate ReadTheClock(pc: Phase, now: int) {
    pc.Idle? || pc.Fetched? || pc.Ready? || pc.since <= now
  }

  lemma StepReadsTheClock(build: Builder, s: State, a: Action)
    requires ReadTheClock(s.pc, s.w.now)
    ensures ReadTheClock(Next(build, s, a).pc, Next(build, s, a).w.now)
  {
  }

  lemma CreateKeepsOrder(s: State)
    requires BaseInv(s) && s.pc.Creating?
    ensures BaseInv(State(Create(s.w, s.pc.next), Finishing(s.pc.since, s.pc.delay, false)))
  {
    assert Create(s.w, s.pc.next).jobs == s.w.jobs + [NewJob(s.w.serial, s.pc.next)];
  }

  lemma AgeKeeps(jobs: seq<BatchJob>, jobs': seq<BatchJob>, now: int, now': int, serial: nat)
    requires Age(jobs, jobs', now') && now <= now'
    requires FinishedInThePast(jobs, now) && forall x :: x in jobs ==> x.uid < serial
    ensures FinishedInThePast(jobs', now') && forall x :: x in jobs' ==> x.uid < serial
    ensures OlderAreFinished(jobs) ==> OlderAreFinished(jobs')
    ensures AllFinished(jobs) ==> AllFinished(jobs')
  {
    forall x | x in jobs'
      ensures x.uid < serial && (FinishedAt(x).Some? ==> FinishedAt(x).value <= now')
      ensures AllFinished(jobs) && Live(x) ==> Finished(x)
    {
      var y :| y in jobs && Descends(y, x, now');
    }
    if OlderAreFinished(jobs) {
      forall x, z | x in jobs' && z in jobs' && Live(x) && Live(z) && x.uid < z.uid ensures Finished(x) {
        var y :| y in jobs && Descends(y, x, now');
        var v :| v in jobs && Descends(v, z, now');
      }
    }
  }

  lemma AgeKeepsSound(jobs: seq<BatchJob>, jobs': seq<BatchJob>, now: int, now': int, serial: nat, serial': nat)
    requires Sound(jobs, now, serial) && Age(jobs, jobs', now') && now <= now' && serial <= serial'
    ensures Sound(jobs', now', serial') && (AllFinished(jobs) ==> AllFinished(jobs'))
  {
    AgeKeeps(jobs, jobs', now, now', serial);
  }

  lemma SoundStep(build: Builder, s: State, a: Action)
    requires Sound(s.w.jobs, s.w.now, s.w.serial) && !Creates(s, a)
    ensures var t := Next(build, s, a);
            Sound(t.w.jobs, t.w.now, t.w.serial) && (AllFinished(s.w.jobs) ==> AllFinished(t.w.jobs))
  {
    var t := Next(build, s, a);
    StepAges(build, s, a);
    AgeKeepsSound(s.w.jobs, t.w.jobs, s.w.now, t.w.now, s.w.serial, t.w.serial);
  }

  lemma BaseStep(build: Builder, s: State, a: Action)
    requires BaseInv(s)
    ensures BaseInv(Next(build, s, a))
  {
    if Creates(s, a) {
      CreateKeepsOrder(s);
    } else {
      StepReadsTheClock(build, s, a);
      SoundStep(build, s, a);
      if Next(build, s, a).pc.Creating? && !s.pc.Creating? {
        DecidedToCreate(build, s, a);
      }
    }
  }

  lemma DecidedToCreate(build: Builder, s: State, a: Action)
    requires Ordered(s.w.jobs) && OlderAreFinished(s.w.jobs)
    requires Next(build, s, a).pc.Creating? && !s.pc.Creating?
    ensures AllFinished(s.w.jobs) && Next(build, s, a).w == s.w
    ensures s.pc.Decide? && ShouldCreate(LatestLive(s.w.jobs), s.pc.next)
  {
    forall x | x in s.w.jobs && Live(x) ensures Finished(x) {
      LatestLiveIsNewest(s.w.jobs, x);
    }
  }

  lemma {:induction false} BaseHolds(build: Builder, s: State, acts: seq<Action>)
    requires BaseInv(s)
    ensures BaseInv(Run(build, s, acts))
  {
    if acts != [] {
      BaseHolds(build, s, acts[..|acts| - 1]);
      BaseStep(build, Run(build, s, acts[..|acts| - 1]), acts[|acts| - 1]);
    }
  }

  /** In every reachable state at most one batch Job is live and unfinished, and it is the newest live one. */
  lemma AtMostOneUnfinished(build: Builder, s: State, acts: seq<Action>, x: BatchJob, y: BatchJob)
    requires Init(s)
    requires var jobs := Run(build, s, acts).w.jobs; x in jobs && Live(x) && !Finished(x) && y in jobs && Live(y)
    ensures y.uid <= x.uid && (!Finished(y) ==> y == x)
    ensures LatestLive(Run(build, s, acts).w.jobs) == Some(x)
  {
    BaseHolds(build, s, acts);
    var jobs := Run(build, s, acts).w.jobs;
    LatestLiveIsNewest(jobs, x);
    LatestLiveIsNewest(jobs, LatestLive(jobs).value);
    if y.uid == x.uid {
      SameUidSameJob(jobs, x, y);
    }
  }

  // ---------------------------------------------------------------- justified deletions

  /** The TTL of a batch Job has run out at `t`. */
  predicate TtlExpired(j: BatchJob, t: int) {
    Finished(j) && FinishedAt(j).Some? && Ttl(j).Some? && FinishedAt(j).value + Ttl(j).value * 1_000_000_000 <= t
  }

  ghost predicate MarksAreTrue(jobs: seq<BatchJob>, now: int) {
    forall x :: x in jobs && Marked(x) ==> TtlExpired(x, now)
  }

  predicate Justified(e: Event) {
    e.Deleted? ==> Finished(e.job) && (e.why == Expired ==> TtlExpired(e.job, e.at))
  }

  /** Of the batch Jobs `listed` those that were marked still are. */
  ghost predicate MarksStay(listed: seq<BatchJob>, jobs: seq<BatchJob>) {
    forall y, x :: y in listed && x in jobs && x.uid == y.uid && Marked(y) ==> Marked(x)
  }

  ghost predicate FinishStays(listed: seq<BatchJob>, jobs: seq<BatchJob>) {
    forall y, x :: y in listed && x in jobs && x.uid == y.uid && Finished(y) ==> Finished(x)
  }

  ghost predicate JustInv(s: State) {
    && BaseInv(s)
    && MarksAreTrue(s.w.jobs, s.w.now)
    && (forall e :: e in s.w.log ==> Justified(e))
    && PhaseIsTrue(s.pc, s.w.jobs)
  }

  /** No manifest is built that already carries the expiry mark: users leave that annotation to the controller. */
  predicate BuildsUnmarked(build: Builder, s: State, a: Action) {
    s.pc.Fetched? && BuildFor(build, s.pc.job, s.w.profiles).Some? ==>
      !HasTtlExpired(BuildFor(build, s.pc.job, s.w.profiles).value.annotations)
  }

  lemma AgeKeepsStays(listed: seq<BatchJob>, jobs: seq<BatchJob>, jobs': seq<BatchJob>, now': int)
    requires Age(jobs, jobs', now')
    ensures MarksStay(listed, jobs) ==> MarksStay(listed, jobs')
    ensures FinishStays(listed, jobs) ==> FinishStays(listed, jobs')
  {
    forall y, x | y in listed && x in jobs' && x.uid == y.uid
      ensures MarksStay(listed, jobs) && Marked(y) ==> Marked(x)
      ensures FinishStays(listed, jobs) && Finished(y) ==> Finished(x)
    {
      var v :| v in jobs && Descends(v, x, now');
    }
  }

  lemma EnvKeepsMarksTrue(w: World, e: EnvAction)
    requires MarksAreTrue(w.jobs, w.now)
    ensures MarksAreTrue(EnvNext(w, e).jobs, EnvNext(w, e).now)
  {
    var w' := EnvNext(w, e);
    forall x | x in w'.jobs && Marked(x) ensures TtlExpired(x, w'.now) {
      if e.Report? && x !in w.jobs {
        var i :| 0 <= i < |w'.jobs| && w'.jobs[i] == x;
        ConditionDescends(w.jobs[i], e.uid, e.condition, w.now);
        assert x == WithCondition(w.jobs[i], e.uid, e.condition) && w.jobs[i] in w.jobs;
      } else if e.BeginDelete? && x !in w.jobs {
        var i :| 0 <= i < |w'.jobs| && w'.jobs[i] == x;
        assert x == WithDeletion(w.jobs[i], e.uid) && w.jobs[i] in w.jobs;
      }
    }
  }

  lemma UpdateKeepsMarksTrue(w: World, j: BatchJob, since: int)
    requires MarksAreTrue(w.jobs, w.now) && since <= w.now && NeedsMark(j, since)
    ensures MarksAreTrue(UpdateMark(w, j).jobs, w.now)
  {
    var jobs' := UpdateMark(w, j).jobs;
    forall x | x in jobs' && Marked(x) ensures TtlExpired(x, w.now) {
      if x !in w.jobs {
        assert x == WithMark(j);
        MarkChangesOnlyTheMark(j);
        NeedsMarkIff(j, since);
      }
    }
  }

  /** A deletion logs the batch Job it removes, as it was. */
  lemma DeletionIsLogged(w: World, uid: nat, why: Reason, e: Event)
    requires e in Delete(w, uid, why).log && e !in w.log
    ensures e.Deleted? && e.job in w.jobs && e.job.uid == uid && e.why == why && e.at == w.now && Live(e.job)
  {
    var gone := Filter((x: BatchJob) => x.uid == uid && Live(x), w.jobs);
    var i :| 0 <= i < |Deletions(gone, why, w.now)| && Deletions(gone, why, w.now)[i] == e;
    assert gone[i] in gone;
  }

  /** The steps that write to the log. */
  lemma WhoLogs(build: Builder, s: State, o: Outcome, e: Event)
    requires e in CtlNext(build, s, o).w.log && e !in s.w.log
    ensures s.pc.Culling? || s.pc.Pruning? || s.pc.Creating?
    ensures s.pc.Creating? ==> e.Created?
    ensures s.pc.Culling? ==> s.pc.doomed != [] && e in Delete(s.w, s.pc.doomed[0].uid, Expired).log
    ensures s.pc.Pruning? ==> s.pc.doomed != [] && e in Delete(s.w, s.pc.doomed[0].uid, Reason.Pruned).log
  {
  }

  lemma LoggedIsJustified(build: Builder, s: State, o: Outcome, e: Event)
    requires MarksAreTrue(s.w.jobs, s.w.now) && PhaseIsTrue(s.pc, s.w.jobs)
    requires e in CtlNext(build, s, o).w.log && e !in s.w.log
    ensures Justified(e)
  {
    WhoLogs(build, s, o, e);
    if s.pc.Culling? {
      DeletionIsLogged(s.w, s.pc.doomed[0].uid, Expired, e);
      assert s.pc.doomed[0] in s.pc.doomed;
    } else if s.pc.Pruning? {
      DeletionIsLogged(s.w, s.pc.doomed[0].uid, Reason.Pruned, e);
      assert s.pc.doomed[0] in s.pc.doomed;
    }
  }

  lemma CtlKeepsMarksTrue(build: Builder, s: State, o: Outcome)
    requires JustInv(s)
    ensures MarksAreTrue(CtlNext(build, s, o).w.jobs, s.w.now)
  {
    if !Creates(s, Ctl(o)) {
      CtlJobs(build, s, o);
      if s.pc.Marking? && 0 < s.pc.todo <= |s.pc.listed| && NeedsMark(s.pc.listed[s.pc.todo - 1], s.pc.since) {
        UpdateKeepsMarksTrue(s.w, s.pc.listed[s.pc.todo - 1], s.pc.since);
      }
    }
  }

  ghost predicate PhaseIsTrue(pc: Phase, jobs: seq<BatchJob>) {
    && (HoldsManifest(pc) ==> !HasTtlExpired(pc.next.annotations))
    && (pc.Marking? ==> MarksStay(pc.listed, jobs))
    && (pc.Culling? ==> (forall y :: y in pc.doomed ==> Marked(y)) && MarksStay(pc.doomed, jobs))
    && (pc.Pruning? ==> (forall y :: y in pc.doomed ==> Finished(y)) && FinishStays(pc.doomed, jobs))
  }

  lemma AgeKeepsPhaseTrue(pc: Phase, jobs: seq<BatchJob>, jobs': seq<BatchJob>, now': int)
    requires PhaseIsTrue(pc, jobs) && Age(jobs, jobs', now')
    ensures PhaseIsTrue(pc, jobs')
  {
    if pc.Marking? {
      AgeKeepsStays(pc.listed, jobs, jobs', now');
    } else if pc.Culling? || pc.Pruning? {
      AgeKeepsStays(pc.doomed, jobs, jobs', now');
    }
  }

  /** The phase that a controller step leads to is true of the batch Jobs before the step. */
  lemma CtlKeepsPhase(build: Builder, s: State, o: Outcome)
    requires BaseInv(s) && PhaseIsTrue(s.pc, s.w.jobs) && BuildsUnmarked(build, s, Ctl(o))
    ensures PhaseIsTrue(CtlNext(build, s, o).pc, s.w.jobs)
  {
    if s.pc.Clocked? || s.pc.Swept? {
      ListedStays(s.w.jobs);
    }
  }

  lemma ListedStays(jobs: seq<BatchJob>)
    requires Ordered(jobs)
    ensures MarksStay(jobs, jobs) && FinishStays(jobs, jobs)
  {
    forall y, x | y in jobs && x in jobs && x.uid == y.uid ensures x == y {
      SameUidSameJob(jobs, x, y);
    }
  }

  lemma PhaseStep(build: Builder, s: State, a: Action)
    requires BaseInv(s) && PhaseIsTrue(s.pc, s.w.jobs) && BuildsUnmarked(build, s, a)
    ensures PhaseIsTrue(Next(build, s, a).pc, Next(build, s, a).w.jobs)
  {
    var t := Next(build, s, a);
    if a.Ctl? {
      CtlKeepsPhase(build, s, a.o);
    }
    if Creates(s, a) {
      assert t.pc.Finishing?;
    } else {
      StepAges(build, s, a);
      assert PhaseIsTrue(t.pc, s.w.jobs);
      AgeKeepsPhaseTrue(t.pc, s.w.jobs, t.w.jobs, t.w.now);
    }
  }

  lemma MarksStep(build: Builder, s: State, a: Action)
    requires JustInv(s)
    ensures MarksAreTrue(Next(build, s, a).w.jobs, Next(build, s, a).w.now)
  {
    match a
    case Restart =>
    case Env(e) => EnvKeepsMarksTrue(s.w, e);
    case Ctl(o) => CtlKeepsMarksTrue(build, s, o); ClockStandsStill(build, s, o);
  }

  lemma ClockStandsStill(build: Builder, s: State, o: Outcome)
    ensures CtlNext(build, s, o).w.now == s.w.now
  {
  }

  lemma LogStep(build: Builder, s: State, a: Action, e: Event)
    requires JustInv(s) && e in Next(build, s, a).w.log
    ensures Justified(e)
  {
    if e !in s.w.log && a.Ctl? {
      LoggedIsJustified(build, s, a.o, e);
    }
  }

  lemma JustStep(build: Builder, s: State, a: Action)
    requires JustInv(s) && BuildsUnmarked(build, s, a)
    ensures JustInv(Next(build, s, a))
  {
    BaseStep(build, s, a);
    PhaseStep(build, s, a);
    MarksStep(build, s, a);
    forall e | e in Next(build, s, a).w.log ensures Justified(e) {
      LogStep(build, s, a, e);
    }
  }

  lemma {:induction false} JustHolds(build: Builder, s: State, acts: seq<Action>)
    requires JustInv(s) && Along(build, s, acts, (t, a) => BuildsUnmarked(build, t, a))
    ensures JustInv(Run(build, s, acts))
  {
    if acts != [] {
      JustHolds(build, s, acts[..|acts| - 1]);
      JustStep(build, Run(build, s, acts[..|acts| - 1]), acts[|acts| - 1]);
    }
  }

  /** In every run every batch Job that the controller has deleted had finished, and every one it has deleted for its
      TTL was past its finish time plus its TTL; and every mark that is set is true. */
  lemma DeletionsAreJustified(build: Builder, s: State, acts: seq<Action>)
    requires Init(s) && Along(build, s, acts, (t, a) => BuildsUnmarked(build, t, a))
    ensures forall e :: e in Run(build, s, acts).w.log && e.Deleted? ==>
              Finished(e.job) && (e.why == Expired ==> TtlExpired(e.job, e.at))
    ensures forall x :: x in Run(build, s, acts).w.jobs && Marked(x) ==> TtlExpired(x, Run(build, s, acts).w.now)
  {
    JustHolds(build, s, acts);
  }
}
