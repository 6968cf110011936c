/** At most one batch Job per spec: as long as the manifests that are built carry the hash h, no more than one
    batch Job with the hash h is created, in any run with a history limit of at least one, TTLs that do not
    decrease from one batch Job to the next, known finish times, annotation updates that succeed, and nobody else
    deleting batch Jobs. */
module AtMostOnce {
  import opened Prelude
  import opened Objects
  import opened Construct
  import opened Passes
  import opened PassFacts
  import opened Cluster
  import opened Steps
  import opened Safety

  // ---------------------------------------------------------------- the assumptions, step by step

  predicate TtlAtMost(x: BatchJob, ttl: Option<int>) {
    ttl.Some? ==> Ttl(x).Some? && Ttl(x).value <= ttl.value
  }

  function TtlOf(m: Manifest): Option<int> {
    match TtlFromAnnotations(m.annotations) case None => None case Some(ttl) => Some(ttl as int)
  }

  /** The annotation update that the marking loop is about to make reaches an object that is still as it was listed. */
  predicate UpdateSucceeds(s: State, o: Outcome) {
    s.pc.Marking? && 0 < s.pc.todo <= |s.pc.listed| && NeedsMark(s.pc.listed[s.pc.todo - 1], s.pc.since) ==>
      o == Ok && s.pc.listed[s.pc.todo - 1] in s.w.jobs
  }

  predicate Orderly(build: Builder, s: State, a: Action) {
    match a
    case Restart => !s.pc.Marking?
    case Ctl(o) =>
      UpdateSucceeds(s, o) && BuildsUnmarked(build, s, a) &&
      (s.pc.Creating? && o == Ok ==> forall x :: x in s.w.jobs ==> TtlAtMost(x, TtlOf(s.pc.next)))
    case Env(e) =>
      !e.BeginDelete? && !e.Remove? &&
      (e.Report? && IsTerminal(e.condition) ==> e.condition.at.Some?) &&
      (e.SetWrapper? && e.wrapper.Some? ==> e.wrapper.value.limit >= 1)
  }

  // ---------------------------------------------------------------- marks are set from the oldest on

  predicate Due(x: BatchJob, since: int) {
    Marked(x) || NeedsMark(x, since)
  }

  /** Whatever is marked, everything older is marked, too. */
  ghost predicate AgeClosed(jobs: seq<BatchJob>) {
    forall i, k :: 0 <= i < k < |jobs| && Marked(jobs[k]) ==> Marked(jobs[i])
  }

  ghost predicate DueClosed(jobs: seq<BatchJob>, since: int) {
    forall i, k :: 0 <= i < k < |jobs| && Due(jobs[k], since) ==> Due(jobs[i], since)
  }

  /** `x` finished no later than `y`, and its TTL is no longer. */
  predicate Before(x: BatchJob, y: BatchJob) {
    && Finished(x) && FinishedAt(x).Some?
    && (Finished(y) ==> FinishedAt(y).Some? && FinishedAt(x).value <= FinishedAt(y).value)
    && (Ttl(y).Some? ==> Ttl(x).Some? && Ttl(x).value <= Ttl(y).value)
  }

  predicate Normal(x: BatchJob) {
    Live(x) && (Finished(x) ==> FinishedAt(x).Some?)
  }

  ghost predicate Monotone(jobs: seq<BatchJob>) {
    && (forall i :: 0 <= i < |jobs| ==> Normal(jobs[i]))
    && (forall i, k :: 0 <= i < k < |jobs| ==> Before(jobs[i], jobs[k]))
  }

  lemma DueIsClosed(jobs: seq<BatchJob>, since: int)
    requires Monotone(jobs) && AgeClosed(jobs)
    ensures DueClosed(jobs, since)
  {
    forall i, k | 0 <= i < k < |jobs| && Due(jobs[k], since) ensures Due(jobs[i], since) {
      if !Marked(jobs[k]) {
        assert Before(jobs[i], jobs[k]) && Normal(jobs[i]);
        NeedsMarkIff(jobs[i], since);
        NeedsMarkIff(jobs[k], since);
      }
    }
  }

  /** Where the marking loop is: `todo` of the listed batch Jobs are still to be looked at, the newest came first. */
  ghost predicate MarkedDownTo(jobs: seq<BatchJob>, listed: seq<BatchJob>, todo: nat, since: int) {
    && |jobs| == |listed| && todo <= |listed|
    && (forall i :: 0 <= i < |jobs| ==> jobs[i].uid == listed[i].uid)
    && (forall i :: 0 <= i < |jobs| ==>
          (Marked(jobs[i]) <==> Marked(listed[i]) || (todo <= i && NeedsMark(listed[i], since))))
  }

  ghost predicate NewestIsSafe(jobs: seq<BatchJob>, doomed: seq<BatchJob>) {
    jobs != [] ==> jobs[|jobs| - 1].uid !in Uids(doomed)
  }

  ghost predicate PhaseIsOrderly(pc: Phase, jobs: seq<BatchJob>) {
    && (if pc.Marking? then MarkedDownTo(jobs, pc.listed, pc.todo, pc.since) && DueClosed(pc.listed, pc.since) &&
                            AgeClosed(pc.listed) && Ordered(pc.listed)
        else AgeClosed(jobs))
    && (pc.Culling? || pc.Pruning? ==> NewestIsSafe(jobs, pc.doomed))
  }

  ghost predicate HoldsGoodInput(pc: Phase) {
    && (pc.Idle? || pc.Bumping? || pc.Finishing? || pc.job.limit >= 1)
    && (HoldsManifest(pc) ==> !HasTtlExpired(pc.next.annotations))
  }

  ghost predicate OrderInv(s: State) {
    && BaseInv(s)
    && Monotone(s.w.jobs)
    && (s.w.wrapper.Some? ==> s.w.wrapper.value.limit >= 1)
    && HoldsGoodInput(s.pc)
    && PhaseIsOrderly(s.pc, s.w.jobs)
  }

  // ---------------------------------------------------------------- steps that only age batch Jobs, one by one

  ghost predicate Pointwise(jobs: seq<BatchJob>, jobs': seq<BatchJob>, now: int) {
    |jobs'| == |jobs| && forall i :: 0 <= i < |jobs| ==> Descends(jobs[i], jobs'[i], now) && Normal(jobs'[i])
  }

  lemma OneDescends(build: Builder, s: State, e: EnvAction, i: nat)
    requires Orderly(build, s, Env(e)) && i < |s.w.jobs| && Normal(s.w.jobs[i])
    ensures |EnvNext(s.w, e).jobs| == |s.w.jobs|
    ensures var x := EnvNext(s.w, e).jobs[i];
            Descends(s.w.jobs[i], x, EnvNext(s.w, e).now) && Normal(x) && Marked(x) == Marked(s.w.jobs[i])
  {
    var y := s.w.jobs[i];
    UnfinishedHasNoTime(y.conditions);
    if e.Report? && (e.condition.at.None? || e.condition.at.value == s.w.now) {
      ConditionDescends(y, e.uid, e.condition, s.w.now);
      LaterConditionsDoNotMatter(y.conditions, e.condition);
    }
  }

  lemma EnvIsPointwise(build: Builder, s: State, e: EnvAction)
    requires Orderly(build, s, Env(e)) && Monotone(s.w.jobs)
    ensures Pointwise(s.w.jobs, EnvNext(s.w, e).jobs, EnvNext(s.w, e).now)
    ensures forall i :: 0 <= i < |s.w.jobs| ==> Marked(EnvNext(s.w, e).jobs[i]) == Marked(s.w.jobs[i])
  {
    if s.w.jobs == [] {
      assert EnvNext(s.w, e).jobs == [];
    } else {
      OneDescends(build, s, e, 0);
    }
    forall i | 0 <= i < |s.w.jobs|
      ensures Descends(s.w.jobs[i], EnvNext(s.w, e).jobs[i], EnvNext(s.w, e).now) && Normal(EnvNext(s.w, e).jobs[i])
      ensures Marked(EnvNext(s.w, e).jobs[i]) == Marked(s.w.jobs[i])
    {
      OneDescends(build, s, e, i);
    }
  }

  lemma PointwiseKeepsMonotone(jobs: seq<BatchJob>, jobs': seq<BatchJob>, now: int)
    requires Monotone(jobs) && Pointwise(jobs, jobs', now) && FinishedInThePast(jobs, now)
    ensures Monotone(jobs')
  {
    forall i, k | 0 <= i < k < |jobs'| ensures Before(jobs'[i], jobs'[k]) {
      assert Before(jobs[i], jobs[k]) && jobs[i] in jobs;
      assert Descends(jobs[i], jobs'[i], now) && Descends(jobs[k], jobs'[k], now) && Normal(jobs'[k]);
    }
  }

  /** With the UIDs and the marks, what the phase says about the batch Jobs stays true. */
  lemma SameMarksKeepPhase(pc: Phase, jobs: seq<BatchJob>, jobs': seq<BatchJob>)
    requires PhaseIsOrderly(pc, jobs) && |jobs'| == |jobs|
    requires forall i :: 0 <= i < |jobs| ==> jobs'[i].uid == jobs[i].uid && Marked(jobs'[i]) == Marked(jobs[i])
    ensures PhaseIsOrderly(pc, jobs')
  {
  }

  lemma EnvKeepsOrder(build: Builder, s: State, e: EnvAction)
    requires OrderInv(s) && Orderly(build, s, Env(e))
    ensures Monotone(EnvNext(s.w, e).jobs) && PhaseIsOrderly(s.pc, EnvNext(s.w, e).jobs)
  {
    EnvIsPointwise(build, s, e);
    var jobs, jobs', now := s.w.jobs, EnvNext(s.w, e).jobs, EnvNext(s.w, e).now;
    assert FinishedInThePast(jobs, now);
    PointwiseKeepsMonotone(jobs, jobs', now);
    forall i | 0 <= i < |jobs| ensures jobs'[i].uid == jobs[i].uid {
      assert Descends(jobs[i], jobs'[i], now);
    }
    SameMarksKeepPhase(s.pc, jobs, jobs');
  }

  // ---------------------------------------------------------------- erasing

  lemma EraseKeepsNewest(jobs: seq<BatchJob>, uid: nat)
    requires jobs != [] && jobs[|jobs| - 1].uid != uid
    ensures var jobs' := Erase(jobs, {uid}); jobs' != [] && jobs'[|jobs'| - 1] == jobs[|jobs| - 1]
  {
    var n := |jobs| - 1;
    assert jobs == jobs[..n] + [jobs[n]];
    FilterSnoc(Spares({uid}), jobs[..n], jobs[n]);
  }

  /** Every pair of the filtered list is a pair, in the same order, of the list. */
  lemma {:induction false} FilteredPair(p: BatchJob -> bool, jobs: seq<BatchJob>, i: nat, k: nat)
    returns (a: nat, b: nat)
    requires i < k < |Filter(p, jobs)|
    ensures a < b < |jobs| && Filter(p, jobs)[i] == jobs[a] && Filter(p, jobs)[k] == jobs[b]
  {
    var rest := Filter(p, jobs[1..]);
    assert Filter(p, jobs) == if p(jobs[0]) then [jobs[0]] + rest else rest;
    if !p(jobs[0]) {
      a, b := FilteredPair(p, jobs[1..], i, k);
      a, b := a + 1, b + 1;
    } else if i > 0 {
      a, b := FilteredPair(p, jobs[1..], i - 1, k - 1);
      a, b := a + 1, b + 1;
    } else {
      assert rest[k - 1] in rest;
      a := 0;
      b :| 0 <= b < |jobs[1..]| && jobs[1..][b] == rest[k - 1];
      b := b + 1;
    }
  }

  lemma EraseKeepsMonotone(jobs: seq<BatchJob>, uid: nat)
    requires Monotone(jobs) && AgeClosed(jobs)
    ensures Monotone(Erase(jobs, {uid})) && AgeClosed(Erase(jobs, {uid}))
  {
    var jobs' := Erase(jobs, {uid});
    forall i | 0 <= i < |jobs'| ensures Normal(jobs'[i]) {
      assert jobs'[i] in jobs';
    }
    forall i, k | 0 <= i < k < |jobs'| ensures Before(jobs'[i], jobs'[k]) && (Marked(jobs'[k]) ==> Marked(jobs'[i])) {
      var a, b := FilteredPair(Spares({uid}), jobs, i, k);
    }
  }

  lemma EraseKeepsSafe(jobs: seq<BatchJob>, doomed: seq<BatchJob>)
    requires doomed != [] && NewestIsSafe(jobs, doomed)
    ensures NewestIsSafe(Erase(jobs, {doomed[0].uid}), doomed[1..])
    ensures jobs != [] ==>
              var jobs' := Erase(jobs, {doomed[0].uid}); jobs' != [] && jobs'[|jobs'| - 1] == jobs[|jobs| - 1]
  {
    if jobs != [] {
      assert doomed[0] in doomed;
      assert doomed[0].uid in Uids(doomed);
      EraseKeepsNewest(jobs, doomed[0].uid);
      assert Uids(doomed[1..]) <= Uids(doomed);
    }
  }

  lemma ErasePhase(pc: Phase, jobs: seq<BatchJob>)
    requires Monotone(jobs) && PhaseIsOrderly(pc, jobs) && (pc.Culling? || pc.Pruning?) && pc.doomed != []
    ensures Monotone(Erase(jobs, {pc.doomed[0].uid}))
    ensures PhaseIsOrderly(WithDoomed(pc, pc.doomed[1..]), Erase(jobs, {pc.doomed[0].uid}))
  {
    EraseKeepsMonotone(jobs, pc.doomed[0].uid);
    EraseKeepsSafe(jobs, pc.doomed);
  }

  lemma EraseStep(build: Builder, s: State)
    requires OrderInv(s) && (s.pc.Culling? || s.pc.Pruning?) && s.pc.doomed != []
    ensures Monotone(CtlNext(build, s, Ok).w.jobs)
    ensures PhaseIsOrderly(CtlNext(build, s, Ok).pc, CtlNext(build, s, Ok).w.jobs)
  {
    CtlJobs(build, s, Ok);
    ErasePhase(s.pc, s.w.jobs);
    assert CtlNext(build, s, Ok).pc == WithDoomed(s.pc, s.pc.doomed[1..]);
  }

  // ---------------------------------------------------------------- the marking loop

  lemma MarkHitsOne(jobs: seq<BatchJob>, listed: seq<BatchJob>, i: nat)
    requires |jobs| == |listed| && i < |listed| && Ordered(listed) && listed[i] in jobs
    requires forall k :: 0 <= k < |jobs| ==> jobs[k].uid == listed[k].uid
    ensures jobs[i] == listed[i]
    ensures Replace(jobs, listed[i], WithMark(listed[i])) == jobs[i := WithMark(jobs[i])]
  {
    var k :| 0 <= k < |jobs| && jobs[k] == listed[i];
    assert listed[k].uid == listed[i].uid;
    assert k == i;
    forall m | 0 <= m < |jobs| && m != i ensures jobs[m] != listed[i] {
      assert listed[m].uid != listed[i].uid;
    }
  }

  lemma MarkKeepsMonotone(jobs: seq<BatchJob>, i: nat, now: int)
    requires Monotone(jobs) && i < |jobs| && FinishedInThePast(jobs, now)
    ensures Monotone(jobs[i := WithMark(jobs[i])])
  {
    var jobs' := jobs[i := WithMark(jobs[i])];
    forall m | 0 <= m < |jobs| ensures Descends(jobs[m], jobs'[m], now) && Normal(jobs'[m]) {
      MarkChangesOnlyTheMark(jobs[m]);
      UnfinishedHasNoTime(jobs[m].conditions);
    }
    PointwiseKeepsMonotone(jobs, jobs', now);
  }

  /** The batch Jobs after one round of the marking loop. */
  function AfterRound(jobs: seq<BatchJob>, listed: seq<BatchJob>, i: nat, since: int): seq<BatchJob>
    requires i < |jobs| && i < |listed|
  {
    if NeedsMark(listed[i], since) then jobs[i := WithMark(jobs[i])] else jobs
  }

  /** The batch Jobs after a step of the marking loop. */
  lemma MarkingLoopStep(build: Builder, s: State, o: Outcome)
    requires s.pc.Marking? && 0 < s.pc.todo && UpdateSucceeds(s, o)
    requires MarkedDownTo(s.w.jobs, s.pc.listed, s.pc.todo, s.pc.since) && Ordered(s.pc.listed)
    ensures var i := s.pc.todo - 1;
            CtlNext(build, s, o).w.jobs == AfterRound(s.w.jobs, s.pc.listed, i, s.pc.since)
    ensures CtlNext(build, s, o).pc == WithTodo(s.pc, s.pc.todo - 1)
  {
    CtlJobs(build, s, o);
    if NeedsMark(s.pc.listed[s.pc.todo - 1], s.pc.since) {
      MarkHitsOne(s.w.jobs, s.pc.listed, s.pc.todo - 1);
    }
  }

  lemma MarkIsSet(j: BatchJob)
    ensures Marked(WithMark(j)) && WithMark(j).uid == j.uid
  {
  }

  lemma MarkKeepsDownTo(jobs: seq<BatchJob>, listed: seq<BatchJob>, todo: nat, since: int)
    requires MarkedDownTo(jobs, listed, todo, since) && todo > 0
    ensures MarkedDownTo(AfterRound(jobs, listed, todo - 1, since), listed, todo - 1, since)
  {
    MarkIsSet(jobs[todo - 1]);
    var r := AfterRound(jobs, listed, todo - 1, since);
    forall i | 0 <= i < |r|
      ensures r[i].uid == listed[i].uid
      ensures Marked(r[i]) <==> Marked(listed[i]) || (todo - 1 <= i && NeedsMark(listed[i], since))
    {
      assert i != todo - 1 ==> r[i] == jobs[i];
    }
  }

  lemma RoundKeepsMonotone(jobs: seq<BatchJob>, listed: seq<BatchJob>, i: nat, since: int, now: int)
    requires Monotone(jobs) && FinishedInThePast(jobs, now) && i < |jobs| && i < |listed|
    ensures Monotone(AfterRound(jobs, listed, i, since))
  {
    MarkKeepsMonotone(jobs, i, now);
  }

  lemma MarkOneStep(build: Builder, s: State, o: Outcome)
    requires OrderInv(s) && s.pc.Marking? && s.pc.todo > 0 && UpdateSucceeds(s, o)
    ensures Monotone(CtlNext(build, s, o).w.jobs)
    ensures PhaseIsOrderly(CtlNext(build, s, o).pc, CtlNext(build, s, o).w.jobs)
  {
    var i := s.pc.todo - 1;
    MarkingLoopStep(build, s, o);
    RoundKeepsMonotone(s.w.jobs, s.pc.listed, i, s.pc.since, s.w.now);
    MarkKeepsDownTo(s.w.jobs, s.pc.listed, s.pc.todo, s.pc.since);
    assert PhaseIsOrderly(WithTodo(s.pc, i), AfterRound(s.w.jobs, s.pc.listed, i, s.pc.since));
  }

  lemma MarkedAllTheWay(jobs: seq<BatchJob>, listed: seq<BatchJob>, since: int)
    requires MarkedDownTo(jobs, listed, 0, since) && DueClosed(listed, since)
    ensures AgeClosed(jobs)
  {
    forall i, k | 0 <= i < k < |jobs| && Marked(jobs[k]) ensures Marked(jobs[i]) {
      assert Due(listed[k], since) && Due(listed[i], since);
    }
  }

  lemma NewestMarkedAllMarked(listed: seq<BatchJob>)
    requires AgeClosed(listed) && listed != [] && Marked(listed[|listed| - 1])
    ensures forall x :: x in listed ==> Marked(x)
  {
  }

  lemma SparedIfAllMarked(listed: seq<BatchJob>)
    requires Ordered(listed) && listed != []
    requires Marked(listed[|listed| - 1]) ==> forall x :: x in listed ==> Marked(x)
    ensures listed[|listed| - 1].uid !in Uids(TtlDoomed(listed))
  {
    NewestDoomedIff(listed);
  }

  /** When the marks are closed, the newest batch Job is not among those that the TTL pass deletes. */
  lemma ClosedMarksSpareNewest(listed: seq<BatchJob>)
    requires Ordered(listed) && AgeClosed(listed) && listed != []
    ensures listed[|listed| - 1].uid !in Uids(TtlDoomed(listed))
  {
    if Marked(listed[|listed| - 1]) {
      NewestMarkedAllMarked(listed);
    }
    SparedIfAllMarked(listed);
  }

  lemma NewestOfListedIsSafe(jobs: seq<BatchJob>, listed: seq<BatchJob>)
    requires Ordered(listed) && AgeClosed(listed) && |jobs| == |listed|
    requires jobs != [] ==> jobs[|jobs| - 1].uid == listed[|listed| - 1].uid
    ensures NewestIsSafe(jobs, TtlDoomed(listed))
  {
    if listed != [] {
      ClosedMarksSpareNewest(listed);
    }
  }

  lemma DoomedAfterMarking(jobs: seq<BatchJob>, listed: seq<BatchJob>, since: int)
    requires MarkedDownTo(jobs, listed, 0, since) && DueClosed(listed, since) && Ordered(listed) && AgeClosed(listed)
    ensures AgeClosed(jobs) && NewestIsSafe(jobs, TtlDoomed(listed))
  {
    MarkedAllTheWay(jobs, listed, since);
    NewestOfListedIsSafe(jobs, listed);
  }

  lemma CullingIsOrderly(pc: Phase, jobs: seq<BatchJob>, doomed: seq<BatchJob>)
    requires pc.Culling? && pc.doomed == doomed && AgeClosed(jobs) && NewestIsSafe(jobs, doomed)
    ensures PhaseIsOrderly(pc, jobs)
  {
  }

  lemma MarkingLeadsToCulling(build: Builder, s: State, o: Outcome)
    requires s.pc.Marking? && s.pc.todo == 0
    ensures var t := CtlNext(build, s, o); t.w == s.w && t.pc.Culling? && t.pc.doomed == TtlDoomed(s.pc.listed)
  {
  }

  lemma MarkingIsDone(build: Builder, s: State, o: Outcome)
    requires OrderInv(s) && s.pc.Marking? && s.pc.todo == 0
    ensures CtlNext(build, s, o).w.jobs == s.w.jobs
    ensures PhaseIsOrderly(CtlNext(build, s, o).pc, s.w.jobs)
  {
    DoomedAfterMarking(s.w.jobs, s.pc.listed, s.pc.since);
    MarkingLeadsToCulling(build, s, o);
    CullingIsOrderly(CtlNext(build, s, o).pc, s.w.jobs, TtlDoomed(s.pc.listed));
  }

  lemma ListForMarking(build: Builder, s: State)
    requires OrderInv(s) && s.pc.Clocked?
    ensures CtlNext(build, s, Ok).w.jobs == s.w.jobs
    ensures PhaseIsOrderly(CtlNext(build, s, Ok).pc, s.w.jobs)
  {
    DueIsClosed(s.w.jobs, s.pc.since);
  }

  lemma ListForPrune(build: Builder, s: State)
    requires OrderInv(s) && s.pc.Swept?
    ensures CtlNext(build, s, Ok).w.jobs == s.w.jobs
    ensures PhaseIsOrderly(CtlNext(build, s, Ok).pc, s.w.jobs)
  {
    if s.w.jobs != [] {
      NewestSurvivesPrune(s.w.jobs, s.pc.job.limit);
    }
  }

  lemma AppendKeepsMonotone(jobs: seq<BatchJob>, n: BatchJob)
    requires Monotone(jobs) && AgeClosed(jobs) && Live(n) && !Finished(n) && !Marked(n)
    requires forall i :: 0 <= i < |jobs| ==> Before(jobs[i], n)
    ensures Monotone(jobs + [n]) && AgeClosed(jobs + [n])
  {
  }

  lemma CreateStep(build: Builder, s: State)
    requires OrderInv(s) && s.pc.Creating? && Orderly(build, s, Ctl(Ok))
    ensures CtlNext(build, s, Ok).w.jobs == s.w.jobs + [NewJob(s.w.serial, s.pc.next)]
    ensures Monotone(CtlNext(build, s, Ok).w.jobs)
    ensures PhaseIsOrderly(CtlNext(build, s, Ok).pc, CtlNext(build, s, Ok).w.jobs)
  {
    var n := NewJob(s.w.serial, s.pc.next);
    forall i | 0 <= i < |s.w.jobs| ensures Before(s.w.jobs[i], n) {
      assert s.w.jobs[i] in s.w.jobs && Normal(s.w.jobs[i]);
      assert TtlAtMost(s.w.jobs[i], TtlOf(s.pc.next));
    }
    AppendKeepsMonotone(s.w.jobs, n);
  }

  /** The remaining controller steps touch no batch Job. */
  lemma OtherStep(build: Builder, s: State, o: Outcome)
    requires !s.pc.Marking? && !(s.pc.Clocked? && o == Ok) && !(s.pc.Swept? && o == Ok) && !Creates(s, Ctl(o))
    requires (s.pc.Culling? || s.pc.Pruning?) && s.pc.doomed != [] ==> o != Ok
    requires PhaseIsOrderly(s.pc, s.w.jobs)
    ensures CtlNext(build, s, o).w.jobs == s.w.jobs
    ensures PhaseIsOrderly(CtlNext(build, s, o).pc, s.w.jobs)
  {
    if (s.pc.Culling? || s.pc.Pruning?) && s.pc.doomed != [] {
      assert Uids(s.pc.doomed[1..]) <= Uids(s.pc.doomed);
    }
  }

  /** The limit and the manifest that the reconcile holds. */
  lemma InputStep(build: Builder, s: State, a: Action)
    requires (s.w.wrapper.Some? ==> s.w.wrapper.value.limit >= 1) && HoldsGoodInput(s.pc) && Orderly(build, s, a)
    ensures var t := Next(build, s, a);
            (t.w.wrapper.Some? ==> t.w.wrapper.value.limit >= 1) && HoldsGoodInput(t.pc)
  {
  }

  lemma PhaseStep(build: Builder, s: State, a: Action)
    requires OrderInv(s) && Orderly(build, s, a)
    ensures Monotone(Next(build, s, a).w.jobs) && PhaseIsOrderly(Next(build, s, a).pc, Next(build, s, a).w.jobs)
  {
    match a
    case Env(e) => EnvKeepsOrder(build, s, e);
    case Restart =>
    case Ctl(o) =>
      if s.pc.Marking? {
        if s.pc.todo == 0 {
          MarkingIsDone(build, s, o);
        } else {
          MarkOneStep(build, s, o);
        }
      } else if s.pc.Clocked? && o == Ok {
        ListForMarking(build, s);
      } else if s.pc.Swept? && o == Ok {
        ListForPrune(build, s);
      } else if Creates(s, a) {
        CreateStep(build, s);
      } else if (s.pc.Culling? || s.pc.Pruning?) && s.pc.doomed != [] && o == Ok {
        EraseStep(build, s);
      } else {
        OtherStep(build, s, o);
      }
  }

  lemma OrderStep(build: Builder, s: State, a: Action)
    requires OrderInv(s) && Orderly(build, s, a)
    ensures OrderInv(Next(build, s, a))
  {
    BaseStep(build, s, a);
    InputStep(build, s, a);
    PhaseStep(build, s, a);
  }

  lemma {:induction false} OrderHolds(build: Builder, s: State, acts: seq<Action>)
    requires OrderInv(s) && Along(build, s, acts, (t, a) => Orderly(build, t, a))
    ensures OrderInv(Run(build, s, acts))
  {
    if acts != [] {
      OrderHolds(build, s, acts[..|acts| - 1]);
      OrderStep(build, Run(build, s, acts[..|acts| - 1]), acts[|acts| - 1]);
    }
  }

  /** A TTL pass that starts from these batch Jobs never deletes the newest one. */
  ghost predicate SparesNewest(jobs: seq<BatchJob>) {
    jobs != [] ==> jobs[|jobs| - 1].uid !in Uids(TtlDoomed(jobs))
  }

  lemma ClosedSparesNewest(jobs: seq<BatchJob>)
    requires Ordered(jobs) && AgeClosed(jobs)
    ensures SparesNewest(jobs)
  {
    if jobs != [] {
      ClosedMarksSpareNewest(jobs);
    }
  }

  lemma ClosedBetweenLoops(t: State)
    requires OrderInv(t) && !t.pc.Marking?
    ensures Ordered(t.w.jobs) && AgeClosed(t.w.jobs)
  {
  }

  /** In every such run, whenever no marking loop is under way, the marks are closed towards older batch Jobs, and the
      newest one is safe from a TTL pass that starts then. */
  lemma MarksAreAgeClosed(build: Builder, s: State, acts: seq<Action>)
    requires Init(s) && Along(build, s, acts, (t, a) => Orderly(build, t, a))
    requires !Run(build, s, acts).pc.Marking?
    ensures AgeClosed(Run(build, s, acts).w.jobs) && SparesNewest(Run(build, s, acts).w.jobs)
  {
    OrderHolds(build, s, acts);
    ClosedBetweenLoops(Run(build, s, acts));
    ClosedSparesNewest(Run(build, s, acts).w.jobs);
  }

  // ---------------------------------------------------------------- at most one creation

  predicate IsCreation(e: Event, h: string) {
    e.Created? && SpecHash(e.job.manifest) == h
  }

  /** How many batch Jobs with the hash `h` the log says were created. */
  function Creations(log: seq<Event>, h: string): nat {
    if log == [] then 0
    else Creations(log[..|log| - 1], h) + if IsCreation(log[|log| - 1], h) then 1 else 0
  }

  lemma {:induction false} CreationsConcat(a: seq<Event>, b: seq<Event>, h: string)
    ensures Creations(a + b, h) == Creations(a, h) + Creations(b, h)
  {
    if b == [] {
      assert a + b == a;
    } else {
      assert (a + b)[..|a + b| - 1] == a + b[..|b| - 1];
      CreationsConcat(a, b[..|b| - 1], h);
    }
  }

  lemma {:induction false} DeletionsCreateNothing(gone: seq<BatchJob>, why: Reason, at: int, h: string)
    ensures Creations(Deletions(gone, why, at), h) == 0
  {
    if gone != [] {
      var n := |gone| - 1;
      assert Deletions(gone, why, at)[..n] == Deletions(gone[..n], why, at);
      DeletionsCreateNothing(gone[..n], why, at, h);
    }
  }

  /** Every manifest that is built carries the hash `h`. */
  predicate Builds(build: Builder, h: string, s: State, a: Action) {
    a.Ctl? && s.pc.Fetched? && BuildFor(build, s.pc.job, s.w.profiles).Some? ==>
      SpecHash(BuildFor(build, s.pc.job, s.w.profiles).value) == h
  }

  predicate NewestHas(jobs: seq<BatchJob>, h: string) {
    jobs != [] && SpecHash(jobs[|jobs| - 1].manifest) == h
  }

  /** `before` creations with the hash `h` had been logged when the watch began. Once there has been another one, the
      newest batch Job has that hash, so has what the reconcile holds, and it is not about to create anything. */
  ghost predicate OnceInv(h: string, before: nat, s: State) {
    && OrderInv(s)
    && before <= Creations(s.w.log, h) <= before + 1
    && (Creations(s.w.log, h) == before + 1 ==>
          NewestHas(s.w.jobs, h) && (HoldsManifest(s.pc) ==> SpecHash(s.pc.next) == h) && !s.pc.Creating?)
  }

  lemma EnvKeepsNewest(build: Builder, h: string, s: State, e: EnvAction)
    requires Monotone(s.w.jobs) && Orderly(build, s, Env(e)) && NewestHas(s.w.jobs, h)
    ensures NewestHas(EnvNext(s.w, e).jobs, h)
  {
    EnvIsPointwise(build, s, e);
    var n := |s.w.jobs| - 1;
    assert Descends(s.w.jobs[n], EnvNext(s.w, e).jobs[n], EnvNext(s.w, e).now);
  }

  lemma MarkKeepsNewest(jobs: seq<BatchJob>, i: nat, h: string)
    requires i < |jobs| && NewestHas(jobs, h)
    ensures NewestHas(jobs[i := WithMark(jobs[i])], h)
  {
    MarkChangesOnlyTheMark(jobs[i]);
  }

  lemma MarkingKeepsNewest(build: Builder, h: string, s: State, o: Outcome)
    requires s.pc.Marking? && 0 < s.pc.todo && UpdateSucceeds(s, o) && NewestHas(s.w.jobs, h)
    requires MarkedDownTo(s.w.jobs, s.pc.listed, s.pc.todo, s.pc.since) && Ordered(s.pc.listed)
    ensures NewestHas(CtlNext(build, s, o).w.jobs, h)
  {
    MarkingLoopStep(build, s, o);
    MarkKeepsNewest(s.w.jobs, s.pc.todo - 1, h);
  }

  lemma ErasingKeepsNewest(s: State, h: string)
    requires (s.pc.Culling? || s.pc.Pruning?) && s.pc.doomed != []
    requires NewestIsSafe(s.w.jobs, s.pc.doomed) && NewestHas(s.w.jobs, h)
    ensures NewestHas(Erase(s.w.jobs, {s.pc.doomed[0].uid}), h)
  {
    EraseKeepsSafe(s.w.jobs, s.pc.doomed);
  }

  lemma CtlKeepsNewest(build: Builder, h: string, s: State, o: Outcome)
    requires PhaseIsOrderly(s.pc, s.w.jobs) && Orderly(build, s, Ctl(o)) && !Creates(s, Ctl(o)) &&
             NewestHas(s.w.jobs, h)
    ensures NewestHas(CtlNext(build, s, o).w.jobs, h)
  {
    if s.pc.Marking? && s.pc.todo > 0 {
      MarkingKeepsNewest(build, h, s, o);
    } else {
      CtlJobs(build, s, o);
      if (s.pc.Culling? || s.pc.Pruning?) && s.pc.doomed != [] {
        ErasingKeepsNewest(s, h);
      }
    }
  }

  /** Without a creation the newest batch Job stays, with its hash. */
  lemma NewestStays(build: Builder, h: string, s: State, a: Action)
    requires OrderInv(s) && Orderly(build, s, a) && !Creates(s, a) && NewestHas(s.w.jobs, h)
    ensures NewestHas(Next(build, s, a).w.jobs, h)
  {
    match a
    case Env(e) => EnvKeepsNewest(build, h, s, e);
    case Restart =>
    case Ctl(o) => CtlKeepsNewest(build, h, s, o);
  }

  lemma LogStays(build: Builder, h: string, s: State, a: Action)
    requires !Creates(s, a)
    ensures Creations(Next(build, s, a).w.log, h) == Creations(s.w.log, h)
  {
    if a.Ctl? && a.o == Ok && (s.pc.Culling? || s.pc.Pruning?) && s.pc.doomed != [] {
      var uid, why := s.pc.doomed[0].uid, if s.pc.Culling? then Expired else Reason.Pruned;
      var gone := Filter((x: BatchJob) => x.uid == uid && Live(x), s.w.jobs);
      CreationsConcat(s.w.log, Deletions(gone, why, s.w.now), h);
      DeletionsCreateNothing(gone, why, s.w.now, h);
    }
  }

  lemma NothingElseIsCreated(build: Builder, h: string, s: State, a: Action)
    requires OrderInv(s) && NewestHas(s.w.jobs, h) && !s.pc.Creating?
    requires HoldsManifest(s.pc) ==> SpecHash(s.pc.next) == h
    requires Builds(build, h, s, a)
    ensures HoldsManifest(Next(build, s, a).pc) ==> SpecHash(Next(build, s, a).pc.next) == h
    ensures !Next(build, s, a).pc.Creating?
  {
    assert Normal(s.w.jobs[|s.w.jobs| - 1]);
    assert LatestLive(s.w.jobs) == Some(s.w.jobs[|s.w.jobs| - 1]);
  }

  lemma CreationIsCounted(w: World, next: Manifest, h: string)
    ensures Creations(Create(w, next).log, h) == Creations(w.log, h) + if SpecHash(next) == h then 1 else 0
    ensures NewestHas(Create(w, next).jobs, h) <==> SpecHash(next) == h
  {
    var e := Created(NewJob(w.serial, next));
    assert (w.log + [e])[..|w.log|] == w.log;
  }

  lemma OnceStep(build: Builder, h: string, before: nat, s: State, a: Action)
    requires OnceInv(h, before, s) && Orderly(build, s, a) && Builds(build, h, s, a)
    ensures OnceInv(h, before, Next(build, s, a))
  {
    OrderStep(build, s, a);
    if Creates(s, a) {
      CreationIsCounted(s.w, s.pc.next, h);
      assert Next(build, s, a) == State(Create(s.w, s.pc.next), Finishing(s.pc.since, s.pc.delay, false));
    } else {
      LogStays(build, h, s, a);
      if Creations(s.w.log, h) == before + 1 {
        NewestStays(build, h, s, a);
        NothingElseIsCreated(build, h, s, a);
      }
    }
  }

  lemma {:induction false} OnceHolds(build: Builder, h: string, before: nat, s: State, acts: seq<Action>)
    requires OnceInv(h, before, s)
    requires Along(build, s, acts, (t, a) => Orderly(build, t, a) && Builds(build, h, t, a))
    ensures OnceInv(h, before, Run(build, s, acts))
  {
    if acts != [] {
      OnceHolds(build, h, before, s, acts[..|acts| - 1]);
      OnceStep(build, h, before, Run(build, s, acts[..|acts| - 1]), acts[|acts| - 1]);
    }
  }

  /** From any point of any such run on: while every manifest that is built carries the hash `h`, at most one batch
      Job with that hash is created. */
  lemma AtMostOncePerSpec(build: Builder, h: string, s: State, earlier: seq<Action>, later: seq<Action>)
    requires Init(s) && Along(build, s, earlier, (t, a) => Orderly(build, t, a))
    requires Along(build, Run(build, s, earlier), later, (t, a) => Orderly(build, t, a) && Builds(build, h, t, a))
    ensures var from := Run(build, s, earlier);
            Creations(from.w.log, h) <= Creations(Run(build, from, later).w.log, h) <= Creations(from.w.log, h) + 1
  {
    OrderHolds(build, s, earlier);
    var from := Run(build, s, earlier);
    OnceHolds(build, h, Creations(from.w.log, h), from, later);
  }

  /** The desired spec has the hash `h`, and the wrapper is not edited after a reconcile has read it and before that
      reconcile reads the profile. */
  predicate DesiresWhatItReads(build: Builder, h: string, s: State, a: Action) {
    && (Desired(build, s.w).Some? ==> SpecHash(Desired(build, s.w).value) == h)
    && (a.Ctl? && s.pc.Fetched? ==> Active(s.w) && s.w.wrapper == Some(s.pc.job))
  }

  lemma {:induction false} DesiredIsBuilt(build: Builder, h: string, s: State, acts: seq<Action>)
    requires Along(build, s, acts, (t, a) => Orderly(build, t, a) && DesiresWhatItReads(build, h, t, a))
    ensures Along(build, s, acts, (t, a) => Orderly(build, t, a) && Builds(build, h, t, a))
  {
    if acts != [] {
      DesiredIsBuilt(build, h, s, acts[..|acts| - 1]);
    }
  }

  /** The same in terms of the spec that is desired: while its hash stays `h`, at most one batch Job with that
      hash is created. */
  lemma AtMostOnceWhileDesired(build: Builder, h: string, s: State, earlier: seq<Action>, later: seq<Action>)
    requires Init(s) && Along(build, s, earlier, (t, a) => Orderly(build, t, a))
    requires Along(build, Run(build, s, earlier), later,
                   (t, a) => Orderly(build, t, a) && DesiresWhatItReads(build, h, t, a))
    ensures var from := Run(build, s, earlier);
            Creations(Run(build, from, later).w.log, h) <= Creations(from.w.log, h) + 1
  {
    DesiredIsBuilt(build, h, Run(build, s, earlier), later);
    AtMostOncePerSpec(build, h, s, earlier, later);
  }
}
