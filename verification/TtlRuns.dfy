/** TTL handling over whole runs in which the TTL pass can list and its annotation updates are not refused by the API
    server (an update may still lose against a concurrent change). */
module TtlRuns {
  import opened Prelude
  import opened Objects
  import opened Passes
  import opened PassFacts
  import opened Cluster
  import opened Steps
  import opened Safety

  /** The list of the TTL pass, which comes within ages of the clock reading, and its annotation updates do not fail. */
  predicate MarkingWorks(s: State, a: Action) {
    (a.Ctl? && (s.pc.Clocked? || s.pc.Marking?) ==> a.o == Ok) && (s.pc.Clocked? ==> s.w.now <= s.pc.since + AGES)
  }

  // ---------------------------------------------------------------- no TTL is forgotten

  /** `x` waits for its TTL to run out. */
  predicate Waiting(x: BatchJob) {
    !Marked(x) && ExpireAt(x).Some?
  }

  /** A requeue at `at` is in time for every batch Job that waits. */
  ghost predicate InTime(jobs: seq<BatchJob>, at: Option<int>, slack: int) {
    forall x :: x in jobs && Waiting(x) ==> at.Some? && at.value <= ExpireAt(x).value + GRACE + slack
  }

  ghost predicate Within(jobs: seq<BatchJob>, listed: seq<BatchJob>) {
    forall x :: x in jobs ==> x in listed
  }

  /** Every batch Job that the marking loop has passed by is gone, or changed, or did not need the mark. */
  ghost predicate PassedBy(jobs: seq<BatchJob>, listed: seq<BatchJob>, todo: nat, since: int) {
    forall i :: todo <= i < |listed| && listed[i] in jobs ==> !NeedsMark(listed[i], since)
  }

  function After(since: int, delay: Option<int>): Option<int> {
    match delay case None => None case Some(d) => Some(since + d)
  }

  ghost predicate TimerInv(s: State) {
    && BaseInv(s)
    && (s.pc.Marking? ==> FinishedInThePast(s.pc.listed, s.pc.since + AGES) && s.pc.todo <= |s.pc.listed|)
    && (!s.w.queued ==>
          && (s.pc.Idle? && Active(s.w) ==> InTime(s.w.jobs, s.w.timer, s.pc.lag))
          && (s.pc.Marking? ==> Within(s.w.jobs, s.pc.listed) &&
                                PassedBy(s.w.jobs, s.pc.listed, s.pc.todo, s.pc.since))
          && (HoldsDelay(s.pc) && (s.pc.Finishing? ==> !s.pc.failed) ==>
                InTime(s.w.jobs, After(s.pc.since, s.pc.delay), 0)))
  }

  lemma MarkingEnds(jobs: seq<BatchJob>, listed: seq<BatchJob>, since: int)
    requires Within(jobs, listed) && PassedBy(jobs, listed, 0, since) && FinishedInThePast(listed, since + AGES)
    ensures InTime(jobs, After(since, RequeueDelay(listed, since)), 0)
  {
    forall x | x in jobs && Waiting(x)
      ensures RequeueDelay(listed, since).Some?
      ensures since + RequeueDelay(listed, since).value <= ExpireAt(x).value + GRACE
    {
      var i :| 0 <= i < |listed| && listed[i] == x;
      RequeueIsInTime(listed, since, x);
    }
  }

  lemma EnvKeepsTimer(build: Builder, s: State, e: EnvAction)
    requires TimerInv(s)
    ensures TimerInv(State(EnvNext(s.w, e), s.pc))
  {
    BaseStep(build, s, Env(e));
    if !EnvNext(s.w, e).queued {
      EnvIsQuiet(build, s.w, e);
    }
  }

  /** The end of the marking loop. */
  lemma MarkingLoopEnds(build: Builder, s: State)
    requires TimerInv(s) && s.pc.Marking? && s.pc.todo == 0
    ensures TimerInv(CtlNext(build, s, Ok))
  {
    BaseStep(build, s, Ctl(Ok));
    if !s.w.queued {
      MarkingEnds(s.w.jobs, s.pc.listed, s.pc.since);
    }
  }

  lemma MarkingGoesOn(jobs: seq<BatchJob>, listed: seq<BatchJob>, todo: nat, since: int)
    requires 0 < todo <= |listed| && PassedBy(jobs, listed, todo, since)
    requires listed[todo - 1] in jobs ==> !NeedsMark(listed[todo - 1], since)
    ensures PassedBy(jobs, listed, todo - 1, since)
  {
  }

  /** The steps of the marking loop. */
  lemma MarkingStep(build: Builder, s: State)
    requires TimerInv(s) && s.pc.Marking? && s.pc.todo > 0
    ensures TimerInv(CtlNext(build, s, Ok))
  {
    BaseStep(build, s, Ctl(Ok));
    QuietMark(build, s);
    if !CtlNext(build, s, Ok).w.queued {
      MarkingGoesOn(s.w.jobs, s.pc.listed, s.pc.todo, s.pc.since);
    }
  }

  /** A round of the loop that leaves the wrapper out of the queue has marked nothing. */
  lemma QuietMark(build: Builder, s: State)
    requires s.pc.Marking? && 0 < s.pc.todo <= |s.pc.listed|
    ensures var t, j := CtlNext(build, s, Ok), s.pc.listed[s.pc.todo - 1];
            t.pc == WithTodo(s.pc, s.pc.todo - 1) &&
            (!t.w.queued ==> !s.w.queued && t.w.jobs == s.w.jobs && (j in s.w.jobs ==> !NeedsMark(j, s.pc.since)))
  {
  }

  /** Deletions, and the steps between them. */
  lemma LaterStep(build: Builder, s: State, o: Outcome)
    requires TimerInv(s) && HoldsDelay(s.pc) && !s.pc.Finishing?
    ensures TimerInv(CtlNext(build, s, o))
  {
    BaseStep(build, s, Ctl(o));
    var t := CtlNext(build, s, o);
    if !t.w.queued && (t.pc.Finishing? ==> !t.pc.failed) {
      if !Creates(s, Ctl(o)) {
        CtlJobs(build, s, o);
        assert !s.w.queued && Within(t.w.jobs, s.w.jobs);
        assert HoldsDelay(t.pc) && t.pc.since == s.pc.since && t.pc.delay == s.pc.delay;
      }
    }
  }

  lemma FinishingStep(build: Builder, s: State, o: Outcome)
    requires TimerInv(s) && s.pc.Finishing?
    ensures TimerInv(CtlNext(build, s, o))
  {
    BaseStep(build, s, Ctl(o));
  }

  lemma TimerStep(build: Builder, s: State, a: Action)
    requires TimerInv(s) && MarkingWorks(s, a)
    ensures TimerInv(Next(build, s, a))
  {
    match a
    case Env(e) => EnvKeepsTimer(build, s, e);
    case Restart => BaseStep(build, s, a);
    case Ctl(o) =>
      if s.pc.Marking? && s.pc.todo == 0 {
        MarkingLoopEnds(build, s);
      } else if s.pc.Marking? {
        MarkingStep(build, s);
      } else if s.pc.Finishing? {
        FinishingStep(build, s, o);
      } else if HoldsDelay(s.pc) {
        LaterStep(build, s, o);
      } else {
        BaseStep(build, s, a);
      }
  }

  lemma {:induction false} TimerHolds(build: Builder, s: State, acts: seq<Action>)
    requires TimerInv(s) && Along(build, s, acts, MarkingWorks)
    ensures TimerInv(Run(build, s, acts))
  {
    if acts != [] {
      TimerHolds(build, s, acts[..|acts| - 1]);
      TimerStep(build, Run(build, s, acts[..|acts| - 1]), acts[|acts| - 1]);
    }
  }

  /** If the wrapper is at rest and not queued, a requeue is pending that is in time for every batch Job that waits. */
  ghost predicate EveryTtlIsAwaited(t: State) {
    t.pc.Idle? && Active(t.w) && !t.w.queued ==>
      forall x :: x in t.w.jobs && !Marked(x) && ExpireAt(x).Some? ==>
        t.w.timer.Some? && t.w.timer.value <= ExpireAt(x).value + GRACE + t.pc.lag
  }

  /** Whenever a wrapper is at rest and not queued, each of its finished batch Jobs that still waits for its TTL has a
      pending requeue, at most three seconds after its expiry plus the time the last reconcile ran on after reading the
      clock (the requeue delay counts from the end of the reconcile). */
  lemma NoTtlIsForgotten(build: Builder, s: State, acts: seq<Action>)
    requires Init(s) && Along(build, s, acts, MarkingWorks)
    ensures EveryTtlIsAwaited(Run(build, s, acts))
  {
    TimerHolds(build, s, acts);
  }

  // ---------------------------------------------------------------- marked batch Jobs are cleaned up

  /** All of `jobs` but at most one are about to be deleted. */
  ghost predicate OneSpared(jobs: seq<BatchJob>, doomed: set<nat>) {
    forall x, y :: x in jobs && y in jobs ==> x.uid in doomed || y.uid in doomed || x.uid == y.uid
  }

  ghost predicate MarkedAreDoomed(jobs: seq<BatchJob>, doomed: set<nat>) {
    forall x :: x in jobs && Marked(x) ==> x.uid in doomed
  }

  ghost predicate CleanedBy(jobs: seq<BatchJob>, doomed: seq<BatchJob>) {
    MarkedAreDoomed(jobs, Uids(doomed)) || OneSpared(jobs, Uids(doomed))
  }

  /** Deletion works, and nobody else holds batch Jobs in deletion. */
  predicate CullingWorks(s: State, a: Action) {
    (a.Ctl? && (s.pc.Clocked? || s.pc.Culling?) ==> a.o == Ok) && !(a.Env? && a.e.BeginDelete?)
  }

  predicate PastCulling(pc: Phase) {
    pc.Swept? || pc.Pruning? || pc.Decide? || pc.Creating? || pc.Bumping? || (pc.Finishing? && !pc.failed)
  }

  ghost predicate CleanInv(s: State) {
    && Ordered(s.w.jobs)
    && (forall x :: x in s.w.jobs ==> Live(x))
    && (!s.w.queued ==>
          && (s.pc.Marking? ==> Within(s.w.jobs, s.pc.listed) && Ordered(s.pc.listed))
          && (s.pc.Culling? ==> CleanedBy(s.w.jobs, s.pc.doomed))
          && ((s.pc.Idle? && Active(s.w)) || PastCulling(s.pc) ==>
                MarkedAreDoomed(s.w.jobs, {}) || OneSpared(s.w.jobs, {})))
  }

  lemma FewerAreClean(jobs: seq<BatchJob>, jobs': seq<BatchJob>, doomed: set<nat>)
    requires Within(jobs', jobs)
    ensures MarkedAreDoomed(jobs, doomed) ==> MarkedAreDoomed(jobs', doomed)
    ensures OneSpared(jobs, doomed) ==> OneSpared(jobs', doomed)
  {
  }

  lemma PrefixOrLast(listed: seq<BatchJob>, x: BatchJob)
    requires x in listed
    ensures x.uid in Uids(listed[..|listed| - 1]) || x == listed[|listed| - 1]
  {
    var i :| 0 <= i < |listed| && listed[i] == x;
    assert i < |listed| - 1 ==> listed[..|listed| - 1][i] == x;
  }

  lemma CullingBegins(jobs: seq<BatchJob>, listed: seq<BatchJob>)
    requires Within(jobs, listed)
    ensures CleanedBy(jobs, TtlDoomed(listed))
  {
    if jobs != [] {
      assert jobs[0] in listed;
      TtlDoomsAllMarkedOrSparesNewest(listed);
      if forall x :: x in listed ==> Marked(x) {
        forall x | x in jobs ensures x.uid in Uids(listed[..|listed| - 1]) || x == listed[|listed| - 1] {
          PrefixOrLast(listed, x);
        }
      } else {
        var marked := Filter(Marked, listed);
        assert forall x :: x in jobs && Marked(x) ==> x in marked;
      }
    }
  }

  /** Deleting the first of the doomed takes it off both sides. */
  lemma CullOne(jobs: seq<BatchJob>, doomed: seq<BatchJob>)
    requires doomed != [] && forall x :: x in jobs ==> Live(x)
    ensures var jobs' := Erase(jobs, {doomed[0].uid});
            CleanedBy(jobs, doomed) ==> CleanedBy(jobs', doomed[1..])
  {
    var jobs' := Erase(jobs, {doomed[0].uid});
    assert forall y :: y in doomed ==> y == doomed[0] || y in doomed[1..];
    forall x | x in jobs' && x.uid in Uids(doomed) ensures x.uid in Uids(doomed[1..]) {
      var y :| y in doomed && y.uid == x.uid;
    }
  }

  lemma EnvKeepsLive(w: World, e: EnvAction)
    requires !e.BeginDelete? && forall x :: x in w.jobs ==> Live(x)
    ensures forall x :: x in EnvNext(w, e).jobs ==> Live(x)
  {
    var jobs' := EnvNext(w, e).jobs;
    forall x | x in jobs' ensures Live(x) {
      if x !in w.jobs {
        var i :| 0 <= i < |jobs'| && jobs'[i] == x;
        assert x == WithCondition(w.jobs[i], e.uid, e.condition) && w.jobs[i] in w.jobs;
      }
    }
  }

  lemma FewerStayClean(s: State, t: State)
    requires CleanInv(s) && t.pc == s.pc && t.w.wrapper == s.w.wrapper && !s.w.queued && Within(t.w.jobs, s.w.jobs)
    requires Ordered(t.w.jobs) && forall x :: x in t.w.jobs ==> Live(x)
    ensures CleanInv(t)
  {
    if s.pc.Marking? {
      MarkingIsClean(t, s.pc.listed);
    } else if s.pc.Culling? {
      FewerAreClean(s.w.jobs, t.w.jobs, Uids(s.pc.doomed));
      CullingIsClean(t, s.pc.doomed);
    } else {
      FewerAreClean(s.w.jobs, t.w.jobs, {});
    }
  }

  lemma EnvKeepsClean(build: Builder, s: State, e: EnvAction)
    requires CleanInv(s) && !e.BeginDelete?
    ensures CleanInv(State(EnvNext(s.w, e), s.pc))
  {
    EnvAges(s.w, e);
    EnvKeepsLive(s.w, e);
    if !EnvNext(s.w, e).queued {
      EnvIsQuiet(build, s.w, e);
      FewerStayClean(s, State(EnvNext(s.w, e), s.pc));
    }
  }

  /** All batch Jobs are live after a controller step, too. */
  lemma CtlKeepsLive(build: Builder, s: State, o: Outcome)
    requires Ordered(s.w.jobs) && (forall x :: x in s.w.jobs ==> Live(x)) && !Creates(s, Ctl(o))
    ensures var t := CtlNext(build, s, o); Ordered(t.w.jobs) && forall x :: x in t.w.jobs ==> Live(x)
  {
    CtlJobs(build, s, o);
    CallAges(CallOf(s, o), s.w.jobs, s.w.now);
  }

  lemma CullingStep(build: Builder, s: State)
    requires CleanInv(s) && s.pc.Culling?
    ensures CleanInv(CtlNext(build, s, Ok))
  {
    CtlKeepsLive(build, s, Ok);
    CullingLeadsOn(build, s);
    var t := CtlNext(build, s, Ok);
    if !t.w.queued {
      if s.pc.doomed == [] {
        CullingEnds(t);
      } else {
        CullOne(s.w.jobs, s.pc.doomed);
        CullingIsClean(t, s.pc.doomed[1..]);
      }
    }
  }

  lemma CullingLeadsOn(build: Builder, s: State)
    requires s.pc.Culling?
    ensures var t := CtlNext(build, s, Ok);
            (!t.w.queued ==> !s.w.queued) &&
            if s.pc.doomed == [] then t.pc.Swept? && t.w.jobs == s.w.jobs
            else t.pc == WithDoomed(s.pc, s.pc.doomed[1..]) && t.w.jobs == Erase(s.w.jobs, {s.pc.doomed[0].uid})
  {
  }

  lemma CullingEnds(t: State)
    requires t.pc.Swept? && CleanedBy(t.w.jobs, []) && Ordered(t.w.jobs) && forall x :: x in t.w.jobs ==> Live(x)
    ensures CleanInv(t)
  {
    assert Uids([]) == {};
  }

  /** Where a controller step leads from past the TTL pass. */
  lemma PastCullingLeadsOn(build: Builder, s: State, o: Outcome)
    requires PastCulling(s.pc) && !Creates(s, Ctl(o)) && !CtlNext(build, s, o).w.queued
    ensures !s.w.queued && Within(JobsAfter(s, o), s.w.jobs)
    ensures !CtlNext(build, s, o).pc.Marking? && !CtlNext(build, s, o).pc.Culling?
  {
  }

  lemma PastCullingStep(build: Builder, s: State, o: Outcome)
    requires CleanInv(s) && PastCulling(s.pc) && !Creates(s, Ctl(o))
    requires !CtlNext(build, s, o).w.queued
    ensures CleanInv(CtlNext(build, s, o))
  {
    CtlKeepsLive(build, s, o);
    CtlJobs(build, s, o);
    PastCullingLeadsOn(build, s, o);
    FewerAreClean(s.w.jobs, CtlNext(build, s, o).w.jobs, {});
  }

  lemma {:induction false} CleanHolds(build: Builder, s: State, acts: seq<Action>)
    requires BaseInv(s) && CleanInv(s) && Along(build, s, acts, CullingWorks)
    ensures BaseInv(Run(build, s, acts)) && CleanInv(Run(build, s, acts))
  {
    if acts != [] {
      CleanHolds(build, s, acts[..|acts| - 1]);
      BaseStep(build, Run(build, s, acts[..|acts| - 1]), acts[|acts| - 1]);
      CleanStep(build, Run(build, s, acts[..|acts| - 1]), acts[|acts| - 1]);
    }
  }

  lemma CleanStep(build: Builder, s: State, a: Action)
    requires BaseInv(s) && CleanInv(s) && CullingWorks(s, a)
    ensures CleanInv(Next(build, s, a))
  {
    match a
    case Env(e) => EnvKeepsClean(build, s, e);
    case Restart =>
    case Ctl(o) =>
      if Creates(s, a) {
        BaseStep(build, s, a);
        assert Next(build, s, a).w.queued;
      } else {
        CtlKeepsLive(build, s, o);
        if s.pc.Marking? {
          MarkingKeepsClean(build, s, o);
        } else if s.pc.Culling? {
          CullingStep(build, s);
        } else if PastCulling(s.pc) {
          if !Next(build, s, a).w.queued {
            PastCullingStep(build, s, o);
          }
        } else {
          ElsewhereStep(build, s, o);
        }
      }
  }

  lemma MarkingKeepsClean(build: Builder, s: State, o: Outcome)
    requires CleanInv(s) && s.pc.Marking?
    ensures CleanInv(CtlNext(build, s, o))
  {
    CtlKeepsLive(build, s, o);
    if !CtlNext(build, s, o).w.queued {
      MarkingLeadsOn(build, s, o);
      if CtlNext(build, s, o).pc.Marking? {
        MarkingIsClean(CtlNext(build, s, o), s.pc.listed);
      } else {
        CullingBegins(s.w.jobs, s.pc.listed);
        CullingIsClean(CtlNext(build, s, o), TtlDoomed(s.pc.listed));
      }
    }
  }

  lemma MarkingIsClean(t: State, listed: seq<BatchJob>)
    requires t.pc.Marking? && t.pc.listed == listed && Within(t.w.jobs, listed) && Ordered(t.w.jobs) && Ordered(listed)
    requires forall x :: x in t.w.jobs ==> Live(x)
    ensures CleanInv(t)
  {
  }

  lemma CullingIsClean(t: State, doomed: seq<BatchJob>)
    requires t.pc.Culling? && t.pc.doomed == doomed && CleanedBy(t.w.jobs, doomed) && Ordered(t.w.jobs)
    requires forall x :: x in t.w.jobs ==> Live(x)
    ensures CleanInv(t)
  {
  }

  lemma MarkingLeadsOn(build: Builder, s: State, o: Outcome)
    requires s.pc.Marking? && !CtlNext(build, s, o).w.queued
    ensures !s.w.queued && CtlNext(build, s, o).w.jobs == s.w.jobs
    ensures var pc := CtlNext(build, s, o).pc;
            (pc.Marking? && pc.listed == s.pc.listed) || (pc.Culling? && pc.doomed == TtlDoomed(s.pc.listed))
  {
  }

  lemma ElsewhereStep(build: Builder, s: State, o: Outcome)
    requires CleanInv(s) && !s.pc.Marking? && !s.pc.Culling? && !PastCulling(s.pc) && (s.pc.Clocked? ==> o == Ok)
    ensures CleanInv(CtlNext(build, s, o))
  {
    CtlKeepsLive(build, s, o);
  }

  /** When a wrapper is at rest and not queued, a batch Job that carries the expiry mark is its only batch Job. */
  lemma MarkedMeansSole(build: Builder, s: State, acts: seq<Action>, x: BatchJob, y: BatchJob)
    requires Init(s) && Along(build, s, acts, CullingWorks)
    requires var t := Run(build, s, acts);
             t.pc.Idle? && Active(t.w) && !t.w.queued && x in t.w.jobs && Marked(x) && y in t.w.jobs
    ensures y == x
  {
    CleanHolds(build, s, acts);
    SameUidSameJobIfEqual(Run(build, s, acts).w.jobs, x, y);
  }

  lemma SameUidSameJobIfEqual(jobs: seq<BatchJob>, x: BatchJob, y: BatchJob)
    requires Ordered(jobs) && x in jobs && y in jobs && Marked(x)
    requires MarkedAreDoomed(jobs, {}) || OneSpared(jobs, {})
    ensures x == y
  {
    assert OneSpared(jobs, {});
    SameUidSameJob(jobs, x, y);
  }
}
