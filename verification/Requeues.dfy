/** The requeues that the TTL pass asks for, over whole runs: when exactly they come, that they are never in vain, and
    that there are only so many of them. */
module Requeues {
  import opened Prelude
  import opened Objects
  import opened Passes
  import opened PassFacts
  import opened Cluster
  import opened Steps
  import opened Safety
  import opened TtlRuns

  // ---------------------------------------------------------------- when exactly

  /** Its TTL is still running at `since`. */
  predicate StillRuns(x: BatchJob, since: int) {
    Waiting(x) && ExpireAt(x).value > since
  }

  /** The earliest of the expiries that are still to come at `since`. */
  ghost predicate IsLeastExpiry(e: int, listed: seq<BatchJob>, since: int) {
    && (exists x :: x in listed && StillRuns(x, since) && ExpireAt(x).value == e)
    && forall x :: x in listed && StillRuns(x, since) ==> e <= ExpireAt(x).value
  }

  lemma AsksWhileItRuns(x: BatchJob, since: int)
    requires FinishedAt(x).Some? ==> FinishedAt(x).value <= since + AGES
    ensures DelayOf(x, since) == if StillRuns(x, since) then Some(ExpireAt(x).value - since + GRACE) else None
  {
    DelayIsExact(x, since);
  }

  /** Nobody on the list asks for less than `d`. */
  ghost predicate NobodyAsksForLess(listed: seq<BatchJob>, since: int, d: int) {
    forall y :: y in listed && DelayOf(y, since).Some? ==> d <= DelayOf(y, since).value
  }

  lemma ShortestDelayIsAskedFor(listed: seq<BatchJob>, since: int, x: BatchJob, d: int)
    requires x in listed && DelayOf(x, since) == Some(d) && d > 0 && NobodyAsksForLess(listed, since, d)
    ensures RequeueDelay(listed, since) == Some(d)
  {
    forall z | z in Delays(listed, since) ensures d <= z {
      var y :| y in listed && DelayOf(y, since) == Some(z);
    }
    LeastIs(Delays(listed, since), d);
  }

  lemma LeastIs(ds: seq<int>, d: int)
    requires d in ds && forall z :: z in ds ==> d <= z
    ensures ds != [] && Least(ds) == d
  {
  }

  lemma LeastExpiryIsAskedFor(listed: seq<BatchJob>, since: int, e: int, d: int) returns (x: BatchJob)
    requires FinishedInThePast(listed, since + AGES) && IsLeastExpiry(e, listed, since) && d == e - since + GRACE
    ensures x in listed && DelayOf(x, since) == Some(d) && d > 0 && NobodyAsksForLess(listed, since, d)
  {
    x :| x in listed && StillRuns(x, since) && ExpireAt(x).value == e;
    AsksWhileItRuns(x, since);
    forall y | y in listed && DelayOf(y, since).Some? ensures d <= DelayOf(y, since).value {
      AsksWhileItRuns(y, since);
    }
  }

  lemma DelayIsToTheLeastExpiry(listed: seq<BatchJob>, since: int, e: int, d: int)
    requires FinishedInThePast(listed, since + AGES) && IsLeastExpiry(e, listed, since) && d == e - since + GRACE
    ensures RequeueDelay(listed, since) == Some(d)
  {
    var x := LeastExpiryIsAskedFor(listed, since, e, d);
    ShortestDelayIsAskedFor(listed, since, x, d);
  }

  /** After the marking loop and before the closing status write has been answered. */
  function Closing(): Guard {
    (s: State, a: Action) => HoldsDelay(s.pc) && a != Restart && (s.pc.Finishing? ==> a.Env?)
  }

  lemma ClosingStep(build: Builder, s: State, a: Action)
    requires Closing()(s, a)
    ensures var t := Next(build, s, a); HoldsDelay(t.pc) && t.pc.since == s.pc.since && t.pc.delay == s.pc.delay
  {
  }

  lemma {:induction false} ClosingHolds(build: Builder, s: State, acts: seq<Action>)
    requires HoldsDelay(s.pc) && Along(build, s, acts, Closing())
    ensures var t := Run(build, s, acts); HoldsDelay(t.pc) && t.pc.since == s.pc.since && t.pc.delay == s.pc.delay
  {
    if acts != [] {
      var n := |acts| - 1;
      ClosingHolds(build, s, acts[..n]);
      ClosingStep(build, Run(build, s, acts[..n]), acts[n]);
    }
  }

  /** The closing status write at `u` arms the timer for `e`, plus the grace period, plus the time the reconcile ran
      on after reading the clock, unless an earlier requeue is pending. */
  ghost predicate ArmsExactly(build: Builder, u: State, e: int) {
    var t := Next(build, u, Ctl(Ok));
    && t.pc.Idle? && u.pc.Finishing? && t.pc.lag == u.w.now - u.pc.since
    && t.w.timer == Sooner(u.w.timer, Some(e + GRACE + t.pc.lag))
  }

  lemma ClosesExactly(build: Builder, u: State, e: int)
    requires u.pc.Finishing? && !u.pc.failed && u.pc.delay.Some? && u.pc.since + u.pc.delay.value == e + GRACE
    ensures ArmsExactly(build, u, e)
  {
  }

  lemma MarkingLoopIsOver(build: Builder, s: State) returns (t: State)
    requires s.pc.Marking? && s.pc.todo == 0
    ensures t == Next(build, s, Ctl(Ok)) && HoldsDelay(t.pc)
    ensures t.pc.since == s.pc.since && t.pc.delay == RequeueDelay(s.pc.listed, s.pc.since)
  {
    t := Next(build, s, Ctl(Ok));
  }

  /** The state that follows when a reconcile has gone from the end of its marking loop at `s` to its end. */
  ghost predicate Closes(build: Builder, s: State, acts: seq<Action>, u: State) {
    && s.pc.Marking? && s.pc.todo == 0
    && Along(build, Next(build, s, Ctl(Ok)), acts, Closing())
    && u == Run(build, Next(build, s, Ctl(Ok)), acts) && u.pc.Finishing? && !u.pc.failed
  }

  /** A reconcile that ends its marking loop at `s` goes on to `u` and succeeds there. With `e` the earliest expiry to
      come on its list, that is the expiry it arms the timer for. */
  lemma RequeueIsExact(build: Builder, origin: State, earlier: seq<Action>, s: State, acts: seq<Action>, u: State,
                       e: int)
    requires Init(origin) && Along(build, origin, earlier, MarkingWorks) && s == Run(build, origin, earlier)
    requires Closes(build, s, acts, u) && IsLeastExpiry(e, s.pc.listed, s.pc.since)
    ensures ArmsExactly(build, u, e)
  {
    ReachedListIsInTime(build, origin, earlier, s);
    ArmsForTheLeast(build, s, acts, u, e);
  }

  lemma ArmsForTheLeast(build: Builder, s: State, acts: seq<Action>, u: State, e: int)
    requires Closes(build, s, acts, u) && IsLeastExpiry(e, s.pc.listed, s.pc.since)
    requires FinishedInThePast(s.pc.listed, s.pc.since + AGES)
    ensures ArmsExactly(build, u, e)
  {
    AsksFor(build, s, acts, u, e, e - s.pc.since + GRACE);
    ClosesExactly(build, u, e);
  }

  lemma AsksFor(build: Builder, s: State, acts: seq<Action>, u: State, e: int, d: int)
    requires Closes(build, s, acts, u) && IsLeastExpiry(e, s.pc.listed, s.pc.since)
    requires FinishedInThePast(s.pc.listed, s.pc.since + AGES) && d == e - s.pc.since + GRACE
    ensures u.pc.Finishing? && !u.pc.failed && u.pc.delay.Some? && u.pc.since + u.pc.delay.value == e + GRACE
  {
    KeepsItsDelay(build, s, acts, u);
    DelayIsToTheLeastExpiry(s.pc.listed, s.pc.since, e, d);
  }

  lemma KeepsItsDelay(build: Builder, s: State, acts: seq<Action>, u: State)
    requires Closes(build, s, acts, u)
    ensures u.pc.since == s.pc.since && u.pc.delay == RequeueDelay(s.pc.listed, s.pc.since)
  {
    var first := MarkingLoopIsOver(build, s);
    ClosingHolds(build, first, acts);
  }

  lemma ReachedListIsInTime(build: Builder, origin: State, earlier: seq<Action>, s: State)
    requires Init(origin) && Along(build, origin, earlier, MarkingWorks) && s == Run(build, origin, earlier) &&
             s.pc.Marking?
    ensures FinishedInThePast(s.pc.listed, s.pc.since + AGES)
  {
    TimerHolds(build, origin, earlier);
    ListIsInTime(s);
  }

  lemma ListIsInTime(s: State)
    requires TimerInv(s) && s.pc.Marking?
    ensures FinishedInThePast(s.pc.listed, s.pc.since + AGES)
  {
  }

  /** So a batch Job is awaited within the grace period after its expiry exactly when an earlier requeue sees to it,
      or the reconcile ran on for no longer than its expiry lies after `e`. */
  lemma AwaitedWithinGraceIff(build: Builder, origin: State, earlier: seq<Action>, s: State, acts: seq<Action>,
                              u: State,
                              e: int, x: BatchJob)
    requires Init(origin) && Along(build, origin, earlier, MarkingWorks) && s == Run(build, origin, earlier)
    requires Closes(build, s, acts, u) && IsLeastExpiry(e, s.pc.listed, s.pc.since) && Waiting(x)
    ensures AwaitedInGrace(Next(build, u, Ctl(Ok)), x) <==>
            AwaitedInGrace(u, x) || u.w.now - u.pc.since <= ExpireAt(x).value - e
  {
    RequeueIsExact(build, origin, earlier, s, acts, u, e);
  }

  predicate AwaitedInGrace(s: State, x: BatchJob)
    requires Waiting(x)
  {
    s.w.timer.Some? && s.w.timer.value <= ExpireAt(x).value + GRACE
  }

  // ---------------------------------------------------------------- who has asked

  /** An observer of the run: the batch Job on whose account the reconcile under way will ask for a requeue, and the
      one on whose account the pending requeue was asked for. */
  datatype Watch = Watch(pending: Option<nat>, armer: Option<nat>)

  /** The batch Job with the shortest delay. */
  ghost function Asker(jobs: seq<BatchJob>, since: int): (uid: Option<nat>)
    ensures uid.Some? <==> RequeueDelay(jobs, since).Some?
    ensures uid.Some? ==> exists x :: x in jobs && x.uid == uid.value && DelayOf(x, since) == RequeueDelay(jobs, since)
  {
    if RequeueDelay(jobs, since).None? then None
    else
      assert Least(Delays(jobs, since)) in Delays(jobs, since);
      var x :| x in jobs && DelayOf(x, since) == RequeueDelay(jobs, since);
      Some(x.uid)
  }

  predicate Fires(s: State) {
    s.w.timer.Some? && s.w.timer.value <= s.w.now
  }

  /** The closing reconcile replaces the pending requeue. */
  predicate Arms(s: State) {
    s.pc.Finishing? && !s.pc.failed && s.pc.delay.Some? &&
    (s.w.timer.None? || s.w.now + s.pc.delay.value < s.w.timer.value)
  }

  ghost function WatchNext(o: Watch, s: State, a: Action): Watch {
    match a
    case Restart => Watch(None, None)
    case Env(e) => if e.Fire? && Fires(s) then Watch(o.pending, None) else o
    case Ctl(r) =>
      if s.pc.Clocked? then Watch(if r == Ok then Asker(s.w.jobs, s.pc.since) else None, o.armer)
      else if s.pc.Finishing? then Watch(None, if Arms(s) && r == Ok then o.pending else o.armer)
      else o
  }

  ghost function WatchFrom(build: Builder, o: Watch, s: State, acts: seq<Action>): Watch {
    if acts == [] then o
    else
      var n := |acts| - 1;
      WatchNext(WatchFrom(build, o, s, acts[..n]), Run(build, s, acts[..n]), acts[n])
  }

  /** The batch Job `uid` has not expired before `at`, less the grace period, unless it is gone, in
      deletion, or marked. */
  ghost predicate ArmedBy(uid: nat, at: int, jobs: seq<BatchJob>, serial: nat) {
    uid < serial && forall x :: x in jobs && x.uid == uid && Live(x) && !Marked(x) ==>
      ExpireAt(x).Some? && ExpireAt(x).value + GRACE <= at
  }

  ghost predicate PendingInv(s: State, o: Watch) {
    && (s.pc.Marking? && RequeueDelay(s.pc.listed, s.pc.since).Some? ==>
          o.pending.Some? &&
          ArmedBy(o.pending.value, s.pc.since + RequeueDelay(s.pc.listed, s.pc.since).value, s.w.jobs, s.w.serial))
    && (HoldsDelay(s.pc) && s.pc.delay.Some? ==>
          o.pending.Some? && ArmedBy(o.pending.value, s.pc.since + s.pc.delay.value, s.w.jobs, s.w.serial))
    && (!s.pc.Marking? && !HoldsDelay(s.pc) ==> o.pending.None?)
  }

  ghost predicate ArmInv(s: State, o: Watch) {
    && BaseInv(s) && PendingInv(s, o)
    && (s.w.timer.Some? ==> o.armer.Some? && ArmedBy(o.armer.value, s.w.timer.value, s.w.jobs, s.w.serial))
  }

  /** The list of the TTL pass comes within ages of the clock reading. */
  predicate ListsInTime(s: State, a: Action) {
    s.pc.Clocked? ==> s.w.now <= s.pc.since + AGES
  }

  lemma AgeKeepsArmed(uid: nat, at: int, jobs: seq<BatchJob>, jobs': seq<BatchJob>, now: int, serial: nat, serial': nat)
    requires ArmedBy(uid, at, jobs, serial) && Age(jobs, jobs', now) && serial <= serial'
    ensures ArmedBy(uid, at, jobs', serial')
  {
    forall x | x in jobs' && x.uid == uid && Live(x) && !Marked(x)
      ensures ExpireAt(x).Some? && ExpireAt(x).value + GRACE <= at
    {
      var y :| y in jobs && Descends(y, x, now);
    }
  }

  lemma AddKeepsArmed(uid: nat, at: int, jobs: seq<BatchJob>, x: BatchJob, serial: nat)
    requires ArmedBy(uid, at, jobs, serial) && x.uid == serial
    ensures ArmedBy(uid, at, jobs + [x], serial + 1)
  {
  }

  /** Whatever happens to the batch Jobs. */
  lemma StepKeepsArmed(build: Builder, s: State, a: Action, uid: nat, at: int)
    requires ArmedBy(uid, at, s.w.jobs, s.w.serial)
    ensures ArmedBy(uid, at, Next(build, s, a).w.jobs, Next(build, s, a).w.serial)
  {
    if Creates(s, a) {
      AddKeepsArmed(uid, at, s.w.jobs, NewJob(s.w.serial, s.pc.next), s.w.serial);
    } else {
      StepAges(build, s, a);
      AgeKeepsArmed(uid, at, s.w.jobs, Next(build, s, a).w.jobs, Next(build, s, a).w.now, s.w.serial,
                    Next(build, s, a).w.serial);
    }
  }

  lemma AskerArms(jobs: seq<BatchJob>, since: int, serial: nat)
    requires Ordered(jobs) && FinishedInThePast(jobs, since + AGES) && forall x :: x in jobs ==> x.uid < serial
    requires RequeueDelay(jobs, since).Some?
    ensures ArmedBy(Asker(jobs, since).value, since + RequeueDelay(jobs, since).value, jobs, serial)
  {
    var x :| x in jobs && x.uid == Asker(jobs, since).value && DelayOf(x, since) == RequeueDelay(jobs, since);
    DelayIsExact(x, since);
    forall y | y in jobs && y.uid == x.uid ensures y == x {
      SameUidSameJob(jobs, x, y);
    }
  }

  /** How a step changes the timer, and the phase. */
  lemma TimerAfter(build: Builder, s: State, a: Action)
    ensures var t := Next(build, s, a);
            t.w.timer == if a == Restart || (a == Env(Fire) && Fires(s)) then None
                         else if a == Ctl(Ok) && Arms(s) then Some(s.w.now + s.pc.delay.value)
                         else s.w.timer
  {
  }

  lemma PhaseAfter(build: Builder, s: State, a: Action)
    ensures var t := Next(build, s, a);
            && (!a.Ctl? ==> t.pc == if a == Restart then Idle(0) else s.pc)
            && (a.Ctl? && s.pc.Clocked? ==>
                  t.pc.since == s.pc.since && t.w.jobs == s.w.jobs && t.w.serial == s.w.serial &&
                  if a.o == Ok then t.pc.Marking? && t.pc.listed == s.w.jobs else t.pc.Swept? && t.pc.delay == None)
            && (a.Ctl? && s.pc.Marking? ==>
                  t.pc.since == s.pc.since &&
                  if t.pc.Marking? then t.pc.listed == s.pc.listed
                  else t.pc.Culling? && t.pc.delay == RequeueDelay(s.pc.listed, s.pc.since))
            && (a.Ctl? && HoldsDelay(s.pc) ==>
                  if s.pc.Finishing? then t.pc.Idle?
                  else HoldsDelay(t.pc) && t.pc.since == s.pc.since && t.pc.delay == s.pc.delay)
            && (a.Ctl? && (s.pc.Idle? || s.pc.Fetched? || s.pc.Ready?) ==>
                  !t.pc.Marking? && (HoldsDelay(t.pc) ==> t.pc.delay == None))
  {
  }

  lemma PendingStepOutside(build: Builder, s: State, o: Watch, a: Action)
    requires PendingInv(s, o) && !a.Ctl?
    ensures PendingInv(Next(build, s, a), WatchNext(o, s, a))
  {
    PhaseAfter(build, s, a);
    if s.pc.Marking? && RequeueDelay(s.pc.listed, s.pc.since).Some? {
      StepKeepsArmed(build, s, a, o.pending.value, s.pc.since + RequeueDelay(s.pc.listed, s.pc.since).value);
    } else if HoldsDelay(s.pc) && s.pc.delay.Some? {
      StepKeepsArmed(build, s, a, o.pending.value, s.pc.since + s.pc.delay.value);
    }
  }

  lemma PendingStepListing(build: Builder, s: State, o: Watch, a: Action)
    requires BaseInv(s) && s.pc.Clocked? && ListsInTime(s, a) && a.Ctl?
    ensures PendingInv(Next(build, s, a), WatchNext(o, s, a))
  {
    PhaseAfter(build, s, a);
    if RequeueDelay(s.w.jobs, s.pc.since).Some? {
      AskerArms(s.w.jobs, s.pc.since, s.w.serial);
    }
  }

  lemma PendingStepMarking(build: Builder, s: State, o: Watch, a: Action)
    requires PendingInv(s, o) && s.pc.Marking? && a.Ctl?
    ensures PendingInv(Next(build, s, a), WatchNext(o, s, a))
  {
    PhaseAfter(build, s, a);
    if RequeueDelay(s.pc.listed, s.pc.since).Some? {
      StepKeepsArmed(build, s, a, o.pending.value, s.pc.since + RequeueDelay(s.pc.listed, s.pc.since).value);
    }
  }

  lemma PendingStepLater(build: Builder, s: State, o: Watch, a: Action)
    requires PendingInv(s, o) && HoldsDelay(s.pc) && a.Ctl?
    ensures PendingInv(Next(build, s, a), WatchNext(o, s, a))
  {
    PhaseAfter(build, s, a);
    if s.pc.delay.Some? {
      StepKeepsArmed(build, s, a, o.pending.value, s.pc.since + s.pc.delay.value);
    }
  }

  lemma PendingStepEarlier(build: Builder, s: State, o: Watch, a: Action)
    requires PendingInv(s, o) && (s.pc.Idle? || s.pc.Fetched? || s.pc.Ready?) && a.Ctl?
    ensures PendingInv(Next(build, s, a), WatchNext(o, s, a))
  {
    PhaseAfter(build, s, a);
  }

  lemma PendingStep(build: Builder, s: State, o: Watch, a: Action)
    requires BaseInv(s) && PendingInv(s, o) && ListsInTime(s, a)
    ensures PendingInv(Next(build, s, a), WatchNext(o, s, a))
  {
    if !a.Ctl? {
      PendingStepOutside(build, s, o, a);
    } else if s.pc.Clocked? {
      PendingStepListing(build, s, o, a);
    } else if s.pc.Marking? {
      PendingStepMarking(build, s, o, a);
    } else if HoldsDelay(s.pc) {
      PendingStepLater(build, s, o, a);
    } else {
      PendingStepEarlier(build, s, o, a);
    }
  }

  lemma ArmStep(build: Builder, s: State, o: Watch, a: Action)
    requires ArmInv(s, o) && ListsInTime(s, a)
    ensures ArmInv(Next(build, s, a), WatchNext(o, s, a))
  {
    BaseStep(build, s, a);
    PendingStep(build, s, o, a);
    TimerAfter(build, s, a);
    if s.w.timer.Some? {
      StepKeepsArmed(build, s, a, o.armer.value, s.w.timer.value);
    }
    if Arms(s) {
      StepKeepsArmed(build, s, a, o.pending.value, s.pc.since + s.pc.delay.value);
    }
  }

  lemma {:induction false} ArmHolds(build: Builder, s: State, o: Watch, acts: seq<Action>)
    requires ArmInv(s, o) && Along(build, s, acts, ListsInTime)
    ensures ArmInv(Run(build, s, acts), WatchFrom(build, o, s, acts))
  {
    if acts != [] {
      var n := |acts| - 1;
      ArmHolds(build, s, o, acts[..n]);
      ArmStep(build, Run(build, s, acts[..n]), WatchFrom(build, o, s, acts[..n]), acts[n]);
    }
  }

  /** No wake-up is in vain. In every run, whatever fails, whenever the requeue is due, there is a batch Job on whose
      account it was asked for, and unless that one is gone, in deletion or marked by then, its TTL has run out: the
      next pass marks it. */
  lemma WakeUpIsNotInVain(build: Builder, s: State, acts: seq<Action>, x: BatchJob)
    requires Init(s) && Along(build, s, acts, ListsInTime) && Fires(Run(build, s, acts))
    ensures var t, o := Run(build, s, acts), WatchFrom(build, Watch(None, None), s, acts);
            o.armer.Some? && (x in t.w.jobs && x.uid == o.armer.value && Live(x) && !Marked(x) ==>
                              NeedsMark(x, t.w.now))
  {
    ArmHolds(build, s, Watch(None, None), acts);
    DueIsExpired(Run(build, s, acts), WatchFrom(build, Watch(None, None), s, acts), x);
  }

  lemma DueIsExpired(t: State, o: Watch, x: BatchJob)
    requires ArmInv(t, o) && Fires(t)
    ensures o.armer.Some? && (x in t.w.jobs && x.uid == o.armer.value && Live(x) && !Marked(x) ==>
                              NeedsMark(x, t.w.now))
  {
    if x in t.w.jobs && x.uid == o.armer.value && Live(x) && !Marked(x) {
      NeedsMarkIff(x, t.w.now);
    }
  }

  // ---------------------------------------------------------------- how many

  /** The batch Jobs that wait for their TTL, and those among them whose TTL is still running. */
  function WaitingUids(jobs: seq<BatchJob>): set<nat> {
    set x | x in jobs && Waiting(x) :: x.uid
  }

  function RunningUids(jobs: seq<BatchJob>, now: int): set<nat> {
    set x | x in jobs && StillRuns(x, now) :: x.uid
  }

  /** Calls succeed, time passes and requeues come due; nothing else happens. */
  predicate OnlyTimePasses(s: State, a: Action) {
    ListsInTime(s, a) && (a == Ctl(Ok) || (a.Env? && (a.e.Tick? || a.e.Fire?)))
  }

  /** Wake-ups. */
  predicate WakesUp(s: State, a: Action) {
    a == Env(Fire) && Fires(s)
  }

  /** Before the list of the pass, the one that would ask. */
  ghost function PendingOf(s: State, o: Watch): Option<nat> {
    if s.pc.Clocked? then Asker(s.w.jobs, s.pc.since) else o.pending
  }

  /** A requeue on account of a batch Job whose TTL is not running any more. */
  function Stale(uid: Option<nat>, running: set<nat>): nat {
    if uid.Some? && uid.value !in running then 1 else 0
  }

  function ArmerOf(s: State, o: Watch): Option<nat> {
    if s.w.timer.Some? then o.armer else None
  }

  /** Every wake-up uses up a stale requeue, and every batch Job makes at most two requeues stale: the pending one,
      and the one that the reconcile under way is about to ask for. */
  ghost function Measure(s: State, o: Watch): nat {
    var running := RunningUids(s.w.jobs, s.w.now);
    2 * |running| + Stale(ArmerOf(s, o), running) + Stale(PendingOf(s, o), running)
  }

  /** With no reconcile under way when a requeue comes due, they are never two. */
  ghost function MeasureAtRest(s: State, o: Watch): nat {
    var running := RunningUids(s.w.jobs, s.w.now);
    |running| + Max(Stale(ArmerOf(s, o), running), Stale(PendingOf(s, o), running))
  }

  lemma Shrinking(running: set<nat>, running': set<nat>, armer: Option<nat>, pending: Option<nat>)
    requires running' <= running
    ensures 2 * |running'| + Stale(armer, running') + Stale(pending, running') <=
            2 * |running| + Stale(armer, running) + Stale(pending, running)
    ensures |running'| + Max(Stale(armer, running'), Stale(pending, running')) <=
            |running| + Max(Stale(armer, running), Stale(pending, running))
  {
    assert running == running' + (running - running');
    if running' != running {
      var x :| x in running - running';
      assert running - running' == {x} + (running - running' - {x});
    }
  }

  /** Without news of the batch Jobs none starts to wait. */
  lemma CallShrinks(c: Call, jobs: seq<BatchJob>, now: int)
    requires c.Add? ==> !Finished(c.job)
    ensures RunningUids(Perform(c, jobs), now) <= RunningUids(jobs, now)
  {
    forall x | x in Perform(c, jobs) && StillRuns(x, now) ensures x in jobs {
      match c
      case Mark(j) =>
        MarkChangesOnlyTheMark(j);
        var i :| 0 <= i < |Perform(c, jobs)| && Perform(c, jobs)[i] == x;
        assert j in jobs ==> x == if jobs[i] == j then WithMark(j) else jobs[i];
      case _ =>
    }
  }

  /** How much of the measure a step uses up. */
  ghost predicate UsesUp(s: State, o: Watch, a: Action, t: State, o': Watch) {
    var w := if WakesUp(s, a) then 1 else 0;
    && Measure(t, o') + w <= Measure(s, o)
    && ((WakesUp(s, a) ==> s.pc.Idle?) ==> MeasureAtRest(t, o') + w <= MeasureAtRest(s, o))
  }

  lemma DueIsStale(s: State, o: Watch)
    requires ArmInv(s, o) && Fires(s)
    ensures o.armer.Some? && o.armer.value !in RunningUids(s.w.jobs, s.w.now)
  {
  }

  lemma WakeUpUsesUp(build: Builder, s: State, o: Watch)
    requires ArmInv(s, o) && Fires(s)
    ensures UsesUp(s, o, Env(Fire), Next(build, s, Env(Fire)), WatchNext(o, s, Env(Fire)))
  {
    DueIsStale(s, o);
    var t := Next(build, s, Env(Fire));
    assert t.w.jobs == s.w.jobs && t.w.now == s.w.now && t.pc == s.pc && t.w.timer == None;
  }

  lemma AskerRuns(jobs: seq<BatchJob>, now: int)
    requires FinishedInThePast(jobs, now)
    ensures Stale(Asker(jobs, now), RunningUids(jobs, now)) == 0
  {
    if Asker(jobs, now).Some? {
      var x :| x in jobs && x.uid == Asker(jobs, now).value && DelayOf(x, now) == RequeueDelay(jobs, now);
      AsksWhileItRuns(x, now);
    }
  }

  lemma ReadyUsesUp(build: Builder, s: State, o: Watch)
    requires ArmInv(s, o) && s.pc.Ready?
    ensures UsesUp(s, o, Ctl(Ok), Next(build, s, Ctl(Ok)), WatchNext(o, s, Ctl(Ok)))
  {
    AskerRuns(s.w.jobs, s.w.now);
    var t := Next(build, s, Ctl(Ok));
    assert t.w == s.w && t.pc.Clocked? && t.pc.since == s.w.now;
  }

  lemma ListUsesUp(build: Builder, s: State, o: Watch)
    requires s.pc.Clocked?
    ensures UsesUp(s, o, Ctl(Ok), Next(build, s, Ctl(Ok)), WatchNext(o, s, Ctl(Ok)))
  {
    var t := Next(build, s, Ctl(Ok));
    assert t.w == s.w && t.pc.Marking?;
  }

  lemma ClosingUsesUp(build: Builder, s: State, o: Watch)
    requires s.pc.Finishing?
    ensures UsesUp(s, o, Ctl(Ok), Next(build, s, Ctl(Ok)), WatchNext(o, s, Ctl(Ok)))
  {
    TimerAfter(build, s, Ctl(Ok));
    var t := Next(build, s, Ctl(Ok));
    assert t.w.jobs == s.w.jobs && t.w.now == s.w.now && t.pc.Idle?;
  }

  lemma OtherCallsUseUp(build: Builder, s: State, o: Watch)
    requires !s.pc.Ready? && !s.pc.Clocked? && !s.pc.Finishing?
    ensures UsesUp(s, o, Ctl(Ok), Next(build, s, Ctl(Ok)), WatchNext(o, s, Ctl(Ok)))
  {
    var t := Next(build, s, Ctl(Ok));
    TimerAfter(build, s, Ctl(Ok));
    CtlJobs(build, s, Ok);
    NotClockedNext(build, s);
    CallShrinks(CallOf(s, Ok), s.w.jobs, s.w.now);
    Shrinking(RunningUids(s.w.jobs, s.w.now), RunningUids(t.w.jobs, t.w.now), ArmerOf(s, o), o.pending);
  }

  lemma NotClockedNext(build: Builder, s: State)
    requires !s.pc.Ready? && !s.pc.Clocked? && !s.pc.Finishing?
    ensures !Next(build, s, Ctl(Ok)).pc.Clocked?
  {
  }

  lemma TimeUsesUp(build: Builder, s: State, o: Watch, e: EnvAction)
    requires e.Tick? || (e.Fire? && !Fires(s))
    ensures UsesUp(s, o, Env(e), Next(build, s, Env(e)), WatchNext(o, s, Env(e)))
  {
    var t := Next(build, s, Env(e));
    assert t.w.jobs == s.w.jobs && t.pc == s.pc && t.w.timer == s.w.timer && t.w.now >= s.w.now;
    Shrinking(RunningUids(s.w.jobs, s.w.now), RunningUids(t.w.jobs, t.w.now), ArmerOf(s, o), PendingOf(s, o));
  }

  lemma MeasureStep(build: Builder, s: State, o: Watch, a: Action)
    requires ArmInv(s, o) && OnlyTimePasses(s, a)
    ensures UsesUp(s, o, a, Next(build, s, a), WatchNext(o, s, a))
  {
    if WakesUp(s, a) {
      WakeUpUsesUp(build, s, o);
    } else if a.Env? {
      TimeUsesUp(build, s, o, a.e);
    } else if s.pc.Ready? {
      ReadyUsesUp(build, s, o);
    } else if s.pc.Clocked? {
      ListUsesUp(build, s, o);
    } else if s.pc.Finishing? {
      ClosingUsesUp(build, s, o);
    } else {
      OtherCallsUseUp(build, s, o);
    }
  }

  lemma {:induction false} MeasureHolds(build: Builder, s: State, o: Watch, acts: seq<Action>)
    requires ArmInv(s, o) && Along(build, s, acts, OnlyTimePasses)
    ensures var t, o' := Run(build, s, acts), WatchFrom(build, o, s, acts);
            ArmInv(t, o') && Measure(t, o') + Count(WakesUp, build, s, acts) <= Measure(s, o)
  {
    if acts != [] {
      var n := |acts| - 1;
      MeasureHolds(build, s, o, acts[..n]);
      ArmStep(build, Run(build, s, acts[..n]), WatchFrom(build, o, s, acts[..n]), acts[n]);
      MeasureStep(build, Run(build, s, acts[..n]), WatchFrom(build, o, s, acts[..n]), acts[n]);
    }
  }

  /** And every requeue comes due while no reconcile is under way. */
  predicate OnlyTimePassesAtRest(s: State, a: Action) {
    OnlyTimePasses(s, a) && (WakesUp(s, a) ==> s.pc.Idle?)
  }

  lemma {:induction false} MeasureAtRestHolds(build: Builder, s: State, o: Watch, acts: seq<Action>)
    requires ArmInv(s, o) && Along(build, s, acts, OnlyTimePassesAtRest)
    ensures var t, o' := Run(build, s, acts), WatchFrom(build, o, s, acts);
            ArmInv(t, o') && MeasureAtRest(t, o') + Count(WakesUp, build, s, acts) <= MeasureAtRest(s, o)
  {
    if acts != [] {
      var n := |acts| - 1;
      MeasureAtRestHolds(build, s, o, acts[..n]);
      ArmStep(build, Run(build, s, acts[..n]), WatchFrom(build, o, s, acts[..n]), acts[n]);
      MeasureStep(build, Run(build, s, acts[..n]), WatchFrom(build, o, s, acts[..n]), acts[n]);
    }
  }

  lemma RunningWait(jobs: seq<BatchJob>, now: int)
    ensures |RunningUids(jobs, now)| <= |WaitingUids(jobs)|
  {
    var running, waiting := RunningUids(jobs, now), WaitingUids(jobs);
    assert running <= waiting;
    assert waiting == running + (waiting - running);
  }

  /** The chain of requeues ends. From any reachable state on, as long as nothing happens but time and the
      controller's own calls, there are at most two wake-ups for every batch Job that waits for its TTL, and
      two more. */
  lemma WakeUpsAreBounded(build: Builder, origin: State, earlier: seq<Action>, later: seq<Action>)
    requires Init(origin) && Along(build, origin, earlier, ListsInTime)
    requires Along(build, Run(build, origin, earlier), later, OnlyTimePasses)
    ensures var s := Run(build, origin, earlier);
            Count(WakesUp, build, s, later) <= 2 * |WaitingUids(s.w.jobs)| + 2
  {
    var s, o := Run(build, origin, earlier), WatchFrom(build, Watch(None, None), origin, earlier);
    ArmHolds(build, origin, Watch(None, None), earlier);
    MeasureHolds(build, s, o, later);
    RunningWait(s.w.jobs, s.w.now);
  }

  /** One for each and one more, if no requeue comes due while a reconcile is under way. */
  lemma WakeUpsAtRestAreBounded(build: Builder, origin: State, earlier: seq<Action>, later: seq<Action>)
    requires Init(origin) && Along(build, origin, earlier, ListsInTime)
    requires Along(build, Run(build, origin, earlier), later, OnlyTimePassesAtRest)
    ensures var s := Run(build, origin, earlier);
            Count(WakesUp, build, s, later) <= |WaitingUids(s.w.jobs)| + 1
  {
    var s, o := Run(build, origin, earlier), WatchFrom(build, Watch(None, None), origin, earlier);
    ArmHolds(build, origin, Watch(None, None), earlier);
    MeasureAtRestHolds(build, s, o, later);
    RunningWait(s.w.jobs, s.w.now);
  }
}
