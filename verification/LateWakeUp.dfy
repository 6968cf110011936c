/** A run in which the requeue comes later than three seconds after the expiry it is for, by any amount. */
module LateWakeUp {
  import opened Prelude
  import opened Decimal
  import opened Objects
  import opened Construct
  import opened Passes
  import opened PassFacts
  import opened Cluster
  import opened Scenarios
  import opened TtlRuns
  import C = Convergence

  /** A TTL of ten seconds. */
  const TTL: int32 := 10

  function Waiter(h: Hashes): BatchJob {
    Done(Fresh(h, Some(TTL), 0, 0), 0)
  }

  lemma ItWaits(h: Hashes)
    ensures Waiting(Waiter(h)) && ExpireAt(Waiter(h)) == Some(10 * SECOND) && Live(Waiter(h)) && Finished(Waiter(h))
    ensures SpecHash(Waiter(h).manifest) == SpecHash(ManifestOf(h, Some(TTL), 0))
  {
    Built(h, 1, Some(TTL), "", 0);
    DoneIsFinished(Fresh(h, Some(TTL), 0, 0), 0);
    TtlFits(TTL);
  }

  lemma ItAsks(h: Hashes)
    ensures !NeedsMark(Waiter(h), 0) && RequeueDelay([Waiter(h)], 0) == Some(13 * SECOND)
  {
    ItWaits(h);
    DelayIsExact(Waiter(h), 0);
    assert [Waiter(h)][1..] == [];
    assert Delays([Waiter(h)], 0) == [13 * SECOND];
  }

  lemma ItRests(h: Hashes)
    ensures C.AtRest(C.Store([Waiter(h)], 1), 0, ManifestOf(h, Some(TTL), 0), 1) && Ordered([Waiter(h)])
  {
    ItWaits(h);
    ItAsks(h);
    PruneDoomedIsEmptyIff([Waiter(h)], 1);
    assert LatestLive([Waiter(h)]) == Some(Waiter(h));
  }

  /** The reconcile that sees it, up to its closing status write. */
  lemma UpToTheEnd(h: Hashes, s: State) returns (acts: seq<Action>, t: State)
    requires HasOne(h, 1, Some(TTL), Waiter(h), s) && s.w.queued
    ensures t == Run(Constructing(h), s, acts) && forall a :: a in acts ==> a == Ctl(Ok)
    ensures t == State(s.w.(queued := false), Finishing(0, Some(13 * SECOND), false))
  {
    ItRests(h);
    ItAsks(h);
    var s1, s2 := C.CalmStart(Constructing(h), s);
    acts, t := C.RestingRun(Constructing(h), s2.w, ManifestOf(h, Some(TTL), 0), 1, s2);
    acts := C.TwoBefore(Constructing(h), s, Ctl(Ok), acts);
  }

  /** Time passes before the status write is answered. */
  lemma SlowEnd(build: Builder, t: State, d: nat)
    requires t.w.now == 0 && t.w.timer == None && t.pc == Finishing(0, Some(13 * SECOND), false)
    ensures var u := Next(build, Next(build, t, Env(Tick(d))), Ctl(Ok));
            u.pc.Idle? && u.w.jobs == t.w.jobs && u.w.queued == t.w.queued && u.w.wrapper == t.w.wrapper &&
            u.w.timer == Some(d + 13 * SECOND)
  {
  }

  /** Before that the clock has stood still. */
  predicate AtZero(s: State) {
    s.w.now == 0 && (s.pc.Idle? || s.pc.Fetched? || s.pc.Ready? || s.pc.since == 0)
  }

  predicate TakesNoTime(a: Action) {
    a == Ctl(Ok) || (a.Env? && !a.e.Tick?)
  }

  lemma {:induction false} MarkingWorksAtZero(build: Builder, s: State, acts: seq<Action>)
    requires AtZero(s) && forall a :: a in acts ==> TakesNoTime(a)
    ensures AtZero(Run(build, s, acts)) && Along(build, s, acts, MarkingWorks)
  {
    if acts != [] {
      var n := |acts| - 1;
      MarkingWorksAtZero(build, s, acts[..n]);
      assert TakesNoTime(acts[n]);
      StaysAtZero(build, Run(build, s, acts[..n]), acts[n]);
    }
  }

  lemma StaysAtZero(build: Builder, s: State, a: Action)
    requires AtZero(s) && TakesNoTime(a)
    ensures AtZero(Next(build, s, a))
  {
  }

  lemma MarkingWorksAfterwards(build: Builder, v: State, d: nat)
    requires v.pc.Finishing?
    ensures Along(build, v, [Env(Tick(d))] + ([Ctl(Ok)] + []), MarkingWorks)
    ensures Run(build, v, [Env(Tick(d))] + ([Ctl(Ok)] + [])) == Next(build, Next(build, v, Env(Tick(d))), Ctl(Ok))
  {
    var u := Next(build, v, Env(Tick(d)));
    assert u.pc == v.pc;
    AlongOne(build, u, Ctl(Ok), [], MarkingWorks);
    AlongOne(build, v, Env(Tick(d)), [Ctl(Ok)] + [], MarkingWorks);
  }

  /** Every call of the TTL pass succeeds, and the wrapper comes to rest with one batch Job that waits for its TTL.
      Its requeue is pending, `late` nanoseconds after the grace period of three seconds. */
  lemma RequeueComesLate(h: Hashes, late: nat) returns (s: State, acts: seq<Action>)
    ensures Init(s) && Along(Constructing(h), s, acts, MarkingWorks)
    ensures var t := Run(Constructing(h), s, acts);
            t.pc.Idle? && Active(t.w) && !t.w.queued && t.w.jobs == [Waiter(h)] && Waiting(Waiter(h)) &&
            t.w.timer == Some(ExpireAt(Waiter(h)).value + GRACE + late)
  {
    var build, report := Constructing(h), Env(Report(0, Completed(0)));
    s := Start(PROFILES);
    var a, t := FirstReconcile(h, 1, Some(TTL));
    var u := TheOneCompletes(h, 1, Some(TTL), t);
    var b, v := UpToTheEnd(h, u);
    ItWaits(h);
    Onward(build, s, a, report, b);
    MarkingWorksAtZero(build, s, a + [report] + b);
    SlowEnd(build, v, late);
    MarkingWorksAfterwards(build, v, late);
    var c := [Env(Tick(late))] + ([Ctl(Ok)] + []);
    AlongConcat(build, s, a + [report] + b, c, MarkingWorks);
    RunConcat(build, s, a + [report] + b, c);
    acts := a + [report] + b + c;
  }
}
