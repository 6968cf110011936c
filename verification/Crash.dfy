/** Why AtMostOnce excludes a crash in the middle of the marking loop: a run with one such crash in which the newest
    batch Job is marked before an older one, is deleted by the next TTL pass, and is created again. */
module Crash {
  import opened Prelude
  import opened Decimal
  import opened Objects
  import opened Construct
  import opened Passes
  import opened Cluster
  import opened Steps
  import opened Scenarios
  import opened AtMostOnce
  import opened Rounds
  import C = Convergence
  import History

  // ---------------------------------------------------------------- undisturbed reconciles are orderly

  /** Orderly, and what is built carries the hash. */
  ghost function Calmly(build: Builder, hash: string): Guard {
    (s: State, a: Action) => Orderly(build, s, a) && Builds(build, hash, s, a)
  }

  /** The same, but for a crash. */
  ghost function ButForACrash(build: Builder, hash: string): Guard {
    (s: State, a: Action) => (Orderly(build, s, a) || a == Restart) && Builds(build, hash, s, a)
  }

  ghost predicate NoneOutlasts(jobs: seq<BatchJob>, next: Manifest) {
    forall x :: x in jobs ==> TtlAtMost(x, TtlOf(next))
  }

  lemma MarkingIsUndisturbed(st: C.Store, now: int, next: Manifest, limit: int, s: State)
    requires Ordered(st.jobs) && C.Calm(st, now, next, limit, s) && s.pc.Marking?
    ensures UpdateSucceeds(s, Ok)
  {
    C.CalmMarksIsCalm(st, now, next, limit, s);
    if 0 < s.pc.todo <= |s.pc.listed| {
      C.MarkStepCalm(st.jobs, s.pc.todo, now);
    }
  }

  lemma IsOrderly(build: Builder, next: Manifest, s: State)
    requires UpdateSucceeds(s, Ok) && !HasTtlExpired(next.annotations)
    requires s.pc.Fetched? ==> BuildFor(build, s.pc.job, s.w.profiles) == Some(next)
    requires s.pc.Creating? ==> s.pc.next == next && NoneOutlasts(s.w.jobs, next)
    ensures Calmly(build, SpecHash(next))(s, Ctl(Ok))
  {
  }

  lemma UndisturbedUpdates(build: Builder, w0: World, next: Manifest, k: nat, s: State)
    requires Starts(build, w0, next) && InRound(w0, next, k, s)
    ensures UpdateSucceeds(s, Ok)
  {
    if s.pc.Marking? {
      RoundsAreWellFormed(StoreOf(w0), w0.now, next, w0.wrapper.value.limit, k - 1);
      MarkingIsUndisturbed(After(w0, next, k - 1), w0.now, next, w0.wrapper.value.limit, s);
    }
  }

  lemma RoundHolds(build: Builder, w0: World, next: Manifest, k: nat, s: State)
    requires Starts(build, w0, next) && InRound(w0, next, k, s)
    ensures s.pc.Fetched? ==> BuildFor(build, s.pc.job, s.w.profiles) == Some(next)
    ensures s.pc.Creating? ==> s.pc.next == next
  {
    if !s.pc.Idle? && !s.pc.Fetched? {
      HoldsTheManifest(After(w0, next, k - 1), w0.now, next, w0.wrapper.value.limit, s);
    }
  }

  lemma WorkIsOrderly(build: Builder, w0: World, next: Manifest, k: nat, s: State)
    requires Starts(build, w0, next) && !HasTtlExpired(next.annotations) && InRound(w0, next, k, s)
    requires NoneOutlasts(s.w.jobs, next)
    ensures Calmly(build, SpecHash(next))(s, Ctl(Ok))
  {
    UndisturbedUpdates(build, w0, next, k, s);
    RoundHolds(build, w0, next, k, s);
    IsOrderly(build, next, s);
  }

  lemma HoldsTheManifest(st: C.Store, now: int, next: Manifest, limit: int, s: State)
    requires C.Calm(st, now, next, limit, s)
    ensures HoldsManifest(s.pc) ==> s.pc.next == next
  {
  }

  lemma NoneOutlastsStill(build: Builder, w0: World, next: Manifest, k: nat, s: State, a: Action)
    requires Active(w0) && InRound(w0, next, k, s) && NoneOutlasts(s.w.jobs, next)
    ensures NoneOutlasts(Next(build, s, a).w.jobs, next)
  {
    if Creates(s, a) {
      HoldsTheManifest(After(w0, next, k - 1), w0.now, next, w0.wrapper.value.limit, s);
      assert Next(build, s, a).w.jobs == s.w.jobs + [NewJob(s.w.serial, next)];
    } else {
      StepAges(build, s, a);
    }
  }

  lemma StepIsOrderly(build: Builder, w0: World, next: Manifest, k: nat, s: State, a: Action)
    requires Starts(build, w0, next) && !HasTtlExpired(next.annotations) && InRound(w0, next, k, s)
    requires NoneOutlasts(s.w.jobs, next) && (a == Ctl(Ok) || a == Env(Requeue))
    ensures Calmly(build, SpecHash(next))(s, a) && NoneOutlasts(Next(build, s, a).w.jobs, next)
  {
    NoneOutlastsStill(build, w0, next, k, s, a);
    if a == Ctl(Ok) {
      WorkIsOrderly(build, w0, next, k, s);
    }
  }

  lemma {:induction false} UndisturbedIsOrderly(build: Builder, s: State, next: Manifest, acts: seq<Action>)
    requires Starts(build, s.w, next) && !HasTtlExpired(next.annotations) && s.pc.Idle? && C.Undisturbed(acts)
    requires NoneOutlasts(s.w.jobs, next)
    ensures Along(build, s, acts, Calmly(build, SpecHash(next))) && NoneOutlasts(Run(build, s, acts).w.jobs, next)
  {
    if acts != [] {
      var n := |acts| - 1;
      assert acts[n] in acts && forall a :: a in acts[..n] ==> a in acts;
      var t, k := Run(build, s, acts[..n]), Count(Takes, build, s, acts[..n]);
      UndisturbedIsOrderly(build, s, next, acts[..n]);
      RoundsHold(build, s, next, acts[..n]);
      StepIsOrderly(build, s.w, next, k, t, acts[n]);
    }
  }

  // ---------------------------------------------------------------- the batch Jobs of the run

  /** A TTL of ten seconds. */
  const TTL: int32 := 10

  /** The batch Jobs, from two templates; the first two complete at once. */
  function First(h: Hashes): BatchJob {
    Done(Fresh(h, Some(TTL), 0, 0), 0)
  }

  function Second(h: Hashes): BatchJob {
    Done(Fresh(h, Some(TTL), 1, 1), 0)
  }

  function Third(h: Hashes): BatchJob {
    Fresh(h, Some(TTL), 2, 1)
  }

  function Wanted(h: Hashes): Manifest {
    ManifestOf(h, Some(TTL), 1)
  }

  predicate Spent(x: BatchJob) {
    Finished(x) && FinishedAt(x) == Some(0) && Live(x) && Ttl(x) == Some(TTL)
  }

  lemma TheyExpire(h: Hashes)
    requires (h.spec)(SpecOf(0)) != (h.spec)(SpecOf(1))
    ensures Spent(First(h)) && Spent(Second(h)) && !Marked(First(h)) && !Marked(Second(h))
    ensures SpecHash(First(h).manifest) != SpecHash(Wanted(h)) == SpecHash(Second(h).manifest)
    ensures TtlOf(Wanted(h)) == Some(TTL as int) && !HasTtlExpired(Wanted(h).annotations)
  {
    Built(h, 0, Some(TTL), "", 0);
    Built(h, 0, Some(TTL), "", 1);
    DoneIsFinished(Fresh(h, Some(TTL), 0, 0), 0);
    DoneIsFinished(Fresh(h, Some(TTL), 1, 1), 0);
  }

  lemma NeedsItsMark(x: BatchJob, now: int)
    requires Spent(x) && !Marked(x)
    ensures NeedsMark(x, now) <==> now >= 10 * SECOND
    ensures Marked(WithMark(x)) && Spent(WithMark(x)) && WithMark(x).uid == x.uid
    ensures SpecHash(WithMark(x).manifest) == SpecHash(x.manifest)
  {
    NeedsMarkIff(x, now);
    MarkChangesOnlyTheMark(x);
  }

  /** The second template makes a second batch Job. */
  lemma AddsSecond(h: Hashes)
    requires (h.spec)(SpecOf(0)) != (h.spec)(SpecOf(1))
    ensures C.Reconciled(C.Store([First(h)], 1), 0, Wanted(h), 3) ==
            C.Store([First(h)] + [Fresh(h, Some(TTL), 1, 1)], 2)
  {
    TheyExpire(h);
    NeedsItsMark(First(h), 0);
    assert LatestLive([First(h)]) == Some(First(h));
    OneIsAdded([First(h)], 1, 0, Wanted(h), 3);
  }

  /** A pass that finds only the newest one marked. */
  lemma NewestIsDoomed(h: Hashes)
    requires (h.spec)(SpecOf(0)) != (h.spec)(SpecOf(1))
    ensures C.AfterTtlPass([First(h), WithMark(Second(h))], 10 * SECOND) == [WithMark(First(h))]
  {
    TheyExpire(h);
    var now, x, y := 10 * SECOND, First(h), WithMark(Second(h));
    NeedsItsMark(x, now);
    NeedsItsMark(Second(h), now);
    assert MarkAll([x, y], now) == [WithMark(x), y];
    assert [x, y][1..] == [y] && [y][1..] == [];
    assert Filter(Marked, [y]) == [y];
    assert TtlDoomed([x, y]) == [y];
    assert Uids([y]) == {y.uid};
    assert [WithMark(x), y][1..] == [y];
    assert Filter(Spares({y.uid}), [y]) == [];
  }

  lemma AddsThird(h: Hashes)
    requires (h.spec)(SpecOf(0)) != (h.spec)(SpecOf(1))
    ensures C.Reconciled(C.Store([First(h), WithMark(Second(h))], 2), 10 * SECOND, Wanted(h), 3) ==
            C.Store([WithMark(First(h)), Third(h)], 3)
  {
    TheyExpire(h);
    NewestIsDoomed(h);
    var x := WithMark(First(h));
    NeedsItsMark(First(h), 0);
    PruneLeaves([x], 3);
    assert LatestLive([x]) == Some(x);
    assert [x] + [Third(h)] == [x, Third(h)];
  }

  // ---------------------------------------------------------------- the run

  const EDITED: map<string, PodProfile> := map["" := Template(1)]

  predicate Scene(now: int, jobs: seq<BatchJob>, serial: nat, s: State) {
    && s.pc.Idle? && s.w.now == now && s.w.jobs == jobs && s.w.serial == serial
    && s.w.wrapper == Some(Wrapper(3, Some(TTL), "")) && s.w.profiles == EDITED
  }

  lemma SceneStarts(h: Hashes, now: int, jobs: seq<BatchJob>, serial: nat, s: State)
    requires Scene(now, jobs, serial, s)
    ensures C.StartsFrom(Constructing(h), s, C.Store(jobs, serial), now, Wanted(h), 3)
    ensures C.WellFormed(C.Store(jobs, serial)) ==> Starts(Constructing(h), s.w, Wanted(h))
  {
    Built(h, 3, Some(TTL), "", 1);
  }

  /** The stores that a reconcile finds. */
  lemma StoresAreGood(h: Hashes)
    requires (h.spec)(SpecOf(0)) != (h.spec)(SpecOf(1))
    ensures C.WellFormed(C.Store([First(h)], 1)) && AllTimed([First(h)])
    ensures C.WellFormed(C.Store([First(h), Second(h)], 2)) && AllTimed([First(h), Second(h)])
    ensures C.WellFormed(C.Store([First(h), WithMark(Second(h))], 2)) && AllTimed([First(h), WithMark(Second(h))])
  {
    TheyExpire(h);
    NeedsItsMark(Second(h), 0);
  }

  ghost predicate AllTimed(jobs: seq<BatchJob>) {
    forall x :: x in jobs ==> Ttl(x) == Some(TTL)
  }

  lemma Undisturbed(h: Hashes, now: int, jobs: seq<BatchJob>, serial: nat, s: State, acts: seq<Action>)
    requires (h.spec)(SpecOf(0)) != (h.spec)(SpecOf(1))
    requires Scene(now, jobs, serial, s) && C.WellFormed(C.Store(jobs, serial)) && AllTimed(jobs)
    requires forall a :: a in acts ==> a == Ctl(Ok)
    ensures Along(Constructing(h), s, acts, Calmly(Constructing(h), SpecHash(Wanted(h))))
  {
    TheyExpire(h);
    SceneStarts(h, now, jobs, serial, s);
    UndisturbedIsOrderly(Constructing(h), s, Wanted(h), acts);
  }

  /** A whole reconcile. */
  lemma Reconciles(h: Hashes, now: int, jobs: seq<BatchJob>, serial: nat, s: State)
    returns (acts: seq<Action>, t: State)
    requires (h.spec)(SpecOf(0)) != (h.spec)(SpecOf(1))
    requires Scene(now, jobs, serial, s) && s.w.queued && C.WellFormed(C.Store(jobs, serial)) && AllTimed(jobs)
    ensures t == Run(Constructing(h), s, acts) &&
            Along(Constructing(h), s, acts, Calmly(Constructing(h), SpecHash(Wanted(h))))
    ensures var st := C.Reconciled(C.Store(jobs, serial), now, Wanted(h), 3); Scene(now, st.jobs, st.serial, t)
  {
    SceneStarts(h, now, jobs, serial, s);
    acts, t := C.CalmReconcile(Constructing(h), s, C.Store(jobs, serial), now, Wanted(h), 3);
    Undisturbed(h, now, jobs, serial, s, acts);
  }

  lemma FiveCalls(build: Builder, s: State, a: Action) returns (acts: seq<Action>)
    ensures forall x :: x in acts ==> x == a
    ensures Run(build, s, acts) ==
            Next(build, Next(build, Next(build, Next(build, Next(build, s, a), a), a), a), a)
  {
    var two, three, four := [a] + [a], [a] + [a] + [a], [a] + [a] + [a] + [a];
    RunOne(build, s, a);
    RunStep(build, s, [a], a);
    RunStep(build, s, two, a);
    RunStep(build, s, three, a);
    RunStep(build, s, four, a);
    acts := four + [a];
  }

  /** From the queue to the marking loop. */
  lemma ToTheMarks(h: Hashes, s: State) returns (t: State)
    requires Scene(10 * SECOND, [First(h), Second(h)], 2, s) && s.w.queued
    ensures t == Next(Constructing(h), Next(Constructing(h),
                                            Next(Constructing(h), Next(Constructing(h), s, Ctl(Ok)), Ctl(Ok)),
                                            Ctl(Ok)), Ctl(Ok))
    ensures t == State(s.w.(queued := false),
                       Marking(s.w.wrapper.value, Wanted(h), 10 * SECOND, [First(h), Second(h)], 2))
  {
    SceneStarts(h, 10 * SECOND, [First(h), Second(h)], 2, s);
    var s1, s2 := C.CalmStart(Constructing(h), s);
    var s3 := State(s2.w, Clocked(s.w.wrapper.value, Wanted(h), 10 * SECOND));
    assert s3 == Next(Constructing(h), s2, Ctl(Ok));
    t := Next(Constructing(h), s3, Ctl(Ok));
  }

  /** The first round, and the crash. */
  lemma OneMark(h: Hashes, s: State)
    requires (h.spec)(SpecOf(0)) != (h.spec)(SpecOf(1))
    requires s.pc.Marking? && s.pc.listed == [First(h), Second(h)] && s.pc.todo == 2 && s.pc.since == 10 * SECOND
    requires Scene(10 * SECOND, [First(h), Second(h)], 2, State(s.w, Idle(0)))
    ensures var t := Next(Constructing(h), s, Ctl(Ok));
            t.pc.Marking? && Scene(10 * SECOND, [First(h), WithMark(Second(h))], 2,
                                   Next(Constructing(h), t, Restart)) &&
            Next(Constructing(h), t, Restart).w.queued
  {
    var jobs := [First(h), Second(h)];
    TheyExpire(h);
    NeedsItsMark(Second(h), 10 * SECOND);
    C.MarksOne(Constructing(h), s);
    Keeps(Constructing(h), s);
    assert Replace(jobs, Second(h), WithMark(Second(h))) == [First(h), WithMark(Second(h))];
  }

  lemma Keeps(build: Builder, s: State)
    requires s.pc.Marking? && 0 < s.pc.todo <= |s.pc.listed|
    ensures var t := Next(build, s, Ctl(Ok));
            t.w.wrapper == s.w.wrapper && t.w.profiles == s.w.profiles && t.pc.Marking?
  {
  }

  /** Up to the first round of the marking loop. */
  lemma MarksTheNewest(h: Hashes, s: State) returns (acts: seq<Action>, t: State)
    requires (h.spec)(SpecOf(0)) != (h.spec)(SpecOf(1))
    requires Scene(10 * SECOND, [First(h), Second(h)], 2, s) && s.w.queued
    ensures t == Run(Constructing(h), s, acts) &&
            Along(Constructing(h), s, acts, Calmly(Constructing(h), SpecHash(Wanted(h))))
    ensures t.pc.Marking? && Scene(10 * SECOND, [First(h), WithMark(Second(h))], 2, Next(Constructing(h), t, Restart))
    ensures Next(Constructing(h), t, Restart).w.queued
  {
    var build := Constructing(h);
    var u := ToTheMarks(h, s);
    OneMark(h, u);
    StoresAreGood(h);
    t := Next(build, u, Ctl(Ok));
    acts := FiveCalls(build, s, Ctl(Ok));
    Undisturbed(h, 10 * SECOND, [First(h), Second(h)], 2, s, acts);
  }

  /** The second batch Job completes, and the TTLs run out. */
  lemma SecondCompletes(h: Hashes, s: State) returns (acts: seq<Action>, t: State)
    requires Scene(0, [First(h)] + [Fresh(h, Some(TTL), 1, 1)], 2, s)
    ensures t == Run(Constructing(h), s, acts) &&
            Along(Constructing(h), s, acts, Calmly(Constructing(h), SpecHash(Wanted(h))))
    ensures Scene(10 * SECOND, [First(h), Second(h)], 2, t) && t.w.queued
  {
    var build, hash := Constructing(h), SpecHash(Wanted(h));
    var report, tick := Env(Report(1, Completed(0))), Env(Tick(10 * SECOND));
    NewestCompletes(s.w, [First(h)], Fresh(h, Some(TTL), 1, 1));
    assert [First(h)] + [Second(h)] == [First(h), Second(h)];
    var u := State(s.w.(jobs := [First(h), Second(h)], queued := true), s.pc);
    assert u == Next(build, s, report);
    t := Next(build, u, tick);
    AlongOne(build, u, tick, [], Calmly(build, hash));
    acts := [report] + ([tick] + []);
    AlongOne(build, s, report, [tick] + [], Calmly(build, hash));
  }

  /** Before the edit. */
  lemma UpToTheEdit(h: Hashes) returns (acts: seq<Action>, t: State)
    requires (h.spec)(SpecOf(0)) != (h.spec)(SpecOf(1))
    ensures t == Run(Constructing(h), Start(PROFILES), acts)
    ensures Along(Constructing(h), Start(PROFILES), acts, (u, a) => Orderly(Constructing(h), u, a))
    ensures HasOne(h, 3, Some(TTL), First(h), t)
  {
    var build := Constructing(h);
    var set0 := Env(SetWrapper(Some(Wrapper(3, Some(TTL), ""))));
    var u := Next(build, Start(PROFILES), set0);
    Built(h, 3, Some(TTL), "", 0);
    assert C.Reconciled(C.Store([], 0), 0, ManifestOf(h, Some(TTL), 0), 3) == C.Store([Fresh(h, Some(TTL), 0, 0)], 1);
    var rest, v := C.CalmReconcile(build, u, C.Store([], 0), 0, ManifestOf(h, Some(TTL), 0), 3);
    UndisturbedIsOrderly(build, u, ManifestOf(h, Some(TTL), 0), rest);
    t := TheOneCompletes(h, 3, Some(TTL), v);
    acts := Bracket(h, set0, rest, Env(Report(0, Completed(0))));
  }

  /** An event, a reconcile, and another event. */
  lemma Bracket(h: Hashes, a: Action, rest: seq<Action>, b: Action) returns (acts: seq<Action>)
    requires var build := Constructing(h);
             && (forall s: State :: s.pc.Idle? ==> Orderly(build, s, a) && Orderly(build, s, b))
             && Along(build, Next(build, Start(PROFILES), a), rest,
                      Calmly(build, SpecHash(ManifestOf(h, Some(TTL), 0))))
             && Run(build, Next(build, Start(PROFILES), a), rest).pc.Idle?
    ensures Along(Constructing(h), Start(PROFILES), acts, (u, x) => Orderly(Constructing(h), u, x))
    ensures Run(Constructing(h), Start(PROFILES), acts) ==
            Next(Constructing(h), Run(Constructing(h), Next(Constructing(h), Start(PROFILES), a), rest), b)
  {
    var build := Constructing(h);
    var ok: Guard := (u, x) => Orderly(build, u, x);
    var u := Next(build, Start(PROFILES), a);
    AlongImplies(build, u, rest, Calmly(build, SpecHash(ManifestOf(h, Some(TTL), 0))), ok);
    AlongOne(build, Run(build, u, rest), b, [], ok);
    AlongConcat(build, u, rest, [b] + [], ok);
    RunConcat(build, u, rest, [b] + []);
    acts := [a] + (rest + ([b] + []));
    AlongOne(build, Start(PROFILES), a, rest + ([b] + []), ok);
  }

  function Edit(): Action {
    Env(SetProfile("", Some(Template(1)), true))
  }

  lemma IsEdited(h: Hashes, s: State)
    requires HasOne(h, 3, Some(TTL), First(h), s)
    ensures Scene(0, [First(h)], 1, Next(Constructing(h), s, Edit())) && Next(Constructing(h), s, Edit()).w.queued
    ensures Calmly(Constructing(h), SpecHash(Wanted(h)))(s, Edit())
  {
    assert PROFILES["" := Template(1)] == EDITED;
  }

  /** The first reconcile after it. */
  lemma MakesTheSecond(h: Hashes, s: State) returns (acts: seq<Action>, t: State)
    requires (h.spec)(SpecOf(0)) != (h.spec)(SpecOf(1)) && Scene(0, [First(h)], 1, s) && s.w.queued
    ensures t == Run(Constructing(h), s, acts) &&
            Along(Constructing(h), s, acts, Calmly(Constructing(h), SpecHash(Wanted(h))))
    ensures Scene(0, [First(h)] + [Fresh(h, Some(TTL), 1, 1)], 2, t)
  {
    StoresAreGood(h);
    AddsSecond(h);
    acts, t := Reconciles(h, 0, [First(h)], 1, s);
  }

  /** From the edit on every manifest that is built is the second one. */
  lemma UpToTheSecond(h: Hashes, s: State) returns (acts: seq<Action>, t: State)
    requires (h.spec)(SpecOf(0)) != (h.spec)(SpecOf(1)) && HasOne(h, 3, Some(TTL), First(h), s)
    ensures t == Run(Constructing(h), s, acts) &&
            Along(Constructing(h), s, acts, Calmly(Constructing(h), SpecHash(Wanted(h))))
    ensures Scene(0, [First(h)] + [Fresh(h, Some(TTL), 1, 1)], 2, t)
  {
    IsEdited(h, s);
    var rest;
    rest, t := MakesTheSecond(h, Next(Constructing(h), s, Edit()));
    AlongOne(Constructing(h), s, Edit(), rest, Calmly(Constructing(h), SpecHash(Wanted(h))));
    acts := [Edit()] + rest;
  }

  lemma RestartsAndGoesOn(build: Builder, hash: string, s: State, rest: seq<Action>) returns (acts: seq<Action>)
    requires !s.pc.Fetched? && Along(build, Next(build, s, Restart), rest, Calmly(build, hash))
    ensures Along(build, s, acts, ButForACrash(build, hash))
    ensures Run(build, s, acts) == Run(build, Next(build, s, Restart), rest)
  {
    AlongImplies(build, Next(build, s, Restart), rest, Calmly(build, hash), ButForACrash(build, hash));
    AlongOne(build, s, Restart, rest, ButForACrash(build, hash));
    acts := [Restart] + rest;
  }

  lemma GoesOn(build: Builder, hash: string, s: State, acts: seq<Action>, rest: seq<Action>)
    requires Along(build, s, acts, Calmly(build, hash)) &&
             Along(build, Run(build, s, acts), rest, ButForACrash(build, hash))
    ensures Along(build, s, acts + rest, ButForACrash(build, hash))
    ensures Run(build, s, acts + rest) == Run(build, Run(build, s, acts), rest)
  {
    AlongImplies(build, s, acts, Calmly(build, hash), ButForACrash(build, hash));
    AlongConcat(build, s, acts, rest, ButForACrash(build, hash));
    RunConcat(build, s, acts, rest);
  }

  /** The reconcile after the crash. */
  lemma Recovers(h: Hashes, s: State) returns (acts: seq<Action>, t: State)
    requires (h.spec)(SpecOf(0)) != (h.spec)(SpecOf(1))
    requires Scene(10 * SECOND, [First(h), WithMark(Second(h))], 2, s) && s.w.queued
    ensures t == Run(Constructing(h), s, acts) &&
            Along(Constructing(h), s, acts, Calmly(Constructing(h), SpecHash(Wanted(h))))
    ensures t.w.jobs == [WithMark(First(h)), Third(h)]
  {
    StoresAreGood(h);
    AddsThird(h);
    acts, t := Reconciles(h, 10 * SECOND, [First(h), WithMark(Second(h))], 2, s);
  }

  lemma CrashesAndRecovers(h: Hashes, s: State) returns (acts: seq<Action>, t: State)
    requires (h.spec)(SpecOf(0)) != (h.spec)(SpecOf(1))
    requires Scene(10 * SECOND, [First(h), Second(h)], 2, s) && s.w.queued
    ensures t == Run(Constructing(h), s, acts)
    ensures Along(Constructing(h), s, acts, ButForACrash(Constructing(h), SpecHash(Wanted(h))))
    ensures t.w.jobs == [WithMark(First(h)), Third(h)]
  {
    var build, hash := Constructing(h), SpecHash(Wanted(h));
    var a, u := MarksTheNewest(h, s);
    var b;
    b, t := Recovers(h, Next(build, u, Restart));
    b := RestartsAndGoesOn(build, hash, u, b);
    GoesOn(build, hash, s, a, b);
    acts := a + b;
  }

  /** The batch Jobs built from the second template, counted where they are new. */
  lemma EachIsCounted(h: Hashes)
    requires (h.spec)(SpecOf(0)) != (h.spec)(SpecOf(1))
    ensures |UidsWith([First(h)] + [Fresh(h, Some(TTL), 1, 1)], SpecHash(Wanted(h)), 1)| >= 1
    ensures |UidsWith([WithMark(First(h)), Third(h)], SpecHash(Wanted(h)), 2)| >= 1
  {
    var x, y := Fresh(h, Some(TTL), 1, 1), Third(h);
    var a, b := [First(h)] + [x], [WithMark(First(h)), y];
    assert a[1] == x && b[1] == y;
    History.SubsetIsSmaller({1}, UidsWith(a, SpecHash(Wanted(h)), 1));
    History.SubsetIsSmaller({2}, UidsWith(b, SpecHash(Wanted(h)), 2));
  }

  /** For all hash functions that tell the two specs apart: up to an edit of the profile the run is orderly, and after
      it every manifest that is built has the new spec's hash, and all steps but one crash are orderly; and yet two
      batch Jobs with that hash are created. */
  lemma CreatedAgainAfterACrash(h: Hashes) returns (s: State, earlier: seq<Action>, later: seq<Action>)
    requires (h.spec)(SpecOf(0)) != (h.spec)(SpecOf(1))
    ensures Init(s) && Along(Constructing(h), s, earlier, (t, a) => Orderly(Constructing(h), t, a))
    ensures var from := Run(Constructing(h), s, earlier);
            && Along(Constructing(h), from, later, ButForACrash(Constructing(h), SpecHash(Wanted(h))))
            && Creations(Run(Constructing(h), from, later).w.log, SpecHash(Wanted(h))) >=
               Creations(from.w.log, SpecHash(Wanted(h))) + 2
  {
    var build, hash := Constructing(h), SpecHash(Wanted(h));
    s := Start(PROFILES);
    var from, t, u, v, a, b, c;
    earlier, from := UpToTheEdit(h);
    a, t := UpToTheSecond(h, from);
    b, u := SecondCompletes(h, t);
    c, v := CrashesAndRecovers(h, u);
    AlongConcat(build, from, a, b, Calmly(build, hash));
    RunConcat(build, from, a, b);
    GoesOn(build, hash, from, a + b, c);
    later := a + b + c;
    EachIsCounted(h);
    JobsAreLogged(build, from, a, hash, 1);
    RunConcat(build, t, b, c);
    JobsAreLogged(build, t, b + c, hash, 2);
  }
}
