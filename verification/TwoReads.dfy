/** Why AtMostOnce speaks of the manifests that are built: a run in which the desired spec has one and the same hash
    throughout, and yet two batch Jobs with that hash are created. A reconcile reads the wrapper, then the wrapper is
    moved to another profile with the same template, then the old profile is edited, and then the reconcile reads the
    old profile. */
module TwoReads {
  import opened Prelude
  import opened Objects
  import opened Construct
  import opened Passes
  import opened PassFacts
  import opened Cluster
  import opened Steps
  import opened Scenarios
  import opened AtMostOnce
  import C = Convergence
  import History

  const BEFORE: map<string, PodProfile> := map["old" := Template(0), "new" := Template(0)]
  const AFTER: map<string, PodProfile> := map["old" := Template(1), "new" := Template(0)]

  function OnOld(): Job {
    Wrapper(3, None, "old")
  }

  function OnNew(): Job {
    Wrapper(3, None, "new")
  }

  /** The hash that is desired all the time. */
  function Wanted(h: Hashes): string {
    (h.spec)(SpecOf(0))
  }

  ghost function StaysDesired(h: Hashes): Guard {
    (s: State, a: Action) =>
      Orderly(Constructing(h), s, a) &&
      (Desired(Constructing(h), s.w).Some? ==> SpecHash(Desired(Constructing(h), s.w).value) == Wanted(h))
  }

  // ---------------------------------------------------------------- nothing has a TTL

  predicate Plain(j: Job) {
    j == OnOld() || j == OnNew()
  }

  predicate PlainManifest(m: Manifest) {
    TtlFromAnnotations(m.annotations) == None && !HasTtlExpired(m.annotations)
  }

  ghost predicate PlainInv(s: State) {
    && (forall x :: x in s.w.jobs ==> Ttl(x) == None)
    && (s.w.wrapper.Some? ==> Plain(s.w.wrapper.value))
    && PlainPhase(s.pc)
  }

  ghost predicate PlainPhase(pc: Phase) {
    && (pc.Fetched? ==> Plain(pc.job))
    && (pc.Marking? ==> forall x :: x in pc.listed ==> Ttl(x) == None)
    && (HoldsManifest(pc) ==> PlainManifest(pc.next))
    && !pc.Bumping?
  }

  /** The wrapper and the profiles as the scenario has them. */
  predicate Inputs(w: World) {
    || ((w.wrapper == None || w.wrapper == Some(OnOld())) && w.profiles == BEFORE)
    || (w.wrapper == Some(OnNew()) && (w.profiles == BEFORE || w.profiles == AFTER))
  }

  lemma BuiltIsPlain(h: Hashes, j: Job, w: World)
    requires Plain(j) && Inputs(w)
    ensures BuildFor(Constructing(h), j, w.profiles).Some? ==>
              PlainManifest(BuildFor(Constructing(h), j, w.profiles).value)
  {
    Built(h, 3, None, "old", 0);
    Built(h, 3, None, "old", 1);
    Built(h, 3, None, "new", 0);
  }

  lemma DesiredIsWanted(h: Hashes, w: World)
    requires Inputs(w)
    ensures Desired(Constructing(h), w).Some? ==> SpecHash(Desired(Constructing(h), w).value) == Wanted(h)
    ensures w.wrapper.Some? ==> Desired(Constructing(h), w) == Some(ManifestOf(h, None, 0))
  {
    Built(h, 3, None, "old", 0);
    Built(h, 3, None, "new", 0);
  }

  /** Calls that succeed, and news of completions. */
  predicate Smooth(a: Action) {
    a == Ctl(Ok) || a == Env(Requeue) || (a.Env? && a.e.Report? && a.e.condition.at.Some?)
  }

  lemma SmoothCtlStep(h: Hashes, s: State)
    requires PlainInv(s) && Inputs(s.w)
    ensures var t := CtlNext(Constructing(h), s, Ok);
            (s.pc.Fetched? ==> t.w == s.w) && t.w.wrapper == s.w.wrapper && t.w.profiles == s.w.profiles &&
            PlainPhase(t.pc)
  {
    if s.pc.Fetched? {
      BuiltIsPlain(h, s.pc.job, s.w);
    }
  }

  lemma JobsStayPlain(build: Builder, s: State, a: Action)
    requires (forall x :: x in s.w.jobs ==> Ttl(x) == None) && (HoldsManifest(s.pc) ==> PlainManifest(s.pc.next))
    ensures forall x :: x in Next(build, s, a).w.jobs ==> Ttl(x) == None
  {
    if Creates(s, a) {
      assert Next(build, s, a).w.jobs == s.w.jobs + [NewJob(s.w.serial, s.pc.next)];
    } else {
      StepAges(build, s, a);
    }
  }

  lemma SmoothIsOrderly(h: Hashes, s: State, a: Action)
    requires PlainInv(s) && Inputs(s.w) && Smooth(a)
    ensures StaysDesired(h)(s, a)
  {
    DesiredIsWanted(h, s.w);
    if s.pc.Fetched? {
      BuiltIsPlain(h, s.pc.job, s.w);
    }
    if s.pc.Marking? && 0 < s.pc.todo <= |s.pc.listed| {
      assert Ttl(s.pc.listed[s.pc.todo - 1]) == None;
    }
  }

  lemma SmoothStep(h: Hashes, s: State, a: Action)
    requires PlainInv(s) && Inputs(s.w) && Smooth(a)
    ensures var t := Next(Constructing(h), s, a);
            PlainInv(t) && t.w.wrapper == s.w.wrapper && t.w.profiles == s.w.profiles
  {
    JobsStayPlain(Constructing(h), s, a);
    if a == Ctl(Ok) {
      SmoothCtlStep(h, s);
    }
  }

  lemma {:induction false} SmoothRun(h: Hashes, s: State, acts: seq<Action>)
    requires PlainInv(s) && Inputs(s.w) && forall a :: a in acts ==> Smooth(a)
    ensures Along(Constructing(h), s, acts, StaysDesired(h))
    ensures var t := Run(Constructing(h), s, acts);
            PlainInv(t) && t.w.wrapper == s.w.wrapper && t.w.profiles == s.w.profiles
  {
    if acts != [] {
      var n := |acts| - 1;
      SmoothRun(h, s, acts[..n]);
      assert Smooth(acts[n]);
      SmoothIsOrderly(h, Run(Constructing(h), s, acts[..n]), acts[n]);
      SmoothStep(h, Run(Constructing(h), s, acts[..n]), acts[n]);
    }
  }

  /** An edit, and a smooth run after it. */
  lemma EditAndRun(h: Hashes, s: State, e: EnvAction, acts: seq<Action>)
    requires PlainInv(s) && Inputs(s.w) && Inputs(EnvNext(s.w, e)) &&
             (e.SetProfile? || (e.SetWrapper? && e.wrapper.Some?))
    requires forall a :: a in acts ==> Smooth(a)
    ensures Along(Constructing(h), s, [Env(e)] + acts, StaysDesired(h))
    ensures Run(Constructing(h), s, [Env(e)] + acts) == Run(Constructing(h), Next(Constructing(h), s, Env(e)), acts)
    ensures var t := Run(Constructing(h), s, [Env(e)] + acts);
            PlainInv(t) && t.w.wrapper == EnvNext(s.w, e).wrapper && t.w.profiles == EnvNext(s.w, e).profiles
  {
    DesiredIsWanted(h, s.w);
    SmoothRun(h, Next(Constructing(h), s, Env(e)), acts);
    AlongOne(Constructing(h), s, Env(e), acts, StaysDesired(h));
  }

  // ---------------------------------------------------------------- the run

  /** The batch Jobs of the run: the first, the one built from the edited old profile, and the third. */
  function First(h: Hashes): BatchJob {
    Done(Fresh(h, None, 0, 0), 0)
  }

  function Second(h: Hashes): BatchJob {
    Done(Fresh(h, None, 1, 1), 0)
  }

  predicate IsPast(x: BatchJob) {
    !Marked(x) && ExpireAt(x) == None && Live(x) && Finished(x)
  }

  lemma TheyArePlain(h: Hashes)
    requires (h.spec)(SpecOf(0)) != (h.spec)(SpecOf(1))
    ensures IsPast(First(h)) && IsPast(Second(h))
    ensures SpecHash(First(h).manifest) == SpecHash(ManifestOf(h, None, 0)) == Wanted(h)
    ensures SpecHash(Second(h).manifest) == SpecHash(ManifestOf(h, None, 1)) != Wanted(h)
  {
    Built(h, 0, None, "", 0);
    Built(h, 0, None, "", 1);
    DoneIsFinished(Fresh(h, None, 0, 0), 0);
    DoneIsFinished(Fresh(h, None, 1, 1), 0);
  }

  lemma AddsFirst(h: Hashes)
    ensures C.Reconciled(C.Store([], 0), 0, ManifestOf(h, None, 0), 3) == C.Store([] + [Fresh(h, None, 0, 0)], 1)
  {
    OneIsAdded([], 0, 0, ManifestOf(h, None, 0), 3);
  }

  lemma AddsSecond(h: Hashes)
    requires (h.spec)(SpecOf(0)) != (h.spec)(SpecOf(1))
    ensures C.Reconciled(C.Store([First(h)], 1), 0, ManifestOf(h, None, 1), 3) ==
            C.Store([First(h)] + [Fresh(h, None, 1, 1)], 2)
  {
    TheyArePlain(h);
    assert LatestLive([First(h)]) == Some(First(h));
    OneIsAdded([First(h)], 1, 0, ManifestOf(h, None, 1), 3);
  }

  lemma AddsThird(h: Hashes)
    requires (h.spec)(SpecOf(0)) != (h.spec)(SpecOf(1))
    ensures C.Reconciled(C.Store([First(h)] + [Second(h)], 2), 0, ManifestOf(h, None, 0), 3) ==
            C.Store([First(h)] + [Second(h)] + [Fresh(h, None, 2, 0)], 3)
  {
    TheyArePlain(h);
    AddsToPast([First(h)], Second(h), 2, ManifestOf(h, None, 0));
  }

  lemma InOrder(h: Hashes)
    ensures Ordered([First(h)] + [Second(h)])
  {
  }

  lemma AddsToPast(older: seq<BatchJob>, x: BatchJob, serial: nat, next: Manifest)
    requires |older| <= 2 && IsPast(x) && (forall y :: y in older ==> IsPast(y)) &&
             SpecHash(x.manifest) != SpecHash(next)
    ensures C.Reconciled(C.Store(older + [x], serial), 0, next, 3) ==
            C.Store(older + [x] + [NewJob(serial, next)], serial + 1)
  {
    LatestLiveSnoc(older, x);
    OneIsAdded(older + [x], serial, 0, next, 3);
  }

  /** A whole reconcile that finds `jobs` and adds `x`. */
  lemma SmoothReconcile(h: Hashes, s: State, jobs: seq<BatchJob>, serial: nat, x: BatchJob)
    returns (acts: seq<Action>, t: State)
    requires s.pc.Idle? && s.w.queued && s.w.now == 0 && s.w.jobs == jobs && s.w.serial == serial && Ordered(jobs)
    requires s.w.wrapper.Some? && Inputs(s.w)
    requires C.Reconciled(C.Store(jobs, serial), 0, ManifestOf(h, None, 0), 3) == C.Store(jobs + [x], serial + 1)
    ensures t == Run(Constructing(h), s, acts) && forall a :: a in acts ==> Smooth(a)
    ensures t.pc.Idle? && t.w.now == 0 && t.w.serial == serial + 1 && t.w.jobs == jobs + [x]
  {
    DesiredIsWanted(h, s.w);
    acts, t := C.CalmReconcile(Constructing(h), s, C.Store(jobs, serial), 0, ManifestOf(h, None, 0), 3);
  }

  lemma WrapperIsThere(h: Hashes) returns (u: State)
    ensures u == Next(Constructing(h), Start(BEFORE), Env(SetWrapper(Some(OnOld()))))
    ensures u == State(World(0, 0, [], Some(OnOld()), BEFORE, true, None, []), Idle(0))
  {
    u := State(World(0, 0, [], Some(OnOld()), BEFORE, true, None, []), Idle(0));
  }

  /** The wrapper is created on the old profile, and its first batch Job with it. */
  lemma ToTheFirst(h: Hashes) returns (acts: seq<Action>, t: State)
    ensures t == Run(Constructing(h), Start(BEFORE), acts) &&
            Along(Constructing(h), Start(BEFORE), acts, StaysDesired(h))
    ensures PlainInv(t) && t.w.wrapper == Some(OnOld()) && t.w.profiles == BEFORE
    ensures t.pc.Idle? && t.w.now == 0 && t.w.serial == 1 && t.w.jobs == [Fresh(h, None, 0, 0)]
  {
    var u := WrapperIsThere(h);
    AddsFirst(h);
    var rest;
    rest, t := SmoothReconcile(h, u, [], 0, Fresh(h, None, 0, 0));
    assert [] + [Fresh(h, None, 0, 0)] == [Fresh(h, None, 0, 0)];
    EditAndRun(h, Start(BEFORE), SetWrapper(Some(OnOld())), rest);
    acts := [Env(SetWrapper(Some(OnOld())))] + rest;
  }

  /** It completes, and the next reconcile reads the wrapper. */
  lemma ToTheRead(h: Hashes, s: State) returns (acts: seq<Action>, t: State)
    requires s.pc.Idle? && s.w.now == 0 && s.w.jobs == [Fresh(h, None, 0, 0)] && s.w.wrapper == Some(OnOld())
    ensures t == Run(Constructing(h), s, acts) && forall a :: a in acts ==> Smooth(a)
    ensures t.pc == Fetched(OnOld()) && t.w.jobs == [First(h)] && t.w.now == 0 && t.w.serial == s.w.serial
  {
    var report := Env(Report(0, Completed(0)));
    NewestCompletes(s.w, [], Fresh(h, None, 0, 0));
    assert [] + [Fresh(h, None, 0, 0)] == s.w.jobs && [] + [First(h)] == [First(h)];
    var u := Next(Constructing(h), s, report);
    t := Next(Constructing(h), u, Ctl(Ok));
    RunOne(Constructing(h), s, report);
    RunStep(Constructing(h), s, [report], Ctl(Ok));
    acts := [report] + [Ctl(Ok)];
  }

  lemma BuildsFromTheOld(h: Hashes, s: State) returns (u: State)
    requires s.pc == Fetched(OnOld()) && s.w.profiles == AFTER
    ensures u == Next(Constructing(h), s, Ctl(Ok)) == State(s.w, Ready(OnOld(), ManifestOf(h, None, 1)))
  {
    Built(h, 3, None, "old", 1);
    u := State(s.w, Ready(OnOld(), ManifestOf(h, None, 1)));
  }

  /** In between the wrapper has moved on and the old profile has been edited. What is built now was never desired. */
  lemma ReadsTheOldProfile(h: Hashes, s: State) returns (acts: seq<Action>, t: State)
    requires (h.spec)(SpecOf(0)) != (h.spec)(SpecOf(1))
    requires s.pc == Fetched(OnOld()) && s.w.jobs == [First(h)] && s.w.now == 0 && s.w.serial == 1 &&
             s.w.profiles == AFTER
    ensures t == Run(Constructing(h), s, acts) && forall a :: a in acts ==> Smooth(a)
    ensures t.pc.Idle? && t.w.now == 0 && t.w.serial == 2 && t.w.jobs == [First(h)] + [Fresh(h, None, 1, 1)]
  {
    var u := BuildsFromTheOld(h, s);
    AddsSecond(h);
    var rest;
    rest, t := C.CalmFromReady(Constructing(h), u, C.Store([First(h)], 1), 0, ManifestOf(h, None, 1), 3);
    C.RunFrom(Constructing(h), s, Ctl(Ok), rest);
    acts := [Ctl(Ok)] + rest;
  }

  lemma SecondCompletes(h: Hashes, s: State) returns (u: State)
    requires s.w.now == 0 && s.w.jobs == [First(h)] + [Fresh(h, None, 1, 1)]
    ensures u == Next(Constructing(h), s, Env(Report(1, Completed(0))))
    ensures u == State(s.w.(jobs := [First(h)] + [Second(h)], queued := true), s.pc)
  {
    NewestCompletes(s.w, [First(h)], Fresh(h, None, 1, 1));
    u := State(s.w.(jobs := [First(h)] + [Second(h)], queued := true), s.pc);
  }

  lemma ThirdReconcile(h: Hashes, u: State) returns (acts: seq<Action>, t: State)
    requires (h.spec)(SpecOf(0)) != (h.spec)(SpecOf(1))
    requires u.pc.Idle? && u.w.queued && u.w.now == 0 && u.w.serial == 2 && u.w.jobs == [First(h)] + [Second(h)]
    requires u.w.wrapper == Some(OnNew()) && u.w.profiles == AFTER
    ensures t == Run(Constructing(h), u, acts) && forall a :: a in acts ==> Smooth(a)
    ensures t.w.jobs == [First(h)] + [Second(h)] + [Fresh(h, None, 2, 0)]
  {
    InOrder(h);
    AddsThird(h);
    acts, t := SmoothReconcile(h, u, [First(h)] + [Second(h)], 2, Fresh(h, None, 2, 0));
  }

  /** That one completes, and the next reconcile creates the desired one again. */
  lemma ToTheThird(h: Hashes, s: State) returns (acts: seq<Action>, t: State)
    requires (h.spec)(SpecOf(0)) != (h.spec)(SpecOf(1))
    requires s.pc.Idle? && s.w.now == 0 && s.w.serial == 2 && s.w.jobs == [First(h)] + [Fresh(h, None, 1, 1)]
    requires s.w.wrapper == Some(OnNew()) && s.w.profiles == AFTER
    ensures t == Run(Constructing(h), s, acts) && forall a :: a in acts ==> Smooth(a)
    ensures t.w.jobs == [First(h)] + [Second(h)] + [Fresh(h, None, 2, 0)]
  {
    var u := SecondCompletes(h, s);
    var rest;
    rest, t := ThirdReconcile(h, u);
    C.RunFrom(Constructing(h), s, Env(Report(1, Completed(0))), rest);
    acts := [Env(Report(1, Completed(0)))] + rest;
  }

  lemma TwoWithTheHash(h: Hashes)
    requires (h.spec)(SpecOf(0)) != (h.spec)(SpecOf(1))
    ensures |UidsWith([First(h)] + [Second(h)] + [Fresh(h, None, 2, 0)], Wanted(h), 0)| >= 2
  {
    TheyArePlain(h);
    var jobs := [First(h)] + [Second(h)] + [Fresh(h, None, 2, 0)];
    assert jobs[0] == First(h) && jobs[2] == Fresh(h, None, 2, 0);
    assert {0, 2} <= UidsWith(jobs, Wanted(h), 0);
    History.SubsetIsSmaller({0, 2}, UidsWith(jobs, Wanted(h), 0));
  }

  /** For all hash functions that tell two specs apart: a run with orderly steps throughout, and with the same hash
      desired throughout, in which two batch Jobs with that hash are created. */
  lemma DesiredTwiceCreated(h: Hashes) returns (s: State, acts: seq<Action>)
    requires (h.spec)(SpecOf(0)) != (h.spec)(SpecOf(1))
    ensures Init(s) && Along(Constructing(h), s, acts, StaysDesired(h))
    ensures Creations(Run(Constructing(h), s, acts).w.log, Wanted(h)) >= Creations(s.w.log, Wanted(h)) + 2
  {
    var build := Constructing(h);
    s := Start(BEFORE);
    var a, t := ToTheFirst(h);
    var b, u := ToTheRead(h, t);
    SmoothRun(h, t, b);
    AlongConcat(build, s, a, b, StaysDesired(h));
    RunConcat(build, s, a, b);
    var c := FromTheRead(h, u);
    AlongConcat(build, s, a + b, c, StaysDesired(h));
    RunConcat(build, s, a + b, c);
    acts := a + b + c;
    TwoWithTheHash(h);
    JobsAreLogged(build, s, acts, Wanted(h), 0);
  }

  lemma FromTheRead(h: Hashes, u: State) returns (acts: seq<Action>)
    requires (h.spec)(SpecOf(0)) != (h.spec)(SpecOf(1)) && PlainInv(u)
    requires u.pc == Fetched(OnOld()) && u.w.jobs == [First(h)] && u.w.now == 0 && u.w.serial == 1
    requires u.w.wrapper == Some(OnOld()) && u.w.profiles == BEFORE
    ensures Along(Constructing(h), u, acts, StaysDesired(h))
    ensures Run(Constructing(h), u, acts).w.jobs == [First(h)] + [Second(h)] + [Fresh(h, None, 2, 0)]
  {
    var build := Constructing(h);
    var move, edit := SetWrapper(Some(OnNew())), SetProfile("old", Some(Template(1)), true);
    EditAndRun(h, u, move, []);
    var v := Next(build, u, Env(move));
    var w := Next(build, v, Env(edit));
    assert w.w.profiles == AFTER;
    var a, x := ReadsTheOldProfile(h, w);
    EditAndRun(h, v, edit, a);
    var b, y := ToTheThird(h, x);
    SmoothRun(h, x, b);
    AlongConcat(build, v, [Env(edit)] + a, b, StaysDesired(h));
    RunConcat(build, v, [Env(edit)] + a, b);
    DesiredIsWanted(h, u.w);
    AlongOne(build, u, Env(move), [Env(edit)] + a + b, StaysDesired(h));
    acts := [Env(move)] + ([Env(edit)] + a + b);
  }
}
