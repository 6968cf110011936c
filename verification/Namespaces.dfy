/** Many wrappers in one namespace, their reconciles interleaved in any way, one at a time for each. API calls act on
    one store; a controller sees of it what its wrapper's label selector lists. Every wrapper sees a run of its own:
    whatever Cluster's transition system guarantees for one wrapper holds for each of them. */
module Namespaces {
  import opened Prelude
  import opened Objects
  import opened Construct
  import opened Passes
  import opened PassFacts
  import opened Cluster
  import opened Steps
  import Safety

  /** What belongs to one wrapper alone. */
  datatype Local = Local(wrapper: Option<Job>, queued: bool, timer: Option<int>, log: seq<Event>, pc: Phase)

  datatype Namespace = Namespace(
    now: int,
    serial: nat,
    store: seq<BatchJob>,
    profiles: map<string, PodProfile>,
    locals: string -> Local)

  /** A step of the controller for one wrapper, something that happens to one wrapper, to all, or to the
      controller process. */
  datatype Move = Step(name: string, o: Outcome) | Own(name: string, e: EnvAction) | Shared(e: EnvAction) | Crash

  function Mine(name: string): BatchJob -> bool {
    (x: BatchJob) => Selected(name, x.manifest.labels)
  }

  /** The namespace as the controller sees it for one wrapper. */
  function View(g: Namespace, name: string): State {
    var l := g.locals(name);
    State(World(g.now, g.serial, Filter(Mine(name), g.store), l.wrapper, g.profiles, l.queued, l.timer, l.log), l.pc)
  }

  function LocalOf(s: State): Local {
    Local(s.w.wrapper, s.w.queued, s.w.timer, s.w.log, s.pc)
  }

  // ---------------------------------------------------------------- steps

  /** An event of a batch Job goes to the wrapper that its owner references name. */
  predicate Concerns(store: seq<BatchJob>, uid: nat, name: string, evenIfMarked: bool) {
    exists x :: x in store && x.uid == uid && OwnerName(x.manifest.owners) == Some(name) && (evenIfMarked || !Marked(x))
  }

  predicate Queues(g: Namespace, e: EnvAction, name: string) {
    match e
    case Report(uid, c) => (c.at.None? || c.at.value == g.now) && Concerns(g.store, uid, name, true)
    case BeginDelete(uid) => Concerns(g.store, uid, name, true)
    case Remove(uid) => Concerns(g.store, uid, name, false)
    case SetProfile(profile, _, seen) => seen && RefersTo(g.locals(name).wrapper, profile)
    case _ => false
  }

  /** Things that happen to all: to the clock, to batch Jobs, to profiles, to the UIDs. */
  predicate IsShared(e: EnvAction) {
    e.Tick? || e.Report? || e.BeginDelete? || e.Remove? || e.SetProfile? || e.Elsewhere?
  }

  /** A wrapper is stored under its name. */
  predicate IsOwn(name: string, e: EnvAction) {
    e.Fire? || e.Requeue? || (e.SetWrapper? && (e.wrapper.Some? ==> e.wrapper.value.name == name))
  }

  function Whole(g: Namespace): World {
    World(g.now, g.serial, g.store, None, g.profiles, false, None, [])
  }

  function Put(locals: string -> Local, name: string, l: Local): string -> Local {
    (m: string) => if m == name then l else locals(m)
  }

  function Happens(g: Namespace, e: EnvAction): Namespace {
    var w := EnvNext(Whole(g), e);
    Namespace(w.now, w.serial, w.jobs, w.profiles,
              (m: string) => g.locals(m).(queued := g.locals(m).queued || Queues(g, e, m)))
  }

  function MoveOn(build: Builder, g: Namespace, a: Move): Namespace {
    match a
    case Step(name, o) =>
      var s := View(g, name);
      var t := CtlNext(build, s, o);
      g.(store := Perform(CallOf(s, o), g.store), serial := t.w.serial, locals := Put(g.locals, name, LocalOf(t)))
    case Own(name, e) =>
      if !IsOwn(name, e) then g
      else
        var s := View(g, name);
        g.(locals := Put(g.locals, name, LocalOf(State(EnvNext(s.w, e), s.pc))))
    case Shared(e) =>
      if IsShared(e) then Happens(g, e) else g
    case Crash =>
      g.(locals := (m: string) => g.locals(m).(queued := true, timer := None, pc := Idle(0)))
  }

  /** What a move is to the wrapper `name`. */
  function Seen(g: Namespace, a: Move, name: string): Action {
    match a
    case Step(n, o) =>
      if n == name then Ctl(o)
      else if CallOf(View(g, n), o).Add? then Env(Elsewhere)
      else Env(Tick(0))
    case Own(n, e) => if n == name && IsOwn(n, e) then Env(e) else Env(Tick(0))
    case Shared(e) => if IsShared(e) then Env(e) else Env(Tick(0))
    case Crash => Restart
  }

  // ---------------------------------------------------------------- whose batch Job it is

  /** One wrapper selects it, and its events go to that wrapper. */
  ghost predicate Belongs(m: Manifest, name: string) {
    OwnerName(m.owners) == Some(name) && forall n :: Selected(n, m.labels) <==> n == name
  }

  ghost predicate Labels(build: Builder) {
    forall job, profile :: build(job, profile).Some? ==> Belongs(build(job, profile).value, job.name)
  }

  /** The real construction, whatever labels the users supply. */
  lemma BuiltManifestsBelong(h: Hashes)
    ensures Labels(Constructing(h))
  {
    forall job, profile | BatchJobManifest(h, job, profile).Some?
      ensures Belongs(BatchJobManifest(h, job, profile).value, job.name)
    {
      forall n ensures Selected(n, BatchJobManifest(h, job, profile).value.labels) <==> n == job.name {
        BuiltJobBelongsToItsWrapper(h, job, profile, n);
      }
      BuiltJobBelongsToItsWrapper(h, job, profile, job.name);
    }
  }

  ghost predicate OwnedByOne(store: seq<BatchJob>) {
    forall x :: x in store ==>
      OwnerName(x.manifest.owners).Some? && Belongs(x.manifest, OwnerName(x.manifest.owners).value)
  }

  /** A batch Job that a reconcile of `name` holds: its UID is nobody else's. */
  ghost predicate Held(x: BatchJob, name: string, store: seq<BatchJob>, serial: nat) {
    Mine(name)(x) && x.uid < serial && forall y :: y in store && y.uid == x.uid ==> Mine(name)(y)
  }

  ghost predicate AllHeld(xs: seq<BatchJob>, name: string, store: seq<BatchJob>, serial: nat) {
    forall x :: x in xs ==> Held(x, name, store, serial)
  }

  ghost predicate PhaseIsOwn(pc: Phase, name: string, store: seq<BatchJob>, serial: nat) {
    match pc
    case Fetched(job) => job.name == name
    case Marking(job, next, _, listed, _) => Belongs(next, name) && AllHeld(listed, name, store, serial)
    case Culling(_, next, _, _, doomed) => Belongs(next, name) && AllHeld(doomed, name, store, serial)
    case Pruning(_, next, _, _, doomed) => Belongs(next, name) && AllHeld(doomed, name, store, serial)
    case Ready(_, next) => Belongs(next, name)
    case Clocked(_, next, _) => Belongs(next, name)
    case Swept(_, next, _, _) => Belongs(next, name)
    case Decide(_, next, _, _) => Belongs(next, name)
    case Creating(_, next, _, _) => Belongs(next, name)
    case _ => true
  }

  ghost predicate Orderly(store: seq<BatchJob>, serial: nat) {
    Ordered(store) && OwnedByOne(store) && forall x :: x in store ==> x.uid < serial
  }

  ghost predicate LocalIsOwn(l: Local, name: string, store: seq<BatchJob>, serial: nat) {
    (l.wrapper.Some? ==> l.wrapper.value.name == name) && PhaseIsOwn(l.pc, name, store, serial)
  }

  ghost predicate Separate(g: Namespace) {
    Orderly(g.store, g.serial) && forall m :: LocalIsOwn(g.locals(m), m, g.store, g.serial)
  }

  // ---------------------------------------------------------------- filters and API calls

  lemma MapHead(f: BatchJob -> BatchJob, x: BatchJob, xs: seq<BatchJob>)
    ensures Map(f, [x] + xs) == [f(x)] + Map(f, xs)
  {
  }

  lemma {:induction false} FilterMap(p: BatchJob -> bool, f: BatchJob -> BatchJob, xs: seq<BatchJob>)
    requires forall x :: x in xs ==> p(f(x)) == p(x)
    ensures Filter(p, Map(f, xs)) == Map(f, Filter(p, xs))
  {
    if xs != [] {
      FilterMap(p, f, xs[1..]);
      MapHead(f, xs[0], xs[1..]);
      MapHead(f, xs[0], Filter(p, xs[1..]));
      assert xs == [xs[0]] + xs[1..];
    }
  }

  lemma ReplaceIsMap(xs: seq<BatchJob>, j: BatchJob, j': BatchJob)
    ensures Replace(xs, j, j') == Map((x: BatchJob) => if x == j then j' else x, xs)
    ensures j !in xs ==> Replace(xs, j, j') == xs
  {
  }

  /** What a wrapper may ask for: a new batch Job of its own, or a change to one that it holds. */
  ghost predicate MayCall(c: Call, name: string, store: seq<BatchJob>, serial: nat) {
    match c
    case Add(x) => Belongs(x.manifest, name)
    case NoCall => true
    case _ => Held(c.job, name, store, serial)
  }

  lemma PhaseMayCall(s: State, o: Outcome, name: string, store: seq<BatchJob>)
    requires PhaseIsOwn(s.pc, name, store, s.w.serial)
    ensures MayCall(CallOf(s, o), name, store, s.w.serial)
  {
  }

  /** A call, seen by its own wrapper: as if the store held nothing else. */
  lemma OwnCall(c: Call, store: seq<BatchJob>, name: string, serial: nat)
    requires MayCall(c, name, store, serial)
    ensures Filter(Mine(name), Perform(c, store)) == Perform(c, Filter(Mine(name), store))
  {
    match c
    case Add(x) => FilterSnoc(Mine(name), store, x);
    case Mark(x) => FilterMark(name, store, x);
    case Kill(x) => FilterCommutes(Mine(name), Spares({x.uid}), store);
    case NoCall =>
  }

  lemma FilterMark(name: string, store: seq<BatchJob>, j: BatchJob)
    ensures Filter(Mine(name), Replace(store, j, WithMark(j))) == Replace(Filter(Mine(name), store), j, WithMark(j))
  {
    MarkChangesOnlyTheMark(j);
    FilterMap(Mine(name), (x: BatchJob) => if x == j then WithMark(j) else x, store);
    ReplaceIsMap(store, j, WithMark(j));
    ReplaceIsMap(Filter(Mine(name), store), j, WithMark(j));
  }

  /** Seen by any other wrapper it does nothing. */
  lemma OthersCall(c: Call, store: seq<BatchJob>, name: string, m: string, serial: nat)
    requires MayCall(c, name, store, serial) && OwnedByOne(store) && m != name
    ensures Filter(Mine(m), Perform(c, store)) == Filter(Mine(m), store)
  {
    match c
    case Add(x) => FilterSnoc(Mine(m), store, x);
    case Mark(x) =>
      FilterMark(m, store, x);
      NotTheirs(store, x, name, m, serial);
      ReplaceIsMap(Filter(Mine(m), store), x, WithMark(x));
    case Kill(x) =>
      FilterCommutes(Mine(m), Spares({x.uid}), store);
      NotTheirs(store, x, name, m, serial);
      ErasingOthers(Filter(Mine(m), store), {x.uid});
    case NoCall =>
  }

  lemma NotTheirs(store: seq<BatchJob>, x: BatchJob, name: string, m: string, serial: nat)
    requires OwnedByOne(store) && Held(x, name, store, serial) && m != name
    ensures forall y :: y in Filter(Mine(m), store) ==> y.uid != x.uid
  {
    forall y | y in store && y.uid == x.uid ensures !Mine(m)(y) {
      assert Mine(name)(y);
    }
  }

  // ---------------------------------------------------------------- what a move looks like to a wrapper

  lemma StepSeenByOwner(build: Builder, g: Namespace, name: string, o: Outcome)
    requires Separate(g)
    ensures View(MoveOn(build, g, Step(name, o)), name) == CtlNext(build, View(g, name), o)
  {
    var s := View(g, name);
    assert LocalIsOwn(g.locals(name), name, g.store, g.serial);
    PhaseMayCall(s, o, name, g.store);
    CtlJobs(build, s, o);
    OwnCall(CallOf(s, o), g.store, name, g.serial);
  }

  lemma StepSeenByOthers(build: Builder, g: Namespace, name: string, o: Outcome, m: string)
    requires Separate(g) && m != name
    ensures View(MoveOn(build, g, Step(name, o)), m) == Next(build, View(g, m), Seen(g, Step(name, o), m))
  {
    var s := View(g, name);
    assert LocalIsOwn(g.locals(name), name, g.store, g.serial);
    PhaseMayCall(s, o, name, g.store);
    CtlJobs(build, s, o);
    OthersCall(CallOf(s, o), g.store, name, m, g.serial);
  }

  /** Owner references and label selectors agree about whose event it is. */
  lemma ConcernsIff(store: seq<BatchJob>, uid: nat, m: string)
    requires OwnedByOne(store)
    ensures Concerns(store, uid, m, true) <==> Present(Filter(Mine(m), store), uid)
    ensures Concerns(store, uid, m, false) <==> DeletionIsSeen(Filter(Mine(m), store), uid)
  {
    forall x | x in store ensures Mine(m)(x) <==> OwnerName(x.manifest.owners) == Some(m) {
    }
  }

  lemma UpdateSeen(store: seq<BatchJob>, f: BatchJob -> BatchJob, uid: nat, m: string)
    requires forall x :: Mine(m)(f(x)) == Mine(m)(x) && (x.uid != uid ==> f(x) == x)
    ensures Filter(Mine(m), Map(f, store)) ==
            if Present(Filter(Mine(m), store), uid) then Map(f, Filter(Mine(m), store)) else Filter(Mine(m), store)
    ensures !Present(store, uid) ==> Map(f, store) == store
  {
    FilterMap(Mine(m), f, store);
    var mine := Filter(Mine(m), store);
    if !Present(mine, uid) {
      assert Map(f, mine) == mine;
    }
  }

  lemma ReportSeen(g: Namespace, uid: nat, c: JobCondition, m: string)
    requires Separate(g)
    ensures View(Happens(g, Report(uid, c)), m).w == EnvNext(View(g, m).w, Report(uid, c))
  {
    ConcernsIff(g.store, uid, m);
    UpdateSeen(g.store, Reporting(uid, c), uid, m);
  }

  lemma BeginDeleteSeen(g: Namespace, uid: nat, m: string)
    requires Separate(g)
    ensures View(Happens(g, BeginDelete(uid)), m).w == EnvNext(View(g, m).w, BeginDelete(uid))
  {
    ConcernsIff(g.store, uid, m);
    UpdateSeen(g.store, Deleting(uid), uid, m);
  }

  lemma RemoveSeen(g: Namespace, uid: nat, m: string)
    requires Separate(g)
    ensures View(Happens(g, Remove(uid)), m).w == EnvNext(View(g, m).w, Remove(uid))
  {
    ConcernsIff(g.store, uid, m);
    FilterCommutes(Mine(m), Except(uid), g.store);
  }

  lemma OthersSeen(g: Namespace, e: EnvAction, m: string)
    requires e.Tick? || e.SetProfile? || e.Elsewhere?
    ensures View(Happens(g, e), m).w == EnvNext(View(g, m).w, e)
  {
  }

  lemma SharedSeen(g: Namespace, e: EnvAction, m: string)
    requires Separate(g) && IsShared(e)
    ensures View(Happens(g, e), m) == State(EnvNext(View(g, m).w, e), View(g, m).pc)
  {
    match e
    case Report(uid, c) => ReportSeen(g, uid, c, m);
    case BeginDelete(uid) => BeginDeleteSeen(g, uid, m);
    case Remove(uid) => RemoveSeen(g, uid, m);
    case _ => OthersSeen(g, e, m);
  }

  lemma OwnSeen(build: Builder, g: Namespace, name: string, e: EnvAction, m: string)
    ensures View(MoveOn(build, g, Own(name, e)), m) == Next(build, View(g, m), Seen(g, Own(name, e), m))
  {
  }

  lemma CrashSeen(build: Builder, g: Namespace, m: string)
    ensures View(MoveOn(build, g, Crash), m) == Next(build, View(g, m), Restart)
  {
  }

  /** To every wrapper every move is a step of its own single-wrapper system. */
  lemma MoveSeen(build: Builder, g: Namespace, a: Move, m: string)
    requires Separate(g)
    ensures View(MoveOn(build, g, a), m) == Next(build, View(g, m), Seen(g, a, m))
  {
    match a
    case Step(name, o) =>
      if m == name {
        StepSeenByOwner(build, g, name, o);
      } else {
        StepSeenByOthers(build, g, name, o, m);
      }
    case Own(name, e) => OwnSeen(build, g, name, e, m);
    case Shared(e) =>
      if IsShared(e) {
        SharedSeen(g, e, m);
      }
    case Crash => CrashSeen(build, g, m);
  }

  // ---------------------------------------------------------------- wrappers stay separate

  /** Nothing changes hands: every batch Job in the new store was there, with the same labels, or is the new one. */
  ghost predicate Inherits(store: seq<BatchJob>, store': seq<BatchJob>, serial: nat) {
    forall x :: x in store' && x.uid != serial ==>
      exists y :: y in store && y.uid == x.uid && y.manifest.labels == x.manifest.labels
  }

  lemma AgeInherits(store: seq<BatchJob>, store': seq<BatchJob>, serial: nat, now: int)
    requires Age(store, store', now)
    ensures Inherits(store, store', serial)
  {
    forall x | x in store'
      ensures exists y :: y in store && y.uid == x.uid && y.manifest.labels == x.manifest.labels
    {
      var y :| y in store && Descends(y, x, now);
    }
  }

  lemma InheritedIsOld(store: seq<BatchJob>, store': seq<BatchJob>, serial: nat, serial': nat, now: int)
    requires Orderly(store, serial) && Age(store, store', now) && serial <= serial'
    ensures Orderly(store', serial')
  {
    forall x | x in store'
      ensures x.uid < serial' && OwnerName(x.manifest.owners).Some? &&
              Belongs(x.manifest, OwnerName(x.manifest.owners).value)
    {
      var y :| y in store && Descends(y, x, now);
    }
  }

  lemma AddedIsOld(store: seq<BatchJob>, x: BatchJob, serial: nat, name: string)
    requires Orderly(store, serial) && x.uid == serial && Belongs(x.manifest, name)
    ensures Orderly(store + [x], serial + 1) && Inherits(store, store + [x], serial)
  {
    forall y | y in store + [x] && y.uid != serial ensures y in store {
    }
  }

  lemma StaysOwn(l: Local, name: string, store: seq<BatchJob>, store': seq<BatchJob>, serial: nat, serial': nat)
    requires LocalIsOwn(l, name, store, serial) && Inherits(store, store', serial) && serial <= serial'
    ensures LocalIsOwn(l, name, store', serial')
  {
    forall x | Held(x, name, store, serial) ensures Held(x, name, store', serial') {
      forall y | y in store' && y.uid == x.uid ensures Mine(name)(y) {
        var z :| z in store && z.uid == y.uid && z.manifest.labels == y.manifest.labels;
      }
    }
  }

  lemma CallKeepsOld(c: Call, store: seq<BatchJob>, name: string, serial: nat, now: int)
    requires Orderly(store, serial) && MayCall(c, name, store, serial) && (c.Add? ==> c.job.uid == serial)
    ensures var serial' := serial + if c.Add? then 1 else 0;
            Orderly(Perform(c, store), serial') && Inherits(store, Perform(c, store), serial)
  {
    match c
    case Add(x) => AddedIsOld(store, x, serial, name);
    case _ =>
      CallAges(c, store, now);
      AgeInherits(store, Perform(c, store), serial, now);
      InheritedIsOld(store, Perform(c, store), serial, serial, now);
  }

  lemma ListedIsHeld(store: seq<BatchJob>, name: string, serial: nat)
    requires Orderly(store, serial)
    ensures AllHeld(Filter(Mine(name), store), name, store, serial)
  {
    forall x, y | x in store && y in store && x.uid == y.uid ensures x == y {
      SameUidSameJob(store, x, y);
    }
  }

  /** A controller step, before its call has changed the store. */
  lemma PhaseStaysOwn(build: Builder, s: State, o: Outcome, name: string, store: seq<BatchJob>)
    requires Labels(build) && PhaseIsOwn(s.pc, name, store, s.w.serial)
    requires AllHeld(s.w.jobs, name, store, s.w.serial) && (s.w.wrapper.Some? ==> s.w.wrapper.value.name == name)
    ensures LocalIsOwn(LocalOf(CtlNext(build, s, o)), name, store, s.w.serial)
  {
  }

  lemma StepKeepsSeparate(build: Builder, g: Namespace, name: string, o: Outcome)
    requires Labels(build) && Separate(g)
    ensures Separate(MoveOn(build, g, Step(name, o)))
  {
    var s, g' := View(g, name), MoveOn(build, g, Step(name, o));
    var c := CallOf(s, o);
    assert LocalIsOwn(g.locals(name), name, g.store, g.serial);
    CtlJobs(build, s, o);
    PhaseMayCall(s, o, name, g.store);
    CallKeepsOld(c, g.store, name, g.serial, g.now);
    ListedIsHeld(g.store, name, g.serial);
    PhaseStaysOwn(build, s, o, name, g.store);
    PutStaysSeparate(g, g', name);
  }

  lemma PutStaysSeparate(g: Namespace, g': Namespace, name: string)
    requires Separate(g) && Orderly(g'.store, g'.serial) && g.serial <= g'.serial &&
             Inherits(g.store, g'.store, g.serial)
    requires g'.locals == Put(g.locals, name, g'.locals(name))
    requires LocalIsOwn(g'.locals(name), name, g.store, g.serial)
    ensures Separate(g')
  {
    forall m ensures LocalIsOwn(g'.locals(m), m, g'.store, g'.serial) {
      assert m != name ==> g'.locals(m) == g.locals(m);
      assert LocalIsOwn(g.locals(m), m, g.store, g.serial);
      StaysOwn(g'.locals(m), m, g.store, g'.store, g.serial, g'.serial);
    }
  }

  lemma HappensKeepsSeparate(g: Namespace, e: EnvAction)
    requires Separate(g) && IsShared(e)
    ensures Separate(Happens(g, e))
  {
    var g' := Happens(g, e);
    EnvAges(Whole(g), e);
    AgeInherits(g.store, g'.store, g.serial, g'.now);
    InheritedIsOld(g.store, g'.store, g.serial, g'.serial, g'.now);
    forall m ensures LocalIsOwn(g'.locals(m), m, g'.store, g'.serial) {
      assert LocalIsOwn(g.locals(m), m, g.store, g.serial);
      StaysOwn(g.locals(m), m, g.store, g'.store, g.serial, g'.serial);
    }
  }

  lemma SeparateStep(build: Builder, g: Namespace, a: Move)
    requires Labels(build) && Separate(g)
    ensures Separate(MoveOn(build, g, a))
  {
    match a
    case Step(name, o) => StepKeepsSeparate(build, g, name, o);
    case Shared(e) =>
      if IsShared(e) {
        HappensKeepsSeparate(g, e);
      }
    case Own(name, e) => OwnKeepsSeparate(build, g, name, e);
    case Crash =>
  }

  lemma OwnKeepsSeparate(build: Builder, g: Namespace, name: string, e: EnvAction)
    requires Separate(g)
    ensures Separate(MoveOn(build, g, Own(name, e)))
  {
    var g' := MoveOn(build, g, Own(name, e));
    forall m ensures LocalIsOwn(g'.locals(m), m, g'.store, g'.serial) {
      assert LocalIsOwn(g.locals(m), m, g.store, g.serial);
    }
  }

  // ---------------------------------------------------------------- runs

  function MoveAll(build: Builder, g: Namespace, moves: seq<Move>): Namespace {
    if moves == [] then g
    else MoveOn(build, MoveAll(build, g, moves[..|moves| - 1]), moves[|moves| - 1])
  }

  /** A run of the namespace as the wrapper `name` sees it. */
  function SeenAll(build: Builder, g: Namespace, moves: seq<Move>, name: string): seq<Action> {
    if moves == [] then []
    else
      var n := |moves| - 1;
      SeenAll(build, g, moves[..n], name) + [Seen(MoveAll(build, g, moves[..n]), moves[n], name)]
  }

  /** Any interleaving of the reconciles of any number of wrappers, with anything the environment does, is to each of
      them a run of the single-wrapper system. */
  lemma {:induction false} EachWrapperSeesARunOfItsOwn(build: Builder, g: Namespace, moves: seq<Move>, name: string)
    requires Labels(build) && Separate(g)
    ensures View(MoveAll(build, g, moves), name) == Run(build, View(g, name), SeenAll(build, g, moves, name))
    ensures Separate(MoveAll(build, g, moves))
  {
    if moves != [] {
      var n := |moves| - 1;
      var u := MoveAll(build, g, moves[..n]);
      EachWrapperSeesARunOfItsOwn(build, g, moves[..n], name);
      MoveSeen(build, u, moves[n], name);
      SeparateStep(build, u, moves[n]);
      RunStep(build, View(g, name), SeenAll(build, g, moves[..n], name), Seen(u, moves[n], name));
    }
  }

  /** Nothing that the controller does for one wrapper touches the batch Jobs of another. */
  lemma NoInterference(build: Builder, g: Namespace, moves: seq<Move>, name: string, o: Outcome, other: string)
    requires Labels(build) && Separate(g) && other != name
    ensures var u := MoveAll(build, g, moves);
            Filter(Mine(other), MoveOn(build, u, Step(name, o)).store) == Filter(Mine(other), u.store)
  {
    EachWrapperSeesARunOfItsOwn(build, g, moves, name);
    var u := MoveAll(build, g, moves);
    assert LocalIsOwn(u.locals(name), name, u.store, u.serial);
    PhaseMayCall(View(u, name), o, name, u.store);
    OthersCall(CallOf(View(u, name), o), u.store, name, other, u.serial);
  }

  /** For example: an empty namespace never comes to hold two live unfinished batch Jobs of the same wrapper. */
  lemma AtMostOneUnfinishedEach(build: Builder, g: Namespace, moves: seq<Move>, x: BatchJob, y: BatchJob)
    requires Labels(build) && g.store == [] && forall m :: g.locals(m) == Local(None, false, None, [], Idle(0))
    requires var store := MoveAll(build, g, moves).store; x in store && y in store
    requires Live(x) && Live(y) && !Finished(x) && !Finished(y)
    requires OwnerName(x.manifest.owners) == OwnerName(y.manifest.owners)
    ensures x == y
  {
    assert Separate(g);
    EachWrapperSeesARunOfItsOwn(build, g, moves, "");
    var name := OwnerName(x.manifest.owners).value;
    EachWrapperSeesARunOfItsOwn(build, g, moves, name);
    var u := MoveAll(build, g, moves);
    assert View(u, name).w.jobs == Filter(Mine(name), u.store);
    Safety.AtMostOneUnfinished(build, View(g, name), SeenAll(build, g, moves, name), x, y);
  }
}
