/** The CronJob wrappers of a namespace, their batch CronJobs and their controller as a transition system. Any number of
    wrappers may be reconciled at a time, each by one worker. */
module CronJobs {
  import opened Prelude
  import opened Json
  import opened Construct
  import opened Status

  /** `spec` is everything that the construction of the batch CronJob reads besides the profile. */
  datatype CronJob = CronJob(name: string, deleting: bool, profileRef: string, spec: Json)

  /** A batch CronJob in the store, or the manifest of one: the wrapper that its owner references name, and
      its fields. */
  datatype BatchCronJob = BatchCronJob(owner: Option<string>, fields: map<string, Json>)

  type CronBuilder = (CronJob, PodProfile) -> Option<BatchCronJob>

  const NAME_SUFFIX: string := "-pxvcjob"

  function BatchName(name: string): string {
    name + NAME_SUFFIX
  }

  lemma BatchNamesDiffer(name: string, other: string)
    ensures BatchName(name) == name + "-pxvcjob"
    ensures BatchName(name) == BatchName(other) <==> name == other
  {
    assert BatchName(name)[..|BatchName(name)| - |NAME_SUFFIX|] == name;
    assert BatchName(other)[..|BatchName(other)| - |NAME_SUFFIX|] == other;
  }

  // ---------------------------------------------------------------- server-side apply

  /** A forced apply sets every field of the manifest and creates what is not there. Fields that it does not
      list stay. */
  function Apply(existing: Option<BatchCronJob>, m: BatchCronJob): BatchCronJob {
    match existing
    case None => m
    case Some(x) => BatchCronJob(m.owner, x.fields + m.fields)
  }

  predicate Agrees(x: BatchCronJob, m: BatchCronJob) {
    x.owner == m.owner && forall k :: k in m.fields ==> k in x.fields && x.fields[k] == m.fields[k]
  }

  /** Field by field: the manifest's fields and owner are set, and all other fields are as they were, or absent. */
  lemma ApplySetsFields(existing: Option<BatchCronJob>, m: BatchCronJob, k: string)
    ensures var x := Apply(existing, m);
            && x.owner == m.owner
            && (k in m.fields ==> k in x.fields && x.fields[k] == m.fields[k])
            && (k !in m.fields ==>
                  (k in x.fields <==> existing.Some? && k in existing.value.fields) &&
                  (k in x.fields ==> x.fields[k] == existing.value.fields[k]))
  {
  }

  /** Applying twice changes nothing more; an object that agrees is left as it is, and only such an object is. */
  lemma ApplyIsIdempotent(existing: Option<BatchCronJob>, m: BatchCronJob)
    ensures Agrees(Apply(existing, m), m)
    ensures existing.Some? ==> (Apply(existing, m) == existing.value <==> Agrees(existing.value, m))
    ensures Apply(Some(Apply(existing, m)), m) == Apply(existing, m)
  {
    if existing.Some? {
      var x := existing.value;
      if Agrees(x, m) {
        assert x.fields + m.fields == x.fields;
      }
      assert (x.fields + m.fields) + m.fields == x.fields + m.fields;
    } else {
      assert m.fields + m.fields == m.fields;
    }
  }

  /** What a manifest no longer lists is not taken away: the result is the manifest itself exactly when nothing else
      is there. */
  lemma ApplyIsExactIff(x: BatchCronJob, m: BatchCronJob)
    ensures Apply(Some(x), m) == m <==> x.fields.Keys <= m.fields.Keys
    ensures forall k :: k in x.fields && k !in m.fields ==>
                          k in Apply(Some(x), m).fields && Apply(Some(x), m).fields[k] == x.fields[k]
  {
    if x.fields.Keys <= m.fields.Keys {
      assert x.fields + m.fields == m.fields;
    } else {
      var k :| k in x.fields && k !in m.fields;
      assert k in (x.fields + m.fields);
    }
  }

  // ---------------------------------------------------------------- the index over profiles

  type Index = map<string, set<string>>

  function Lookup(index: Index, profile: string): set<string> {
    if profile in index then index[profile] else {}
  }

  /** A wrapper that changes leaves the bucket of the profile it referred to and enters that of the one it refers to. */
  function Reindex(index: Index, name: string, was: Option<CronJob>, becomes: Option<CronJob>): Index {
    var without := match was
      case None => index
      case Some(j) => index[j.profileRef := Lookup(index, j.profileRef) - {name}];
    match becomes
    case None => without
    case Some(j) => without[j.profileRef := Lookup(without, j.profileRef) + {name}]
  }

  /** The wrappers that a scan of the whole namespace finds. */
  function FullScan(wrappers: map<string, CronJob>, profile: string): set<string> {
    set n | n in wrappers && wrappers[n].profileRef == profile
  }

  ghost predicate Indexed(wrappers: map<string, CronJob>, index: Index) {
    forall p :: Lookup(index, p) == FullScan(wrappers, p)
  }

  function Stored<T>(m: map<string, T>, k: string): Option<T> {
    if k in m then Some(m[k]) else None
  }

  function With<T>(m: map<string, T>, k: string, v: Option<T>): map<string, T> {
    match v case None => m - {k} case Some(x) => m[k := x]
  }

  lemma ReindexKeeps(wrappers: map<string, CronJob>, index: Index, name: string, j: Option<CronJob>)
    requires Indexed(wrappers, index)
    ensures Indexed(With(wrappers, name, j), Reindex(index, name, Stored(wrappers, name), j))
  {
    var index' := Reindex(index, name, Stored(wrappers, name), j);
    forall p ensures Lookup(index', p) == FullScan(With(wrappers, name, j), p) {
      assert Lookup(index, p) == FullScan(wrappers, p);
    }
  }

  // ---------------------------------------------------------------- the transition system

  datatype World = World(
    wrappers: map<string, CronJob>,
    index: Index,
    crons: map<string, BatchCronJob>,
    profiles: map<string, PodProfile>,
    queue: set<string>)

  /** Where the reconcile of one wrapper is. */
  datatype Phase =
    | Idle
    | Fetched(job: CronJob)
    | Built(next: BatchCronJob)
    | Missing(next: BatchCronJob)
    | Found(next: BatchCronJob)
    | Finishing(failed: bool)

  datatype State = State(w: World, phases: string -> Phase)

  datatype EnvAction =
    | SetWrapper(name: string, wrapper: Option<CronJob>)
    | SetProfile(name: string, profile: Option<PodProfile>, seen: bool)
    | SetCron(name: string, cron: Option<BatchCronJob>)
    | Requeue(name: string)

  datatype Action = Ctl(name: string, ok: bool) | Env(e: EnvAction) | Restart

  function OwnerOf(x: Option<BatchCronJob>): set<string> {
    if x.Some? && x.value.owner.Some? then {x.value.owner.value} else {}
  }

  /** An event of a batch CronJob goes to its owner, before and after the change; no change, no event. */
  function Put(w: World, key: string, x: Option<BatchCronJob>): World {
    var was := Stored(w.crons, key);
    w.(crons := With(w.crons, key, x), queue := if x == was then w.queue else w.queue + OwnerOf(was) + OwnerOf(x))
  }

  /** What the handler of PodProfile events enqueues. */
  function Referring(w: World, profile: string): set<string> {
    Lookup(w.index, profile)
  }

  function EnvNext(w: World, e: EnvAction): World {
    match e
    case SetWrapper(name, j) =>
      if j.Some? && j.value.name != name then w
      else w.(wrappers := With(w.wrappers, name, j),
              index := Reindex(w.index, name, Stored(w.wrappers, name), j),
              queue := w.queue + {name})
    case SetProfile(name, p, seen) =>
      // The event is lost when its handler cannot list the wrappers.
      w.(profiles := With(w.profiles, name, p), queue := w.queue + if seen then Referring(w, name) else {})
    case SetCron(key, x) => Put(w, key, x)
    case Requeue(name) => w.(queue := w.queue + {name})
  }

  predicate Active(w: World, name: string) {
    name in w.wrappers && !w.wrappers[name].deleting
  }

  function BuildFor(build: CronBuilder, job: CronJob, profiles: map<string, PodProfile>): Option<BatchCronJob> {
    if job.profileRef in profiles then build(job, profiles[job.profileRef]) else None
  }

  function Desired(build: CronBuilder, w: World, name: string): Option<BatchCronJob> {
    if name in w.wrappers then BuildFor(build, w.wrappers[name], w.profiles) else None
  }

  datatype Local = Local(w: World, pc: Phase)

  /** One step of the reconcile of `name`; `ok` says whether its API call succeeds. */
  function CtlNext(build: CronBuilder, w: World, pc: Phase, name: string, ok: bool): Local {
    match pc
    case Idle =>
      if name !in w.queue || !ok then Local(w, pc)
      else if !Active(w, name) then Local(w.(queue := w.queue - {name}), pc)
      else Local(w.(queue := w.queue - {name}), Fetched(w.wrappers[name]))
    case Fetched(job) =>
      var next := BuildFor(build, job, w.profiles);
      if ok && next.Some? then Local(w, Built(next.value)) else Local(w, Finishing(true))
    case Built(next) =>
      // Get the batch CronJob.
      if !ok then Local(w, Finishing(true))
      else if BatchName(name) in w.crons then Local(w, Found(next))
      else Local(w, Missing(next))
    case Missing(next) =>
      // Create fails if somebody else has created one meanwhile.
      if !ok || BatchName(name) in w.crons then Local(w, Finishing(true))
      else Local(Put(w, BatchName(name), Some(next)), Finishing(false))
    case Found(next) =>
      if !ok then Local(w, Finishing(true))
      else Local(Put(w, BatchName(name), Some(Apply(Stored(w.crons, BatchName(name)), next))), Finishing(false))
    case Finishing(failed) =>
      Local(if failed || !ok then w.(queue := w.queue + {name}) else w, Idle)
  }

  function Moved(phases: string -> Phase, name: string, pc: Phase): string -> Phase {
    (n: string) => if n == name then pc else phases(n)
  }

  function Next(build: CronBuilder, s: State, a: Action): State {
    match a
    case Ctl(name, ok) =>
      var l := CtlNext(build, s.w, s.phases(name), name, ok);
      State(l.w, Moved(s.phases, name, l.pc))
    case Env(e) => State(EnvNext(s.w, e), s.phases)
    case Restart => State(s.w.(queue := s.w.queue + s.w.wrappers.Keys), (n: string) => Idle)
  }

  function Run(build: CronBuilder, s: State, acts: seq<Action>): State {
    if acts == [] then s else Next(build, Run(build, s, acts[..|acts| - 1]), acts[|acts| - 1])
  }

  lemma RunStep(build: CronBuilder, s: State, acts: seq<Action>, a: Action)
    ensures Run(build, s, acts + [a]) == Next(build, Run(build, s, acts), a)
  {
    assert (acts + [a])[..|acts|] == acts;
  }

  predicate Empty(w: World) {
    w.wrappers == map[] && w.index == map[]
  }

  ghost predicate Init(s: State) {
    Empty(s.w) && forall n :: s.phases(n) == Idle
  }

  // ---------------------------------------------------------------- queued, in flight or in sync

  /** The batch CronJob is there and has every field that the manifest, built now, would have. */
  predicate InSync(build: CronBuilder, w: World, name: string) {
    Desired(build, w, name).Some? && BatchName(name) in w.crons &&
    Agrees(w.crons[BatchName(name)], Desired(build, w, name).value)
  }

  /** The manifests name their wrapper as their owner. */
  ghost predicate OwnsWhatItBuilds(build: CronBuilder) {
    forall j, p :: build(j, p).Some? ==> build(j, p).value.owner == Some(j.name)
  }

  /** As long as a wrapper is not queued again, what its reconcile holds is what it would read now. */
  ghost predicate Fresh(build: CronBuilder, w: World, pc: Phase, name: string) {
    name in w.queue ||
    match pc
    case Idle => Active(w, name) ==> InSync(build, w, name)
    case Fetched(job) => Active(w, name) && w.wrappers[name] == job
    case Finishing(failed) => failed || InSync(build, w, name)
    case _ => Active(w, name) && Desired(build, w, name) == Some(pc.next)
  }

  ghost predicate NamesFit(w: World) {
    Indexed(w.wrappers, w.index) && forall n :: n in w.wrappers ==> w.wrappers[n].name == n
  }

  ghost predicate Inv(build: CronBuilder, s: State) {
    NamesFit(s.w) && forall n :: Fresh(build, s.w, s.phases(n), n)
  }

  /** A change to some batch CronJob leaves a wrapper unqueued only if it is not about its own. */
  lemma PutKeepsSync(build: CronBuilder, w: World, key: string, x: Option<BatchCronJob>, name: string)
    requires OwnsWhatItBuilds(build) && NamesFit(w)
    requires InSync(build, w, name) && name !in Put(w, key, x).queue
    ensures InSync(build, Put(w, key, x), name)
  {
    assert Desired(build, w, name).value.owner == Some(name);
    assert OwnerOf(Stored(w.crons, BatchName(name))) == {name};
  }

  lemma PutKeepsFresh(build: CronBuilder, w: World, key: string, x: Option<BatchCronJob>, pc: Phase, name: string)
    requires OwnsWhatItBuilds(build) && NamesFit(w) && Fresh(build, w, pc, name)
    ensures Fresh(build, Put(w, key, x), pc, name)
  {
    if name !in Put(w, key, x).queue && InSync(build, w, name) {
      PutKeepsSync(build, w, key, x, name);
    }
  }

  /** A wrapper whose profile changes is one that the handler finds. */
  lemma ProfileKeepsDesired(build: CronBuilder, w: World, e: EnvAction, name: string)
    requires NamesFit(w) && e.SetProfile? && e.seen && name !in EnvNext(w, e).queue
    ensures Desired(build, EnvNext(w, e), name) == Desired(build, w, name)
  {
    assert Lookup(w.index, e.name) == FullScan(w.wrappers, e.name);
  }

  predicate Unlost(e: EnvAction) {
    e.SetProfile? ==> e.seen
  }

  lemma EnvKeepsFresh(build: CronBuilder, w: World, e: EnvAction, pc: Phase, name: string)
    requires Unlost(e) && OwnsWhatItBuilds(build) && NamesFit(w) && Fresh(build, w, pc, name)
    ensures Fresh(build, EnvNext(w, e), pc, name)
  {
    match e
    case SetCron(key, x) => PutKeepsFresh(build, w, key, x, pc, name);
    case SetProfile(_, _, _) =>
      if name !in EnvNext(w, e).queue {
        ProfileKeepsDesired(build, w, e, name);
      }
    case _ =>
  }

  lemma EnvKeepsNames(w: World, e: EnvAction)
    requires NamesFit(w)
    ensures NamesFit(EnvNext(w, e))
  {
    if e.SetWrapper? {
      ReindexKeeps(w.wrappers, w.index, e.name, e.wrapper);
    }
  }

  /** The wrapper's own reconcile. */
  lemma OwnStepKeepsFresh(build: CronBuilder, w: World, pc: Phase, name: string, ok: bool)
    requires OwnsWhatItBuilds(build) && NamesFit(w) && Fresh(build, w, pc, name)
    ensures var l := CtlNext(build, w, pc, name, ok); Fresh(build, l.w, l.pc, name)
  {
    if pc.Found? {
      ApplyIsIdempotent(Stored(w.crons, BatchName(name)), pc.next);
    }
  }

  /** Somebody else's. */
  lemma OtherStepKeepsFresh(build: CronBuilder, w: World, pc: Phase, name: string, ok: bool, other: string, pc': Phase)
    requires OwnsWhatItBuilds(build) && NamesFit(w) && other != name && Fresh(build, w, pc', other)
    ensures Fresh(build, CtlNext(build, w, pc, name, ok).w, pc', other)
  {
    match pc
    case Missing(next) => PutKeepsFresh(build, w, BatchName(name), Some(next), pc', other);
    case Found(next) =>
      PutKeepsFresh(build, w, BatchName(name), Some(Apply(Stored(w.crons, BatchName(name)), next)), pc', other);
    case _ =>
  }

  lemma InvStep(build: CronBuilder, s: State, a: Action)
    requires OwnsWhatItBuilds(build) && Inv(build, s) && (a.Env? ==> Unlost(a.e))
    ensures Inv(build, Next(build, s, a))
  {
    var t := Next(build, s, a);
    forall n ensures Fresh(build, t.w, t.phases(n), n) {
      assert Fresh(build, s.w, s.phases(n), n);
      match a
      case Ctl(name, ok) =>
        if n == name {
          OwnStepKeepsFresh(build, s.w, s.phases(n), n, ok);
        } else {
          OtherStepKeepsFresh(build, s.w, s.phases(name), name, ok, n, s.phases(n));
        }
      case Env(e) => EnvKeepsFresh(build, s.w, e, s.phases(n), n);
      case Restart =>
    }
    if a.Env? {
      EnvKeepsNames(s.w, a.e);
    }
  }

  /** No event of a profile is lost. */
  predicate NothingLost(acts: seq<Action>) {
    forall a :: a in acts && a.Env? ==> Unlost(a.e)
  }

  lemma {:induction false} InvHolds(build: CronBuilder, s: State, acts: seq<Action>)
    requires OwnsWhatItBuilds(build) && Init(s) && NothingLost(acts)
    ensures Inv(build, Run(build, s, acts))
  {
    if acts == [] {
      assert Indexed(s.w.wrappers, s.w.index);
    } else {
      InvHolds(build, s, acts[..|acts| - 1]);
      InvStep(build, Run(build, s, acts[..|acts| - 1]), acts[|acts| - 1]);
    }
  }

  /** In every reachable state every wrapper that is not being deleted is queued, or in flight, or its batch CronJob
      is there and agrees with every field of the manifest built from the current wrapper and the current profile. */
  lemma QueuedOrInFlightOrInSync(build: CronBuilder, s: State, acts: seq<Action>, name: string)
    requires OwnsWhatItBuilds(build) && Init(s) && NothingLost(acts)
    ensures var t := Run(build, s, acts);
            name in t.w.wrappers && !t.w.wrappers[name].deleting ==>
              var job := t.w.wrappers[name];
              name in t.w.queue || t.phases(name) != Idle ||
              (job.profileRef in t.w.profiles && build(job, t.w.profiles[job.profileRef]).Some? &&
               name + "-pxvcjob" in t.w.crons &&
               var x, m := t.w.crons[name + "-pxvcjob"], build(job, t.w.profiles[job.profileRef]).value;
               x.owner == m.owner && forall k :: k in m.fields ==> k in x.fields && x.fields[k] == m.fields[k])
  {
    InvHolds(build, s, acts);
    var t := Run(build, s, acts);
    assert Fresh(build, t.w, t.phases(name), name);
  }

  lemma {:induction false} NamesHold(build: CronBuilder, s: State, acts: seq<Action>)
    requires Init(s)
    ensures NamesFit(Run(build, s, acts).w)
  {
    if acts == [] {
      assert Indexed(s.w.wrappers, s.w.index);
    } else {
      var n := |acts| - 1;
      NamesHold(build, s, acts[..n]);
      NamesStep(build, Run(build, s, acts[..n]), acts[n]);
    }
  }

  lemma CallsKeepWrappers(build: CronBuilder, w: World, pc: Phase, name: string, ok: bool)
    ensures var w' := CtlNext(build, w, pc, name, ok).w; w'.wrappers == w.wrappers && w'.index == w.index
  {
  }

  lemma NamesStep(build: CronBuilder, s: State, a: Action)
    requires NamesFit(s.w)
    ensures NamesFit(Next(build, s, a).w)
  {
    match a
    case Env(e) => EnvKeepsNames(s.w, e);
    case Ctl(name, ok) => CallsKeepWrappers(build, s.w, s.phases(name), name, ok);
    case Restart =>
  }

  /** In every reachable state a PodProfile event whose handler can list enqueues exactly the wrappers that a scan of
      the namespace would find. */
  lemma HandlerFindsWhatAFullScanFinds(build: CronBuilder, s: State, acts: seq<Action>, profile: string)
    requires Init(s)
    ensures var w := Run(build, s, acts).w;
            && Referring(w, profile) == FullScan(w.wrappers, profile)
            && forall n :: n in Referring(w, profile) <==> n in w.wrappers && w.wrappers[n].profileRef == profile
  {
    NamesHold(build, s, acts);
  }

  /** Exactly when a lost profile event leaves a wrapper in sync: it refers to another profile, or a manifest can be
      built from the new one and the batch CronJob agrees with it already. */
  lemma LostProfileEventIsHarmlessIff(build: CronBuilder, w: World, name: string, changed: string,
                                      profile: Option<PodProfile>)
    requires NamesFit(w) && Active(w, name) && name !in w.queue && InSync(build, w, name)
    ensures var w' := EnvNext(w, SetProfile(changed, profile, false));
            var job, x := w.wrappers[name], w.crons[BatchName(name)];
            (name in w'.queue || InSync(build, w', name)) <==>
            (job.profileRef != changed ||
             (profile.Some? && build(job, profile.value).Some? && Agrees(x, build(job, profile.value).value)))
  {
  }

  // ---------------------------------------------------------------- wrappers that are gone or being deleted

  /** Taking one from the queue is all that happens, to it, to its batch CronJob and to every other. */
  lemma NothingIsDoneForIt(build: CronBuilder, s: State, name: string, ok: bool)
    requires s.phases(name) == Idle && (name in s.w.wrappers ==> s.w.wrappers[name].deleting)
    ensures var t := Next(build, s, Ctl(name, ok));
            t.w == (if ok then s.w.(queue := s.w.queue - {name}) else s.w) && forall n :: t.phases(n) == s.phases(n)
  {
    if name !in s.w.queue {
      assert s.w.queue - {name} == s.w.queue;
    }
  }

  /** Any other wrapper is taken from the queue and reconciled as it was read. */
  lemma ItIsReconciled(build: CronBuilder, s: State, name: string)
    requires s.phases(name) == Idle && name in s.w.queue && name in s.w.wrappers && !s.w.wrappers[name].deleting
    ensures var t := Next(build, s, Ctl(name, true));
            t.w == s.w.(queue := s.w.queue - {name}) && t.phases(name) == Fetched(s.w.wrappers[name])
  {
  }

  ghost predicate HoldsNoDeleted(build: CronBuilder, s: State) {
    forall n ::
      && (s.phases(n).Fetched? ==> !s.phases(n).job.deleting)
      && (HoldsManifest(s.phases(n)) ==> IsBuilt(build, s.phases(n).next))
  }

  predicate HoldsManifest(pc: Phase) {
    pc.Built? || pc.Missing? || pc.Found?
  }

  ghost predicate IsBuilt(build: CronBuilder, m: BatchCronJob) {
    exists j: CronJob, p :: !j.deleting && build(j, p) == Some(m)
  }

  lemma HeldStep(build: CronBuilder, w: World, pc: Phase, name: string, ok: bool)
    requires (pc.Fetched? ==> !pc.job.deleting) && (HoldsManifest(pc) ==> IsBuilt(build, pc.next))
    ensures var pc' := CtlNext(build, w, pc, name, ok).pc;
            (pc'.Fetched? ==> !pc'.job.deleting) && (HoldsManifest(pc') ==> IsBuilt(build, pc'.next))
  {
    if pc.Fetched? && BuildFor(build, pc.job, w.profiles).Some? {
      assert build(pc.job, w.profiles[pc.job.profileRef]).Some?;
    }
  }

  lemma {:induction false} HeldHolds(build: CronBuilder, s: State, acts: seq<Action>)
    requires forall n :: s.phases(n) == Idle
    ensures HoldsNoDeleted(build, Run(build, s, acts))
  {
    if acts != [] {
      var k := |acts| - 1;
      var t, a := Run(build, s, acts[..k]), acts[k];
      HeldHolds(build, s, acts[..k]);
      if a.Ctl? {
        HeldStep(build, t.w, t.phases(a.name), a.name, a.ok);
      }
    }
  }

  /** In every run a reconcile works with a wrapper that was not being deleted when it was read, and creates and
      applies only what was built from such a wrapper. */
  lemma NoReconcileOfADeletedWrapper(build: CronBuilder, s: State, acts: seq<Action>, name: string)
    requires Init(s)
    ensures var pc := Run(build, s, acts).phases(name);
            && (pc.Fetched? ==> !pc.job.deleting)
            && (pc.Built? || pc.Missing? || pc.Found? ==>
                  exists j: CronJob, p :: !j.deleting && build(j, p) == Some(pc.next))
  {
    HeldHolds(build, s, acts);
  }

  // ---------------------------------------------------------------- convergence

  /** A whole reconcile of `name` in which every API call succeeds and nothing else happens. */
  function Reconciled(build: CronBuilder, w: World, name: string): Local {
    var a := CtlNext(build, w, Idle, name, true);
    var b := CtlNext(build, a.w, a.pc, name, true);
    var c := CtlNext(build, b.w, b.pc, name, true);
    var d := CtlNext(build, c.w, c.pc, name, true);
    CtlNext(build, d.w, d.pc, name, true)
  }

  /** From whatever is there, one undisturbed reconcile brings the batch CronJob into sync and touches no other one. */
  lemma OneReconcileSyncs(build: CronBuilder, w: World, name: string)
    requires Active(w, name) && name in w.queue && Desired(build, w, name).Some?
    ensures var t := Reconciled(build, w, name);
            t.pc == Idle && InSync(build, t.w, name) &&
            t.w.crons ==
            w.crons[BatchName(name) := Apply(Stored(w.crons, BatchName(name)), Desired(build, w, name).value)]
  {
    ApplyIsIdempotent(Stored(w.crons, BatchName(name)), Desired(build, w, name).value);
  }

  /** What it finds in sync it leaves alone, and it does not queue the wrapper. Its status write queues it only if
      it changes the conditions, which it does not after a reconcile that has succeeded before: so the reconciles
      come to rest. */
  lemma InSyncIsAFixpoint(build: CronBuilder, w: World, name: string, conditions: seq<Condition>)
    requires Active(w, name) && name in w.queue && InSync(build, w, name) && Unique(conditions)
    ensures Reconciled(build, w, name) == Local(w.(queue := w.queue - {name}), Idle)
    ensures SetOk(SetOk(conditions)) == SetOk(conditions)
  {
    var m := Desired(build, w, name).value;
    ApplyIsIdempotent(Stored(w.crons, BatchName(name)), m);
    assert w.crons[BatchName(name) := w.crons[BatchName(name)]] == w.crons;
    SetOkIsIdempotent(conditions);
  }
}
