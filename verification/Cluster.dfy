/** One wrapper Job, its batch Jobs, its work queue entry and its controller as a transition system.
    A controller step ends with at most one API call, so the environment can act between any two of them.

    `build` stands for the construction of the manifest and is a parameter: what is proved holds of every construction,
    Construct.BatchJobManifest among them. */
module Cluster {
  import opened Prelude
  import opened Decimal
  import opened Objects
  import opened Construct
  import opened Passes

  type Builder = (Job, PodProfile) -> Option<Manifest>

  datatype Reason = Expired | Pruned

  /** What the controller has done to batch Jobs; `job` is the batch Job as it was when it was created or deleted. */
  datatype Event = Created(job: BatchJob) | Deleted(job: BatchJob, why: Reason, at: int)

  /** `jobs` are the batch Jobs that the wrapper's selector lists, in creation order. `queued` says that the wrapper
      is in the work queue (waiting out a back-off included), `timer` is the pending requeue. */
  datatype World = World(
    now: int,
    serial: nat,
    jobs: seq<BatchJob>,
    wrapper: Option<Job>,
    profiles: map<string, PodProfile>,
    queued: bool,
    timer: Option<int>,
    log: seq<Event>)

  /** Where the reconcile is, and what it holds in its local variables. At rest, `lag` is how long the last reconcile
      that succeeded ran on after its TTL pass had read the clock. */
  datatype Phase =
    | Idle(lag: int)
    | Fetched(job: Job)
    | Ready(job: Job, next: Manifest)
    | Clocked(job: Job, next: Manifest, since: int)
    | Marking(job: Job, next: Manifest, since: int, listed: seq<BatchJob>, todo: nat)
    | Culling(job: Job, next: Manifest, since: int, delay: Option<int>, doomed: seq<BatchJob>)
    | Swept(job: Job, next: Manifest, since: int, delay: Option<int>)
    | Pruning(job: Job, next: Manifest, since: int, delay: Option<int>, doomed: seq<BatchJob>)
    | Decide(job: Job, next: Manifest, since: int, delay: Option<int>)
    | Creating(job: Job, next: Manifest, since: int, delay: Option<int>)
    | Bumping(job: Job, since: int, delay: Option<int>, again: bool)
    | Finishing(since: int, delay: Option<int>, failed: bool)

  /** A loop has got on. */
  function WithTodo(pc: Phase, todo: nat): Phase {
    match pc
    case Marking(job, next, since, listed, _) => Marking(job, next, since, listed, todo)
    case _ => pc
  }

  function WithDoomed(pc: Phase, doomed: seq<BatchJob>): Phase {
    match pc
    case Culling(job, next, since, delay, _) => Culling(job, next, since, delay, doomed)
    case Pruning(job, next, since, delay, _) => Pruning(job, next, since, delay, doomed)
    case _ => pc
  }

  /** The reconcile holds the manifest that it has built. */
  predicate HoldsManifest(pc: Phase) {
    pc.Ready? || pc.Clocked? || pc.Marking? || pc.Culling? || pc.Swept? || pc.Pruning? || pc.Decide? || pc.Creating?
  }

  /** The TTL pass has computed the requeue delay. */
  predicate HoldsDelay(pc: Phase) {
    pc.Culling? || pc.Swept? || pc.Pruning? || pc.Decide? || pc.Creating? || pc.Bumping? || pc.Finishing?
  }

  datatype State = State(w: World, pc: Phase)

  /** How an API call ends. `Exists` is the answer to the creation of an object whose name is taken. */
  datatype Outcome = Ok | Fail | Exists

  datatype EnvAction =
    | Tick(d: nat)
    | Report(uid: nat, condition: JobCondition)
    | BeginDelete(uid: nat)
    | Remove(uid: nat)
    | SetWrapper(wrapper: Option<Job>)
    | SetProfile(name: string, profile: Option<PodProfile>, seen: bool)
    | Fire
    | Requeue
    | Elsewhere

  /** `Restart` is a crash of the controller, at any point, followed by its start. */
  datatype Action = Ctl(o: Outcome) | Env(e: EnvAction) | Restart

  // ---------------------------------------------------------------- the environment

  predicate Present(jobs: seq<BatchJob>, uid: nat) {
    exists x :: x in jobs && x.uid == uid
  }

  function WithCondition(x: BatchJob, uid: nat, c: JobCondition): BatchJob {
    if x.uid == uid then x.(conditions := x.conditions + [c]) else x
  }

  function WithDeletion(x: BatchJob, uid: nat): BatchJob {
    if x.uid == uid then x.(deleting := true) else x
  }

  function Reporting(uid: nat, c: JobCondition): BatchJob -> BatchJob {
    (x: BatchJob) => WithCondition(x, uid, c)
  }

  function Deleting(uid: nat): BatchJob -> BatchJob {
    (x: BatchJob) => WithDeletion(x, uid)
  }

  function Except(uid: nat): BatchJob -> bool {
    (x: BatchJob) => x.uid != uid
  }

  function Map(f: BatchJob -> BatchJob, jobs: seq<BatchJob>): (r: seq<BatchJob>)
    ensures |r| == |jobs|
    ensures forall i :: 0 <= i < |r| ==> r[i] == f(jobs[i])
  {
    seq(|jobs|, i requires 0 <= i < |jobs| => f(jobs[i]))
  }

  /** An event reaches the queue unless it is the deletion of a batch Job that carries the expiry mark. */
  predicate DeletionIsSeen(jobs: seq<BatchJob>, uid: nat) {
    exists x :: x in jobs && x.uid == uid && !Marked(x)
  }

  predicate RefersTo(wrapper: Option<Job>, profile: string) {
    wrapper.Some? && wrapper.value.profileRef == profile
  }

  function EnvNext(w: World, e: EnvAction): World {
    match e
    case Tick(d) => w.(now := w.now + d)
    case Report(uid, c) =>
      // A condition carries the time at which it is reported, or no time.
      if Present(w.jobs, uid) && (c.at.None? || c.at.value == w.now) then
        w.(jobs := Map(Reporting(uid, c), w.jobs), queued := true)
      else w
    case BeginDelete(uid) =>
      if Present(w.jobs, uid) then w.(jobs := Map(Deleting(uid), w.jobs), queued := true) else w
    case Remove(uid) =>
      w.(jobs := Filter(Except(uid), w.jobs), queued := w.queued || DeletionIsSeen(w.jobs, uid))
    case SetWrapper(j) => w.(wrapper := j, queued := true)
    case SetProfile(name, p, seen) =>
      // The event is lost when its handler cannot list the wrappers.
      w.(profiles := (match p case None => w.profiles - {name} case Some(v) => w.profiles[name := v]),
         queued := w.queued || (seen && RefersTo(w.wrapper, name)))
    case Fire => if w.timer.Some? && w.timer.value <= w.now then w.(timer := None, queued := true) else w
    case Requeue => w.(queued := true)
    case Elsewhere =>
      // An object of somebody else takes the next UID.
      w.(serial := w.serial + 1)
  }

  // ---------------------------------------------------------------- API calls of the controller

  /** An update carries the resource version it was read with: it succeeds only on an object that is still the same. */
  function UpdateMark(w: World, j: BatchJob): World {
    if j in w.jobs then w.(jobs := Replace(w.jobs, j, WithMark(j)), queued := true) else w
  }

  /** Deletion carries the UID as its precondition. */
  function Delete(w: World, uid: nat, why: Reason): World {
    var gone := Filter((x: BatchJob) => x.uid == uid && Live(x), w.jobs);
    w.(jobs := Erase(w.jobs, {uid}),
       queued := w.queued || exists x :: x in gone && !Marked(x),
       log := w.log + Deletions(gone, why, w.now))
  }

  function Deletions(gone: seq<BatchJob>, why: Reason, at: int): (r: seq<Event>)
    ensures |r| == |gone|
    ensures forall i :: 0 <= i < |r| ==> r[i] == Deleted(gone[i], why, at)
  {
    seq(|gone|, i requires 0 <= i < |gone| => Deleted(gone[i], why, at))
  }

  function Create(w: World, next: Manifest): World {
    var j := NewJob(w.serial, next);
    w.(jobs := w.jobs + [j], serial := w.serial + 1, queued := true, log := w.log + [Created(j)])
  }

  /** The first collision sets the absent count to 1; the count is an int32 and wraps around. */
  function Bump(count: Option<int32>): int32 {
    var c: int := match count case None => 0 case Some(c) => c;
    if c == 0x7fff_ffff then -0x8000_0000 else c + 1
  }

  function UpdateCollisions(w: World, job: Job): World {
    if w.wrapper == Some(job) then w.(wrapper := Some(job.(collisions := Some(Bump(job.collisions)))), queued := true)
    else w
  }

  function DueAt(now: int, delay: Option<int>): Option<int> {
    match delay case None => None case Some(d) => Some(now + d)
  }

  /** The earlier of two requeues is kept. */
  function Sooner(timer: Option<int>, at: Option<int>): Option<int> {
    if at.None? then timer
    else if timer.None? || at.value < timer.value then at
    else timer
  }

  // ---------------------------------------------------------------- the controller

  predicate Active(w: World) {
    w.wrapper.Some? && !w.wrapper.value.deleting
  }

  /** The construction that the controller uses, for any two hash functions. */
  function Constructing(h: Hashes): Builder {
    (job: Job, profile: PodProfile) => BatchJobManifest(h, job, profile)
  }

  function BuildFor(build: Builder, job: Job, profiles: map<string, PodProfile>): Option<Manifest> {
    if job.profileRef in profiles then build(job, profiles[job.profileRef]) else None
  }

  function Desired(build: Builder, w: World): Option<Manifest> {
    if Active(w) then BuildFor(build, w.wrapper.value, w.profiles) else None
  }

  function CtlNext(build: Builder, s: State, o: Outcome): State {
    var w := s.w;
    match s.pc
    case Idle(_) =>
      // Take the wrapper from the queue and read it.
      if !w.queued || o != Ok then s
      else if !Active(w) then State(w.(queued := false), s.pc)
      else State(w.(queued := false), Fetched(w.wrapper.value))
    case Fetched(job) =>
      // Read the profile and build the manifest.
      var next := BuildFor(build, job, w.profiles);
      if o == Ok && next.Some? then State(w, Ready(job, next.value)) else State(w, Finishing(w.now, None, true))
    case Ready(job, next) =>
      State(w, Clocked(job, next, w.now))
    case Clocked(job, next, since) =>
      // List. A failure ends the TTL pass, not the reconcile.
      if o == Ok then State(w, Marking(job, next, since, w.jobs, |w.jobs|)) else State(w, Swept(job, next, since, None))
    case Marking(job, next, since, listed, todo) =>
      if todo == 0 || todo > |listed| then
        State(w, Culling(job, next, since, RequeueDelay(listed, since), TtlDoomed(listed)))
      else
        var j := listed[todo - 1];
        State(if NeedsMark(j, since) && o == Ok then UpdateMark(w, j) else w,
              Marking(job, next, since, listed, todo - 1))
    case Culling(job, next, since, delay, doomed) =>
      if doomed == [] then State(w, Swept(job, next, since, delay))
      else State(if o == Ok then Delete(w, doomed[0].uid, Expired) else w,
                 Culling(job, next, since, delay, doomed[1..]))
    case Swept(job, next, since, delay) =>
      if o == Ok then State(w, Pruning(job, next, since, delay, PruneDoomed(w.jobs, job.limit)))
      else State(w, Decide(job, next, since, delay))
    case Pruning(job, next, since, delay, doomed) =>
      if doomed == [] then State(w, Decide(job, next, since, delay))
      else State(if o == Ok then Delete(w, doomed[0].uid, Reason.Pruned) else w,
                 Pruning(job, next, since, delay, doomed[1..]))
    case Decide(job, next, since, delay) =>
      if o != Ok then State(w, Finishing(since, delay, true))
      else if ShouldCreate(LatestLive(w.jobs), next) then State(w, Creating(job, next, since, delay))
      else State(w, Finishing(since, delay, false))
    case Creating(job, next, since, delay) => (
      match o
      case Ok => State(Create(w, next), Finishing(since, delay, false))
      case Fail => State(w, Finishing(since, delay, true))
      case Exists => State(w, Bumping(job, since, delay, false)))
    case Bumping(job, since, delay, again) =>
      // If the status write fails, the write of the failure conditions carries the bumped count, too.
      if o == Ok then State(UpdateCollisions(w, job), Finishing(since, delay, true))
      else if again then State(w, Finishing(since, delay, true))
      else State(w, Bumping(job, since, delay, true))
    case Finishing(since, delay, failed) =>
      // Write the status and return. An error puts the wrapper back into the queue and drops the requeue.
      if failed || o != Ok then State(w.(queued := true), Idle(0))
      else
        State(w.(timer := Sooner(w.timer, DueAt(w.now, delay))), Idle(w.now - since))
  }

  function Next(build: Builder, s: State, a: Action): State {
    match a
    case Ctl(o) => CtlNext(build, s, o)
    case Env(e) => State(EnvNext(s.w, e), s.pc)
    case Restart => State(s.w.(queued := true, timer := None), Idle(0))
  }

  // ---------------------------------------------------------------- runs

  function Run(build: Builder, s: State, acts: seq<Action>): State {
    if acts == [] then s
    else Next(build, Run(build, s, acts[..|acts| - 1]), acts[|acts| - 1])
  }

  /** A condition on the steps of a run. */
  type Guard = (State, Action) -> bool

  ghost predicate Along(build: Builder, s: State, acts: seq<Action>, ok: Guard) {
    acts == [] ||
    (Along(build, s, acts[..|acts| - 1], ok) && ok(Run(build, s, acts[..|acts| - 1]), acts[|acts| - 1]))
  }

  /** How many steps of a run satisfy `p`. */
  function Count(p: Guard, build: Builder, s: State, acts: seq<Action>): nat {
    if acts == [] then 0
    else
      var n := |acts| - 1;
      Count(p, build, s, acts[..n]) + if p(Run(build, s, acts[..n]), acts[n]) then 1 else 0
  }

  /** Nothing has been created yet. */
  predicate Init(s: State) {
    s.pc.Idle? && s.w.jobs == [] && s.w.log == [] && s.w.wrapper == None && s.w.timer == None
  }

  lemma RunStep(build: Builder, s: State, acts: seq<Action>, a: Action)
    ensures Run(build, s, acts + [a]) == Next(build, Run(build, s, acts), a)
  {
    assert (acts + [a])[..|acts|] == acts;
  }

  // ---------------------------------------------------------------- putting runs together

  lemma {:induction false} RunConcat(build: Builder, s: State, acts: seq<Action>, more: seq<Action>)
    ensures Run(build, s, acts + more) == Run(build, Run(build, s, acts), more)
  {
    if more == [] {
      assert acts + more == acts;
    } else {
      var n := |more| - 1;
      RunConcat(build, s, acts, more[..n]);
      assert (acts + more)[..|acts + more| - 1] == acts + more[..n];
    }
  }

  lemma {:induction false} AlongConcat(build: Builder, s: State, acts: seq<Action>, more: seq<Action>, ok: Guard)
    requires Along(build, s, acts, ok) && Along(build, Run(build, s, acts), more, ok)
    ensures Along(build, s, acts + more, ok)
  {
    if more == [] {
      assert acts + more == acts;
    } else {
      var n := |more| - 1;
      AlongConcat(build, s, acts, more[..n], ok);
      RunConcat(build, s, acts, more[..n]);
      assert (acts + more)[..|acts + more| - 1] == acts + more[..n];
    }
  }

  lemma {:induction false} CountConcat(p: Guard, build: Builder, s: State, acts: seq<Action>, more: seq<Action>)
    ensures Count(p, build, s, acts + more) == Count(p, build, s, acts) + Count(p, build, Run(build, s, acts), more)
  {
    if more == [] {
      assert acts + more == acts;
    } else {
      var n := |more| - 1;
      CountConcat(p, build, s, acts, more[..n]);
      RunConcat(build, s, acts, more[..n]);
      assert (acts + more)[..|acts + more| - 1] == acts + more[..n];
    }
  }

  /** What every step keeps, with a count of the steps that satisfy `p`, holds after every run. */
  lemma {:induction false} CountedInvariant(p: Guard, inv: (nat, State) -> bool, ok: Action -> bool, build: Builder,
                                            s: State, acts: seq<Action>)
    requires inv(0, s) && forall a :: a in acts ==> ok(a)
    requires forall k: nat, t: State, a: Action :: inv(k, t) && ok(a) ==>
               inv(if p(t, a) then k + 1 else k, Next(build, t, a))
    ensures inv(Count(p, build, s, acts), Run(build, s, acts))
  {
    if acts != [] {
      var n := |acts| - 1;
      assert acts[n] in acts && forall a :: a in acts[..n] ==> a in acts;
      CountedInvariant(p, inv, ok, build, s, acts[..n]);
    }
  }

  /** A run goes on as it has begun. */
  lemma {:induction false} AlongRest(build: Builder, s: State, acts: seq<Action>, more: seq<Action>, ok: Guard)
    requires Along(build, s, acts + more, ok)
    ensures Along(build, s, acts, ok) && Along(build, Run(build, s, acts), more, ok)
  {
    if more == [] {
      assert acts + more == acts;
    } else {
      var n := |more| - 1;
      assert (acts + more)[..|acts + more| - 1] == acts + more[..n];
      AlongRest(build, s, acts, more[..n], ok);
      RunConcat(build, s, acts, more[..n]);
    }
  }

  lemma {:induction false} AlongAll(build: Builder, s: State, acts: seq<Action>, ok: Guard)
    requires forall t, a :: a in acts ==> ok(t, a)
    ensures Along(build, s, acts, ok)
  {
    if acts != [] {
      AlongAll(build, s, acts[..|acts| - 1], ok);
    }
  }

  lemma {:induction false} AlongImplies(build: Builder, s: State, acts: seq<Action>, ok: Guard, also: Guard)
    requires Along(build, s, acts, ok) && forall t, a :: ok(t, a) ==> also(t, a)
    ensures Along(build, s, acts, also)
  {
    if acts != [] {
      AlongImplies(build, s, acts[..|acts| - 1], ok, also);
    }
  }

  lemma RunOne(build: Builder, s: State, a: Action)
    ensures Run(build, s, [a]) == Next(build, s, a)
  {
    RunStep(build, s, [], a);
    assert [] + [a] == [a];
  }

  /** One more action, and a run from there. */
  lemma Onward(build: Builder, s: State, acts: seq<Action>, a: Action, more: seq<Action>)
    ensures Run(build, s, acts + [a] + more) == Run(build, Next(build, Run(build, s, acts), a), more)
  {
    RunStep(build, s, acts, a);
    RunConcat(build, s, acts + [a], more);
  }

  lemma AlongOne(build: Builder, s: State, a: Action, acts: seq<Action>, ok: Guard)
    requires ok(s, a) && Along(build, Next(build, s, a), acts, ok)
    ensures Along(build, s, [a] + acts, ok) && Run(build, s, [a] + acts) == Run(build, Next(build, s, a), acts)
  {
    RunOne(build, s, a);
    assert Along(build, s, [], ok) && [a][..0] == [];
    assert Along(build, s, [a], ok);
    AlongConcat(build, s, [a], acts, ok);
    RunConcat(build, s, [a], acts);
  }
}
