/** The CronJob reconciler and its PodProfile handler as the code writes them, for one worker. Before every API call the
    environment may do anything, and every call may fail. */
module CronController {
  import opened Prelude
  import opened CronJobs
  import opened Status

  type Reach = (State, seq<Action>) -> bool

  ghost predicate Closed(build: CronBuilder, reach: Reach) {
    forall s, acts, a {:trigger Next(build, s, a), reach(s, acts)} :: reach(s, acts) ==>
    reach(Next(build, s, a), acts + [a])
  }

  /** The runs from a state. */
  ghost function Runs(build: CronBuilder, origin: State): (reach: Reach)
    ensures Closed(build, reach)
    ensures forall s, acts :: reach(s, acts) <==> s == Run(build, origin, acts)
  {
    var reach := (s, acts) => s == Run(build, origin, acts);
    assert Closed(build, reach) by {
      forall s, acts, a | reach(s, acts) ensures reach(Next(build, s, a), acts + [a]) {
        RunStep(build, origin, acts, a);
      }
    }
    reach
  }

  /** A PodProfile has changed: one request for every CronJob wrapper that the index lists for it, in the order of the
      list. Together they are what a scan of the namespace finds. When the list fails there are none. */
  method PodProfileRequests(w: World, profile: string, listed: Option<seq<CronJob>>) returns (requests: array<string>)
    requires Indexed(w.wrappers, w.index)
    requires listed.Some? ==>
               forall n :: n in Referring(w, profile) <==>
                 exists i :: 0 <= i < |listed.value| && listed.value[i].name == n
    ensures fresh(requests)
    ensures listed.Some? ==> forall n :: n in requests[..] <==> n in FullScan(w.wrappers, profile)
    ensures listed.None? ==> requests.Length == 0
  {
    if listed.None? {
      return new string[0];
    }
    var items := listed.value;
    requests := new string[|items|];
    for i := 0 to |items|
      invariant forall k :: 0 <= k < i ==> requests[k] == items[k].name
    {
      requests[i] := items[i].name;
    }
    RequestsAreTheNames(items, requests[..]);
    assert Lookup(w.index, profile) == FullScan(w.wrappers, profile);
    forall n ensures n in requests[..] <==> n in FullScan(w.wrappers, profile) {
      assert n in Referring(w, profile) <==> exists i :: 0 <= i < |items| && items[i].name == n;
    }
  }

  lemma RequestsAreTheNames(items: seq<CronJob>, requests: seq<string>)
    requires |requests| == |items| && forall k :: 0 <= k < |items| ==> requests[k] == items[k].name
    ensures forall n :: n in requests <==> exists i :: 0 <= i < |items| && items[i].name == n
  {
    forall i | 0 <= i < |items| ensures items[i].name in requests {
      assert requests[i] in requests;
    }
  }

  class Reconciler {
    const build: CronBuilder
    var w: World
    /** The status conditions of the wrappers as the API server stores them. */
    var conditions: map<string, seq<Condition>>
    var statusCalls: seq<seq<Condition>>
    ghost var phases: string -> Phase
    ghost var acts: seq<Action>
    ghost const reach: Reach

    ghost predicate Valid()
      reads this
    {
      && reach(State(w, phases), acts) && Closed(build, reach)
      && AllCoherent(statusCalls) && forall n :: n in conditions ==> Unique(conditions[n])
    }

    ghost predicate AtRest()
      reads this
    {
      forall n :: phases(n) == Idle
    }

    twostate predicate Continues()
      reads this
    {
      old(acts) <= acts && old(statusCalls) <= statusCalls
    }

    constructor (build: CronBuilder, start: World, ghost idle: string -> Phase)
      requires forall n :: idle(n) == Idle
      ensures Valid() && AtRest() && acts == [] && w == start && statusCalls == []
      ensures this.build == build && reach == Runs(build, State(start, idle))
    {
      this.build := build;
      w := start;
      conditions := map[];
      statusCalls := [];
      phases := idle;
      acts := [];
      reach := Runs(build, State(start, idle));
    }

    /** Any number of things happen. */
    method Environment()
      requires Valid()
      modifies this`w, this`acts
      ensures Valid() && old(acts) <= acts
    {
      var n: int := *;
      n := Max(n, 0);
      for i: int := 0 to n
        invariant Valid() && old(acts) <= acts
      {
        var e: EnvAction := *;
        ghost var from := State(w, phases);
        w := EnvNext(w, e);
        Saw(from, e);
      }
    }

    ghost method Saw(from: State, e: EnvAction)
      requires reach(from, acts) && State(w, phases) == Next(build, from, Env(e)) && Closed(build, reach)
      requires AllCoherent(statusCalls) && forall n :: n in conditions ==> Unique(conditions[n])
      modifies this`acts
      ensures Valid() && acts == old(acts) + [Env(e)]
    {
      acts := acts + [Env(e)];
    }

    /** The reconcile of `name` has done one step. */
    ghost method Did(was: World, name: string, ok: bool, to: Phase)
      requires reach(State(was, phases), acts) && Closed(build, reach)
      requires CtlNext(build, was, phases(name), name, ok) == Local(w, to)
      requires AllCoherent(statusCalls) && forall n :: n in conditions ==> Unique(conditions[n])
      modifies this`acts, this`phases
      ensures Valid() && acts == old(acts) + [Ctl(name, ok)] && phases == Moved(old(phases), name, to)
    {
      ghost var from := State(was, phases);
      phases := Moved(phases, name, to);
      assert State(w, phases) == Next(build, from, Ctl(name, ok));
      acts := acts + [Ctl(name, ok)];
    }

    /** The wrapper, unless it is gone or being deleted. When it cannot be read, its queue item stays. */
    method GetCronJob(name: string) returns (job: Option<CronJob>, err: bool)
      requires Valid() && phases(name) == Idle && name in w.queue
      modifies this`w, this`acts, this`phases
      ensures Valid() && old(acts) <= acts
      ensures phases == if err then old(phases)
                        else Moved(old(phases), name, if job.Some? then Fetched(job.value) else Idle)
      ensures err ==> job.None? && w == old(w)
      ensures !err ==> w == old(w).(queue := old(w).queue - {name})
      ensures !err ==> (job.Some? <==> name in old(w).wrappers && !old(w).wrappers[name].deleting)
      ensures job.Some? ==> name in old(w).wrappers && old(w).wrappers[name] == job.value
    {
      err := *;
      if err {
        return None, true;
      }
      ghost var was := w;
      job := Stored(w.wrappers, name);
      if job.Some? && job.value.deleting {
        job := None;
      }
      w := w.(queue := w.queue - {name});
      Did(was, name, true, if job.Some? then Fetched(job.value) else Idle);
    }

    /** The profile, and the manifest built from it. */
    method GetManifest(name: string, job: CronJob) returns (next: Option<BatchCronJob>, message: string)
      requires Valid() && phases(name) == Fetched(job)
      modifies this`w, this`acts, this`phases
      ensures Valid() && old(acts) <= acts
      ensures phases == Moved(old(phases), name, if next.Some? then Built(next.value) else Finishing(true))
    {
      Environment();
      var ok: bool := *;
      next, message := None, "PodProfile not found";
      if ok && job.profileRef in w.profiles {
        next, message := build(job, w.profiles[job.profileRef]), "Failed to construct batch CronJob manifest";
      }
      Did(w, name, ok, if next.Some? then Built(next.value) else Finishing(true));
    }

    /** Create it if it is not there, otherwise apply the manifest. */
    method ApplyBatchCronJob(name: string, next: BatchCronJob) returns (err: bool)
      requires Valid() && phases(name) == Built(next)
      modifies this`w, this`acts, this`phases
      ensures Valid() && old(acts) <= acts
      ensures phases(name) == Finishing(err) && forall n :: n != name ==> phases(n) == old(phases(n))
      ensures !err ==> BatchName(name) in w.crons && Agrees(w.crons[BatchName(name)], next)
    {
      var existing, ok := GetBatchCronJob(name, next);
      if !ok {
        return true;
      }
      Environment();
      ok := *;
      ghost var was := w;
      if existing {
        err := !ok;
        if ok {
          ApplyIsIdempotent(Stored(w.crons, BatchName(name)), next);
          w := Put(w, BatchName(name), Some(Apply(Stored(w.crons, BatchName(name)), next)));
        }
      } else {
        err := !ok || BatchName(name) in w.crons;
        if !err {
          w := Put(w, BatchName(name), Some(next));
        }
      }
      Did(was, name, ok, Finishing(err));
    }

    method GetBatchCronJob(name: string, next: BatchCronJob) returns (existing: bool, ok: bool)
      requires Valid() && phases(name) == Built(next)
      modifies this`w, this`acts, this`phases
      ensures Valid() && old(acts) <= acts
      ensures phases == Moved(old(phases), name,
                              if !ok then Finishing(true) else if existing then Found(next) else Missing(next))
    {
      Environment();
      ok := *;
      existing := BatchName(name) in w.crons;
      Did(w, name, ok, if !ok then Finishing(true) else if existing then Found(next) else Missing(next));
    }

    method UpdateStatus(name: string, conds: seq<Condition>) returns (ok: bool)
      requires Valid() && Coherent(conds)
      modifies this`w, this`acts, this`conditions, this`statusCalls
      ensures Valid() && Continues() && statusCalls == old(statusCalls) + [conds]
      ensures conditions == if ok then old(conditions)[name := conds] else old(conditions)
    {
      Environment();
      statusCalls := statusCalls + [conds];
      ok := *;
      if ok {
        conditions := conditions[name := conds];
      }
    }

    ghost predicate LastWriteSays(ok: bool)
      reads this
    {
      statusCalls != [] && Says(statusCalls[|statusCalls| - 1], ok)
    }

    method ReportFailure(name: string, conds: seq<Condition>, message: string)
      requires Valid() && Unique(conds)
      modifies this`w, this`acts, this`conditions, this`statusCalls
      ensures Valid() && Continues() && LastWriteSays(false)
      ensures statusCalls == old(statusCalls) + [SetFailed(conds, message)]
    {
      SetFailedSays(conds, message);
      var _ := UpdateStatus(name, SetFailed(conds, message));
    }

    /** The conditions of the wrapper, set to what they are when all goes well. */
    method OkConditions(name: string) returns (conds: seq<Condition>)
      requires Valid()
      ensures Says(conds, true)
    {
      var stored := if name in conditions then conditions[name] else [];
      conds := SetOk(stored);
      SetOkSays(stored);
    }

    /** A reconcile after its wrapper has been read. */
    method BuildAndApply(name: string, job: CronJob, conds: seq<Condition>) returns (err: bool)
      requires Valid() && phases(name) == Fetched(job) && Says(conds, true)
      modifies this
      ensures Valid() && Continues()
      ensures forall n :: n != name ==> phases(n) == old(phases(n))
      ensures phases(name).Finishing? && (phases(name).failed ==> err) && LastWriteSays(!phases(name).failed)
      ensures !err ==> name in conditions && conditions[name] == conds
    {
      var next, message := GetManifest(name, job);
      if next.None? {
        ReportFailure(name, conds, message);
        return true;
      }
      var failed := ApplyBatchCronJob(name, next.value);
      if failed {
        ReportFailure(name, conds, "Failed to apply batch CronJob");
        return true;
      }
      var written := UpdateStatus(name, conds);
      return !written;
    }

    /** One call of Reconcile. Whatever path it takes, it ends with a status write that says whether it has failed,
        and a failure is an error. */
    method Reconcile(name: string) returns (err: bool)
      requires Valid() && AtRest() && name in w.queue
      modifies this
      ensures Valid() && Continues()
      ensures forall n :: n != name ==> phases(n) == Idle
      ensures phases(name) == Idle ==> statusCalls == old(statusCalls) && (err ==> w == old(w))
      ensures phases(name) != Idle ==>
                phases(name).Finishing? && (phases(name).failed ==> err) && LastWriteSays(!phases(name).failed)
      ensures phases(name) != Idle && !err ==> name in conditions && Says(conditions[name], true)
      // A wrapper that is gone or being deleted is left alone: no call and no status write.
      ensures name !in old(w).wrappers || old(w).wrappers[name].deleting ==>
                phases(name) == Idle && statusCalls == old(statusCalls) && conditions == old(conditions) &&
                w == (if err then old(w) else old(w).(queue := old(w).queue - {name}))
      ensures name in old(w).wrappers && !old(w).wrappers[name].deleting && !err ==> phases(name).Finishing?
    {
      var job, unread := GetCronJob(name);
      if job.None? {
        return unread;
      }
      var conds := OkConditions(name);
      err := BuildAndApply(name, job.value, conds);
    }

    /** What the runtime does around it: an error queues the wrapper again. */
    method ProcessNextWorkItem(name: string)
      requires Valid() && AtRest()
      modifies this
      ensures Valid() && Continues() && AtRest()
    {
      if name !in w.queue {
        return;
      }
      var err := Reconcile(name);
      HandleResult(name, err);
    }

    method HandleResult(name: string, err: bool)
      requires Valid() && forall n :: n != name ==> phases(n) == Idle
      requires phases(name) == Idle || (phases(name).Finishing? && (phases(name).failed ==> err))
      requires phases(name) == Idle && err ==> name in w.queue
      modifies this`w, this`acts, this`phases
      ensures Valid() && old(acts) <= acts && AtRest()
    {
      ghost var was := w;
      if err {
        w := w.(queue := w.queue + {name});
      }
      if phases(name).Finishing? {
        Did(was, name, !err, Idle);
      } else {
        assert w.queue == was.queue;
      }
    }
  }

  /** The controller from its start, for any sequence of queue items, with anything happening in between: whenever it
      comes to rest every wrapper is queued or in sync. */
  method Serve(build: CronBuilder, start: World, ghost idle: string -> Phase, items: seq<string>)
    returns (c: Reconciler)
    requires OwnsWhatItBuilds(build) && Init(State(start, idle))
    ensures fresh(c) && State(c.w, c.phases) == Run(build, State(start, idle), c.acts) && AllCoherent(c.statusCalls)
    ensures NothingLost(c.acts) ==> forall n :: Active(c.w, n) ==> n in c.w.queue || InSync(build, c.w, n)
  {
    c := new Reconciler(build, start, idle);
    for i := 0 to |items|
      invariant fresh(c) && c.Valid() && c.AtRest() && c.reach == Runs(build, State(start, idle))
    {
      c.Environment();
      c.ProcessNextWorkItem(items[i]);
    }
    forall n | NothingLost(c.acts) && Active(c.w, n) ensures n in c.w.queue || InSync(build, c.w, n) {
      QueuedOrInFlightOrInSync(build, State(start, idle), c.acts, n);
    }
  }
}
