/** The reconciler as the code writes it: loops with counters over lists, conditions updated in place, early
    returns. Before every API call the environment may do anything it likes, and every API call may fail. Each
    method is shown to be a run of the transition system in Cluster, so what is proved of all runs holds at every
    point of the code. */
module Controller {
  import opened Prelude
  import opened Objects
  import opened Construct
  import opened Passes
  import opened Cluster
  import opened Status
  import Safety

  datatype TtlResult = TtlResult(job: BatchJob, shouldDelete: bool, delay: Option<int>, failed: bool)

  // ---------------------------------------------------------------- loops and the lists they compute

  lemma {:induction false} DelaysSnoc(jobs: seq<BatchJob>, x: BatchJob, now: int)
    ensures Delays(jobs + [x], now) == Delays(jobs, now) + (if DelayOf(x, now).Some? then [DelayOf(x, now).value]
            else [])
  {
    if jobs == [] {
      assert [x][1..] == [];
    } else {
      assert (jobs + [x])[1..] == jobs[1..] + [x];
      DelaysSnoc(jobs[1..], x, now);
    }
  }

  /** Deletions of the first `i` listed batch Jobs: one for each marked one, but never more than n - 1. */
  function CulledBy(listed: seq<BatchJob>, i: nat): nat
    requires i <= |listed|
  {
    Min(|Filter(Marked, listed[..i])|, Max(|listed| - 1, 0))
  }

  /** What the loop has left to delete then. */
  function CullLeft(listed: seq<BatchJob>, i: nat): seq<BatchJob>
    requires i <= |listed|
  {
    FilterPrefix(Marked, listed, i);
    TtlDoomed(listed)[CulledBy(listed, i)..]
  }

  /** The counter points at the batch Job that is to be deleted next. */
  lemma CullNext(listed: seq<BatchJob>, i: nat)
    requires i < |listed|
    ensures var x, d, left := listed[i], CulledBy(listed, i), CullLeft(listed, i);
            if Marked(x) && d < |listed| - 1 then
              CulledBy(listed, i + 1) == d + 1 && left != [] && left[0] == x && CullLeft(listed, i + 1) == left[1..]
            else CulledBy(listed, i + 1) == d && CullLeft(listed, i + 1) == left
  {
    FilterNext(Marked, listed, i);
    if Marked(listed[i]) {
      TakeNext(Filter(Marked, listed), |Filter(Marked, listed[..i])|, |listed| - 1);
    }
  }

  /** Of a list that is cut off at `most`, what is left after the first `f`. */
  lemma TakeNext(all: seq<BatchJob>, f: nat, most: nat)
    requires f < |all|
    ensures var cut := all[..Min(|all|, most)];
            if f < most then cut[f..] != [] && cut[f..][0] == all[f] && cut[f + 1..] == cut[f..][1..]
            else cut[Min(f, most)..] == []
  {
  }

  lemma CullEnds(listed: seq<BatchJob>)
    ensures CulledBy(listed, 0) == 0 && CullLeft(listed, 0) == TtlDoomed(listed) && CullLeft(listed, |listed|) == []
  {
    assert listed[..|listed|] == listed;
  }

  lemma DelaysNext(listed: seq<BatchJob>, i: nat, now: int)
    requires i < |listed|
    ensures Delays(listed[..i + 1], now) ==
            Delays(listed[..i], now) + (if DelayOf(listed[i], now).Some? then [DelayOf(listed[i], now).value] else [])
  {
    assert listed[..i + 1] == listed[..i] + [listed[i]];
    DelaysSnoc(listed[..i], listed[i], now);
  }

  /** Of the first `i` entries of the history, those that the prune keeps or deletes. */
  function Terminated(history: seq<BatchJob>, i: nat): nat
    requires i <= |history|
  {
    |Filter(FinishedLive, history[..i])|
  }

  lemma TerminatedAll(history: seq<BatchJob>)
    ensures Terminated(history, |history|) == |Filter(FinishedLive, history)|
  {
    assert history[..|history|] == history;
  }

  /** The shortest delay is asked for, if it is positive. */
  method ShortestDelay(delays: seq<int>) returns (delay: Option<int>)
    ensures delay == if delays != [] && Least(delays) > 0 then Some(Least(delays)) else None
  {
    if delays == [] {
      return None;
    }
    var minDelay := Least(delays);
    delay := if minDelay > 0 then Some(minDelay) else None;
  }

  /** What the loop of the prune has left to delete when it has seen the first `i` entries of the history. */
  function Remaining(jobs: seq<BatchJob>, limit: int, i: nat): seq<BatchJob>
    requires i <= |jobs|
  {
    var all := Filter(FinishedLive, Reverse(jobs));
    FilterPrefix(FinishedLive, Reverse(jobs), i);
    all[Max(Terminated(Reverse(jobs), i), Kept(jobs, limit))..]
  }

  /** How many it has kept. */
  function KeptBy(jobs: seq<BatchJob>, limit: int, i: nat): nat
    requires i <= |jobs|
  {
    Min(Terminated(Reverse(jobs), i), Max(limit, 0))
  }

  /** One round of the prune's loop, on the counter and on what is left to delete. */
  ghost predicate PruneStep(x: BatchJob, limit: int, kept: int, left: seq<BatchJob>, kept': int, left': seq<BatchJob>) {
    if !FinishedLive(x) then kept' == kept && left' == left
    else if kept < limit then kept' == kept + 1 && left' == left
    else kept' == kept && left != [] && left[0] == x && left' == left[1..]
  }

  /** Of a list whose first `limit` elements are kept, what is left after the first `f`. */
  lemma DropNext(all: seq<BatchJob>, f: nat, limit: int)
    requires f < |all| && FinishedLive(all[f])
    ensures var most := Max(limit, 0); var kept := Min(|all|, most);
            PruneStep(all[f], limit, Min(f, most), all[Max(f, kept)..], Min(f + 1, most), all[Max(f + 1, kept)..])
  {
  }

  lemma PruneRound(jobs: seq<BatchJob>, limit: int, i: nat)
    requires i < |jobs|
    ensures PruneStep(Reverse(jobs)[i], limit, KeptBy(jobs, limit, i), Remaining(jobs, limit, i),
                      KeptBy(jobs, limit, i + 1), Remaining(jobs, limit, i + 1))
  {
    FilterNext(FinishedLive, Reverse(jobs), i);
    if FinishedLive(Reverse(jobs)[i]) {
      DropNext(Filter(FinishedLive, Reverse(jobs)), Terminated(Reverse(jobs), i), limit);
    }
  }

  lemma RemainingEnds(jobs: seq<BatchJob>, limit: int)
    ensures KeptBy(jobs, limit, 0) == 0 && Remaining(jobs, limit, 0) == PruneDoomed(jobs, limit)
    ensures Remaining(jobs, limit, |jobs|) == []
  {
    TerminatedAll(Reverse(jobs));
  }

  /** The whole loop, round by round. */
  lemma PruneRounds(jobs: seq<BatchJob>, limit: int) returns (kept: seq<int>, left: seq<seq<BatchJob>>)
    ensures |kept| == |left| == |jobs| + 1 && kept[0] == 0
    ensures left[0] == PruneDoomed(jobs, limit) && left[|jobs|] == []
    ensures forall i :: 0 <= i < |jobs| ==>
              PruneStep(Reverse(jobs)[i], limit, kept[i], left[i], kept[i + 1], left[i + 1])
  {
    kept := seq(|jobs| + 1, i requires 0 <= i <= |jobs| => KeptBy(jobs, limit, i));
    left := seq(|jobs| + 1, i requires 0 <= i <= |jobs| => Remaining(jobs, limit, i));
    RemainingEnds(jobs, limit);
    forall i | 0 <= i < |jobs|
      ensures PruneStep(Reverse(jobs)[i], limit, kept[i], left[i], kept[i + 1], left[i + 1])
    {
      PruneRound(jobs, limit, i);
    }
  }

  /** One round of the second loop of the TTL pass. */
  ghost predicate CullStep(x: BatchJob, allowed: int, deleted: int, left: seq<BatchJob>, deleted': int,
                           left': seq<BatchJob>) {
    if Marked(x) && deleted < allowed then deleted' == deleted + 1 && left != [] && left[0] == x && left' == left[1..]
    else deleted' == deleted && left' == left
  }

  lemma CullRound(listed: seq<BatchJob>, i: nat)
    requires i < |listed|
    ensures CullStep(listed[i], |listed| - 1, CulledBy(listed, i), CullLeft(listed, i),
                     CulledBy(listed, i + 1), CullLeft(listed, i + 1))
  {
    CullNext(listed, i);
  }

  lemma CullRounds(listed: seq<BatchJob>) returns (deleted: seq<int>, left: seq<seq<BatchJob>>)
    ensures |deleted| == |left| == |listed| + 1 && deleted[0] == 0
    ensures left[0] == TtlDoomed(listed) && left[|listed|] == []
    ensures forall i :: 0 <= i < |listed| ==>
              CullStep(listed[i], |listed| - 1, deleted[i], left[i], deleted[i + 1], left[i + 1])
  {
    deleted := seq(|listed| + 1, i requires 0 <= i <= |listed| => CulledBy(listed, i));
    left := seq(|listed| + 1, i requires 0 <= i <= |listed| => CullLeft(listed, i));
    CullEnds(listed);
    forall i | 0 <= i < |listed|
      ensures CullStep(listed[i], |listed| - 1, deleted[i], left[i], deleted[i + 1], left[i + 1])
    {
      CullRound(listed, i);
    }
  }

  predicate IsResultFor(r: TtlResult, job: BatchJob, since: int) {
    r.job == job && r.shouldDelete == Marked(job) && r.delay == DelayOf(job, since)
  }

  /** Why a reconcile can have failed. */
  predicate IsReason(message: string) {
    || message == "PodProfile not found" || message == "Failed to construct batch Job manifest"
    || message == "Failed to list existing batch Jobs" || message == "Failed to create batch Job"
  }

  ghost predicate Reports(call: seq<Condition>, conds: seq<Condition>, failed: bool) {
    if failed then exists m :: IsReason(m) && call == SetFailed(conds, m) else call == conds
  }

  // ---------------------------------------------------------------- the controller

  /** A relation between the states and the ways that lead to them, closed under the steps of the system. */
  type Reach = (State, seq<Action>) -> bool

  ghost predicate Closed(build: Builder, reach: Reach) {
    forall s, acts, a {:trigger Next(build, s, a), reach(s, acts)} :: reach(s, acts) ==>
    reach(Next(build, s, a), acts + [a])
  }

  /** The smallest of them: the runs from a state. */
  function Runs(build: Builder, origin: State): (reach: Reach)
    ensures Closed(build, reach)
    ensures forall s, acts :: reach(s, acts) <==> s == Run(build, origin, acts)
  {
    var reach := (s, acts) => s == Run(build, origin, acts);
    assert Closed(build, reach) by {
      forall s, acts, a | reach(s, acts) ensures reach(Next(build, s, a), acts + [a]) {
        RunStep(build, origin, acts, a);
      }
    }
    reach
  }

  class Reconciler {
    const build: Builder
    /** The store, the queue and the clock. */
    var w: World
    /** The status conditions of the wrapper as the API server stores them. */
    var conditions: seq<Condition>
    /** The conditions that the status writes carried, one entry a call. */
    var statusCalls: seq<seq<Condition>>
    /** Where the code is, and the run that has led there. */
    ghost var pc: Phase
    ghost var acts: seq<Action>
    /** What is known of that run; the proofs of the methods need no more of it than that it is closed. */
    ghost const reach: Reach

    ghost predicate Valid()
      reads this
    {
      reach(State(w, pc), acts) && Closed(build, reach) && Unique(conditions) && AllCoherent(statusCalls)
    }

    /** The run goes on from where it was, and so do the status writes. */
    twostate predicate Continues()
      reads this
    {
      old(acts) <= acts && old(statusCalls) <= statusCalls
    }

    constructor (build: Builder, start: World)
      ensures Valid() && pc == Idle(0) && acts == [] && w == start && statusCalls == []
      ensures this.build == build && reach == Runs(build, State(start, Idle(0)))
    {
      this.build := build;
      w := start;
      conditions := [];
      statusCalls := [];
      pc := Idle(0);
      acts := [];
      reach := Runs(build, State(start, Idle(0)));
    }

    // -------------------------------------------------------------- the world outside

    /** Any number of things happen. */
    method Environment()
      requires Valid()
      modifies this`w, this`acts
      ensures Valid() && old(acts) <= acts
    {
      var n: int := *;
      n := Max(n, 0);
      for i: int := 0 to n
        invariant Valid() && old(acts) <= acts
      {
        var e: EnvAction := *;
        ghost var from := State(w, pc);
        w := EnvNext(w, e);
        Saw(from, e);
      }
    }

    /** The environment has done one. */
    ghost method Saw(from: State, e: EnvAction)
      requires reach(from, acts) && State(w, pc) == Next(build, from, Env(e))
      requires Closed(build, reach) && Unique(conditions) && AllCoherent(statusCalls)
      modifies this`acts
      ensures Valid() && acts == old(acts) + [Env(e)]
    {
      acts := acts + [Env(e)];
    }

    /** The code has done one step of the transition system. */
    ghost method Did(from: State, o: Outcome)
      requires reach(from, acts) && State(w, pc) == CtlNext(build, from, o)
      requires Closed(build, reach) && Unique(conditions) && AllCoherent(statusCalls)
      modifies this`acts
      ensures Valid() && acts == old(acts) + [Ctl(o)]
    {
      assert State(w, pc) == Next(build, from, Ctl(o));
      acts := acts + [Ctl(o)];
    }

    /** Status().Update with the conditions of the object in memory. */
    method UpdateStatus(job: seq<Condition>) returns (ok: bool)
      requires Valid() && Coherent(job)
      modifies this`w, this`acts, this`conditions, this`statusCalls
      ensures Valid() && Continues() && statusCalls == old(statusCalls) + [job]
      ensures conditions == if ok then job else old(conditions)
    {
      Environment();
      statusCalls := statusCalls + [job];
      ok := *;
      if ok {
        conditions := job;
      }
    }

    /** The update fails, or it meets a batch Job that has changed (`at` is the world it meets), or it sets the mark. */
    method AddTtlExpiredAnnotation(job: BatchJob) returns (err: bool, ghost at: World)
      requires Valid() && pc.Marking? && 0 < pc.todo <= |pc.listed| && pc.listed[pc.todo - 1] == job
      requires NeedsMark(job, pc.since)
      modifies this`w, this`pc, this`acts
      ensures Valid() && old(acts) <= acts && pc == WithTodo(old(pc), old(pc).todo - 1)
      ensures acts != [] && reach(State(at, old(pc)), acts[..|acts| - 1])
      ensures if err then w == at else job in at.jobs && w == UpdateMark(at, job)
    {
      Environment();
      at := w;
      ghost var from := State(w, pc);
      var o: Outcome := *;
      err := o != Ok || job !in w.jobs;
      if o == Ok {
        w := UpdateMark(w, job);
      }
      pc := WithTodo(pc, pc.todo - 1);
      Did(from, o);
    }

    /** The delete call fails, or it deletes the batch Job with the listed UID from the world it meets. */
    method DeleteBatchJob(job: BatchJob, why: Reason) returns (err: bool, ghost at: World)
      requires Valid() && (if why == Expired then pc.Culling? else pc.Pruning?) && pc.doomed != [] &&
               pc.doomed[0] == job
      modifies this`w, this`pc, this`acts
      ensures Valid() && old(acts) <= acts && pc == WithDoomed(old(pc), old(pc).doomed[1..])
      ensures acts != [] && reach(State(at, old(pc)), acts[..|acts| - 1])
      ensures w == if err then at else Delete(at, job.uid, why)
    {
      Environment();
      at := w;
      ghost var from := State(w, pc);
      var o: Outcome := *;
      err := o != Ok;
      if o == Ok {
        w := Delete(w, job.uid, why);
      }
      pc := WithDoomed(pc, pc.doomed[1..]);
      Did(from, o);
    }

    // -------------------------------------------------------------- the TTL pass

    /** One batch Job: marked before, or still waiting, or marked now. */
    method ProcessBatchJobTtl(since: int, job: BatchJob) returns (r: TtlResult)
      requires Valid() && pc.Marking? && pc.since == since && 0 < pc.todo <= |pc.listed| &&
               pc.listed[pc.todo - 1] == job
      modifies this`w, this`pc, this`acts
      ensures Valid() && old(acts) <= acts && pc == WithTodo(old(pc), old(pc).todo - 1)
      ensures IsResultFor(r, job, since)
    {
      ghost var from := State(w, pc);
      if Marked(job) {
        pc := WithTodo(pc, pc.todo - 1);
        Did(from, Ok);
        return TtlResult(job, true, None, false);
      }
      var expireAt := ExpireAt(job);
      if expireAt.None? {
        pc := WithTodo(pc, pc.todo - 1);
        Did(from, Ok);
        return TtlResult(job, false, None, false);
      }
      var delay := Sub(expireAt.value, since);
      if delay > 0 {
        delay := Wrap64(delay + GRACE);
        pc := WithTodo(pc, pc.todo - 1);
        Did(from, Ok);
        return TtlResult(job, false, Some(delay), false);
      }
      var err, _ := AddTtlExpiredAnnotation(job);
      return TtlResult(job, false, None, err);
    }

    /** The clock reading, and the list of the pass. */
    method ListForTtl() returns (since: int, listed: seq<BatchJob>, ok: bool)
      requires Valid() && pc.Ready?
      modifies this`w, this`pc, this`acts
      ensures Valid() && old(acts) <= acts
      ensures pc == if ok then Marking(old(pc).job, old(pc).next, since, listed, |listed|)
                    else Swept(old(pc).job, old(pc).next, since, None)
    {
      ghost var from := State(w, pc);
      since := w.now;
      pc := Clocked(pc.job, pc.next, since);
      Did(from, Ok);
      Environment();
      from := State(w, pc);
      var o: Outcome := *;
      ok, listed := o == Ok, w.jobs;
      pc := if ok then Marking(pc.job, pc.next, since, listed, |listed|) else Swept(pc.job, pc.next, since, None);
      Did(from, o);
    }

    /** The first loop of the pass, from the newest to the oldest; its results are then reversed. */
    method ProcessEach(since: int, history: seq<BatchJob>, ghost listed: seq<BatchJob>)
      returns (results: seq<TtlResult>)
      requires Valid() && pc.Marking? && pc.since == since && pc.todo == |listed| && pc.listed == listed
      requires history == Reverse(listed)
      modifies this`w, this`pc, this`acts
      ensures Valid() && old(acts) <= acts && pc == WithTodo(old(pc), 0)
      ensures |results| == |listed|
      ensures forall k :: 0 <= k < |listed| ==> IsResultFor(results[k], listed[k], since)
    {
      results := [];
      for i := 0 to |history|
        invariant Valid() && old(acts) <= acts && pc == WithTodo(old(pc), |history| - i)
        invariant |results| == i
        invariant forall k :: 0 <= k < i ==> IsResultFor(results[k], history[k], since)
      {
        var r := ProcessBatchJobTtl(since, history[i]);
        results := results + [r];
      }
      results := Reverse(results);
    }

    /** The second loop, from the oldest to the newest: the counter stops one short of all of them. */
    method CullMarked(since: int, results: seq<TtlResult>, ghost listed: seq<BatchJob>)
      returns (delays: seq<int>, err: bool)
      requires Valid() && pc.Culling? && pc.doomed == TtlDoomed(listed) && |results| == |listed|
      requires forall k :: 0 <= k < |listed| ==> IsResultFor(results[k], listed[k], since)
      modifies this`w, this`pc, this`acts
      ensures Valid() && old(acts) <= acts && pc == WithDoomed(old(pc), [])
      ensures delays == Delays(listed, since)
    {
      var deleted := 0;
      var allowDelete := |results| - 1;
      delays, err := [], false;
      ghost var done, left := CullRounds(listed);
      for i := 0 to |results|
        invariant Valid() && old(acts) <= acts
        invariant deleted == done[i] && pc == WithDoomed(old(pc), left[i])
        invariant delays == Delays(listed[..i], since)
      {
        var x := results[i];
        assert IsResultFor(x, listed[i], since) &&
               CullStep(listed[i], allowDelete, done[i], left[i], done[i + 1], left[i + 1]);
        DelaysNext(listed, i, since);
        if x.shouldDelete && deleted < allowDelete {
          deleted := deleted + 1;
          var failed, _ := DeleteBatchJob(x.job, Expired);
          err := err || failed;
        }
        if x.delay.Some? {
          delays := delays + [x.delay.value];
        }
        err := err || x.failed;
      }
      assert listed[..|listed|] == listed;
    }

    /** The whole pass. Exactly the batch Jobs of TtlDoomed get a delete call, oldest first, whether or not the calls
        before succeeded, and the delay is the shortest of those that are asked for. */
    method ProcessBatchJobsTtl() returns (delay: Option<int>, err: bool)
      requires Valid() && pc.Ready?
      modifies this`w, this`pc, this`acts
      ensures Valid() && old(acts) <= acts
      ensures pc.Swept? && pc.job == old(pc).job && pc.next == old(pc).next && pc.delay == delay
    {
      var since, listed, ok := ListForTtl();
      if !ok {
        return None, true;
      }
      var results := ProcessEach(since, Reverse(listed), listed);
      delay, err := DeleteMarked(since, results, listed);
    }

    /** The part of the pass after its first loop. */
    method DeleteMarked(since: int, results: seq<TtlResult>, ghost listed: seq<BatchJob>)
      returns (delay: Option<int>, err: bool)
      requires Valid() && pc.Marking? && pc.todo == 0 && pc.since == since && pc.listed == listed
      requires |results| == |listed| && forall k :: 0 <= k < |listed| ==> IsResultFor(results[k], listed[k], since)
      modifies this`w, this`pc, this`acts
      ensures Valid() && old(acts) <= acts
      ensures pc == Phase.Swept(old(pc).job, old(pc).next, since, delay)
    {
      StartCulling(since, listed);
      var delays;
      delays, err := CullMarked(since, results, listed);
      delay := ShortestDelay(delays);
      EndLoop();
    }

    /** Between the two loops of the pass. */
    ghost method StartCulling(since: int, listed: seq<BatchJob>)
      requires Valid() && pc.Marking? && pc.todo == 0 && pc.since == since && pc.listed == listed
      modifies this`pc, this`acts
      ensures Valid() && old(acts) <= acts
      ensures pc == Culling(old(pc).job, old(pc).next, since, RequeueDelay(listed, since), TtlDoomed(listed))
    {
      ghost var from := State(w, pc);
      pc := Culling(pc.job, pc.next, since, RequeueDelay(listed, since), TtlDoomed(listed));
      Did(from, Ok);
    }

    /** After the last deletion of a pass. */
    ghost method EndLoop()
      requires Valid() && (pc.Culling? || pc.Pruning?) && pc.doomed == []
      modifies this`pc, this`acts
      ensures Valid() && old(acts) <= acts
      ensures pc == if old(pc).Culling? then Swept(old(pc).job, old(pc).next, old(pc).since, old(pc).delay)
                    else Decide(old(pc).job, old(pc).next, old(pc).since, old(pc).delay)
    {
      ghost var from := State(w, pc);
      pc := if pc.Culling? then Swept(pc.job, pc.next, pc.since, pc.delay)
            else Decide(pc.job, pc.next, pc.since, pc.delay);
      Did(from, Ok);
    }

    // -------------------------------------------------------------- the prune

    method ListForPrune(job: Job) returns (jobs: seq<BatchJob>, ok: bool)
      requires Valid() && pc.Swept? && pc.job == job
      modifies this`w, this`pc, this`acts
      ensures Valid() && old(acts) <= acts
      ensures pc == if ok then Pruning(job, old(pc).next, old(pc).since, old(pc).delay, PruneDoomed(jobs, job.limit))
                    else Decide(job, old(pc).next, old(pc).since, old(pc).delay)
    {
      Environment();
      ghost var from := State(w, pc);
      var o: Outcome := *;
      ok, jobs := o == Ok, w.jobs;
      pc := if ok then Pruning(pc.job, pc.next, pc.since, pc.delay, PruneDoomed(jobs, job.limit))
            else Decide(pc.job, pc.next, pc.since, pc.delay);
      Did(from, o);
    }

    /** The loop of the prune. Exactly the batch Jobs of PruneDoomed get a delete call, newest first. */
    method PruneHistory(job: Job, jobs: seq<BatchJob>) returns (err: bool)
      requires Valid() && pc.Pruning? && pc.doomed == PruneDoomed(jobs, job.limit)
      modifies this`w, this`pc, this`acts
      ensures Valid() && old(acts) <= acts && pc == WithDoomed(old(pc), [])
    {
      var history := Reverse(jobs);
      var kept := 0;
      err := false;
      ghost var counts, left := PruneRounds(jobs, job.limit);
      for i := 0 to |history|
        invariant Valid() && old(acts) <= acts
        invariant kept == counts[i] && pc == WithDoomed(old(pc), left[i])
      {
        var x := history[i];
        assert PruneStep(x, job.limit, counts[i], left[i], counts[i + 1], left[i + 1]);
        if !Finished(x) || x.deleting {
          continue;
        }
        if kept < job.limit {
          kept := kept + 1;
          continue;
        }
        var failed, _ := DeleteBatchJob(x, Reason.Pruned);
        err := err || failed;
      }
    }

    method DeleteOldBatchJobs(job: Job) returns (err: bool)
      requires Valid() && pc.Swept? && pc.job == job
      modifies this`w, this`pc, this`acts
      ensures Valid() && old(acts) <= acts
      ensures pc == Decide(job, old(pc).next, old(pc).since, old(pc).delay)
    {
      var jobs, ok := ListForPrune(job);
      if !ok {
        return true;
      }
      err := PruneHistory(job, jobs);
      EndLoop();
    }

    // -------------------------------------------------------------- the create decision

    /** The status write of a collision stores the bumped count. If it fails, the write of the failure conditions,
        which comes next, carries the count as well. */
    method RecordCollision(job: Job, conds: seq<Condition>) returns (stored: bool)
      requires Valid() && pc.Bumping? && !pc.again && pc.job == job && Coherent(conds)
      modifies this
      ensures Valid() && Continues()
      ensures pc == if stored then Finishing(old(pc).since, old(pc).delay, true)
                    else Bumping(job, old(pc).since, old(pc).delay, true)
    {
      stored := UpdateStatus(conds);
      ghost var from := State(w, pc);
      if stored {
        w := UpdateCollisions(w, job);
      }
      pc := if stored then Finishing(pc.since, pc.delay, true) else Bumping(job, pc.since, pc.delay, true);
      Did(from, if stored then Ok else Fail);
    }

    /** A name that is taken bumps the collision count and is an error like any other. `unstored` says that the bumped
        count is only in memory. */
    method CreateBatchJob(job: Job, next: Manifest, conds: seq<Condition>) returns (err: bool, unstored: bool)
      requires Valid() && pc.Creating? && pc.job == job && pc.next == next && Coherent(conds)
      modifies this
      ensures Valid() && Continues() && (unstored ==> err)
      ensures pc == if unstored then Bumping(job, old(pc).since, old(pc).delay, true)
                    else Finishing(old(pc).since, old(pc).delay, err)
    {
      Environment();
      ghost var from := State(w, pc);
      var o: Outcome := *;
      match o
      case Ok =>
        w := Create(w, next);
        pc := Finishing(pc.since, pc.delay, false);
        Did(from, o);
        return false, false;
      case Exists =>
        pc := Bumping(job, pc.since, pc.delay, false);
        Did(from, o);
        var stored := RecordCollision(job, conds);
        return true, !stored;
      case Fail =>
        pc := Finishing(pc.since, pc.delay, true);
        Did(from, o);
        return true, false;
    }

    /** The failure conditions after a create call that has failed, with a bumped count that is not stored yet. */
    method ReportCreateFailure(job: Job, conds: seq<Condition>, unstored: bool)
      requires Valid() && Unique(conds)
      requires if unstored then pc.Bumping? && pc.again && pc.job == job else pc.Finishing? && pc.failed
      modifies this
      ensures Valid() && Continues() && LastWriteSays(false) && LastWriteReports(conds, true)
      ensures statusCalls == old(statusCalls) + [SetFailed(conds, "Failed to create batch Job")]
      ensures pc == Finishing(old(pc).since, old(pc).delay, true)
    {
      var written := ReportFailure(conds, "Failed to create batch Job");
      if unstored {
        ghost var from := State(w, pc);
        if written {
          w := UpdateCollisions(w, job);
        }
        pc := Finishing(pc.since, pc.delay, true);
        Did(from, if written then Ok else Fail);
      }
    }

    // -------------------------------------------------------------- Reconcile

    /** The last status write so far says whether the reconcile has succeeded. */
    ghost predicate LastWriteSays(ok: bool)
      reads this
    {
      statusCalls != [] && Says(statusCalls[|statusCalls| - 1], ok)
    }

    /** The last status write so far reports success, or one of the failures. */
    ghost predicate LastWriteReports(conds: seq<Condition>, failed: bool)
      reads this
    {
      statusCalls != [] && Reports(statusCalls[|statusCalls| - 1], conds, failed)
    }

    /** The wrapper, unless it is gone or being deleted. When it cannot be read, its queue item stays. */
    method GetJob() returns (job: Option<Job>, err: bool)
      requires Valid() && pc.Idle? && w.queued
      modifies this`w, this`pc, this`acts
      ensures Valid() && old(acts) <= acts
      ensures pc == if job.Some? then Fetched(job.value) else old(pc)
      ensures err ==> job.None? && w == old(w)
      ensures !err ==> w == old(w).(queued := false)
      ensures !err ==> (job.Some? <==> old(w).wrapper.Some? && !old(w).wrapper.value.deleting)
      ensures job.Some? ==> old(w).wrapper == job
    {
      ghost var from := State(w, pc);
      err := *;
      if err {
        return None, true;
      }
      job := w.wrapper;
      if job.Some? && job.value.deleting {
        job := None;
      }
      w := w.(queued := false);
      if job.Some? {
        pc := Fetched(job.value);
      }
      Did(from, Ok);
    }

    /** The profile, and the manifest built from it. */
    method GetManifest(job: Job) returns (next: Option<Manifest>, message: string)
      requires Valid() && pc == Fetched(job)
      modifies this`w, this`pc, this`acts
      ensures Valid() && old(acts) <= acts
      ensures if next.Some? then pc == Ready(job, next.value) else pc.Finishing? && pc.failed
      ensures next.Some? ==> job.profileRef in w.profiles && build(job, w.profiles[job.profileRef]) == next
      ensures next.None? ==>
                message == "PodProfile not found" ||
                (message == "Failed to construct batch Job manifest" && job.profileRef in w.profiles &&
                 build(job, w.profiles[job.profileRef]) == None)
    {
      Environment();
      ghost var from := State(w, pc);
      var o: Outcome := *;
      next, message := None, "PodProfile not found";
      if o == Ok && job.profileRef in w.profiles {
        next, message := build(job, w.profiles[job.profileRef]), "Failed to construct batch Job manifest";
      }
      pc := if next.Some? then Ready(job, next.value) else Finishing(w.now, None, true);
      Did(from, o);
    }

    /** The final list, and the decision about the newest live batch Job. */
    method ListAndDecide(next: Manifest) returns (create: bool, ok: bool)
      requires Valid() && pc.Decide? && pc.next == next
      modifies this`w, this`pc, this`acts
      ensures Valid() && old(acts) <= acts
      ensures pc == if ok && create then Creating(old(pc).job, next, old(pc).since, old(pc).delay)
                    else Finishing(old(pc).since, old(pc).delay, !ok)
    {
      Environment();
      ghost var from := State(w, pc);
      var o: Outcome := *;
      ok := o == Ok;
      var latest := LatestLive(w.jobs);
      create := ShouldCreate(latest, next);
      pc := if ok && create then Creating(pc.job, next, pc.since, pc.delay) else Finishing(pc.since, pc.delay, !ok);
      Did(from, o);
    }

    /** The failure conditions, written; whether that write fails does not matter. */
    method ReportFailure(conds: seq<Condition>, message: string) returns (written: bool)
      requires Valid() && Unique(conds) && IsReason(message)
      modifies this`w, this`acts, this`conditions, this`statusCalls
      ensures Valid() && Continues() && LastWriteSays(false) && LastWriteReports(conds, true)
      ensures statusCalls == old(statusCalls) + [SetFailed(conds, message)]
    {
      SetFailedSays(conds, message);
      written := UpdateStatus(SetFailed(conds, message));
    }

    /** The create call, and the failure conditions if it fails. */
    method CreateOrReport(job: Job, next: Manifest, conds: seq<Condition>) returns (failed: bool)
      requires Valid() && pc.Creating? && pc.job == job && pc.next == next && Says(conds, true)
      modifies this
      ensures Valid() && Continues() && pc == Finishing(old(pc).since, old(pc).delay, failed)
      ensures failed ==> LastWriteSays(false) && LastWriteReports(conds, true)
    {
      var unstored;
      failed, unstored := CreateBatchJob(job, next, conds);
      if failed {
        ReportCreateFailure(job, conds, unstored);
      }
    }

    /** The part of a reconcile after the passes. */
    method Conclude(job: Job, next: Manifest, conds: seq<Condition>) returns (err: bool)
      requires Valid() && pc.Decide? && pc.job == job && pc.next == next && Says(conds, true)
      modifies this
      ensures Valid() && Continues()
      ensures pc.Finishing? && pc.delay == old(pc).delay && (pc.failed ==> err) && LastWriteSays(!pc.failed)
      ensures LastWriteReports(conds, pc.failed)
      ensures !err ==> conditions == conds
    {
      var create, ok := ListAndDecide(next);
      if !ok {
        var _ := ReportFailure(conds, "Failed to list existing batch Jobs");
        return true;
      }
      if create {
        var failed := CreateOrReport(job, next, conds);
        if failed {
          return true;
        }
      }
      var written := UpdateStatus(conds);
      return !written;
    }

    /** A reconcile after its wrapper has been read: the manifest, the two passes, whose errors are dropped, and
        the rest. */
    method BuildAndRun(job: Job, conds: seq<Condition>) returns (requeueAfter: Option<int>, err: bool)
      requires Valid() && pc == Fetched(job) && Says(conds, true)
      modifies this
      ensures Valid() && Continues()
      ensures pc.Finishing? && (pc.failed ==> err) && LastWriteSays(!pc.failed) && LastWriteReports(conds, pc.failed)
      ensures !err ==> requeueAfter == pc.delay && conditions == conds
    {
      var next, message := GetManifest(job);
      if next.None? {
        var _ := ReportFailure(conds, message);
        return None, true;
      }
      var result, _ := ProcessBatchJobsTtl();
      var _ := DeleteOldBatchJobs(job);
      requeueAfter := result;
      err := Conclude(job, next.value, conds);
    }

    /** One call of Reconcile for a wrapper taken from the queue. An error is returned when the reconcile failed or
        its closing status write did; every status write is coherent and the last one says what happened. */
    method Reconcile() returns (requeueAfter: Option<int>, err: bool)
      requires Valid() && pc.Idle? && w.queued
      modifies this
      ensures Valid() && Continues()
      ensures pc.Idle? ==>
                requeueAfter == None && statusCalls == old(statusCalls) && pc == old(pc) && (err ==> w == old(w))
      ensures !pc.Idle? ==> pc.Finishing? && (pc.failed ==> err) && LastWriteSays(!pc.failed)
      ensures !pc.Idle? ==> LastWriteReports(SetOk(old(conditions)), pc.failed)
      ensures !pc.Idle? && !err ==> requeueAfter == pc.delay && Says(conditions, true)
      // A wrapper that is gone or being deleted is left alone: no call, no status write, no requeue.
      ensures old(w).wrapper.None? || old(w).wrapper.value.deleting ==>
                pc == old(pc) && w == (if err then old(w) else old(w).(queued := false)) &&
                requeueAfter == None && statusCalls == old(statusCalls) && conditions == old(conditions)
      ensures old(w).wrapper.Some? && !old(w).wrapper.value.deleting && !err ==> pc.Finishing?
    {
      var wrapper, unread := GetJob();
      if wrapper.None? {
        return None, unread;
      }
      var conds := SetOk(conditions);
      SetOkSays(conditions);
      requeueAfter, err := BuildAndRun(wrapper.value, conds);
    }

    /** What the runtime does around Reconcile: an error queues the wrapper again, a delay arms the requeue timer. */
    method ProcessNextWorkItem() returns (requeueAfter: Option<int>, err: bool)
      requires Valid() && pc.Idle?
      modifies this
      ensures Valid() && Continues() && pc.Idle?
      ensures err ==> w.queued
      ensures !err && requeueAfter.Some? ==> w.timer.Some? && w.timer.value <= w.now + requeueAfter.value
    {
      if !w.queued {
        return None, false;
      }
      requeueAfter, err := Reconcile();
      HandleResult(requeueAfter, err);
    }

    /** An error drops the delay. */
    method HandleResult(requeueAfter: Option<int>, err: bool)
      requires Valid() && (pc.Idle? || pc.Finishing?) && (pc.Idle? ==> requeueAfter == None && (err ==> w.queued))
      requires pc.Finishing? ==> (pc.failed ==> err) && (!err ==> requeueAfter == pc.delay)
      modifies this`w, this`pc, this`acts
      ensures Valid() && old(acts) <= acts && pc.Idle?
      ensures w == if err then old(w).(queued := true)
                   else old(w).(timer := Sooner(old(w).timer, DueAt(old(w).now, requeueAfter)))
    {
      ghost var from := State(w, pc);
      if err {
        w := w.(queued := true);
      } else {
        w := w.(timer := Sooner(w.timer, DueAt(w.now, requeueAfter)));
      }
      if from.pc.Finishing? {
        pc := Idle(if err then 0 else w.now - from.pc.since);
        Did(from, if err then Fail else Ok);
      }
    }
  }

  /** The controller from its start, for any number of queue items: it is never off the transition system, so every
      theorem about runs is one about this code. Two of them are spelled out. */
  method Serve(build: Builder, start: World, items: nat) returns (c: Reconciler)
    requires Init(State(start, Idle(0)))
    ensures fresh(c) && State(c.w, c.pc) == Run(build, State(start, Idle(0)), c.acts)
    ensures AllCoherent(c.statusCalls)
    ensures forall x, y :: x in c.w.jobs && y in c.w.jobs && Live(x) && Live(y) && !Finished(x) && !Finished(y) ==>
            x == y
    ensures Along(build, State(start, Idle(0)), c.acts, (t, a) => Safety.BuildsUnmarked(build, t, a)) ==>
              forall e :: e in c.w.log && e.Deleted? ==>
                Finished(e.job) && (e.why == Expired ==> Safety.TtlExpired(e.job, e.at))
  {
    c := new Reconciler(build, start);
    for i := 0 to items
      invariant fresh(c) && c.Valid() && c.pc.Idle? && c.reach == Runs(build, State(start, Idle(0)))
    {
      c.Environment();
      var _, _ := c.ProcessNextWorkItem();
    }
    CodeIsSafe(build, State(start, Idle(0)), c.w, c.pc, c.acts);
  }

  lemma CodeIsSafe(build: Builder, origin: State, w: World, pc: Phase, acts: seq<Action>)
    requires Init(origin) && Runs(build, origin)(State(w, pc), acts)
    ensures State(w, pc) == Run(build, origin, acts)
    ensures forall x, y :: x in w.jobs && y in w.jobs && Live(x) && Live(y) && !Finished(x) && !Finished(y) ==> x == y
    ensures Along(build, origin, acts, (t, a) => Safety.BuildsUnmarked(build, t, a)) ==>
              forall e :: e in w.log && e.Deleted? ==>
                Finished(e.job) && (e.why == Expired ==> Safety.TtlExpired(e.job, e.at))
  {
    forall x, y | x in w.jobs && y in w.jobs && Live(x) && Live(y) && !Finished(x) && !Finished(y) ensures x == y {
      Safety.AtMostOneUnfinished(build, origin, acts, x, y);
    }
    if Along(build, origin, acts, (t, a) => Safety.BuildsUnmarked(build, t, a)) {
      Safety.DeletionsAreJustified(build, origin, acts);
    }
  }
}
