/** What a single step can do to the batch Jobs, and what it can do without putting the wrapper into the queue. */
module Steps {
  import opened Prelude
  import opened Objects
  import opened Passes
  import opened Cluster

  // ---------------------------------------------------------------- batch Jobs only age

  /** `x` is what may have become of the batch Job `y`. */
  predicate Descends(y: BatchJob, x: BatchJob, now: int) {
    x.uid == y.uid && x.created == y.created && SameButForTheMark(y.manifest, x.manifest) && Ttl(x) == Ttl(y) &&
    (y.deleting ==> x.deleting) && (Marked(y) ==> Marked(x)) &&
    (Finished(y) ==> Finished(x) && FinishedAt(x) == FinishedAt(y)) &&
    (!Finished(y) && FinishedAt(x).Some? ==> FinishedAt(x).value == now)
  }

  ghost predicate Age(jobs: seq<BatchJob>, jobs': seq<BatchJob>, now: int) {
    (Ordered(jobs) ==> Ordered(jobs')) && forall x :: x in jobs' ==> exists y :: y in jobs && Descends(y, x, now)
  }

  lemma {:induction false} UnfinishedHasNoTime(conditions: seq<JobCondition>)
    ensures !FinishedInfoOf(conditions).finished ==> FinishedInfoOf(conditions).at == None
  {
    if conditions != [] {
      UnfinishedHasNoTime(conditions[1..]);
    }
  }

  lemma ConditionDescends(y: BatchJob, uid: nat, c: JobCondition, now: int)
    requires c.at.None? || c.at.value == now
    ensures Descends(y, WithCondition(y, uid, c), now)
    ensures Marked(WithCondition(y, uid, c)) == Marked(y)
  {
    LaterConditionsDoNotMatter(y.conditions, c);
    UnfinishedHasNoTime(y.conditions);
  }

  lemma SubsetAges(jobs: seq<BatchJob>, p: BatchJob -> bool, now: int)
    ensures Age(jobs, Filter(p, jobs), now)
  {
    if Ordered(jobs) {
      FilterOrdered(p, jobs);
    }
    forall x | x in jobs ensures Descends(x, x, now) {
      UnfinishedHasNoTime(x.conditions);
    }
  }

  lemma MapAges(jobs: seq<BatchJob>, f: BatchJob -> BatchJob, now: int)
    requires forall y :: y in jobs ==> Descends(y, f(y), now)
    ensures Age(jobs, Map(f, jobs), now)
  {
    var r := Map(f, jobs);
    forall x | x in r ensures exists y :: y in jobs && Descends(y, x, now) {
      var i :| 0 <= i < |r| && r[i] == x;
      assert Descends(jobs[i], x, now);
    }
    if Ordered(jobs) {
      forall i, k | 0 <= i < k < |r| ensures r[i].uid < r[k].uid {
        assert Descends(jobs[i], r[i], now) && Descends(jobs[k], r[k], now) && jobs[i].uid < jobs[k].uid;
      }
    }
  }

  lemma MarkAges(jobs: seq<BatchJob>, j: BatchJob, now: int)
    ensures Age(jobs, Replace(jobs, j, WithMark(j)), now)
    ensures Age(jobs, jobs, now)
  {
    var f := (x: BatchJob) => if x == j then WithMark(j) else x;
    MarkChangesOnlyTheMark(j);
    forall y | y in jobs ensures Descends(y, f(y), now) {
      UnfinishedHasNoTime(y.conditions);
    }
    MapAges(jobs, f, now);
    assert Replace(jobs, j, WithMark(j)) == Map(f, jobs);
    Unchanged(jobs, now);
  }

  lemma ReportAges(w: World, uid: nat, c: JobCondition)
    requires c.at.None? || c.at.value == w.now
    ensures Age(w.jobs, Map(Reporting(uid, c), w.jobs), w.now)
  {
    forall y | y in w.jobs ensures Descends(y, Reporting(uid, c)(y), w.now) {
      ConditionDescends(y, uid, c, w.now);
    }
    MapAges(w.jobs, Reporting(uid, c), w.now);
  }

  lemma BeginDeleteAges(w: World, uid: nat)
    ensures Age(w.jobs, Map(Deleting(uid), w.jobs), w.now)
  {
    forall y | y in w.jobs ensures Descends(y, Deleting(uid)(y), w.now) {
      UnfinishedHasNoTime(y.conditions);
    }
    MapAges(w.jobs, Deleting(uid), w.now);
  }

  lemma EnvAges(w: World, e: EnvAction)
    ensures Age(w.jobs, EnvNext(w, e).jobs, EnvNext(w, e).now)
  {
    if e.Report? && Present(w.jobs, e.uid) && (e.condition.at.None? || e.condition.at.value == w.now) {
      ReportAges(w, e.uid, e.condition);
    } else if e.BeginDelete? && Present(w.jobs, e.uid) {
      BeginDeleteAges(w, e.uid);
    } else if e.Remove? {
      SubsetAges(w.jobs, Except(e.uid), w.now);
    } else {
      Unchanged(w.jobs, EnvNext(w, e).now);
      assert EnvNext(w, e).jobs == w.jobs;
    }
  }

  lemma Unchanged(jobs: seq<BatchJob>, now: int)
    ensures Age(jobs, jobs, now)
  {
    forall x | x in jobs ensures Descends(x, x, now) {
      UnfinishedHasNoTime(x.conditions);
    }
  }

  /** The one step that adds a batch Job. */
  predicate Creates(s: State, a: Action) {
    s.pc.Creating? && a == Ctl(Ok)
  }

  /** A call of the controller that changes batch Jobs. */
  datatype Call = Add(job: BatchJob) | Mark(job: BatchJob) | Kill(job: BatchJob) | NoCall

  function CallOf(s: State, o: Outcome): Call {
    if o != Ok then NoCall
    else if s.pc.Creating? then Add(NewJob(s.w.serial, s.pc.next))
    else if s.pc.Marking? && 0 < s.pc.todo <= |s.pc.listed| && NeedsMark(s.pc.listed[s.pc.todo - 1], s.pc.since) then
      Mark(s.pc.listed[s.pc.todo - 1])
    else if (s.pc.Culling? || s.pc.Pruning?) && s.pc.doomed != [] then Kill(s.pc.doomed[0])
    else NoCall
  }

  function Perform(c: Call, jobs: seq<BatchJob>): seq<BatchJob> {
    match c
    case Add(x) => jobs + [x]
    case Mark(x) => if x in jobs then Replace(jobs, x, WithMark(x)) else jobs
    case Kill(x) => Erase(jobs, {x.uid})
    case NoCall => jobs
  }

  /** The batch Jobs after a controller step. */
  function JobsAfter(s: State, o: Outcome): seq<BatchJob> {
    Perform(CallOf(s, o), s.w.jobs)
  }

  lemma CtlJobs(build: Builder, s: State, o: Outcome)
    ensures CtlNext(build, s, o).w.jobs == JobsAfter(s, o)
    ensures CtlNext(build, s, o).w.now == s.w.now && CtlNext(build, s, o).w.profiles == s.w.profiles
    ensures CtlNext(build, s, o).w.serial == s.w.serial + if CallOf(s, o).Add? then 1 else 0
  {
  }

  lemma CallAges(c: Call, jobs: seq<BatchJob>, now: int)
    requires !c.Add?
    ensures Age(jobs, Perform(c, jobs), now)
  {
    match c
    case Mark(x) => MarkAges(jobs, x, now);
    case Kill(x) => SubsetAges(jobs, Spares({x.uid}), now);
    case NoCall => Unchanged(jobs, now);
  }

  /** Every other step ages the batch Jobs. */
  lemma StepAges(build: Builder, s: State, a: Action)
    requires !Creates(s, a)
    ensures Age(s.w.jobs, Next(build, s, a).w.jobs, Next(build, s, a).w.now)
    ensures s.w.serial <= Next(build, s, a).w.serial && s.w.now <= Next(build, s, a).w.now
  {
    match a
    case Env(e) => EnvAges(s.w, e);
    case Restart => Unchanged(s.w.jobs, s.w.now);
    case Ctl(o) =>
      CtlJobs(build, s, o);
      CallAges(CallOf(s, o), s.w.jobs, s.w.now);
  }

  // ---------------------------------------------------------------- what leaves the queue alone

  /** A step that leaves the wrapper out of the queue changes no batch Job, adds none, and removes none but
      marked ones. */
  ghost predicate Quiet(jobs: seq<BatchJob>, jobs': seq<BatchJob>) {
    (forall x :: x in jobs' ==> x in jobs) && (forall x :: x in jobs && x !in jobs' ==> Marked(x))
  }

  /** A profile changes and the handler of its event fails to list the wrappers. */
  predicate LosesProfileEvent(e: EnvAction) {
    e.SetProfile? && !e.seen
  }

  lemma EnvIsQuiet(build: Builder, w: World, e: EnvAction)
    requires !EnvNext(w, e).queued
    ensures !w.queued && EnvNext(w, e).timer == w.timer
    ensures EnvNext(w, e).wrapper == w.wrapper
    ensures !LosesProfileEvent(e) ==> Desired(build, EnvNext(w, e)) == Desired(build, w)
    ensures !LosesProfileEvent(e) && w.wrapper.Some? ==>
              BuildFor(build, w.wrapper.value, EnvNext(w, e).profiles) == BuildFor(build, w.wrapper.value, w.profiles)
    ensures Quiet(w.jobs, EnvNext(w, e).jobs)
    ensures !e.Remove? ==> EnvNext(w, e).jobs == w.jobs
  {
  }
}
