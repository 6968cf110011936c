/** With the clock and the environment standing still and no API call failing, one reconcile is a function of the
    batch Jobs, and two of them reach a fixpoint from any store state. */
module Convergence {
  import opened Prelude
  import opened Objects
  import opened Construct
  import opened Passes
  import opened PassFacts
  import opened Cluster

  datatype Store = Store(jobs: seq<BatchJob>, serial: nat)

  // ---------------------------------------------------------------- one undisturbed reconcile

  function AfterTtlPass(jobs: seq<BatchJob>, now: int): seq<BatchJob> {
    Erase(MarkAll(jobs, now), Uids(TtlDoomed(jobs)))
  }

  function AfterPrune(jobs: seq<BatchJob>, limit: int): seq<BatchJob> {
    Erase(jobs, Uids(PruneDoomed(jobs, limit)))
  }

  function Decided(st: Store, next: Manifest): Store {
    if ShouldCreate(LatestLive(st.jobs), next) then Store(st.jobs + [NewJob(st.serial, next)], st.serial + 1) else st
  }

  function Reconciled(st: Store, now: int, next: Manifest, limit: int): Store {
    Decided(Store(AfterPrune(AfterTtlPass(st.jobs, now), limit), st.serial), next)
  }

  // ---------------------------------------------------------------- and that is what the controller's steps do

  /** The oldest `todo` batch Jobs as they were, the others marked where necessary. */
  function MarkedFrom(jobs: seq<BatchJob>, todo: nat, now: int): (r: seq<BatchJob>)
    ensures |r| == |jobs|
  {
    seq(|jobs|, i requires 0 <= i < |jobs| => if i < todo then jobs[i] else MarkOne(jobs[i], now))
  }

  /** Where an undisturbed reconcile of `st` is. */
  predicate Calm(st: Store, now: int, next: Manifest, limit: int, s: State) {
    var swept := AfterTtlPass(st.jobs, now);
    var pruned := AfterPrune(swept, limit);
    && s.w.now == now
    && (s.pc.Finishing? || (s.w.serial == st.serial && HoldsManifest(s.pc) && s.pc.next == next &&
                            s.pc.job.limit == limit))
    && (HoldsDelay(s.pc) ==> s.pc.delay == RequeueDelay(st.jobs, now))
    && match s.pc
       case Ready(_, _) => s.w.jobs == st.jobs
       case Clocked(_, _, since) => since == now && s.w.jobs == st.jobs
       case Marking(_, _, since, listed, todo) =>
         since == now && listed == st.jobs && todo <= |listed| && s.w.jobs == MarkedFrom(st.jobs, todo, now)
       case Culling(_, _, _, _, doomed) => Erase(s.w.jobs, Uids(doomed)) == swept
       case Swept(_, _, _, _) => s.w.jobs == swept
       case Pruning(_, _, _, _, doomed) => Erase(s.w.jobs, Uids(doomed)) == pruned
       case Decide(_, _, _, _) => s.w.jobs == pruned
       case Creating(_, _, _, _) => s.w.jobs == pruned && ShouldCreate(LatestLive(pruned), next)
       case Finishing(_, _, failed) => !failed && Store(s.w.jobs, s.w.serial) == Reconciled(st, now, next, limit)
       case _ => false
  }

  /** The phases in order, and how far the loop of a phase still has to go. */
  function Rank(pc: Phase): nat {
    match pc
    case Ready(_, _) => 8
    case Clocked(_, _, _) => 7
    case Marking(_, _, _, _, _) => 6
    case Culling(_, _, _, _, _) => 5
    case Swept(_, _, _, _) => 4
    case Pruning(_, _, _, _, _) => 3
    case Decide(_, _, _, _) => 2
    case Creating(_, _, _, _) => 1
    case _ => 0
  }

  function Left(pc: Phase): nat {
    if pc.Marking? then pc.todo else if pc.Culling? || pc.Pruning? then |pc.doomed| else 0
  }

  lemma MarkStepCalm(jobs: seq<BatchJob>, todo: nat, now: int)
    requires Ordered(jobs) && 0 < todo <= |jobs|
    ensures var j := jobs[todo - 1];
            MarkedFrom(jobs, todo - 1, now) ==
            if NeedsMark(j, now) then Replace(MarkedFrom(jobs, todo, now), j, WithMark(j))
            else MarkedFrom(jobs, todo, now)
    ensures jobs[todo - 1] in MarkedFrom(jobs, todo, now)
  {
    var from := MarkedFrom(jobs, todo, now);
    assert from[todo - 1] == jobs[todo - 1];
    forall i | 0 <= i < |jobs| && i != todo - 1 ensures from[i] != jobs[todo - 1] {
      assert jobs[i].uid != jobs[todo - 1].uid;
    }
  }

  lemma MarksOne(build: Builder, s: State)
    requires s.pc.Marking? && 0 < s.pc.todo <= |s.pc.listed|
    ensures var t, j := CtlNext(build, s, Ok), s.pc.listed[s.pc.todo - 1];
            t.pc == WithTodo(s.pc, s.pc.todo - 1) && t.w.now == s.w.now && t.w.serial == s.w.serial &&
            t.w.jobs == if NeedsMark(j, s.pc.since) && j in s.w.jobs then Replace(s.w.jobs, j, WithMark(j))
                        else s.w.jobs
  {
  }

  /** In the marking loop. */
  predicate CalmMarks(st: Store, now: int, next: Manifest, limit: int, s: State) {
    && s.w.now == now && s.w.serial == st.serial
    && s.pc.Marking? && s.pc.next == next && s.pc.job.limit == limit
    && s.pc.since == now && s.pc.listed == st.jobs && s.pc.todo <= |s.pc.listed|
    && s.w.jobs == MarkedFrom(st.jobs, s.pc.todo, now)
  }

  lemma CalmMarksIsCalm(st: Store, now: int, next: Manifest, limit: int, s: State)
    requires s.pc.Marking?
    ensures Calm(st, now, next, limit, s) <==> CalmMarks(st, now, next, limit, s)
  {
  }

  lemma CalmMarksOn(build: Builder, st: Store, now: int, next: Manifest, limit: int, s: State)
    requires Ordered(st.jobs) && CalmMarks(st, now, next, limit, s) && s.pc.todo > 0
    ensures CalmMarks(st, now, next, limit, CtlNext(build, s, Ok))
  {
    MarksOne(build, s);
    MarkStepCalm(st.jobs, s.pc.todo, now);
  }

  lemma CalmMarkingOn(build: Builder, st: Store, now: int, next: Manifest, limit: int, s: State)
    requires Ordered(st.jobs) && s.pc.Marking? && s.pc.todo > 0 && Calm(st, now, next, limit, s)
    ensures Calm(st, now, next, limit, CtlNext(build, s, Ok))
  {
    CalmMarksIsCalm(st, now, next, limit, s);
    CalmMarksOn(build, st, now, next, limit, s);
    CalmMarksIsCalm(st, now, next, limit, CtlNext(build, s, Ok));
  }

  lemma CalmMarkingEnds(build: Builder, st: Store, now: int, next: Manifest, limit: int, s: State)
    requires s.pc.Marking? && s.pc.todo == 0 && Calm(st, now, next, limit, s)
    ensures Calm(st, now, next, limit, CtlNext(build, s, Ok))
  {
    assert s.w.jobs == MarkAll(st.jobs, now);
  }

  lemma CalmErasing(build: Builder, st: Store, now: int, next: Manifest, limit: int, s: State)
    requires (s.pc.Culling? || s.pc.Pruning?) && Calm(st, now, next, limit, s)
    ensures Calm(st, now, next, limit, CtlNext(build, s, Ok))
  {
    if s.pc.doomed == [] {
      assert Uids(s.pc.doomed) == {};
      EraseNothing(s.w.jobs);
    } else {
      EraseHead(s.w.jobs, s.pc.doomed);
    }
  }

  lemma CalmListing(build: Builder, st: Store, now: int, next: Manifest, limit: int, s: State)
    requires (s.pc.Ready? || s.pc.Clocked?) && Calm(st, now, next, limit, s)
    ensures Calm(st, now, next, limit, CtlNext(build, s, Ok))
  {
    assert MarkedFrom(st.jobs, |st.jobs|, now) == st.jobs;
  }

  lemma CalmSwept(build: Builder, st: Store, now: int, next: Manifest, limit: int, s: State)
    requires s.pc.Swept? && Calm(st, now, next, limit, s)
    ensures Calm(st, now, next, limit, CtlNext(build, s, Ok))
  {
  }

  lemma CalmDecision(build: Builder, st: Store, now: int, next: Manifest, limit: int, s: State)
    requires s.pc.Decide? && Calm(st, now, next, limit, s)
    ensures Calm(st, now, next, limit, CtlNext(build, s, Ok))
  {
  }

  lemma CreationIsDecided(w: World, next: Manifest)
    requires ShouldCreate(LatestLive(w.jobs), next)
    ensures Store(Create(w, next).jobs, Create(w, next).serial) == Decided(Store(w.jobs, w.serial), next)
  {
  }

  lemma CalmCreation(build: Builder, st: Store, now: int, next: Manifest, limit: int, s: State)
    requires s.pc.Creating? && Calm(st, now, next, limit, s)
    ensures Calm(st, now, next, limit, CtlNext(build, s, Ok))
  {
    CreationIsDecided(s.w, next);
    assert CtlNext(build, s, Ok) == State(Create(s.w, next), Finishing(s.pc.since, s.pc.delay, false));
  }

  lemma CalmStep(build: Builder, st: Store, now: int, next: Manifest, limit: int, s: State)
    requires Ordered(st.jobs) && Calm(st, now, next, limit, s) && !s.pc.Finishing?
    ensures Calm(st, now, next, limit, CtlNext(build, s, Ok))
  {
    if s.pc.Marking? && s.pc.todo == 0 {
      CalmMarkingEnds(build, st, now, next, limit, s);
    } else if s.pc.Marking? {
      CalmMarkingOn(build, st, now, next, limit, s);
    } else if s.pc.Culling? || s.pc.Pruning? {
      CalmErasing(build, st, now, next, limit, s);
    } else if s.pc.Ready? || s.pc.Clocked? {
      CalmListing(build, st, now, next, limit, s);
    } else if s.pc.Swept? {
      CalmSwept(build, st, now, next, limit, s);
    } else if s.pc.Decide? {
      CalmDecision(build, st, now, next, limit, s);
    } else {
      CalmCreation(build, st, now, next, limit, s);
    }
  }

  /** A step comes nearer to the end and leaves the wrapper and the profiles alone. */
  predicate Advances(s: State, t: State) {
    && (Rank(t.pc) < Rank(s.pc) || (Rank(t.pc) == Rank(s.pc) && Left(t.pc) < Left(s.pc)))
    && SameInputs(s.w, t.w)
  }

  /** What the controller reads besides batch Jobs and the clock, and the timer, are as they were. */
  predicate SameInputs(w: World, w': World) {
    w'.wrapper == w.wrapper && w'.profiles == w.profiles && w'.timer == w.timer
  }

  lemma CalmStepAdvances(build: Builder, s: State)
    requires HoldsManifest(s.pc) && (s.pc.Marking? ==> s.pc.todo <= |s.pc.listed|)
    ensures Advances(s, Next(build, s, Ctl(Ok)))
  {
  }

  /** What every undisturbed step keeps holds when a phase is reached at which to stop. */
  lemma {:induction false} Drive(build: Builder, inv: State -> bool, stop: Phase -> bool, s: State)
    returns (acts: seq<Action>, t: State)
    requires inv(s)
    requires forall u: State :: inv(u) && !stop(u.pc) ==>
               inv(Next(build, u, Ctl(Ok))) && Advances(u, Next(build, u, Ctl(Ok)))
    ensures t == Run(build, s, acts) && forall a :: a in acts ==> a == Ctl(Ok)
    ensures stop(t.pc) && inv(t) && SameInputs(s.w, t.w)
    decreases Rank(s.pc), Left(s.pc)
  {
    if stop(s.pc) {
      acts, t := [], s;
    } else {
      acts, t := Drive(build, inv, stop, Next(build, s, Ctl(Ok)));
      RunFrom(build, s, Ctl(Ok), acts);
      acts := [Ctl(Ok)] + acts;
    }
  }

  predicate IsFinishing(pc: Phase) {
    pc.Finishing?
  }

  /** The steps from the TTL pass to the end of a reconcile compute `Reconciled`. */
  lemma CalmRun(build: Builder, st: Store, now: int, next: Manifest, limit: int, stop: Phase -> bool, s: State)
    returns (acts: seq<Action>, t: State)
    requires Ordered(st.jobs) && Calm(st, now, next, limit, s) && forall pc: Phase :: pc.Finishing? ==> stop(pc)
    ensures t == Run(build, s, acts) && forall a :: a in acts ==> a == Ctl(Ok)
    ensures stop(t.pc) && Calm(st, now, next, limit, t) && SameInputs(s.w, t.w)
  {
    var inv := u => Calm(st, now, next, limit, u);
    forall u: State | inv(u) && !stop(u.pc)
      ensures inv(Next(build, u, Ctl(Ok))) && Advances(u, Next(build, u, Ctl(Ok)))
    {
      CalmStep(build, st, now, next, limit, u);
      CalmStepAdvances(build, u);
    }
    acts, t := Drive(build, inv, stop, s);
  }

  /** Half of the way: to the list of the prune. */
  lemma CalmToSwept(build: Builder, st: Store, now: int, next: Manifest, limit: int, s: State)
    returns (acts: seq<Action>, t: State)
    requires Ordered(st.jobs) && Calm(st, now, next, limit, s) && s.pc.Ready?
    ensures t == Run(build, s, acts) && forall a :: a in acts ==> a == Ctl(Ok)
    ensures t.pc.Swept? && Calm(st, now, next, limit, t)
  {
    var inv := u => Calm(st, now, next, limit, u) && Rank(u.pc) >= 4;
    var stop := (pc: Phase) => pc.Swept?;
    forall u: State | inv(u) && !stop(u.pc)
      ensures inv(Next(build, u, Ctl(Ok))) && Advances(u, Next(build, u, Ctl(Ok)))
    {
      CalmStep(build, st, now, next, limit, u);
      CalmStepAdvances(build, u);
      BeforeSwept(build, u);
    }
    acts, t := Drive(build, inv, stop, s);
  }

  lemma BeforeSwept(build: Builder, s: State)
    requires Rank(s.pc) > 4
    ensures Rank(Next(build, s, Ctl(Ok)).pc) >= 4
  {
  }

  lemma {:induction false} RunFrom(build: Builder, s: State, a: Action, acts: seq<Action>)
    ensures Run(build, s, [a] + acts) == Run(build, Next(build, s, a), acts)
  {
    if acts == [] {
      assert [a] + acts == [a] && [a][..0] == [];
      assert Run(build, s, [a]) == Next(build, Run(build, s, []), a);
    } else {
      var n := |acts| - 1;
      assert ([a] + acts)[..n + 1] == [a] + acts[..n];
      RunFrom(build, s, a, acts[..n]);
    }
  }

  /** The wrapper is queued now and then, the controller works, and nothing else happens. */
  predicate Undisturbed(acts: seq<Action>) {
    forall a :: a in acts ==> a == Ctl(Ok) || a == Env(Requeue)
  }

  /** What an undisturbed reconcile starts from: the batch Jobs, the clock, and what it will read. */
  predicate StartsFrom(build: Builder, s: State, st: Store, now: int, next: Manifest, limit: int) {
    && s.pc.Idle? && Active(s.w) && s.w.wrapper.value.limit == limit && Desired(build, s.w) == Some(next)
    && s.w.now == now && Store(s.w.jobs, s.w.serial) == st
  }

  /** Two steps before a run, and one after it. */
  lemma Around(build: Builder, s: State, a: Action, rest: seq<Action>) returns (acts: seq<Action>)
    ensures Run(build, s, acts) == Next(build, Run(build, Next(build, Next(build, s, a), a), rest), a)
    ensures acts != [] && forall x :: x in acts ==> x == a || x in rest
  {
    RunStep(build, Next(build, Next(build, s, a), a), rest, a);
    RunFrom(build, Next(build, s, a), a, rest + [a]);
    RunFrom(build, s, a, [a] + (rest + [a]));
    acts := [a] + ([a] + (rest + [a]));
  }

  /** A reconcile, from the queue and back, undisturbed. */
  lemma CalmReconcile(build: Builder, s: State, st: Store, now: int, next: Manifest, limit: int)
    returns (acts: seq<Action>, u: State)
    requires StartsFrom(build, s, st, now, next, limit) && s.w.queued && Ordered(st.jobs)
    ensures u == Run(build, s, acts) && acts != [] && forall a :: a in acts ==> a == Ctl(Ok)
    ensures StartsFrom(build, u, Reconciled(st, now, next, limit), now, next, limit)
    ensures u.w.wrapper == s.w.wrapper && u.w.profiles == s.w.profiles
    ensures u.w.timer == Sooner(s.w.timer, DueAt(now, RequeueDelay(st.jobs, now)))
  {
    var s1, s2 := CalmStart(build, s);
    var rest, t := CalmRun(build, st, now, next, limit, IsFinishing, s2);
    u := Next(build, t, Ctl(Ok));
    acts := Around(build, s, Ctl(Ok), rest);
    CalmEnd(build, t);
    DesiredStays(build, s.w, u.w);
  }

  /** From the queue to the list of the prune. */
  lemma CalmToList(build: Builder, s: State, st: Store, now: int, next: Manifest, limit: int)
    returns (acts: seq<Action>, t: State)
    requires StartsFrom(build, s, st, now, next, limit) && s.w.queued && Ordered(st.jobs)
    ensures t == Run(build, s, acts) && forall a :: a in acts ==> a == Ctl(Ok)
    ensures t.pc.Swept? && Calm(st, now, next, limit, t)
  {
    var s1, s2 := CalmStart(build, s);
    acts, t := CalmToSwept(build, st, now, next, limit, s2);
    acts := TwoBefore(build, s, Ctl(Ok), acts);
  }

  lemma TwoBefore(build: Builder, s: State, a: Action, rest: seq<Action>) returns (acts: seq<Action>)
    ensures Run(build, s, acts) == Run(build, Next(build, Next(build, s, a), a), rest)
    ensures forall x :: x in acts ==> x == a || x in rest
  {
    RunFrom(build, Next(build, s, a), a, rest);
    RunFrom(build, s, a, [a] + rest);
    acts := [a] + ([a] + rest);
  }

  /** From the manifest to the end. */
  lemma CalmFromReady(build: Builder, s: State, st: Store, now: int, next: Manifest, limit: int)
    returns (acts: seq<Action>, t: State)
    requires Ordered(st.jobs) && Calm(st, now, next, limit, s) && s.pc.Ready?
    ensures t == Run(build, s, acts) && forall a :: a in acts ==> a == Ctl(Ok)
    ensures t.pc.Idle? && t.w.now == now && Store(t.w.jobs, t.w.serial) == Reconciled(st, now, next, limit)
  {
    var rest, u := CalmRun(build, st, now, next, limit, IsFinishing, s);
    CalmEnd(build, u);
    t := Next(build, u, Ctl(Ok));
    RunStep(build, s, rest, Ctl(Ok));
    acts := rest + [Ctl(Ok)];
  }

  lemma CalmStart(build: Builder, s: State) returns (s1: State, s2: State)
    requires s.pc.Idle? && s.w.queued && Active(s.w) && Desired(build, s.w).Some?
    ensures s1 == Next(build, s, Ctl(Ok)) && s2 == Next(build, s1, Ctl(Ok))
    ensures s2 == State(s.w.(queued := false), Ready(s.w.wrapper.value, Desired(build, s.w).value))
  {
    s1 := State(s.w.(queued := false), Fetched(s.w.wrapper.value));
    s2 := State(s.w.(queued := false), Ready(s.w.wrapper.value, Desired(build, s.w).value));
  }

  lemma CalmEnd(build: Builder, t: State)
    requires t.pc.Finishing? && !t.pc.failed
    ensures var u := Next(build, t, Ctl(Ok));
            u.pc.Idle? && u.w.jobs == t.w.jobs && u.w.serial == t.w.serial && u.w.now == t.w.now &&
            u.w.wrapper == t.w.wrapper && u.w.profiles == t.w.profiles &&
            u.w.timer == Sooner(t.w.timer, DueAt(t.w.now, t.pc.delay))
  {
  }

  // ---------------------------------------------------------------- the fixpoint

  ghost predicate WellFormed(st: Store) {
    Ordered(st.jobs) && forall x :: x in st.jobs ==> x.uid < st.serial
  }

  ghost predicate AllDeleting(jobs: seq<BatchJob>) {
    forall x :: x in jobs ==> x.deleting
  }

  /** Nothing to mark, nothing to delete that is not in deletion already, nothing to create. */
  ghost predicate AtRest(st: Store, now: int, next: Manifest, limit: int) {
    && (forall x :: x in st.jobs ==> !NeedsMark(x, now))
    && AllDeleting(TtlDoomed(st.jobs))
    && PruneDoomed(st.jobs, limit) == []
    && !ShouldCreate(LatestLive(st.jobs), next)
  }

  lemma MarkAllKeeps(jobs: seq<BatchJob>, now: int)
    ensures Ordered(jobs) ==> Ordered(MarkAll(jobs, now))
    ensures forall x :: x in MarkAll(jobs, now) ==>
              !NeedsMark(x, now) && exists y :: y in jobs && y.uid == x.uid && y.deleting == x.deleting
    ensures (forall x :: x in jobs ==> !NeedsMark(x, now)) ==> MarkAll(jobs, now) == jobs
  {
    var r := MarkAll(jobs, now);
    forall x | x in r
      ensures !NeedsMark(x, now) && exists y :: y in jobs && y.uid == x.uid && y.deleting == x.deleting
    {
      var i :| 0 <= i < |r| && r[i] == x;
      MarkChangesOnlyTheMark(jobs[i]);
      assert jobs[i] in jobs;
    }
    if Ordered(jobs) {
      forall i, k | 0 <= i < k < |r| ensures r[i].uid < r[k].uid {
        assert r[i].uid == jobs[i].uid && r[k].uid == jobs[k].uid;
      }
    }
  }

  lemma ErasingShrinks(jobs: seq<BatchJob>, uids: set<nat>)
    ensures |Filter(FinishedLive, Erase(jobs, uids))| <= |Filter(FinishedLive, jobs)|
  {
    FilterCommutes(FinishedLive, Spares(uids), jobs);
  }

  lemma PruneLeavesLimit(jobs: seq<BatchJob>, limit: int)
    requires Ordered(jobs)
    ensures |Filter(FinishedLive, AfterPrune(jobs, limit))| <= Max(limit, 0)
  {
    PruneIsExact(jobs, limit);
    FilterReverse(FinishedLive, AfterPrune(jobs, limit));
  }

  /** What the batch Jobs are like after the passes, before the decision. */
  lemma PassesKeep(st: Store, now: int, limit: int)
    requires WellFormed(st)
    ensures var jobs := AfterPrune(AfterTtlPass(st.jobs, now), limit);
      && WellFormed(Store(jobs, st.serial))
      && (forall x :: x in jobs ==> !NeedsMark(x, now))
      && |Filter(FinishedLive, jobs)| <= Max(limit, 0)
  {
    MarkAllKeeps(st.jobs, now);
    var marked, swept := MarkAll(st.jobs, now), AfterTtlPass(st.jobs, now);
    forall x | x in marked ensures x.uid < st.serial {
      var y :| y in st.jobs && y.uid == x.uid && y.deleting == x.deleting;
    }
    FilterOrdered(Spares(Uids(TtlDoomed(st.jobs))), marked);
    FilterOrdered(Spares(Uids(PruneDoomed(swept, limit))), swept);
    PruneLeavesLimit(swept, limit);
  }

  lemma DecidedKeeps(st: Store, now: int, next: Manifest, limit: int)
    requires WellFormed(st) && (forall x :: x in st.jobs ==> !NeedsMark(x, now))
    requires |Filter(FinishedLive, st.jobs)| <= Max(limit, 0)
    ensures var r := Decided(st, next);
      && WellFormed(r)
      && (forall x :: x in r.jobs ==> !NeedsMark(x, now))
      && PruneDoomed(r.jobs, limit) == []
      && !ShouldCreate(LatestLive(r.jobs), next)
  {
    var n := NewJob(st.serial, next);
    FilterSnoc(FinishedLive, st.jobs, n);
    PruneDoomedIsEmptyIff(Decided(st, next).jobs, limit);
    assert !Finished(n) && Live(n);
    if ShouldCreate(LatestLive(st.jobs), next) {
      assert LatestLive(st.jobs + [n]) == Some(n);
    }
  }

  /** After one reconcile everything is at rest but the marks it has set, and the newest is what is desired. */
  lemma OneReconcile(st: Store, now: int, next: Manifest, limit: int)
    requires WellFormed(st)
    ensures var r := Reconciled(st, now, next, limit);
      && WellFormed(r)
      && (forall x :: x in r.jobs ==> !NeedsMark(x, now))
      && PruneDoomed(r.jobs, limit) == []
      && !ShouldCreate(LatestLive(r.jobs), next)
  {
    PassesKeep(st, now, limit);
    DecidedKeeps(Store(AfterPrune(AfterTtlPass(st.jobs, now), limit), st.serial), now, next, limit);
  }

  /** The next reconcile only deletes marked batch Jobs before its decision. */
  lemma SecondPasses(st: Store, now: int, limit: int)
    requires WellFormed(st) && (forall x :: x in st.jobs ==> !NeedsMark(x, now)) && PruneDoomed(st.jobs, limit) == []
    ensures AfterPrune(AfterTtlPass(st.jobs, now), limit) == Erase(st.jobs, Uids(TtlDoomed(st.jobs)))
  {
    MarkAllKeeps(st.jobs, now);
    var swept := Erase(st.jobs, Uids(TtlDoomed(st.jobs)));
    ErasingShrinks(st.jobs, Uids(TtlDoomed(st.jobs)));
    PruneDoomedIsEmptyIff(st.jobs, limit);
    PruneDoomedIsEmptyIff(swept, limit);
    assert Uids(PruneDoomed(swept, limit)) == {};
    EraseNothing(swept);
  }

  /** All marked: of the older ones only those remain that are in deletion already. */
  lemma AllMarkedLeavesNewest(jobs: seq<BatchJob>, left: seq<BatchJob>)
    requires Ordered(jobs) && jobs != [] && (forall x :: x in jobs ==> Marked(x))
    requires left == Erase(jobs, Uids(TtlDoomed(jobs)))
    ensures LastOfTheMarked(left, jobs[|jobs| - 1])
  {
    var n := |jobs| - 1;
    TtlDoomsAllMarkedOrSparesNewest(jobs);
    NewestIsNotOlder(jobs);
    FilterLast(Spares(Uids(jobs[..n])), jobs);
  }

  lemma NewestIsNotOlder(jobs: seq<BatchJob>)
    requires Ordered(jobs) && jobs != []
    ensures jobs[|jobs| - 1].uid !in Uids(jobs[..|jobs| - 1])
  {
    forall x | x in jobs[..|jobs| - 1] ensures x.uid < jobs[|jobs| - 1].uid {
      var k :| 0 <= k < |jobs| - 1 && jobs[k] == x;
    }
  }

  /** From any store state two reconciles reach a state in which a third marks, deletes and creates nothing, whatever
      the limit and whatever mix of marked, expired and differently hashed batch Jobs there was. */
  lemma TwoReconcilesSuffice(st: Store, now: int, next: Manifest, limit: int)
    requires WellFormed(st) && !HasTtlExpired(next.annotations)
    ensures var two := Reconciled(Reconciled(st, now, next, limit), now, next, limit);
            AtRest(two, now, next, limit) && Reconciled(two, now, next, limit) == two
  {
    var one := Reconciled(st, now, next, limit);
    var two := Reconciled(one, now, next, limit);
    OneReconcile(st, now, next, limit);
    OneReconcile(one, now, next, limit);
    SecondPasses(one, now, limit);
    SecondLeavesNoMark(one, now, next, limit);
    RestIsFixed(two, now, next, limit);
  }

  lemma SecondLeavesNoMark(one: Store, now: int, next: Manifest, limit: int)
    requires WellFormed(one) && !HasTtlExpired(next.annotations) && !ShouldCreate(LatestLive(one.jobs), next)
    requires AfterPrune(AfterTtlPass(one.jobs, now), limit) == Erase(one.jobs, Uids(TtlDoomed(one.jobs)))
    ensures AllDeleting(TtlDoomed(Reconciled(one, now, next, limit).jobs))
  {
    var left := Erase(one.jobs, Uids(TtlDoomed(one.jobs)));
    assert Reconciled(one, now, next, limit) == Decided(Store(left, one.serial), next);
    if forall x :: x in one.jobs ==> Marked(x) {
      SecondIfAllMarked(one.jobs, one.serial, next, left);
    } else {
      MarkedLeftAreDeleting(one.jobs, left);
      DecidedIsUnmarked(Store(left, one.serial), next);
    }
  }

  lemma SecondIfAllMarked(jobs: seq<BatchJob>, serial: nat, next: Manifest, left: seq<BatchJob>)
    requires Ordered(jobs) && (forall x :: x in jobs ==> Marked(x)) && !HasTtlExpired(next.annotations)
    requires !ShouldCreate(LatestLive(jobs), next) && left == Erase(jobs, Uids(TtlDoomed(jobs)))
    ensures AllDeleting(TtlDoomed(Decided(Store(left, serial), next).jobs))
  {
    AllMarkedLeavesNewest(jobs, left);
    NewestIsDesired(jobs, next);
    SecondDecision(left, serial, jobs[|jobs| - 1], next);
  }

  lemma MarkedButTheLast(left: seq<BatchJob>)
    requires left != [] && AllDeleting(left[..|left| - 1]) && forall x :: x in left ==> Marked(x)
    ensures AllDeleting(TtlDoomed(left))
  {
    TtlDoomsAllMarkedOrSparesNewest(left);
  }

  lemma LastOneDecides(st: Store, next: Manifest)
    requires st.jobs != [] && Live(st.jobs[|st.jobs| - 1])
    requires !ShouldCreate(Some(st.jobs[|st.jobs| - 1]), next)
    ensures Decided(st, next) == st
  {
  }

  lemma AllOfThemDeleting(left: seq<BatchJob>)
    requires left != [] && left[|left| - 1].deleting && AllDeleting(left[..|left| - 1])
    ensures MarkedAreDeleting(left)
  {
    assert left == left[..|left| - 1] + [left[|left| - 1]];
  }

  /** Only the last one may be live, and all are marked. */
  ghost predicate LastOfTheMarked(left: seq<BatchJob>, newest: BatchJob) {
    left != [] && left[|left| - 1] == newest && AllDeleting(left[..|left| - 1]) && forall x :: x in left ==> Marked(x)
  }

  lemma SecondDecision(left: seq<BatchJob>, serial: nat, newest: BatchJob, next: Manifest)
    requires LastOfTheMarked(left, newest) && !HasTtlExpired(next.annotations)
    requires Live(newest) ==> !ShouldCreate(Some(newest), next)
    ensures AllDeleting(TtlDoomed(Decided(Store(left, serial), next).jobs))
  {
    if Live(newest) {
      LastOneDecides(Store(left, serial), next);
      MarkedButTheLast(left);
    } else {
      AllOfThemDeleting(left);
      DecidedIsUnmarked(Store(left, serial), next);
    }
  }

  lemma NewestIsDesired(jobs: seq<BatchJob>, next: Manifest)
    requires jobs != [] && !ShouldCreate(LatestLive(jobs), next)
    ensures Live(jobs[|jobs| - 1]) ==> !ShouldCreate(Some(jobs[|jobs| - 1]), next)
  {
  }

  ghost predicate MarkedAreDeleting(jobs: seq<BatchJob>) {
    forall x :: x in jobs && Marked(x) ==> x.deleting
  }

  lemma DecidedIsUnmarked(st: Store, next: Manifest)
    requires !HasTtlExpired(next.annotations) && MarkedAreDeleting(st.jobs)
    ensures AllDeleting(TtlDoomed(Decided(st, next).jobs))
  {
    assert !Marked(NewJob(st.serial, next));
  }

  lemma MarkedLeftAreDeleting(jobs: seq<BatchJob>, left: seq<BatchJob>)
    requires !(forall x :: x in jobs ==> Marked(x)) && left == Erase(jobs, Uids(TtlDoomed(jobs)))
    ensures MarkedAreDeleting(left)
  {
    TtlDoomsAllMarkedOrSparesNewest(jobs);
    var marked := Filter(Marked, jobs);
    assert forall x :: x in jobs && Marked(x) ==> x in marked;
  }

  /** Delete calls for batch Jobs in deletion change nothing. */
  lemma ErasingTheDeleting(jobs: seq<BatchJob>, doomed: seq<BatchJob>)
    requires Ordered(jobs) && AllDeleting(doomed) && forall x :: x in doomed ==> x in jobs
    ensures Erase(jobs, Uids(doomed)) == jobs
  {
    forall x | x in jobs && x.uid in Uids(doomed) ensures x.deleting {
      var y :| y in doomed && y.uid == x.uid;
      SameUidSameJob(jobs, x, y);
    }
    FilterAll(Spares(Uids(doomed)), jobs);
  }

  lemma RestIsFixed(st: Store, now: int, next: Manifest, limit: int)
    requires Ordered(st.jobs) && AtRest(st, now, next, limit)
    ensures Reconciled(st, now, next, limit) == st
  {
    MarkAllKeeps(st.jobs, now);
    ErasingTheDeleting(st.jobs, TtlDoomed(st.jobs));
    assert Uids(PruneDoomed(st.jobs, limit)) == {};
    EraseNothing(st.jobs);
  }

  // ---------------------------------------------------------------- a reconcile at rest

  /** Where a reconcile is that finds everything at rest: the world stays as it is. */
  ghost predicate Resting(w: World, next: Manifest, limit: int, s: State) {
    && s.w == w && (HoldsManifest(s.pc) ==> s.pc.next == next && s.pc.job.limit == limit)
    && (HoldsManifest(s.pc) && !s.pc.Ready? ==> s.pc.since == w.now)
    && (s.pc.Culling? || s.pc.Swept? || s.pc.Pruning? || s.pc.Decide? ==> s.pc.delay == RequeueDelay(w.jobs, w.now))
    && match s.pc
       case Ready(_, _) => true
       case Clocked(_, _, _) => true
       case Marking(_, _, _, listed, todo) => listed == w.jobs && todo <= |listed|
       case Culling(_, _, _, _, doomed) => AllDeleting(doomed) && forall x :: x in doomed ==> x in w.jobs
       case Swept(_, _, _, _) => true
       case Pruning(_, _, _, _, doomed) => doomed == []
       case Decide(_, _, _, _) => true
       case _ => s.pc == Finishing(w.now, RequeueDelay(w.jobs, w.now), false)
  }

  lemma DeletingTheDeleting(w: World, x: BatchJob, why: Reason)
    requires Ordered(w.jobs) && x in w.jobs && x.deleting
    ensures Delete(w, x.uid, why) == w
  {
    forall y | y in w.jobs && y.uid == x.uid ensures y == x {
      SameUidSameJob(w.jobs, y, x);
    }
    FilterNone((y: BatchJob) => y.uid == x.uid && Live(y), w.jobs);
    FilterAll(Spares({x.uid}), w.jobs);
    assert Delete(w, x.uid, why).log == w.log;
  }

  lemma RestingLists(build: Builder, w: World, next: Manifest, limit: int, s: State)
    requires AtRest(Store(w.jobs, w.serial), w.now, next, limit) && Resting(w, next, limit, s)
    requires s.pc.Ready? || s.pc.Clocked? || s.pc.Marking?
    ensures Resting(w, next, limit, CtlNext(build, s, Ok))
  {
    if s.pc.Marking? && s.pc.todo > 0 {
      assert s.pc.listed[s.pc.todo - 1] in w.jobs;
    }
  }

  lemma RestingCulls(build: Builder, w: World, next: Manifest, limit: int, s: State)
    requires Ordered(w.jobs) && Resting(w, next, limit, s) && s.pc.Culling?
    ensures Resting(w, next, limit, CtlNext(build, s, Ok))
  {
    if s.pc.doomed != [] {
      DeletingTheDeleting(w, s.pc.doomed[0], Expired);
    }
  }

  lemma RestingEnds(build: Builder, w: World, next: Manifest, limit: int, s: State)
    requires AtRest(Store(w.jobs, w.serial), w.now, next, limit) && Resting(w, next, limit, s)
    requires s.pc.Swept? || s.pc.Pruning? || s.pc.Decide?
    ensures Resting(w, next, limit, CtlNext(build, s, Ok))
  {
  }

  lemma RestingStep(build: Builder, w: World, next: Manifest, limit: int, s: State)
    requires Ordered(w.jobs) && AtRest(Store(w.jobs, w.serial), w.now, next, limit)
    requires Resting(w, next, limit, s) && !s.pc.Finishing?
    ensures Resting(w, next, limit, CtlNext(build, s, Ok))
  {
    if s.pc.Ready? || s.pc.Clocked? || s.pc.Marking? {
      RestingLists(build, w, next, limit, s);
    } else if s.pc.Culling? {
      RestingCulls(build, w, next, limit, s);
    } else {
      RestingEnds(build, w, next, limit, s);
    }
  }

  /** A reconcile that finds everything at rest, up to its closing status write. */
  lemma RestingRun(build: Builder, w: World, next: Manifest, limit: int, s: State) returns (acts: seq<Action>, t: State)
    requires Ordered(w.jobs) && AtRest(Store(w.jobs, w.serial), w.now, next, limit)
    requires Resting(w, next, limit, s) && s.pc.Ready?
    ensures t == Run(build, s, acts) && forall a :: a in acts ==> a == Ctl(Ok)
    ensures t.pc.Finishing? && Resting(w, next, limit, t)
  {
    var inv := u => Resting(w, next, limit, u);
    forall u: State | inv(u) && !IsFinishing(u.pc)
      ensures inv(Next(build, u, Ctl(Ok))) && Advances(u, Next(build, u, Ctl(Ok)))
    {
      RestingStep(build, w, next, limit, u);
      CalmStepAdvances(build, u);
    }
    acts, t := Drive(build, inv, IsFinishing, s);
  }

  lemma RestingClose(build: Builder, w: World, delay: Option<int>)
    ensures Next(build, State(w, Finishing(w.now, delay, false)), Ctl(Ok)) ==
            State(w.(timer := Sooner(w.timer, DueAt(w.now, delay))), Idle(0))
  {
  }

  /** What it leaves. */
  function Rested(w: World): World {
    w.(queued := false, timer := Sooner(w.timer, DueAt(w.now, RequeueDelay(w.jobs, w.now))))
  }

  /** From the queue to the closing status write and, with it, back: nothing has changed but the requeue, and the
      wrapper stays out of the queue. */
  lemma RestingReconcile(build: Builder, s: State, next: Manifest, limit: int) returns (acts: seq<Action>)
    requires StartsFrom(build, s, Store(s.w.jobs, s.w.serial), s.w.now, next, limit) && s.w.queued
    requires Ordered(s.w.jobs) && AtRest(Store(s.w.jobs, s.w.serial), s.w.now, next, limit)
    ensures acts != [] && (forall a :: a in acts ==> a == Ctl(Ok)) && Run(build, s, acts) == State(Rested(s.w), Idle(0))
  {
    var s1, s2 := CalmStart(build, s);
    var rest, t := RestingRun(build, s2.w, next, limit, s2);
    RestingClose(build, s2.w, RequeueDelay(s2.w.jobs, s2.w.now));
    acts := Around(build, s, Ctl(Ok), rest);
  }

  lemma QueuedRest(build: Builder, s: State, st: Store, now: int, next: Manifest, limit: int)
    returns (acts: seq<Action>)
    requires StartsFrom(build, s, st, now, next, limit) && Ordered(st.jobs) && AtRest(st, now, next, limit)
    ensures Undisturbed(acts) && Run(build, s, acts) == State(Rested(s.w), Idle(0))
  {
    var q := QueueIt(build, s, st, now, next, limit);
    var rest := RestingReconcile(build, q, next, limit);
    assert Undisturbed([Env(Requeue)]);
    acts := Prepend(build, s, Env(Requeue), q, rest, State(Rested(s.w), Idle(0)));
  }

  lemma Prepend(build: Builder, s: State, a: Action, q: State, rest: seq<Action>, t: State) returns (acts: seq<Action>)
    requires q == Next(build, s, a) && t == Run(build, q, rest)
    requires Undisturbed(rest) && Undisturbed([a])
    ensures t == Run(build, s, acts) && Undisturbed(acts)
  {
    RunFrom(build, s, a, rest);
    acts := [a] + rest;
  }

  lemma QueueIt(build: Builder, s: State, st: Store, now: int, next: Manifest, limit: int) returns (q: State)
    requires StartsFrom(build, s, st, now, next, limit)
    ensures q == Next(build, s, Env(Requeue)) == State(s.w.(queued := true), s.pc)
    ensures StartsFrom(build, q, st, now, next, limit)
  {
    q := State(s.w.(queued := true), s.pc);
    DesiredStays(build, s.w, q.w);
  }

  lemma DesiredStays(build: Builder, w: World, w': World)
    requires w'.wrapper == w.wrapper && w'.profiles == w.profiles
    ensures Desired(build, w') == Desired(build, w)
  {
  }
}
