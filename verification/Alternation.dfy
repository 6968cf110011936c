/** Which batch Jobs are created one after the other, in any of the runs of AtMostOnce: never two in a row with the
    same spec hash. And exactly when a reconcile that has read the profile can go on to create one. */
module Alternation {
  import opened Prelude
  import opened Objects
  import opened Construct
  import opened Passes
  import opened Cluster
  import opened Steps
  import opened AtMostOnce

  // ---------------------------------------------------------------- never two in a row

  /** Between two creations with the same hash there is one with another hash. */
  ghost predicate Alternating(log: seq<Event>) {
    forall i, k :: 0 <= i < k < |log| && IsCreation(log[i], SpecHash(log[k].job.manifest)) && log[k].Created? ==>
      exists j :: i < j < k && log[j].Created? && SpecHash(log[j].job.manifest) != SpecHash(log[k].job.manifest)
  }

  /** The hash of the last creation. */
  function LastHash(log: seq<Event>): Option<string> {
    if log == [] then None
    else if log[|log| - 1].Created? then Some(SpecHash(log[|log| - 1].job.manifest))
    else LastHash(log[..|log| - 1])
  }

  lemma {:induction false} LastIsLast(log: seq<Event>, i: nat) returns (l: nat)
    requires i < |log| && log[i].Created?
    ensures i <= l < |log| && log[l].Created? && LastHash(log) == Some(SpecHash(log[l].job.manifest))
  {
    var n := |log| - 1;
    if log[n].Created? {
      l := n;
    } else {
      assert log[..n][i] == log[i];
      l := LastIsLast(log[..n], i);
    }
  }

  lemma CreationAlternates(log: seq<Event>, x: BatchJob)
    requires Alternating(log) && LastHash(log) != Some(SpecHash(x.manifest))
    ensures Alternating(log + [Created(x)]) && LastHash(log + [Created(x)]) == Some(SpecHash(x.manifest))
  {
    var log' := log + [Created(x)];
    var h := SpecHash(x.manifest);
    assert log'[..|log|] == log;
    forall i | 0 <= i < |log| && IsCreation(log[i], h)
      ensures exists j :: i < j < |log| && log'[j].Created? && SpecHash(log'[j].job.manifest) != h
    {
      var l := LastIsLast(log, i);
      assert log'[l] == log[l];
    }
  }

  lemma DeletionAlternates(log: seq<Event>, e: Event)
    requires Alternating(log) && !e.Created?
    ensures Alternating(log + [e]) && LastHash(log + [e]) == LastHash(log)
  {
    var log' := log + [e];
    assert log'[..|log|] == log;
    forall i, k | 0 <= i < k < |log'| && IsCreation(log'[i], SpecHash(log'[k].job.manifest)) && log'[k].Created?
      ensures exists j :: i < j < k && log'[j].Created? &&
                          SpecHash(log'[j].job.manifest) != SpecHash(log'[k].job.manifest)
    {
      var j :| i < j < k && log[j].Created? && SpecHash(log[j].job.manifest) != SpecHash(log[k].job.manifest);
      assert log'[j] == log[j];
    }
  }

  lemma {:induction false} DeletionsAlternate(log: seq<Event>, more: seq<Event>)
    requires Alternating(log) && forall e :: e in more ==> !e.Created?
    ensures Alternating(log + more) && LastHash(log + more) == LastHash(log)
  {
    if more == [] {
      assert log + more == log;
    } else {
      var n := |more| - 1;
      DeletionsAlternate(log, more[..n]);
      DeletionAlternates(log + more[..n], more[n]);
      assert log + more == log + more[..n] + [more[n]];
    }
  }

  /** The newest batch Job is the last one created, and what is about to be created has another hash. */
  ghost predicate LastInv(s: State) {
    && OrderInv(s) && Alternating(s.w.log)
    && (LastHash(s.w.log).Some? ==> NewestHas(s.w.jobs, LastHash(s.w.log).value))
    && (s.pc.Creating? ==> !NewestHas(s.w.jobs, SpecHash(s.pc.next)))
  }

  /** What a step that creates nothing adds to the log. */
  lemma OnlyDeletions(build: Builder, s: State, a: Action) returns (more: seq<Event>)
    requires !Creates(s, a)
    ensures Next(build, s, a).w.log == s.w.log + more && forall e :: e in more ==> !e.Created?
  {
    more := [];
    if a.Ctl? && a.o == Ok && (s.pc.Culling? || s.pc.Pruning?) && s.pc.doomed != [] {
      var uid, why := s.pc.doomed[0].uid, if s.pc.Culling? then Expired else Reason.Pruned;
      more := Deletions(Filter((x: BatchJob) => x.uid == uid && Live(x), s.w.jobs), why, s.w.now);
    }
  }

  lemma LogKeepsAlternating(build: Builder, s: State, a: Action)
    requires Alternating(s.w.log) && !Creates(s, a)
    ensures Alternating(Next(build, s, a).w.log) && LastHash(Next(build, s, a).w.log) == LastHash(s.w.log)
  {
    var more := OnlyDeletions(build, s, a);
    DeletionsAlternate(s.w.log, more);
  }

  lemma NewestIsLatest(jobs: seq<BatchJob>)
    requires jobs != [] && Live(jobs[|jobs| - 1])
    ensures LatestLive(jobs) == Some(jobs[|jobs| - 1])
  {
  }

  /** What is about to be created differs from the newest one. */
  lemma DecidesOnAnother(build: Builder, s: State, o: Outcome)
    requires Monotone(s.w.jobs) && CtlNext(build, s, o).pc.Creating?
    ensures var t := CtlNext(build, s, o); t.w == s.w && !NewestHas(s.w.jobs, SpecHash(t.pc.next))
  {
    if s.w.jobs != [] {
      assert Normal(s.w.jobs[|s.w.jobs| - 1]);
      NewestIsLatest(s.w.jobs);
    }
  }

  lemma CreatingStays(build: Builder, s: State, a: Action)
    requires LastInv(s) && Orderly(build, s, a) && !Creates(s, a) && Next(build, s, a).pc.Creating?
    ensures !NewestHas(Next(build, s, a).w.jobs, SpecHash(Next(build, s, a).pc.next))
  {
    if a.Ctl? {
      DecidesOnAnother(build, s, a.o);
    } else if s.w.jobs != [] {
      NewestStays(build, SpecHash(s.w.jobs[|s.w.jobs| - 1].manifest), s, a);
    } else {
      EnvIsPointwise(build, s, a.e);
    }
  }

  lemma CreationStep(build: Builder, s: State)
    requires LastInv(s) && s.pc.Creating?
    ensures var t := Next(build, s, Ctl(Ok));
            Alternating(t.w.log) && LastHash(t.w.log) == Some(SpecHash(s.pc.next)) &&
            NewestHas(t.w.jobs, SpecHash(s.pc.next)) && t.pc.Finishing?
  {
    CreationAlternates(s.w.log, NewJob(s.w.serial, s.pc.next));
    CreationIsCounted(s.w, s.pc.next, SpecHash(s.pc.next));
  }

  lemma LastStep(build: Builder, s: State, a: Action)
    requires LastInv(s) && Orderly(build, s, a)
    ensures LastInv(Next(build, s, a))
  {
    OrderStep(build, s, a);
    if Creates(s, a) {
      CreationStep(build, s);
    } else {
      LogKeepsAlternating(build, s, a);
      if LastHash(s.w.log).Some? {
        NewestStays(build, LastHash(s.w.log).value, s, a);
      }
      if Next(build, s, a).pc.Creating? {
        CreatingStays(build, s, a);
      }
    }
  }

  lemma {:induction false} LastHolds(build: Builder, s: State, acts: seq<Action>)
    requires LastInv(s) && Along(build, s, acts, (t, a) => Orderly(build, t, a))
    ensures LastInv(Run(build, s, acts))
  {
    if acts != [] {
      LastHolds(build, s, acts[..|acts| - 1]);
      LastStep(build, Run(build, s, acts[..|acts| - 1]), acts[|acts| - 1]);
    }
  }

  /** In every such run, whatever is built and desired: of two creations with the same hash, another one, with another
      hash, lies in between. */
  lemma CreationsAlternate(build: Builder, s: State, acts: seq<Action>)
    requires Init(s) && Along(build, s, acts, (t, a) => Orderly(build, t, a))
    ensures Alternating(Run(build, s, acts).w.log)
  {
    LastHolds(build, s, acts);
  }

  // ---------------------------------------------------------------- after the profile has been read

  /** The reconcile under way goes on, in an orderly way. */
  ghost function GoesOn(build: Builder): Guard {
    (s: State, a: Action) => Orderly(build, s, a) && !s.pc.Idle?
  }

  ghost predicate LeadsToCreate(build: Builder, s: State, acts: seq<Action>) {
    Along(build, s, acts, GoesOn(build)) && Run(build, s, acts).pc.Creating?
  }

  /** It holds a manifest with the hash of the newest batch Job. */
  ghost predicate HoldsNewest(h: string, s: State) {
    && OrderInv(s) && NewestHas(s.w.jobs, h) && !s.pc.Creating? && !s.pc.Fetched?
    && (HoldsManifest(s.pc) ==> SpecHash(s.pc.next) == h)
  }

  lemma NotFetchedAgain(build: Builder, s: State, a: Action)
    requires !s.pc.Idle? && !s.pc.Fetched?
    ensures !Next(build, s, a).pc.Fetched?
  {
  }

  lemma {:induction false} NeverCreates(build: Builder, h: string, s: State, acts: seq<Action>)
    requires HoldsNewest(h, s) && Along(build, s, acts, GoesOn(build))
    ensures HoldsNewest(h, Run(build, s, acts))
  {
    if acts != [] {
      var n := |acts| - 1;
      var t, a := Run(build, s, acts[..n]), acts[n];
      NeverCreates(build, h, s, acts[..n]);
      OrderStep(build, t, a);
      NewestStays(build, h, t, a);
      NothingElseIsCreated(build, h, t, a);
      NotFetchedAgain(build, t, a);
    }
  }

  function CompletesNow(s: State, uid: nat): Action {
    Env(Report(uid, JobCondition(Complete, True, Some(s.w.now))))
  }

  /** The newest batch Job completes. */
  lemma NewestFinishes(build: Builder, h: string, s: State)
    requires Monotone(s.w.jobs) && NewestHas(s.w.jobs, h) &&
             Orderly(build, s, CompletesNow(s, s.w.jobs[|s.w.jobs| - 1].uid))
    ensures var t := Next(build, s, CompletesNow(s, s.w.jobs[|s.w.jobs| - 1].uid));
            t.pc == s.pc && LatestLive(t.w.jobs).Some? && Finished(LatestLive(t.w.jobs).value) &&
            SpecHash(LatestLive(t.w.jobs).value.manifest) == h
  {
    var n := |s.w.jobs| - 1;
    var x, c := s.w.jobs[n], JobCondition(Complete, True, Some(s.w.now));
    var t := Next(build, s, CompletesNow(s, x.uid));
    assert Normal(x);
    assert t.w.jobs[n] == x.(conditions := x.conditions + [c]);
    LaterConditionsDoNotMatter(x.conditions, c);
    NewestIsLatest(t.w.jobs);
  }

  /** Both lists fail. */
  lemma ToDecision(build: Builder, s: State) returns (acts: seq<Action>, t: State)
    requires s.pc.Ready?
    ensures Along(build, s, acts, GoesOn(build)) && t == Run(build, s, acts)
    ensures t.w == s.w && t.pc.Decide? && t.pc.next == s.pc.next
  {
    var u := Next(build, s, Ctl(Ok));
    var v := Next(build, u, Ctl(Fail));
    t := Next(build, v, Ctl(Fail));
    AlongOne(build, v, Ctl(Fail), [], GoesOn(build));
    AlongOne(build, u, Ctl(Fail), [Ctl(Fail)] + [], GoesOn(build));
    acts := [Ctl(Ok)] + ([Ctl(Fail)] + ([Ctl(Fail)] + []));
    AlongOne(build, s, Ctl(Ok), [Ctl(Fail)] + ([Ctl(Fail)] + []), GoesOn(build));
  }

  lemma DecidesToCreate(build: Builder, s: State)
    requires s.pc.Decide? && ShouldCreate(LatestLive(s.w.jobs), s.pc.next)
    ensures Next(build, s, Ctl(Ok)).pc.Creating?
  {
  }

  /** The newest batch Job completes, and the reconcile decides. */
  lemma FromDecision(build: Builder, h: string, s: State) returns (acts: seq<Action>)
    requires s.pc.Decide? && Monotone(s.w.jobs) && NewestHas(s.w.jobs, h) && SpecHash(s.pc.next) != h
    ensures LeadsToCreate(build, s, acts)
  {
    var e := CompletesNow(s, s.w.jobs[|s.w.jobs| - 1].uid);
    NewestFinishes(build, h, s);
    var t := Next(build, s, e);
    DecidesToCreate(build, t);
    AlongOne(build, t, Ctl(Ok), [], GoesOn(build));
    acts := [e] + ([Ctl(Ok)] + []);
    AlongOne(build, s, e, [Ctl(Ok)] + [], GoesOn(build));
  }

  lemma CanCreate(build: Builder, h: string, s: State) returns (acts: seq<Action>)
    requires s.pc.Ready? && Monotone(s.w.jobs) && NewestHas(s.w.jobs, h) && SpecHash(s.pc.next) != h
    ensures LeadsToCreate(build, s, acts)
  {
    var first, t := ToDecision(build, s);
    var rest := FromDecision(build, h, t);
    AlongConcat(build, s, first, rest, GoesOn(build));
    RunConcat(build, s, first, rest);
    acts := first + rest;
  }

  /** Exactly when, in any such run, a reconcile whose wrapper's newest batch Job has the hash `h` can go on to a
      create call after it has read the profile and built `m`: when `m` has another hash. */
  lemma CreatesAfterReadIff(build: Builder, origin: State, earlier: seq<Action>, h: string, m: Manifest)
    requires Init(origin) && Along(build, origin, earlier, (t, a) => Orderly(build, t, a))
    requires var s := Run(build, origin, earlier);
             s.pc.Fetched? && NewestHas(s.w.jobs, h) && BuildFor(build, s.pc.job, s.w.profiles) == Some(m) &&
             !HasTtlExpired(m.annotations)
    ensures (exists acts :: LeadsToCreate(build, Next(build, Run(build, origin, earlier), Ctl(Ok)), acts)) <==>
            SpecHash(m) != h
  {
    OrderHolds(build, origin, earlier);
    var s := Run(build, origin, earlier);
    OrderStep(build, s, Ctl(Ok));
    var t := Next(build, s, Ctl(Ok));
    assert t.w == s.w && t.pc.Ready? && t.pc.next == m;
    if SpecHash(m) != h {
      var acts := CanCreate(build, h, t);
    } else if acts :| LeadsToCreate(build, t, acts) {
      NeverCreates(build, h, t, acts);
      assert false;
    }
  }
}
