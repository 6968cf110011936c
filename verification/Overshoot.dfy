/** The bound L + 2 of History is reached for every limit L, so L + 1 does not hold of every run: a batch Job that
    finishes between the prune's list and the create decision counts against the limit only at the next prune. */
module Overshoot {
  import opened Prelude
  import opened Objects
  import opened Construct
  import opened Passes
  import opened PassFacts
  import opened Cluster
  import opened History
  import opened Safety
  import opened Scenarios
  import opened Window
  import C = Convergence

  /** Calls succeed, and the limit stays what it is. */
  predicate Harmless(limit: int, a: Action) {
    a == Ctl(Ok) || (a.Env? && (a.e.SetWrapper? && a.e.wrapper.Some? ==> a.e.wrapper.value.limit == limit))
  }

  /** `n` batch Jobs, each from a template of its own, all completed. */
  function Past(h: Hashes, n: nat): (jobs: seq<BatchJob>)
    ensures |jobs| == n
    ensures forall i :: 0 <= i < n ==> jobs[i] == Done(Fresh(h, None, i, i), 0)
  {
    seq(n, i requires 0 <= i < n => Done(Fresh(h, None, i, i), 0))
  }

  lemma PastIsPlain(h: Hashes, n: nat)
    ensures Ordered(Past(h, n)) && Ordered(Past(h, n) + [Fresh(h, None, n, n)])
    ensures forall x :: x in Past(h, n) + [Fresh(h, None, n, n)] ==> !Marked(x) && ExpireAt(x) == None && Live(x)
    ensures forall x :: x in Past(h, n) ==> Finished(x)
  {
    forall i: nat ensures !Marked(Fresh(h, None, i, i)) && Ttl(Fresh(h, None, i, i)) == None {
      Built(h, 0, None, "", i);
    }
    forall i | 0 <= i < n
      ensures !Marked(Past(h, n)[i]) && ExpireAt(Past(h, n)[i]) == None && Finished(Past(h, n)[i])
    {
      DoneIsFinished(Fresh(h, None, i, i), 0);
    }
  }

  predicate HashesInTurn(h: Hashes, limit: nat) {
    forall i: nat :: i <= limit ==> (h.spec)(SpecOf(i)) != (h.spec)(SpecOf(i + 1))
  }

  /** A reconcile that finds `n` completed batch Jobs creates one more. */
  lemma OneMore(h: Hashes, limit: nat, n: nat)
    requires n <= limit && HashesInTurn(h, limit)
    ensures C.Reconciled(C.Store(Past(h, n), n), 0, ManifestOf(h, None, n), limit) ==
            C.Store(Past(h, n) + [Fresh(h, None, n, n)], n + 1)
  {
    PastIsPlain(h, n);
    if n > 0 {
      Built(h, 0, None, "", n);
      Built(h, 0, None, "", n - 1);
      assert LatestLive(Past(h, n)) == Some(Past(h, n)[n - 1]);
    }
    OneIsAdded(Past(h, n), n, 0, ManifestOf(h, None, n), limit);
  }

  /** `n` completed, one running, built from the template `n`. */
  predicate Stage(h: Hashes, limit: nat, n: nat, s: State) {
    && s.pc.Idle? && s.w.now == 0 && s.w.serial == n + 1 && s.w.jobs == Past(h, n) + [Fresh(h, None, n, n)]
    && s.w.wrapper == Some(Wrapper(limit, None, "")) && s.w.profiles == map["" := Template(n)]
  }

  lemma FirstStage(h: Hashes, limit: nat) returns (acts: seq<Action>, t: State)
    requires HashesInTurn(h, limit)
    ensures t == Run(Constructing(h), Start(map["" := Template(0)]), acts)
    ensures Stage(h, limit, 0, t) && forall a :: a in acts ==> Harmless(limit, a)
  {
    var build, a := Constructing(h), Env(SetWrapper(Some(Wrapper(limit, None, ""))));
    var start := Start(map["" := Template(0)]);
    Built(h, limit, None, "", 0);
    OneMore(h, limit, 0);
    assert Past(h, 0) == [];
    var rest;
    rest, t := C.CalmReconcile(build, Next(build, start, a), C.Store([], 0), 0, ManifestOf(h, None, 0), limit);
    C.RunFrom(build, start, a, rest);
    acts := [a] + rest;
  }

  /** The running one completes, and the profile is edited. */
  lemma Edited(h: Hashes, limit: nat, n: nat, s: State) returns (u: State)
    requires Stage(h, limit, n, s)
    ensures u == Next(Constructing(h), Next(Constructing(h), s, Env(Report(n, Completed(0)))),
                      Env(SetProfile("", Some(Template(n + 1)), true)))
    ensures C.StartsFrom(Constructing(h), u, C.Store(Past(h, n + 1), n + 1), 0, ManifestOf(h, None, n + 1), limit)
    ensures u.w.queued && u.w.wrapper == s.w.wrapper && u.w.profiles == map["" := Template(n + 1)]
  {
    var build := Constructing(h);
    PastIsPlain(h, n);
    NewestCompletes(s.w, Past(h, n), Fresh(h, None, n, n));
    assert Past(h, n + 1) == Past(h, n) + [Done(Fresh(h, None, n, n), 0)];
    u := Next(build, Next(build, s, Env(Report(n, Completed(0)))), Env(SetProfile("", Some(Template(n + 1)), true)));
    assert u.w.profiles == map["" := Template(n + 1)];
    Built(h, limit, None, "", n + 1);
  }

  lemma StageReconcile(h: Hashes, limit: nat, n: nat, u: State) returns (acts: seq<Action>, t: State)
    requires n <= limit && HashesInTurn(h, limit)
    requires C.StartsFrom(Constructing(h), u, C.Store(Past(h, n), n), 0, ManifestOf(h, None, n), limit) && u.w.queued
    requires u.w.wrapper == Some(Wrapper(limit, None, "")) && u.w.profiles == map["" := Template(n)]
    ensures t == Run(Constructing(h), u, acts) && C.Undisturbed(acts) && Stage(h, limit, n, t)
  {
    PastIsPlain(h, n);
    OneMore(h, limit, n);
    acts, t := C.CalmReconcile(Constructing(h), u, C.Store(Past(h, n), n), 0, ManifestOf(h, None, n), limit);
  }

  lemma NextStage(h: Hashes, limit: nat, n: nat, s: State) returns (acts: seq<Action>, t: State)
    requires n < limit && HashesInTurn(h, limit) && Stage(h, limit, n, s)
    ensures t == Run(Constructing(h), s, acts)
    ensures Stage(h, limit, n + 1, t) && forall a :: a in acts ==> Harmless(limit, a)
  {
    var build := Constructing(h);
    var report, edit := Env(Report(n, Completed(0))), Env(SetProfile("", Some(Template(n + 1)), true));
    var u := Edited(h, limit, n, s);
    var rest;
    rest, t := StageReconcile(h, limit, n + 1, u);
    C.RunFrom(build, Next(build, s, report), edit, rest);
    C.RunFrom(build, s, report, [edit] + rest);
    acts := [report] + ([edit] + rest);
  }

  lemma {:induction false} ToStage(h: Hashes, limit: nat, n: nat) returns (acts: seq<Action>, t: State)
    requires n <= limit && HashesInTurn(h, limit)
    ensures t == Run(Constructing(h), Start(map["" := Template(0)]), acts)
    ensures Stage(h, limit, n, t) && forall a :: a in acts ==> Harmless(limit, a)
  {
    if n == 0 {
      acts, t := FirstStage(h, limit);
    } else {
      var a, u := ToStage(h, limit, n - 1);
      var b;
      b, t := NextStage(h, limit, n - 1, u);
      RunConcat(Constructing(h), Start(map["" := Template(0)]), a, b);
      acts := a + b;
    }
  }

  lemma FullHouseOvershoots(h: Hashes, limit: nat)
    requires HashesInTurn(h, limit)
    ensures Overshoots(Past(h, limit) + [Fresh(h, None, limit, limit)], limit, ManifestOf(h, None, limit + 1))
  {
    var x := Fresh(h, None, limit, limit);
    PastIsPlain(h, limit);
    FilterSnoc(FinishedLive, Past(h, limit), x);
    FilterAll(FinishedLive, Past(h, limit));
    LatestLiveSnoc(Past(h, limit), x);
    Built(h, 0, None, "", limit);
    Built(h, 0, None, "", limit + 1);
  }

  lemma LastEdit(h: Hashes, limit: nat, s: State) returns (u: State)
    requires Stage(h, limit, limit, s)
    ensures u == Next(Constructing(h), s, Env(SetProfile("", Some(Template(limit + 1)), true)))
    ensures C.StartsFrom(Constructing(h), u, C.Store(s.w.jobs, s.w.serial), 0, ManifestOf(h, None, limit + 1), limit)
    ensures u.w.queued
  {
    u := Next(Constructing(h), s, Env(SetProfile("", Some(Template(limit + 1)), true)));
    assert u.w.profiles == map["" := Template(limit + 1)];
    Built(h, limit, None, "", limit + 1);
  }

  lemma AtTheList(jobs: seq<BatchJob>, serial: nat, next: Manifest, limit: int, t: State)
    requires C.Calm(C.Store(jobs, serial), 0, next, limit, t) && t.pc.Swept? && C.AfterTtlPass(jobs, 0) == jobs
    ensures t.pc.job.limit == limit && t.pc.next == next && t.w.jobs == jobs
  {
  }

  lemma PassLeavesFullHouse(h: Hashes, n: nat)
    ensures var jobs := Past(h, n) + [Fresh(h, None, n, n)]; Ordered(jobs) && C.AfterTtlPass(jobs, 0) == jobs
  {
    PastIsPlain(h, n);
    TtlPassLeaves(Past(h, n) + [Fresh(h, None, n, n)], 0);
  }

  lemma StageIsPlain(h: Hashes, limit: nat, s: State)
    requires Stage(h, limit, limit, s)
    ensures Ordered(s.w.jobs) && C.AfterTtlPass(s.w.jobs, 0) == s.w.jobs
  {
    PassLeavesFullHouse(h, limit);
  }

  lemma FromTheEdit(build: Builder, s: State, edit: Action, u: State, jobs: seq<BatchJob>, serial: nat, next: Manifest,
                    limit: int) returns (acts: seq<Action>, t: State)
    requires Harmless(limit, edit) && u == Next(build, s, edit) &&
             C.StartsFrom(build, u, C.Store(jobs, serial), 0, next, limit) && u.w.queued
    requires Ordered(jobs) && C.AfterTtlPass(jobs, 0) == jobs
    ensures t == Run(build, s, acts) && forall a :: a in acts ==> Harmless(limit, a)
    ensures t.pc.Swept? && t.pc.job.limit == limit && t.pc.next == next && t.w.jobs == jobs
  {
    var rest;
    rest, t := C.CalmToList(build, u, C.Store(jobs, serial), 0, next, limit);
    AtTheList(jobs, serial, next, limit, t);
    C.RunFrom(build, s, edit, rest);
    acts := [edit] + rest;
  }

  /** The profile is edited while the last one runs; the reconcile gets as far as the prune's list. */
  lemma ToTheList(h: Hashes, limit: nat, s: State) returns (acts: seq<Action>, t: State)
    requires Stage(h, limit, limit, s)
    ensures t == Run(Constructing(h), s, acts) && forall a :: a in acts ==> Harmless(limit, a)
    ensures t.pc.Swept? && t.pc.job.limit == limit && t.pc.next == ManifestOf(h, None, limit + 1) &&
            t.w.jobs == s.w.jobs
  {
    var u := LastEdit(h, limit, s);
    StageIsPlain(h, limit, s);
    acts, t := FromTheEdit(Constructing(h), s, Env(SetProfile("", Some(Template(limit + 1)), true)), u, s.w.jobs,
                           s.w.serial, ManifestOf(h, None, limit + 1), limit);
  }

  lemma LastReconcile(h: Hashes, limit: nat, s: State) returns (acts: seq<Action>)
    requires HashesInTurn(h, limit) && BaseInv(s) && s.pc.Swept? && s.pc.job.limit == limit
    requires s.pc.next == ManifestOf(h, None, limit + 1)
    requires s.w.jobs == Past(h, limit) + [Fresh(h, None, limit, limit)]
    ensures Along(Constructing(h), s, acts, PruneGuard(limit))
    ensures |LiveUids(Run(Constructing(h), s, acts).w.jobs)| == limit + 2
  {
    var build := Constructing(h);
    FullHouseOvershoots(h, limit);
    var window := AndThen(build, limit, s);
    var first := Next(build, s, Ctl(Ok));
    AlongImplies(build, first, window, Within(limit), PruneGuard(limit));
    AlongOne(build, Run(build, first, window), Ctl(Ok), [], PruneGuard(limit));
    AlongConcat(build, first, window, [Ctl(Ok)] + [], PruneGuard(limit));
    RunConcat(build, first, window, [Ctl(Ok)] + []);
    AlongOne(build, s, Ctl(Ok), window + ([Ctl(Ok)] + []), PruneGuard(limit));
    acts := [Ctl(Ok)] + (window + ([Ctl(Ok)] + []));
  }

  /** For every limit L, with the real construction and any hash that tells each of the L + 2 specs of the
      example from the next: a run that satisfies every condition of the bound L + 2 and ends with that many
      live batch Jobs. */
  lemma LimitPlusTwoIsReached(h: Hashes, limit: nat) returns (s: State, acts: seq<Action>)
    requires HashesInTurn(h, limit)
    ensures Init(s) && Along(Constructing(h), s, acts, PruneGuard(limit))
    ensures |LiveUids(Run(Constructing(h), s, acts).w.jobs)| == limit + 2
  {
    var build := Constructing(h);
    s := Start(map["" := Template(0)]);
    var a, t := ToStage(h, limit, limit);
    var b, u := ToTheList(h, limit, t);
    RunConcat(build, s, a, b);
    AlongAll(build, s, a + b, PruneGuard(limit));
    BaseHolds(build, s, a + b);
    var c := LastReconcile(h, limit, u);
    AlongConcat(build, s, a + b, c, PruneGuard(limit));
    RunConcat(build, s, a + b, c);
    acts := a + b + c;
  }
}
