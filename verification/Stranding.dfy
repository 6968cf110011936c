/** A run in which the one condition of SettledOrQueued is violated at the very end: a wrapper is stranded by the
    removal of its only batch Job, which carries the expiry mark. */
module Stranding {
  import opened Prelude
  import opened Objects
  import opened Construct
  import opened Passes
  import opened PassFacts
  import opened Cluster
  import opened Steps
  import opened Scenarios
  import opened SettledOrQueued
  import C = Convergence

  /** A batch Job with a TTL of zero seconds, and the same when it has completed and been marked. */
  function Only(h: Hashes): BatchJob {
    Fresh(h, Some(0), 0, 0)
  }

  function Spent(h: Hashes): BatchJob {
    WithMark(Done(Only(h), 0))
  }

  lemma OnlyExpires(h: Hashes)
    ensures !Marked(Only(h)) && !Finished(Only(h)) && Live(Only(h))
    ensures NeedsMark(Done(Only(h), 0), 0) && !Marked(Done(Only(h), 0))
    ensures Marked(Spent(h)) && Finished(Spent(h)) && Live(Spent(h))
    ensures SpecHash(Spent(h).manifest) == SpecHash(ManifestOf(h, Some(0), 0))
  {
    Built(h, 1, Some(0), "", 0);
    DoneIsFinished(Only(h), 0);
    NeedsMarkIff(Done(Only(h), 0), 0);
    MarkChangesOnlyTheMark(Done(Only(h), 0));
  }

  lemma ThenItIsMarked(h: Hashes)
    ensures C.Reconciled(C.Store([Done(Only(h), 0)], 1), 0, ManifestOf(h, Some(0), 0), 1) == C.Store([Spent(h)], 1)
  {
    OnlyExpires(h);
    var d, e := Done(Only(h), 0), Spent(h);
    assert MarkAll([d], 0) == [e];
    assert TtlDoomed([d]) == [];
    EraseNothing([e]);
    assert Uids([]) == {};
    PruneDoomedIsEmptyIff([e], 1);
    assert C.AfterTtlPass([d], 0) == [e];
    assert C.AfterPrune([e], 1) == [e];
    assert LatestLive([e]) == Some(e);
  }

  lemma ThenItRests(h: Hashes)
    ensures C.AtRest(C.Store([Spent(h)], 1), 0, ManifestOf(h, Some(0), 0), 1) && Ordered([Spent(h)])
  {
    OnlyExpires(h);
    PruneDoomedIsEmptyIff([Spent(h)], 1);
    assert LatestLive([Spent(h)]) == Some(Spent(h));
  }

  /** No batch Job is removed, and no event is lost. */
  predicate Seen(a: Action) {
    a.Env? ==> !a.e.Remove? && !LosesProfileEvent(a.e)
  }

  lemma ToTheMark(h: Hashes, s: State) returns (acts: seq<Action>, t: State)
    requires HasOne(h, 1, Some(0), Only(h), s)
    ensures t == Run(Constructing(h), s, acts) && forall a :: a in acts ==> Seen(a)
    ensures HasOne(h, 1, Some(0), Spent(h), t)
  {
    var build, a := Constructing(h), Env(Report(0, Completed(0)));
    var u := TheOneCompletes(h, 1, Some(0), s);
    var rest;
    rest, t := C.CalmReconcile(build, u, C.Store([Done(Only(h), 0)], 1), 0, ManifestOf(h, Some(0), 0), 1);
    ThenItIsMarked(h);
    C.RunFrom(build, s, a, rest);
    acts := [a] + rest;
  }

  lemma ToTheRest(h: Hashes, s: State) returns (acts: seq<Action>)
    requires HasOne(h, 1, Some(0), Spent(h), s)
    ensures forall a :: a in acts ==> Seen(a)
    ensures var t := Run(Constructing(h), s, acts);
            t.pc.Idle? && t.w.jobs == [Spent(h)] && !t.w.queued && t.w.wrapper == s.w.wrapper &&
            t.w.profiles == s.w.profiles
  {
    ThenItRests(h);
    acts := C.QueuedRest(Constructing(h), s, C.Store([Spent(h)], 1), 0, ManifestOf(h, Some(0), 0), 1);
  }

  /** Whatever the two hash functions are: a run from the start in which everything is seen leads to a wrapper at
      rest, settled, with one batch Job, which is marked. The removal of that batch Job leaves nothing, and nothing
      re-creates it. */
  lemma UnseenRemovalStrandsTheWrapper(h: Hashes) returns (s: State, acts: seq<Action>)
    ensures Init(s) && Along(Constructing(h), s, acts, EverythingIsSeen)
    ensures var t := Run(Constructing(h), s, acts);
            t.pc.Idle? && Active(t.w) && !t.w.queued && Settled(Constructing(h), t.w) && t.w.jobs == [Spent(h)] &&
            Marked(Spent(h))
    ensures var u := Next(Constructing(h), Run(Constructing(h), s, acts), Env(Remove(0)));
            u.pc.Idle? && Active(u.w) && !u.w.queued && u.w.jobs == [] && !Settled(Constructing(h), u.w)
  {
    var build := Constructing(h);
    s := Start(PROFILES);
    var a, t := FirstReconcile(h, 1, Some(0));
    var b, u := ToTheMark(h, t);
    var c := ToTheRest(h, u);
    RunConcat(build, s, a, b);
    RunConcat(build, s, a + b, c);
    acts := a + b + c;
    AlongAll(build, s, acts, EverythingIsSeen);
    AtTheEnd(h, Run(build, s, acts));
  }

  lemma AtTheEnd(h: Hashes, t: State)
    requires t.pc.Idle? && t.w.jobs == [Spent(h)] && !t.w.queued
    requires t.w.wrapper == Some(Wrapper(1, Some(0), "")) && t.w.profiles == PROFILES
    ensures Active(t.w) && Settled(Constructing(h), t.w) && Marked(Spent(h))
    ensures var u := Next(Constructing(h), t, Env(Remove(0)));
            u.pc.Idle? && Active(u.w) && !u.w.queued && u.w.jobs == [] && !Settled(Constructing(h), u.w)
  {
    OnlyExpires(h);
    Built(h, 1, Some(0), "", 0);
    assert LatestLive(t.w.jobs) == Some(Spent(h));
    RemovalStrandsTheWrapperIff(Constructing(h), t, 0);
    FilterNone(Except(0), t.w.jobs);
  }
}
