/** Name collisions. The name of a batch Job carries a hash of the pod template and of the wrapper's collision count;
    a name that is taken bumps the count, and the retry tries the next name. */
module Collision {
  import opened Prelude
  import opened Decimal
  import opened Json
  import opened Construct
  import opened Cluster

  // ---------------------------------------------------------------- the count

  const COUNTS: int := 0x1_0000_0000

  function CountAfter(start: Option<int32>, bumps: nat): Option<int32> {
    if bumps == 0 then start else Some(Bump(CountAfter(start, bumps - 1)))
  }

  /** An absent count is bumped as if it were zero. */
  function AsNumber(count: Option<int32>): int {
    match count case None => 0 case Some(c) => c
  }

  /** An int32 after wrapping around. */
  function Wrap32(x: int): int {
    (x + 0x8000_0000) % COUNTS - 0x8000_0000
  }

  lemma NextRemainder(y: int)
    ensures (y + 1) % COUNTS == if y % COUNTS == COUNTS - 1 then 0 else y % COUNTS + 1
  {
    var q, m := y / COUNTS, y % COUNTS;
    assert y == q * COUNTS + m;
    if m == COUNTS - 1 {
      assert y + 1 == (q + 1) * COUNTS;
    } else {
      assert y + 1 == q * COUNTS + (m + 1);
    }
  }

  lemma {:induction false} CountAfterIs(start: Option<int32>, bumps: nat)
    ensures bumps > 0 ==> CountAfter(start, bumps).Some?
    ensures AsNumber(CountAfter(start, bumps)) == Wrap32(AsNumber(start) + bumps)
  {
    if bumps > 0 {
      CountAfterIs(start, bumps - 1);
      NextRemainder(AsNumber(start) + bumps - 1 + 0x8000_0000);
    }
  }

  /** No count comes back before all of them have been used. */
  lemma CountsDiffer(start: Option<int32>, i: nat, k: nat)
    requires i < k < COUNTS
    ensures CountAfter(start, i) != CountAfter(start, k)
  {
    CountAfterIs(start, i);
    CountAfterIs(start, k);
  }

  // ---------------------------------------------------------------- the names a wrapper can use

  function CandidateName(build: Builder, job: Job, profiles: map<string, PodProfile>,
                         count: Option<int32>): Option<string> {
    match BuildFor(build, job.(collisions := count), profiles)
    case None => None
    case Some(m) => Some(m.name)
  }

  /** The wrapper's name after `bumps` collisions. */
  function NthName(build: Builder, job: Job, profiles: map<string, PodProfile>, bumps: nat): Option<string> {
    CandidateName(build, job, profiles, CountAfter(job.collisions, bumps))
  }

  /** The next `n` names differ from the current one and from one another. */
  ghost predicate NamesDiffer(build: Builder, job: Job, profiles: map<string, PodProfile>, n: nat) {
    forall i: nat, k: nat {:trigger NthName(build, job, profiles, i), NthName(build, job, profiles, k)} ::
      i < k <= n && NthName(build, job, profiles, i).Some? ==>
        NthName(build, job, profiles, i) != NthName(build, job, profiles, k)
  }

  function NthHash(h: Hashes, job: Job, spec: Json, bumps: nat): string {
    TemplateHash(h, job.(collisions := CountAfter(job.collisions, bumps)), spec)
  }

  ghost predicate HashesDiffer(h: Hashes, job: Job, spec: Json, n: nat) {
    forall i: nat, k: nat {:trigger NthHash(h, job, spec, i), NthHash(h, job, spec, k)} ::
      i < k <= n ==> NthHash(h, job, spec, i) != NthHash(h, job, spec, k)
  }

  /** A hash that is injective in the count would do for as many names as there are counts. */
  lemma InjectiveHashesDiffer(h: Hashes, job: Job, spec: Json, n: nat)
    requires forall t, c, d :: c != d ==> (h.template)(t, c) != (h.template)(t, d)
    requires n < COUNTS
    ensures HashesDiffer(h, job, spec, n)
  {
    forall i: nat, k: nat | i < k <= n ensures NthHash(h, job, spec, i) != NthHash(h, job, spec, k) {
      CountsDiffer(job.collisions, i, k);
    }
  }

  /** The real construction has the property when the template hash does, for the wrapper's own template and the
      counts in question. */
  lemma BuiltNamesDiffer(h: Hashes, job: Job, profiles: map<string, PodProfile>, n: nat)
    requires job.profileRef in profiles ==>
               forall spec :: BatchJobSpec(job.params, profiles[job.profileRef].template, job.patches) == Some(spec) ==>
                 HashesDiffer(h, job, spec, n)
    ensures NamesDiffer(Constructing(h), job, profiles, n)
  {
    var build := Constructing(h);
    forall i: nat, k: nat | i < k <= n && NthName(build, job, profiles, i).Some?
      ensures NthName(build, job, profiles, i) != NthName(build, job, profiles, k)
    {
      var spec := BatchJobSpec(job.params, profiles[job.profileRef].template, job.patches).value;
      NthNameIs(h, job, profiles, spec, i);
      NthNameIs(h, job, profiles, spec, k);
      assert NthHash(h, job, spec, i) != NthHash(h, job, spec, k);
      SuffixesDiffer(job.name + "-", NthHash(h, job, spec, i), NthHash(h, job, spec, k));
    }
  }

  lemma NthNameIs(h: Hashes, job: Job, profiles: map<string, PodProfile>, spec: Json, bumps: nat)
    requires job.profileRef in profiles
    requires BatchJobSpec(job.params, profiles[job.profileRef].template, job.patches) == Some(spec)
    ensures NthName(Constructing(h), job, profiles, bumps) == Some(job.name + "-" + NthHash(h, job, spec, bumps))
  {
  }

  lemma SuffixesDiffer(prefix: string, x: string, y: string)
    requires x != y
    ensures prefix + x != prefix + y
  {
    assert (prefix + x)[|prefix|..] == x && (prefix + y)[|prefix|..] == y;
  }

  lemma {:induction false} Pigeonhole(names: seq<string>, taken: set<string>)
    requires forall i, k :: 0 <= i < k < |names| ==> names[i] != names[k]
    requires forall i :: 0 <= i < |names| ==> names[i] in taken
    ensures |names| <= |taken|
  {
    if names != [] {
      var n := |names| - 1;
      Pigeonhole(names[..n], taken - {names[n]});
    }
  }

  // ---------------------------------------------------------------- runs

  predicate Collides(s: State, a: Action) {
    s.pc.Creating? && a == Ctl(Exists)
  }

  predicate Succeeds(s: State, a: Action) {
    s.pc.Creating? && a == Ctl(Ok)
  }

  function Collisions(build: Builder, s: State, acts: seq<Action>): nat {
    Count(Collides, build, s, acts)
  }

  /** A create call collides only with a name in `taken`, one of the two status writes with the bumped count succeeds,
      and nobody edits the wrapper or its profile. Everything else may happen, other failures and crashes included. */
  function Retrying(taken: set<string>): Guard {
    (s: State, a: Action) =>
      && (Collides(s, a) ==> s.pc.next.name in taken)
      && (s.pc.Bumping? ==> a == Ctl(Ok) || a.Env? || (a.Ctl? && !s.pc.again))
      && (a.Env? ==> !a.e.SetWrapper? && !a.e.SetProfile?)
  }

  /** What the reconcile holds is what is stored. */
  predicate Current(build: Builder, s: State) {
    match s.pc
    case Idle(_) => true
    case Finishing(_, _, _) => true
    case Fetched(job) => s.w.wrapper == Some(job)
    case Bumping(job, _, _, _) => s.w.wrapper == Some(job)
    case _ => s.w.wrapper == Some(s.pc.job) && BuildFor(build, s.pc.job, s.w.profiles) == Some(s.pc.next)
  }

  /** Bumps that have been stored after `collisions` of them. */
  predicate Bumped(s: State, job: Job, collisions: nat) {
    var bumps := collisions - if s.pc.Bumping? then 1 else 0;
    bumps >= 0 && s.w.wrapper == Some(job.(collisions := CountAfter(job.collisions, bumps)))
  }

  lemma EnvKeepsCurrent(build: Builder, s: State, e: EnvAction, taken: set<string>)
    requires Current(build, s) && Retrying(taken)(s, Env(e))
    ensures Current(build, State(EnvNext(s.w, e), s.pc))
    ensures EnvNext(s.w, e).wrapper == s.w.wrapper && EnvNext(s.w, e).profiles == s.w.profiles
  {
  }

  lemma CtlKeepsCurrent(build: Builder, s: State, o: Outcome)
    requires Current(build, s)
    ensures Current(build, CtlNext(build, s, o)) && CtlNext(build, s, o).w.profiles == s.w.profiles
    ensures CtlNext(build, s, o).w.wrapper ==
            if s.pc.Bumping? && o == Ok then Some(s.pc.job.(collisions := Some(Bump(s.pc.job.collisions))))
            else s.w.wrapper
    ensures CtlNext(build, s, o).pc.Bumping? <==> Collides(s, Ctl(o)) || (s.pc.Bumping? && !s.pc.again && o != Ok)
  {
  }

  lemma BumpedStep(s: State, t: State, o: Outcome, job: Job, collisions: nat)
    requires Bumped(s, job, collisions) && (s.pc.Bumping? ==> s.w.wrapper == Some(s.pc.job) && (o == Ok || !s.pc.again))
    requires t.w.wrapper ==
             if s.pc.Bumping? && o == Ok then Some(s.pc.job.(collisions := Some(Bump(s.pc.job.collisions))))
             else s.w.wrapper
    requires t.pc.Bumping? <==> Collides(s, Ctl(o)) || (s.pc.Bumping? && !s.pc.again && o != Ok)
    ensures Bumped(t, job, collisions + if Collides(s, Ctl(o)) then 1 else 0)
  {
  }

  lemma RetryStep(build: Builder, s: State, a: Action, taken: set<string>, job: Job, collisions: nat)
    requires Current(build, s) && Bumped(s, job, collisions) && Retrying(taken)(s, a)
    ensures var t := Next(build, s, a);
            Current(build, t) && t.w.profiles == s.w.profiles &&
            Bumped(t, job, collisions + if Collides(s, a) then 1 else 0)
  {
    match a
    case Env(e) => EnvKeepsCurrent(build, s, e, taken);
    case Restart =>
    case Ctl(o) =>
      CtlKeepsCurrent(build, s, o);
      BumpedStep(s, CtlNext(build, s, o), o, job, collisions);
  }

  /** The name that a create call collides with is the next one of the wrapper's names. */
  lemma CollidesWithItsName(build: Builder, s: State, a: Action, job: Job, collisions: nat)
    requires Current(build, s) && Bumped(s, job, collisions) && Collides(s, a)
    ensures NthName(build, job, s.w.profiles, collisions) == Some(s.pc.next.name)
  {
  }

  /** Every collision so far was with another one of the wrapper's names. */
  ghost predicate AllTaken(build: Builder, job: Job, profiles: map<string, PodProfile>, taken: set<string>, n: nat) {
    forall i: nat :: i < n ==>
      var name := NthName(build, job, profiles, i);
      name.Some? && name.value in taken
  }

  lemma OneMoreTaken(build: Builder, s: State, a: Action, taken: set<string>, job: Job, n: nat)
    requires Current(build, s) && Bumped(s, job, n) && Retrying(taken)(s, a)
    requires AllTaken(build, job, s.w.profiles, taken, n)
    ensures AllTaken(build, job, s.w.profiles, taken, n + if Collides(s, a) then 1 else 0)
  {
    if Collides(s, a) {
      CollidesWithItsName(build, s, a, job, n);
    }
  }

  lemma {:induction false} RetryHolds(build: Builder, s: State, acts: seq<Action>, taken: set<string>)
    requires s.pc.Idle? && s.w.wrapper.Some? && Along(build, s, acts, Retrying(taken))
    ensures var t, n, job := Run(build, s, acts), Collisions(build, s, acts), s.w.wrapper.value;
            Current(build, t) && t.w.profiles == s.w.profiles && Bumped(t, job, n) &&
            AllTaken(build, job, s.w.profiles, taken, n)
  {
    if acts != [] {
      var n := |acts| - 1;
      RetryHolds(build, s, acts[..n], taken);
      var u, job, k := Run(build, s, acts[..n]), s.w.wrapper.value, Collisions(build, s, acts[..n]);
      RetryStep(build, u, acts[n], taken, job, k);
      OneMoreTaken(build, u, acts[n], taken, job, k);
    }
  }

  /** The retry ends. However the run goes, there are no more collisions than names taken, so that with m of its names
      taken a wrapper needs at most m + 1 create calls that are answered. */
  lemma CollisionsAreBounded(build: Builder, s: State, acts: seq<Action>, taken: set<string>)
    requires s.pc.Idle? && s.w.wrapper.Some? && Along(build, s, acts, Retrying(taken))
    requires NamesDiffer(build, s.w.wrapper.value, s.w.profiles, |taken|)
    ensures Collisions(build, s, acts) <= |taken|
  {
    var job, n := s.w.wrapper.value, Collisions(build, s, acts);
    RetryHolds(build, s, acts, taken);
    if n > |taken| {
      var names := seq(|taken| + 1, i requires 0 <= i <= |taken| => NthName(build, job, s.w.profiles, i).value);
      forall i, k | 0 <= i < k < |names| ensures names[i] != names[k] {
        assert NthName(build, job, s.w.profiles, i) != NthName(build, job, s.w.profiles, k);
      }
      Pigeonhole(names, taken);
    }
  }

  /** Create calls that are answered: the object is created, or its name is taken. */
  predicate Answered(s: State, a: Action) {
    Collides(s, a) || Succeeds(s, a)
  }

  lemma {:induction false} AnswersAreCollisionsOrCreations(build: Builder, s: State, acts: seq<Action>)
    ensures Count(Answered, build, s, acts) == Collisions(build, s, acts) + Count(Succeeds, build, s, acts)
  {
    if acts != [] {
      AnswersAreCollisionsOrCreations(build, s, acts[..|acts| - 1]);
    }
  }

  lemma CreatedWithinOneMoreThanTaken(build: Builder, s: State, acts: seq<Action>, taken: set<string>)
    requires s.pc.Idle? && s.w.wrapper.Some? && Along(build, s, acts, Retrying(taken))
    requires NamesDiffer(build, s.w.wrapper.value, s.w.profiles, |taken|)
    requires Count(Answered, build, s, acts) > |taken|
    ensures Count(Succeeds, build, s, acts) >= 1
  {
    CollisionsAreBounded(build, s, acts, taken);
    AnswersAreCollisionsOrCreations(build, s, acts);
  }

  function StoredCount(s: State): int {
    match s.w.wrapper case None => 0 case Some(job) => AsNumber(job.collisions)
  }

  /** Until it has gone through every positive int32, the stored count is the number of collisions. */
  lemma CollisionsAreCounted(build: Builder, s: State, acts: seq<Action>, taken: set<string>)
    requires s.pc.Idle? && s.w.wrapper.Some? && Along(build, s, acts, Retrying(taken))
    requires AsNumber(s.w.wrapper.value.collisions) + Collisions(build, s, acts) <= 0x7fff_ffff
    ensures var t := Run(build, s, acts);
            !t.pc.Bumping? ==> StoredCount(t) == AsNumber(s.w.wrapper.value.collisions) + Collisions(build, s, acts)
  {
    RetryHolds(build, s, acts, taken);
    StoredCountIs(Run(build, s, acts), s.w.wrapper.value, Collisions(build, s, acts));
  }

  lemma StoredCountIs(s: State, job: Job, collisions: nat)
    requires Bumped(s, job, collisions) && AsNumber(job.collisions) + collisions <= 0x7fff_ffff
    ensures StoredCount(s) == AsNumber(job.collisions) + collisions - if s.pc.Bumping? then 1 else 0
  {
    var bumps := collisions - if s.pc.Bumping? then 1 else 0;
    CountAfterIs(job.collisions, bumps);
  }

  /** A step lowers the count exactly when it bumps the largest int32. */
  lemma StoredCountStep(build: Builder, s: State, a: Action, taken: set<string>)
    requires Current(build, s) && Retrying(taken)(s, a) && s.w.wrapper.Some?
    ensures StoredCount(Next(build, s, a)) < StoredCount(s) <==>
            s.pc.Bumping? && a == Ctl(Ok) && StoredCount(s) == 0x7fff_ffff
  {
    match a
    case Env(e) => EnvKeepsCurrent(build, s, e, taken);
    case Restart =>
    case Ctl(o) => CtlKeepsCurrent(build, s, o);
  }

  /** It never goes down. */
  lemma {:induction false} CountNeverDecreases(build: Builder, s: State, acts: seq<Action>, i: nat, taken: set<string>)
    requires s.pc.Idle? && s.w.wrapper.Some? && Along(build, s, acts, Retrying(taken)) && i <= |acts|
    requires AsNumber(s.w.wrapper.value.collisions) + Collisions(build, s, acts) <= 0x7fff_ffff
    ensures StoredCount(Run(build, s, acts[..i])) <= StoredCount(Run(build, s, acts))
  {
    if i == |acts| {
      assert acts[..i] == acts;
    } else {
      var n := |acts| - 1;
      var u := Run(build, s, acts[..n]);
      assert acts[..n][..i] == acts[..i];
      CountNeverDecreases(build, s, acts[..n], i, taken);
      RetryHolds(build, s, acts[..n], taken);
      StoredCountIs(u, s.w.wrapper.value, Collisions(build, s, acts[..n]));
      StoredCountStep(build, u, acts[n], taken);
    }
  }
}
