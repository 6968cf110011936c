/** The three passes of one reconcile as functions of the listed batch Jobs: expiry marks and TTL deletions, the history
    prune, and the decision to create. Lists are in creation order, oldest first; `Reverse` gives the code's order. */
module Passes {
  import opened Prelude
  import opened Decimal
  import opened Objects
  import opened Construct

  // ---------------------------------------------------------------- durations

  const SECOND: int := 1_000_000_000
  const GRACE: int := 3 * SECOND
  const MAX_DURATION: int := 0x7fff_ffff_ffff_ffff
  const MIN_DURATION: int := -0x8000_0000_0000_0000

  /** int64 arithmetic wraps around. */
  function Wrap64(x: int): int {
    (x - MIN_DURATION) % 0x1_0000_0000_0000_0000 + MIN_DURATION
  }

  /** The difference of two points in time saturates. */
  function Sub(t: int, u: int): int {
    Max(MIN_DURATION, Min(MAX_DURATION, t - u))
  }

  lemma Wrap64Exact(x: int)
    ensures Wrap64(x) == x <==> MIN_DURATION <= x <= MAX_DURATION
  {
  }

  /** Seconds to nanoseconds never overflows, whatever the TTL. */
  lemma TtlFits(ttl: int32)
    ensures Wrap64(ttl * SECOND) == ttl * SECOND
  {
  }

  // ---------------------------------------------------------------- one batch Job

  predicate Marked(j: BatchJob) {
    HasTtlExpired(j.manifest.annotations)
  }

  function WithMark(j: BatchJob): BatchJob {
    j.(manifest := j.manifest.(annotations := j.manifest.annotations[ANNOTATION_TTL_EXPIRED := "true"]))
  }

  function Ttl(j: BatchJob): Option<int32> {
    TtlFromAnnotations(j.manifest.annotations)
  }

  function ExpireAt(j: BatchJob): Option<int> {
    if !Finished(j) || FinishedAt(j).None? || j.deleting || Ttl(j).None? then None
    else Some(FinishedAt(j).value + Wrap64(Ttl(j).value * SECOND))
  }

  /** The mark is set on an unmarked batch Job whose TTL has run out. */
  predicate NeedsMark(j: BatchJob, now: int) {
    !Marked(j) && ExpireAt(j).Some? && Sub(ExpireAt(j).value, now) <= 0
  }

  /** A batch Job whose TTL is still running asks for another reconcile, a little after it runs out. */
  function DelayOf(j: BatchJob, now: int): Option<int> {
    if Marked(j) || ExpireAt(j).None? || Sub(ExpireAt(j).value, now) <= 0 then None
    else Some(Wrap64(Sub(ExpireAt(j).value, now) + GRACE))
  }

  /** A batch Job expires its TTL, in seconds, after it has finished; one in deletion, or whose finish time is not
      known, never does. Saturation does not change which of two points in time comes first. */
  lemma NeedsMarkIff(j: BatchJob, now: int)
    ensures NeedsMark(j, now) <==>
            !Marked(j) && Finished(j) && FinishedAt(j).Some? && !j.deleting && Ttl(j).Some? &&
            FinishedAt(j).value + Ttl(j).value * 1_000_000_000 <= now
    ensures ExpireAt(j).Some? <==> Finished(j) && FinishedAt(j).Some? && !j.deleting && Ttl(j).Some?
    ensures ExpireAt(j).Some? ==> ExpireAt(j).value == FinishedAt(j).value + Ttl(j).value * 1_000_000_000
  {
    if Ttl(j).Some? {
      TtlFits(Ttl(j).value);
    }
  }

  /** More than two hundred years. */
  const AGES: int := MAX_DURATION - GRACE - 0x7fff_ffff * SECOND

  /** The clock and the finish time bound everything: with a finish time that is not ages in the future nothing
      saturates or wraps around, and the delay is exactly the remaining time plus the grace period. */
  lemma DelayIsExact(j: BatchJob, now: int)
    requires FinishedAt(j).Some? ==> FinishedAt(j).value <= now + AGES
    ensures NeedsMark(j, now) <==> !Marked(j) && ExpireAt(j).Some? && ExpireAt(j).value <= now
    ensures DelayOf(j, now) ==
            if Marked(j) || ExpireAt(j).None? || ExpireAt(j).value <= now then None
            else Some(ExpireAt(j).value - now + 3_000_000_000)
    ensures DelayOf(j, now).Some? ==> 3_000_000_000 < DelayOf(j, now).value <= 0x7fff_ffff_ffff_ffff
  {
    if ExpireAt(j).Some? {
      TtlFits(Ttl(j).value);
      var left := ExpireAt(j).value - now;
      assert left <= MAX_DURATION - GRACE;
      if left > 0 {
        Wrap64Exact(left + GRACE);
      }
    }
  }

  /** In general the delay is a lie exactly when the expiry is more than the largest duration, less the grace period,
      away: the sum wraps around and is negative. */
  lemma DelayWrapsIff(j: BatchJob, now: int)
    requires DelayOf(j, now).Some?
    ensures DelayOf(j, now).value < 0 <==> ExpireAt(j).value - now > 0x7fff_ffff_ffff_ffff - 3_000_000_000
    ensures DelayOf(j, now).value >= 0 ==> DelayOf(j, now).value == ExpireAt(j).value - now + 3_000_000_000
  {
    Wrap64Exact(Sub(ExpireAt(j).value, now) + GRACE);
  }

  /** The two differ in nothing but the expiry mark. */
  predicate SameButForTheMark(m: Manifest, m': Manifest) {
    && m'.name == m.name && m'.labels == m.labels && m'.owners == m.owners && m'.spec == m.spec
    && m'.annotations - {ANNOTATION_TTL_EXPIRED} == m.annotations - {ANNOTATION_TTL_EXPIRED}
  }

  lemma MarkChangesOnlyTheMark(j: BatchJob)
    ensures Marked(WithMark(j)) && Ttl(WithMark(j)) == Ttl(j) && ExpireAt(WithMark(j)) == ExpireAt(j)
    ensures SameButForTheMark(j.manifest, WithMark(j).manifest)
    ensures WithMark(j) == j.(manifest := WithMark(j).manifest)
  {
    KeysDiffer();
  }

  /** Key by key: the update sets one annotation. Every other one stays as it is, or stays away, and so does everything
      else that the object holds. */
  lemma MarkSetsOneAnnotation(j: BatchJob, k: string)
    ensures var x := WithMark(j);
            && "jobs.pixiv.net/ttl-expired" in x.manifest.annotations
            && x.manifest.annotations["jobs.pixiv.net/ttl-expired"] == "true"
            && (k != "jobs.pixiv.net/ttl-expired" ==>
                  (k in x.manifest.annotations <==> k in j.manifest.annotations) &&
                  (k in j.manifest.annotations ==> x.manifest.annotations[k] == j.manifest.annotations[k]))
            && x.manifest.name == j.manifest.name && x.manifest.labels == j.manifest.labels
            && x.manifest.owners == j.manifest.owners && x.manifest.spec == j.manifest.spec
            && x.uid == j.uid && x.created == j.created && x.conditions == j.conditions && x.deleting == j.deleting
  {
  }

  /** The same for what may have become of a manifest in a run. */
  lemma SameButForTheMarkIff(m: Manifest, m': Manifest)
    ensures SameButForTheMark(m, m') <==>
            && m'.name == m.name && m'.labels == m.labels && m'.owners == m.owners && m'.spec == m.spec
            && forall k :: k != "jobs.pixiv.net/ttl-expired" ==>
                 (k in m'.annotations <==> k in m.annotations) &&
                 (k in m.annotations ==> m'.annotations[k] == m.annotations[k])
  {
    var a, a' := m.annotations - {ANNOTATION_TTL_EXPIRED}, m'.annotations - {ANNOTATION_TTL_EXPIRED};
    if a == a' {
      forall k | k != ANNOTATION_TTL_EXPIRED
        ensures (k in m'.annotations <==> k in m.annotations) &&
                (k in m.annotations ==> m'.annotations[k] == m.annotations[k])
      {
        assert (k in a <==> k in m.annotations) && (k in a' <==> k in m'.annotations);
      }
    }
  }

  // ---------------------------------------------------------------- lists of batch Jobs

  predicate Ordered(jobs: seq<BatchJob>) {
    forall i, j :: 0 <= i < j < |jobs| ==> jobs[i].uid < jobs[j].uid
  }

  function Uids(jobs: seq<BatchJob>): set<nat> {
    set x | x in jobs :: x.uid
  }

  /** Background deletion removes a batch Job at once, except one that is already being deleted. */
  function Spares(uids: set<nat>): BatchJob -> bool {
    (x: BatchJob) => x.deleting || x.uid !in uids
  }

  function Erase(jobs: seq<BatchJob>, uids: set<nat>): (r: seq<BatchJob>)
    ensures forall x :: x in r <==> x in jobs && (x.deleting || x.uid !in uids)
  {
    Filter(Spares(uids), jobs)
  }

  function Replace(jobs: seq<BatchJob>, was: BatchJob, becomes: BatchJob): (r: seq<BatchJob>)
    ensures |r| == |jobs|
    ensures forall i :: 0 <= i < |r| ==> r[i] == if jobs[i] == was then becomes else jobs[i]
  {
    seq(|jobs|, i requires 0 <= i < |jobs| => if jobs[i] == was then becomes else jobs[i])
  }

  lemma OrderedCons(x: BatchJob, jobs: seq<BatchJob>)
    requires Ordered(jobs) && forall y :: y in jobs ==> x.uid < y.uid
    ensures Ordered([x] + jobs)
  {
    var r := [x] + jobs;
    forall i, j | 0 <= i < j < |r| ensures r[i].uid < r[j].uid {
      assert r[j] == jobs[j - 1] && jobs[j - 1] in jobs;
    }
  }

  lemma FirstIsLeast(jobs: seq<BatchJob>, x: BatchJob)
    requires Ordered(jobs) && jobs != [] && x in jobs[1..]
    ensures jobs[0].uid < x.uid
  {
    var k :| 0 <= k < |jobs[1..]| && jobs[1..][k] == x;
    assert jobs[k + 1] == x;
  }

  lemma {:induction false} FilterOrdered(p: BatchJob -> bool, jobs: seq<BatchJob>)
    requires Ordered(jobs)
    ensures Ordered(Filter(p, jobs))
  {
    if jobs != [] {
      assert Ordered(jobs[1..]);
      FilterOrdered(p, jobs[1..]);
      forall x | x in Filter(p, jobs[1..]) ensures jobs[0].uid < x.uid {
        FirstIsLeast(jobs, x);
      }
      OrderedCons(jobs[0], Filter(p, jobs[1..]));
    }
  }

  lemma {:induction false} EraseTwice(jobs: seq<BatchJob>, a: set<nat>, b: set<nat>)
    ensures Erase(Erase(jobs, a), b) == Erase(jobs, a + b)
  {
    if jobs != [] {
      EraseTwice(jobs[1..], a, b);
    }
  }

  lemma EraseHead(jobs: seq<BatchJob>, doomed: seq<BatchJob>)
    requires doomed != []
    ensures Erase(Erase(jobs, {doomed[0].uid}), Uids(doomed[1..])) == Erase(jobs, Uids(doomed))
  {
    EraseTwice(jobs, {doomed[0].uid}, Uids(doomed[1..]));
    assert forall x :: x in doomed <==> x == doomed[0] || x in doomed[1..];
    assert {doomed[0].uid} + Uids(doomed[1..]) == Uids(doomed);
  }

  lemma {:induction false} EraseNothing(jobs: seq<BatchJob>)
    ensures Erase(jobs, {}) == jobs
  {
    FilterAll(Spares({}), jobs);
  }

  // ---------------------------------------------------------------- the TTL pass

  function MarkOne(j: BatchJob, now: int): BatchJob {
    if NeedsMark(j, now) then WithMark(j) else j
  }

  function MarkAll(jobs: seq<BatchJob>, now: int): (r: seq<BatchJob>)
    ensures |r| == |jobs|
    ensures forall i :: 0 <= i < |r| ==> r[i] == MarkOne(jobs[i], now)
  {
    seq(|jobs|, i requires 0 <= i < |jobs| => MarkOne(jobs[i], now))
  }

  /** Of n listed batch Jobs of which k carry the mark when listed: the oldest min(k, n-1) marked ones. */
  function TtlDoomed(jobs: seq<BatchJob>): (doomed: seq<BatchJob>)
    ensures forall x :: x in doomed ==> x in jobs && Marked(x)
    ensures |jobs| > 0 ==> |doomed| < |jobs|
  {
    var marked := Filter(Marked, jobs);
    if jobs == [] then [] else marked[..Min(|marked|, |jobs| - 1)]
  }

  function Delays(jobs: seq<BatchJob>, now: int): (r: seq<int>)
    ensures forall x :: x in jobs && DelayOf(x, now).Some? ==> DelayOf(x, now).value in r
    ensures forall d :: d in r ==> exists x :: x in jobs && DelayOf(x, now) == Some(d)
  {
    if jobs == [] then []
    else
      var rest := Delays(jobs[1..], now);
      assert forall x :: x in jobs <==> x == jobs[0] || x in jobs[1..];
      if DelayOf(jobs[0], now).Some? then [DelayOf(jobs[0], now).value] + rest else rest
  }

  /** The shortest delay, if it is positive. */
  function RequeueDelay(jobs: seq<BatchJob>, now: int): Option<int> {
    var ds := Delays(jobs, now);
    if ds != [] && Least(ds) > 0 then Some(Least(ds)) else None
  }

  // ---------------------------------------------------------------- the prune

  predicate FinishedLive(j: BatchJob) {
    Finished(j) && Live(j)
  }

  function Kept(jobs: seq<BatchJob>, limit: int): nat {
    Min(|Filter(FinishedLive, Reverse(jobs))|, Max(limit, 0))
  }

  /** From newest to oldest, every finished live batch Job beyond the first `limit`. */
  function PruneDoomed(jobs: seq<BatchJob>, limit: int): (doomed: seq<BatchJob>)
    ensures forall x :: x in doomed ==> x in jobs && FinishedLive(x)
  {
    Filter(FinishedLive, Reverse(jobs))[Kept(jobs, limit)..]
  }

  // ---------------------------------------------------------------- the create decision

  function LatestLive(jobs: seq<BatchJob>): (r: Option<BatchJob>)
    ensures r.Some? ==> r.value in jobs && Live(r.value)
    ensures r.None? ==> forall x :: x in jobs ==> !Live(x)
  {
    if jobs == [] then None
    else if Live(jobs[|jobs| - 1]) then Some(jobs[|jobs| - 1])
    else LatestLive(jobs[..|jobs| - 1])
  }

  predicate ShouldCreate(latest: Option<BatchJob>, next: Manifest) {
    latest.None? || (Finished(latest.value) && SpecHash(latest.value.manifest) != SpecHash(next))
  }

  function NewJob(uid: nat, next: Manifest): BatchJob {
    BatchJob(uid, uid, next, [], false)
  }

  lemma {:induction false} LatestLiveIsNewest(jobs: seq<BatchJob>, x: BatchJob)
    requires Ordered(jobs) && x in jobs && !x.deleting
    ensures LatestLive(jobs).Some? && !LatestLive(jobs).value.deleting && LatestLive(jobs).value in jobs
    ensures LatestLive(jobs).Some? && x.uid <= LatestLive(jobs).value.uid
    ensures LatestLive(jobs).value.uid == x.uid ==> LatestLive(jobs).value == x
  {
    var n := |jobs| - 1;
    var k :| 0 <= k < |jobs| && jobs[k] == x;
    if !Live(jobs[n]) {
      assert jobs[..n][k] == x;
      LatestLiveIsNewest(jobs[..n], x);
    }
  }
}
