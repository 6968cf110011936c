/** What one TTL pass and one prune do to a list of batch Jobs. */
module PassFacts {
  import opened Prelude
  import opened Objects
  import opened Passes

  // ---------------------------------------------------------------- the TTL pass

  /** Either every marked batch Job is doomed, or all are marked and everything but the newest is doomed. */
  lemma TtlDoomsAllMarkedOrSparesNewest(jobs: seq<BatchJob>)
    requires jobs != []
    ensures if forall x :: x in jobs ==> Marked(x) then TtlDoomed(jobs) == jobs[..|jobs| - 1]
            else TtlDoomed(jobs) == Filter(Marked, jobs)
  {
    FilterAll(Marked, jobs);
  }

  /** The newest batch Job is deleted exactly when it carries the mark and some older one does not. */
  lemma NewestDoomedIff(jobs: seq<BatchJob>)
    requires Ordered(jobs) && jobs != []
    ensures jobs[|jobs| - 1].uid in Uids(TtlDoomed(jobs)) <==>
            Marked(jobs[|jobs| - 1]) && exists x :: x in jobs && !Marked(x)
  {
    var newest := jobs[|jobs| - 1];
    TtlDoomsAllMarkedOrSparesNewest(jobs);
    forall x | x in jobs[..|jobs| - 1] ensures x.uid < newest.uid {
      var k :| 0 <= k < |jobs| - 1 && jobs[..|jobs| - 1][k] == x;
      assert jobs[k] == x;
    }
    forall x | x in jobs && x.uid == newest.uid ensures x == newest {
      SameUidSameJob(jobs, x, newest);
    }
  }

  lemma SameUidSameJob(jobs: seq<BatchJob>, x: BatchJob, y: BatchJob)
    requires Ordered(jobs) && x in jobs && y in jobs && x.uid == y.uid
    ensures x == y
  {
    var i :| 0 <= i < |jobs| && jobs[i] == x;
    var k :| 0 <= k < |jobs| && jobs[k] == y;
    assert i == k;
  }

  /** The requeue comes no later than the grace period after any expiry that is still to come. */
  lemma RequeueIsInTime(jobs: seq<BatchJob>, now: int, x: BatchJob)
    requires forall y :: y in jobs && FinishedAt(y).Some? ==> FinishedAt(y).value <= now + AGES
    requires x in jobs && !Marked(x) && ExpireAt(x).Some? && !NeedsMark(x, now)
    ensures RequeueDelay(jobs, now).Some? && now + RequeueDelay(jobs, now).value <= ExpireAt(x).value + GRACE
  {
    DelayIsExact(x, now);
    var ds := Delays(jobs, now);
    assert DelayOf(x, now).value in ds;
    var y :| y in jobs && DelayOf(y, now) == Some(Least(ds));
    DelayIsExact(y, now);
  }

  /** When a requeue comes due, one of the listed batch Jobs that asked for it, and did not need the mark then, needs
      it now; and the marking branch sets it. */
  lemma WakeUpFindsAnExpiredJob(jobs: seq<BatchJob>, now: int, later: int) returns (x: BatchJob)
    requires forall y :: y in jobs && FinishedAt(y).Some? ==> FinishedAt(y).value <= now + AGES
    requires RequeueDelay(jobs, now).Some? && later >= now + RequeueDelay(jobs, now).value
    ensures x in jobs && !NeedsMark(x, now) && NeedsMark(x, later)
    ensures MarkOne(x, later) == WithMark(x) && Marked(MarkOne(x, later))
  {
    var d := RequeueDelay(jobs, now).value;
    x :| x in jobs && DelayOf(x, now) == Some(d);
    DelayIsExact(x, now);
    DelayIsExact(x, later);
    MarkChangesOnlyTheMark(x);
  }

  // ---------------------------------------------------------------- the prune

  lemma PruneDoomedIsEmptyIff(jobs: seq<BatchJob>, limit: int)
    ensures PruneDoomed(jobs, limit) == [] <==> |Filter(FinishedLive, jobs)| <= Max(limit, 0)
  {
    FilterReverse(FinishedLive, jobs);
  }

  lemma {:induction false} ErasingOthers(xs: seq<BatchJob>, uids: set<nat>)
    requires forall x :: x in xs ==> x.uid !in uids
    ensures Erase(xs, uids) == xs
  {
    FilterAll(Spares(uids), xs);
  }

  /** One prune leaves exactly the newest min(limit, finished) finished batch Jobs, newest first here, and every
      unfinished one. */
  lemma PruneIsExact(jobs: seq<BatchJob>, limit: int)
    requires Ordered(jobs)
    ensures var left := Erase(jobs, Uids(PruneDoomed(jobs, limit)));
            Filter(FinishedLive, Reverse(left)) == Filter(FinishedLive, Reverse(jobs))[..Kept(jobs, limit)] &&
            (forall x :: x in jobs && !FinishedLive(x) ==> x in left)
  {
    var history := Filter(FinishedLive, Reverse(jobs));
    var kept, doomed := history[..Kept(jobs, limit)], PruneDoomed(jobs, limit);
    var uids := Uids(doomed);
    KeptAndDoomedAreDisjoint(jobs, limit);
    calc {
      Filter(FinishedLive, Reverse(Erase(jobs, uids)));
      { FilterReverse(Spares(uids), jobs); }
      Filter(FinishedLive, Erase(Reverse(jobs), uids));
      { FilterCommutes(FinishedLive, Spares(uids), Reverse(jobs)); }
      Erase(history, uids);
      { assert history == kept + doomed; FilterConcat(Spares(uids), kept, doomed); }
      Erase(kept, uids) + Erase(doomed, uids);
      { ErasingOthers(kept, uids); FilterNone(Spares(uids), doomed); }
      kept;
    }
    forall x | x in jobs && !FinishedLive(x) ensures x.uid !in uids {
      forall y | y in doomed ensures y.uid != x.uid {
        if y.uid == x.uid {
          SameUidSameJob(jobs, x, y);
        }
      }
    }
  }

  lemma KeptAndDoomedAreDisjoint(jobs: seq<BatchJob>, limit: int)
    requires Ordered(jobs)
    ensures forall x :: x in Filter(FinishedLive, Reverse(jobs))[..Kept(jobs, limit)] ==>
                          x.uid !in Uids(PruneDoomed(jobs, limit))
  {
    var history := Filter(FinishedLive, Reverse(jobs));
    var kept, doomed := history[..Kept(jobs, limit)], PruneDoomed(jobs, limit);
    HistoryIsDescending(jobs);
    DescendingParts(history, |kept|);
  }

  lemma DescendingParts(xs: seq<BatchJob>, n: nat)
    requires Descending(xs) && n <= |xs|
    ensures forall x :: x in xs[..n] ==> x.uid !in Uids(xs[n..])
  {
    forall x, y | x in xs[..n] && y in xs[n..] ensures x.uid != y.uid {
      var i :| 0 <= i < n && xs[i] == x;
      var k :| n <= k < |xs| && xs[k] == y;
    }
  }

  ghost predicate Descending(jobs: seq<BatchJob>) {
    forall i, k :: 0 <= i < k < |jobs| ==> jobs[i].uid > jobs[k].uid
  }

  lemma HistoryIsDescending(jobs: seq<BatchJob>)
    requires Ordered(jobs)
    ensures Descending(Filter(FinishedLive, Reverse(jobs)))
  {
    FilterReverse(FinishedLive, jobs);
    FilterOrdered(FinishedLive, jobs);
  }

  /** With a limit of at least one the newest batch Job is never pruned. */
  lemma NewestSurvivesPrune(jobs: seq<BatchJob>, limit: int)
    requires Ordered(jobs) && jobs != [] && limit >= 1
    ensures jobs[|jobs| - 1].uid !in Uids(PruneDoomed(jobs, limit))
  {
    var history := Filter(FinishedLive, Reverse(jobs));
    forall x | x in PruneDoomed(jobs, limit) ensures x.uid < jobs[|jobs| - 1].uid {
      HistoryIsDescending(jobs);
      FilterReverse(FinishedLive, jobs);
      var k :| Kept(jobs, limit) <= k < |history| && history[k] == x;
      assert history[0].uid > history[k].uid;
      NewestHasTheLargestUid(jobs, history[0]);
    }
  }

  lemma NewestHasTheLargestUid(jobs: seq<BatchJob>, x: BatchJob)
    requires Ordered(jobs) && x in jobs
    ensures x.uid <= jobs[|jobs| - 1].uid
  {
    var k :| 0 <= k < |jobs| && jobs[k] == x;
    assert k < |jobs| - 1 ==> jobs[k].uid < jobs[|jobs| - 1].uid;
  }

  // ---------------------------------------------------------------- the newest live batch Job

  lemma LatestLiveSnoc(jobs: seq<BatchJob>, x: BatchJob)
    ensures LatestLive(jobs + [x]) == if Live(x) then Some(x) else LatestLive(jobs)
  {
    assert (jobs + [x])[..|jobs|] == jobs;
  }

  lemma LatestLiveOfFiltered(jobs: seq<BatchJob>, p: BatchJob -> bool)
    requires jobs != []
    ensures var n := |jobs| - 1;
            LatestLive(Filter(p, jobs)) ==
            if p(jobs[n]) && Live(jobs[n]) then Some(jobs[n]) else LatestLive(Filter(p, jobs[..n]))
  {
    var n := |jobs| - 1;
    var rest := Filter(p, jobs[..n]);
    FilterLast(p, jobs);
    LatestLiveSnoc(rest, jobs[n]);
    assert rest + [] == rest;
  }

  /** Removing other batch Jobs does not change which live one is the newest. */
  lemma {:induction false} LatestLiveSurvives(jobs: seq<BatchJob>, p: BatchJob -> bool)
    requires LatestLive(jobs).Some? ==> p(LatestLive(jobs).value)
    ensures LatestLive(Filter(p, jobs)) == LatestLive(jobs)
  {
    if jobs != [] {
      LatestLiveOfFiltered(jobs, p);
      if !Live(jobs[|jobs| - 1]) {
        LatestLiveSurvives(jobs[..|jobs| - 1], p);
      }
    }
  }
}
