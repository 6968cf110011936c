/** Batch Job by batch Job: whom the passes of a reconcile delete, what each API call does to the store, and which
    failed calls make a reconcile fail. */
module Effects {
  import opened Prelude
  import opened Decimal
  import opened Objects
  import opened Construct
  import opened Passes
  import opened PassFacts
  import opened Cluster
  import opened Window

  // ---------------------------------------------------------------- whom the passes delete

  /** The finished batch Jobs that are newer and not in deletion. */
  function NewerFinished(jobs: seq<BatchJob>, x: BatchJob): set<nat> {
    set y | y in jobs && Finished(y) && !y.deleting && y.uid > x.uid :: y.uid
  }

  /** Of a descending list the first `i` are those with a larger UID than the next one. */
  lemma LargerComeFirst(xs: seq<BatchJob>, i: nat, y: BatchJob)
    requires Descending(xs) && i < |xs|
    ensures y in xs && y.uid > xs[i].uid <==> y in xs[..i]
  {
    if y in xs && y.uid > xs[i].uid {
      var k :| 0 <= k < |xs| && xs[k] == y;
      assert xs[..i][k] == y;
    }
    if y in xs[..i] {
      var k :| 0 <= k < i && xs[k] == y;
    }
  }

  lemma InHistory(jobs: seq<BatchJob>, y: BatchJob)
    ensures y in Filter(FinishedLive, Reverse(jobs)) <==> y in jobs && Finished(y) && !y.deleting
  {
  }

  lemma RankInHistory(jobs: seq<BatchJob>, i: nat)
    requires Ordered(jobs) && i < |Filter(FinishedLive, Reverse(jobs))|
    ensures |NewerFinished(jobs, Filter(FinishedLive, Reverse(jobs))[i])| == i
  {
    var history := Filter(FinishedLive, Reverse(jobs));
    HistoryIsDescending(jobs);
    SizeIsLength(history[..i]);
    forall y: BatchJob
      ensures y in jobs && Finished(y) && !y.deleting && y.uid > history[i].uid <==> y in history[..i]
    {
      InHistory(jobs, y);
      LargerComeFirst(history, i, y);
    }
    assert NewerFinished(jobs, history[i]) == Uids(history[..i]);
  }

  /** The prune deletes a batch Job exactly when it has finished, is not in deletion, and the limit is used up by
      newer ones. */
  lemma PrunedIff(jobs: seq<BatchJob>, limit: int, x: BatchJob)
    requires Ordered(jobs) && x in jobs
    ensures x in PruneDoomed(jobs, limit) <==>
            Finished(x) && !x.deleting && |NewerFinished(jobs, x)| >= Max(limit, 0)
  {
    var history := Filter(FinishedLive, Reverse(jobs));
    if Finished(x) && !x.deleting {
      assert x in history;
      var i :| 0 <= i < |history| && history[i] == x;
      RankInHistory(jobs, i);
      PositionIsUnique(jobs, limit, i);
    }
  }

  lemma InTheRest(xs: seq<BatchJob>, n: nat, i: nat)
    requires Descending(xs) && i < |xs| && n <= |xs|
    ensures xs[i] in xs[n..] <==> i >= n
  {
    if i >= n {
      assert xs[n..][i - n] == xs[i];
    } else {
      forall k | 0 <= k < |xs[n..]| ensures xs[n..][k] != xs[i] {
        assert xs[n..][k] == xs[n + k];
      }
    }
  }

  lemma PositionIsUnique(jobs: seq<BatchJob>, limit: int, i: nat)
    requires Ordered(jobs) && i < |Filter(FinishedLive, Reverse(jobs))|
    ensures Filter(FinishedLive, Reverse(jobs))[i] in PruneDoomed(jobs, limit) <==> i >= Kept(jobs, limit)
  {
    HistoryIsDescending(jobs);
    InTheRest(Filter(FinishedLive, Reverse(jobs)), Kept(jobs, limit), i);
  }

  lemma AllButTheLast(jobs: seq<BatchJob>, x: BatchJob)
    requires Ordered(jobs) && x in jobs
    ensures x in jobs[..|jobs| - 1] <==> x.uid < jobs[|jobs| - 1].uid
    ensures x.uid <= jobs[|jobs| - 1].uid
  {
    var n := |jobs| - 1;
    var i :| 0 <= i < |jobs| && jobs[i] == x;
    if i < n {
      assert jobs[..n][i] == x;
    } else {
      forall k | 0 <= k < n ensures jobs[..n][k] != x {
        assert jobs[k].uid < jobs[n].uid;
      }
    }
  }

  /** The TTL pass deletes a batch Job exactly when it carries the mark and it is not the newest, or some other one
      does not. */
  lemma CulledIff(jobs: seq<BatchJob>, x: BatchJob)
    requires Ordered(jobs) && x in jobs
    ensures x in TtlDoomed(jobs) <==> Marked(x) && exists y :: y in jobs && (!Marked(y) || y.uid > x.uid)
  {
    var newest := jobs[|jobs| - 1];
    TtlDoomsAllMarkedOrSparesNewest(jobs);
    forall y | y in jobs ensures y.uid <= newest.uid {
      AllButTheLast(jobs, y);
    }
    if forall y :: y in jobs ==> Marked(y) {
      AllButTheLast(jobs, x);
      assert newest in jobs;
    }
  }

  // ---------------------------------------------------------------- what the calls do

  /** A delete call takes away the batch Job with the UID and no other, unless its deletion is pending already. It is
      logged, and its event queues the wrapper unless it carries the mark. */
  lemma DeleteTakesOne(w: World, uid: nat, why: Reason, x: BatchJob)
    requires Ordered(w.jobs)
    ensures x in Delete(w, uid, why).jobs <==> x in w.jobs && (x.uid != uid || x.deleting)
    ensures x in w.jobs && x.uid == uid && !x.deleting ==>
              Delete(w, uid, why).log == w.log + [Deleted(x, why, w.now)] &&
              Delete(w, uid, why).queued == (w.queued || !Marked(x))
  {
    if x in w.jobs && x.uid == uid && !x.deleting {
      var p := (y: BatchJob) => y.uid == uid && Live(y);
      forall y | y in w.jobs ensures p(y) <==> y == x {
        if p(y) {
          SameUidSameJob(w.jobs, x, y);
        }
      }
      OnlyOne(w.jobs, x, p);
      assert Deletions([x], why, w.now) == [Deleted(x, why, w.now)];
    }
  }

  /** Where nothing has the UID, or its deletion is pending, it changes nothing. */
  lemma DeleteOfNothing(w: World, uid: nat, why: Reason)
    requires forall y :: y in w.jobs && y.uid == uid ==> y.deleting
    ensures Delete(w, uid, why) == w
  {
    FilterNone((y: BatchJob) => y.uid == uid && Live(y), w.jobs);
    FilterAll(Spares({uid}), w.jobs);
    assert w.log + [] == w.log;
  }

  lemma {:induction false} OnlyOne(jobs: seq<BatchJob>, x: BatchJob, p: BatchJob -> bool)
    requires Ordered(jobs) && x in jobs && forall y :: y in jobs ==> (p(y) <==> y == x)
    ensures Filter(p, jobs) == [x]
  {
    if jobs[0] == x {
      forall y | y in jobs[1..] ensures !p(y) {
        var k :| 0 <= k < |jobs[1..]| && jobs[1..][k] == y;
        assert jobs[k + 1] == y;
      }
      FilterNone(p, jobs[1..]);
    } else {
      OnlyOne(jobs[1..], x, p);
    }
  }

  /** A create call adds one batch Job, behind all others, with the manifest that was sent. */
  lemma CreateAddsOne(w: World, next: Manifest)
    ensures var t := Create(w, next);
            && |t.jobs| == |w.jobs| + 1 && t.jobs[..|w.jobs|] == w.jobs
            && t.jobs[|w.jobs|].uid == w.serial && t.serial == w.serial + 1
            && t.jobs[|w.jobs|].manifest == next && t.jobs[|w.jobs|].conditions == [] && !t.jobs[|w.jobs|].deleting
            && t.log == w.log + [Created(t.jobs[|w.jobs|])] && t.queued
  {
  }

  /** An update marks the batch Job that was listed, if it is still as it was, and no other. */
  lemma UpdateMarksOne(w: World, j: BatchJob, i: nat)
    requires i < |w.jobs|
    ensures var t := UpdateMark(w, j);
            |t.jobs| == |w.jobs| && t.jobs[i] == (if w.jobs[i] == j then WithMark(j) else w.jobs[i]) &&
            t == w.(jobs := t.jobs, queued := w.queued || j in w.jobs)
  {
  }

  /** A collision adds one to the count, an absent one being zero; behind the largest int32 comes the smallest. */
  lemma BumpAddsOne(count: Option<int32>)
    ensures Bump(None) == 1
    ensures count.Some? && count.value < 2147483647 ==> Bump(count) == count.value + 1
    ensures count == Some(2147483647) ==> Bump(count) == -2147483648
  {
  }

  /** The count is stored in the wrapper as it was read, or not at all. */
  lemma CountIsStored(w: World, job: Job)
    ensures w.wrapper == Some(job) ==>
              UpdateCollisions(w, job) ==
              w.(wrapper := Some(job.(collisions := Some(Bump(job.collisions)))), queued := true)
    ensures w.wrapper != Some(job) ==> UpdateCollisions(w, job) == w
  {
  }

  /** Of two requeues the earlier one is kept. */
  lemma TheEarlierIsKept(timer: Option<int>, now: int, delay: Option<int>)
    ensures delay == None ==> Sooner(timer, DueAt(now, delay)) == timer
    ensures delay.Some? ==>
              Sooner(timer, DueAt(now, delay)).Some? &&
              var t := Sooner(timer, DueAt(now, delay)).value;
              (t == now + delay.value || timer == Some(t)) && t <= now + delay.value &&
              (timer.Some? ==> t <= timer.value)
  {
  }

  /** A round of the marking loop is about one listed batch Job, the newest that is left. The update is made exactly
      when its TTL had run out by the clock reading at the start of the pass, and sets the mark unless it fails or
      meets another state. */
  lemma MarksWhatHadExpired(build: Builder, s: State, o: Outcome)
    requires s.pc.Marking? && 0 < s.pc.todo <= |s.pc.listed|
    ensures var j, t := s.pc.listed[s.pc.todo - 1], Next(build, s, Ctl(o));
            && t.pc == WithTodo(s.pc, s.pc.todo - 1)
            && (if o == Ok && j in s.w.jobs && !Marked(j) && Finished(j) && FinishedAt(j).Some? && !j.deleting &&
                   Ttl(j).Some? && FinishedAt(j).value + Ttl(j).value * 1_000_000_000 <= s.pc.since then
                  t.w == s.w.(jobs := Replace(s.w.jobs, j, WithMark(j)), queued := true)
                else t.w == s.w)
  {
    NeedsMarkIff(s.pc.listed[s.pc.todo - 1], s.pc.since);
  }

  /** The pass works on a list of all batch Jobs, from the newest to the oldest, and on a clock reading made before. */
  lemma PassBegins(build: Builder, s: State)
    ensures s.pc.Ready? ==> Next(build, s, Ctl(Ok)) == State(s.w, Clocked(s.pc.job, s.pc.next, s.w.now))
    ensures s.pc.Clocked? ==>
              Next(build, s, Ctl(Ok)) ==
              State(s.w, Marking(s.pc.job, s.pc.next, s.pc.since, s.w.jobs, |s.w.jobs|))
  {
  }

  // ---------------------------------------------------------------- which failures count

  /** A reconcile is on its way to an error exactly after these calls: the read of the profile, or the construction;
      the final list; the create call, a collision included. Failures of the two passes never make it fail. */
  lemma FailsIff(build: Builder, s: State, o: Outcome)
    requires !s.pc.Idle? && !s.pc.Finishing?
    ensures var pc := Next(build, s, Ctl(o)).pc;
            (pc.Bumping? || (pc.Finishing? && pc.failed)) <==>
            (s.pc.Fetched? && (o != Ok || BuildFor(build, s.pc.job, s.w.profiles) == None)) ||
            (s.pc.Decide? && o != Ok) || (s.pc.Creating? && o != Ok) || s.pc.Bumping?
  {
  }

  /** A call that fails leaves the store, the wrapper and the requeue as they are; a collision and a status
      write aside. */
  lemma FailedCallsChangeNothing(build: Builder, s: State)
    requires !s.pc.Finishing?
    ensures Next(build, s, Ctl(Fail)).w == s.w
  {
  }

  /** After a failed list of the TTL pass the prune is next; after a failed list of the prune the final list is. */
  lemma ErrorsOfPassesAreDropped(build: Builder, s: State)
    ensures s.pc.Clocked? ==>
              Next(build, s, Ctl(Fail)) == State(s.w, Swept(s.pc.job, s.pc.next, s.pc.since, None))
    ensures s.pc.Swept? ==>
              Next(build, s, Ctl(Fail)) == State(s.w, Decide(s.pc.job, s.pc.next, s.pc.since, s.pc.delay))
  {
  }

  /** An error, or a status write that fails, queues the wrapper again and drops the requeue delay; else the requeue
      is armed. */
  lemma HowItEnds(build: Builder, s: State, o: Outcome)
    requires s.pc.Finishing?
    ensures var t := Next(build, s, Ctl(o));
            && t.pc.Idle?
            && t.w == if s.pc.failed || o != Ok then s.w.(queued := true)
                      else s.w.(timer := Sooner(s.w.timer, DueAt(s.w.now, s.pc.delay)))
  {
  }

  // ---------------------------------------------------------------- which events are seen

  /** The environment's deletion of a batch Job takes away that one, and queues the wrapper unless the batch Job
      carries the mark. */
  lemma RemovalIsSeenUnlessMarked(w: World, uid: nat, x: BatchJob)
    requires Ordered(w.jobs)
    ensures x in EnvNext(w, Remove(uid)).jobs <==> x in w.jobs && x.uid != uid
    ensures x in w.jobs && x.uid == uid ==>
              EnvNext(w, Remove(uid)).queued ==
              (w.queued || !("jobs.pixiv.net/ttl-expired" in x.manifest.annotations &&
                             x.manifest.annotations["jobs.pixiv.net/ttl-expired"] == "true"))
  {
    if x in w.jobs && x.uid == uid {
      forall y | y in w.jobs && y.uid == uid ensures y == x {
        SameUidSameJob(w.jobs, x, y);
      }
    }
  }

  /** The event of a profile queues the wrapper exactly when it refers to that profile and the handler can list it. */
  lemma ProfileEventsAreForTheirWrappers(w: World, name: string, profile: Option<PodProfile>, seen: bool)
    ensures EnvNext(w, SetProfile(name, profile, seen)).queued ==
            (w.queued || (seen && w.wrapper.Some? && w.wrapper.value.profileRef == name))
    ensures forall k :: k != name ==>
              var profiles := EnvNext(w, SetProfile(name, profile, seen)).profiles;
              (k in profiles <==> k in w.profiles) && (k in profiles ==> profiles[k] == w.profiles[k])
  {
  }
}
