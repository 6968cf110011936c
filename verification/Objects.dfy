/** The Kubernetes objects the controllers work on, and when a batch Job counts as finished. */
module Objects {
  import opened Prelude
  import opened Json

  datatype ConditionStatus = True | False | Unknown

  datatype JobConditionType = Complete | Failed | Suspended | FailureTarget | SuccessCriteriaMet

  /** `at` is the last transition time in nanoseconds; None is the zero time. */
  datatype JobCondition = JobCondition(kind: JobConditionType, status: ConditionStatus, at: Option<int>)

  datatype OwnerRef = OwnerRef(apiVersion: string, kind: string, name: string, controller: bool)

  /** What the controller sends to the API server when it creates a batch Job. */
  datatype Manifest = Manifest(
    name: string,
    labels: map<string, string>,
    annotations: map<string, string>,
    owners: seq<OwnerRef>,
    spec: Json)

  /** A batch Job in the store. `created` is its creation timestamp; `deleting` says that its deletion timestamp
      is set. */
  datatype BatchJob = BatchJob(
    uid: nat,
    created: int,
    manifest: Manifest,
    conditions: seq<JobCondition>,
    deleting: bool)

  datatype FinishedInfo = FinishedInfo(finished: bool, at: Option<int>)

  predicate IsTerminal(c: JobCondition) {
    c.status == True && (c.kind == Complete || c.kind == Failed)
  }

  /** The first terminal condition decides. */
  function FinishedInfoOf(conditions: seq<JobCondition>): FinishedInfo {
    if conditions == [] then FinishedInfo(false, None)
    else if IsTerminal(conditions[0]) then FinishedInfo(true, conditions[0].at)
    else FinishedInfoOf(conditions[1..])
  }

  predicate Finished(j: BatchJob) {
    FinishedInfoOf(j.conditions).finished
  }

  function FinishedAt(j: BatchJob): Option<int> {
    FinishedInfoOf(j.conditions).at
  }

  predicate Live(j: BatchJob) {
    !j.deleting
  }

  /** A Job has finished when it has succeeded and when it has failed, and not before. */
  lemma {:induction false} FinishedIffTerminalCondition(conditions: seq<JobCondition>)
    ensures FinishedInfoOf(conditions).finished <==>
            exists c :: c in conditions && c.status == True && (c.kind == Complete || c.kind == Failed)
  {
    if conditions != [] {
      FinishedIffTerminalCondition(conditions[1..]);
      assert forall c :: c in conditions <==> c == conditions[0] || c in conditions[1..];
    }
  }

  /** The finish time is that of the first such condition, whatever comes before and after it. */
  lemma {:induction false} FinishTimeIsOfTheFirst(conditions: seq<JobCondition>, i: nat)
    requires i < |conditions| && conditions[i].status == True
    requires conditions[i].kind == Complete || conditions[i].kind == Failed
    requires forall k :: 0 <= k < i ==>
               !(conditions[k].status == True && (conditions[k].kind == Complete || conditions[k].kind == Failed))
    ensures FinishedInfoOf(conditions) == FinishedInfo(true, conditions[i].at)
  {
    if i > 0 {
      FinishTimeIsOfTheFirst(conditions[1..], i - 1);
    }
  }

  /** Conditions appended later never change when, or whether, a Job that has finished is seen to have finished;
      for one that has not, the new condition alone decides. */
  lemma {:induction false} LaterConditionsDoNotMatter(conditions: seq<JobCondition>, c: JobCondition)
    ensures FinishedInfoOf(conditions + [c]) ==
            if FinishedInfoOf(conditions).finished then FinishedInfoOf(conditions)
            else FinishedInfo(IsTerminal(c), if IsTerminal(c) then c.at else None)
  {
    if conditions != [] {
      assert (conditions + [c])[1..] == conditions[1..] + [c];
      LaterConditionsDoNotMatter(conditions[1..], c);
    }
  }
}
