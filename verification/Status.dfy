/** The status conditions of a wrapper. */
module Status {
  import opened Prelude
  import opened Objects

  datatype Condition = Condition(kind: string, status: ConditionStatus, reason: string, message: string)

  const AVAILABLE: string := "Available"
  const DEGRADED: string := "Degraded"

  /** No two conditions have the same type. */
  ghost predicate Unique(conditions: seq<Condition>) {
    forall i, k :: 0 <= i < k < |conditions| ==> conditions[i].kind != conditions[k].kind
  }

  function Find(conditions: seq<Condition>, kind: string): (r: Option<Condition>)
    ensures r.Some? ==> r.value in conditions && r.value.kind == kind
    ensures r.None? ==> forall c :: c in conditions ==> c.kind != kind
  {
    if conditions == [] then None
    else if conditions[0].kind == kind then Some(conditions[0])
    else Find(conditions[1..], kind)
  }

  /** The first condition of the type is overwritten, or the condition is appended. */
  function SetCondition(conditions: seq<Condition>, c: Condition): (r: seq<Condition>)
    ensures forall x :: x in r ==> x == c || x in conditions
  {
    if conditions == [] then [c]
    else if conditions[0].kind == c.kind then [c] + conditions[1..]
    else [conditions[0]] + SetCondition(conditions[1..], c)
  }

  lemma {:induction false} SetConditionSets(conditions: seq<Condition>, c: Condition)
    requires Unique(conditions)
    ensures Unique(SetCondition(conditions, c))
    ensures Find(SetCondition(conditions, c), c.kind) == Some(c)
    ensures forall kind :: kind != c.kind ==> Find(SetCondition(conditions, c), kind) == Find(conditions, kind)
  {
    var r := SetCondition(conditions, c);
    if conditions != [] && conditions[0].kind != c.kind {
      var rest := conditions[1..];
      SetConditionSets(rest, c);
      assert r[1..] == SetCondition(rest, c);
      forall i, k | 0 <= i < k < |r| ensures r[i].kind != r[k].kind {
        if i == 0 {
          assert r[k] == SetCondition(rest, c)[k - 1] && SetCondition(rest, c)[k - 1] in SetCondition(rest, c);
        } else {
          assert r[i] == SetCondition(rest, c)[i - 1] && r[k] == SetCondition(rest, c)[k - 1];
        }
      }
    } else if conditions != [] {
      assert r[1..] == conditions[1..];
      forall i, k | 0 <= i < k < |r| ensures r[i].kind != r[k].kind {
        assert r[i].kind == conditions[i].kind && r[k].kind == conditions[k].kind;
      }
    } else {
      assert r == [c] && r[0] == c;
    }
  }

  /** Exactly one Available and exactly one Degraded, with opposite statuses; `ok` is what Available says. */
  ghost predicate Says(conditions: seq<Condition>, ok: bool) {
    && Unique(conditions)
    && Find(conditions, AVAILABLE).Some? && Find(conditions, DEGRADED).Some?
    && Find(conditions, AVAILABLE).value.status == (if ok then True else False)
    && Find(conditions, DEGRADED).value.status == (if ok then False else True)
  }

  ghost predicate Coherent(conditions: seq<Condition>) {
    Says(conditions, true) || Says(conditions, false)
  }

  ghost predicate AllCoherent(calls: seq<seq<Condition>>) {
    forall conds :: conds in calls ==> Coherent(conds)
  }

  function SetOk(conditions: seq<Condition>): seq<Condition> {
    SetCondition(SetCondition(conditions, Condition(AVAILABLE, True, "OK", "")), Condition(DEGRADED, False, "OK", ""))
  }

  function SetFailed(conditions: seq<Condition>, message: string): seq<Condition> {
    SetCondition(
      SetCondition(conditions, Condition(AVAILABLE, False, "Reconciling", message)),
      Condition(DEGRADED, True, "Reconciling", ""))
  }

  /** Whatever was there, the outcome is coherent, as long as no type occurred twice. */
  lemma SetOkSays(conditions: seq<Condition>)
    requires Unique(conditions)
    ensures Says(SetOk(conditions), true)
    ensures Find(SetOk(conditions), "Available") == Some(Condition("Available", True, "OK", ""))
    ensures Find(SetOk(conditions), "Degraded") == Some(Condition("Degraded", False, "OK", ""))
  {
    var a, d := Condition(AVAILABLE, True, "OK", ""), Condition(DEGRADED, False, "OK", "");
    assert |AVAILABLE| == 9 && |DEGRADED| == 8;
    SetConditionSets(conditions, a);
    SetConditionSets(SetCondition(conditions, a), d);
  }

  lemma SetFailedSays(conditions: seq<Condition>, message: string)
    requires Unique(conditions)
    ensures Says(SetFailed(conditions, message), false)
    ensures Find(SetFailed(conditions, message), "Available") ==
            Some(Condition("Available", False, "Reconciling", message))
    ensures Find(SetFailed(conditions, message), "Degraded") ==
            Some(Condition("Degraded", True, "Reconciling", ""))
  {
    var a, d := Condition(AVAILABLE, False, "Reconciling", message), Condition(DEGRADED, True, "Reconciling", "");
    assert |AVAILABLE| == 9 && |DEGRADED| == 8;
    SetConditionSets(conditions, a);
    SetConditionSets(SetCondition(conditions, a), d);
  }

  lemma {:induction false} SettingAgainChangesNothing(conditions: seq<Condition>, c: Condition)
    requires Find(conditions, c.kind) == Some(c)
    ensures SetCondition(conditions, c) == conditions
  {
    if conditions[0].kind == c.kind {
      assert [c] + conditions[1..] == conditions;
    } else {
      SettingAgainChangesNothing(conditions[1..], c);
      assert [conditions[0]] + conditions[1..] == conditions;
    }
  }

  /** A second success writes what is there already. */
  lemma SetOkIsIdempotent(conditions: seq<Condition>)
    requires Unique(conditions)
    ensures SetOk(SetOk(conditions)) == SetOk(conditions)
  {
    var a, d := Condition(AVAILABLE, True, "OK", ""), Condition(DEGRADED, False, "OK", "");
    assert |AVAILABLE| == 9 && |DEGRADED| == 8;
    SetConditionSets(conditions, a);
    SetConditionSets(SetCondition(conditions, a), d);
    SettingAgainChangesNothing(SetOk(conditions), a);
    SettingAgainChangesNothing(SetOk(conditions), d);
  }
}
