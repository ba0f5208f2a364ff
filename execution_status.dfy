/**
 * Classification of a job execution's condition list into the worker's
 * three-valued execution status (`getExecutionStatus`, after the fetch).
 */
module ExecutionStatus {
  import opened Common

  datatype JobExecutionStatus = RUNNING | SUCCEEDED | FAILED

  /** One entry of an execution's `conditions`: its `type` and its `state`, either possibly absent. */
  datatype Condition = Condition(ctype: Option<string>, state: Option<string>)

  predicate IsSucceededType(c: Condition)
  {
    c.ctype == Some("Succeeded")
  }

  /** Index `i` holds the first condition of type "Succeeded". */
  ghost predicate FirstSucceededAt(conditions: seq<Condition>, i: int)
  {
    && 0 <= i < |conditions|
    && IsSucceededType(conditions[i])
    && forall j :: 0 <= j < i ==> !IsSucceededType(conditions[j])
  }

  /** `conditions.find(c => c.type === "Succeeded")`, as the index of the match. */
  function FindSucceeded(conditions: seq<Condition>): (r: Option<nat>)
    ensures r.Some? ==> FirstSucceededAt(conditions, r.value)
    ensures r.None? ==> forall j :: 0 <= j < |conditions| ==> !IsSucceededType(conditions[j])
  {
    if conditions == [] then None
    else if IsSucceededType(conditions[0]) then Some(0)
    else
      match FindSucceeded(conditions[1..])
      case None => None
      case Some(k) => Some(k + 1)
  }

  /** `execution.conditions || []`: a missing list reads as empty. */
  function ConditionsOf(conditions: Option<seq<Condition>>): seq<Condition>
  {
    conditions.GetOr([])
  }

  /**
   * The status of an execution whose `conditions` field is `conditions`.
   * Only the first "Succeeded" condition is consulted; FAILED needs an explicit
   * CONDITION_FAILED state, and everything that is not decided reads as RUNNING.
   */
  function GetExecutionStatus(conditions: Option<seq<Condition>>): (status: JobExecutionStatus)
    ensures var cs := ConditionsOf(conditions);
            status == SUCCEEDED <==>
              exists i :: FirstSucceededAt(cs, i) && cs[i].state == Some("CONDITION_SUCCEEDED")
    ensures var cs := ConditionsOf(conditions);
            status == FAILED <==>
              exists i :: FirstSucceededAt(cs, i) && cs[i].state == Some("CONDITION_FAILED")
    ensures var cs := ConditionsOf(conditions);
            (forall j :: 0 <= j < |cs| ==> !IsSucceededType(cs[j])) ==> status == RUNNING
  {
    var cs := ConditionsOf(conditions);
    match FindSucceeded(cs)
    case None => RUNNING
    case Some(i) =>
      if cs[i].state == Some("CONDITION_SUCCEEDED") then SUCCEEDED
      else if cs[i].state == Some("CONDITION_FAILED") then FAILED
      else RUNNING
  }

  /**
   * Conditions other than the first "Succeeded" one never matter: two lists whose
   * first "Succeeded" conditions are equal classify alike, whatever else they hold.
   */
  lemma OnlyFirstSucceededCounts(a: seq<Condition>, i: int, b: seq<Condition>, k: int)
    requires FirstSucceededAt(a, i) && FirstSucceededAt(b, k) && a[i] == b[k]
    ensures GetExecutionStatus(Some(a)) == GetExecutionStatus(Some(b))
  {
  }

  /** A list without any "Succeeded" condition, empty or missing included, reads as RUNNING. */
  lemma NoSucceededConditionIsRunning(conditions: Option<seq<Condition>>)
    requires conditions.None? || conditions.value == [] ||
             forall j :: 0 <= j < |conditions.value| ==> !IsSucceededType(conditions.value[j])
    ensures GetExecutionStatus(conditions) == RUNNING
  {
  }
}
