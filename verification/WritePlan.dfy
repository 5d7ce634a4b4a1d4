/** Statuses, the transition table and the aggregate verdict of a write plan
    (write_plan.py), with the immutable operations a plan is made of. */
module WritePlan {

  /** `PlanStatus`: plan rows and operation rows both store one of these strings. */
  datatype Status =
    | Issued
    | Executing
    | Applied
    | AlreadyApplied
    | Rejected
    | Conflict
    | Partial
    | Unknown
    | LegacyUnknown
    | RetryableNotApplied
    | Expired

  predicate IsEvidence(s: Status) {
    !s.Issued? && !s.Executing? && !s.Expired?
  }

  /** `ApplyStatus` has the same strings except ISSUED, EXECUTING and EXPIRED. */
  type ApplyStatus = s: Status | IsEvidence(s) witness Applied

  predicate IsSuccess(s: Status) {
    s.Applied? || s.AlreadyApplied?
  }

  predicate CanTransition(current: Status, target: Status) {
    match current
    case Issued => target in {Executing, Expired}
    case Executing => target in {Applied, AlreadyApplied, Rejected, Conflict, Partial, Unknown}
    case Unknown => target in {Applied, Conflict, RetryableNotApplied}
    case LegacyUnknown => target in {Applied, Conflict, RetryableNotApplied}
    case RetryableNotApplied => target == Executing
    case Partial => target in {Partial, Applied, Unknown}
    case _ => false
  }

  /** The shape of the table: a plan is started or expired once, replayed only from
      RETRYABLE_NOT_APPLIED, and decided plans stay as they are; a legacy plan of unknown fate is
      settled like any other. */
  lemma TransitionsExactly(current: Status, target: Status)
    ensures CanTransition(current, Expired) <==> current == Issued
    ensures CanTransition(current, Executing) <==> current in {Issued, RetryableNotApplied}
    ensures CanTransition(current, RetryableNotApplied) <==> current in {Unknown, LegacyUnknown}
    ensures !CanTransition(current, Issued) && !CanTransition(current, LegacyUnknown)
    ensures current in {Applied, AlreadyApplied, Rejected, Conflict, Expired} ==> !CanTransition(current, target)
    ensures CanTransition(LegacyUnknown, target) <==> CanTransition(Unknown, target)
    ensures CanTransition(current, Applied) <==> current in {Executing, Unknown, LegacyUnknown, Partial}
    ensures CanTransition(current, AlreadyApplied) || CanTransition(current, Rejected) ==> current == Executing
    ensures CanTransition(current, Partial) <==> current in {Executing, Partial}
  {
  }

  // ---------- Aggregation ----------

  /** `aggregate_plan_status`, over evidence only. */
  function AggregatePlanStatus(statuses: seq<ApplyStatus>): Status {
    if statuses == [] then Issued
    else if forall s | s in statuses :: IsSuccess(s) then
      if forall s | s in statuses :: s == AlreadyApplied then AlreadyApplied else Applied
    else if exists s | s in statuses :: IsSuccess(s) then Partial
    else if Partial in statuses then Partial
    else if Unknown in statuses then Unknown
    else if Conflict in statuses then Conflict
    else if RetryableNotApplied in statuses then RetryableNotApplied
    else Rejected
  }

  /** What the stored rows of a plan amount to, said by membership alone. */
  function Verdict(statuses: seq<Status>): Status {
    if statuses == [] then Issued
    else if forall s | s in statuses :: IsSuccess(s) then
      if Applied in statuses then Applied else AlreadyApplied
    else if Applied in statuses || AlreadyApplied in statuses then Partial
    else if Partial in statuses && forall s | s in statuses :: IsEvidence(s) then Partial
    else if Unknown in statuses then Unknown
    else if Conflict in statuses then Conflict
    else if RetryableNotApplied in statuses then RetryableNotApplied
    else if forall s | s in statuses :: IsEvidence(s) then Rejected
    else if Rejected in statuses && Partial !in statuses && LegacyUnknown !in statuses then Rejected
    else Executing
  }

  /** `_aggregate_persisted_statuses`: split the rows into evidence and pending, then decide. */
  method AggregatePersistedStatuses(statuses: seq<Status>) returns (verdict: Status)
    ensures verdict == Verdict(statuses)
  {
    var completed: seq<ApplyStatus> := [];
    var pending := false;
    for k := 0 to |statuses|
      invariant forall s :: s in completed <==> s in statuses[..k] && IsEvidence(s)
      invariant pending <==> exists s :: s in statuses[..k] && !IsEvidence(s)
    {
      assert statuses[..k + 1] == statuses[..k] + [statuses[k]];
      if IsEvidence(statuses[k]) {
        completed := completed + [statuses[k]];
      } else {
        assert statuses[k] in statuses[..k + 1];
        pending := true;
      }
    }
    assert statuses[..|statuses|] == statuses;
    if statuses != [] {
      assert statuses[0] in statuses;
    }
    if pending {
      if exists s | s in completed :: IsSuccess(s) {
        return Partial;
      }
      if Unknown in completed {
        return Unknown;
      }
      if Conflict in completed {
        return Conflict;
      }
      if RetryableNotApplied in completed {
        return RetryableNotApplied;
      }
      if completed != [] && forall s | s in completed :: s == Rejected {
        assert completed[0] in completed;
        return Rejected;
      }
      return Executing;
    }
    if completed != [] {
      assert completed[0] in completed;
    }
    verdict := AggregatePlanStatus(completed);
  }

  /** The verdict never hides a known write: it is a success exactly when every row is one,
      and PARTIAL exactly when some but not all rows are (or a bare PARTIAL row is left). */
  lemma VerdictHonest(statuses: seq<Status>)
    ensures IsSuccess(Verdict(statuses)) <==> statuses != [] && forall s | s in statuses :: IsSuccess(s)
    ensures Verdict(statuses) == Partial <==>
            ((exists s | s in statuses :: IsSuccess(s)) && exists s | s in statuses :: !IsSuccess(s))
            || (Partial in statuses && forall s | s in statuses :: IsEvidence(s) && !IsSuccess(s))
  {
  }

  /** Without a success and a bare PARTIAL, the most cautious status among the rows decides; a plan
      is refused once something was and nothing else is known, and otherwise goes on. */
  lemma VerdictCautious(statuses: seq<Status>)
    requires statuses != [] && Partial !in statuses && forall s | s in statuses :: !IsSuccess(s)
    ensures var verdict := Verdict(statuses);
            && (verdict == Unknown <==> Unknown in statuses)
            && (verdict == Conflict <==> Conflict in statuses && Unknown !in statuses)
            && (verdict == RetryableNotApplied <==>
                  RetryableNotApplied in statuses && Conflict !in statuses && Unknown !in statuses)
            && (verdict == Rejected <==>
                  || (forall s | s in statuses :: s in {Rejected, LegacyUnknown})
                  || (Rejected in statuses
                      && forall s | s in statuses :: s == Rejected || !IsEvidence(s)))
            && verdict in {Unknown, Conflict, RetryableNotApplied, Rejected, Executing}
  {
    assert statuses[0] in statuses;
  }

  // ---------- Operations and plans ----------

  /** JSON-like state values; only their equality and `exists` matter here. */
  datatype State =
    | Null
    | Bool(b: bool)
    | Number(n: int)
    | Text(s: string)
    | List(items: seq<State>)
    | Object(fields: map<string, State>)

  type StateMap = map<string, State>

  datatype OperationPlan = OperationPlan(
    id: string,
    kind: string,
    expectedState: StateMap,
    desiredState: StateMap,
    dependsOn: seq<string>)

  /** Operation ids are distinct and every dependency names an earlier operation. */
  ghost predicate WellOrdered(operations: seq<OperationPlan>) {
    && (forall i, j :: 0 <= i < j < |operations| ==> operations[i].id != operations[j].id)
    && (forall i, d :: 0 <= i < |operations| && d in operations[i].dependsOn ==>
          exists j :: 0 <= j < i && operations[j].id == d)
  }

  /** `WritePlan.__post_init__`: one pass with a growing `seen` set. */
  method CheckOperations(operations: seq<OperationPlan>) returns (accepted: bool)
    ensures accepted <==> WellOrdered(operations)
  {
    var seen: set<string> := {};
    for i := 0 to |operations|
      invariant forall s :: s in seen <==> exists j :: 0 <= j < i && operations[j].id == s
      invariant WellOrdered(operations[..i])
    {
      var operation := operations[i];
      if operation.id in seen {
        return false;
      }
      if exists d | d in operation.dependsOn :: d !in seen {
        return false;
      }
      assert operations[..i + 1] == operations[..i] + [operation];
      seen := seen + {operation.id};
    }
    assert operations[..|operations|] == operations;
    return true;
  }
}
