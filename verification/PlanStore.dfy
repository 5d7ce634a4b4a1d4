/** The durable plan store (plan_store.py). Each method of `SQLitePlanStore` is one
    SQLite transaction; the functions before the class say, on values, what that
    transaction does to the one plan it touches. */
module PlanStore {
  import opened Wrappers
  import opened WritePlan

  type Token = string

  datatype OpRow = OpRow(
    operation: OperationPlan,
    status: Status,
    attempt: nat,
    attemptToken: Option<Token>,
    reconciled: bool)

  /** `lease_owner` and `lease_expires_at`: the source always writes the two columns together. */
  datatype Lease = Lease(owner: Token, expiresAt: int)

  /** A `write_plans` row with its `write_operations` rows in ordinal order. */
  datatype PlanRow = PlanRow(expiresAt: int, status: Status, lease: Option<Lease>, ops: seq<OpRow>)

  datatype StoreError =
    | NotFound
    | Duplicate
    | IllegalTransition
    | StateMismatch
    | LeaseAbsentOrExpired
    | OwnerMismatch
    | NotClaimable
    | StaleReceipt
    | LeaseActive
    | NotFenced
    | NotReconcilable

  function Statuses(ops: seq<OpRow>): (statuses: seq<Status>)
    ensures |statuses| == |ops|
    ensures forall i :: 0 <= i < |ops| ==> statuses[i] == ops[i].status
  {
    seq(|ops|, i requires 0 <= i < |ops| => ops[i].status)
  }

  predicate HoldsLease(plan: PlanRow, owner: Token) {
    plan.lease.Some? && plan.lease.value.owner == owner
  }

  predicate LeaseFree(plan: PlanRow, now: int) {
    plan.lease.None? || plan.lease.value.expiresAt <= now
  }

  // ---------- The transactions, on one plan ----------

  function NewRow(operation: OperationPlan): OpRow {
    OpRow(operation, Issued, 0, None, false)
  }

  function NewPlan(expiresAt: int, operations: seq<OperationPlan>): PlanRow {
    PlanRow(expiresAt, Issued, None, seq(|operations|, i requires 0 <= i < |operations| => NewRow(operations[i])))
  }

  function TransitionPlan(plan: PlanRow, expected: Status, target: Status): Result<PlanRow, StoreError> {
    if !CanTransition(expected, target) then Err(IllegalTransition)
    else if plan.status != expected then Err(StateMismatch)
    else Ok(plan.(status := target))
  }

  predicate PlanClaimable(plan: PlanRow, resume: bool, now: int) {
    && (plan.status == Issued || (resume && plan.status in {RetryableNotApplied, Partial}))
    && LeaseFree(plan, now)
  }

  function ClaimPlan(plan: PlanRow, owner: Token, leaseSeconds: int, resume: bool, now: int): PlanRow {
    if PlanClaimable(plan, resume, now) then
      plan.(
        status := if plan.status == Partial then Partial else Executing,
        lease := Some(Lease(owner, now + leaseSeconds)))
    else plan
  }

  function ClaimOperation(plan: PlanRow, i: nat, owner: Token, attemptToken: Token, leaseSeconds: int, now: int)
    : Result<PlanRow, StoreError>
    requires i < |plan.ops|
  {
    var row := plan.ops[i];
    if LeaseFree(plan, now) then Err(LeaseAbsentOrExpired)
    else if !HoldsLease(plan, owner) then Err(OwnerMismatch)
    else if row.status !in {Issued, RetryableNotApplied} then Err(NotClaimable)
    else
      var row' := row.(status := Executing, attempt := row.attempt + 1, attemptToken := Some(attemptToken),
                       reconciled := false);
      Ok(plan.(ops := plan.ops[i := row'], lease := Some(Lease(owner, now + leaseSeconds))))
  }

  /** The fence of `record_receipt`: this attempt of this operation, by the live lease holder. */
  predicate ReceiptFenced(plan: PlanRow, i: nat, attempt: nat, owner: Token, attemptToken: Token, now: int)
    requires i < |plan.ops|
  {
    && plan.ops[i].status == Executing
    && plan.ops[i].attempt == attempt
    && plan.ops[i].attemptToken == Some(attemptToken)
    && HoldsLease(plan, owner)
    && !LeaseFree(plan, now)
  }

  function VerdictAfter(plan: PlanRow, i: nat, status: Status): Status
    requires i < |plan.ops|
  {
    Verdict(Statuses(plan.ops)[i := status])
  }

  function RecordReceipt(plan: PlanRow, i: nat, status: ApplyStatus, attempt: nat, owner: Token, attemptToken: Token,
                         now: int)
    : Result<PlanRow, StoreError>
    requires i < |plan.ops|
  {
    var verdict := VerdictAfter(plan, i, status);
    if !ReceiptFenced(plan, i, attempt, owner, attemptToken, now) then Err(StaleReceipt)
    else if plan.status != verdict && !CanTransition(plan.status, verdict) then Err(IllegalTransition)
    else
      var keepLease := IsSuccess(status) && verdict in {Executing, Partial};
      Ok(plan.(
        ops := plan.ops[i := plan.ops[i].(status := status)],
        status := verdict,
        lease := if keepLease then plan.lease else None))
  }

  function BeginReconcile(plan: PlanRow, now: int): Result<PlanRow, StoreError> {
    if !LeaseFree(plan, now) then Err(LeaseActive)
    else if plan.status == Executing then Ok(plan.(status := Unknown, lease := None))
    else if plan.status in {Unknown, LegacyUnknown, Partial} then Ok(plan.(lease := None))
    else Ok(plan)
  }

  function RecordReconciliationReceipt(plan: PlanRow, i: nat, status: ApplyStatus): Result<PlanRow, StoreError>
    requires i < |plan.ops|
  {
    if plan.lease.Some? then Err(NotFenced)
    else if plan.ops[i].status !in {Issued, Executing, Unknown, LegacyUnknown} then Err(NotReconcilable)
    else
      Ok(plan.(
        ops := plan.ops[i := plan.ops[i].(status := status, reconciled := true)],
        status := VerdictAfter(plan, i, status)))
  }

  // ---------- The store ----------

  /** The row a primary-key lookup finds. */
  function IndexOf(ops: seq<OpRow>, operationId: string): (found: Option<nat>)
    ensures found.Some? ==> found.value < |ops| && ops[found.value].operation.id == operationId
    ensures found.Some? ==> forall j :: 0 <= j < found.value ==> ops[j].operation.id != operationId
    ensures found.None? ==> forall j :: 0 <= j < |ops| ==> ops[j].operation.id != operationId
  {
    if ops == [] then None
    else if ops[0].operation.id == operationId then Some(0)
    else
      match IndexOf(ops[1..], operationId)
      case None => None
      case Some(i) => Some(i + 1)
  }

  /** `operation_id` is a primary key, so inside one plan ids are distinct. */
  ghost predicate KeysDistinct(plan: PlanRow) {
    forall i, j :: 0 <= i < j < |plan.ops| ==> plan.ops[i].operation.id != plan.ops[j].operation.id
  }

  class SQLitePlanStore {
    var plans: map<string, PlanRow>

    /** The primary keys of both tables: no operation id occurs twice, in one plan or in two. */
    ghost predicate Valid()
      reads this
    {
      && (forall p :: p in plans ==> KeysDistinct(plans[p]))
      && (forall p, q, i, j ::
            p in plans && q in plans && p != q && 0 <= i < |plans[p].ops| && 0 <= j < |plans[q].ops| ==>
              plans[p].ops[i].operation.id != plans[q].ops[j].operation.id)
    }

    /** Every step keeps a plan's operations and leaves the other plans alone. */
    twostate predicate OnlyChanges(planId: string)
      reads this
    {
      && plans.Keys == old(plans).Keys
      && forall q :: q in plans && q != planId ==> plans[q] == old(plans)[q]
    }

    constructor ()
      ensures Valid() && plans == map[]
    {
      plans := map[];
    }

    /** `UPDATE`: one plan's columns change, no key does. */
    method Write(planId: string, row: PlanRow)
      requires Valid() && planId in plans
      requires |row.ops| == |plans[planId].ops| && forall i ::
                 0 <= i < |row.ops| ==> row.ops[i].operation == plans[planId].ops[i].operation
      modifies this
      ensures Valid() && OnlyChanges(planId) && plans == old(plans)[planId := row]
    {
      plans := plans[planId := row];
    }

    method SavePlan(planId: string, expiresAt: int, operations: seq<OperationPlan>) returns (r: Result<(), StoreError>)
      requires Valid() && WellOrdered(operations)
      modifies this
      ensures Valid()
      ensures r.Ok? <==> planId !in old(plans) && forall p, i :: p in old(plans) && 0 <= i < |operations| ==>
                            IndexOf(old(plans)[p].ops, operations[i].id).None?
      ensures plans == if r.Ok? then old(plans)[planId := NewPlan(expiresAt, operations)] else old(plans)
    {
      if planId in plans {
        return Err(Duplicate);
      }
      if exists p | p in plans :: exists i | 0 <= i < |operations| :: IndexOf(plans[p].ops, operations[i].id).Some? {
        return Err(Duplicate);
      }
      var row := NewPlan(expiresAt, operations);
      forall p, i, j | p in plans && 0 <= i < |plans[p].ops| && 0 <= j < |row.ops|
        ensures plans[p].ops[i].operation.id != row.ops[j].operation.id
      {
        assert IndexOf(plans[p].ops, operations[j].id).None?;
      }
      plans := plans[planId := row];
      r := Ok(());
    }

    /** `get_plan_record`: a read transaction. */
    method GetPlanRecord(planId: string) returns (r: Option<PlanRow>)
      ensures r == if planId in plans then Some(plans[planId]) else None
    {
      r := if planId in plans then Some(plans[planId]) else None;
    }

    method Transition(planId: string, expected: Status, target: Status) returns (r: Result<(), StoreError>)
      requires Valid()
      modifies this
      ensures Valid() && OnlyChanges(planId)
      ensures r == if planId !in old(plans) then
                     Err(if CanTransition(expected, target) then StateMismatch else IllegalTransition)
                   else
                     match TransitionPlan(old(plans)[planId], expected, target)
                     case Ok(_) => Ok(())
                     case Err(e) => Err(e)
      ensures r.Ok? ==> Ok(plans[planId]) == TransitionPlan(old(plans)[planId], expected, target)
      ensures r.Err? ==> plans == old(plans)
    {
      if !CanTransition(expected, target) {
        return Err(IllegalTransition);
      }
      if planId !in plans || plans[planId].status != expected {
        return Err(StateMismatch);
      }
      Write(planId, plans[planId].(status := target));
      r := Ok(());
    }

    /** Elect one executor: at most one of any number of concurrent claims sees `claimed`. */
    method Claim(planId: string, owner: Token, leaseSeconds: int, resume: bool, now: int)
      returns (r: Result<bool, StoreError>)
      requires Valid() && leaseSeconds > 0
      modifies this
      ensures Valid() && OnlyChanges(planId)
      ensures r == if planId !in old(plans) then Err(NotFound) else Ok(PlanClaimable(old(plans)[planId], resume, now))
      ensures planId in plans ==> plans[planId] == ClaimPlan(old(plans)[planId], owner, leaseSeconds, resume, now)
    {
      if planId !in plans {
        return Err(NotFound);
      }
      var row := plans[planId];
      var claimable := {Issued};
      if resume {
        claimable := claimable + {RetryableNotApplied, Partial};
      }
      var leaseAvailable := row.lease.None? || row.lease.value.expiresAt <= now;
      if row.status in claimable && leaseAvailable {
        var target := if row.status != Partial then Executing else row.status;
        Write(planId, row.(status := target, lease := Some(Lease(owner, now + leaseSeconds))));
        return Ok(true);
      }
      r := Ok(false);
    }

    method FindOperation(planId: string, operationId: string) returns (found: Option<nat>)
      requires planId in plans
      ensures found == IndexOf(plans[planId].ops, operationId)
    {
      var ops := plans[planId].ops;
      for i := 0 to |ops|
        invariant forall j :: 0 <= j < i ==> ops[j].operation.id != operationId
      {
        if ops[i].operation.id == operationId {
          return Some(i);
        }
      }
      found := None;
    }

    /** Returns the new attempt number. The row is located by its primary key. */
    method ClaimOp(planId: string, operationId: string, owner: Token, attemptToken: Token, leaseSeconds: int, now: int)
      returns (r: Result<nat, StoreError>)
      requires Valid() && leaseSeconds > 0
      modifies this
      ensures Valid() && OnlyChanges(planId)
      ensures r.Err? ==> plans == old(plans)
      ensures planId !in old(plans) ==> r == Err(LeaseAbsentOrExpired)
      ensures planId in old(plans) ==>
                match IndexOf(old(plans)[planId].ops, operationId)
                case None => r.Err?
                case Some(i) =>
                  var spec := ClaimOperation(old(plans)[planId], i, owner, attemptToken, leaseSeconds, now);
                  && (r.Ok? ==> spec == Ok(plans[planId]) && r.value == plans[planId].ops[i].attempt)
                  && (r.Err? ==> spec == Err(r.error))
    {
      if planId !in plans {
        return Err(LeaseAbsentOrExpired);
      }
      var plan := plans[planId];
      if plan.lease.None? || plan.lease.value.expiresAt <= now {
        return Err(LeaseAbsentOrExpired);
      }
      if plan.lease.value.owner != owner {
        return Err(OwnerMismatch);
      }
      var found := FindOperation(planId, operationId);
      if found.None? || plan.ops[found.value].status !in {Issued, RetryableNotApplied} {
        return Err(NotClaimable);
      }
      var row := plan.ops[found.value];
      var attempt := row.attempt + 1;
      row := row.(status := Executing, attempt := attempt, attemptToken := Some(attemptToken), reconciled := false);
      Write(planId, plan.(ops := plan.ops[found.value := row], lease := Some(Lease(owner, now + leaseSeconds))));
      r := Ok(attempt);
    }

    method Record(planId: string, operationId: string, status: ApplyStatus, attempt: nat, owner: Token,
                  attemptToken: Token, now: int)
      returns (r: Result<(), StoreError>)
      requires Valid()
      modifies this
      ensures Valid() && OnlyChanges(planId)
      ensures r.Err? ==> plans == old(plans)
      ensures planId !in old(plans) ==> r == Err(NotFound)
      ensures planId in old(plans) ==>
                match IndexOf(old(plans)[planId].ops, operationId)
                case None => r == Err(NotFound)
                case Some(i) =>
                  var spec := RecordReceipt(old(plans)[planId], i, status, attempt, owner, attemptToken, now);
                  if r.Ok? then spec == Ok(plans[planId]) else spec == Err(r.error)
    {
      hide Verdict, CanTransition, Valid;
      if planId !in plans {
        return Err(NotFound);
      }
      var plan := plans[planId];
      var found := FindOperation(planId, operationId);
      if found.None? {
        return Err(NotFound);
      }
      var i := found.value;
      var row := plan.ops[i];
      if || row.status != Executing
         || row.attempt != attempt
         || row.attemptToken != Some(attemptToken)
         || plan.lease.None?
         || plan.lease.value.owner != owner
         || plan.lease.value.expiresAt <= now
      {
        return Err(StaleReceipt);
      }
      var ops := plan.ops[i := row.(status := status)];
      var verdict := AggregatePersistedStatuses(Statuses(ops));
      assert Statuses(ops) == Statuses(plan.ops)[i := status];
      if plan.status != verdict && !CanTransition(plan.status, verdict) {
        return Err(IllegalTransition);
      }
      var keepLease := status in {Applied, AlreadyApplied} && verdict in {Executing, Partial};
      Write(planId, plan.(ops := ops, status := verdict, lease := if keepLease then plan.lease else None));
      r := Ok(());
    }

    /** Fence an expired executor. The caller re-reads the plan afterwards, in another transaction. */
    method Begin(planId: string, now: int) returns (r: Result<(), StoreError>)
      requires Valid()
      modifies this
      ensures Valid() && OnlyChanges(planId)
      ensures r.Err? ==> plans == old(plans)
      ensures planId !in old(plans) ==> r == Err(NotFound)
      ensures planId in old(plans) ==>
                var spec := BeginReconcile(old(plans)[planId], now);
                if r.Ok? then spec == Ok(plans[planId]) else spec == Err(r.error)
    {
      if planId !in plans {
        return Err(NotFound);
      }
      var plan := plans[planId];
      if plan.lease.Some? && plan.lease.value.expiresAt > now {
        return Err(LeaseActive);
      }
      if plan.status == Executing {
        Write(planId, plan.(status := Unknown, lease := None));
      } else if plan.status in {Unknown, LegacyUnknown, Partial} {
        Write(planId, plan.(lease := None));
      }
      r := Ok(());
    }

    method RecordReconciliation(planId: string, operationId: string, status: ApplyStatus)
      returns (r: Result<(), StoreError>)
      requires Valid()
      modifies this
      ensures Valid() && OnlyChanges(planId)
      ensures r.Err? ==> plans == old(plans)
      ensures planId !in old(plans) ==> r.Err?
      ensures planId in old(plans) ==>
                match IndexOf(old(plans)[planId].ops, operationId)
                case None => r.Err?
                case Some(i) =>
                  var spec := RecordReconciliationReceipt(old(plans)[planId], i, status);
                  if r.Ok? then spec == Ok(plans[planId]) else spec == Err(r.error)
    {
      if planId !in plans || plans[planId].lease.Some? {
        return Err(NotFenced);
      }
      var plan := plans[planId];
      var found := FindOperation(planId, operationId);
      if found.None? || plan.ops[found.value].status !in {Issued, Executing, Unknown, LegacyUnknown} {
        return Err(NotReconcilable);
      }
      var i := found.value;
      var ops := plan.ops[i := plan.ops[i].(status := status, reconciled := true)];
      var verdict := AggregatePersistedStatuses(Statuses(ops));
      assert Statuses(ops) == Statuses(plan.ops)[i := status];
      Write(planId, plan.(ops := ops, status := verdict));
      r := Ok(());
    }
  }
}
