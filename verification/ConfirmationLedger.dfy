/** The ledger of single-use write confirmations (confirmation_store.py): three tables, and the
    operations on them. Nonces appear only through their digests. */
module ConfirmationLedger {
  import opened Wrappers
  import opened WritePlan

  const TTL_SECONDS := 600

  // ---------- Tables ----------

  datatype IssuedRow = IssuedRow(planHash: string, expiresAt: int, issuedAt: int, payload: Option<string>)

  datatype ConsumedRow = ConsumedRow(planHash: string, expiresAt: int, consumedAt: int)

  datatype OperationRow = OperationRow(nonce: string, payload: Option<string>, status: Status, receipt: Option<string>,
                                       updatedAt: int)

  /** Issued and consumed confirmations are keyed by nonce digest, operations by plan hash. */
  datatype Tables = Tables(issued: map<string, IssuedRow>, consumed: map<string, ConsumedRow>,
                           operations: map<string, OperationRow>)

  const EMPTY := Tables(map[], map[], map[])

  datatype Refusal = AlreadyUsed | NotIssued | PlanMismatch | PlanExpired

  // ---------- Transactions ----------

  /** `_cleanup_expired`. The operations table is never cleaned. */
  function Cleaned(t: Tables, now: int): Tables {
    t.(consumed := map n | n in t.consumed && t.consumed[n].expiresAt >= now :: t.consumed[n],
       issued := map n | n in t.issued && t.issued[n].expiresAt >= now :: t.issued[n])
  }

  predicate WithinTtl(expiresAt: int, now: int) {
    now < expiresAt <= now + TTL_SECONDS
  }

  /** The upsert of `issue`: an issued nonce keeps its plan hash, the rest is replaced. */
  function Inserted(t: Tables, nonce: string, planHash: string, expiresAt: int, payload: Option<string>,
                    now: int): Result<Tables, Refusal> {
    if nonce in t.issued && t.issued[nonce].planHash != planHash then Err(PlanMismatch)
    else Ok(t.(issued := t.issued[nonce := IssuedRow(planHash, expiresAt, now, payload)]))
  }

  /** PRIMARY KEY (plan_hash) and UNIQUE (nonce_digest) of the operations table. */
  predicate Unclaimed(t: Tables, nonce: string, planHash: string) {
    planHash !in t.operations && forall h | h in t.operations :: t.operations[h].nonce != nonce
  }

  /** The `BEGIN IMMEDIATE` transaction of `consume`. */
  function Taken(t: Tables, nonce: string, planHash: string, expiresAt: int, now: int): Result<Tables, Refusal> {
    if nonce in t.consumed then Err(AlreadyUsed)
    else if nonce !in t.issued then Err(NotIssued)
    else
      var row := t.issued[nonce];
      if row.planHash != planHash || row.expiresAt != expiresAt then Err(PlanMismatch)
      else if now > row.expiresAt || row.expiresAt > row.issuedAt + TTL_SECONDS then Err(PlanExpired)
      else if !Unclaimed(t, nonce, planHash) then Err(AlreadyUsed)
      else
        Ok(Tables(t.issued - {nonce}, t.consumed[nonce := ConsumedRow(planHash, expiresAt, now)],
                  t.operations[planHash := OperationRow(nonce, row.payload, Executing, None, now)]))
  }

  function Recorded(t: Tables, planHash: string, status: Status, receipt: string, now: int): Result<Tables, Refusal> {
    if planHash !in t.operations then Err(NotIssued)
    else
      var row := t.operations[planHash].(status := status, receipt := Some(receipt), updatedAt := now);
      Ok(t.(operations := t.operations[planHash := row]))
  }

  // ---------- The store ----------

  class ConfirmationStore {
    var issued: map<string, IssuedRow>
    var consumed: map<string, ConsumedRow>
    var operations: map<string, OperationRow>

    ghost function Contents(): Tables
      reads this
    {
      Tables(issued, consumed, operations)
    }

    constructor ()
      ensures Contents() == EMPTY
    {
      issued, consumed, operations := map[], map[], map[];
    }

    method CleanupExpired(now: int)
      modifies this
      ensures Contents() == Cleaned(old(Contents()), now)
    {
      consumed := map n | n in consumed && consumed[n].expiresAt >= now :: consumed[n];
      issued := map n | n in issued && issued[n].expiresAt >= now :: issued[n];
    }

    /** `issue`. Its cleanup is committed even when the insertion is refused. */
    method Issue(nonce: string, planHash: string, expiresAt: int, payload: Option<string>, now: int)
      returns (refusal: Option<Refusal>)
      modifies this
      ensures var before := old(Contents());
              if !WithinTtl(expiresAt, now) then refusal == Some(PlanExpired) && Contents() == before
              else
                match Inserted(Cleaned(before, now), nonce, planHash, expiresAt, payload, now)
                case Ok(after) => refusal == None && Contents() == after
                case Err(error) => refusal == Some(error) && Contents() == Cleaned(before, now)
    {
      if expiresAt <= now || expiresAt > now + TTL_SECONDS {
        return Some(PlanExpired);
      }
      CleanupExpired(now);
      if nonce !in issued || issued[nonce].planHash == planHash {
        issued := issued[nonce := IssuedRow(planHash, expiresAt, now, payload)];
      }
      var row := issued[nonce];
      if row.planHash != planHash || row.expiresAt != expiresAt || row.payload != payload {
        return Some(PlanMismatch);
      }
      refusal := None;
    }

    /** `consume`. The cleanup may fail, which does not stop it. */
    method Consume(nonce: string, planHash: string, expiresAt: int, now: int, cleans: bool)
      returns (payload: Result<Option<string>, Refusal>)
      modifies this
      ensures var before := if cleans then Cleaned(old(Contents()), now) else old(Contents());
              match Taken(before, nonce, planHash, expiresAt, now)
              case Ok(after) => payload == Ok(before.issued[nonce].payload) && Contents() == after
              case Err(error) => payload == Err(error) && Contents() == before
    {
      if cleans {
        CleanupExpired(now);
      }
      var savedConsumed := consumed;
      if nonce in consumed {
        return Err(AlreadyUsed);
      }
      if nonce !in issued {
        return Err(NotIssued);
      }
      var row := issued[nonce];
      if row.planHash != planHash || row.expiresAt != expiresAt {
        return Err(PlanMismatch);
      }
      if now > row.expiresAt || row.expiresAt > row.issuedAt + TTL_SECONDS {
        return Err(PlanExpired);
      }
      consumed := consumed[nonce := ConsumedRow(planHash, expiresAt, now)];
      if planHash in operations || exists h | h in operations :: operations[h].nonce == nonce {
        consumed := savedConsumed;
        return Err(AlreadyUsed);
      }
      operations := operations[planHash := OperationRow(nonce, row.payload, Executing, None, now)];
      issued := issued - {nonce};
      payload := Ok(row.payload);
    }

    /** `record_outcome`. */
    method RecordOutcome(planHash: string, status: Status, receipt: string, now: int) returns (refusal: Option<Refusal>)
      modifies this
      ensures match Recorded(old(Contents()), planHash, status, receipt, now)
              case Ok(after) => refusal == None && Contents() == after
              case Err(error) => refusal == Some(error) && Contents() == old(Contents())
    {
      if planHash !in operations {
        return Some(NotIssued);
      }
      operations := operations[planHash :=
                               operations[planHash].(status := status, receipt := Some(receipt), updatedAt := now)];
      refusal := None;
    }
  }

  // ---------- Runs ----------

  /** One committed transaction of any process sharing the database, at any clock reading. */
  datatype Step =
    | Clean(now: int)
    | Insert(nonce: string, planHash: string, expiresAt: int, payload: Option<string>, now: int)
    | Take(nonce: string, planHash: string, expiresAt: int, now: int)
    | Record(planHash: string, status: Status, receipt: string, now: int)

  function Attempt(t: Tables, step: Step): Result<Tables, Refusal> {
    match step
    case Clean(now) => Ok(Cleaned(t, now))
    case Insert(nonce, planHash, expiresAt, payload, now) =>
      if !WithinTtl(expiresAt, now) then Err(PlanExpired) else Inserted(t, nonce, planHash, expiresAt, payload, now)
    case Take(nonce, planHash, expiresAt, now) => Taken(t, nonce, planHash, expiresAt, now)
    case Record(planHash, status, receipt, now) => Recorded(t, planHash, status, receipt, now)
  }

  /** The tables after the first `n` steps of a run on a new database. */
  function At(steps: seq<Step>, n: nat): Tables
    requires n <= |steps|
  {
    if n == 0 then EMPTY
    else
      match Attempt(At(steps, n - 1), steps[n - 1])
      case Ok(after) => after
      case Err(_) => At(steps, n - 1)
  }

  predicate Succeeds(steps: seq<Step>, i: nat)
    requires i < |steps|
  {
    Attempt(At(steps, i), steps[i]).Ok?
  }

  /** Step `i` consumed this nonce or this plan hash. */
  ghost predicate Consumes(steps: seq<Step>, i: nat, nonce: string, planHash: string)
    requires i < |steps|
  {
    steps[i].Take? && Succeeds(steps, i) && (steps[i].nonce == nonce || steps[i].planHash == planHash)
  }

  ghost predicate EverConsumed(steps: seq<Step>, n: nat, nonce: string, planHash: string)
    requires n <= |steps|
  {
    exists i :: 0 <= i < n && Consumes(steps, i, nonce, planHash)
  }

  /** Step `i` is the last successful insertion of the nonce among the first `n`. */
  ghost predicate LastInsertion(steps: seq<Step>, n: nat, i: nat, nonce: string)
    requires n <= |steps|
  {
    && i < n && steps[i].Insert? && steps[i].nonce == nonce && Succeeds(steps, i)
    && forall j :: i < j < n && steps[j].Insert? && steps[j].nonce == nonce ==> !Succeeds(steps, j)
  }

  /** What the operations table remembers: exactly the nonces and plan hashes ever consumed. */
  lemma {:induction false} OperationsRemember(steps: seq<Step>, n: nat, nonce: string, planHash: string)
    requires n <= |steps|
    ensures Unclaimed(At(steps, n), nonce, planHash) <==> !EverConsumed(steps, n, nonce, planHash)
  {
    if n > 0 {
      OperationsRemember(steps, n - 1, nonce, planHash);
      var before, step := At(steps, n - 1), steps[n - 1];
      assert EverConsumed(steps, n, nonce, planHash)
             <==> EverConsumed(steps, n - 1, nonce, planHash) || Consumes(steps, n - 1, nonce, planHash);
      if step.Take? && Succeeds(steps, n - 1) {
        TakeClaims(before, step.nonce, step.planHash, step.expiresAt, step.now, nonce, planHash);
      } else if step.Record? && Succeeds(steps, n - 1) {
        RecordKeepsClaims(before, step.planHash, step.status, step.receipt, step.now, nonce, planHash);
      }
    }
  }

  lemma TakeClaims(t: Tables, n: string, h: string, expiresAt: int, now: int, nonce: string, planHash: string)
    requires Taken(t, n, h, expiresAt, now).Ok?
    ensures Unclaimed(Taken(t, n, h, expiresAt, now).value, nonce, planHash)
            <==> Unclaimed(t, nonce, planHash) && n != nonce && h != planHash
  {
    var after := Taken(t, n, h, expiresAt, now).value;
    assert h in after.operations && after.operations[h].nonce == n;
    assert forall k :: k in t.operations ==> k in after.operations && after.operations[k] == t.operations[k];
  }

  lemma RecordKeepsClaims(t: Tables, h: string, status: Status, receipt: string, now: int, nonce: string,
                          planHash: string)
    requires h in t.operations
    ensures Unclaimed(Recorded(t, h, status, receipt, now).value, nonce, planHash) <==> Unclaimed(t, nonce, planHash)
  {
    var after := Recorded(t, h, status, receipt, now).value;
    assert forall k :: k in t.operations <==> k in after.operations;
    assert forall k :: k in t.operations ==> after.operations[k].nonce == t.operations[k].nonce;
  }

  /** Each nonce and each plan hash is consumed at most once, in every run. */
  lemma SingleUse(steps: seq<Step>, i: nat, j: nat)
    requires i < j < |steps| && steps[i].Take? && steps[j].Take? && Succeeds(steps, i) && Succeeds(steps, j)
    ensures steps[i].nonce != steps[j].nonce && steps[i].planHash != steps[j].planHash
  {
    OperationsRemember(steps, j, steps[j].nonce, steps[j].planHash);
    assert !Consumes(steps, i, steps[j].nonce, steps[j].planHash);
  }

  /** A mark of consumption names the nonce of some consumption. */
  lemma {:induction false} MarkedNonce(steps: seq<Step>, n: nat, nonce: string)
    requires n <= |steps| && nonce in At(steps, n).consumed
    ensures forall planHash :: EverConsumed(steps, n, nonce, planHash)
  {
    var step := steps[n - 1];
    if step.Take? && Succeeds(steps, n - 1) && step.nonce == nonce {
      forall planHash ensures EverConsumed(steps, n, nonce, planHash) {
        assert Consumes(steps, n - 1, nonce, planHash);
      }
    } else {
      MarkedNonce(steps, n - 1, nonce);
      forall planHash ensures EverConsumed(steps, n, nonce, planHash) {
        assert EverConsumed(steps, n - 1, nonce, planHash);
        var i :| 0 <= i < n - 1 && Consumes(steps, i, nonce, planHash);
        assert Consumes(steps, i, nonce, planHash);
      }
    }
  }

  /** An issued row is what the last successful insertion of its nonce wrote. */
  lemma {:induction false} IssuedByLast(steps: seq<Step>, n: nat, nonce: string) returns (i: nat)
    requires n <= |steps| && nonce in At(steps, n).issued
    ensures LastInsertion(steps, n, i, nonce)
    ensures var Insert(_, planHash, expiresAt, payload, now) := steps[i];
            At(steps, n).issued[nonce] == IssuedRow(planHash, expiresAt, now, payload) && WithinTtl(expiresAt, now)
  {
    var step := steps[n - 1];
    if step.Insert? && step.nonce == nonce && Succeeds(steps, n - 1) {
      i := n - 1;
    } else {
      i := IssuedByLast(steps, n - 1, nonce);
    }
  }

  /** An issue succeeds exactly when it expires within the next ten minutes, and its nonce is not
      issued for another plan; it replaces what was issued for the nonce, and nothing else. */
  lemma InsertedExactly(steps: seq<Step>, i: nat)
    requires i < |steps| && steps[i].Insert?
    ensures var Insert(nonce, planHash, expiresAt, payload, now) := steps[i];
            var before, after := At(steps, i), At(steps, i + 1);
            && (Succeeds(steps, i) <==>
                  && 1 <= expiresAt - now <= 600
                  && (nonce in before.issued ==> before.issued[nonce].planHash == planHash))
            && after.consumed == before.consumed && after.operations == before.operations
            && (forall n :: n != nonce ==> (n in after.issued <==> n in before.issued))
            && (forall n :: n != nonce && n in before.issued ==> after.issued[n] == before.issued[n])
            && (Succeeds(steps, i) ==>
                  nonce in after.issued && after.issued[nonce] == IssuedRow(planHash, expiresAt, now, payload))
            && (!Succeeds(steps, i) ==> after == before)
  {
  }

  /** A cleanup removes exactly what has expired, from both tables that it cleans. */
  lemma CleanedExactly(steps: seq<Step>, i: nat, nonce: string)
    requires i < |steps| && steps[i].Clean?
    ensures var before, after := At(steps, i), At(steps, i + 1);
            && after.operations == before.operations
            && (nonce in after.issued <==> nonce in before.issued && before.issued[nonce].expiresAt >= steps[i].now)
            && (nonce in after.consumed <==>
                  nonce in before.consumed && before.consumed[nonce].expiresAt >= steps[i].now)
            && (nonce in after.issued ==> after.issued[nonce] == before.issued[nonce])
            && (nonce in after.consumed ==> after.consumed[nonce] == before.consumed[nonce])
  {
  }

  /** Step `i` would take an issued, matching and unexpired confirmation. */
  ghost predicate Presents(t: Tables, step: Step)
    requires step.Take?
  {
    && step.nonce in t.issued
    && t.issued[step.nonce].planHash == step.planHash && t.issued[step.nonce].expiresAt == step.expiresAt
    && step.now <= step.expiresAt
  }

  /** When consumption succeeds: the confirmation presented is issued, matching and unexpired,
      and neither its nonce nor its plan hash was consumed at any earlier step of the run. What
      the cleanup removed makes no difference, and the check of the lifetime never refuses. */
  lemma ConsumedExactly(steps: seq<Step>, i: nat)
    requires i < |steps| && steps[i].Take?
    ensures Succeeds(steps, i) <==>
              Presents(At(steps, i), steps[i]) && !EverConsumed(steps, i, steps[i].nonce, steps[i].planHash)
  {
    var t, step := At(steps, i), steps[i];
    OperationsRemember(steps, i, step.nonce, step.planHash);
    if step.nonce in t.consumed {
      MarkedNonce(steps, i, step.nonce);
      assert EverConsumed(steps, i, step.nonce, step.planHash);
    }
    if step.nonce in t.issued {
      var k := IssuedByLast(steps, i, step.nonce);
    }
  }

  /** A successful consumption returns what the last successful insertion of its nonce stored,
      which named the same plan hash and expiry. */
  lemma ConsumesLastIssued(steps: seq<Step>, i: nat) returns (k: nat)
    requires i < |steps| && steps[i].Take? && Succeeds(steps, i)
    ensures LastInsertion(steps, i, k, steps[i].nonce)
    ensures steps[k].planHash == steps[i].planHash && steps[k].expiresAt == steps[i].expiresAt
    ensures At(steps, i).issued[steps[i].nonce].payload == steps[k].payload
    ensures At(steps, i + 1).operations[steps[i].planHash].payload == steps[k].payload
    ensures steps[i].now <= steps[k].expiresAt <= steps[k].now + TTL_SECONDS
  {
    k := IssuedByLast(steps, i, steps[i].nonce);
  }

  // ---------- What is known of an operation ----------

  ghost predicate RecordsOutcome(steps: seq<Step>, i: nat, planHash: string) {
    i < |steps| && steps[i].Record? && steps[i].planHash == planHash && Succeeds(steps, i)
  }

  ghost predicate TakesPlan(steps: seq<Step>, i: nat, planHash: string) {
    i < |steps| && steps[i].Take? && steps[i].planHash == planHash && Succeeds(steps, i)
  }

  /** None of the first steps consumed the plan, or recorded an outcome for it. */
  ghost predicate Untouched(steps: seq<Step>, n: nat, planHash: string) {
    forall i: nat :: i < n ==> !RecordsOutcome(steps, i, planHash) && !TakesPlan(steps, i, planHash)
  }

  /** The row says what the last outcome recorded for the plan said, or that it is EXECUTING. */
  ghost predicate TellsLast(steps: seq<Step>, n: nat, planHash: string, row: OperationRow) {
    if exists i: nat :: i < n && RecordsOutcome(steps, i, planHash) then
      exists i: nat ::
        && i < n && RecordsOutcome(steps, i, planHash)
        && (forall j :: i < j < n ==> !RecordsOutcome(steps, j, planHash))
        && row.status == steps[i].status && row.receipt == Some(steps[i].receipt) && row.updatedAt == steps[i].now
    else row.status == Executing && row.receipt == None
  }

  /** Step `i` consumed the confirmation of the plan, which gave the operation its payload. */
  ghost predicate Opened(steps: seq<Step>, i: nat, planHash: string, row: OperationRow) {
    && i < |steps| && steps[i].Take? && steps[i].planHash == planHash && Succeeds(steps, i)
    && steps[i].nonce == row.nonce && row.nonce in At(steps, i).issued
    && At(steps, i).issued[row.nonce].payload == row.payload
  }

  ghost predicate WasOpened(steps: seq<Step>, n: nat, planHash: string, row: OperationRow) {
    exists i: nat :: i < n && Opened(steps, i, planHash, row)
  }

  /** What one step does to the operation of a plan. */
  lemma OperationStep(steps: seq<Step>, n: nat, planHash: string)
    requires n < |steps|
    ensures var before, after := At(steps, n).operations, At(steps, n + 1).operations;
            && (planHash in before ==>
                  && planHash in after
                  && (if RecordsOutcome(steps, n, planHash) then
                        after[planHash] == before[planHash].(status := steps[n].status,
                                                             receipt := Some(steps[n].receipt),
                                                                        updatedAt := steps[n].now)
                      else after[planHash] == before[planHash]))
            && (planHash !in before ==>
                  && !RecordsOutcome(steps, n, planHash)
                  && (planHash in after ==>
                        Opened(steps, n, planHash, after[planHash])
                        && after[planHash].status == Executing && after[planHash].receipt == None)
                  && (planHash in after <==> TakesPlan(steps, n, planHash)))
  {
  }

  lemma TellsOn(steps: seq<Step>, n: nat, planHash: string, row: OperationRow, after: OperationRow)
    requires n < |steps| && TellsLast(steps, n, planHash, row)
    requires if RecordsOutcome(steps, n, planHash) then
               after.status == steps[n].status && after.receipt == Some(steps[n].receipt)
               && after.updatedAt == steps[n].now
             else after == row
    ensures TellsLast(steps, n + 1, planHash, after)
  {
    hide RecordsOutcome;
    if !RecordsOutcome(steps, n, planHash) {
      assert forall i: nat :: i < n + 1 && RecordsOutcome(steps, i, planHash) ==> i < n;
    }
  }

  lemma OpenedOn(steps: seq<Step>, n: nat, planHash: string, row: OperationRow, after: OperationRow)
    requires WasOpened(steps, n, planHash, row) && after.nonce == row.nonce && after.payload == row.payload
    ensures WasOpened(steps, n + 1, planHash, after)
  {
    hide At;
    var i: nat :| i < n && Opened(steps, i, planHash, row);
    assert Opened(steps, i, planHash, after);
  }

  /** At any point of any run, the operation of a plan is there exactly if the plan was consumed,
      with the payload that was issued, and tells the last outcome recorded for it. */
  lemma {:induction false} OperationsTell(steps: seq<Step>, n: nat, planHash: string)
    requires n <= |steps|
    ensures planHash in At(steps, n).operations ==>
              && TellsLast(steps, n, planHash, At(steps, n).operations[planHash])
              && WasOpened(steps, n, planHash, At(steps, n).operations[planHash])
    ensures planHash !in At(steps, n).operations ==>
              Untouched(steps, n, planHash)
  {
    hide At, RecordsOutcome, Opened, TakesPlan, TellsLast, WasOpened, Untouched;
    if n == 0 {
      NothingAtFirst(steps, planHash);
    } else {
      OperationsTell(steps, n - 1, planHash);
      OperationStep(steps, n - 1, planHash);
      var before, after := At(steps, n - 1).operations, At(steps, n).operations;
      if planHash in before {
        TellsOn(steps, n - 1, planHash, before[planHash], after[planHash]);
        OpenedOn(steps, n - 1, planHash, before[planHash], after[planHash]);
      } else if planHash in after {
        FirstTells(steps, n - 1, planHash, after[planHash]);
      } else {
        StillUntouched(steps, n - 1, planHash);
      }
    }
  }

  lemma NothingAtFirst(steps: seq<Step>, planHash: string)
    ensures At(steps, 0).operations == map[] && Untouched(steps, 0, planHash)
  {
  }

  lemma StillUntouched(steps: seq<Step>, n: nat, planHash: string)
    requires n < |steps| && Untouched(steps, n, planHash)
    requires !RecordsOutcome(steps, n, planHash) && !TakesPlan(steps, n, planHash)
    ensures Untouched(steps, n + 1, planHash)
  {
    hide RecordsOutcome, TakesPlan;
  }

  lemma FirstTells(steps: seq<Step>, n: nat, planHash: string, row: OperationRow)
    requires n < |steps| && Untouched(steps, n, planHash) && !RecordsOutcome(steps, n, planHash)
    requires Opened(steps, n, planHash, row) && row.status == Executing && row.receipt == None
    ensures TellsLast(steps, n + 1, planHash, row) && WasOpened(steps, n + 1, planHash, row)
  {
    hide RecordsOutcome, TakesPlan, Opened;
    assert forall i: nat :: i < n + 1 ==> !RecordsOutcome(steps, i, planHash);
  }
}
