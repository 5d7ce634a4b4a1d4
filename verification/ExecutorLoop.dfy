/** The executor's loop on plans (write_executor.py, `_execute_claimed`): what it leaves, which
    error it ends with and why, and what it does while its lease lasts. */
module ExecutorLoop {
  import opened Wrappers
  import opened WritePlan
  import opened PlanStore
  import opened WriteProtocol
  import opened ProtocolInvariants
  import opened ProtocolTheorems

  datatype AdapterReply = Returned(status: ApplyStatus) | Raised

  function Outcome(reply: AdapterReply): ApplyStatus {
    match reply
    case Returned(status) => status
    case Raised => Unknown
  }

  type Adapter = OperationPlan -> AdapterReply

  ghost predicate HonestAdapters(adapters: map<string, Adapter>) {
    forall kind, operation :: kind in adapters ==> AdapterOutcome(Outcome(adapters[kind](operation)))
  }

  /** Whose loop it is. Operation `i` is claimed at `clock(2 * i)` and recorded at `clock(2 * i + 1)`. */
  datatype Caller = Caller(
    mode: Mode,
    owner: Token,
    adapters: map<string, Adapter>,
    attemptTokens: nat -> Token,
    clock: nat -> int,
    leaseSeconds: int)

  /** `calls` lists the operations whose adapter was called, in order. */
  datatype Ran = Ran(result: Result<(), StoreError>, plan: PlanRow, calls: seq<nat>)

  /** Every operation still to be claimed has an adapter. */
  predicate Equipped(c: Caller, ops: seq<OpRow>, read: seq<Status>, next: nat) {
    && |read| == |ops|
    && forall i | next <= i < |read| :: ClaimableBy(c.mode, read[i]) ==> ops[i].operation.kind in c.adapters
  }

  function OutcomeOf(c: Caller, ops: seq<OpRow>, i: nat): ApplyStatus
    requires i < |ops| && ops[i].operation.kind in c.adapters
  {
    Outcome(c.adapters[ops[i].operation.kind](ops[i].operation))
  }

  /** One round: the claim, the call, the receipt. The flag tells whether the adapter was called. */
  function Round(c: Caller, plan: PlanRow, i: nat): (Result<PlanRow, StoreError>, PlanRow, bool)
    requires i < |plan.ops| && plan.ops[i].operation.kind in c.adapters
  {
    match ClaimOperation(plan, i, c.owner, c.attemptTokens(i), c.leaseSeconds, c.clock(2 * i))
    case Err(e) => (Err(e), plan, false)
    case Ok(claimed) =>
      match RecordReceipt(claimed, i, OutcomeOf(c, plan.ops, i), claimed.ops[i].attempt, c.owner, c.attemptTokens(i),
                          c.clock(2 * i + 1))
      case Err(e) => (Err(e), claimed, true)
      case Ok(recorded) => (Ok(recorded), recorded, true)
  }

  /** The loop from operation `next` on. */
  function LoopFrom(c: Caller, plan: PlanRow, read: seq<Status>, next: nat): Ran
    requires next <= |read| && Equipped(c, plan.ops, read, next)
    decreases |read| - next
  {
    if next == |read| then Ran(Ok(()), plan, [])
    else if !ClaimableBy(c.mode, read[next]) then LoopFrom(c, plan, read, next + 1)
    else
      var (result, after, called) := Round(c, plan, next);
      match result
      case Err(e) => Ran(Err(e), after, if called then [next] else [])
      case Ok(_) =>
        if IsSuccess(OutcomeOf(c, plan.ops, next)) then
          var rest := LoopFrom(c, after, read, next + 1);
          rest.(calls := [next] + rest.calls)
        else Ran(Ok(()), after, [next])
  }

  // ---------- Why the loop ends with an error ----------

  /** What the store held against the claim of operation `i`. */
  predicate ClaimRefused(c: Caller, plan: PlanRow, i: nat, e: StoreError)
    requires i < |plan.ops|
  {
    match e
    case LeaseAbsentOrExpired => plan.lease.None? || plan.lease.value.expiresAt <= c.clock(2 * i)
    case OwnerMismatch =>
      plan.lease.Some? && plan.lease.value.expiresAt > c.clock(2 * i) && plan.lease.value.owner != c.owner
    case NotClaimable =>
      && plan.lease.Some? && plan.lease.value.expiresAt > c.clock(2 * i) && plan.lease.value.owner == c.owner
      && plan.ops[i].status != Issued && plan.ops[i].status != RetryableNotApplied
    case _ => false
  }

  /** What it held against the receipt: the lease ran out, or the verdict may not follow. */
  predicate ReceiptRefused(c: Caller, plan: PlanRow, i: nat, outcome: ApplyStatus, e: StoreError)
    requires i < |plan.ops|
  {
    match e
    case StaleReceipt => plan.lease.None? || plan.lease.value.expiresAt <= c.clock(2 * i + 1)
    case IllegalTransition =>
      && plan.lease.Some? && plan.lease.value.expiresAt > c.clock(2 * i + 1)
      && plan.status != VerdictAfter(plan, i, outcome) && !CanTransition(plan.status, VerdictAfter(plan, i, outcome))
    case _ => false
  }

  /** A round ends with an error exactly when the claim is refused for it, or the claim succeeds
      and the receipt is refused for it. */
  lemma RoundExactly(c: Caller, plan: PlanRow, i: nat, e: StoreError)
    requires i < |plan.ops| && plan.ops[i].operation.kind in c.adapters
    ensures var (result, after, called) := Round(c, plan, i);
            var claim := ClaimOperation(plan, i, c.owner, c.attemptTokens(i), c.leaseSeconds, c.clock(2 * i));
            && |after.ops| == |plan.ops|
            && (result == Err(e) <==>
                  || ClaimRefused(c, plan, i, e)
                  || (claim.Ok? && ReceiptRefused(c, claim.value, i, OutcomeOf(c, plan.ops, i), e)))
            && (result.Err? ==> after == if claim.Ok? then claim.value else plan)
            && (called <==> claim.Ok?)
  {
    hide Verdict, CanTransition;
  }

  /** The rounds keep the operations and leave the rows behind and ahead alone. */
  lemma RoundKeeps(c: Caller, plan: PlanRow, i: nat)
    requires i < |plan.ops| && plan.ops[i].operation.kind in c.adapters
    ensures var (result, after, called) := Round(c, plan, i);
            && |after.ops| == |plan.ops|
            && (forall j :: 0 <= j < |plan.ops| ==> after.ops[j].operation == plan.ops[j].operation)
            && (forall j :: 0 <= j < |plan.ops| && j != i ==> after.ops[j] == plan.ops[j])
  {
    hide Verdict, CanTransition;
  }

  /** Operation `i` is where the loop ended with the error: its claim was refused after the calls
      made, or it was the last call and its receipt was refused. */
  ghost predicate EndedAt(c: Caller, run: Ran, i: nat, outcome: ApplyStatus, e: StoreError)
    requires i < |run.plan.ops|
  {
    || (ClaimRefused(c, run.plan, i, e) && (run.calls == [] || run.calls[|run.calls| - 1] < i))
    || (run.calls != [] && run.calls[|run.calls| - 1] == i && ReceiptRefused(c, run.plan, i, outcome, e))
  }

  /** The loop ends with an error only where the store refused a claim or a receipt for it. */
  lemma {:induction false} LoopErrors(c: Caller, plan: PlanRow, read: seq<Status>, next: nat) returns (i: nat)
    requires next <= |read| && Equipped(c, plan.ops, read, next) && LoopFrom(c, plan, read, next).result.Err?
    ensures var run := LoopFrom(c, plan, read, next);
            && next <= i < |read| && ClaimableBy(c.mode, read[i]) && |run.plan.ops| == |plan.ops|
            && EndedAt(c, run, i, OutcomeOf(c, plan.ops, i), run.result.error)
    decreases |read| - next
  {
    hide Round, ClaimRefused, ReceiptRefused, ClaimOperation;
    if !ClaimableBy(c.mode, read[next]) {
      i := LoopErrors(c, plan, read, next + 1);
    } else {
      var (result, after, called) := Round(c, plan, next);
      RoundKeeps(c, plan, next);
      if result.Err? {
        i := next;
        RoundExactly(c, plan, next, result.error);
        ClaimedRefusals(c, plan, next, result.error);
      } else {
        i := LoopErrors(c, after, read, next + 1);
      }
    }
  }

  lemma ClaimedRefusals(c: Caller, plan: PlanRow, i: nat, e: StoreError)
    requires i < |plan.ops|
    ensures ClaimRefused(c, plan, i, e) ==>
              ClaimOperation(plan, i, c.owner, c.attemptTokens(i), c.leaseSeconds, c.clock(2 * i)).Err?
  {
  }

  // ---------- While the lease lasts ----------

  /** Every clock reading of the loop falls within the lease as the claims renew it. */
  ghost predicate InTime(c: Caller, read: seq<Status>, next: nat, expiresAt: int)
    requires next <= |read|
    decreases |read| - next
  {
    next == |read|
    || (if ClaimableBy(c.mode, read[next])
        then c.clock(2 * next) < expiresAt && c.clock(2 * next + 1) < c.clock(2 * next) + c.leaseSeconds
             && InTime(c, read, next + 1, c.clock(2 * next) + c.leaseSeconds)
        else InTime(c, read, next + 1, expiresAt))
  }

  /** The rows still to come are as they were read. */
  ghost predicate Untouched(ops: seq<OpRow>, read: seq<Status>, next: nat) {
    |read| == |ops| && forall i :: next <= i < |ops| ==> ops[i].status == read[i]
  }

  /** A claim in time succeeds, and only the transition table can refuse the receipt. */
  lemma RoundInTime(c: Caller, plan: PlanRow, read: seq<Status>, i: nat, expiresAt: int)
    requires PlanInv(plan) && HonestAdapters(c.adapters) && i < |plan.ops| && plan.ops[i].operation.kind in c.adapters
    requires Untouched(plan.ops, read, i) && ClaimableBy(c.mode, read[i])
    requires plan.lease == Some(Lease(c.owner, expiresAt)) && c.clock(2 * i) < expiresAt
    requires c.clock(2 * i + 1) < c.clock(2 * i) + c.leaseSeconds
    ensures var (result, after, called) := Round(c, plan, i);
            var outcome := OutcomeOf(c, plan.ops, i);
            var refused := || (plan.status == Partial && outcome == AlreadyApplied
                               && forall j :: 0 <= j < |plan.ops| && j != i ==> plan.ops[j].status == AlreadyApplied)
                           || (plan.status == Executing && outcome == Rejected && OthersOnlyReplayable(plan.ops, i));
            && called && PlanInv(after)
            && (result.Err? <==> refused) && (result.Err? ==> result.error == IllegalTransition)
            && (result.Ok? ==>
                  && after.ops[i].status == outcome && after.status == VerdictAfter(plan, i, outcome)
                  && after.lease == if IsSuccess(outcome) && after.status in {Executing, Partial}
                                    then Some(Lease(c.owner, c.clock(2 * i) + c.leaseSeconds)) else None)
            && (result.Err? ==> after.ops[i].status == Executing && after.status == plan.status)
  {
    hide Verdict, CanTransition;
    var token, now := c.attemptTokens(i), c.clock(2 * i + 1);
    ClaimOperationKeeps(plan, i, c.owner, token, c.leaseSeconds, c.clock(2 * i));
    var claimed := ClaimOperation(plan, i, c.owner, token, c.leaseSeconds, c.clock(2 * i)).value;
    var outcome := OutcomeOf(c, plan.ops, i);
    assert AdapterOutcome(outcome);
    ReceiptRefusedExactly(claimed, i, outcome, claimed.ops[i].attempt, c.owner, token, now);
    var receipt := RecordReceipt(claimed, i, outcome, claimed.ops[i].attempt, c.owner, token, now);
    if receipt.Ok? {
      RecordReceiptKeeps(claimed, i, outcome, claimed.ops[i].attempt, c.owner, token, now);
    }
    assert Statuses(claimed.ops)[i := outcome] == Statuses(plan.ops)[i := outcome];
    assert forall j :: 0 <= j < |plan.ops| && j != i ==> claimed.ops[j] == plan.ops[j];
  }

  ghost predicate MoreToClaim(c: Caller, read: seq<Status>, next: nat) {
    exists i :: next <= i < |read| && ClaimableBy(c.mode, read[i])
  }

  /** The executor holds the plan, has succeeded so far, and has only operations ahead of it that
      it may claim or that are done. */
  ghost predicate Ready(c: Caller, plan: PlanRow, read: seq<Status>, next: nat, expiresAt: int) {
    && PlanInv(plan) && HonestAdapters(c.adapters) && next <= |read| && Equipped(c, plan.ops, read, next)
    && Untouched(plan.ops, read, next)
    && (forall i :: 0 <= i < next ==> IsSuccess(plan.ops[i].status))
    && (forall i :: next <= i < |read| ==> ClaimableBy(c.mode, read[i]) || IsSuccess(read[i]))
    && (MoreToClaim(c, read, next) ==>
          plan.lease == Some(Lease(c.owner, expiresAt)) && InTime(c, read, next, expiresAt))
  }

  lemma {:induction false} LoopIdles(c: Caller, plan: PlanRow, read: seq<Status>, next: nat)
    requires next <= |read| && Equipped(c, plan.ops, read, next) && !MoreToClaim(c, read, next)
    ensures LoopFrom(c, plan, read, next) == Ran(Ok(()), plan, [])
    decreases |read| - next
  {
    if next < |read| {
      LoopIdles(c, plan, read, next + 1);
    }
  }

  lemma SkipsOn(c: Caller, plan: PlanRow, read: seq<Status>, next: nat, expiresAt: int)
    requires Ready(c, plan, read, next, expiresAt) && next < |read| && !ClaimableBy(c.mode, read[next])
    ensures Ready(c, plan, read, next + 1, expiresAt)
    ensures MoreToClaim(c, read, next + 1) <==> MoreToClaim(c, read, next)
    ensures LoopFrom(c, plan, read, next) == LoopFrom(c, plan, read, next + 1)
    ensures FailsInTime(c, plan, read, next + 1) <==> FailsInTime(c, plan, read, next)
  {
    hide PlanInv, AllComeTo;
    ComesToSame(c, plan.ops, plan.ops, read, next, next + 1);
    assert MoreToClaim(c, read, next + 1) <==> MoreToClaim(c, read, next);
  }

  lemma TakesNext(c: Caller, plan: PlanRow, read: seq<Status>, next: nat, expiresAt: int)
    requires Ready(c, plan, read, next, expiresAt) && next < |read| && ClaimableBy(c.mode, read[next])
    ensures PlanInv(plan) && HonestAdapters(c.adapters) && Untouched(plan.ops, read, next)
    ensures next < |plan.ops| && plan.ops[next].operation.kind in c.adapters
    ensures plan.lease == Some(Lease(c.owner, expiresAt)) && c.clock(2 * next) < expiresAt
    ensures c.clock(2 * next + 1) < c.clock(2 * next) + c.leaseSeconds
  {
    hide PlanInv;
    assert MoreToClaim(c, read, next);
  }

  /** After a success with more to claim, the plan is PARTIAL and the lease renewed. */
  lemma SucceedsOn(c: Caller, plan: PlanRow, read: seq<Status>, next: nat, expiresAt: int)
    requires Ready(c, plan, read, next, expiresAt) && next < |read| && ClaimableBy(c.mode, read[next])
    requires IsSuccess(OutcomeOf(c, plan.ops, next)) && Round(c, plan, next).0.Ok? && MoreToClaim(c, read, next + 1)
    ensures var after := Round(c, plan, next).1;
            Ready(c, after, read, next + 1, c.clock(2 * next) + c.leaseSeconds) && after.status == Partial
  {
    hide PlanInv, Round, Verdict, VerdictAfter;
    TakesNext(c, plan, read, next, expiresAt);
    RoundInTime(c, plan, read, next, expiresAt);
    RoundKeeps(c, plan, next);
    assert MoreToClaim(c, read, next);
    var k :| next + 1 <= k < |read| && ClaimableBy(c.mode, read[k]);
    PartialBeside(plan, next, OutcomeOf(c, plan.ops, next), k);
  }

  lemma FailsLater(c: Caller, plan: PlanRow, read: seq<Status>, next: nat, expiresAt: int)
    requires Ready(c, plan, read, next, expiresAt) && next < |read| && ClaimableBy(c.mode, read[next])
    requires IsSuccess(OutcomeOf(c, plan.ops, next)) && Round(c, plan, next).0.Ok? && MoreToClaim(c, read, next + 1)
    ensures var after := Round(c, plan, next).1;
            && next + 1 <= |read| && Equipped(c, after.ops, read, next + 1)
            && (FailsInTime(c, after, read, next + 1) <==> FailsInTime(c, plan, read, next))
  {
    hide Ready, PlanInv, Round, AllComeTo, OutcomeOf;
    SucceedsOn(c, plan, read, next, expiresAt);
    WrittenAsAnswered(c, plan, read, next, expiresAt);
    ComesToSame(c, plan.ops, Round(c, plan, next).1.ops, read, next, next + 1);
    ExecutingIsFresh(c, plan, read, next, expiresAt);
    assert MoreToClaim(c, read, next);
  }

  /** A round that ends well writes what its row comes to. */
  lemma WrittenAsAnswered(c: Caller, plan: PlanRow, read: seq<Status>, next: nat, expiresAt: int)
    requires Ready(c, plan, read, next, expiresAt) && next < |read| && ClaimableBy(c.mode, read[next])
    requires Round(c, plan, next).0.Ok?
    ensures var after := Round(c, plan, next).1;
            && |after.ops| == |plan.ops| && Equipped(c, plan.ops, read, next)
            && after.ops[next].status == ComesTo(c, plan.ops, read, next, next) == OutcomeOf(c, plan.ops, next)
            && (forall i :: 0 <= i < |plan.ops| ==> after.ops[i].operation == plan.ops[i].operation)
            && (forall i :: 0 <= i < |plan.ops| && i != next ==> after.ops[i] == plan.ops[i])
            && after.status == VerdictAfter(plan, next, OutcomeOf(c, plan.ops, next))
  {
    hide PlanInv, Round, VerdictAfter;
    TakesNext(c, plan, read, next, expiresAt);
    RoundInTime(c, plan, read, next, expiresAt);
    RoundKeeps(c, plan, next);
  }

  lemma PartialBeside(plan: PlanRow, i: nat, status: Status, k: nat)
    requires i < |plan.ops| && k < |plan.ops| && k != i && IsSuccess(status) && !IsSuccess(plan.ops[k].status)
    ensures VerdictAfter(plan, i, status) == Partial
  {
    var statuses := Statuses(plan.ops)[i := status];
    assert statuses[i] in statuses && statuses[k] in statuses;
  }

  /** What row `i` comes to if every adapter still to be called answers and is believed. */
  function ComesTo(c: Caller, ops: seq<OpRow>, read: seq<Status>, next: nat, i: nat): Status
    requires Equipped(c, ops, read, next) && i < |ops|
  {
    if next <= i && ClaimableBy(c.mode, read[i]) then OutcomeOf(c, ops, i) else ops[i].status
  }

  /** The two ways to fail in time: all of two or more operations were found already applied, or a
      resume of a plan without any success is told at its first operation that it is rejected. */
  ghost predicate FailsInTime(c: Caller, plan: PlanRow, read: seq<Status>, next: nat)
    requires next <= |read| && Equipped(c, plan.ops, read, next)
  {
    && MoreToClaim(c, read, next) && |plan.ops| >= 2
    && (|| AllComeTo(c, plan.ops, read, next, AlreadyApplied)
        || (c.mode == Resume && plan.status == Executing && ComesTo(c, plan.ops, read, next, 0) == Rejected))
  }

  ghost predicate AllComeTo(c: Caller, ops: seq<OpRow>, read: seq<Status>, next: nat, s: Status)
    requires Equipped(c, ops, read, next)
  {
    forall i :: 0 <= i < |ops| ==> ComesTo(c, ops, read, next, i) == s
  }

  /** Skipping a row, or writing what the row comes to, changes nothing about what rows come to. */
  lemma ComesToSame(c: Caller, ops: seq<OpRow>, after: seq<OpRow>, read: seq<Status>, next: nat, later: nat)
    requires later == next + 1 <= |read| && Equipped(c, ops, read, next) && |after| == |ops|
    requires forall i :: 0 <= i < |ops| ==> after[i].operation == ops[i].operation
    requires forall i :: 0 <= i < |ops| && i != next ==> after[i].status == ops[i].status
    requires after[next].status == ComesTo(c, ops, read, next, next)
    ensures Equipped(c, after, read, later)
    ensures forall i :: 0 <= i < |ops| ==> ComesTo(c, after, read, later, i) == ComesTo(c, ops, read, next, i)
    ensures AllComeTo(c, after, read, later, AlreadyApplied) <==> AllComeTo(c, ops, read, next, AlreadyApplied)
  {
    hide OutcomeOf;
    forall i | 0 <= i < |ops|
      ensures ComesTo(c, after, read, later, i) == ComesTo(c, ops, read, next, i)
    {
      SameOutcome(c, ops, after, i);
    }
  }

  lemma SameOutcome(c: Caller, ops: seq<OpRow>, after: seq<OpRow>, i: nat)
    requires i < |ops| == |after| && after[i].operation == ops[i].operation
    ensures ops[i].operation.kind in c.adapters ==> OutcomeOf(c, after, i) == OutcomeOf(c, ops, i)
  {
  }

  /** An EXECUTING plan in the executor's hands is at its first operation, with none done. */
  lemma ExecutingIsFresh(c: Caller, plan: PlanRow, read: seq<Status>, next: nat, expiresAt: int)
    requires Ready(c, plan, read, next, expiresAt) && MoreToClaim(c, read, next)
    ensures plan.status in {Executing, Partial}
    ensures plan.status == Executing ==> next == 0 && forall i :: 0 <= i < |read| ==> ClaimableBy(c.mode, read[i])
    ensures plan.status == Partial ==> |plan.ops| >= 2
  {
    hide Verdict, InTime;
    if plan.status == Partial {
      VerdictNoSuccess(plan.ops);
    }
    if next > 0 {
      assert IsSuccess(plan.ops[0].status);
    }
  }

  /** Whether the first round is refused, in terms of what the rows come to. */
  lemma RefusedAtOnce(c: Caller, plan: PlanRow, read: seq<Status>, next: nat, expiresAt: int)
    requires Ready(c, plan, read, next, expiresAt) && next < |read| && ClaimableBy(c.mode, read[next])
    ensures var outcome := OutcomeOf(c, plan.ops, next);
            && (Round(c, plan, next).0.Err? ==> FailsInTime(c, plan, read, next))
            && (Round(c, plan, next).0.Ok? && !IsSuccess(outcome) ==> !FailsInTime(c, plan, read, next))
            && (Round(c, plan, next).0.Ok? && !MoreToClaim(c, read, next + 1) ==> !FailsInTime(c, plan, read, next))
  {
    hide PlanInv, Round, Verdict, VerdictAfter;
    RoundInTime(c, plan, read, next, expiresAt);
    ExecutingIsFresh(c, plan, read, next, expiresAt);
    assert ComesTo(c, plan.ops, read, next, next) == OutcomeOf(c, plan.ops, next);
    if plan.status == Executing && |plan.ops| >= 2 {
      assert ClaimableBy(c.mode, read[1]) && next == 0;
      assert c.mode == Resume ==> plan.ops[1].status == RetryableNotApplied;
    }
    forall j | 0 <= j < |plan.ops| && j != next
      ensures !MoreToClaim(c, read, next + 1) ==> ComesTo(c, plan.ops, read, next, j) == plan.ops[j].status
    {
    }
  }

  lemma NothingFails(c: Caller, plan: PlanRow, read: seq<Status>, next: nat, expiresAt: int)
    requires Ready(c, plan, read, next, expiresAt)
    ensures next <= |read| && Equipped(c, plan.ops, read, next)
    ensures FailsInTime(c, plan, read, next) ==> MoreToClaim(c, read, next)
  {
  }

  /** In time the loop fails exactly in those two ways, and then at the transition table. */
  lemma {:induction false} FailsInTimeExactly(c: Caller, plan: PlanRow, read: seq<Status>, next: nat, expiresAt: int)
    requires Ready(c, plan, read, next, expiresAt)
    ensures next <= |read| && Equipped(c, plan.ops, read, next)
    ensures var run := LoopFrom(c, plan, read, next);
            && (run.result.Err? <==> FailsInTime(c, plan, read, next))
            && (run.result.Err? ==> run.result.error == IllegalTransition)
    decreases |read| - next
  {
    hide PlanInv, Round, InTime, Untouched, FailsInTime, Ready, OutcomeOf;
    NothingFails(c, plan, read, next, expiresAt);
    if !MoreToClaim(c, read, next) {
      LoopIdles(c, plan, read, next);
    } else if !ClaimableBy(c.mode, read[next]) {
      SkipsOn(c, plan, read, next, expiresAt);
      FailsInTimeExactly(c, plan, read, next + 1, expiresAt);
    } else {
      RefusedAtOnce(c, plan, read, next, expiresAt);
      TakesNext(c, plan, read, next, expiresAt);
      RoundInTime(c, plan, read, next, expiresAt);
      var (result, after, called) := Round(c, plan, next);
      if result.Ok? && IsSuccess(OutcomeOf(c, plan.ops, next)) {
        RoundKeeps(c, plan, next);
        if MoreToClaim(c, read, next + 1) {
          SucceedsOn(c, plan, read, next, expiresAt);
          FailsLater(c, plan, read, next, expiresAt);
          FailsInTimeExactly(c, after, read, next + 1, c.clock(2 * next) + c.leaseSeconds);
        } else {
          LoopIdles(c, after, read, next + 1);
        }
      }
    }
  }

  // ---------- What the loop leaves in time ----------

  /** The first operation still to be claimed whose adapter does not report a success, if any. */
  function FirstFailure(c: Caller, ops: seq<OpRow>, read: seq<Status>, next: nat): (k: nat)
    requires next <= |read| && Equipped(c, ops, read, next)
    ensures next <= k <= |read|
    ensures k < |read| ==> ClaimableBy(c.mode, read[k]) && !IsSuccess(OutcomeOf(c, ops, k))
    ensures forall i :: next <= i < k && ClaimableBy(c.mode, read[i]) ==> IsSuccess(OutcomeOf(c, ops, i))
    decreases |read| - next
  {
    if next == |read| || (ClaimableBy(c.mode, read[next]) && !IsSuccess(OutcomeOf(c, ops, next))) then next
    else FirstFailure(c, ops, read, next + 1)
  }

  /** Each row up to the first failure has come to what its adapter said, the rest is as it was,
      and the plan status is the verdict. */
  ghost predicate Leaves(c: Caller, plan: PlanRow, read: seq<Status>, next: nat, after: PlanRow)
    requires next <= |read| && Equipped(c, plan.ops, read, next)
  {
    && |after.ops| == |plan.ops|
    && (forall i :: 0 <= i < |plan.ops| ==>
          after.ops[i].status == if i <= FirstFailure(c, plan.ops, read, next) then ComesTo(c, plan.ops, read, next, i)
                                 else plan.ops[i].status)
    && (MoreToClaim(c, read, next) ==> after.status == Verdict(Statuses(after.ops)))
  }

  lemma FirstFailureSame(c: Caller, ops: seq<OpRow>, after: seq<OpRow>, read: seq<Status>, next: nat)
    requires next <= |read| && Equipped(c, ops, read, next) && |after| == |ops|
    requires forall i :: 0 <= i < |ops| ==> after[i].operation == ops[i].operation
    ensures Equipped(c, after, read, next) && FirstFailure(c, after, read, next) == FirstFailure(c, ops, read, next)
    decreases |read| - next
  {
    if next < |read| {
      SameOutcome(c, ops, after, next);
      FirstFailureSame(c, ops, after, read, next + 1);
    }
  }

  lemma LeavesAfterSkip(c: Caller, plan: PlanRow, read: seq<Status>, next: nat, expiresAt: int, after: PlanRow)
    requires Ready(c, plan, read, next, expiresAt) && next < |read| && !ClaimableBy(c.mode, read[next])
    requires Ready(c, plan, read, next + 1, expiresAt) && Leaves(c, plan, read, next + 1, after)
    ensures Leaves(c, plan, read, next, after)
  {
    hide PlanInv, Verdict;
    ComesToSame(c, plan.ops, plan.ops, read, next, next + 1);
  }

  lemma LeavesAfterSuccess(c: Caller, plan: PlanRow, read: seq<Status>, next: nat, written: PlanRow, after: PlanRow)
    requires next < |read| && Equipped(c, plan.ops, read, next) && ClaimableBy(c.mode, read[next])
    requires IsSuccess(OutcomeOf(c, plan.ops, next)) && |written.ops| == |plan.ops|
    requires forall i :: 0 <= i < |plan.ops| ==> written.ops[i].operation == plan.ops[i].operation
    requires forall i :: 0 <= i < |plan.ops| && i != next ==> written.ops[i] == plan.ops[i]
    requires written.ops[next].status == ComesTo(c, plan.ops, read, next, next)
    requires Equipped(c, written.ops, read, next + 1) && Leaves(c, written, read, next + 1, after)
    requires after.status == Verdict(Statuses(after.ops))
    ensures Leaves(c, plan, read, next, after)
  {
    hide Verdict, OutcomeOf;
    ComesToSame(c, plan.ops, written.ops, read, next, next + 1);
    FirstFailureSame(c, plan.ops, written.ops, read, next + 1);
  }

  lemma LeavesAtOnce(c: Caller, plan: PlanRow, read: seq<Status>, next: nat, written: PlanRow)
    requires next < |read| && Equipped(c, plan.ops, read, next) && ClaimableBy(c.mode, read[next])
    requires |written.ops| == |plan.ops| && forall i ::
               0 <= i < |plan.ops| && i != next ==> written.ops[i] == plan.ops[i]
    requires written.ops[next].status == OutcomeOf(c, plan.ops, next)
    requires written.status == VerdictAfter(plan, next, OutcomeOf(c, plan.ops, next))
    requires !IsSuccess(OutcomeOf(c, plan.ops, next)) || !MoreToClaim(c, read, next + 1)
    ensures Leaves(c, plan, read, next, written) && written.status == Verdict(Statuses(written.ops))
  {
    hide Verdict;
    assert Statuses(written.ops) == Statuses(plan.ops)[next := OutcomeOf(c, plan.ops, next)];
  }

  /** In time, and unless it fails, the loop leaves exactly that. */
  lemma {:induction false} LeavesInTime(c: Caller, plan: PlanRow, read: seq<Status>, next: nat, expiresAt: int)
    requires Ready(c, plan, read, next, expiresAt)
    ensures next <= |read| && Equipped(c, plan.ops, read, next)
    ensures LoopFrom(c, plan, read, next).result.Ok? ==> Leaves(c, plan, read, next, LoopFrom(c, plan, read, next).plan)
    decreases |read| - next
  {
    hide PlanInv, Round, InTime, Untouched, Ready, OutcomeOf, Leaves, VerdictAfter;
    NothingFails(c, plan, read, next, expiresAt);
    if !MoreToClaim(c, read, next) {
      LoopIdles(c, plan, read, next);
      LeavesIdle(c, plan, read, next);
    } else if !ClaimableBy(c.mode, read[next]) {
      SkipsOn(c, plan, read, next, expiresAt);
      LeavesInTime(c, plan, read, next + 1, expiresAt);
      if LoopFrom(c, plan, read, next).result.Ok? {
        LeavesAfterSkip(c, plan, read, next, expiresAt, LoopFrom(c, plan, read, next).plan);
      }
    } else {
      var (result, written, called) := Round(c, plan, next);
      if result.Ok? {
        WrittenAsAnswered(c, plan, read, next, expiresAt);
        if IsSuccess(OutcomeOf(c, plan.ops, next)) && MoreToClaim(c, read, next + 1) {
          SucceedsOn(c, plan, read, next, expiresAt);
          LeavesInTime(c, written, read, next + 1, c.clock(2 * next) + c.leaseSeconds);
          if LoopFrom(c, plan, read, next).result.Ok? {
            LeavesVerdict(c, written, read, next + 1, LoopFrom(c, written, read, next + 1).plan);
            LeavesAfterSuccess(c, plan, read, next, written, LoopFrom(c, written, read, next + 1).plan);
          }
        } else {
          LeavesAtOnce(c, plan, read, next, written);
          EquippedOn(c, plan, written, read, next);
          if IsSuccess(OutcomeOf(c, plan.ops, next)) {
            LoopIdles(c, written, read, next + 1);
          }
        }
      }
    }
  }

  lemma LeavesVerdict(c: Caller, plan: PlanRow, read: seq<Status>, next: nat, after: PlanRow)
    requires next <= |read| && Equipped(c, plan.ops, read, next) && Leaves(c, plan, read, next, after)
    ensures MoreToClaim(c, read, next) ==> after.status == Verdict(Statuses(after.ops))
  {
  }

  lemma LeavesIdle(c: Caller, plan: PlanRow, read: seq<Status>, next: nat)
    requires next <= |read| && Equipped(c, plan.ops, read, next) && !MoreToClaim(c, read, next)
    ensures Leaves(c, plan, read, next, plan)
  {
  }

  lemma EquippedOn(c: Caller, plan: PlanRow, after: PlanRow, read: seq<Status>, next: nat)
    requires next < |read| && Equipped(c, plan.ops, read, next) && |after.ops| == |plan.ops|
    requires forall i :: 0 <= i < |plan.ops| ==> after.ops[i].operation == plan.ops[i].operation
    ensures Equipped(c, after.ops, read, next + 1)
  {
  }

  // ---------- A whole confirm, a whole resume ----------

  lemma ConfirmReady(c: Caller, plan: PlanRow, now: int)
    requires Fresh(plan) && c.mode == Confirm && HonestAdapters(c.adapters)
    requires forall i :: 0 <= i < |plan.ops| ==> plan.ops[i].operation.kind in c.adapters
    requires InTime(c, Statuses(plan.ops), 0, now + c.leaseSeconds)
    ensures PlanClaimable(plan, false, now)
    ensures Ready(c, ClaimPlan(plan, c.owner, c.leaseSeconds, false, now), Statuses(plan.ops), 0, now + c.leaseSeconds)
  {
    hide InTime;
    StartInv(plan);
    ClaimPlanKeeps(plan, c.owner, c.leaseSeconds, false, now);
  }

  lemma ResumeReady(c: Caller, plan: PlanRow, now: int)
    requires PlanInv(plan) && ResumableRows(plan.ops) && PlanClaimable(plan, true, now)
    requires c.mode == Resume && HonestAdapters(c.adapters)
    requires forall i :: 0 <= i < |plan.ops| && plan.ops[i].status == RetryableNotApplied ==>
               plan.ops[i].operation.kind in c.adapters
    requires InTime(c, Statuses(plan.ops), 0, now + c.leaseSeconds)
    ensures Ready(c, ClaimPlan(plan, c.owner, c.leaseSeconds, true, now), Statuses(plan.ops), 0, now + c.leaseSeconds)
  {
    hide InTime, Verdict;
    ClaimPlanKeeps(plan, c.owner, c.leaseSeconds, true, now);
  }

  ghost predicate AllSucceedBefore(c: Caller, ops: seq<OpRow>, i: nat)
    requires i <= |ops|
  {
    forall j :: 0 <= j < i ==> ops[j].operation.kind in c.adapters && IsSuccess(OutcomeOf(c, ops, j))
  }

  /** A confirm of a fresh plan that stays within its leases fails exactly when it has two
      operations or more and all of them were found already applied; otherwise each operation up
      to the first failure ends as its adapter said, the others stay ISSUED, and the plan gets
      the verdict. */
  lemma ConfirmInTime(c: Caller, plan: PlanRow, now: int)
    requires Fresh(plan) && c.mode == Confirm && HonestAdapters(c.adapters)
    requires forall i :: 0 <= i < |plan.ops| ==> plan.ops[i].operation.kind in c.adapters
    requires InTime(c, Statuses(plan.ops), 0, now + c.leaseSeconds)
    ensures var claimed := ClaimPlan(plan, c.owner, c.leaseSeconds, false, now);
            var run := LoopFrom(c, claimed, Statuses(plan.ops), 0);
            && (run.result.Err? <==>
                  |plan.ops| >= 2 && forall i :: 0 <= i < |plan.ops| ==> OutcomeOf(c, plan.ops, i) == AlreadyApplied)
            && (run.result.Err? ==> run.result.error == IllegalTransition)
            && (run.result.Ok? ==>
                  |run.plan.ops| == |plan.ops| && forall i :: 0 <= i < |plan.ops| ==>
                    if AllSucceedBefore(c, plan.ops, i)
                    then run.plan.ops[i].status == OutcomeOf(c, plan.ops, i) else run.plan.ops[i].status == Issued)
            && (run.result.Ok? && plan.ops != [] ==> run.plan.status == Verdict(Statuses(run.plan.ops)))
  {
    hide InTime, Verdict, Ready, OutcomeOf, HonestAdapters;
    ConfirmReady(c, plan, now);
    var claimed, read := ClaimPlan(plan, c.owner, c.leaseSeconds, false, now), Statuses(plan.ops);
    FailsInTimeExactly(c, claimed, read, 0, now + c.leaseSeconds);
    LeavesInTime(c, claimed, read, 0, now + c.leaseSeconds);
    AllClaimable(c, claimed, read);
  }

  lemma AllClaimable(c: Caller, plan: PlanRow, read: seq<Status>)
    requires Equipped(c, plan.ops, read, 0) && forall i :: 0 <= i < |read| ==> ClaimableBy(c.mode, read[i])
    ensures forall i :: 0 <= i < |read| ==> ComesTo(c, plan.ops, read, 0, i) == OutcomeOf(c, plan.ops, i)
    ensures forall i :: 0 <= i < |read| ==>
              (i <= FirstFailure(c, plan.ops, read, 0) <==> AllSucceedBefore(c, plan.ops, i))
    ensures MoreToClaim(c, read, 0) <==> read != []
  {
    hide OutcomeOf;
    if read != [] {
      assert ClaimableBy(c.mode, read[0]);
    }
  }

  /** In particular, when all adapters answer APPLIED, everything ends APPLIED. */
  lemma ConfirmApplies(c: Caller, plan: PlanRow, now: int)
    requires Fresh(plan) && c.mode == Confirm && HonestAdapters(c.adapters) && plan.ops != []
    requires forall i :: 0 <= i < |plan.ops| ==> plan.ops[i].operation.kind in c.adapters
    requires InTime(c, Statuses(plan.ops), 0, now + c.leaseSeconds)
    requires forall i :: 0 <= i < |plan.ops| ==> OutcomeOf(c, plan.ops, i) == Applied
    ensures var run := LoopFrom(c, ClaimPlan(plan, c.owner, c.leaseSeconds, false, now), Statuses(plan.ops), 0);
            && run.result.Ok? && run.plan.status == Applied
            && |run.plan.ops| == |plan.ops| && forall i :: 0 <= i < |plan.ops| ==> run.plan.ops[i].status == Applied
  {
    hide InTime, Verdict, OutcomeOf, LoopFrom, HonestAdapters;
    ConfirmInTime(c, plan, now);
    assert OutcomeOf(c, plan.ops, 0) == Applied;
    VerdictApplied(LoopFrom(c, ClaimPlan(plan, c.owner, c.leaseSeconds, false, now), Statuses(plan.ops), 0).plan.ops);
  }

  lemma VerdictApplied(ops: seq<OpRow>)
    requires ops != []
    ensures (forall i :: 0 <= i < |ops| ==> ops[i].status == Applied) ==> Verdict(Statuses(ops)) == Applied
  {
    assert Statuses(ops)[0] in Statuses(ops);
  }

  /** A resume that stays within its leases fails exactly when all rows would end ALREADY_APPLIED,
      or nothing was done before and its first operation, not the only one, is rejected. */
  lemma ResumeInTime(c: Caller, plan: PlanRow, now: int)
    requires PlanInv(plan) && ResumableRows(plan.ops) && PlanClaimable(plan, true, now)
    requires c.mode == Resume && HonestAdapters(c.adapters)
    requires forall i :: 0 <= i < |plan.ops| && plan.ops[i].status == RetryableNotApplied ==>
               plan.ops[i].operation.kind in c.adapters
    requires InTime(c, Statuses(plan.ops), 0, now + c.leaseSeconds)
    ensures var claimed, read := ClaimPlan(plan, c.owner, c.leaseSeconds, true, now), Statuses(plan.ops);
            var run := LoopFrom(c, claimed, read, 0);
            && (run.result.Err? <==>
                  |plan.ops| >= 2
                  && (|| AllComeTo(c, plan.ops, read, 0, AlreadyApplied)
                      || (plan.status != Partial && ComesTo(c, plan.ops, read, 0, 0) == Rejected)))
            && (run.result.Err? ==> run.result.error == IllegalTransition)
            && (run.result.Ok? ==>
                  && |run.plan.ops| == |plan.ops| && run.plan.status == Verdict(Statuses(run.plan.ops))
                  && forall i :: 0 <= i < |plan.ops| ==>
                       run.plan.ops[i].status == if i <= FirstFailure(c, plan.ops, read, 0)
                                                 then ComesTo(c, plan.ops, read, 0, i) else plan.ops[i].status)
  {
    hide InTime, Verdict, Ready, OutcomeOf, HonestAdapters;
    ResumeReady(c, plan, now);
    var claimed, read := ClaimPlan(plan, c.owner, c.leaseSeconds, true, now), Statuses(plan.ops);
    FailsInTimeExactly(c, claimed, read, 0, now + c.leaseSeconds);
    LeavesInTime(c, claimed, read, 0, now + c.leaseSeconds);
    var k :| 0 <= k < |plan.ops| && plan.ops[k].status == RetryableNotApplied;
    assert ClaimableBy(c.mode, read[k]);
    assert forall i :: 0 <= i < |plan.ops| ==> ComesTo(c, claimed.ops, read, 0, i) == ComesTo(c, plan.ops, read, 0, i);
  }
}
