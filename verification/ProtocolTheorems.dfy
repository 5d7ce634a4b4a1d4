/** Verdict coherence, absorption, fencing and the exact acceptance of receipts. None of
    these needs a discipline of the callers. */
module ProtocolTheorems {
  import opened Wrappers
  import opened WritePlan
  import opened PlanStore
  import opened WriteProtocol
  import opened ProtocolInvariants

  /** In every reachable world a decided plan status is the aggregate of the rows, and an
      undecided one stands beside no successful write; a held lease means EXECUTING or PARTIAL. */
  lemma VerdictCoherence(d: Discipline, plan: PlanRow, actions: seq<Action>)
    requires Fresh(plan) && IsRun(d, Start(plan), actions)
    ensures var p := After(d, Start(plan), actions).plan;
            && (p.status in {Applied, AlreadyApplied, Partial, Conflict, Rejected, RetryableNotApplied} ==>
                  p.status == Verdict(Statuses(p.ops)))
            && (p.status in {Issued, Executing, Unknown, Expired} ==>
                  Applied !in Statuses(p.ops) && AlreadyApplied !in Statuses(p.ops))
            && p.status != LegacyUnknown
            && (p.lease.Some? ==> p.status in {Executing, Partial})
  {
    StartInv(plan);
    RunKeepsWorld(d, Start(plan), actions);
    var ops := After(d, Start(plan), actions).plan.ops;
    StatusesAt(ops, Applied);
    StatusesAt(ops, AlreadyApplied);
  }

  /** A reported success is the truth about every operation, forever. */
  lemma SuccessIsAbsorbing(d: Discipline, plan: PlanRow, first: seq<Action>, later: seq<Action>)
    requires Fresh(plan) && IsRun(d, Start(plan), first) && IsRun(d, After(d, Start(plan), first), later)
    ensures var p := After(d, Start(plan), first).plan;
            var q := After(d, After(d, Start(plan), first), later).plan;
            && |q.ops| == |p.ops|
            && (forall i :: 0 <= i < |p.ops| && IsSuccess(p.ops[i].status) ==> q.ops[i].status == p.ops[i].status)
            && (IsSuccess(p.status) ==>
                  q.status == p.status && forall i :: 0 <= i < |q.ops| ==> IsSuccess(q.ops[i].status))
  {
    StartInv(plan);
    RunKeepsWorld(d, Start(plan), first);
    var w := After(d, Start(plan), first);
    RunKeepsWorld(d, w, later);
    var q := After(d, w, later).plan;
    if IsSuccess(q.status) {
      VerdictHonest(Statuses(q.ops));
      forall i | 0 <= i < |q.ops|
        ensures IsSuccess(q.ops[i].status)
      {
        assert Statuses(q.ops)[i] in Statuses(q.ops);
      }
    }
  }

  // ---------- Fencing ----------

  /** The executor whose token a store transaction carries, if it is a claim or a receipt. */
  function Carries(a: Action): Option<Token> {
    match a
    case ClaimNext(t, _, _, _) => Some(t)
    case Record(t, _) => Some(t)
    case _ => None
  }

  /** Executor `t` once claimed the plan and no longer holds its lease. */
  ghost predicate FencedOff(w: World, t: Token) {
    t in w.executors && !PreClaim(w.executors[t].phase) && !HoldsLease(w.plan, t)
  }

  lemma StepKeepsFencedOff(d: Discipline, w: World, a: Action, t: Token)
    requires FencedOff(w, t) && Enabled(d, w, a)
    ensures FencedOff(Next(d, w, a), t)
    ensures Carries(a) == Some(t) ==> Next(d, w, a).plan == w.plan
  {
  }

  lemma {:induction false} RunKeepsFencedOff(d: Discipline, w: World, actions: seq<Action>, t: Token)
    requires FencedOff(w, t) && IsRun(d, w, actions)
    ensures FencedOff(After(d, w, actions), t)
    decreases actions
  {
    if actions != [] {
      StepKeepsFencedOff(d, w, actions[0], t);
      RunKeepsFencedOff(d, Next(d, w, actions[0]), actions[1..], t);
    }
  }

  /** Once a lease is taken over, released or cleared by a pass, no claim or receipt that
      carries the old owner token ever changes the plan again, whatever happened in between. */
  lemma OldTokensAreDead(d: Discipline, w: World, between: seq<Action>, t: Token, a: Action)
    requires FencedOff(w, t) && IsRun(d, w, between)
    requires Enabled(d, After(d, w, between), a) && Carries(a) == Some(t)
    ensures Next(d, After(d, w, between), a).plan == After(d, w, between).plan
  {
    RunKeepsFencedOff(d, w, between, t);
    StepKeepsFencedOff(d, After(d, w, between), a, t);
  }

  // ---------- Acceptance of receipts ----------

  /** The other rows leave nothing better than RETRYABLE_NOT_APPLIED, and at least one is. */
  ghost predicate OthersOnlyReplayable(ops: seq<OpRow>, i: nat) {
    && (exists j :: 0 <= j < |ops| && j != i && ops[j].status == RetryableNotApplied)
    && (forall j :: 0 <= j < |ops| && j != i ==> ops[j].status !in {Conflict, Unknown})
  }

  lemma VerdictAlreadyApplied(ops: seq<OpRow>)
    requires ops != []
    ensures Verdict(Statuses(ops)) == AlreadyApplied <==> forall j :: 0 <= j < |ops| ==> ops[j].status == AlreadyApplied
  {
    var statuses := Statuses(ops);
    assert statuses[0] in statuses;
    if forall j :: 0 <= j < |ops| ==> ops[j].status == AlreadyApplied {
      assert forall s :: s in statuses ==> s == AlreadyApplied;
    }
    if Verdict(statuses) == AlreadyApplied {
      forall j | 0 <= j < |ops|
        ensures ops[j].status == AlreadyApplied
      {
        assert statuses[j] in statuses;
      }
    }
  }

  lemma VerdictReplayable(ops: seq<OpRow>)
    requires KnownRows(ops) && ops != []
    ensures Verdict(Statuses(ops)) == RetryableNotApplied <==>
            && NoSuccess(ops)
            && (forall j :: 0 <= j < |ops| ==> ops[j].status !in {Unknown, Conflict})
            && (exists j :: 0 <= j < |ops| && ops[j].status == RetryableNotApplied)
  {
  }

  /** A PARTIAL plan accepts every outcome but the one that completes ALREADY_APPLIED rows. */
  lemma PartialVerdicts(plan: PlanRow, i: nat, outcome: ApplyStatus)
    requires PlanInv(plan) && i < |plan.ops| && AdapterOutcome(outcome)
    requires plan.status == Partial && plan.ops[i].status == Executing
    ensures VerdictAfter(plan, i, outcome) in {Applied, AlreadyApplied, Partial}
    ensures VerdictAfter(plan, i, outcome) == AlreadyApplied <==>
            outcome == AlreadyApplied && forall j ::
              0 <= j < |plan.ops| && j != i ==> plan.ops[j].status == AlreadyApplied
  {
    hide Verdict;
    var ops := plan.ops[i := plan.ops[i].(status := outcome)];
    assert Statuses(ops) == Statuses(plan.ops)[i := outcome];
    VerdictNoSuccess(plan.ops);
    VerdictNoSuccess(ops);
    VerdictAlreadyApplied(ops);
    var k :| 0 <= k < |plan.ops| && IsSuccess(plan.ops[k].status);
    assert IsSuccess(ops[k].status);
    assert forall j :: 0 <= j < |ops| && j != i ==> ops[j] == plan.ops[j];
    assert ops[i].status == outcome;
  }

  /** An EXECUTING plan accepts every outcome but a rejection that leaves it replayable. */
  lemma ExecutingVerdicts(plan: PlanRow, i: nat, outcome: ApplyStatus)
    requires PlanInv(plan) && i < |plan.ops| && AdapterOutcome(outcome)
    requires plan.status == Executing && plan.ops[i].status == Executing
    ensures VerdictAfter(plan, i, outcome) !in {Issued, Expired, LegacyUnknown}
    ensures VerdictAfter(plan, i, outcome) == RetryableNotApplied <==>
            outcome == Rejected && OthersOnlyReplayable(plan.ops, i)
  {
    hide Verdict;
    var ops := plan.ops[i := plan.ops[i].(status := outcome)];
    assert Statuses(ops) == Statuses(plan.ops)[i := outcome];
    VerdictNoSuccess(ops);
    VerdictReplayable(ops);
    assert forall j :: 0 <= j < |ops| && j != i ==> ops[j] == plan.ops[j];
    assert ops[i].status == outcome;
    if outcome == Rejected && OthersOnlyReplayable(plan.ops, i) {
      var j :| 0 <= j < |plan.ops| && j != i && plan.ops[j].status == RetryableNotApplied;
      assert ops[j].status == RetryableNotApplied;
    }
  }

  /** A fresh, fenced and unexpired receipt is refused in exactly two situations: the last
      ALREADY_APPLIED of a PARTIAL plan whose rows would all be ALREADY_APPLIED, and a
      rejection that would leave an EXECUTING plan replayable. Both strand the operation. */
  lemma ReceiptRefusedExactly(plan: PlanRow, i: nat, outcome: ApplyStatus, attempt: nat, owner: Token,
                              attemptToken: Token, now: int)
    requires PlanInv(plan) && i < |plan.ops| && AdapterOutcome(outcome)
    requires ReceiptFenced(plan, i, attempt, owner, attemptToken, now)
    ensures RecordReceipt(plan, i, outcome, attempt, owner, attemptToken, now).Err? <==>
            || (plan.status == Partial && outcome == AlreadyApplied
                && forall j :: 0 <= j < |plan.ops| && j != i ==> plan.ops[j].status == AlreadyApplied)
            || (plan.status == Executing && outcome == Rejected && OthersOnlyReplayable(plan.ops, i))
  {
    hide Verdict, VerdictAfter, Coherent, KnownRows;
    if plan.status == Partial {
      PartialVerdicts(plan, i, outcome);
    } else {
      ExecutingVerdicts(plan, i, outcome);
    }
  }

  /** The receipts of every reachable executor fall under that law. */
  lemma ReachableReceipts(d: Discipline, plan: PlanRow, actions: seq<Action>, t: Token, now: int)
    requires Fresh(plan) && IsRun(d, Start(plan), actions)
    requires var w := After(d, Start(plan), actions); Enabled(d, w, Record(t, now))
    ensures var w := After(d, Start(plan), actions);
            var phase := w.executors[t].phase;
            var refused := RecordReceipt(w.plan, phase.next, phase.outcome, phase.attempt, t, phase.attemptToken,
                                         now).Err?;
            ReceiptFenced(w.plan, phase.next, phase.attempt, t, phase.attemptToken, now) ==>
              (refused <==>
                 || (w.plan.status == Partial && phase.outcome == AlreadyApplied
                     && forall j :: 0 <= j < |w.plan.ops| && j != phase.next ==> w.plan.ops[j].status == AlreadyApplied)
                 || (w.plan.status == Executing && phase.outcome == Rejected
                     && OthersOnlyReplayable(w.plan.ops, phase.next)))
  {
    StartInv(plan);
    RunKeepsWorld(d, Start(plan), actions);
    var w := After(d, Start(plan), actions);
    var phase := w.executors[t].phase;
    if ReceiptFenced(w.plan, phase.next, phase.attempt, t, phase.attemptToken, now) {
      ReceiptRefusedExactly(w.plan, phase.next, phase.outcome, phase.attempt, t, phase.attemptToken, now);
    }
  }
}
