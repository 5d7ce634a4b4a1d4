/** Receipts that are refused although everything about them is in order: both situations are
    reached from a fresh plan exactly when it has two operations or more, whatever discipline
    the callers keep. */
module LostReceipts {
  import opened Wrappers
  import opened WritePlan
  import opened PlanStore
  import opened WriteProtocol
  import opened ProtocolInvariants
  import opened ProtocolTheorems
  import opened ReconcileRace
  import opened ProtocolSteps

  /** Executor `t` holds the lease, this attempt is its own, the adapter has answered, and the
      store refuses the receipt. */
  ghost predicate Refused(w: World, t: Token, now: int, outcome: Status) {
    && t in w.executors && w.executors[t].phase.Dispatched? && w.executors[t].phase.outcome == outcome
    && var phase := w.executors[t].phase;
       && phase.next < |w.plan.ops|
       && ReceiptFenced(w.plan, phase.next, phase.attempt, t, phase.attemptToken, now)
       && RecordReceipt(w.plan, phase.next, phase.outcome, phase.attempt, t, phase.attemptToken, now).Err?
  }

  /** Some run from the fresh plan ends before such a receipt. */
  ghost predicate Loses(d: Discipline, plan: PlanRow, outcome: Status) {
    exists actions, t, now :: IsRun(d, Start(plan), actions) && Refused(After(d, Start(plan), actions), t, now, outcome)
  }

  /** The refusal leaves the operation EXECUTING, though it was dispatched, and stops the executor. */
  lemma RefusalStrands(d: Discipline, w: World, t: Token, now: int, outcome: Status)
    requires Refused(w, t, now, outcome)
    ensures Enabled(d, w, Record(t, now))
    ensures var w' := Next(d, w, Record(t, now));
            && w'.plan == w.plan && w'.plan.ops[w.executors[t].phase.next].status == Executing
            && w'.executors[t].phase == Stopped && w'.dispatches == w.dispatches
  {
  }

  // ---------- Every adapter answers ALREADY_APPLIED ----------

  function AnsweredRows(plan: PlanRow, k: nat): seq<OpRow> {
    seq(|plan.ops|, i requires 0 <= i < |plan.ops| => if i < k then Tried(plan.ops[i], AlreadyApplied) else plan.ops[i])
  }

  /** The confirm executor has recorded ALREADY_APPLIED for its first `k` operations. */
  ghost function AnsweredWorld(plan: PlanRow, k: nat): World {
    World(
      PlanRow(plan.expiresAt, if k == 0 then Executing else Partial, Some(Lease(CONFIRMER, LEASE)),
              AnsweredRows(plan, k)),
      map[CONFIRMER := Executor(Confirm, Looping(Statuses(plan.ops), k))],
      Idle,
      seq(|plan.ops|, i => if i < k then 1 else 0))
  }

  lemma Answers(d: Discipline, plan: PlanRow, k: nat) returns (actions: seq<Action>)
    requires Fresh(plan) && k + 1 < |plan.ops|
    ensures IsRun(d, AnsweredWorld(plan, k), actions)
    ensures After(d, AnsweredWorld(plan, k), actions) == AnsweredWorld(plan, k + 1)
  {
    hide Next, Enabled, IsRun, After, Verdict, VerdictAfter;
    var w := AnsweredWorld(plan, k);
    PartialAfter(w.plan, k, AlreadyApplied, k, k + 1);
    actions := CarryOut(d, w, CONFIRMER, k, AlreadyApplied);
    assert CarriedOut(w, CONFIRMER, k, AlreadyApplied).plan.ops == AnsweredRows(plan, k + 1);
    assert CarriedOut(w, CONFIRMER, k, AlreadyApplied).dispatches == AnsweredWorld(plan, k + 1).dispatches;
  }

  lemma Opening(d: Discipline, plan: PlanRow) returns (actions: seq<Action>)
    requires Fresh(plan)
    ensures IsRun(d, Start(plan), actions) && After(d, Start(plan), actions) == AnsweredWorld(plan, 0)
  {
    hide Next, Enabled, IsRun, After;
    actions := ConfirmOpens(d, Start(plan));
    assert AnsweredRows(plan, 0) == plan.ops;
  }

  lemma {:induction false} AnswersUpTo(d: Discipline, plan: PlanRow, k: nat) returns (actions: seq<Action>)
    requires Fresh(plan) && k < |plan.ops|
    ensures IsRun(d, Start(plan), actions) && After(d, Start(plan), actions) == AnsweredWorld(plan, k)
  {
    hide IsRun, After, AnsweredWorld;
    if k == 0 {
      actions := Opening(d, plan);
    } else {
      actions := AnswersUpTo(d, plan, k - 1);
      var more := Answers(d, plan, k - 1);
      RunsCompose(d, Start(plan), actions, more);
      actions := actions + more;
    }
  }

  /** The executor claims its operation and the adapter answers. */
  lemma ClaimedAndAnswered(d: Discipline, w: World, t: Token, outcome: ApplyStatus) returns (actions: seq<Action>)
    requires t in w.executors && w.executors[t].phase.Looping? && AdapterOutcome(outcome)
    requires w.executors[t].phase.next < |w.plan.ops| == |w.dispatches| == |w.executors[t].phase.read|
    requires ClaimableBy(w.executors[t].mode, w.executors[t].phase.read[w.executors[t].phase.next])
    requires w.plan.ops[w.executors[t].phase.next].status in {Issued, RetryableNotApplied}
    requires w.plan.lease == Some(Lease(t, LEASE))
    ensures IsRun(d, w, actions)
    ensures var i, w' := w.executors[t].phase.next, After(d, w, actions);
            && |w'.plan.ops| == |w.plan.ops| && w'.plan.status == w.plan.status
            && (forall j :: 0 <= j < |w.plan.ops| && j != i ==> w'.plan.ops[j] == w.plan.ops[j])
            && t in w'.executors && w'.executors[t].phase.Dispatched?
            && var phase := w'.executors[t].phase;
               && phase.next == i && phase.outcome == outcome
               && ReceiptFenced(w'.plan, i, phase.attempt, t, phase.attemptToken, 0)
  {
    hide Next, Enabled, IsRun, After;
    actions := [ClaimNext(t, ATTEMPT, LEASE, 0), Dispatch(t, outcome)];
    AnswerSteps(d, w, t, w.executors[t].phase.next, ATTEMPT, LEASE, 0, outcome);
  }

  lemma LosesAlreadyApplied(d: Discipline, plan: PlanRow) returns (actions: seq<Action>)
    requires Fresh(plan) && |plan.ops| >= 2
    ensures IsRun(d, Start(plan), actions) && Refused(After(d, Start(plan), actions), CONFIRMER, 0, AlreadyApplied)
  {
    hide Next, Enabled, IsRun, After, Verdict, VerdictAfter, PlanInv, RecordReceipt;
    var last := |plan.ops| - 1;
    actions := AnswersUpTo(d, plan, last);
    var more := ClaimedAndAnswered(d, AnsweredWorld(plan, last), CONFIRMER, AlreadyApplied);
    RunsCompose(d, Start(plan), actions, more);
    actions := actions + more;
    RefusedThere(d, plan, actions, CONFIRMER, 0);
  }

  /** The law of refused receipts, at the end of a run. */
  lemma RefusedThere(d: Discipline, plan: PlanRow, actions: seq<Action>, t: Token, now: int)
    requires Fresh(plan) && IsRun(d, Start(plan), actions)
    requires var w := After(d, Start(plan), actions);
             && t in w.executors && w.executors[t].phase.Dispatched? && w.executors[t].phase.next < |w.plan.ops|
             && ReceiptFenced(w.plan, w.executors[t].phase.next, w.executors[t].phase.attempt, t,
                              w.executors[t].phase.attemptToken, now)
    ensures var w := After(d, Start(plan), actions);
            var i, outcome := w.executors[t].phase.next, w.executors[t].phase.outcome;
            && (Refused(w, t, now, outcome) <==>
                  || (w.plan.status == Partial && outcome == AlreadyApplied
                      && forall j :: 0 <= j < |w.plan.ops| && j != i ==> w.plan.ops[j].status == AlreadyApplied)
                  || (w.plan.status == Executing && outcome == Rejected && OthersOnlyReplayable(w.plan.ops, i)))
            && (Refused(w, t, now, outcome) ==> |plan.ops| >= 2)
  {
    hide IsRun, After, VerdictAfter, RecordReceipt, ReceiptFenced;
    StartInv(plan);
    RunKeepsWorld(d, Start(plan), actions);
    var w := After(d, Start(plan), actions);
    ReachableReceipts(d, plan, actions, t, now);
  }

  // ---------- A plan given up, reconciled, resumed and rejected ----------

  function GivenUpRows(plan: PlanRow, k: nat): seq<OpRow> {
    seq(|plan.ops|, i requires 0 <= i < |plan.ops| => if i < k then Replayable(plan.ops[i]) else plan.ops[i])
  }

  /** The confirm executor stopped right after its claim; a pass has settled the first `k` rows. */
  ghost function GivenUpWorld(plan: PlanRow, k: nat): World {
    World(
      PlanRow(plan.expiresAt, if k == 0 then Unknown else RetryableNotApplied, None, GivenUpRows(plan, k)),
      map[CONFIRMER := Executor(Confirm, Claimed)],
      Writing(plan.ops, k),
      Start(plan).dispatches)
  }

  lemma ReplayableVerdict(plan: PlanRow, k: nat)
    requires Fresh(plan) && k < |plan.ops|
    ensures Verdict(Statuses(GivenUpRows(plan, k))[k := RetryableNotApplied]) == RetryableNotApplied
  {
    var statuses := Statuses(GivenUpRows(plan, k))[k := RetryableNotApplied];
    assert statuses[k] in statuses;
    assert forall s :: s in statuses ==> s in {Issued, RetryableNotApplied};
  }

  lemma {:induction false} GivenUp(d: Discipline, plan: PlanRow, k: nat) returns (actions: seq<Action>)
    requires Fresh(plan) && plan.ops != [] && k <= |plan.ops|
    ensures IsRun(d, Start(plan), actions) && After(d, Start(plan), actions) == GivenUpWorld(plan, k)
  {
    hide Next, Enabled, IsRun, After, Verdict;
    if k == 0 {
      actions := Abandoned(d, plan);
    } else {
      actions := GivenUp(d, plan, k - 1);
      ReplayableVerdict(plan, k - 1);
      ReplayStep(d, GivenUpWorld(plan, k - 1));
      Extend(d, Start(plan), actions, PassWrite(map[]));
      actions := actions + [PassWrite(map[])];
      assert After(d, Start(plan), actions).plan.ops == GivenUpRows(plan, k);
    }
  }

  lemma Abandoned(d: Discipline, plan: PlanRow) returns (actions: seq<Action>)
    requires Fresh(plan)
    ensures IsRun(d, Start(plan), actions) && After(d, Start(plan), actions) == GivenUpWorld(plan, 0)
  {
    hide Next, Enabled, IsRun, After;
    var w0 := Start(plan);
    ConfirmStep(d, w0, CONFIRMER, LEASE, 0);
    OneStep(d, w0, ConfirmClaim(CONFIRMER, LEASE, 0));
    actions := [ConfirmClaim(CONFIRMER, LEASE, 0)];
    PassOpens(d, After(d, w0, actions), LEASE);
    RunsCompose(d, w0, actions, [PassBegin(LEASE)] + [PassReadStatus, PassSnapshot]);
    actions := actions + ([PassBegin(LEASE)] + [PassReadStatus, PassSnapshot]);
    assert GivenUpRows(plan, 0) == plan.ops;
  }

  /** A resume takes the plan over, with every operation to be replayed. */
  ghost function ResumedWorld(plan: PlanRow): World {
    var n := |plan.ops|;
    World(
      PlanRow(plan.expiresAt, Executing, Some(Lease(RESUMER, LEASE)), GivenUpRows(plan, n)),
      map[CONFIRMER := Executor(Confirm, Claimed),
          RESUMER := Executor(Resume, Looping(Statuses(GivenUpRows(plan, n)), 0))],
      Writing(plan.ops, n),
      Start(plan).dispatches)
  }

  lemma Resumed(d: Discipline, plan: PlanRow) returns (actions: seq<Action>)
    requires Fresh(plan) && plan.ops != []
    ensures IsRun(d, GivenUpWorld(plan, |plan.ops|), actions)
    ensures After(d, GivenUpWorld(plan, |plan.ops|), actions) == ResumedWorld(plan)
  {
    hide Next, Enabled, IsRun, After;
    var w := GivenUpWorld(plan, |plan.ops|);
    assert GivenUpRows(plan, |plan.ops|)[0].status == RetryableNotApplied;
    actions := ResumeOpens(d, w);
  }

  lemma LosesRejected(d: Discipline, plan: PlanRow) returns (actions: seq<Action>)
    requires Fresh(plan) && |plan.ops| >= 2
    ensures IsRun(d, Start(plan), actions) && Refused(After(d, Start(plan), actions), RESUMER, 0, Rejected)
  {
    hide Next, Enabled, IsRun, After, Refused, GivenUpWorld;
    actions := GivenUp(d, plan, |plan.ops|);
    var resumed := Resumed(d, plan);
    RunsCompose(d, Start(plan), actions, resumed);
    actions := actions + resumed;
    var more := ClaimedAndAnswered(d, ResumedWorld(plan), RESUMER, Rejected);
    RunsCompose(d, Start(plan), actions, more);
    actions := actions + more;
    OthersStayReplayable(plan, After(d, Start(plan), actions).plan.ops);
    RefusedThere(d, plan, actions, RESUMER, 0);
  }

  lemma OthersStayReplayable(plan: PlanRow, ops: seq<OpRow>)
    requires |ops| == |plan.ops| >= 2 && forall j :: 0 < j < |ops| ==> ops[j] == GivenUpRows(plan, |plan.ops|)[j]
    ensures OthersOnlyReplayable(ops, 0)
  {
    assert ops[1].status == RetryableNotApplied;
  }

  /** Only ALREADY_APPLIED and REJECTED are ever refused, and each of them is, in some run,
      exactly for the plans of two operations or more. */
  lemma LostReceiptsExactly(d: Discipline, plan: PlanRow, outcome: Status)
    requires Fresh(plan)
    ensures Loses(d, plan, outcome) <==> outcome in {AlreadyApplied, Rejected} && |plan.ops| >= 2
  {
    hide IsRun, After, Refused;
    if Loses(d, plan, outcome) {
      var actions, t, now :| IsRun(d, Start(plan), actions) && Refused(After(d, Start(plan), actions), t, now, outcome);
      LossMeans(d, plan, actions, t, now, outcome);
    }
    if |plan.ops| >= 2 {
      var already := LosesAlreadyApplied(d, plan);
      var rejected := LosesRejected(d, plan);
    }
  }

  lemma LossMeans(d: Discipline, plan: PlanRow, actions: seq<Action>, t: Token, now: int, outcome: Status)
    requires Fresh(plan) && IsRun(d, Start(plan), actions) && Refused(After(d, Start(plan), actions), t, now, outcome)
    ensures outcome in {AlreadyApplied, Rejected} && |plan.ops| >= 2
  {
    hide IsRun, After, ReceiptFenced, RecordReceipt;
    RefusedThere(d, plan, actions, t, now);
  }
}
