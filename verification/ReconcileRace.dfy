/** The race behind the condition of at-most-once dispatch: `begin_reconcile` fences nothing
    while the plan is ISSUED, yet the status read that follows it may already be PARTIAL, so
    the pass can hold a snapshot in which an operation the live executor is about to claim is
    still ISSUED. Writing that row back later authorizes a second dispatch. */
module ReconcileRace {
  import opened Wrappers
  import opened WritePlan
  import opened PlanStore
  import opened WriteProtocol
  import opened ProtocolInvariants
  import opened AtMostOnce
  import opened ProtocolSteps

  const LEASE := 300
  const CONFIRMER := "confirmer"
  const RESUMER := "resumer"
  const ATTEMPT := "attempt"

  /** A row written beside a success and beside (or as) a non-success leaves the plan PARTIAL. */
  lemma PartialAfter(plan: PlanRow, i: nat, status: Status, success: nat, other: nat)
    requires i < |plan.ops| && success < |plan.ops| && other < |plan.ops|
    requires IsSuccess(Statuses(plan.ops)[i := status][success]) && !IsSuccess(Statuses(plan.ops)[i := status][other])
    ensures VerdictAfter(plan, i, status) == Partial
  {
  }

  function Tried(row: OpRow, status: Status): OpRow {
    row.(status := status, attempt := 1, attemptToken := Some(ATTEMPT))
  }

  /** The effect of one executor claiming, dispatching and recording operation `i`, in a plan
      that ends up PARTIAL. */
  function CarriedOut(w: World, t: Token, i: nat, outcome: ApplyStatus): World
    requires t in w.executors && w.executors[t].phase.Looping? && i < |w.plan.ops| && |w.dispatches| == |w.plan.ops|
  {
    var e := w.executors[t];
    var row := Attempted(w.plan.ops[i], ATTEMPT, outcome);
    World(
      PlanRow(w.plan.expiresAt, Partial, if IsSuccess(outcome) then Some(Lease(t, LEASE)) else None,
              w.plan.ops[i := row]),
      w.executors[t := Executor(e.mode, if IsSuccess(outcome) then Looping(e.phase.read, i + 1) else Stopped)],
      w.pass,
      w.dispatches[i := w.dispatches[i] + 1])
  }

  /** The receipt of an answer that leaves the plan PARTIAL is taken. */
  lemma ReceiptTaken(w: World, t: Token, i: nat, outcome: ApplyStatus)
    requires MayTake(w, t, i, 0) && w.plan.status in {Executing, Partial} && VerdictAfter(w.plan, i, outcome) == Partial
    ensures var answered := Answered(w, t, i, ATTEMPT, LEASE, 0, outcome);
            RecordReceipt(answered.plan, i, outcome, w.plan.ops[i].attempt + 1, t, ATTEMPT, 0)
            == Ok(CarriedOut(w, t, i, outcome).plan)
  {
    hide Verdict;
    var answered := Answered(w, t, i, ATTEMPT, LEASE, 0, outcome);
    assert Statuses(answered.plan.ops)[i := outcome] == Statuses(w.plan.ops)[i := outcome];
    assert answered.plan.ops[i := answered.plan.ops[i].(status := outcome)] == CarriedOut(w, t, i, outcome).plan.ops;
  }

  lemma CarryOut(d: Discipline, w: World, t: Token, i: nat, outcome: ApplyStatus) returns (actions: seq<Action>)
    requires MayTake(w, t, i, 0)
    requires w.plan.status in {Executing, Partial} && AdapterOutcome(outcome)
             && VerdictAfter(w.plan, i, outcome) == Partial
    ensures IsRun(d, w, actions) && After(d, w, actions) == CarriedOut(w, t, i, outcome)
  {
    hide Next, Enabled, IsRun, After, VerdictAfter, RecordReceipt;
    var answered := Answered(w, t, i, ATTEMPT, LEASE, 0, outcome);
    actions := [ClaimNext(t, ATTEMPT, LEASE, 0), Dispatch(t, outcome)];
    AnswerSteps(d, w, t, i, ATTEMPT, LEASE, 0, outcome);
    ReceiptTaken(w, t, i, outcome);
    RecordStep(d, answered, t, 0, CarriedOut(w, t, i, outcome).plan);
    Extend(d, w, actions, Record(t, 0));
    actions := actions + [Record(t, 0)];
    assert After(d, w, actions).executors == CarriedOut(w, t, i, outcome).executors;
  }

  function FirstApplied(plan: PlanRow): seq<OpRow>
    requires plan.ops != []
  {
    plan.ops[0 := Tried(plan.ops[0], Applied)]
  }

  /** A confirm executor claims a plan and reads its rows. */
  lemma ConfirmOpens(d: Discipline, w: World) returns (actions: seq<Action>)
    requires CONFIRMER !in w.executors && PlanClaimable(w.plan, false, 0)
    ensures IsRun(d, w, actions)
    ensures After(d, w, actions) ==
              w.(plan := ClaimPlan(w.plan, CONFIRMER, LEASE, false, 0),
                 executors := w.executors[CONFIRMER := Executor(Confirm, Looping(Statuses(w.plan.ops), 0))])
  {
    hide Next, Enabled, IsRun, After;
    var a, b := ConfirmClaim(CONFIRMER, LEASE, 0), ReadRows(CONFIRMER);
    ConfirmStep(d, w, CONFIRMER, LEASE, 0);
    ReadStep(d, Next(d, w, a), CONFIRMER);
    TwoSteps(d, w, a, b);
    actions := [a, b];
    assert After(d, w, actions).executors
           == w.executors[CONFIRMER := Executor(Confirm, Looping(Statuses(w.plan.ops), 0))];
  }

  /** A confirm executor applies the first operation and keeps its lease. */
  lemma ConfirmAppliesFirst(d: Discipline, w: World) returns (actions: seq<Action>)
    requires Fresh(w.plan) && w.executors == map[] && |w.plan.ops| >= 2 && |w.dispatches| == |w.plan.ops|
    ensures IsRun(d, w, actions)
    ensures After(d, w, actions) ==
              World(PlanRow(w.plan.expiresAt, Partial, Some(Lease(CONFIRMER, LEASE)), FirstApplied(w.plan)),
                    map[CONFIRMER := Executor(Confirm, Looping(Statuses(w.plan.ops), 1))],
                    w.pass,
                    w.dispatches[0 := w.dispatches[0] + 1])
  {
    hide Next, Enabled, IsRun, After, Verdict, VerdictAfter;
    actions := ConfirmOpens(d, w);
    var w1 := After(d, w, actions);
    PartialAfter(w1.plan, 0, Applied, 0, 1);
    var carried := CarryOut(d, w1, CONFIRMER, 0, Applied);
    RunsCompose(d, w, actions, carried);
    actions := actions + carried;
    assert CarriedOut(w1, CONFIRMER, 0, Applied).executors
           == map[CONFIRMER := Executor(Confirm, Looping(Statuses(w.plan.ops), 1))];
  }

  /** The first operation succeeds while a pass that began on the ISSUED plan is about to read. */
  lemma SnapshotUnderLease(d: Discipline, plan: PlanRow) returns (actions: seq<Action>)
    requires Fresh(plan) && |plan.ops| >= 2 && !d.checkedReconcile
    ensures IsRun(d, Start(plan), actions)
    ensures After(d, Start(plan), actions) ==
              World(PlanRow(plan.expiresAt, Partial, Some(Lease(CONFIRMER, LEASE)), FirstApplied(plan)),
                    map[CONFIRMER := Executor(Confirm, Looping(Statuses(plan.ops), 1))],
                    Writing(FirstApplied(plan), 0),
                    Start(plan).dispatches[0 := 1])
  {
    hide Next, Enabled, IsRun, After;
    var w0 := Start(plan);
    BeginStep(d, w0, 0);
    OneStep(d, w0, PassBegin(0));
    actions := [PassBegin(0)];
    var confirm := ConfirmAppliesFirst(d, After(d, w0, actions));
    RunsCompose(d, w0, actions, confirm);
    actions := actions + confirm;
    SnapshotSteps(d, After(d, w0, actions));
    RunsCompose(d, w0, actions, [PassReadStatus, PassSnapshot]);
    actions := actions + [PassReadStatus, PassSnapshot];
  }

  /** The world in which the stale pass has its first `k` rows behind it. */
  ghost function StaleWorld(plan: PlanRow, k: nat): World
    requires 2 <= |plan.ops| && 1 <= k <= |plan.ops|
  {
    var snapshot := FirstApplied(plan);
    var current := snapshot[1 := Tried(plan.ops[1], Unknown)];
    var ops := seq(|plan.ops|,
                   i requires 0 <= i < |plan.ops| => if 1 <= i < k then Replayable(current[i]) else current[i]);
    World(
      PlanRow(plan.expiresAt, Partial, None, ops),
      map[CONFIRMER := Executor(Confirm, Stopped)],
      Writing(snapshot, k),
      Start(plan).dispatches[0 := 1][1 := 1])
  }

  /** The second operation is dispatched with an unknown outcome, which releases the lease. */
  lemma SecondOperationUnknown(d: Discipline, plan: PlanRow) returns (actions: seq<Action>)
    requires Fresh(plan) && |plan.ops| >= 2 && !d.checkedReconcile
    ensures IsRun(d, Start(plan), actions)
    ensures After(d, Start(plan), actions) == StaleWorld(plan, 1)
  {
    hide Next, Enabled, Verdict, VerdictAfter, IsRun, After;
    var w0 := Start(plan);
    actions := SnapshotUnderLease(d, plan);
    var w := After(d, w0, actions);
    PartialAfter(w.plan, 1, Unknown, 0, 1);
    var carried := CarryOut(d, w, CONFIRMER, 1, Unknown);
    RunsCompose(d, w0, actions, carried);
    actions := actions + carried;
    SettledStep(d, After(d, w0, actions));
    Extend(d, w0, actions, PassWrite(map[]));
    actions := actions + [PassWrite(map[])];
    assert After(d, w0, actions).plan.ops == StaleWorld(plan, 1).plan.ops;
  }

  /** The pass writes the remaining rows of its snapshot one by one, the dispatched one included. */
  lemma {:induction false} StalePassWrites(d: Discipline, plan: PlanRow, k: nat) returns (actions: seq<Action>)
    requires Fresh(plan) && 2 <= |plan.ops| && 1 <= k <= |plan.ops|
    ensures IsRun(d, StaleWorld(plan, k), actions)
    ensures After(d, StaleWorld(plan, k), actions) == StaleWorld(plan, |plan.ops|)
    decreases |plan.ops| - k
  {
    hide Next, Enabled, IsRun, After, Verdict, VerdictAfter;
    NoSteps(d, StaleWorld(plan, k));
    actions := [];
    if k < |plan.ops| {
      var w := StaleWorld(plan, k);
      PartialAfter(w.plan, k, RetryableNotApplied, 0, 1);
      ReplayStep(d, w);
      OneStep(d, w, PassWrite(map[]));
      assert After(d, w, [PassWrite(map[])]).plan.ops == StaleWorld(plan, k + 1).plan.ops;
      var rest := StalePassWrites(d, plan, k + 1);
      RunsCompose(d, w, [PassWrite(map[])], rest);
      actions := [PassWrite(map[])] + rest;
    }
  }

  /** A resume checks and claims a plan and reads its rows. */
  lemma ResumeOpens(d: Discipline, w: World) returns (actions: seq<Action>)
    requires RESUMER !in w.executors && ResumeStatus(w.plan.status) && ResumableRows(w.plan.ops)
    requires PlanClaimable(w.plan, true, 0)
    ensures IsRun(d, w, actions)
    ensures After(d, w, actions) ==
              w.(plan := ClaimPlan(w.plan, RESUMER, LEASE, true, 0),
                 executors := w.executors[RESUMER := Executor(Resume, Looping(Statuses(w.plan.ops), 0))])
  {
    hide Next, Enabled, IsRun, After, ResumableRows;
    var a, b := ResumeAtOnce(RESUMER, LEASE, 0), ReadRows(RESUMER);
    ResumeStep(d, w, RESUMER, LEASE, 0);
    ReadStep(d, Next(d, w, a), RESUMER);
    TwoSteps(d, w, a, b);
    actions := [a, b];
    assert After(d, w, actions).executors
           == w.executors[RESUMER := Executor(Resume, Looping(Statuses(w.plan.ops), 0))];
  }

  /** A resume that finds the first row successful reaches the second one. */
  lemma ResumeReachesSecond(d: Discipline, w: World) returns (actions: seq<Action>)
    requires w.plan.status == Partial && w.plan.lease == None && RESUMER !in w.executors
    requires |w.plan.ops| >= 2 && ResumableRows(w.plan.ops) && IsSuccess(w.plan.ops[0].status)
    ensures IsRun(d, w, actions)
    ensures After(d, w, actions) ==
              w.(plan := w.plan.(lease := Some(Lease(RESUMER, LEASE))),
                 executors := w.executors[RESUMER := Executor(Resume, Looping(Statuses(w.plan.ops), 1))])
  {
    hide Next, Enabled, IsRun, After;
    actions := ResumeOpens(d, w);
    SkipStep(d, After(d, w, actions), RESUMER);
    Extend(d, w, actions, Skip(RESUMER));
    actions := actions + [Skip(RESUMER)];
    assert After(d, w, actions).executors
           == w.executors[RESUMER := Executor(Resume, Looping(Statuses(w.plan.ops), 1))];
  }

  /** The replay: a resume, checked against the stored rows, claims and dispatches again. */
  lemma SecondDispatch(d: Discipline, w: World) returns (actions: seq<Action>)
    requires w.plan.status == Partial && w.plan.lease == None && RESUMER !in w.executors
    requires |w.plan.ops| >= 2 && ResumableRows(w.plan.ops) && IsSuccess(w.plan.ops[0].status)
    requires w.plan.ops[1].status == RetryableNotApplied && |w.dispatches| == |w.plan.ops|
    ensures IsRun(d, w, actions) && After(d, w, actions).dispatches == w.dispatches[1 := w.dispatches[1] + 1]
  {
    hide Next, Enabled, IsRun, After;
    actions := ResumeReachesSecond(d, w);
    var reached := After(d, w, actions);
    AnswerSteps(d, reached, RESUMER, 1, ATTEMPT, LEASE, 0, Applied);
    RunsCompose(d, w, actions, [ClaimNext(RESUMER, ATTEMPT, LEASE, 0), Dispatch(RESUMER, Applied)]);
    actions := actions + [ClaimNext(RESUMER, ATTEMPT, LEASE, 0), Dispatch(RESUMER, Applied)];
  }

  lemma DispatchedTwice(d: Discipline, plan: PlanRow) returns (actions: seq<Action>)
    requires Fresh(plan) && |plan.ops| >= 2 && !d.checkedReconcile
    ensures IsRun(d, Start(plan), actions)
    ensures After(d, Start(plan), actions).dispatches == Start(plan).dispatches[0 := 1][1 := 2]
  {
    var opening := SecondOperationUnknown(d, plan);
    var writes := StalePassWrites(d, plan, 1);
    assert StaleWorld(plan, |plan.ops|).plan.ops[1].status == RetryableNotApplied;
    var replay := SecondDispatch(d, StaleWorld(plan, |plan.ops|));
    RunsCompose(d, Start(plan), opening, writes);
    RunsCompose(d, Start(plan), opening + writes, replay);
    actions := opening + writes + replay;
  }

  /** At-most-once dispatch holds in every run of every set of executors exactly when
      reconcile passes are never started on an ISSUED plan, or the plan has one operation. */
  lemma AtMostOnceExactly(d: Discipline, plan: PlanRow)
    requires Fresh(plan)
    ensures AlwaysAtMostOnce(d, plan) <==> d.checkedReconcile || |plan.ops| <= 1
  {
    if d.checkedReconcile || |plan.ops| <= 1 {
      forall actions | IsRun(d, Start(plan), actions)
        ensures DispatchedAtMostOnce(After(d, Start(plan), actions))
      {
        StartInv(plan);
        RunKeepsOnce(d, Start(plan), actions);
      }
    } else {
      var actions := DispatchedTwice(d, plan);
      assert After(d, Start(plan), actions).dispatches[1] == 2;
    }
  }

  /** The check a caller makes before reconciling cannot go stale. */
  lemma IssuedNeverReturns(d: Discipline, plan: PlanRow, first: seq<Action>, later: seq<Action>)
    requires Fresh(plan) && IsRun(d, Start(plan), first)
    requires After(d, Start(plan), first).plan.status != Issued
    requires IsRun(d, After(d, Start(plan), first), later)
    ensures After(d, After(d, Start(plan), first), later).plan.status != Issued
  {
    StartInv(plan);
    RunKeepsWorld(d, Start(plan), first);
    RunKeepsWorld(d, After(d, Start(plan), first), later);
  }
}
