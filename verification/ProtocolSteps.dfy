/** What single actions do to a world in which they succeed, and short runs made of them. */
module ProtocolSteps {
  import opened Wrappers
  import opened WritePlan
  import opened PlanStore
  import opened WriteProtocol

  // ---------- Executors ----------

  lemma ConfirmStep(d: Discipline, w: World, t: Token, lease: int, now: int)
    requires t !in w.executors && lease > 0 && PlanClaimable(w.plan, false, now)
    ensures var a := ConfirmClaim(t, lease, now);
            && Enabled(d, w, a)
            && Next(d, w, a) == w.(plan := ClaimPlan(w.plan, t, lease, false, now),
                                   executors := w.executors[t := Executor(Confirm, Claimed)])
  {
  }

  lemma ResumeStep(d: Discipline, w: World, t: Token, lease: int, now: int)
    requires t !in w.executors && ResumeStatus(w.plan.status) && ResumableRows(w.plan.ops)
    requires lease > 0 && PlanClaimable(w.plan, true, now)
    ensures var a := ResumeAtOnce(t, lease, now);
            && Enabled(d, w, a)
            && Next(d, w, a) == w.(plan := ClaimPlan(w.plan, t, lease, true, now),
                                   executors := w.executors[t := Executor(Resume, Claimed)])
  {
  }

  lemma CheckSteps(d: Discipline, w: World, t: Token)
    requires !d.atomicResume && t !in w.executors && ResumeStatus(w.plan.status) && ResumableRows(w.plan.ops)
    ensures var actions := [ResumeReadStatus(t), ResumeReadRows(t)];
            && IsRun(d, w, actions)
            && After(d, w, actions) == w.(executors := w.executors[t := Executor(Resume, Checked)])
  {
    hide IsRun, After;
    var a, b := ResumeReadStatus(t), ResumeReadRows(t);
    assert Next(d, Next(d, w, a), b).executors == w.executors[t := Executor(Resume, Checked)];
    TwoSteps(d, w, a, b);
  }

  lemma LateStep(d: Discipline, w: World, t: Token, lease: int, now: int)
    requires t in w.executors && w.executors[t] == Executor(Resume, Checked)
    requires lease > 0 && PlanClaimable(w.plan, true, now)
    ensures var a := ResumeClaim(t, lease, now);
            && Enabled(d, w, a)
            && Next(d, w, a) == w.(plan := ClaimPlan(w.plan, t, lease, true, now),
                                   executors := w.executors[t := Executor(Resume, Claimed)])
  {
  }

  lemma ReadStep(d: Discipline, w: World, t: Token)
    requires t in w.executors && w.executors[t].phase.Claimed?
    ensures Enabled(d, w, ReadRows(t))
    ensures Next(d, w, ReadRows(t)) ==
              w.(executors := w.executors[t := Executor(w.executors[t].mode, Looping(Statuses(w.plan.ops), 0))])
  {
  }

  lemma SkipStep(d: Discipline, w: World, t: Token)
    requires t in w.executors && w.executors[t].phase.Looping?
    requires var e := w.executors[t]; e.phase.next < |e.phase.read| && !ClaimableBy(e.mode, e.phase.read[e.phase.next])
    ensures Enabled(d, w, Skip(t))
    ensures var e := w.executors[t];
            Next(d, w, Skip(t)) ==
              w.(executors := w.executors[t := Executor(e.mode, Looping(e.phase.read, e.phase.next + 1))])
  {
  }

  /** Executor `t` is about to take operation `i`, which it may claim, under its live lease. */
  ghost predicate MayTake(w: World, t: Token, i: nat, now: int) {
    && t in w.executors && w.executors[t].phase.Looping? && w.executors[t].phase.next == i
    && i < |w.plan.ops| && |w.executors[t].phase.read| == |w.plan.ops| == |w.dispatches|
    && ClaimableBy(w.executors[t].mode, w.executors[t].phase.read[i])
    && w.plan.ops[i].status in {Issued, RetryableNotApplied}
    && HoldsLease(w.plan, t) && !LeaseFree(w.plan, now)
  }

  function Attempted(row: OpRow, attemptToken: Token, status: Status): OpRow {
    row.(status := status, attempt := row.attempt + 1, attemptToken := Some(attemptToken), reconciled := false)
  }

  /** The claim of operation `i` and the answer of its adapter. */
  function Answered(w: World, t: Token, i: nat, attemptToken: Token, lease: int, now: int, outcome: ApplyStatus): World
    requires MayTake(w, t, i, now)
  {
    var e := w.executors[t];
    World(
      w.plan.(ops := w.plan.ops[i := Attempted(w.plan.ops[i], attemptToken, Executing)],
              lease := Some(Lease(t, now + lease))),
      w.executors[t := Executor(e.mode, Dispatched(e.phase.read, i, w.plan.ops[i].attempt + 1, attemptToken, outcome))],
      w.pass,
      w.dispatches[i := w.dispatches[i] + 1])
  }

  lemma AnswerSteps(d: Discipline, w: World, t: Token, i: nat, attemptToken: Token, lease: int, now: int,
                    outcome: ApplyStatus)
    requires MayTake(w, t, i, now) && lease > 0 && AdapterOutcome(outcome)
    ensures var actions := [ClaimNext(t, attemptToken, lease, now), Dispatch(t, outcome)];
            IsRun(d, w, actions) && After(d, w, actions) == Answered(w, t, i, attemptToken, lease, now, outcome)
  {
    hide IsRun, After;
    var a, b := ClaimNext(t, attemptToken, lease, now), Dispatch(t, outcome);
    assert Next(d, Next(d, w, a), b).executors == Answered(w, t, i, attemptToken, lease, now, outcome).executors;
    TwoSteps(d, w, a, b);
  }

  lemma RecordStep(d: Discipline, w: World, t: Token, now: int, plan: PlanRow)
    requires t in w.executors && w.executors[t].phase.Dispatched? && w.executors[t].phase.next < |w.plan.ops|
    requires var phase := w.executors[t].phase;
             RecordReceipt(w.plan, phase.next, phase.outcome, phase.attempt, t, phase.attemptToken, now) == Ok(plan)
    ensures Enabled(d, w, Record(t, now))
    ensures var e := w.executors[t];
            var after := if IsSuccess(e.phase.outcome) then Looping(e.phase.read, e.phase.next + 1) else Stopped;
            Next(d, w, Record(t, now)) == w.(plan := plan, executors := w.executors[t := Executor(e.mode, after)])
  {
    hide RecordReceipt;
  }

  // ---------- The pass ----------

  lemma BeginStep(d: Discipline, w: World, now: int)
    requires w.pass.Idle? && (d.checkedReconcile ==> w.plan.status != Issued) && BeginReconcile(w.plan, now).Ok?
    ensures Enabled(d, w, PassBegin(now))
    ensures Next(d, w, PassBegin(now)) == w.(plan := BeginReconcile(w.plan, now).value, pass := Begun)
  {
  }

  lemma SnapshotSteps(d: Discipline, w: World)
    requires w.pass.Begun? && w.plan.status in {Unknown, LegacyUnknown, Partial}
    ensures var actions := [PassReadStatus, PassSnapshot];
            IsRun(d, w, actions) && After(d, w, actions) == w.(pass := Writing(w.plan.ops, 0))
  {
    hide IsRun, After;
    TwoSteps(d, w, PassReadStatus, PassSnapshot);
  }

  /** The whole opening of a pass that finds something to settle. */
  lemma PassOpens(d: Discipline, w: World, now: int)
    requires w.pass.Idle? && (d.checkedReconcile ==> w.plan.status != Issued) && BeginReconcile(w.plan, now).Ok?
    requires BeginReconcile(w.plan, now).value.status in {Unknown, LegacyUnknown, Partial}
    ensures var actions, plan := [PassBegin(now)] + [PassReadStatus, PassSnapshot], BeginReconcile(w.plan, now).value;
            IsRun(d, w, actions) && After(d, w, actions) == w.(plan := plan, pass := Writing(plan.ops, 0))
  {
    hide IsRun, After, Next, Enabled, BeginReconcile;
    BeginStep(d, w, now);
    OneStep(d, w, PassBegin(now));
    SnapshotSteps(d, After(d, w, [PassBegin(now)]));
    RunsCompose(d, w, [PassBegin(now)], [PassReadStatus, PassSnapshot]);
  }

  function Replayable(row: OpRow): OpRow {
    row.(status := RetryableNotApplied, reconciled := true)
  }

  /** A row that the pass saw ISSUED becomes replayable, if it may still be settled. */
  lemma ReplayStep(d: Discipline, w: World)
    requires w.pass.Writing? && w.pass.next < |w.pass.snapshot| && w.pass.next < |w.plan.ops|
    requires w.pass.snapshot[w.pass.next].status == Issued && w.plan.lease.None?
    requires w.plan.ops[w.pass.next].status in {Issued, Executing, Unknown, LegacyUnknown}
    ensures var i, a := w.pass.next, PassWrite(map[]);
            && Enabled(d, w, a)
            && Next(d, w, a) == w.(plan := w.plan.(ops := w.plan.ops[i := Replayable(w.plan.ops[i])],
                                                   status := VerdictAfter(w.plan, i, RetryableNotApplied)),
                                   pass := Writing(w.pass.snapshot, i + 1))
  {
    hide VerdictAfter, ReconcileOperationState;
  }

  /** A row that the pass saw decided is left alone. */
  lemma SettledStep(d: Discipline, w: World)
    requires w.pass.Writing? && w.pass.next < |w.pass.snapshot| && w.pass.next < |w.plan.ops|
    requires var status := w.pass.snapshot[w.pass.next].status; status != Issued && !Unresolved(status)
    ensures Enabled(d, w, PassWrite(map[]))
    ensures Next(d, w, PassWrite(map[])) == w.(pass := Writing(w.pass.snapshot, w.pass.next + 1))
  {
  }
}
