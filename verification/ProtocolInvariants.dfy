/** What every transaction and every step of the write protocol keeps. */
module ProtocolInvariants {
  import opened Wrappers
  import opened WritePlan
  import opened PlanStore
  import opened WriteProtocol

  // ---------- One plan ----------

  predicate KnownRow(row: OpRow) {
    && row.status in {Issued, Executing, Applied, AlreadyApplied, Rejected, Conflict, Unknown, RetryableNotApplied}
    && (row.status == Issued ==> row.attempt == 0)
    && (row.status !in {Issued, RetryableNotApplied} ==> row.attempt > 0)
  }

  ghost predicate KnownRows(ops: seq<OpRow>) {
    forall i :: 0 <= i < |ops| ==> KnownRow(ops[i])
  }

  ghost predicate NoSuccess(ops: seq<OpRow>) {
    forall i :: 0 <= i < |ops| ==> !IsSuccess(ops[i].status)
  }

  /** A plan status is the honest aggregate of the rows: decided statuses equal the verdict,
      undecided ones hide no successful write. */
  ghost predicate Coherent(plan: PlanRow) {
    match plan.status
    case Applied | AlreadyApplied | Partial | Conflict | Rejected | RetryableNotApplied =>
      plan.status == Verdict(Statuses(plan.ops))
    case Issued | Executing | Unknown | Expired => NoSuccess(plan.ops)
    case LegacyUnknown => false
  }

  ghost predicate PlanInv(plan: PlanRow) {
    && KnownRows(plan.ops)
    && Coherent(plan)
    && (plan.lease.Some? ==> plan.status in {Executing, Partial})
    && (plan.status in {Issued, Expired} ==> forall i :: 0 <= i < |plan.ops| ==> plan.ops[i].status == Issued)
  }

  /** What no transaction ever undoes. */
  ghost predicate Evolves(p: PlanRow, q: PlanRow) {
    && |q.ops| == |p.ops|
    && (forall i :: 0 <= i < |p.ops| ==>
          && q.ops[i].operation == p.ops[i].operation
          && q.ops[i].attempt >= p.ops[i].attempt
          && (p.ops[i].status != Issued ==> q.ops[i].status != Issued)
          && (IsSuccess(p.ops[i].status) ==> q.ops[i].status == p.ops[i].status))
    && (p.status !in {Issued, Expired} ==> q.status !in {Issued, Expired})
    && (p.status == Expired ==> q.status == Expired)
    && (IsSuccess(p.status) ==> q.status == p.status)
  }

  lemma StatusesAt(ops: seq<OpRow>, s: Status)
    ensures s in Statuses(ops) <==> exists i :: 0 <= i < |ops| && ops[i].status == s
  {
  }

  /** A verdict that is not a success or PARTIAL is reached only without any successful row. */
  lemma VerdictNoSuccess(ops: seq<OpRow>)
    requires KnownRows(ops) && ops != []
    ensures Verdict(Statuses(ops)) !in {Issued, Expired, LegacyUnknown}
    ensures Verdict(Statuses(ops)) !in {Applied, AlreadyApplied, Partial} <==> NoSuccess(ops)
  {
    var statuses := Statuses(ops);
    assert statuses[0] in statuses;
    assert NoSuccess(ops) <==> Applied !in statuses && AlreadyApplied !in statuses by {
      StatusesAt(ops, Applied);
      StatusesAt(ops, AlreadyApplied);
    }
    StatusesAt(ops, Partial);
  }

  /** Writing a row and storing the verdict keeps the plan coherent and forgets nothing. */
  lemma StoreVerdict(plan: PlanRow, i: nat, row: OpRow, lease: Option<Lease>)
    requires PlanInv(plan) && i < |plan.ops| && KnownRow(row) && row.status != Issued
    requires plan.status !in {Issued, Expired}
    requires !IsSuccess(plan.ops[i].status) && row.operation == plan.ops[i].operation
             && row.attempt >= plan.ops[i].attempt
    requires lease.Some? ==> VerdictAfter(plan, i, row.status) in {Executing, Partial}
    ensures var plan' := plan.(ops := plan.ops[i := row], status := VerdictAfter(plan, i, row.status), lease := lease);
            PlanInv(plan') && Evolves(plan, plan')
  {
    hide Verdict, NoSuccess;
    var ops := plan.ops[i := row];
    assert Statuses(ops) == Statuses(plan.ops)[i := row.status];
    VerdictNoSuccess(ops);
    VerdictHonest(Statuses(plan.ops));
    assert Statuses(plan.ops)[i] in Statuses(plan.ops);
  }

  lemma TransitionPlanKeeps(plan: PlanRow)
    requires PlanInv(plan) && TransitionPlan(plan, Issued, Expired).Ok?
    ensures PlanInv(TransitionPlan(plan, Issued, Expired).value)
    ensures Evolves(plan, TransitionPlan(plan, Issued, Expired).value)
  {
  }

  lemma ClaimPlanKeeps(plan: PlanRow, owner: Token, leaseSeconds: int, resume: bool, now: int)
    requires PlanInv(plan)
    ensures var plan' := ClaimPlan(plan, owner, leaseSeconds, resume, now);
            PlanInv(plan') && Evolves(plan, plan')
  {
  }

  lemma ClaimOperationKeeps(plan: PlanRow, i: nat, owner: Token, attemptToken: Token, leaseSeconds: int, now: int)
    requires PlanInv(plan) && i < |plan.ops|
    requires ClaimOperation(plan, i, owner, attemptToken, leaseSeconds, now).Ok?
    ensures var plan' := ClaimOperation(plan, i, owner, attemptToken, leaseSeconds, now).value;
            PlanInv(plan') && Evolves(plan, plan')
  {
    var plan' := ClaimOperation(plan, i, owner, attemptToken, leaseSeconds, now).value;
    if plan.status == Partial {
      VerdictNoSuccess(plan.ops);
      var j :| 0 <= j < |plan.ops| && IsSuccess(plan.ops[j].status);
      assert Statuses(plan'.ops)[j] in Statuses(plan'.ops);
      assert Statuses(plan'.ops)[i] in Statuses(plan'.ops);
      VerdictHonest(Statuses(plan'.ops));
    }
  }

  lemma RecordReceiptKeeps(plan: PlanRow, i: nat, status: ApplyStatus, attempt: nat, owner: Token, attemptToken: Token,
                           now: int)
    requires PlanInv(plan) && i < |plan.ops| && AdapterOutcome(status)
    requires RecordReceipt(plan, i, status, attempt, owner, attemptToken, now).Ok?
    ensures var plan' := RecordReceipt(plan, i, status, attempt, owner, attemptToken, now).value;
            PlanInv(plan') && Evolves(plan, plan')
  {
    var plan' := RecordReceipt(plan, i, status, attempt, owner, attemptToken, now).value;
    StoreVerdict(plan, i, plan'.ops[i], plan'.lease);
  }

  lemma BeginReconcileKeeps(plan: PlanRow, now: int)
    requires PlanInv(plan) && BeginReconcile(plan, now).Ok?
    ensures var plan' := BeginReconcile(plan, now).value;
            PlanInv(plan') && Evolves(plan, plan')
  {
  }

  lemma RecordReconciliationKeeps(plan: PlanRow, i: nat, status: ApplyStatus)
    requires PlanInv(plan) && i < |plan.ops| && plan.status !in {Issued, Expired}
    requires status in {Applied, Conflict, Unknown, RetryableNotApplied}
    requires status != RetryableNotApplied ==> plan.ops[i].attempt > 0
    requires RecordReconciliationReceipt(plan, i, status).Ok?
    ensures var plan' := RecordReconciliationReceipt(plan, i, status).value;
            PlanInv(plan') && Evolves(plan, plan')
  {
    var plan' := RecordReconciliationReceipt(plan, i, status).value;
    StoreVerdict(plan, i, plan'.ops[i], plan'.lease);
  }

  // ---------- The world ----------

  predicate PreClaim(phase: Phase) {
    phase.SawStatus? || phase.Checked?
  }

  predicate HasRead(phase: Phase) {
    phase.Looping? || phase.Holding? || phase.Dispatched?
  }

  ghost predicate ExecutorInv(e: Executor, ops: seq<OpRow>) {
    && (HasRead(e.phase) ==> |e.phase.read| == |ops|)
    && (HasRead(e.phase) ==>
          forall k :: 0 <= k < |ops| && e.phase.read[k] == RetryableNotApplied ==> ops[k].status != Issued)
    && (e.phase.Holding? || e.phase.Dispatched? ==> e.phase.next < |ops|)
    && (e.phase.Dispatched? ==> AdapterOutcome(e.phase.outcome))
    && (PreClaim(e.phase) ==> e.mode == Resume)
  }

  ghost predicate PassInv(pass: Pass, plan: PlanRow) {
    && (pass.Proceeding? || pass.Writing? ==> plan.status !in {Issued, Expired})
    && (pass.Writing? ==>
          && |pass.snapshot| == |plan.ops|
          && KnownRows(pass.snapshot)
          && forall k :: 0 <= k < |plan.ops| ==> pass.snapshot[k].attempt <= plan.ops[k].attempt)
  }

  ghost predicate LeaseInv(w: World) {
    w.plan.lease.Some? ==>
      w.plan.lease.value.owner in w.executors && !PreClaim(w.executors[w.plan.lease.value.owner].phase)
  }

  ghost predicate WorldInv(w: World) {
    && PlanInv(w.plan)
    && |w.dispatches| == |w.plan.ops|
    && LeaseInv(w)
    && (forall t :: t in w.executors ==> ExecutorInv(w.executors[t], w.plan.ops))
    && PassInv(w.pass, w.plan)
  }

  /** A snapshot row that was ever claimed is never authorized for replay. */
  lemma ReplayOnlyUnclaimed(row: OpRow, observed: StateMap)
    requires KnownRow(row) && (row.status == Issued || Unresolved(row.status))
    ensures ReconciledStatus(row, observed) in {Applied, Conflict, Unknown, RetryableNotApplied}
    ensures ReconciledStatus(row, observed) == RetryableNotApplied <==> row.status == Issued
    ensures ReconciledStatus(row, observed) != RetryableNotApplied ==> row.attempt > 0
  {
  }

  /** The plan after a step is the plan before it or the outcome of one transaction on it. */
  lemma StepEvolves(d: Discipline, w: World, a: Action)
    requires WorldInv(w) && Enabled(d, w, a)
    ensures PlanInv(Next(d, w, a).plan) && Evolves(w.plan, Next(d, w, a).plan)
  {
    match a
    case Expire(_) =>
      if TransitionPlan(w.plan, Issued, Expired).Ok? {
        TransitionPlanKeeps(w.plan);
      }
    case ConfirmClaim(t, lease, now) => ClaimPlanKeeps(w.plan, t, lease, false, now);
    case ResumeClaim(t, lease, now) => ClaimPlanKeeps(w.plan, t, lease, true, now);
    case ResumeAtOnce(t, lease, now) => ClaimPlanKeeps(w.plan, t, lease, true, now);
    case ClaimNext(t, attemptToken, lease, now) =>
      var phase := w.executors[t].phase;
      if ClaimOperation(w.plan, phase.next, t, attemptToken, lease, now).Ok? {
        ClaimOperationKeeps(w.plan, phase.next, t, attemptToken, lease, now);
      }
    case Record(t, now) =>
      var phase := w.executors[t].phase;
      if RecordReceipt(w.plan, phase.next, phase.outcome, phase.attempt, t, phase.attemptToken, now).Ok? {
        RecordReceiptKeeps(w.plan, phase.next, phase.outcome, phase.attempt, t, phase.attemptToken, now);
      }
    case PassBegin(now) =>
      if BeginReconcile(w.plan, now).Ok? {
        BeginReconcileKeeps(w.plan, now);
      }
    case PassWrite(observed) =>
      var row := w.pass.snapshot[w.pass.next];
      if row.status == Issued || Unresolved(row.status) {
        ReplayOnlyUnclaimed(row, observed);
        if RecordReconciliationReceipt(w.plan, w.pass.next, ReconciledStatus(row, observed)).Ok? {
          RecordReconciliationKeeps(w.plan, w.pass.next, ReconciledStatus(row, observed));
        }
      }
    case _ =>
  }

  lemma StepKeepsLease(d: Discipline, w: World, a: Action)
    requires WorldInv(w) && Enabled(d, w, a)
    ensures LeaseInv(Next(d, w, a))
  {
    hide Verdict, Coherent, PlanInv, PassInv, KnownRows, VerdictAfter, CanTransition, ReconciledStatus, Unresolved,
         ResumableRows, ExecutorInv;
  }

  lemma StepKeepsExecutors(d: Discipline, w: World, a: Action)
    requires WorldInv(w) && Enabled(d, w, a)
    ensures forall t :: t in Next(d, w, a).executors ==> ExecutorInv(Next(d, w, a).executors[t], w.plan.ops)
  {
    hide Verdict, Coherent, PlanInv, PassInv, KnownRows, VerdictAfter, CanTransition, ReconciledStatus, Unresolved,
         ResumableRows, LeaseInv, RecordReceipt, ClaimPlan, RecordReconciliationReceipt;
  }

  lemma StepKeepsPass(d: Discipline, w: World, a: Action)
    requires WorldInv(w) && Enabled(d, w, a)
    requires Evolves(w.plan, Next(d, w, a).plan)
    ensures PassInv(Next(d, w, a).pass, Next(d, w, a).plan)
    ensures |Next(d, w, a).dispatches| == |w.dispatches|
  {
  }

  lemma StepKeepsWorld(d: Discipline, w: World, a: Action)
    requires WorldInv(w) && Enabled(d, w, a)
    ensures WorldInv(Next(d, w, a))
  {
    hide Next, Enabled, PlanInv, PassInv, LeaseInv;
    StepEvolves(d, w, a);
    StepKeepsLease(d, w, a);
    StepKeepsExecutors(d, w, a);
    StepKeepsPass(d, w, a);
    var w' := Next(d, w, a);
    forall t | t in w'.executors
      ensures ExecutorInv(w'.executors[t], w'.plan.ops)
    {
    }
  }

  lemma StartInv(plan: PlanRow)
    requires Fresh(plan)
    ensures WorldInv(Start(plan))
  {
  }

  /** Every reachable world satisfies the invariant, and no run undoes what `Evolves` protects:
      in particular APPLIED and ALREADY_APPLIED rows and plans never change again, and a plan
      that left ISSUED never returns to it. */
  lemma {:induction false} RunKeepsWorld(d: Discipline, w: World, actions: seq<Action>)
    requires WorldInv(w) && IsRun(d, w, actions)
    ensures WorldInv(After(d, w, actions))
    ensures Evolves(w.plan, After(d, w, actions).plan)
    decreases actions
  {
    if actions != [] {
      StepKeepsWorld(d, w, actions[0]);
      StepEvolves(d, w, actions[0]);
      RunKeepsWorld(d, Next(d, w, actions[0]), actions[1..]);
    }
  }
}
