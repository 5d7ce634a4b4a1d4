/** At-most-once dispatch: when it holds for every run, and why. */
module AtMostOnce {
  import opened WritePlan
  import opened PlanStore
  import opened WriteProtocol
  import opened ProtocolInvariants

  /** Every adapter was called at most once, and no operation was claimed twice. */
  ghost predicate DispatchedAtMostOnce(w: World) {
    && (forall i :: 0 <= i < |w.dispatches| ==> w.dispatches[i] <= 1)
    && (forall i :: 0 <= i < |w.plan.ops| ==> w.plan.ops[i].attempt <= 1)
  }

  ghost predicate AlwaysAtMostOnce(d: Discipline, plan: PlanRow)
    requires Fresh(plan)
  {
    forall actions :: IsRun(d, Start(plan), actions) ==> DispatchedAtMostOnce(After(d, Start(plan), actions))
  }

  // ---------- The invariant ----------

  ghost predicate ClaimableRowsUnclaimed(ops: seq<OpRow>) {
    forall i :: 0 <= i < |ops| ==>
      ops[i].attempt <= 1 && (ops[i].status in {Issued, RetryableNotApplied} ==> ops[i].attempt == 0)
  }

  /** A claim is spent by at most one dispatch, and only by the executor that holds it. */
  ghost predicate ClaimsSpentOnce(w: World)
    requires |w.dispatches| == |w.plan.ops|
  {
    && (forall i :: 0 <= i < |w.plan.ops| ==> w.dispatches[i] <= w.plan.ops[i].attempt)
    && (forall t :: t in w.executors && w.executors[t].phase.Holding? ==>
          var i := w.executors[t].phase.next;
          i < |w.plan.ops| && w.dispatches[i] == 0 && w.plan.ops[i].attempt == 1)
    && (forall t, u :: t in w.executors && u in w.executors && t != u
                       && w.executors[t].phase.Holding? && w.executors[u].phase.Holding? ==>
          w.executors[t].phase.next != w.executors[u].phase.next)
  }

  /** A snapshot row still to be written as ISSUED is ISSUED in the table too. */
  ghost predicate SnapshotFresh(pass: Pass, ops: seq<OpRow>) {
    pass.Writing? ==>
      forall k :: pass.next <= k < |pass.snapshot| && k < |ops| && pass.snapshot[k].status == Issued ==>
        ops[k].status == Issued
  }

  /** While a pass works from the store, no confirm executor holds the lease. */
  ghost predicate ConfirmFenced(d: Discipline, w: World) {
    var fenced := w.pass.Proceeding? || w.pass.Writing? || (w.pass.Begun? && d.checkedReconcile);
    fenced ==>
      && w.plan.status != Issued
      && (w.plan.lease.Some? ==>
            w.plan.lease.value.owner in w.executors && w.executors[w.plan.lease.value.owner].mode == Resume)
  }

  ghost predicate OnceInv(d: Discipline, w: World) {
    && |w.dispatches| == |w.plan.ops|
    && ClaimableRowsUnclaimed(w.plan.ops)
    && ClaimsSpentOnce(w)
    && SnapshotFresh(w.pass, w.plan.ops)
    && ConfirmFenced(d, w)
  }

  ghost predicate Disciplined(d: Discipline, plan: PlanRow) {
    d.checkedReconcile || |plan.ops| <= 1
  }

  /** With one operation a plan under lease is EXECUTING, never PARTIAL. */
  lemma SingleOperationNeverPartial(plan: PlanRow)
    requires PlanInv(plan) && |plan.ops| <= 1
    ensures plan.status != Partial
  {
  }

  lemma StepKeepsFence(d: Discipline, w: World, a: Action)
    requires WorldInv(w) && OnceInv(d, w) && Disciplined(d, w.plan) && Enabled(d, w, a)
    ensures ConfirmFenced(d, Next(d, w, a))
  {
    hide Verdict, VerdictAfter, Coherent, ClaimableRowsUnclaimed, ClaimsSpentOnce, SnapshotFresh, KnownRows,
         CanTransition, ReconciledStatus, ResumableRows;
    StepEvolves(d, w, a);
    if a.PassReadStatus? && |w.plan.ops| <= 1 {
      SingleOperationNeverPartial(w.plan);
    }
  }

  lemma PassWriteKeepsRows(d: Discipline, w: World, a: Action)
    requires WorldInv(w) && OnceInv(d, w) && Enabled(d, w, a) && a.PassWrite?
    ensures ClaimableRowsUnclaimed(Next(d, w, a).plan.ops)
    ensures SnapshotFresh(Next(d, w, a).pass, Next(d, w, a).plan.ops)
  {
    hide Verdict, VerdictAfter, Coherent, ClaimsSpentOnce, CanTransition, ReconciledStatus, ResumableRows;
    var row := w.pass.snapshot[w.pass.next];
    if row.status == Issued || Unresolved(row.status) {
      ReplayOnlyUnclaimed(row, a.observed);
    }
  }

  lemma ExecutorKeepsRows(d: Discipline, w: World, a: Action)
    requires WorldInv(w) && OnceInv(d, w) && Enabled(d, w, a) && (a.ClaimNext? || a.Record?)
    ensures ClaimableRowsUnclaimed(Next(d, w, a).plan.ops)
    ensures SnapshotFresh(Next(d, w, a).pass, Next(d, w, a).plan.ops)
  {
    hide Verdict, VerdictAfter, Coherent, ClaimsSpentOnce, CanTransition, ReconciledStatus, ResumableRows;
  }

  lemma OthersKeepRows(d: Discipline, w: World, a: Action)
    requires WorldInv(w) && OnceInv(d, w) && Enabled(d, w, a) && !a.PassWrite? && !a.ClaimNext? && !a.Record?
    ensures ClaimableRowsUnclaimed(Next(d, w, a).plan.ops)
    ensures SnapshotFresh(Next(d, w, a).pass, Next(d, w, a).plan.ops)
  {
    hide Verdict, VerdictAfter, Coherent, ClaimsSpentOnce, CanTransition, ReconciledStatus, ResumableRows;
    hide ClaimOperation, RecordReceipt, RecordReconciliationReceipt;
  }

  lemma StepKeepsRows(d: Discipline, w: World, a: Action)
    requires WorldInv(w) && OnceInv(d, w) && Enabled(d, w, a)
    ensures ClaimableRowsUnclaimed(Next(d, w, a).plan.ops)
    ensures SnapshotFresh(Next(d, w, a).pass, Next(d, w, a).plan.ops)
  {
    hide Next, Enabled, WorldInv, OnceInv, ClaimableRowsUnclaimed, SnapshotFresh;
    if a.PassWrite? {
      PassWriteKeepsRows(d, w, a);
    } else if a.ClaimNext? || a.Record? {
      ExecutorKeepsRows(d, w, a);
    } else {
      OthersKeepRows(d, w, a);
    }
  }

  /** Only claims and dispatches touch attempts, dispatch counters and holders. */
  lemma OtherStepsFrame(d: Discipline, w: World, a: Action)
    requires WorldInv(w) && Enabled(d, w, a) && !a.ClaimNext? && !a.Dispatch?
    ensures var w' := Next(d, w, a);
            && w'.dispatches == w.dispatches && |w'.plan.ops| == |w.plan.ops|
            && (forall i :: 0 <= i < |w.plan.ops| ==> w'.plan.ops[i].attempt == w.plan.ops[i].attempt)
            && (forall t ::
                  t in w'.executors && w'.executors[t].phase.Holding? ==>
                    t in w.executors && w.executors[t] == w'.executors[t])
  {
    hide Verdict, VerdictAfter, Coherent, PassInv, KnownRows, LeaseInv, PlanInv, ReconciledStatus;
  }

  lemma OtherStepsKeepClaims(d: Discipline, w: World, a: Action)
    requires WorldInv(w) && OnceInv(d, w) && Enabled(d, w, a) && !a.ClaimNext? && !a.Dispatch?
    ensures |Next(d, w, a).dispatches| == |Next(d, w, a).plan.ops| && ClaimsSpentOnce(Next(d, w, a))
  {
    hide Next, Enabled, PassInv, LeaseInv, PlanInv, SnapshotFresh, ConfirmFenced, ClaimableRowsUnclaimed;
    OtherStepsFrame(d, w, a);
  }

  lemma ClaimKeepsClaims(d: Discipline, w: World, a: Action)
    requires WorldInv(w) && OnceInv(d, w) && Enabled(d, w, a) && a.ClaimNext?
    ensures |Next(d, w, a).dispatches| == |Next(d, w, a).plan.ops| && ClaimsSpentOnce(Next(d, w, a))
  {
    hide Verdict, VerdictAfter, Coherent, SnapshotFresh, ConfirmFenced, PassInv, KnownRows, LeaseInv;
  }

  lemma DispatchKeepsClaims(d: Discipline, w: World, a: Action)
    requires WorldInv(w) && OnceInv(d, w) && Enabled(d, w, a) && a.Dispatch?
    ensures |Next(d, w, a).dispatches| == |Next(d, w, a).plan.ops| && ClaimsSpentOnce(Next(d, w, a))
  {
  }

  lemma StepKeepsOnce(d: Discipline, w: World, a: Action)
    requires WorldInv(w) && OnceInv(d, w) && Disciplined(d, w.plan) && Enabled(d, w, a)
    ensures OnceInv(d, Next(d, w, a))
  {
    StepKeepsFence(d, w, a);
    StepKeepsRows(d, w, a);
    if a.ClaimNext? {
      ClaimKeepsClaims(d, w, a);
    } else if a.Dispatch? {
      DispatchKeepsClaims(d, w, a);
    } else {
      OtherStepsKeepClaims(d, w, a);
    }
  }

  lemma {:induction false} RunKeepsOnce(d: Discipline, w: World, actions: seq<Action>)
    requires WorldInv(w) && OnceInv(d, w) && Disciplined(d, w.plan) && IsRun(d, w, actions)
    ensures OnceInv(d, After(d, w, actions))
    decreases actions
  {
    if actions != [] {
      StepKeepsOnce(d, w, actions[0]);
      StepKeepsWorld(d, w, actions[0]);
      StepEvolves(d, w, actions[0]);
      RunKeepsOnce(d, Next(d, w, actions[0]), actions[1..]);
    }
  }
}
