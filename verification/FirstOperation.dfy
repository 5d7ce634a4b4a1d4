/** The first operation of a plan is never passed: whatever happens between the check of a
    resume and its claim, another operation is claimed only when the first one is durably
    done. Every way the rows could have changed in between leaves a plan status that cannot
    be claimed. */
module FirstOperation {
  import opened WritePlan
  import opened PlanStore
  import opened WriteProtocol
  import opened ProtocolInvariants

  ghost predicate FirstBeforeRest(ops: seq<OpRow>) {
    forall i :: 1 <= i < |ops| && ops[i].attempt > 0 ==> IsSuccess(ops[0].status)
  }

  /** A resume that passed its check has seen no ISSUED row. */
  ghost predicate ResumersSawNoIssued(w: World) {
    forall t :: t in w.executors && w.executors[t].mode == Resume
                && (w.executors[t].phase.Checked? || w.executors[t].phase.Claimed? || HasRead(w.executors[t].phase)) ==>
      forall i :: 0 <= i < |w.plan.ops| ==> w.plan.ops[i].status != Issued
  }

  predicate Startable(mode: Mode, s: Status) {
    match mode
    case Confirm => s == Issued
    case Resume => IsSuccess(s) || s == RetryableNotApplied
  }

  /** What the lease holder knows of the first row. */
  ghost predicate TracksFirst(e: Executor, ops: seq<OpRow>)
    requires ops != []
  {
    match e.phase
    case Claimed => Startable(e.mode, ops[0].status)
    case Looping(read, next) =>
      if next > 0 then IsSuccess(ops[0].status)
      else read != [] && read[0] == ops[0].status && Startable(e.mode, read[0])
    case Holding(_, next, _, _) => next > 0 ==> IsSuccess(ops[0].status)
    case Dispatched(_, next, _, _, _) => next > 0 ==> IsSuccess(ops[0].status)
    case _ => true
  }

  ghost predicate HolderTracks(w: World)
    requires w.plan.ops != []
  {
    w.plan.lease.Some? ==>
      w.plan.lease.value.owner in w.executors && TracksFirst(w.executors[w.plan.lease.value.owner], w.plan.ops)
  }

  predicate Working(pass: Pass) {
    pass.Proceeding? || pass.Writing?
  }

  ghost predicate RestIssued(ops: seq<OpRow>) {
    forall i :: 1 <= i < |ops| ==> ops[i].status == Issued
  }

  ghost predicate SomeRestIssued(ops: seq<OpRow>) {
    exists i :: 1 <= i < |ops| && ops[i].status == Issued
  }

  /** A rejected first operation ended the plan. */
  ghost predicate RejectedIsFinal(w: World)
    requires w.plan.ops != []
  {
    w.plan.ops[0].status == Rejected ==>
      RestIssued(w.plan.ops) && w.plan.status == Rejected && !Working(w.pass)
  }

  ghost predicate ConfirmFencedUntilSuccess(w: World)
    requires w.plan.ops != []
  {
    Working(w.pass) && !IsSuccess(w.plan.ops[0].status) && w.plan.lease.Some? ==>
      w.plan.lease.value.owner in w.executors && w.executors[w.plan.lease.value.owner].mode == Resume
  }

  /** A plan is not left replayable while its first operation is in flight. */
  ghost predicate InFlightNotReplayable(w: World)
    requires w.plan.ops != []
  {
    w.plan.status == RetryableNotApplied ==> w.plan.ops[0].status != Executing
  }

  ghost predicate PassSettlesFirst(w: World)
    requires w.plan.ops != []
  {
    w.pass.Writing? && SomeRestIssued(w.plan.ops) && !IsSuccess(w.plan.ops[0].status) ==>
      && |w.pass.snapshot| == |w.plan.ops|
      && (w.pass.next == 0 ==> w.pass.snapshot[0].status == w.plan.ops[0].status)
      && (w.pass.next > 0 ==> w.plan.ops[0].status != Executing)
  }

  ghost predicate RowsInv(w: World)
    requires w.plan.ops != []
  {
    RejectedIsFinal(w) && ConfirmFencedUntilSuccess(w) && InFlightNotReplayable(w) && PassSettlesFirst(w)
  }

  /** Nothing is asked of a plan of one operation. */
  ghost predicate FirstInv(w: World) {
    |w.plan.ops| >= 2 ==> FirstBeforeRest(w.plan.ops) && HolderTracks(w) && RowsInv(w)
  }

  ghost predicate Reachable(w: World) {
    WorldInv(w) && ResumersSawNoIssued(w) && FirstInv(w)
  }

  lemma StepKeepsResumers(d: Discipline, w: World, a: Action)
    requires WorldInv(w) && ResumersSawNoIssued(w) && Enabled(d, w, a)
    ensures ResumersSawNoIssued(Next(d, w, a))
  {
    hide Verdict, VerdictAfter, Coherent, PassInv, KnownRows, PlanInv, LeaseInv, ReconciledStatus, CanTransition;
    StepEvolves(d, w, a);
  }

  /** Before the first operation is done, the others are unclaimed. */
  lemma RestUnclaimed(ops: seq<OpRow>)
    requires KnownRows(ops) && FirstBeforeRest(ops) && |ops| >= 2 && !IsSuccess(ops[0].status)
    ensures NoSuccess(ops)
    ensures forall i :: 1 <= i < |ops| ==> ops[i].attempt == 0 && ops[i].status in {Issued, RetryableNotApplied}
  {
  }

  /** A plan whose first operation is not done is claimed by a checked resume only if that
      operation is to be replayed. */
  lemma LateClaimIsSound(w: World, now: int)
    requires Reachable(w) && |w.plan.ops| >= 2 && PlanClaimable(w.plan, true, now)
    requires forall i :: 0 <= i < |w.plan.ops| ==> w.plan.ops[i].status != Issued
    ensures Startable(Resume, w.plan.ops[0].status)
  {
    hide Verdict;
    var ops := w.plan.ops;
    if !IsSuccess(ops[0].status) {
      RestUnclaimed(ops);
      VerdictNoSuccess(ops);
      VerdictStops(ops, 0);
      assert ops[1].status != Issued;
    }
  }

  lemma VerdictStops(ops: seq<OpRow>, i: nat)
    requires i < |ops| && NoSuccess(ops) && KnownRows(ops)
    ensures ops[i].status in {Unknown, Conflict} ==> Verdict(Statuses(ops)) in {Unknown, Conflict}
  {
    assert Statuses(ops)[i] in Statuses(ops);
    StatusesAt(ops, Applied);
    StatusesAt(ops, AlreadyApplied);
    StatusesAt(ops, Partial);
  }

  // ---------- Order ----------

  lemma ClaimKeepsFirst(d: Discipline, w: World, a: Action)
    requires Reachable(w) && |w.plan.ops| >= 2 && Enabled(d, w, a) && a.ClaimNext?
    ensures |Next(d, w, a).plan.ops| >= 2
    ensures FirstBeforeRest(Next(d, w, a).plan.ops) && HolderTracks(Next(d, w, a))
  {
    hide Verdict, VerdictAfter, Coherent, PassInv, KnownRows, RowsInv;
  }

  lemma RecordKeepsFirst(d: Discipline, w: World, a: Action)
    requires Reachable(w) && |w.plan.ops| >= 2 && Enabled(d, w, a) && a.Record?
    ensures |Next(d, w, a).plan.ops| >= 2
    ensures FirstBeforeRest(Next(d, w, a).plan.ops) && HolderTracks(Next(d, w, a))
  {
    hide Verdict, VerdictAfter, Coherent, PassInv, KnownRows, RowsInv;
  }

  lemma PassWriteKeepsFirst(d: Discipline, w: World, a: Action)
    requires Reachable(w) && |w.plan.ops| >= 2 && Enabled(d, w, a) && a.PassWrite?
    ensures |Next(d, w, a).plan.ops| >= 2
    ensures FirstBeforeRest(Next(d, w, a).plan.ops) && HolderTracks(Next(d, w, a))
  {
    hide Verdict, VerdictAfter, Coherent, ReconciledStatus, RowsInv;
    StepEvolves(d, w, a);
  }

  lemma ResumeKeepsFirst(d: Discipline, w: World, a: Action)
    requires Reachable(w) && |w.plan.ops| >= 2 && Enabled(d, w, a) && (a.ResumeClaim? || a.ResumeAtOnce?)
    ensures |Next(d, w, a).plan.ops| >= 2
    ensures FirstBeforeRest(Next(d, w, a).plan.ops) && HolderTracks(Next(d, w, a))
  {
    hide Verdict, VerdictAfter, Coherent, PassInv, KnownRows, RowsInv;
    if a.ResumeClaim? && PlanClaimable(w.plan, true, a.now) {
      LateClaimIsSound(w, a.now);
    }
  }

  lemma OthersKeepFirst(d: Discipline, w: World, a: Action)
    requires Reachable(w) && |w.plan.ops| >= 2 && Enabled(d, w, a)
    requires !a.ClaimNext? && !a.Record? && !a.PassWrite? && !a.ResumeClaim? && !a.ResumeAtOnce?
    ensures |Next(d, w, a).plan.ops| >= 2
    ensures FirstBeforeRest(Next(d, w, a).plan.ops) && HolderTracks(Next(d, w, a))
  {
    hide Verdict, VerdictAfter, Coherent, PassInv, KnownRows, RowsInv;
  }

  // ---------- Rows ----------

  /** With the other rows unclaimed, a first row is rejected only by the executor of an
      unreplayed plan: beside a replayable row the receipt itself is refused. */
  lemma RejectedReceipt(plan: PlanRow)
    requires PlanInv(plan) && |plan.ops| >= 2 && plan.lease.Some?
    requires !IsSuccess(plan.ops[0].status) && FirstBeforeRest(plan.ops)
    requires var verdict := VerdictAfter(plan, 0, Rejected);
             plan.status == verdict || CanTransition(plan.status, verdict)
    ensures RestIssued(plan.ops) && VerdictAfter(plan, 0, Rejected) == Rejected
  {
    hide Verdict;
    RestUnclaimed(plan.ops);
    VerdictNoSuccess(plan.ops);
    var statuses := Statuses(plan.ops)[0 := Rejected];
    RejectedVerdict(statuses);
    assert forall i :: 0 < i < |statuses| ==> statuses[i] == plan.ops[i].status;
  }

  lemma RejectedVerdict(statuses: seq<Status>)
    requires |statuses| >= 2 && statuses[0] == Rejected
    requires forall i :: 0 < i < |statuses| ==> statuses[i] in {Issued, RetryableNotApplied}
    ensures Verdict(statuses) == if RetryableNotApplied in statuses then RetryableNotApplied else Rejected
  {
    assert statuses[0] in statuses;
  }

  lemma RecordKeepsRows(d: Discipline, w: World, a: Action)
    requires Reachable(w) && |w.plan.ops| >= 2 && Enabled(d, w, a) && a.Record?
    ensures |Next(d, w, a).plan.ops| >= 2 && RowsInv(Next(d, w, a))
  {
    hide Verdict, VerdictAfter, Coherent, KnownRows;
    var phase := w.executors[a.token].phase;
    if RecordReceipt(w.plan, phase.next, phase.outcome, phase.attempt, a.token, phase.attemptToken, a.now).Ok? {
      if phase.next == 0 && phase.outcome == Rejected {
        RejectedReceipt(w.plan);
        assert w.plan.ops[1].status == Issued && w.executors[a.token].mode == Confirm;
      }
    }
  }

  lemma ClaimKeepsRows(d: Discipline, w: World, a: Action)
    requires Reachable(w) && |w.plan.ops| >= 2 && Enabled(d, w, a) && a.ClaimNext?
    ensures |Next(d, w, a).plan.ops| >= 2 && RowsInv(Next(d, w, a))
  {
    hide Verdict, VerdictAfter, Coherent;
  }

  lemma PassWriteKeepsRows(d: Discipline, w: World, a: Action)
    requires Reachable(w) && |w.plan.ops| >= 2 && Enabled(d, w, a) && a.PassWrite?
    ensures |Next(d, w, a).plan.ops| >= 2 && RowsInv(Next(d, w, a))
  {
    hide Verdict, VerdictAfter, Coherent, ReconciledStatus;
    var row := w.pass.snapshot[w.pass.next];
    if row.status == Issued || Unresolved(row.status) {
      ReplayOnlyUnclaimed(row, a.observed);
    }
  }

  lemma ReadStatusKeepsRows(d: Discipline, w: World, a: Action)
    requires Reachable(w) && |w.plan.ops| >= 2 && Enabled(d, w, a) && a.PassReadStatus?
    ensures |Next(d, w, a).plan.ops| >= 2 && RowsInv(Next(d, w, a))
  {
    hide Verdict;
    if !IsSuccess(w.plan.ops[0].status) {
      RestUnclaimed(w.plan.ops);
      VerdictNoSuccess(w.plan.ops);
    }
  }

  lemma OthersKeepRows(d: Discipline, w: World, a: Action)
    requires Reachable(w) && |w.plan.ops| >= 2 && Enabled(d, w, a)
    requires !a.Record? && !a.ClaimNext? && !a.PassWrite? && !a.PassReadStatus?
    ensures |Next(d, w, a).plan.ops| >= 2 && RowsInv(Next(d, w, a))
  {
    hide Verdict, VerdictAfter, Coherent, KnownRows;
  }

  lemma StepKeepsFirst(d: Discipline, w: World, a: Action)
    requires Reachable(w) && Enabled(d, w, a)
    ensures FirstInv(Next(d, w, a))
  {
    hide Next, Enabled, RowsInv, HolderTracks, FirstBeforeRest, ResumersSawNoIssued, PlanInv, PassInv, LeaseInv;
    StepEvolves(d, w, a);
    if |w.plan.ops| >= 2 {
      if a.Record? {
        RecordKeepsFirst(d, w, a);
        RecordKeepsRows(d, w, a);
      } else if a.ClaimNext? {
        ClaimKeepsFirst(d, w, a);
        ClaimKeepsRows(d, w, a);
      } else if a.PassWrite? {
        PassWriteKeepsFirst(d, w, a);
        PassWriteKeepsRows(d, w, a);
      } else {
        if a.ResumeClaim? || a.ResumeAtOnce? {
          ResumeKeepsFirst(d, w, a);
        } else {
          OthersKeepFirst(d, w, a);
        }
        if a.PassReadStatus? {
          ReadStatusKeepsRows(d, w, a);
        } else {
          OthersKeepRows(d, w, a);
        }
      }
    }
  }

  /** In every run, under every discipline, the first operation is done before another one is
      claimed. */
  lemma {:induction false} RunKeepsFirst(d: Discipline, w: World, actions: seq<Action>)
    requires Reachable(w) && IsRun(d, w, actions)
    ensures Reachable(After(d, w, actions))
    decreases actions
  {
    hide Next, Enabled, WorldInv, ResumersSawNoIssued, FirstInv;
    if actions != [] {
      StepKeepsWorld(d, w, actions[0]);
      StepKeepsResumers(d, w, actions[0]);
      StepKeepsFirst(d, w, actions[0]);
      RunKeepsFirst(d, Next(d, w, actions[0]), actions[1..]);
    }
  }
}
