/** Prefix execution: operations are claimed in plan order, each only after every earlier one
    is durably APPLIED or ALREADY_APPLIED. */
module PrefixExecution {
  import opened WritePlan
  import opened PlanStore
  import opened WriteProtocol
  import opened ProtocolInvariants

  ghost predicate PrefixDone(ops: seq<OpRow>, n: nat) {
    n <= |ops| && forall j :: 0 <= j < n ==> IsSuccess(ops[j].status)
  }

  /** A row with an attempt was claimed once; success is never undone, so this says that every
      claim ever made found all earlier operations done. */
  ghost predicate ClaimedInOrder(ops: seq<OpRow>) {
    forall i :: 0 <= i < |ops| && ops[i].attempt > 0 ==> PrefixDone(ops, i)
  }

  ghost predicate AlwaysInOrder(d: Discipline, plan: PlanRow)
    requires Fresh(plan)
  {
    forall actions :: IsRun(d, Start(plan), actions) ==> ClaimedInOrder(After(d, Start(plan), actions).plan.ops)
  }

  // ---------- What the lease holder knows ----------

  /** Every replayable row is preceded only by successful or replayable rows. */
  ghost predicate ReplayPrefix(statuses: seq<Status>) {
    forall i, j :: 0 <= i < j < |statuses| && statuses[j] == RetryableNotApplied ==>
      IsSuccess(statuses[i]) || statuses[i] == RetryableNotApplied
  }

  ghost predicate ReadOk(mode: Mode, statuses: seq<Status>) {
    match mode
    case Confirm => forall i :: 0 <= i < |statuses| ==> statuses[i] == Issued
    case Resume => ReplayPrefix(statuses)
  }

  ghost predicate SameFrom(read: seq<Status>, ops: seq<OpRow>, n: nat) {
    |read| == |ops| && forall j :: n <= j < |ops| ==> ops[j].status == read[j]
  }

  ghost predicate Tracks(e: Executor, ops: seq<OpRow>) {
    match e.phase
    case Claimed => ReadOk(e.mode, Statuses(ops))
    case Looping(read, next) =>
      && SameFrom(read, ops, next) && ReadOk(e.mode, read)
      && forall j :: next <= j < |read| && ClaimableBy(e.mode, read[j]) ==> PrefixDone(ops, next)
    case Holding(read, next, _, _) => SameFrom(read, ops, next + 1) && ReadOk(e.mode, read) && PrefixDone(ops, next)
    case Dispatched(read, next, _, _, _) => SameFrom(read, ops, next + 1) && ReadOk(e.mode, read)
                                            && PrefixDone(ops, next)
    case _ => true
  }

  ghost predicate OrderInv(w: World) {
    && ClaimedInOrder(w.plan.ops)
    && (w.plan.lease.Some? ==>
          w.plan.lease.value.owner in w.executors && Tracks(w.executors[w.plan.lease.value.owner], w.plan.ops))
  }

  /** The one gap: a resume that claims on the strength of an earlier check. */
  ghost predicate ClaimsSoundly(w: World, a: Action) {
    a.ResumeClaim? && PlanClaimable(w.plan, true, a.now) ==> ReplayPrefix(Statuses(w.plan.ops))
  }

  lemma ClaimNextKeepsOrder(d: Discipline, w: World, a: Action)
    requires WorldInv(w) && OrderInv(w) && Enabled(d, w, a) && a.ClaimNext?
    ensures OrderInv(Next(d, w, a))
  {
    hide Verdict, VerdictAfter, Coherent, PassInv, KnownRows, ReplayPrefix;
  }

  lemma RecordKeepsOrder(d: Discipline, w: World, a: Action)
    requires WorldInv(w) && OrderInv(w) && Enabled(d, w, a) && a.Record?
    ensures OrderInv(Next(d, w, a))
  {
    hide Verdict, Coherent, PassInv, KnownRows, ReplayPrefix;
  }

  lemma PassWriteKeepsOrder(d: Discipline, w: World, a: Action)
    requires WorldInv(w) && OrderInv(w) && Enabled(d, w, a) && a.PassWrite?
    ensures OrderInv(Next(d, w, a))
  {
  }

  lemma OtherStepsKeepOrder(d: Discipline, w: World, a: Action)
    requires WorldInv(w) && OrderInv(w) && Enabled(d, w, a) && ClaimsSoundly(w, a)
    requires !a.ClaimNext? && !a.Record? && !a.PassWrite?
    ensures OrderInv(Next(d, w, a))
  {
    hide Verdict, VerdictAfter, Coherent, PassInv, KnownRows;
  }

  lemma StepKeepsOrder(d: Discipline, w: World, a: Action)
    requires WorldInv(w) && OrderInv(w) && Enabled(d, w, a) && ClaimsSoundly(w, a)
    ensures OrderInv(Next(d, w, a))
  {
    if a.ClaimNext? {
      ClaimNextKeepsOrder(d, w, a);
    } else if a.Record? {
      RecordKeepsOrder(d, w, a);
    } else if a.PassWrite? {
      PassWriteKeepsOrder(d, w, a);
    } else {
      OtherStepsKeepOrder(d, w, a);
    }
  }

  // ---------- With resume's check and claim in one step ----------

  ghost predicate NobodyChecked(w: World) {
    forall t :: t in w.executors ==> !PreClaim(w.executors[t].phase)
  }

  lemma StepKeepsNobodyChecked(d: Discipline, w: World, a: Action)
    requires d.atomicResume && NobodyChecked(w) && Enabled(d, w, a)
    ensures NobodyChecked(Next(d, w, a)) && !a.ResumeClaim?
  {
  }

  lemma {:induction false} AtomicRunKeepsOrder(d: Discipline, w: World, actions: seq<Action>)
    requires WorldInv(w) && OrderInv(w) && d.atomicResume && NobodyChecked(w) && IsRun(d, w, actions)
    ensures OrderInv(After(d, w, actions))
    decreases actions
  {
    if actions != [] {
      StepKeepsWorld(d, w, actions[0]);
      StepKeepsNobodyChecked(d, w, actions[0]);
      StepKeepsOrder(d, w, actions[0]);
      AtomicRunKeepsOrder(d, Next(d, w, actions[0]), actions[1..]);
    }
  }
}
