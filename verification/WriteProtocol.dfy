/** The durable write protocol as a state machine over one plan (write_executor.py,
    reconciler.py): any number of confirm and resume executors and one reconcile pass at a
    time interleave their store transactions. Nobody is obliged to take a next step, so an
    executor may crash or stall between any two of them, and every transaction reads its
    own arbitrary clock. */
module WriteProtocol {
  import opened Wrappers
  import opened WritePlan
  import opened PlanStore

  // ---------- Reconciliation of one operation ----------

  function ReconcileOperationState(kind: string, expected: StateMap, desired: StateMap, observed: StateMap)
    : (verdict: ApplyStatus)
    ensures verdict == Applied <==>
            observed == desired
            || (observed != expected && "DELETE_" <= kind && "exists" in observed && observed["exists"] == Bool(false))
    ensures verdict == RetryableNotApplied <==> observed == expected && observed != desired
    ensures verdict in {Applied, RetryableNotApplied, Conflict}
  {
    if observed == desired then Applied
    else if observed == expected then RetryableNotApplied
    else if "DELETE_" <= kind && "exists" in observed && observed["exists"] == Bool(false) then Applied
    else Conflict
  }

  predicate Gone(state: StateMap) {
    "exists" in state && state["exists"] == Bool(false)
  }

  /** A deletion of something that was there is applied exactly when it is observed to be gone,
      whatever else was observed about it, and to be retried exactly when nothing moved. */
  lemma DeletionsReconciled(kind: string, expected: StateMap, desired: StateMap, observed: StateMap)
    requires "DELETE_" <= kind && Gone(desired) && !Gone(expected)
    ensures var verdict := ReconcileOperationState(kind, expected, desired, observed);
            && (verdict == Applied <==> Gone(observed))
            && (verdict == RetryableNotApplied <==> observed == expected)
            && (verdict == Conflict <==> !Gone(observed) && observed != expected)
  {
  }

  /** An operation that is to change nothing is never to be retried. */
  lemma NoChangeReconciled(kind: string, state: StateMap, observed: StateMap)
    ensures var verdict := ReconcileOperationState(kind, state, state, observed);
            && verdict in {Applied, Conflict}
            && (verdict == Applied <==> observed == state || ("DELETE_" <= kind && Gone(observed)))
  {
  }

  predicate Unresolved(s: Status) {
    s in {Executing, Unknown, LegacyUnknown}
  }

  /** The receipt a reconcile pass writes for a row of its snapshot that needs one. A read
      cannot prove that an already dispatched request will not commit later, so only a
      never-claimed operation is authorized for replay. */
  function ReconciledStatus(row: OpRow, observed: StateMap): ApplyStatus {
    if row.status == Issued then RetryableNotApplied
    else
      var verdict := ReconcileOperationState(row.operation.kind, row.operation.expectedState,
                                             row.operation.desiredState, observed);
      if verdict == RetryableNotApplied && row.attempt > 0 then Unknown else verdict
  }

  // ---------- Executors, the pass and the world ----------

  datatype Mode = Confirm | Resume

  /** Where an executor stands. `read` is the list of row statuses it read once, after its claim. */
  datatype Phase =
    | SawStatus
    | Checked
    | Claimed
    | Looping(read: seq<Status>, next: nat)
    | Holding(read: seq<Status>, next: nat, attempt: nat, attemptToken: Token)
    | Dispatched(read: seq<Status>, next: nat, attempt: nat, attemptToken: Token, outcome: ApplyStatus)
    | Stopped

  datatype Executor = Executor(mode: Mode, phase: Phase)

  datatype Pass =
    | Idle
    | Begun
    | Proceeding
    | Writing(snapshot: seq<OpRow>, next: nat)

  /** `executors` is keyed by owner token; `dispatches[i]` counts the adapter calls for operation i. */
  datatype World = World(plan: PlanRow, executors: map<Token, Executor>, pass: Pass, dispatches: seq<nat>)

  /** The disciplines callers may add: `checkedReconcile` starts a pass only after reading a plan
      status other than ISSUED; `atomicResume` makes resume's check and its claim one step. */
  datatype Discipline = Discipline(checkedReconcile: bool, atomicResume: bool)

  predicate ClaimableBy(mode: Mode, s: Status) {
    match mode
    case Confirm => s == Issued
    case Resume => s == RetryableNotApplied
  }

  /** The statuses an adapter can report; an adapter that raises counts as UNKNOWN. */
  predicate AdapterOutcome(s: Status) {
    s in {Applied, AlreadyApplied, Rejected, Conflict, Unknown}
  }

  predicate ResumeStatus(s: Status) {
    s in {RetryableNotApplied, Partial}
  }

  /** The row half of `resume`'s check. */
  predicate ResumableRows(ops: seq<OpRow>) {
    && (exists i :: 0 <= i < |ops| && ops[i].status == RetryableNotApplied)
    && (forall i :: 0 <= i < |ops| ==> IsSuccess(ops[i].status) || ops[i].status == RetryableNotApplied)
    && (forall i :: 0 <= i < |ops| && ops[i].status == RetryableNotApplied ==> ops[i].reconciled)
  }

  datatype Action =
    | Expire(now: int)
    | ConfirmClaim(token: Token, leaseSeconds: int, now: int)
    | ResumeReadStatus(token: Token)
    | ResumeReadRows(token: Token)
    | ResumeClaim(token: Token, leaseSeconds: int, now: int)
    | ResumeAtOnce(token: Token, leaseSeconds: int, now: int)
    | ReadRows(token: Token)
    | Skip(token: Token)
    | ClaimNext(token: Token, attemptToken: Token, leaseSeconds: int, now: int)
    | Dispatch(token: Token, outcome: ApplyStatus)
    | Record(token: Token, now: int)
    | PassBegin(now: int)
    | PassReadStatus
    | PassSnapshot
    | PassWrite(observed: StateMap)
    | PassAbandon

  ghost predicate Enabled(d: Discipline, w: World, a: Action) {
    match a
    case Expire(now) => now > w.plan.expiresAt
    case ConfirmClaim(t, lease, _) => t !in w.executors && lease > 0
    case ResumeReadStatus(t) => !d.atomicResume && t !in w.executors && ResumeStatus(w.plan.status)
    case ResumeReadRows(t) => t in w.executors && w.executors[t].phase.SawStatus?
    case ResumeClaim(t, lease, _) => t in w.executors && w.executors[t].phase.Checked? && lease > 0
    case ResumeAtOnce(t, lease, _) =>
      t !in w.executors && ResumeStatus(w.plan.status) && ResumableRows(w.plan.ops) && lease > 0
    case ReadRows(t) => t in w.executors && w.executors[t].phase.Claimed?
    case Skip(t) =>
      && t in w.executors && w.executors[t].phase.Looping?
      && var e := w.executors[t];
         e.phase.next < |e.phase.read| && !ClaimableBy(e.mode, e.phase.read[e.phase.next])
    case ClaimNext(t, _, lease, _) =>
      && t in w.executors && w.executors[t].phase.Looping? && lease > 0
      && var e := w.executors[t];
         e.phase.next < |e.phase.read| && e.phase.next < |w.plan.ops| && ClaimableBy(e.mode, e.phase.read[e.phase.next])
    case Dispatch(t, outcome) =>
      t in w.executors && w.executors[t].phase.Holding? && AdapterOutcome(outcome)
      && w.executors[t].phase.next < |w.dispatches|
    case Record(t, _) => t in w.executors && w.executors[t].phase.Dispatched?
                         && w.executors[t].phase.next < |w.plan.ops|
    case PassBegin(_) => w.pass.Idle? && (d.checkedReconcile ==> w.plan.status != Issued)
    case PassReadStatus => w.pass.Begun?
    case PassSnapshot => w.pass.Proceeding?
    case PassWrite(_) => w.pass.Writing? && w.pass.next < |w.pass.snapshot| && w.pass.next < |w.plan.ops|
    case PassAbandon => true
  }

  function SetPhase(w: World, t: Token, phase: Phase): World
    requires t in w.executors
  {
    w.(executors := w.executors[t := w.executors[t].(phase := phase)])
  }

  function Join(w: World, t: Token, mode: Mode, phase: Phase): World {
    w.(executors := w.executors[t := Executor(mode, phase)])
  }

  /** `claim_plan` by executor `t`, which goes on exactly when it was elected. */
  function ClaimBy(w: World, t: Token, mode: Mode, leaseSeconds: int, now: int): World {
    var resume := mode == Resume;
    var claimed := PlanClaimable(w.plan, resume, now);
    Join(w, t, mode, if claimed then Claimed else Stopped).(plan := ClaimPlan(w.plan, t, leaseSeconds, resume, now))
  }

  ghost function Next(d: Discipline, w: World, a: Action): World
    requires Enabled(d, w, a)
  {
    match a
    case Expire(_) =>
      (match TransitionPlan(w.plan, Issued, Expired)
       case Ok(plan) => w.(plan := plan)
       case Err(_) => w)
    case ConfirmClaim(t, lease, now) => ClaimBy(w, t, Confirm, lease, now)
    case ResumeReadStatus(t) => Join(w, t, Resume, SawStatus)
    case ResumeReadRows(t) => SetPhase(w, t, if ResumableRows(w.plan.ops) then Checked else Stopped)
    case ResumeClaim(t, lease, now) => ClaimBy(w, t, Resume, lease, now)
    case ResumeAtOnce(t, lease, now) => ClaimBy(w, t, Resume, lease, now)
    case ReadRows(t) => SetPhase(w, t, Looping(Statuses(w.plan.ops), 0))
    case Skip(t) =>
      var phase := w.executors[t].phase;
      SetPhase(w, t, Looping(phase.read, phase.next + 1))
    case ClaimNext(t, attemptToken, lease, now) =>
      var phase := w.executors[t].phase;
      (match ClaimOperation(w.plan, phase.next, t, attemptToken, lease, now)
       case Ok(plan) => SetPhase(w, t,
                                 Holding(phase.read, phase.next, plan.ops[phase.next].attempt,
                                         attemptToken)).(plan := plan)
       case Err(_) => SetPhase(w, t, Stopped))
    case Dispatch(t, outcome) =>
      var phase := w.executors[t].phase;
      SetPhase(w, t, Dispatched(phase.read, phase.next, phase.attempt, phase.attemptToken, outcome))
      .(dispatches := w.dispatches[phase.next := w.dispatches[phase.next] + 1])
    case Record(t, now) =>
      var phase := w.executors[t].phase;
      (match RecordReceipt(w.plan, phase.next, phase.outcome, phase.attempt, t, phase.attemptToken, now)
       case Ok(plan) =>
         SetPhase(w, t,
                  if IsSuccess(phase.outcome) then Looping(phase.read, phase.next + 1) else Stopped).(plan := plan)
       case Err(_) => SetPhase(w, t, Stopped))
    case PassBegin(now) =>
      (match BeginReconcile(w.plan, now)
       case Ok(plan) => w.(plan := plan, pass := Begun)
       case Err(_) => w)
    case PassReadStatus =>
      w.(pass := if w.plan.status in {Unknown, LegacyUnknown, Partial} then Proceeding else Idle)
    case PassSnapshot => w.(pass := Writing(w.plan.ops, 0))
    case PassWrite(observed) =>
      var i := w.pass.next;
      var row := w.pass.snapshot[i];
      if row.status != Issued && !Unresolved(row.status) then w.(pass := w.pass.(next := i + 1))
      else
        (match RecordReconciliationReceipt(w.plan, i, ReconciledStatus(row, observed))
         case Ok(plan) => w.(plan := plan, pass := w.pass.(next := i + 1))
         case Err(_) => w.(pass := Idle))
    case PassAbandon => w.(pass := Idle)
  }

  // ---------- Runs ----------

  /** A plan as `save_plan` stores it, before anybody confirms it. */
  ghost predicate Fresh(plan: PlanRow) {
    && plan.status == Issued
    && plan.lease == None
    && (forall i :: 0 <= i < |plan.ops| ==> plan.ops[i] == NewRow(plan.ops[i].operation))
  }

  ghost function Start(plan: PlanRow): World {
    World(plan, map[], Idle, seq(|plan.ops|, _ => 0))
  }

  ghost predicate IsRun(d: Discipline, w: World, actions: seq<Action>)
    decreases actions
  {
    actions == [] || (Enabled(d, w, actions[0]) && IsRun(d, Next(d, w, actions[0]), actions[1..]))
  }

  ghost function After(d: Discipline, w: World, actions: seq<Action>): World
    requires IsRun(d, w, actions)
    decreases actions
  {
    if actions == [] then w else After(d, Next(d, w, actions[0]), actions[1..])
  }

  /** A run followed by a run is a run. */
  lemma {:induction false} RunsCompose(d: Discipline, w: World, first: seq<Action>, second: seq<Action>)
    requires IsRun(d, w, first) && IsRun(d, After(d, w, first), second)
    ensures IsRun(d, w, first + second)
    ensures After(d, w, first + second) == After(d, After(d, w, first), second)
    decreases first
  {
    if first == [] {
      assert first + second == second;
    } else {
      assert (first + second)[1..] == first[1..] + second;
      RunsCompose(d, Next(d, w, first[0]), first[1..], second);
    }
  }

  lemma NoSteps(d: Discipline, w: World)
    ensures IsRun(d, w, []) && After(d, w, []) == w
  {
  }

  lemma OneStep(d: Discipline, w: World, a: Action)
    requires Enabled(d, w, a)
    ensures IsRun(d, w, [a]) && After(d, w, [a]) == Next(d, w, a)
  {
    hide Next, Enabled;
    NoSteps(d, Next(d, w, a));
    assert [a][1..] == [];
  }

  lemma Extend(d: Discipline, w: World, actions: seq<Action>, a: Action)
    requires IsRun(d, w, actions) && Enabled(d, After(d, w, actions), a)
    ensures IsRun(d, w, actions + [a])
    ensures After(d, w, actions + [a]) == Next(d, After(d, w, actions), a)
  {
    hide Next, Enabled, IsRun, After;
    OneStep(d, After(d, w, actions), a);
    RunsCompose(d, w, actions, [a]);
  }

  lemma TwoSteps(d: Discipline, w: World, a: Action, b: Action)
    requires Enabled(d, w, a) && Enabled(d, Next(d, w, a), b)
    ensures IsRun(d, w, [a, b]) && After(d, w, [a, b]) == Next(d, Next(d, w, a), b)
  {
    hide Next, Enabled, IsRun, After;
    OneStep(d, w, a);
    Extend(d, w, [a], b);
    assert [a] + [b] == [a, b];
  }

  lemma ThreeSteps(d: Discipline, w: World, a: Action, b: Action, c: Action)
    requires Enabled(d, w, a) && Enabled(d, Next(d, w, a), b) && Enabled(d, Next(d, Next(d, w, a), b), c)
    ensures IsRun(d, w, [a, b, c]) && After(d, w, [a, b, c]) == Next(d, Next(d, Next(d, w, a), b), c)
  {
    hide Next, Enabled, IsRun, After;
    TwoSteps(d, w, a, b);
    Extend(d, w, [a, b], c);
    assert [a, b] + [c] == [a, b, c];
  }
}
