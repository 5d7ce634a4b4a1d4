/** The executor and the reconciler as programs over the store. Run without interruption,
    each is proved to perform a run of the protocol, so every law of all runs binds it. */
module WriteExecutor {
  import opened Wrappers
  import opened WritePlan
  import opened PlanStore
  import opened WriteProtocol
  import opened ProtocolInvariants
  import opened ExecutorLoop

  /** The callers as the source has them: no extra discipline. */
  const AS_WRITTEN := Discipline(false, false)

  datatype ExecutionError =
    | PlanMissing
    | AdapterMissing
    | NotElected
    | NotResumable
    | PlanExpired
    | Store(error: StoreError)

  /** How a run of the protocol explains a change of one stored plan. */
  ghost predicate Explains(w: World, actions: seq<Action>, plan: PlanRow) {
    IsRun(AS_WRITTEN, w, actions) && After(AS_WRITTEN, w, actions).plan == plan
  }

  lemma SkipStep(w0: World, actions: seq<Action>, w: World, owner: Token, mode: Mode, read: seq<Status>, next: nat)
    requires IsRun(AS_WRITTEN, w0, actions) && After(AS_WRITTEN, w0, actions) == w
    requires Standing(w, w.plan, owner, mode, read, next) && next < |read| && !ClaimableBy(mode, read[next])
    ensures IsRun(AS_WRITTEN, w0, actions + [Skip(owner)])
    ensures var w' := After(AS_WRITTEN, w0, actions + [Skip(owner)]);
            Standing(w', w.plan, owner, mode, read, next + 1) && w'.dispatches == w.dispatches
  {
    Extend(AS_WRITTEN, w0, actions, Skip(owner));
  }

  lemma KeyFinds(ops: seq<OpRow>, i: nat)
    requires i < |ops| && forall j, k :: 0 <= j < k < |ops| ==> ops[j].operation.id != ops[k].operation.id
    ensures IndexOf(ops, ops[i].operation.id) == Some(i)
  {
  }

  lemma StoredKeyFinds(store: SQLitePlanStore, planId: string, i: nat)
    requires store.Valid() && planId in store.plans && i < |store.plans[planId].ops|
    ensures IndexOf(store.plans[planId].ops, store.plans[planId].ops[i].operation.id) == Some(i)
  {
    hide IndexOf;
    assert KeysDistinct(store.plans[planId]);
    KeyFinds(store.plans[planId].ops, i);
  }

  /** `calls` lists the operations whose adapter was called, in order. */
  ghost predicate CallsCounted(w: World, w': World, calls: seq<nat>) {
    && |w'.dispatches| == |w.dispatches|
    && forall i :: 0 <= i < |w.dispatches| ==> w'.dispatches[i] == w.dispatches[i] + (if i in calls then 1 else 0)
  }

  /** Executor `owner` is about to take operation `next` of the stored plan. */
  ghost predicate Standing(w: World, plan: PlanRow, owner: Token, mode: Mode, read: seq<Status>, next: nat) {
    && w.plan == plan && |w.dispatches| == |plan.ops| == |read|
    && owner in w.executors && w.executors[owner] == Executor(mode, Looping(read, next))
  }

  ghost predicate OthersKept(before: seq<OpRow>, after: seq<OpRow>, i: nat) {
    && |after| == |before|
    && (forall j :: 0 <= j < |before| ==> after[j].operation == before[j].operation)
    && (forall j :: 0 <= j < |before| && j != i ==> after[j] == before[j])
  }

  lemma ReadStep(w: World, owner: Token, mode: Mode)
    requires owner in w.executors && w.executors[owner] == Executor(mode, Claimed) && |w.dispatches| == |w.plan.ops|
    ensures IsRun(AS_WRITTEN, w, [ReadRows(owner)])
    ensures var w' := After(AS_WRITTEN, w, [ReadRows(owner)]);
            Standing(w', w.plan, owner, mode, Statuses(w.plan.ops), 0) && w'.dispatches == w.dispatches
  {
  }

  lemma NothingYet(w: World)
    ensures Explains(w, [], w.plan) && CallsBroke(w, After(AS_WRITTEN, w, []), [])
  {
  }

  lemma DispatchStep(w: World, owner: Token, mode: Mode, read: seq<Status>, next: nat, attempt: nat,
                     attemptToken: Token, outcome: ApplyStatus)
    requires owner in w.executors && w.executors[owner] == Executor(mode, Holding(read, next, attempt, attemptToken))
    requires next < |w.dispatches| && AdapterOutcome(outcome)
    ensures var a := Dispatch(owner, outcome);
            && Enabled(AS_WRITTEN, w, a)
            && var w' := Next(AS_WRITTEN, w, a);
               && w'.plan == w.plan && w'.dispatches == w.dispatches[next := w.dispatches[next] + 1]
               && owner in w'.executors
               && w'.executors[owner] == Executor(mode, Dispatched(read, next, attempt, attemptToken, outcome))
  {
  }

  /** The claim transaction, and what the protocol calls it. */
  method ClaimStep(store: SQLitePlanStore, planId: string, owner: Token, next: nat, attemptToken: Token,
                   leaseSeconds: int, now: int,
                   ghost mode: Mode, ghost read: seq<Status>, ghost w: World)
    returns (attempt: Result<nat, StoreError>, ghost w': World)
    requires store.Valid() && planId in store.plans && leaseSeconds > 0
    requires next < |read| && ClaimableBy(mode, read[next]) && Standing(w, store.plans[planId], owner, mode, read, next)
    modifies store
    ensures store.Valid() && store.OnlyChanges(planId)
    ensures var a := ClaimNext(owner, attemptToken, leaseSeconds, now);
            Enabled(AS_WRITTEN, w, a) && w' == Next(AS_WRITTEN, w, a) && w'.plan == store.plans[planId]
    ensures OthersKept(w.plan.ops, w'.plan.ops, next) && w'.dispatches == w.dispatches && owner in w'.executors
    ensures attempt.Ok? ==> w'.executors[owner] == Executor(mode, Holding(read, next, attempt.value, attemptToken))
    ensures match ClaimOperation(w.plan, next, owner, attemptToken, leaseSeconds, now)
            case Ok(plan) => w'.plan == plan && attempt == Ok(plan.ops[next].attempt)
            case Err(e) => w'.plan == w.plan && attempt == Err(e)
  {
    StoredKeyFinds(store, planId, next);
    var operationId := store.plans[planId].ops[next].operation.id;
    w' := Next(AS_WRITTEN, w, ClaimNext(owner, attemptToken, leaseSeconds, now));
    attempt := store.ClaimOp(planId, operationId, owner, attemptToken, leaseSeconds, now);
  }

  /** The receipt transaction, and what the protocol calls it. */
  method RecordStep(store: SQLitePlanStore, planId: string, owner: Token, next: nat, attempt: nat, attemptToken: Token,
                    outcome: ApplyStatus, now: int, ghost mode: Mode, ghost read: seq<Status>, ghost w: World)
    returns (recorded: Result<(), StoreError>, ghost w': World)
    requires store.Valid() && planId in store.plans
    requires w.plan == store.plans[planId] && next < |w.plan.ops| && owner in w.executors
    requires w.executors[owner] == Executor(mode, Dispatched(read, next, attempt, attemptToken, outcome))
    modifies store
    ensures store.Valid() && store.OnlyChanges(planId)
    ensures var a := Record(owner, now);
            Enabled(AS_WRITTEN, w, a) && w' == Next(AS_WRITTEN, w, a) && w'.plan == store.plans[planId]
    ensures OthersKept(w.plan.ops, w'.plan.ops, next) && w'.dispatches == w.dispatches && owner in w'.executors
    ensures recorded.Ok? ==>
              && w'.plan.ops[next].status == outcome
              && (IsSuccess(outcome) ==> w'.executors[owner] == Executor(mode, Looping(read, next + 1)))
    ensures match RecordReceipt(w.plan, next, outcome, attempt, owner, attemptToken, now)
            case Ok(plan) => w'.plan == plan && recorded.Ok?
            case Err(e) => w'.plan == w.plan && recorded == Err(e)
  {
    hide Verdict, VerdictAfter, CanTransition, SQLitePlanStore.Valid, IndexOf;
    StoredKeyFinds(store, planId, next);
    var operationId := store.plans[planId].ops[next].operation.id;
    w' := Next(AS_WRITTEN, w, Record(owner, now));
    recorded := store.Record(planId, operationId, outcome, attempt, owner, attemptToken, now);
  }

  /** One round of the loop: claim the operation, call its adapter, record the receipt. */
  method ExecuteOne(store: SQLitePlanStore, planId: string, c: Caller, next: nat, ghost read: seq<Status>,
                    ghost w: World)
    returns (r: Result<ApplyStatus, StoreError>, called: bool, ghost actions: seq<Action>)
    requires store.Valid() && planId in store.plans && c.leaseSeconds > 0 && HonestAdapters(c.adapters)
    requires next < |read| && ClaimableBy(c.mode, read[next])
    requires Standing(w, store.plans[planId], c.owner, c.mode, read, next)
    requires w.plan.ops[next].operation.kind in c.adapters
    modifies store
    ensures store.Valid() && store.OnlyChanges(planId) && planId in store.plans
    ensures Explains(w, actions, store.plans[planId])
    ensures OthersKept(w.plan.ops, store.plans[planId].ops, next)
    ensures After(AS_WRITTEN, w, actions).dispatches == if called then w.dispatches[next := w.dispatches[next] + 1]
                                                        else w.dispatches
    ensures var (result, after, reached) := Round(c, w.plan, next);
            && store.plans[planId] == after && called == reached
            && r == match result case Ok(_) => Ok(OutcomeOf(c, w.plan.ops, next)) case Err(e) => Err(e)
    ensures r.Ok? ==>
              && r.value == store.plans[planId].ops[next].status
              && (IsSuccess(r.value) ==>
                    Standing(After(AS_WRITTEN, w, actions), store.plans[planId], c.owner, c.mode, read, next + 1))
  {
    hide Next, Enabled, IsRun, After, ClaimOperation, RecordReceipt;
    var operation := store.plans[planId].ops[next].operation;
    var token, claimTime, recordTime := c.attemptTokens(next), c.clock(2 * next), c.clock(2 * next + 1);
    var attempt, w1 := ClaimStep(store, planId, c.owner, next, token, c.leaseSeconds, claimTime, c.mode, read, w);
    ghost var claim := ClaimNext(c.owner, token, c.leaseSeconds, claimTime);
    actions := [claim];
    if attempt.Err? {
      OneStep(AS_WRITTEN, w, claim);
      return Err(attempt.error), false, actions;
    }
    var outcome := Outcome(c.adapters[operation.kind](operation));
    DispatchStep(w1, c.owner, c.mode, read, next, attempt.value, token, outcome);
    ghost var w2 := Next(AS_WRITTEN, w1, Dispatch(c.owner, outcome));
    var recorded, w3 := RecordStep(store, planId, c.owner, next, attempt.value, token, outcome, recordTime, c.mode,
                                   read, w2);
    actions := [claim, Dispatch(c.owner, outcome), Record(c.owner, recordTime)];
    ThreeSteps(AS_WRITTEN, w, claim, Dispatch(c.owner, outcome), Record(c.owner, recordTime));
    r := if recorded.Err? then Err(recorded.error) else Ok(outcome);
    called := true;
  }

  /** What the calls made so far amount to when operation `next` comes up. */
  ghost predicate Progress(w0: World, w: World, mode: Mode, calls: seq<nat>, next: nat) {
    && |w.plan.ops| == |w0.plan.ops| && next <= |w0.plan.ops| && |w0.dispatches| == |w0.plan.ops|
    && CallsCounted(w0, w, calls)
    && (forall i :: 0 <= i < |w0.plan.ops| ==> w.plan.ops[i].operation == w0.plan.ops[i].operation)
    && (forall i :: 0 <= i < |w0.plan.ops| && i !in calls ==> w.plan.ops[i] == w0.plan.ops[i])
    && (forall i :: 0 <= i < next && ClaimableBy(mode, w0.plan.ops[i].status) ==> i in calls)
    && (forall k, l :: 0 <= k < l < |calls| ==> calls[k] < calls[l])
    && (forall k :: 0 <= k < |calls| ==> calls[k] < next && ClaimableBy(mode, w0.plan.ops[calls[k]].status))
  }

  ghost predicate AllSucceeded(ops: seq<OpRow>, calls: seq<nat>) {
    forall k :: 0 <= k < |calls| ==> calls[k] < |ops| && IsSuccess(ops[calls[k]].status)
  }

  /** However the loop ends, only its last call may have been anything but a success. */
  ghost predicate CallsBroke(w0: World, w: World, calls: seq<nat>) {
    CallsCounted(w0, w, calls) && (calls != [] ==> AllSucceeded(w.plan.ops, calls[..|calls| - 1]))
  }

  /** Without an error, every claimable operation was called, up to the first failure. */
  ghost predicate CallsComplete(w0: World, w: World, mode: Mode, calls: seq<nat>) {
    if AllSucceeded(w.plan.ops, calls) then Progress(w0, w, mode, calls, |w0.plan.ops|)
    else calls != [] && Progress(w0, w, mode, calls, calls[|calls| - 1] + 1)
  }

  lemma CallAdvances(w0: World, w: World, w': World, mode: Mode, calls: seq<nat>, next: nat)
    requires Progress(w0, w, mode, calls, next) && next < |w0.plan.ops| && AllSucceeded(w.plan.ops, calls)
    requires ClaimableBy(mode, w0.plan.ops[next].status)
    requires OthersKept(w.plan.ops, w'.plan.ops, next) && w'.dispatches == w.dispatches[next := w.dispatches[next] + 1]
    ensures Progress(w0, w', mode, calls + [next], next + 1)
    ensures AllSucceeded(w'.plan.ops, (calls + [next])[..|calls|])
  {
  }

  lemma BrokenBeforeCall(w0: World, w: World, w': World, mode: Mode, calls: seq<nat>, next: nat)
    requires Progress(w0, w, mode, calls, next) && next < |w0.plan.ops| && AllSucceeded(w.plan.ops, calls)
    requires OthersKept(w.plan.ops, w'.plan.ops, next) && w'.dispatches == w.dispatches
    ensures CallsBroke(w0, w', calls)
  {
  }

  lemma NothingCalled(w0: World, w: World, mode: Mode)
    requires w.plan == w0.plan && w.dispatches == w0.dispatches && |w0.dispatches| == |w0.plan.ops|
    ensures Progress(w0, w, mode, [], 0) && AllSucceeded(w.plan.ops, [])
  {
  }

  lemma NextUntouched(w0: World, w: World, mode: Mode, calls: seq<nat>, next: nat)
    requires Progress(w0, w, mode, calls, next) && next < |w0.plan.ops|
    ensures |w.plan.ops| == |w0.plan.ops| && w.plan.ops[next] == w0.plan.ops[next]
  {
  }

  lemma SkipAdvances(w0: World, w: World, w': World, mode: Mode, calls: seq<nat>, next: nat)
    requires Progress(w0, w, mode, calls, next) && next < |w0.plan.ops|
    requires w'.plan == w.plan && w'.dispatches == w.dispatches && !ClaimableBy(mode, w0.plan.ops[next].status)
    ensures Progress(w0, w', mode, calls, next + 1)
  {
  }

  lemma LoopEnds(w0: World, w: World, mode: Mode, calls: seq<nat>)
    requires Progress(w0, w, mode, calls, |w0.plan.ops|) && AllSucceeded(w.plan.ops, calls)
    ensures CallsBroke(w0, w, calls) && CallsComplete(w0, w, mode, calls)
  {
  }

  lemma LoopBreaks(w0: World, w: World, mode: Mode, calls: seq<nat>, next: nat)
    requires Progress(w0, w, mode, calls, next + 1) && calls != [] && calls[|calls| - 1] == next < |w0.plan.ops|
    requires AllSucceeded(w.plan.ops, calls[..|calls| - 1])
    ensures CallsBroke(w0, w, calls)
    ensures |w.plan.ops| == |w0.plan.ops|
    ensures !IsSuccess(w.plan.ops[next].status) ==> CallsComplete(w0, w, mode, calls)
    ensures IsSuccess(w.plan.ops[next].status) ==> AllSucceeded(w.plan.ops, calls)
  {
  }

  /** One round, counted: the calls made so far and what they amount to. */
  method ExecuteNext(store: SQLitePlanStore, planId: string, c: Caller, made: seq<nat>, next: nat,
                     ghost read: seq<Status>, ghost w0: World, ghost done: seq<Action>)
    returns (r: Result<ApplyStatus, StoreError>, calls: seq<nat>, ghost actions: seq<Action>)
    requires store.Valid() && planId in store.plans && c.leaseSeconds > 0 && IsRun(AS_WRITTEN, w0, done)
    requires HonestAdapters(c.adapters)
    requires var w := After(AS_WRITTEN, w0, done);
             && Standing(w, store.plans[planId], c.owner, c.mode, read, next) && next < |read|
             && ClaimableBy(c.mode, read[next]) && w.plan.ops[next].operation.kind in c.adapters
             && Progress(w0, w, c.mode, made, next) && AllSucceeded(w.plan.ops, made) && next < |w0.plan.ops|
    requires read[next] == w0.plan.ops[next].status
    modifies store
    ensures store.Valid() && store.OnlyChanges(planId) && planId in store.plans
    ensures Explains(w0, actions, store.plans[planId])
    ensures CallsBroke(w0, After(AS_WRITTEN, w0, actions), calls)
    ensures var plan := old(store.plans)[planId];
            var (result, after, called) := Round(c, plan, next);
            && store.plans[planId] == after && calls == (if called then made + [next] else made)
            && r == match result case Ok(_) => Ok(OutcomeOf(c, plan.ops, next)) case Err(e) => Err(e)
    ensures var w' := After(AS_WRITTEN, w0, actions);
            r.Ok? ==>
              if IsSuccess(r.value) then
                Standing(w', store.plans[planId], c.owner, c.mode, read, next + 1)
                && Progress(w0, w', c.mode, calls, next + 1) && AllSucceeded(w'.plan.ops, calls)
              else CallsComplete(w0, w', c.mode, calls)
  {
    hide Next, Enabled, IsRun, After, Progress, AllSucceeded, CallsBroke, CallsComplete, OthersKept, AdapterOutcome;
    hide SQLitePlanStore.Valid, ClaimableBy, Round;
    ghost var w := After(AS_WRITTEN, w0, done);
    var outcome, called, round := ExecuteOne(store, planId, c, next, read, w);
    RunsCompose(AS_WRITTEN, w0, done, round);
    actions := done + round;
    ghost var w' := After(AS_WRITTEN, w0, actions);
    if !called {
      RoundAnswers(c, w.plan, next);
      BrokenBeforeCall(w0, w, w', c.mode, made, next);
      return outcome, made, actions;
    }
    CallAdvances(w0, w, w', c.mode, made, next);
    calls := made + [next];
    LoopBreaks(w0, w', c.mode, calls, next);
    r := outcome;
  }

  lemma RoundAnswers(c: Caller, plan: PlanRow, i: nat)
    requires i < |plan.ops| && plan.ops[i].operation.kind in c.adapters
    ensures !Round(c, plan, i).2 ==> Round(c, plan, i).0.Err?
  {
  }

  /** How the loop's own result is answered. */
  function Answer(result: Result<(), StoreError>): Result<(), ExecutionError> {
    match result
    case Ok(_) => Ok(())
    case Err(e) => Err(Store(e))
  }

  /** The rest of the loop after `calls`, for the loop as a whole. */
  ghost predicate Continues(whole: Ran, calls: seq<nat>, rest: Ran) {
    whole == Ran(rest.result, rest.plan, calls + rest.calls)
  }

  lemma LoopContinues(whole: Ran, c: Caller, plan: PlanRow, read: seq<Status>, next: nat, calls: seq<nat>)
    requires next < |read| && Equipped(c, plan.ops, read, next)
    requires Continues(whole, calls, LoopFrom(c, plan, read, next))
    ensures !ClaimableBy(c.mode, read[next]) ==>
              Equipped(c, plan.ops, read, next + 1) && Continues(whole, calls, LoopFrom(c, plan, read, next + 1))
    ensures ClaimableBy(c.mode, read[next]) ==>
              var (result, after, called) := Round(c, plan, next);
              var made := if called then calls + [next] else calls;
              match result
              case Err(e) => whole == Ran(Err(e), after, made)
              case Ok(_) =>
                if IsSuccess(OutcomeOf(c, plan.ops, next)) then
                  Equipped(c, after.ops, read, next + 1)
                  && Continues(whole, made, LoopFrom(c, after, read, next + 1))
                else whole == Ran(Ok(()), after, made)
  {
    hide Round;
    if ClaimableBy(c.mode, read[next]) {
      RoundKeeps(c, plan, next);
      RoundAnswers(c, plan, next);
    }
  }

  /** `_execute_claimed`: operation by operation, up to the first outcome that is not a
      success or the first refused transaction. */
  method ExecuteClaimed(store: SQLitePlanStore, planId: string, c: Caller, ghost w0: World)
    returns (r: Result<(), ExecutionError>, calls: seq<nat>, ghost actions: seq<Action>)
    requires store.Valid() && planId in store.plans && c.leaseSeconds > 0 && HonestAdapters(c.adapters)
    requires Equipped(c, store.plans[planId].ops, Statuses(store.plans[planId].ops), 0)
    requires w0.plan == store.plans[planId] && |w0.dispatches| == |w0.plan.ops|
    requires c.owner in w0.executors && w0.executors[c.owner] == Executor(c.mode, Claimed)
    modifies store
    ensures store.Valid() && store.OnlyChanges(planId) && planId in store.plans
    ensures Explains(w0, actions, store.plans[planId])
    ensures var run := LoopFrom(c, w0.plan, Statuses(w0.plan.ops), 0);
            store.plans[planId] == run.plan && calls == run.calls && r == Answer(run.result)
    ensures CallsBroke(w0, After(AS_WRITTEN, w0, actions), calls)
    ensures r.Ok? ==> CallsComplete(w0, After(AS_WRITTEN, w0, actions), c.mode, calls)
  {
    hide Next, Enabled, IsRun, After, Progress, AllSucceeded, CallsBroke, CallsComplete, OthersKept, AdapterOutcome;
    hide SQLitePlanStore.Valid, ClaimableBy, LoopFrom, Round, Equipped, HonestAdapters;
    var record := store.GetPlanRecord(planId);
    var claimed := record.value;
    var read := Statuses(claimed.ops);
    ReadStep(w0, c.owner, c.mode);
    actions := [ReadRows(c.owner)];
    ghost var w := After(AS_WRITTEN, w0, actions);
    calls := [];
    NothingCalled(w0, w, c.mode);
    ghost var whole := LoopFrom(c, w0.plan, read, 0);
    var next: nat := 0;
    while next < |claimed.ops|
      invariant store.Valid() && store.OnlyChanges(planId) && planId in store.plans
      invariant next <= |claimed.ops| && IsRun(AS_WRITTEN, w0, actions) && After(AS_WRITTEN, w0, actions) == w
      invariant Standing(w, store.plans[planId], c.owner, c.mode, read, next)
      invariant Progress(w0, w, c.mode, calls, next) && AllSucceeded(w.plan.ops, calls)
      invariant Equipped(c, w.plan.ops, read, next)
      invariant Continues(whole, calls, LoopFrom(c, w.plan, read, next))
    {
      NextUntouched(w0, w, c.mode, calls, next);
      LoopContinues(whole, c, w.plan, read, next, calls);
      if !ClaimableBy(c.mode, read[next]) {
        SkipStep(w0, actions, w, c.owner, c.mode, read, next);
        SkipAdvances(w0, w, After(AS_WRITTEN, w0, actions + [Skip(c.owner)]), c.mode, calls, next);
        actions := actions + [Skip(c.owner)];
        w := After(AS_WRITTEN, w0, actions);
        next := next + 1;
        continue;
      }
      HasAdapter(c, w.plan.ops, read, next);
      var outcome;
      outcome, calls, actions := ExecuteNext(store, planId, c, calls, next, read, w0, actions);
      if outcome.Err? {
        return Err(Store(outcome.error)), calls, actions;
      }
      w := After(AS_WRITTEN, w0, actions);
      if outcome.value !in {Applied, AlreadyApplied} {
        return Ok(()), calls, actions;
      }
      next := next + 1;
    }
    LoopOver(c, w.plan, read);
    LoopEnds(w0, w, c.mode, calls);
    r := Ok(());
  }

  lemma HasAdapter(c: Caller, ops: seq<OpRow>, read: seq<Status>, next: nat)
    requires Equipped(c, ops, read, next) && next < |read| && ClaimableBy(c.mode, read[next])
    ensures next < |ops| && ops[next].operation.kind in c.adapters
  {
  }

  lemma LoopOver(c: Caller, plan: PlanRow, read: seq<Status>)
    requires Equipped(c, plan.ops, read, |read|)
    ensures LoopFrom(c, plan, read, |read|) == Ran(Ok(()), plan, [])
  {
  }

  /** The world right after a plan was issued to callers, as an executor finds it. */
  ghost predicate Joinable(w: World, plan: PlanRow, owner: Token) {
    w.plan == plan && |w.dispatches| == |plan.ops| && owner !in w.executors
  }

  lemma NoCalls(w: World, w': World)
    requires w'.dispatches == w.dispatches
    ensures CallsBroke(w, w', [])
  {
  }

  predicate MissesAdapter(ops: seq<OpRow>, adapters: map<string, Adapter>) {
    exists i | 0 <= i < |ops| :: ops[i].operation.kind !in adapters
  }

  predicate IsStale(plan: PlanRow, readTime: int) {
    readTime > plan.expiresAt && plan.status == Issued
  }

  /** `confirm`: expire a stale plan, or be elected and execute it. */
  method ConfirmPlan(store: SQLitePlanStore, planId: string, c: Caller, readTime: int, claimTime: int, ghost w: World)
    returns (r: Result<(), ExecutionError>, calls: seq<nat>, ghost actions: seq<Action>)
    requires store.Valid() && c.mode == Confirm && c.leaseSeconds > 0 && HonestAdapters(c.adapters)
    requires planId in store.plans ==> Joinable(w, store.plans[planId], c.owner)
    modifies store
    ensures store.Valid() && store.OnlyChanges(planId)
    ensures r == Err(PlanMissing) <==> planId !in old(store.plans)
    ensures planId in store.plans ==>
              Explains(w, actions, store.plans[planId]) && CallsBroke(w, After(AS_WRITTEN, w, actions), calls)
    ensures r.Ok? ==> CallsComplete(w, After(AS_WRITTEN, w, actions), Confirm, calls)
    // Who is turned away, and why.
    ensures planId in store.plans ==>
              var plan := old(store.plans)[planId];
              && (r == Err(PlanExpired) <==> IsStale(plan, readTime))
              && (r == Err(AdapterMissing) <==> !IsStale(plan, readTime) && MissesAdapter(plan.ops, c.adapters))
              && (r == Err(NotElected) <==>
                    && !IsStale(plan, readTime) && !MissesAdapter(plan.ops, c.adapters)
                    && !(plan.status == Issued && LeaseFree(plan, claimTime)))
              && (r == Err(PlanExpired) ==> store.plans[planId] == plan.(status := Expired) && calls == [])
              && (r == Err(AdapterMissing) || r == Err(NotElected) ==> store.plans[planId] == plan && calls == [])
    // Everybody else runs the loop on the claimed plan.
    ensures planId in store.plans && (r.Ok? || r.error.Store?) ==>
              var plan := old(store.plans)[planId];
              var claimed := ClaimPlan(plan, c.owner, c.leaseSeconds, false, claimTime);
              && Equipped(c, claimed.ops, Statuses(plan.ops), 0)
              && var run := LoopFrom(c, claimed, Statuses(plan.ops), 0);
                 store.plans[planId] == run.plan && calls == run.calls && r == Answer(run.result)
    // In time, with adapters that all apply, a fresh plan ends applied.
    ensures planId in store.plans ==>
              var plan := old(store.plans)[planId];
              && Fresh(plan) && plan.ops != [] && readTime <= plan.expiresAt && !MissesAdapter(plan.ops, c.adapters)
              && InTime(c, Statuses(plan.ops), 0, claimTime + c.leaseSeconds) && AllApply(c, plan.ops) ==>
                r == Ok(()) && store.plans[planId].status == Applied
                && forall i :: 0 <= i < |store.plans[planId].ops| ==> store.plans[planId].ops[i].status == Applied
  {
    hide IsRun, After, CallsBroke, CallsComplete, AdapterOutcome, SQLitePlanStore.Valid, LoopFrom, InTime,
         HonestAdapters;
    actions, calls := [], [];
    var record := store.GetPlanRecord(planId);
    if record.None? {
      return Err(PlanMissing), [], [];
    }
    var plan := record.value;
    NothingYet(w);
    if readTime > plan.expiresAt && plan.status == Issued {
      OneStep(AS_WRITTEN, w, Expire(readTime));
      NoCalls(w, Next(AS_WRITTEN, w, Expire(readTime)));
      var expired := store.Transition(planId, Issued, Expired);
      return Err(PlanExpired), [], [Expire(readTime)];
    }
    if exists i | 0 <= i < |plan.ops| :: plan.ops[i].operation.kind !in c.adapters {
      return Err(AdapterMissing), [], [];
    }
    ghost var claim := ConfirmClaim(c.owner, c.leaseSeconds, claimTime);
    OneStep(AS_WRITTEN, w, claim);
    ghost var w1 := Next(AS_WRITTEN, w, claim);
    NoCalls(w, w1);
    var claimed := store.Claim(planId, c.owner, c.leaseSeconds, false, claimTime);
    if !claimed.value {
      return Err(NotElected), [], [claim];
    }
    ghost var rest;
    r, calls, rest := ExecuteClaimed(store, planId, c, w1);
    RunsCompose(AS_WRITTEN, w, [claim], rest);
    actions := [claim] + rest;
    SameStart(w, w1, After(AS_WRITTEN, w, actions), Confirm, calls);
    AppliesInTime(c, plan, claimTime);
  }

  ghost predicate AllApply(c: Caller, ops: seq<OpRow>) {
    forall i :: 0 <= i < |ops| ==> ops[i].operation.kind in c.adapters && OutcomeOf(c, ops, i) == Applied
  }

  lemma AppliesInTime(c: Caller, plan: PlanRow, now: int)
    requires c.mode == Confirm && HonestAdapters(c.adapters) && !MissesAdapter(plan.ops, c.adapters)
    ensures Fresh(plan) && plan.ops != [] && InTime(c, Statuses(plan.ops), 0, now + c.leaseSeconds)
            && AllApply(c, plan.ops) ==>
              var claimed := ClaimPlan(plan, c.owner, c.leaseSeconds, false, now);
              && Equipped(c, claimed.ops, Statuses(plan.ops), 0)
              && var run := LoopFrom(c, claimed, Statuses(plan.ops), 0);
                 && run.result.Ok? && run.plan.status == Applied
                 && forall i :: 0 <= i < |run.plan.ops| ==> run.plan.ops[i].status == Applied
  {
    hide InTime, OutcomeOf, LoopFrom, HonestAdapters;
    if Fresh(plan) && plan.ops != [] && InTime(c, Statuses(plan.ops), 0, now + c.leaseSeconds)
       && AllApply(c, plan.ops) {
      ConfirmApplies(c, plan, now);
    }
  }

  // ---------- Resuming, transaction by transaction ----------

  predicate AdaptersCover(ops: seq<OpRow>, adapters: map<string, Adapter>) {
    forall i :: 0 <= i < |ops| && ops[i].status == RetryableNotApplied ==> ops[i].operation.kind in adapters
  }

  /** The first transaction of `resume`: the plan status. */
  method ReadResumeStatus(store: SQLitePlanStore, planId: string, owner: Token, ghost w: World)
    returns (r: Result<(), ExecutionError>, ghost w': World)
    requires planId in store.plans ==> Joinable(w, store.plans[planId], owner)
    ensures r == if planId in store.plans && ResumeStatus(store.plans[planId].status) then Ok(()) else Err(NotResumable)
    ensures r.Ok? ==>
              && Enabled(AS_WRITTEN, w, ResumeReadStatus(owner)) && w' == Next(AS_WRITTEN, w, ResumeReadStatus(owner))
              && w'.plan == w.plan && w'.dispatches == w.dispatches
              && owner in w'.executors && w'.executors[owner] == Executor(Resume, SawStatus)
    ensures r.Err? ==> w' == w
  {
    w' := w;
    var record := store.GetPlanRecord(planId);
    if record.None? || !ResumeStatus(record.value.status) {
      return Err(NotResumable), w;
    }
    r, w' := Ok(()), Next(AS_WRITTEN, w, ResumeReadStatus(owner));
  }

  /** The second transaction: the rows, and the adapters they need. */
  method CheckResumeRows(store: SQLitePlanStore, planId: string, owner: Token, adapters: map<string, Adapter>,
                         ghost w: World)
    returns (r: Result<(), ExecutionError>, ghost w': World)
    requires planId in store.plans && w.plan == store.plans[planId]
    requires owner in w.executors && w.executors[owner] == Executor(Resume, SawStatus)
    ensures r == if !ResumableRows(w.plan.ops) then Err(NotResumable)
                 else if !AdaptersCover(w.plan.ops, adapters) then Err(AdapterMissing) else Ok(())
    ensures Enabled(AS_WRITTEN, w, ResumeReadRows(owner)) && w' == Next(AS_WRITTEN, w, ResumeReadRows(owner))
    ensures w'.plan == w.plan && w'.dispatches == w.dispatches && owner in w'.executors
    ensures r.Ok? ==> w'.executors[owner] == Executor(Resume, Checked)
  {
    w' := Next(AS_WRITTEN, w, ResumeReadRows(owner));
    var record := store.GetPlanRecord(planId);
    var ops := record.value.ops;
    var statuses := set i | 0 <= i < |ops| :: ops[i].status;
    if || RetryableNotApplied !in statuses
       || !(statuses <= {Applied, AlreadyApplied, RetryableNotApplied})
       || exists i | 0 <= i < |ops| :: ops[i].status == RetryableNotApplied && !ops[i].reconciled
    {
      assert forall i :: 0 <= i < |ops| ==> ops[i].status in statuses;
      return Err(NotResumable), w';
    }
    assert forall i :: 0 <= i < |ops| ==> ops[i].status in statuses;
    if exists i | 0 <= i < |ops| :: ops[i].status == RetryableNotApplied && ops[i].operation.kind !in adapters {
      return Err(AdapterMissing), w';
    }
    r := Ok(());
  }

  /** The third transaction and what follows it, in whatever plan it finds by then. */
  method ClaimResumed(store: SQLitePlanStore, planId: string, c: Caller, claimTime: int, ghost w: World)
    returns (r: Result<(), ExecutionError>, calls: seq<nat>, ghost actions: seq<Action>)
    requires store.Valid() && c.mode == Resume && c.leaseSeconds > 0 && HonestAdapters(c.adapters)
    requires planId in store.plans && w.plan == store.plans[planId] && |w.dispatches| == |w.plan.ops|
    requires c.owner in w.executors && w.executors[c.owner] == Executor(Resume, Checked)
    requires AdaptersCover(w.plan.ops, c.adapters)
    modifies store
    ensures store.Valid() && store.OnlyChanges(planId) && planId in store.plans
    ensures Explains(w, actions, store.plans[planId]) && CallsBroke(w, After(AS_WRITTEN, w, actions), calls)
    ensures r == Err(NotElected) <==> !PlanClaimable(w.plan, true, claimTime)
    ensures r == Err(NotElected) ==> calls == [] && store.plans == old(store.plans)
    ensures Equipped(c, w.plan.ops, Statuses(w.plan.ops), 0)
    ensures r != Err(NotElected) ==>
              var claimed := ClaimPlan(w.plan, c.owner, c.leaseSeconds, true, claimTime);
              var run := LoopFrom(c, claimed, Statuses(w.plan.ops), 0);
              store.plans[planId] == run.plan && calls == run.calls && r == Answer(run.result)
    ensures r.Ok? ==> CallsComplete(w, After(AS_WRITTEN, w, actions), Resume, calls)
  {
    hide Next, Enabled, IsRun, After, CallsBroke, CallsComplete, AdapterOutcome, LoopFrom, HonestAdapters;
    ghost var claim := ResumeClaim(c.owner, c.leaseSeconds, claimTime);
    ResumeStarts(w, c.owner, c.leaseSeconds, claimTime);
    ghost var w1 := After(AS_WRITTEN, w, [claim]);
    calls := [];
    var claimed := store.Claim(planId, c.owner, c.leaseSeconds, true, claimTime);
    if !claimed.value {
      return Err(NotElected), [], [claim];
    }
    ghost var rest;
    r, calls, rest := ExecuteClaimed(store, planId, c, w1);
    RunsCompose(AS_WRITTEN, w, [claim], rest);
    actions := [claim] + rest;
    SameStart(w, w1, After(AS_WRITTEN, w, actions), Resume, calls);
  }

  lemma ResumeStarts(w: World, owner: Token, leaseSeconds: int, now: int)
    requires owner in w.executors && w.executors[owner] == Executor(Resume, Checked) && leaseSeconds > 0
    requires |w.dispatches| == |w.plan.ops|
    ensures var claim := ResumeClaim(owner, leaseSeconds, now);
            && IsRun(AS_WRITTEN, w, [claim])
            && var w1 := After(AS_WRITTEN, w, [claim]);
               && w1.plan == ClaimPlan(w.plan, owner, leaseSeconds, true, now) && w1.dispatches == w.dispatches
               && CallsBroke(w, w1, [])
               && (PlanClaimable(w.plan, true, now) ==>
                     owner in w1.executors && w1.executors[owner] == Executor(Resume, Claimed))
  {
  }

  /** `resume`, its three transactions in a row. */
  method ResumePlan(store: SQLitePlanStore, planId: string, c: Caller, claimTime: int, ghost w: World)
    returns (r: Result<(), ExecutionError>, calls: seq<nat>, ghost actions: seq<Action>)
    requires store.Valid() && c.mode == Resume && c.leaseSeconds > 0 && HonestAdapters(c.adapters)
    requires planId in store.plans ==> Joinable(w, store.plans[planId], c.owner)
    modifies store
    ensures store.Valid() && store.OnlyChanges(planId)
    ensures planId in store.plans ==>
              Explains(w, actions, store.plans[planId]) && CallsBroke(w, After(AS_WRITTEN, w, actions), calls)
    ensures planId in store.plans && r.Ok? ==> CallsComplete(w, After(AS_WRITTEN, w, actions), Resume, calls)
    ensures r == Err(NotResumable) <==>
              planId !in old(store.plans)
              || !ResumeStatus(old(store.plans)[planId].status) || !ResumableRows(old(store.plans)[planId].ops)
    ensures r != Err(NotResumable) ==>
              var plan := old(store.plans)[planId];
              && (r == Err(AdapterMissing) <==> !AdaptersCover(plan.ops, c.adapters))
              && (r == Err(NotElected) <==> AdaptersCover(plan.ops, c.adapters) && !LeaseFree(plan, claimTime))
    ensures r in {Err(NotResumable), Err(AdapterMissing), Err(NotElected)} ==>
              calls == [] && store.plans == old(store.plans)
    ensures r !in {Err(NotResumable), Err(AdapterMissing), Err(NotElected)} ==>
              var plan := old(store.plans)[planId];
              var claimed := ClaimPlan(plan, c.owner, c.leaseSeconds, true, claimTime);
              && Equipped(c, claimed.ops, Statuses(plan.ops), 0)
              && var run := LoopFrom(c, claimed, Statuses(plan.ops), 0);
                 store.plans[planId] == run.plan && calls == run.calls && r == Answer(run.result)
  {
    hide Next, Enabled, IsRun, After, CallsBroke, CallsComplete, ResumableRows, AdapterOutcome, AdaptersCover;
    hide LoopFrom, HonestAdapters;
    actions, calls := [], [];
    NothingYet(w);
    ghost var w1, w2;
    r, w1 := ReadResumeStatus(store, planId, c.owner, w);
    if r.Err? {
      return r, [], [];
    }
    OneStep(AS_WRITTEN, w, ResumeReadStatus(c.owner));
    r, w2 := CheckResumeRows(store, planId, c.owner, c.adapters, w1);
    Extend(AS_WRITTEN, w, [ResumeReadStatus(c.owner)], ResumeReadRows(c.owner));
    ghost var checks := [ResumeReadStatus(c.owner)] + [ResumeReadRows(c.owner)];
    NoCalls(w, w2);
    if r.Err? {
      return r, [], checks;
    }
    ghost var rest;
    r, calls, rest := ClaimResumed(store, planId, c, claimTime, w2);
    RunsCompose(AS_WRITTEN, w, checks, rest);
    actions := checks + rest;
    SameStart(w, w2, After(AS_WRITTEN, w, actions), Resume, calls);
  }

  /** The executor an action belongs to. */
  function Actor(a: Action): Option<Token> {
    match a
    case ConfirmClaim(t, _, _) => Some(t)
    case ResumeReadStatus(t) => Some(t)
    case ResumeReadRows(t) => Some(t)
    case ResumeClaim(t, _, _) => Some(t)
    case ResumeAtOnce(t, _, _) => Some(t)
    case ReadRows(t) => Some(t)
    case Skip(t) => Some(t)
    case ClaimNext(t, _, _, _) => Some(t)
    case Dispatch(t, _) => Some(t)
    case Record(t, _) => Some(t)
    case _ => None
  }

  lemma OthersLeaveAlone(w: World, a: Action, t: Token)
    requires Enabled(AS_WRITTEN, w, a) && Actor(a) != Some(t) && t in w.executors
    ensures t in Next(AS_WRITTEN, w, a).executors && Next(AS_WRITTEN, w, a).executors[t] == w.executors[t]
  {
  }

  lemma {:induction false} StaysReady(w: World, between: seq<Action>, owner: Token, adapters: map<string, Adapter>)
    requires WorldInv(w) && IsRun(AS_WRITTEN, w, between) && forall k ::
               0 <= k < |between| ==> Actor(between[k]) != Some(owner)
    requires owner in w.executors && w.executors[owner] == Executor(Resume, Checked)
    requires forall i ::
               0 <= i < |w.plan.ops| && !IsSuccess(w.plan.ops[i].status) ==> w.plan.ops[i].operation.kind in adapters
    ensures var w' := After(AS_WRITTEN, w, between);
            && |w'.dispatches| == |w'.plan.ops|
            && owner in w'.executors && w'.executors[owner] == Executor(Resume, Checked)
            && AdaptersCover(w'.plan.ops, adapters)
    decreases between
  {
    hide Next, Enabled, PlanInv, PassInv, LeaseInv, ExecutorInv;
    if between != [] {
      OthersLeaveAlone(w, between[0], owner);
      StepKeepsWorld(AS_WRITTEN, w, between[0]);
      StepEvolves(AS_WRITTEN, w, between[0]);
      StaysReady(Next(AS_WRITTEN, w, between[0]), between[1..], owner, adapters);
    }
  }

  /** Whatever the others do between the check and the claim, `ClaimResumed` may still be called:
      the checked executor waits where it was, and its adapters cover every row left to replay. */
  lemma CheckLasts(w: World, between: seq<Action>, owner: Token, adapters: map<string, Adapter>)
    requires WorldInv(w) && IsRun(AS_WRITTEN, w, between) && forall k ::
               0 <= k < |between| ==> Actor(between[k]) != Some(owner)
    requires owner in w.executors && w.executors[owner] == Executor(Resume, Checked)
    requires ResumableRows(w.plan.ops) && AdaptersCover(w.plan.ops, adapters)
    ensures var w' := After(AS_WRITTEN, w, between);
            && |w'.dispatches| == |w'.plan.ops|
            && owner in w'.executors && w'.executors[owner] == Executor(Resume, Checked)
            && AdaptersCover(w'.plan.ops, adapters)
  {
    hide WorldInv, IsRun, After;
    StaysReady(w, between, owner, adapters);
  }

  /** Claiming the plan touches neither rows nor counters, so calls count the same from before it. */
  lemma SameStart(w: World, w1: World, w': World, mode: Mode, calls: seq<nat>)
    requires w1.plan.ops == w.plan.ops && w1.dispatches == w.dispatches
    ensures CallsBroke(w1, w', calls) ==> CallsBroke(w, w', calls)
    ensures CallsComplete(w1, w', mode, calls) ==> CallsComplete(w, w', mode, calls)
  {
  }

  // ---------- The reconciler ----------

  type Reader = OperationPlan -> StateMap

  /** What a completed pass leaves of row `i`. */
  function Reconciled(row: OpRow, readers: map<string, Reader>): OpRow {
    if row.status == Issued || Unresolved(row.status) then
      var observed := if row.operation.kind in readers then readers[row.operation.kind](row.operation) else map[];
      row.(status := ReconciledStatus(row, observed), reconciled := true)
    else row
  }

  /** A second pass that observes the same changes nothing more: only a new observation, or
      nothing, ends an UNKNOWN. */
  lemma ReconciledTwice(row: OpRow, readers: map<string, Reader>)
    ensures Reconciled(Reconciled(row, readers), readers) == Reconciled(row, readers)
  {
    hide ReconcileOperationState;
  }

  /** What a pass makes of an undecided row: ready for replay if it was never claimed and nothing
      moved, undecided if it was claimed and nothing moved yet, and otherwise decided. */
  lemma ReconciledExactly(row: OpRow, readers: map<string, Reader>)
    requires row.operation.kind in readers
    ensures var after, observed := Reconciled(row, readers), readers[row.operation.kind](row.operation);
            var unmoved := observed == row.operation.expectedState && observed != row.operation.desiredState;
            var deleted := "DELETE_" <= row.operation.kind && "exists" in observed && observed["exists"] == Bool(false);
            && after.operation == row.operation && after.attempt == row.attempt
            && (after.reconciled <==> row.reconciled || NeedsSettling(row))
            && (!NeedsSettling(row) ==> after.status == row.status)
            && (row.status == Issued ==> after.status == RetryableNotApplied)
            && (Unresolved(row.status) ==>
                  && (after.status == RetryableNotApplied <==> unmoved && row.attempt == 0)
                  && (after.status == Unknown <==> unmoved && row.attempt > 0)
                  && (after.status == Applied <==> observed == row.operation.desiredState || (deleted && !unmoved))
                  && (after.status == Conflict <==> observed != row.operation.desiredState && !deleted && !unmoved))
  {
    hide ReconcileOperationState;
  }

  predicate NeedsSettling(row: OpRow) {
    row.status == Issued || Unresolved(row.status)
  }

  /** The row stops a pass: it is unresolved, and nobody can read its state. */
  predicate Stops(row: OpRow, readers: map<string, Reader>) {
    Unresolved(row.status) && row.operation.kind !in readers
  }

  /** Where a pass over the rows stops: at the first row that stops it, or at the end. */
  ghost predicate StopsAt(ops: seq<OpRow>, readers: map<string, Reader>, n: nat) {
    n <= |ops| && (forall i :: 0 <= i < n ==> !Stops(ops[i], readers)) && (n < |ops| ==> Stops(ops[n], readers))
  }

  /** The plan status once the first `n` rows are settled. */
  ghost predicate PassStatus(before: PlanRow, after: PlanRow, n: nat)
    requires n <= |before.ops|
  {
    after.status == if exists i :: 0 <= i < n && NeedsSettling(before.ops[i]) then Verdict(Statuses(after.ops))
                    else before.status
  }

  ghost predicate PassProgress(snapshot: seq<OpRow>, ops: seq<OpRow>, readers: map<string, Reader>, n: nat) {
    && |ops| == |snapshot|
    && (forall i :: 0 <= i < |ops| && i < n ==> ops[i] == Reconciled(snapshot[i], readers))
    && (forall i :: n <= i < |ops| ==> ops[i] == snapshot[i])
  }

  lemma PassOpens(w: World, now: int)
    requires w.pass.Idle? && BeginReconcile(w.plan, now).Ok?
    ensures var plan := BeginReconcile(w.plan, now).value;
            && IsRun(AS_WRITTEN, w, [PassBegin(now), PassReadStatus])
            && After(AS_WRITTEN, w, [PassBegin(now), PassReadStatus]) ==
                 w.(plan := plan, pass := if plan.status in {Unknown, LegacyUnknown, Partial} then Proceeding else Idle)
  {
    TwoSteps(AS_WRITTEN, w, PassBegin(now), PassReadStatus);
  }

  /** One round of the pass: the receipt of row `next`, if it needs one. */
  method ReconcileOne(store: SQLitePlanStore, planId: string, next: nat, snapshot: seq<OpRow>,
                      readers: map<string, Reader>, ghost w: World)
    returns (r: Result<(), StoreError>, ghost observed: StateMap)
    requires store.Valid() && planId in store.plans && store.plans[planId].lease.None?
    requires w.plan == store.plans[planId] && w.pass == Writing(snapshot, next) && next < |snapshot| == |w.plan.ops|
    requires w.plan.ops[next] == snapshot[next]
    requires Unresolved(snapshot[next].status) ==> snapshot[next].operation.kind in readers
    modifies store
    ensures store.Valid() && store.OnlyChanges(planId) && planId in store.plans
    ensures r.Ok? && store.plans[planId].lease.None?
    ensures Enabled(AS_WRITTEN, w, PassWrite(observed))
    ensures Next(AS_WRITTEN, w, PassWrite(observed))
            == w.(plan := store.plans[planId], pass := Writing(snapshot, next + 1))
    ensures store.plans[planId].ops == w.plan.ops[next := Reconciled(snapshot[next], readers)]
    ensures store.plans[planId].status == if NeedsSettling(snapshot[next]) then
                                            Verdict(Statuses(store.plans[planId].ops))
                                          else w.plan.status
    ensures store.plans[planId].expiresAt == w.plan.expiresAt
  {
    hide Verdict, ReconciledStatus;
    var row := snapshot[next];
    observed := if row.operation.kind in readers then readers[row.operation.kind](row.operation) else map[];
    if row.status != Issued && !Unresolved(row.status) {
      return Ok(()), observed;
    }
    StoredKeyFinds(store, planId, next);
    var status: ApplyStatus :=
      if row.status == Issued then RetryableNotApplied
      else ReconciledStatus(row, readers[row.operation.kind](row.operation));
    IssuedReplays(row, observed);
    r := store.RecordReconciliation(planId, row.operation.id, status);
    assert Statuses(store.plans[planId].ops) == Statuses(w.plan.ops)[next := status];
  }

  lemma IssuedReplays(row: OpRow, observed: StateMap)
    ensures row.status == Issued ==> ReconciledStatus(row, observed) == RetryableNotApplied
  {
  }

  lemma PassAdvances(snapshot: seq<OpRow>, ops: seq<OpRow>, readers: map<string, Reader>, n: nat)
    requires PassProgress(snapshot, ops, readers, n) && n < |snapshot|
    ensures |ops| == |snapshot| && ops[n] == snapshot[n]
    ensures PassProgress(snapshot, ops[n := Reconciled(snapshot[n], readers)], readers, n + 1)
  {
    hide Reconciled;
  }

  lemma PassStatusAdvances(before: PlanRow, plan: PlanRow, after: PlanRow, readers: map<string, Reader>, n: nat)
    requires n < |before.ops| && PassStatus(before, plan, n) && PassProgress(before.ops, plan.ops, readers, n)
    requires after.ops == plan.ops[n := Reconciled(before.ops[n], readers)]
    requires after.status == if NeedsSettling(before.ops[n]) then Verdict(Statuses(after.ops)) else plan.status
    ensures PassStatus(before, after, n + 1)
  {
    hide Verdict;
    if !NeedsSettling(before.ops[n]) {
      assert after.ops == plan.ops;
    }
  }

  /** The loop of the pass, from its snapshot on. */
  method SettleRows(store: SQLitePlanStore, planId: string, readers: map<string, Reader>, ghost w0: World)
    returns (stoppedAt: nat, ghost actions: seq<Action>)
    requires store.Valid() && planId in store.plans && store.plans[planId].lease.None?
    requires w0.plan == store.plans[planId] && w0.pass == Writing(w0.plan.ops, 0)
    modifies store
    ensures store.Valid() && store.OnlyChanges(planId) && planId in store.plans
    ensures Explains(w0, actions, store.plans[planId])
    ensures StopsAt(w0.plan.ops, readers, stoppedAt)
    ensures PassProgress(w0.plan.ops, store.plans[planId].ops, readers, stoppedAt)
    ensures PassStatus(w0.plan, store.plans[planId], stoppedAt) && store.plans[planId].lease == None
    ensures store.plans[planId].expiresAt == w0.plan.expiresAt
  {
    hide Next, Enabled, IsRun, After, Verdict, Reconciled, SQLitePlanStore.Valid;
    actions := [];
    NoSteps(AS_WRITTEN, w0);
    var snapshot := store.plans[planId].ops;
    ghost var w := w0;
    var next: nat := 0;
    while next < |snapshot|
      invariant store.Valid() && store.OnlyChanges(planId) && planId in store.plans && store.plans[planId].lease.None?
      invariant next <= |snapshot| && IsRun(AS_WRITTEN, w0, actions) && After(AS_WRITTEN, w0, actions) == w
      invariant w.plan == store.plans[planId] && w.pass == Writing(snapshot, next)
      invariant PassProgress(snapshot, w.plan.ops, readers, next)
      invariant PassStatus(w0.plan, w.plan, next) && w.plan.expiresAt == w0.plan.expiresAt
      invariant forall i :: 0 <= i < next ==> !Stops(snapshot[i], readers)
    {
      if Unresolved(snapshot[next].status) && snapshot[next].operation.kind !in readers {
        return next, actions;
      }
      PassAdvances(snapshot, w.plan.ops, readers, next);
      var settled, observed := ReconcileOne(store, planId, next, snapshot, readers, w);
      PassStatusAdvances(w0.plan, w.plan, store.plans[planId], readers, next);
      Extend(AS_WRITTEN, w0, actions, PassWrite(observed));
      actions := actions + [PassWrite(observed)];
      w := After(AS_WRITTEN, w0, actions);
      next := next + 1;
    }
    stoppedAt := next;
  }

  /** The plan is one that a pass has something to do with. */
  predicate PassWorks(plan: PlanRow) {
    plan.status in {Executing, Unknown, LegacyUnknown, Partial}
  }

  /** `reconcile`: fence, take one snapshot, then settle the rows in order. Uninterrupted, it
      settles every row with a reader and stops at the first unresolved row without one. */
  method Reconcile(store: SQLitePlanStore, planId: string, readers: map<string, Reader>, now: int, ghost w0: World)
    returns (r: Result<(), ExecutionError>, stoppedAt: nat, ghost actions: seq<Action>)
    requires store.Valid() && planId in store.plans && w0.plan == store.plans[planId] && w0.pass.Idle?
    modifies store
    ensures store.Valid() && store.OnlyChanges(planId) && planId in store.plans
    ensures Explains(w0, actions, store.plans[planId])
    ensures r == Err(Store(LeaseActive)) <==> !LeaseFree(w0.plan, now)
    ensures r == Err(AdapterMissing) <==> LeaseFree(w0.plan, now) && PassWorks(w0.plan) && stoppedAt < |w0.plan.ops|
    ensures r.Err? ==> r == Err(Store(LeaseActive)) || r == Err(AdapterMissing)
    ensures !LeaseFree(w0.plan, now) || !PassWorks(w0.plan) ==> store.plans == old(store.plans)
    ensures LeaseFree(w0.plan, now) && PassWorks(w0.plan) ==>
              && StopsAt(w0.plan.ops, readers, stoppedAt)
              && PassProgress(w0.plan.ops, store.plans[planId].ops, readers, stoppedAt)
              && PassStatus(w0.plan.(status := if w0.plan.status == Executing then Unknown else w0.plan.status),
                            store.plans[planId], stoppedAt)
              && store.plans[planId].lease == None && store.plans[planId].expiresAt == w0.plan.expiresAt
  {
    hide Next, Enabled, IsRun, After, Verdict, Reconciled;
    var begun := store.Begin(planId, now);
    if begun.Err? {
      NoSteps(AS_WRITTEN, w0);
      return Err(Store(begun.error)), 0, [];
    }
    actions := [PassBegin(now), PassReadStatus];
    PassOpens(w0, now);
    if store.plans[planId].status !in {Unknown, LegacyUnknown, Partial} {
      return Ok(()), 0, actions;
    }
    SnapshotStep(w0, actions, After(AS_WRITTEN, w0, actions));
    actions := actions + [PassSnapshot];
    ghost var writes;
    stoppedAt, writes := SettleRows(store, planId, readers, After(AS_WRITTEN, w0, actions));
    RunsCompose(AS_WRITTEN, w0, actions, writes);
    actions := actions + writes;
    r := if stoppedAt < |store.plans[planId].ops| then Err(AdapterMissing) else Ok(());
  }

  lemma SnapshotStep(w0: World, actions: seq<Action>, w: World)
    requires IsRun(AS_WRITTEN, w0, actions) && After(AS_WRITTEN, w0, actions) == w && w.pass.Proceeding?
    ensures IsRun(AS_WRITTEN, w0, actions + [PassSnapshot])
    ensures After(AS_WRITTEN, w0, actions + [PassSnapshot]) == w.(pass := Writing(w.plan.ops, 0))
  {
    Extend(AS_WRITTEN, w0, actions, PassSnapshot);
  }
}
