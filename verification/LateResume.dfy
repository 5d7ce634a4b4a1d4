/** When operations stay in plan order, and when dependencies are done first: `resume` reads the
    rows, then claims the plan, in two transactions, and what it read can change in between for
    every operation but the first. */
module LateResume {
  import opened Wrappers
  import opened WritePlan
  import opened PlanStore
  import opened WriteProtocol
  import opened ProtocolInvariants
  import opened PrefixExecution
  import opened FirstOperation
  import opened ReconcileRace
  import opened ProtocolSteps

  const LATE := "late resumer"

  function CrashRows(plan: PlanRow, k: nat): seq<OpRow>
    requires 1 <= |plan.ops|
  {
    seq(|plan.ops|, i requires 0 <= i < |plan.ops| => if 1 <= i < k then Replayable(plan.ops[i])
                                                      else FirstApplied(plan)[i])
  }

  /** The confirm executor crashed after its first success; the pass has written rows 1..k. */
  ghost function CrashWorld(plan: PlanRow, k: nat): World
    requires 2 <= |plan.ops| && 1 <= k <= |plan.ops|
  {
    World(
      PlanRow(plan.expiresAt, Partial, None, CrashRows(plan, k)),
      map[CONFIRMER := Executor(Confirm, Looping(Statuses(plan.ops), 1))],
      Writing(FirstApplied(plan), k),
      Start(plan).dispatches[0 := 1])
  }

  lemma CrashAfterFirst(d: Discipline, plan: PlanRow) returns (actions: seq<Action>)
    requires Fresh(plan) && |plan.ops| >= 2
    ensures IsRun(d, Start(plan), actions) && After(d, Start(plan), actions) == CrashWorld(plan, 1)
  {
    hide Next, Enabled, Verdict, VerdictAfter, IsRun, After;
    var w0 := Start(plan);
    actions := ConfirmAppliesFirst(d, w0);
    PassOpens(d, After(d, w0, actions), LEASE);
    RunsCompose(d, w0, actions, [PassBegin(LEASE)] + [PassReadStatus, PassSnapshot]);
    actions := actions + ([PassBegin(LEASE)] + [PassReadStatus, PassSnapshot]);
    SettledStep(d, After(d, w0, actions));
    Extend(d, w0, actions, PassWrite(map[]));
    actions := actions + [PassWrite(map[])];
    assert After(d, w0, actions).plan.ops == CrashRows(plan, 1);
  }

  lemma {:induction false} PassWritesRest(d: Discipline, plan: PlanRow, k: nat) returns (actions: seq<Action>)
    requires Fresh(plan) && 2 <= |plan.ops| && 1 <= k <= |plan.ops|
    ensures IsRun(d, CrashWorld(plan, k), actions)
    ensures After(d, CrashWorld(plan, k), actions) == CrashWorld(plan, |plan.ops|)
    decreases |plan.ops| - k
  {
    hide Next, Enabled, IsRun, After, Verdict, VerdictAfter;
    NoSteps(d, CrashWorld(plan, k));
    actions := [];
    if k < |plan.ops| {
      var w := CrashWorld(plan, k);
      PartialAfter(w.plan, k, RetryableNotApplied, 0, k);
      ReplayStep(d, w);
      OneStep(d, w, PassWrite(map[]));
      assert After(d, w, [PassWrite(map[])]).plan.ops == CrashRows(plan, k + 1);
      var rest := PassWritesRest(d, plan, k + 1);
      RunsCompose(d, w, [PassWrite(map[])], rest);
      actions := [PassWrite(map[])] + rest;
    }
  }

  /** The executor applies its operations up to `to`. */
  lemma {:induction false} CarryThrough(d: Discipline, w: World, t: Token, to: nat) returns (actions: seq<Action>)
    requires t in w.executors && w.executors[t].phase.Looping? && w.executors[t].phase.next <= to < |w.plan.ops|
    requires var phase := w.executors[t].phase;
             && |phase.read| == |w.plan.ops| == |w.dispatches|
             && forall k :: phase.next <= k < to ==>
                  ClaimableBy(w.executors[t].mode, phase.read[k]) && w.plan.ops[k].status == RetryableNotApplied
    requires w.plan.status == Partial && w.plan.lease == Some(Lease(t, LEASE)) && !IsSuccess(w.plan.ops[to].status)
    ensures IsRun(d, w, actions)
    ensures var w' := After(d, w, actions);
            var phase := w.executors[t].phase;
            && w'.plan.status == Partial && w'.plan.lease == w.plan.lease
            && |w'.plan.ops| == |w.plan.ops| == |w'.dispatches|
            && (forall k :: 0 <= k < |w.plan.ops| && !(phase.next <= k < to) ==> w'.plan.ops[k] == w.plan.ops[k])
            && (forall k :: phase.next <= k < to ==> IsSuccess(w'.plan.ops[k].status))
            && w'.executors == w.executors[t := Executor(w.executors[t].mode, Looping(phase.read, to))]
    decreases |w.plan.ops| - w.executors[t].phase.next
  {
    hide Next, Enabled, IsRun, After, Verdict, VerdictAfter;
    var from := w.executors[t].phase.next;
    if from < to {
      PartialAfter(w.plan, from, Applied, from, to);
      actions := CarryOut(d, w, t, from, Applied);
      var rest := CarryThrough(d, CarriedOut(w, t, from, Applied), t, to);
      RunsCompose(d, w, actions, rest);
      actions := actions + rest;
    } else {
      NoSteps(d, w);
      actions := [];
      assert w.executors == w.executors[t := Executor(w.executors[t].mode, Looping(w.executors[t].phase.read, to))];
    }
  }

  lemma {:induction false} SkipThrough(d: Discipline, w: World, t: Token, to: nat) returns (actions: seq<Action>)
    requires t in w.executors && w.executors[t].phase.Looping?
    requires var phase := w.executors[t].phase;
             && phase.next <= to <= |phase.read|
             && forall k :: phase.next <= k < to ==> !ClaimableBy(w.executors[t].mode, phase.read[k])
    ensures IsRun(d, w, actions)
    ensures After(d, w, actions) ==
              w.(executors := w.executors[t := Executor(w.executors[t].mode, Looping(w.executors[t].phase.read, to))])
    decreases |w.executors[t].phase.read| - w.executors[t].phase.next
  {
    hide Next, Enabled, IsRun, After;
    var phase := w.executors[t].phase;
    if phase.next < to {
      SkipStep(d, w, t);
      OneStep(d, w, Skip(t));
      var rest := SkipThrough(d, SetPhase(w, t, Looping(phase.read, phase.next + 1)), t, to);
      RunsCompose(d, w, [Skip(t)], rest);
      actions := [Skip(t)] + rest;
    } else {
      NoSteps(d, w);
      actions := [];
      assert w.executors == w.executors[t := Executor(w.executors[t].mode, Looping(phase.read, to))];
    }
  }

  /** One resume is checked; another one overtakes it, is told CONFLICT on operation `j` and
      gives the lease back. */
  lemma Overtaken(d: Discipline, w: World, j: nat) returns (actions: seq<Action>)
    requires !d.atomicResume && w.plan.status == Partial && w.plan.lease == None
    requires LATE !in w.executors && RESUMER !in w.executors
    requires 1 <= j < |w.plan.ops| == |w.dispatches| && ResumableRows(w.plan.ops)
    requires IsSuccess(w.plan.ops[0].status)
    requires forall k :: 1 <= k < |w.plan.ops| ==> w.plan.ops[k].status == RetryableNotApplied
    ensures IsRun(d, w, actions)
    ensures var w' := After(d, w, actions);
            && w'.plan.status == Partial && w'.plan.lease == None
            && LATE in w'.executors && w'.executors[LATE] == Executor(Resume, Checked)
            && |w'.plan.ops| == |w.plan.ops| == |w'.dispatches|
            && (forall k :: 0 <= k < j ==> IsSuccess(w'.plan.ops[k].status)) && w'.plan.ops[j].status == Conflict
            && (forall k :: j < k < |w.plan.ops| ==> w'.plan.ops[k] == w.plan.ops[k])
  {
    hide Next, Enabled, IsRun, After, Verdict, VerdictAfter;
    actions := [ResumeReadStatus(LATE), ResumeReadRows(LATE)];
    CheckSteps(d, w, LATE);
    var reaching := ResumeReachesSecond(d, After(d, w, actions));
    RunsCompose(d, w, actions, reaching);
    actions := actions + reaching;
    var applied := CarryThrough(d, After(d, w, actions), RESUMER, j);
    RunsCompose(d, w, actions, applied);
    actions := actions + applied;
    var reached := After(d, w, actions);
    PartialAfter(reached.plan, j, Conflict, 0, j);
    var told := CarryOut(d, reached, RESUMER, j, Conflict);
    RunsCompose(d, w, actions, told);
    actions := actions + told;
  }

  /** The late resume claims the plan, skips the conflicting operation and goes on to operation `i`. */
  lemma ClaimsPastConflict(d: Discipline, w: World, j: nat, i: nat) returns (actions: seq<Action>)
    requires w.plan.status == Partial && w.plan.lease == None
    requires LATE in w.executors && w.executors[LATE] == Executor(Resume, Checked)
    requires j < i < |w.plan.ops| == |w.dispatches| && w.plan.ops[j].status == Conflict
    requires forall k :: 0 <= k < j ==> IsSuccess(w.plan.ops[k].status)
    requires forall k :: j < k < |w.plan.ops| ==> w.plan.ops[k].status == RetryableNotApplied
    ensures IsRun(d, w, actions) && !ClaimedBehind(After(d, w, actions).plan.ops, j, i)
  {
    hide Next, Enabled, IsRun, After, Verdict, VerdictAfter;
    LateStep(d, w, LATE, LEASE, 0);
    ReadStep(d, Next(d, w, ResumeClaim(LATE, LEASE, 0)), LATE);
    actions := [ResumeClaim(LATE, LEASE, 0), ReadRows(LATE)];
    TwoSteps(d, w, actions[0], actions[1]);
    var skips := SkipThrough(d, After(d, w, actions), LATE, j + 1);
    RunsCompose(d, w, actions, skips);
    actions := actions + skips;
    var applied := CarryThrough(d, After(d, w, actions), LATE, i);
    RunsCompose(d, w, actions, applied);
    actions := actions + applied;
    AnswerSteps(d, After(d, w, actions), LATE, i, ATTEMPT, LEASE, 0, Applied);
    RunsCompose(d, w, actions, [ClaimNext(LATE, ATTEMPT, LEASE, 0), Dispatch(LATE, Applied)]);
    actions := actions + [ClaimNext(LATE, ATTEMPT, LEASE, 0), Dispatch(LATE, Applied)];
  }

  lemma OutOfOrder(d: Discipline, plan: PlanRow, j: nat, i: nat) returns (actions: seq<Action>)
    requires Fresh(plan) && 1 <= j < i < |plan.ops| && !d.atomicResume
    ensures IsRun(d, Start(plan), actions) && !ClaimedBehind(After(d, Start(plan), actions).plan.ops, j, i)
  {
    hide IsRun, After;
    var crash := CrashAfterFirst(d, plan);
    var writes := PassWritesRest(d, plan, 1);
    var w := CrashWorld(plan, |plan.ops|);
    assert w.plan.ops[1].status == RetryableNotApplied;
    var overtaking := Overtaken(d, w, j);
    var late := ClaimsPastConflict(d, After(d, w, overtaking), j, i);
    RunsCompose(d, Start(plan), crash, writes);
    RunsCompose(d, Start(plan), crash + writes, overtaking);
    RunsCompose(d, Start(plan), crash + writes + overtaking, late);
    actions := crash + writes + overtaking + late;
  }

  // ---------- Plan order, exactly ----------

  /** Operation `i` is claimed only after operation `j` succeeded. */
  ghost predicate ClaimedBehind(ops: seq<OpRow>, j: nat, i: nat) {
    i < |ops| && j < |ops| && ops[i].attempt > 0 ==> IsSuccess(ops[j].status)
  }

  ghost predicate AlwaysBehind(d: Discipline, plan: PlanRow, j: nat, i: nat)
    requires Fresh(plan)
  {
    forall actions :: IsRun(d, Start(plan), actions) ==> ClaimedBehind(After(d, Start(plan), actions).plan.ops, j, i)
  }

  /** What every run keeps: all of plan order, or that of the first operation. */
  lemma RunsKeepOrder(d: Discipline, plan: PlanRow, actions: seq<Action>)
    requires Fresh(plan) && IsRun(d, Start(plan), actions)
    ensures d.atomicResume ==> ClaimedInOrder(After(d, Start(plan), actions).plan.ops)
    ensures |plan.ops| >= 2 ==> FirstBeforeRest(After(d, Start(plan), actions).plan.ops)
    ensures |After(d, Start(plan), actions).plan.ops| == |plan.ops|
  {
    StartInv(plan);
    RunKeepsWorld(d, Start(plan), actions);
    if d.atomicResume {
      AtomicRunKeepsOrder(d, Start(plan), actions);
    }
    RunKeepsFirst(d, Start(plan), actions);
  }

  /** For any two operations, the claim of the later one always finds the earlier one durably
      done exactly when resume checks and claims in one step, or the earlier one is the first. */
  lemma OrderExactly(d: Discipline, plan: PlanRow, j: nat, i: nat)
    requires Fresh(plan) && j < i < |plan.ops|
    ensures AlwaysBehind(d, plan, j, i) <==> d.atomicResume || j == 0
  {
    hide IsRun, After;
    if d.atomicResume || j == 0 {
      forall actions | IsRun(d, Start(plan), actions)
        ensures ClaimedBehind(After(d, Start(plan), actions).plan.ops, j, i)
      {
        RunsKeepOrder(d, plan, actions);
      }
    } else {
      var actions := OutOfOrder(d, plan, j, i);
    }
  }

  /** Every claim in every run finds all earlier operations durably done exactly when resume
      checks and claims in one step, or the plan has at most two operations. */
  lemma PrefixExecutionExactly(d: Discipline, plan: PlanRow)
    requires Fresh(plan)
    ensures AlwaysInOrder(d, plan) <==> d.atomicResume || |plan.ops| <= 2
  {
    hide IsRun, After;
    if d.atomicResume || |plan.ops| <= 2 {
      forall actions | IsRun(d, Start(plan), actions)
        ensures ClaimedInOrder(After(d, Start(plan), actions).plan.ops)
      {
        RunsKeepOrder(d, plan, actions);
      }
    } else {
      var actions := OutOfOrder(d, plan, 1, 2);
      assert !PrefixDone(After(d, Start(plan), actions).plan.ops, 2);
    }
  }

  // ---------- Dependencies ----------

  function Operations(ops: seq<OpRow>): seq<OperationPlan> {
    seq(|ops|, k requires 0 <= k < |ops| => ops[k].operation)
  }

  ghost predicate DoneBefore(ops: seq<OpRow>, i: nat, dependency: string) {
    exists j :: 0 <= j < i && j < |ops| && ops[j].operation.id == dependency && IsSuccess(ops[j].status)
  }

  /** A claimed operation's dependencies are done. */
  ghost predicate DependenciesMet(ops: seq<OpRow>) {
    forall i, dependency :: 0 <= i < |ops| && ops[i].attempt > 0 && dependency in ops[i].operation.dependsOn ==>
      DoneBefore(ops, i, dependency)
  }

  ghost predicate AlwaysDependenciesMet(d: Discipline, plan: PlanRow)
    requires Fresh(plan)
  {
    forall actions :: IsRun(d, Start(plan), actions) ==> DependenciesMet(After(d, Start(plan), actions).plan.ops)
  }

  /** No operation depends on another one than the first. */
  predicate OnlyOnFirst(ops: seq<OpRow>) {
    forall i | 0 <= i < |ops| :: forall dependency | dependency in ops[i].operation.dependsOn ::
      dependency == ops[0].operation.id
  }

  lemma OperationsKept(d: Discipline, plan: PlanRow, actions: seq<Action>)
    requires Fresh(plan) && IsRun(d, Start(plan), actions)
    ensures Operations(After(d, Start(plan), actions).plan.ops) == Operations(plan.ops)
  {
    StartInv(plan);
    RunKeepsWorld(d, Start(plan), actions);
  }

  /** A dependency is met when the operation it names is in order before the claimed one. */
  lemma DependencyFound(plan: PlanRow, ops: seq<OpRow>, i: nat, dependency: string) returns (j: nat)
    requires WellOrdered(Operations(plan.ops)) && Operations(ops) == Operations(plan.ops)
    requires i < |ops| && dependency in ops[i].operation.dependsOn
    ensures j < i && ops[j].operation.id == dependency == plan.ops[j].operation.id
    ensures |ops| == |plan.ops| && plan.ops[i].operation == ops[i].operation
    ensures ops[i].attempt > 0 ==> (DoneBefore(ops, i, dependency) <==> ClaimedBehind(ops, j, i))
  {
    var operations := Operations(ops);
    assert operations[i] == ops[i].operation && Operations(plan.ops)[i] == plan.ops[i].operation;
    assert dependency in operations[i].dependsOn;
    j :| 0 <= j < i && operations[j].id == dependency;
    assert Operations(plan.ops)[j] == plan.ops[j].operation;
    forall k | 0 <= k < i && ops[k].operation.id == dependency
      ensures k == j
    {
      assert operations[k].id == operations[j].id;
    }
  }

  /** A claimed operation's dependencies are done if check and claim are one step, or all of
      them name the first operation. */
  lemma DependenciesDone(d: Discipline, plan: PlanRow, actions: seq<Action>)
    requires Fresh(plan) && (d.atomicResume || OnlyOnFirst(plan.ops))
    requires WellOrdered(Operations(plan.ops)) && IsRun(d, Start(plan), actions)
    ensures DependenciesMet(After(d, Start(plan), actions).plan.ops)
  {
    hide IsRun, After, WellOrdered, Operations, DoneBefore;
    var ops := After(d, Start(plan), actions).plan.ops;
    RunsKeepOrder(d, plan, actions);
    OperationsKept(d, plan, actions);
    forall i, dependency | 0 <= i < |ops| && ops[i].attempt > 0 && dependency in ops[i].operation.dependsOn
      ensures DoneBefore(ops, i, dependency)
    {
      var j := DependencyFound(plan, ops, i, dependency);
      if !d.atomicResume {
        FirstIsFirst(plan, j);
      }
    }
  }

  lemma FirstIsFirst(plan: PlanRow, j: nat)
    requires WellOrdered(Operations(plan.ops)) && j < |plan.ops|
    ensures plan.ops[j].operation.id == plan.ops[0].operation.id ==> j == 0
  {
    assert Operations(plan.ops)[j] == plan.ops[j].operation && Operations(plan.ops)[0] == plan.ops[0].operation;
  }

  /** In every run every claimed operation's dependencies are durably done exactly when resume
      checks and claims in one step, or operations depend on the first one only. */
  lemma DependenciesExactly(d: Discipline, plan: PlanRow)
    requires Fresh(plan) && WellOrdered(Operations(plan.ops))
    ensures AlwaysDependenciesMet(d, plan) <==> d.atomicResume || OnlyOnFirst(plan.ops)
  {
    hide IsRun, After, WellOrdered, Operations, DoneBefore, Fresh;
    if d.atomicResume || OnlyOnFirst(plan.ops) {
      forall actions | IsRun(d, Start(plan), actions)
        ensures DependenciesMet(After(d, Start(plan), actions).plan.ops)
      {
        DependenciesDone(d, plan, actions);
      }
    } else {
      var i, dependency :| 0 <= i < |plan.ops| && dependency in plan.ops[i].operation.dependsOn
                           && dependency != plan.ops[0].operation.id;
      var j := DependencyFound(plan, plan.ops, i, dependency);
      var actions := OutOfOrder(d, plan, j, i);
      var ops := After(d, Start(plan), actions).plan.ops;
      OperationsKept(d, plan, actions);
      SameDependency(plan, ops, i, dependency, j);
      assert !DependenciesMet(ops);
    }
  }

  lemma SameDependency(plan: PlanRow, ops: seq<OpRow>, i: nat, dependency: string, j: nat)
    requires WellOrdered(Operations(plan.ops)) && Operations(ops) == Operations(plan.ops)
    requires i < |plan.ops| && dependency in plan.ops[i].operation.dependsOn
    requires j < |plan.ops| && plan.ops[j].operation.id == dependency && !ClaimedBehind(ops, j, i)
    ensures |ops| == |plan.ops| && dependency in ops[i].operation.dependsOn && ops[i].attempt > 0
    ensures !DoneBefore(ops, i, dependency)
  {
    assert Operations(ops)[i] == Operations(plan.ops)[i] && Operations(ops)[j] == Operations(plan.ops)[j];
    var k := DependencyFound(plan, ops, i, dependency);
    assert Operations(ops)[k] == ops[k].operation;
  }
}
