# Durable writes, safe reads and extracted graphs

This project models the parts of the HugeGraph MCP server and of the HugeGraph extraction runtime where a mistake would
be silent: a write performed twice, an unsafe query let through, two vertices merged by the server. Dafny proves the
properties below for every input, every run and every reachable state of the model; where the code falls short of a
promise, the exact condition under which the promise holds is proved instead, together with a concrete counterexample.

`dafny verify dfyconfig.toml` verifies everything.

## The durable write protocol

`WritePlan`, `PlanStore`, `WriteProtocol`, `ProtocolSteps`, `ProtocolInvariants`, `AtMostOnce`, `ReconcileRace`,
`PrefixExecution`, `FirstOperation`, `LateResume`, `ProtocolTheorems`, `LostReceipts`, `ExecutorLoop`, `WriteExecutor`.

A write plan is a row with a lease and a list of operation rows. `PlanStore` gives each SQLite transaction as a
function on one plan and as a method of the class `SQLitePlanStore`. `WriteProtocol` is a state machine: any number of
confirm and resume executors and one reconcile pass at a time interleave single transactions, each with its own
arbitrary clock reading, and any of them may stop for ever at any point. A ghost counter per operation counts adapter
calls. `WriteExecutor` holds the real loops (`confirm`, `resume`, `_execute_claimed`, `reconcile`) and proves that each
of them performs a run of that machine, so all laws about runs bind them; `resume` comes in its three transactions,
between which others may act (`CheckLasts`).

Two promises turn out to depend on how the callers use the store; a `Discipline` names the two habits.

- *At most one dispatch per operation.* `begin_reconcile` lets a plan in status ISSUED pass without a fence and then
  commits. If a confirm executor claims the plan, completes its first operation (the plan becomes PARTIAL) before the
  pass reads the plan again, and then gets UNKNOWN for its second operation after the pass took its snapshot, the pass
  overwrites that UNKNOWN with RETRYABLE_NOT_APPLIED from its stale row, and a resume dispatches the operation again.
  `AtMostOnceExactly`: all runs are at-most-once if and only if passes are started only on plans seen in another
  status than ISSUED, or the plan has at most one operation. That caller's check never goes stale
  (`IssuedNeverReturns`).
- *Plan order.* `resume` reads the rows in one transaction and claims the plan in another. `OrderExactly`: of two
  operations, the later one is claimed only after the earlier one succeeded if and only if check and claim are one
  step, or the earlier one is the first of the plan; the first operation is never passed (`RunKeepsFirst`). So whole
  plan order needs one step or a plan of at most two operations (`PrefixExecutionExactly`), and dependencies are done
  before a claim if and only if check and claim are one step or operations depend on the first one only
  (`DependenciesExactly`).

Verdict coherence, absorption of success, fencing of old tokens and the exact set of refused receipts need no
discipline. The refused receipts are a gap of the transition table: a PARTIAL plan cannot become ALREADY_APPLIED and an
EXECUTING one cannot become RETRYABLE_NOT_APPLIED. Both are reached from fresh plans: when the adapters answer
ALREADY_APPLIED for every operation, the last receipt is refused, and when a plan is claimed, given up, reconciled and
resumed, a REJECTED for its first operation is refused. `LostReceiptsExactly`: under every discipline, some run refuses
the fenced receipt of the lease holder if and only if the outcome is one of these two and the plan has at least two
operations. `RefusalStrands`: the plan is then left as it was, with the dispatched operation EXECUTING.

Left alone, the executor is fully determined: `ConfirmPlan`, `ResumePlan` and `Reconcile` say when each refusal is
given, and otherwise do what `ExecutorLoop` says of the claimed plan. While every clock reading stays inside the lease
as the claims renew it, a confirm of a fresh plan fails exactly when all of two or more operations were found already
applied (`ConfirmInTime`, the lost receipt again); when all adapters answer APPLIED, everything ends APPLIED
(`ConfirmApplies`).

## The Gremlin read policy and the query printer

`GremlinScanner`, `ScannerLaws`, `SecondScan`, `FoldedLiterals`, `GremlinPolicy`, `SafeStructure`, `StrayLiterals`,
`UnsafeQueries`, `ReadSafety`, `GroovyPrinter`, `ValueReader`, `PrintedTokens`, `PrintedQueries`, `PrintedMarkers`,
`PrintedSafety`, with `Spelling` for positions in sequences and `Characters` for whitespace.

The scanner, the adjacency check, the stack-based analysis and the printer are the source's loops, each proved against
a recursive specification. Scanning loses nothing, and scanning the normalized text again finds the same tokens exactly
when no literal with a one-character delimiter spans a line feed. The cost check relies on that second scan; it sees
the methods of the query exactly when none is called after such a literal, and misses the limit of a safe query
otherwise (`LimitIsLost`). The arguments of a `safe` query nest properly, and the query is `g` followed by a chain of
member calls that starts with V or E exactly when every bracket that closes at depth 0 ends it or is followed by a dot
(`SafeChainsExactly`). The adjacency check is there to ensure that, but returns as soon as it meets an empty map `[:]`,
so the rest of the query goes unchecked: a query without an empty map is always such a chain, and a stray `true` on a
new line after a safe query is accepted exactly when the query contains an empty map. `g.V([:])` is such a chain, and
with the stray literal behind it a safe query that is none.

A query is `unsafe` exactly when one of its tokens is a write step that follows a dot or is called; nothing else that is
wrong with it changes that (`UnsafeExactly`). `SafeExactly` says when it is `safe` without any loop: of each token, of
each pair of neighbours up to the first empty map, and of the brackets as a text of a grammar.

Every printed match query, with either suffix, is `safe` exactly when no string in it carries `${`, `#{` or `->`, and
otherwise `uncertain`, never `unsafe`; its tokens are those of its parts, whatever the strings contain. A reader that
knows only digits, Groovy's escapes and brackets gives every printed value back, except that an empty map comes back as
an empty list: `_g` prints both as `[]`, which is Groovy's empty list (`ReadsBackExactly`).

## Property graphs

`Powers`, `Float32`, `Float32Laws`, `PropertySchema`, `GraphNormalization`, `NormalizationLaws`, `GraphValidation`,
`GraphLaws`, `IssueMeaning`, `DateKeys`, `ListDates`, `SchemaDates`.

`_float_identity` is proved to be roundTiesToEven of section 4.3.1 of IEEE 754-2019 for every ratio, and its result to
be the only correct one, monotone, and the identity on representable values; a FLOAT is accepted exactly when its
rounding is finite. Normalisation changes a `Graph` object in place; it is idempotent and edges keep naming the
vertices they named. Validation reports no issue exactly when the graph meets a declarative definition of soundness. In
a graph without issues the composite primary keys of two vertices of a label stay distinct for every server time zone,
unless both give a list for the same DATE: lists are compared by their text only. `TimezoneProofExactly`: under a
schema the keys of all graphs without issues are proof against time zones if and only if no vertex in order holds a
list under a DATE among its primary keys, which is to say that no such key of a vertex in order has cardinality LIST,
SET or none (`NoListDatesExactly`). `ValidationProofExactly` says the same of the graphs that `validate` leaves, and
`TimezoneProofBySchema` reads the condition off the schema: no label whose required properties are all declared has a
DATE among its primary keys with such a cardinality. Necessity takes two lists, of the number 0 and of a text that
reads as the epoch, and needs what the uninterpreted functions do with them: their JSON texts differ, and so do the
identifiers made of primary keys.

## The confirmation ledger, the schema batch and the review loop

`ConfirmationLedger` keeps three tables in a class and proves, over every interleaving of transactions with any clock
readings, that each nonce and each plan hash is consumed at most once although the cleanup deletes consumed rows, and
exactly when a consumption succeeds. `SchemaBatch` holds the two-pass validation of schema operations, down to the
checks of one field, each a method proved against the faults that a function defines; `SchemaReplay` proves that a
batch is valid exactly when its objects can be created one by one, and that validity splits at any point of the batch.
`ReviewLoop` is `run_chunk` for every behaviour of the four calls, exceptions included, with a trace of the calls that
explains the result.

## Model

| member | source | states |
|---|---|---|
| WritePlan.AggregatePersistedStatuses | hugegraph-mcp/hugegraph_mcp/plan_store.py:564-585 | the loop over the rows computes the verdict that membership alone defines |
| WritePlan.TransitionsExactly | hugegraph-mcp/hugegraph_mcp/write_plan.py:56-91 | from which statuses each status can be reached, and that decided plans stay as they are |
| WritePlan.VerdictHonest | hugegraph-mcp/hugegraph_mcp/plan_store.py:564-585 | a verdict is a success exactly when all rows are, and PARTIAL exactly when successes stand beside other rows or evidence without success contains PARTIAL |
| WritePlan.VerdictCautious | hugegraph-mcp/hugegraph_mcp/plan_store.py:564-585 | without a success the most cautious status among the rows decides, and a plan is REJECTED exactly when a row is and nothing else is known |
| WritePlan.CheckOperations | hugegraph-mcp/hugegraph_mcp/write_plan.py:161-181 | accepted exactly when ids are distinct and every dependency names an earlier operation |
| PlanStore.SQLitePlanStore.SavePlan | hugegraph-mcp/hugegraph_mcp/plan_store.py:138-184 | succeeds exactly when no primary key is taken, and then stores fresh rows; otherwise nothing changes |
| PlanStore.SQLitePlanStore.Transition | hugegraph-mcp/hugegraph_mcp/plan_store.py:225-257 | the whole new state and the error, including the order in which the two refusals are found |
| PlanStore.SQLitePlanStore.Claim | hugegraph-mcp/hugegraph_mcp/plan_store.py:259-313 | elects the caller exactly when the plan is claimable and its lease free; the new status and lease; other plans untouched |
| PlanStore.SQLitePlanStore.ClaimOp | hugegraph-mcp/hugegraph_mcp/plan_store.py:315-383 | claims the row found by its key under the live lease, raises the attempt by one, renews the lease, or fails with the right error and changes nothing |
| PlanStore.SQLitePlanStore.Record | hugegraph-mcp/hugegraph_mcp/plan_store.py:385-473 | accepts only a fenced receipt with a legal transition, stores row and verdict, keeps or drops the lease |
| PlanStore.SQLitePlanStore.Begin | hugegraph-mcp/hugegraph_mcp/plan_store.py:475-518 | refuses a live lease, fences an expired one, leaves decided and ISSUED plans as they are |
| PlanStore.SQLitePlanStore.RecordReconciliation | hugegraph-mcp/hugegraph_mcp/plan_store.py:520-562 | needs a cleared lease and an undecided row; marks the row reconciled and stores the verdict without the transition table |
| WriteProtocol.ReconcileOperationState | hugegraph-mcp/hugegraph_mcp/reconciler.py:53-68 | when an observed state counts as applied or as replayable |
| WriteProtocol.DeletionsReconciled | hugegraph-mcp/hugegraph_mcp/reconciler.py:53-68 | a deletion counts as applied exactly when the object is observed to be gone, and as replayable exactly when nothing moved |
| WriteProtocol.NoChangeReconciled | hugegraph-mcp/hugegraph_mcp/reconciler.py:53-68 | an operation whose desired state is the expected one is never replayable |
| WriteProtocol.RunsCompose | hugegraph-mcp/hugegraph_mcp/write_executor.py:67-214 | runs of the protocol compose, so a crash or a stall splits a run anywhere |
| ProtocolInvariants.RunKeepsWorld | hugegraph-mcp/hugegraph_mcp/plan_store.py:259-585 | every run keeps plan, lease, executor and pass invariants; attempts never fall, success is never undone |
| AtMostOnce.RunKeepsOnce | hugegraph-mcp/hugegraph_mcp/plan_store.py:324-383 | the invariant behind at-most-once: claimable rows have attempt 0, every claim is spent once, and a pass's snapshot is not stale where it matters |
| ReconcileRace.DispatchedTwice | hugegraph-mcp/hugegraph_mcp/reconciler.py:91-166 | a run that dispatches the second operation of any plan twice, when a pass may start on an ISSUED plan |
| ReconcileRace.AtMostOnceExactly | hugegraph-mcp/hugegraph_mcp/write_executor.py:110-214 | in all runs each adapter is called at most once and attempts stay at most 1, if and only if passes start only on plans not ISSUED or the plan has one operation |
| ReconcileRace.IssuedNeverReturns | hugegraph-mcp/hugegraph_mcp/plan_store.py:475-518 | a plan that left ISSUED never returns to it |
| PrefixExecution.AtomicRunKeepsOrder | hugegraph-mcp/hugegraph_mcp/write_executor.py:115-157 | with check and claim in one step every run claims operations in plan order |
| FirstOperation.LateClaimIsSound | hugegraph-mcp/hugegraph_mcp/plan_store.py:259-313 | if the first operation is not done, a plan claimed on an earlier check has it ready for replay |
| FirstOperation.RunKeepsFirst | hugegraph-mcp/hugegraph_mcp/write_executor.py:110-164 | in every run, even with late claims, no other operation is claimed before the first one succeeded |
| LateResume.OutOfOrder | hugegraph-mcp/hugegraph_mcp/write_executor.py:110-164 | for any two operations after the first, a run that claims the later one although the earlier one did not succeed |
| LateResume.OrderExactly | hugegraph-mcp/hugegraph_mcp/write_executor.py:110-164 | for any two operations, the claim of the later one always finds the earlier one done, if and only if check and claim are one step or the earlier one is the first |
| LateResume.PrefixExecutionExactly | hugegraph-mcp/hugegraph_mcp/write_executor.py:179-213 | plan order in all runs, if and only if check and claim are one step or the plan has at most two operations |
| LateResume.DependenciesDone | hugegraph-mcp/hugegraph_mcp/write_plan.py:169-178 | a claimed operation's dependencies are durably applied when check and claim are one step or operations depend on the first one only |
| LateResume.DependenciesExactly | hugegraph-mcp/hugegraph_mcp/write_plan.py:161-181 | in all runs the dependencies of every claimed operation are done, if and only if check and claim are one step or operations depend on the first one only |
| ProtocolTheorems.VerdictCoherence | hugegraph-mcp/hugegraph_mcp/plan_store.py:446-473 | in every reachable state a decided status is the aggregate of the rows, an undecided one stands beside no success, and a held lease means EXECUTING or PARTIAL |
| ProtocolTheorems.SuccessIsAbsorbing | hugegraph-mcp/hugegraph_mcp/write_plan.py:56-91 | APPLIED and ALREADY_APPLIED operations and plans never change again, and a successful plan has only successful rows |
| ProtocolTheorems.OldTokensAreDead | hugegraph-mcp/hugegraph_mcp/plan_store.py:334-445 | after a lease was lost, no claim or receipt with the old token changes the plan, whatever happened in between |
| ProtocolTheorems.PartialVerdicts | hugegraph-mcp/hugegraph_mcp/plan_store.py:446-461 | which verdicts a receipt can produce on a PARTIAL plan, and when it is ALREADY_APPLIED |
| ProtocolTheorems.ExecutingVerdicts | hugegraph-mcp/hugegraph_mcp/plan_store.py:446-461 | when a receipt on an EXECUTING plan would make it RETRYABLE_NOT_APPLIED |
| ProtocolTheorems.ReceiptRefusedExactly | hugegraph-mcp/hugegraph_mcp/plan_store.py:446-461 | a fenced receipt is refused in exactly two situations |
| ProtocolTheorems.ReachableReceipts | hugegraph-mcp/hugegraph_mcp/plan_store.py:411-461 | every receipt of every reachable executor falls under that law |
| LostReceipts.LosesAlreadyApplied | hugegraph-mcp/hugegraph_mcp/plan_store.py:446-461 | for every plan of two or more operations, a run in which all adapters answer ALREADY_APPLIED and the last receipt is refused |
| LostReceipts.LosesRejected | hugegraph-mcp/hugegraph_mcp/plan_store.py:446-461 | for every such plan, a run that gives it up, reconciles and resumes it, in which the REJECTED of its first operation is refused |
| LostReceipts.LostReceiptsExactly | hugegraph-mcp/hugegraph_mcp/write_plan.py:56-91 | some run refuses a fenced receipt if and only if its outcome is ALREADY_APPLIED or REJECTED and the plan has at least two operations |
| LostReceipts.RefusalStrands | hugegraph-mcp/hugegraph_mcp/plan_store.py:446-461 | a refused receipt changes nothing: the dispatched operation stays EXECUTING and its executor is gone |
| ExecutorLoop.RoundExactly | hugegraph-mcp/hugegraph_mcp/write_executor.py:184-208 | a round of the loop fails exactly when the store refuses the claim or the receipt, with that error, and leaves the plan as the refused transaction found it |
| ExecutorLoop.LoopErrors | hugegraph-mcp/hugegraph_mcp/write_executor.py:179-213 | the loop ends with an error only where a claim met an absent, expired or foreign lease or an unclaimable row, or a receipt was stale or its transition illegal |
| ExecutorLoop.FailsInTimeExactly | hugegraph-mcp/hugegraph_mcp/write_executor.py:179-213 | while the leases last the loop fails exactly when two or more rows would all end ALREADY_APPLIED, or a resume of a plan without success is rejected at its first of several operations |
| ExecutorLoop.LeavesInTime | hugegraph-mcp/hugegraph_mcp/write_executor.py:179-213 | otherwise each row up to the first failure ends as its adapter said, the rest is as it was, and the plan gets the verdict |
| ExecutorLoop.ConfirmInTime | hugegraph-mcp/hugegraph_mcp/write_executor.py:67-108 | both for a whole confirm of a fresh plan |
| ExecutorLoop.ConfirmApplies | hugegraph-mcp/hugegraph_mcp/write_executor.py:67-108 | a confirm in time whose adapters all answer APPLIED ends with every row and the plan APPLIED |
| ExecutorLoop.ResumeInTime | hugegraph-mcp/hugegraph_mcp/write_executor.py:110-164 | both for a whole resume |
| WriteExecutor.ExecuteOne | hugegraph-mcp/hugegraph_mcp/write_executor.py:184-208 | one round is a run of the protocol and ends as the claim, the adapter and the receipt decide |
| WriteExecutor.ExecuteClaimed | hugegraph-mcp/hugegraph_mcp/write_executor.py:166-214 | the loop is a run of the protocol and does what the laws of `ExecutorLoop` are about; without an error every claimable operation up to the first failure was called, in order |
| WriteExecutor.ConfirmPlan | hugegraph-mcp/hugegraph_mcp/write_executor.py:67-108 | expired exactly when stale, which expires the plan; turned away exactly for a missing adapter or an unclaimable plan; else the loop on the claimed plan, which ends APPLIED if in time and all adapters apply |
| WriteExecutor.ReadResumeStatus | hugegraph-mcp/hugegraph_mcp/write_executor.py:110-137 | the first read: passes exactly when the status is resumable, as a step of the protocol |
| WriteExecutor.CheckResumeRows | hugegraph-mcp/hugegraph_mcp/write_executor.py:112-150 | the second read: passes exactly when the rows are resumable and every row to replay has an adapter, as a step of the protocol |
| WriteExecutor.ClaimResumed | hugegraph-mcp/hugegraph_mcp/write_executor.py:151-164 | the claim and the loop, from any world in which the executor has passed its check; not elected exactly when the plan is not claimable by then |
| WriteExecutor.CheckLasts | hugegraph-mcp/hugegraph_mcp/write_executor.py:138-157 | whatever others do between check and claim, every row left to replay has an adapter |
| WriteExecutor.ResumePlan | hugegraph-mcp/hugegraph_mcp/write_executor.py:110-164 | the three transactions in a row: when each refusal is given, and that it changes nothing; otherwise the loop on the claimed plan |
| WriteExecutor.ReconcileOne | hugegraph-mcp/hugegraph_mcp/reconciler.py:114-166 | one row of a pass is a step of the protocol |
| WriteExecutor.ReconciledExactly | hugegraph-mcp/hugegraph_mcp/reconciler.py:114-166 | what a pass makes of a row: ready for replay exactly when it was never claimed and nothing moved, undecided exactly when it was claimed and nothing moved, else applied or in conflict as observed |
| WriteExecutor.ReconciledTwice | hugegraph-mcp/hugegraph_mcp/reconciler.py:114-166 | a second pass that observes the same changes no row |
| WriteExecutor.SettleRows | hugegraph-mcp/hugegraph_mcp/reconciler.py:107-167 | settles every row up to the first unresolved one without a reader; rows and plan status are what that makes them |
| WriteExecutor.Reconcile | hugegraph-mcp/hugegraph_mcp/reconciler.py:76-167 | a run of the protocol; refused exactly under a live lease, incomplete exactly when a row to settle has no reader; what becomes of rows, status and lease |
| GremlinScanner.ConsumeQuoted | hugegraph-mcp/hugegraph_mcp/gremlin_policy.py:152-179 | finds the closing delimiter that the literal rule defines, or reports an unfinished literal |
| GremlinScanner.ScanLexeme | hugegraph-mcp/hugegraph_mcp/gremlin_policy.py:194-290 | the branches of the scanning loop find the lexeme at a position |
| GremlinScanner.LexGremlinQuery | hugegraph-mcp/hugegraph_mcp/gremlin_policy.py:182-292 | the loop yields the tokens, validity and normalized text of the lexeme sequence |
| ScannerLaws.ScannerIsLossless | hugegraph-mcp/hugegraph_mcp/gremlin_policy.py:182-292 | tokens are ordered disjoint slices of the source; each character is kept or blanked and every line feed kept |
| ScannerLaws.BlockCommentExactly | hugegraph-mcp/hugegraph_mcp/gremlin_policy.py:213-231 | a block comment is one exactly when it is closed and opens no other before, and ends at its first closer |
| ScannerLaws.LineCommentExactly | hugegraph-mcp/hugegraph_mcp/gremlin_policy.py:206-212 | a line comment goes exactly up to the next line break |
| ScannerLaws.NameExactly | hugegraph-mcp/hugegraph_mcp/gremlin_policy.py:251-259 | a name starts with an ASCII letter or an underscore and goes exactly as far as letters, underscores and digits follow |
| ScannerLaws.NumberExactly | hugegraph-mcp/hugegraph_mcp/gremlin_policy.py:261-277 | a number starts with a digit and goes exactly as far as digits, and at most one dot, follow |
| ScannerLaws.RescanKeeps | hugegraph-mcp/hugegraph_mcp/gremlin_policy.py:550-553 | scanning the normalized text finds the tokens before the first short-delimited literal that spans a line feed, and no more |
| ScannerLaws.RescanAgreesExactly | hugegraph-mcp/hugegraph_mcp/gremlin_policy.py:550-553 | scanning the normalized text finds the same tokens, contents of literals apart, exactly when no short-delimited literal spans a line feed |
| ScannerLaws.NoEscapedLineFeedSuffices | hugegraph-mcp/hugegraph_mcp/gremlin_policy.py:162-176 | without a backslash before a line feed no such literal exists |
| SecondScan.SecondScanMethods | hugegraph-mcp/hugegraph_mcp/gremlin_policy.py:630-634 | the cost check sees exactly the methods called before the first short-delimited literal that spans a line feed |
| SecondScan.SecondScanExactly | hugegraph-mcp/hugegraph_mcp/gremlin_policy.py:630-634 | it sees the methods of the query itself, if and only if no method is called after such a literal |
| SecondScan.SecondScanSeesMethods | hugegraph-mcp/hugegraph_mcp/gremlin_policy.py:630-634 | in particular when there is no such literal |
| FoldedLiterals.LimitIsLost | hugegraph-mcp/hugegraph_mcp/gremlin_policy.py:636-639 | a safe query with a limit of which the cost check sees `V` only |
| GremlinPolicy.HasInvalidTokenAdjacency | hugegraph-mcp/hugegraph_mcp/gremlin_policy.py:295-387 | the loop decides the recursive adjacency rule |
| GremlinPolicy.WalkTokens | hugegraph-mcp/hugegraph_mcp/gremlin_policy.py:390-460 | methods, write flag and doubt of the whole token sequence, with the bracket stack as a recursive rule |
| GremlinPolicy.AnalyzeTokens | hugegraph-mcp/hugegraph_mcp/gremlin_policy.py:390-494 | the analysis is the conjunction of its independent parts |
| GremlinPolicy.ClassifyGremlinReadSafety | hugegraph-mcp/hugegraph_mcp/gremlin_policy.py:500-520 | the classification that the laws are about |
| UnsafeQueries.UnsafeExactly | hugegraph-mcp/hugegraph_mcp/gremlin_policy.py:424-450 | a query is unsafe if and only if one of its identifiers, lowered, is a write step that follows a dot or is called |
| UnsafeQueries.LowerExactly | hugegraph-mcp/hugegraph_mcp/gremlin_policy.py:421 | names are compared with the small letter for each capital of ASCII, and nothing else changed |
| UnsafeQueries.UnsafeStays | hugegraph-mcp/hugegraph_mcp/gremlin_policy.py:508-520 | whatever is written on the lines after it, an unsafe query stays unsafe |
| UnsafeQueries.DropIsUnsafe | hugegraph-mcp/hugegraph_mcp/gremlin_policy.py:508-520 | a dropping query is unsafe although its bracket is never closed |
| ReadSafety.ReadStepsExactly | hugegraph-mcp/hugegraph_mcp/gremlin_policy.py:51-105 | the read steps are those that move, read, choose or shape |
| ReadSafety.SpacedExactly | hugegraph-mcp/hugegraph_mcp/gremlin_policy.py:295-387 | the adjacency loop refuses exactly the sequences in which a token is misplaced before the first empty map |
| ReadSafety.SafeExactly | hugegraph-mcp/hugegraph_mcp/gremlin_policy.py:390-520 | a query is safe if and only if it scans to its end, starts at `g.V(` or `g.E(`, each token is explained and each dot named, brackets nest, tokens are well placed up to the first empty map, and no marker stands outside literals |
| SafeStructure.BalancedParses | hugegraph-mcp/hugegraph_mcp/gremlin_policy.py:409-463 | what the bracket stack accepts is a text of the grammar of nested groups |
| SafeStructure.SafeQueriesNest | hugegraph-mcp/hugegraph_mcp/gremlin_policy.py:390-520 | the brackets of every safe query nest properly |
| SafeStructure.SafeChainsExactly | hugegraph-mcp/hugegraph_mcp/gremlin_policy.py:354-520 | a safe query is `g` and a non-empty chain of member calls starting with V or E, if and only if each bracket closing at depth 0 ends it or is followed by a dot |
| SafeStructure.SafeQueriesAreChains | hugegraph-mcp/hugegraph_mcp/gremlin_policy.py:295-520 | every safe query without an empty map meets that condition and is such a chain |
| SafeStructure.SafeIdentifiers | hugegraph-mcp/hugegraph_mcp/gremlin_policy.py:424-459 | every identifier of a safe query is the root, a known read call, an anonymous step call or an argument word, and none names a write step |
| StrayLiterals.StrayLiteralExactly | hugegraph-mcp/hugegraph_mcp/gremlin_policy.py:354-367 | a stray `true` after a safe query is accepted exactly when the query contains an empty map |
| StrayLiterals.SafeButNotAChain | hugegraph-mcp/hugegraph_mcp/gremlin_policy.py:362-367 | a safe query that is a chain of calls, and with a stray literal behind it a safe query that is none |
| GroovyPrinter.EscapeGroovySingleQuoted | hugegraph-mcp/hugegraph_mcp/tools/graph_data_gremlin.py:39-60 | the loop escapes character by character |
| GroovyPrinter.PrintHasSteps | hugegraph-mcp/hugegraph_mcp/tools/graph_data_gremlin.py:63-70 | the loop prints one step per criterion, in order |
| GroovyPrinter.EscapeRoundTrip | hugegraph-mcp/hugegraph_mcp/tools/graph_data_gremlin.py:39-60 | decoding the Groovy escapes gives every string back |
| GroovyPrinter.LiteralRoundTrip | hugegraph-mcp/hugegraph_mcp/gremlin_policy.py:152-179 | the scanner stops exactly at the closing quote of a printed literal, unless the literal is empty and a quote follows |
| ValueReader.DecimalRoundTrip | hugegraph-mcp/hugegraph_mcp/tools/graph_data_gremlin.py:36 | the digits of a printed number add up to it by position, without a leading zero |
| ValueReader.ValueReadsBack | hugegraph-mcp/hugegraph_mcp/tools/graph_data_gremlin.py:25-36 | a printed value, whatever follows it, is read back with its empty maps as empty lists |
| ValueReader.ReadsBackExactly | hugegraph-mcp/hugegraph_mcp/tools/graph_data_gremlin.py:30-35 | a printed value is read back as it was if and only if no map in it is empty |
| ValueReader.PrintedAlikeExactly | hugegraph-mcp/hugegraph_mcp/tools/graph_data_gremlin.py:25-36 | two values are printed alike if and only if they differ at most in empty maps and empty lists |
| PrintedTokens.ValueEmits | hugegraph-mcp/hugegraph_mcp/tools/graph_data_gremlin.py:25-36 | a printed value scans to the tokens of the value, wherever it stands |
| PrintedQueries.VertexQueryTokens | hugegraph-mcp/hugegraph_mcp/tools/graph_data_gremlin.py:73-74 | the tokens of a vertex or endpoint query with its suffix, for every content of its strings |
| PrintedQueries.EdgeQueryTokens | hugegraph-mcp/hugegraph_mcp/tools/graph_data_gremlin.py:77-84 | the same for edge queries |
| PrintedMarkers.EscapeKeepsMarkers | hugegraph-mcp/hugegraph_mcp/tools/graph_data_gremlin.py:39-60 | escaping neither makes nor hides a dynamic marker |
| PrintedSafety.VertexQueriesPass | hugegraph-mcp/hugegraph_mcp/tools/graph_data_execute.py:61 | printed vertex and endpoint queries are safe exactly when no string carries a marker, else uncertain |
| PrintedSafety.EdgeQueriesPass | hugegraph-mcp/hugegraph_mcp/tools/graph_data_execute.py:250 | the same for edge queries |
| Float32.ExponentExact | hugegraph-llm/src/hugegraph_llm/extraction_runtime/property_graph.py:112-115 | the bit-length estimate is the exact binary exponent after one correction |
| Float32.UnitsRound | hugegraph-llm/src/hugegraph_llm/extraction_runtime/property_graph.py:103-124 | no value of at most 24 significant bits is nearer, and ties go to an even significand |
| Float32Laws.UnitsAreTheRounding | hugegraph-llm/src/hugegraph_llm/extraction_runtime/property_graph.py:103-124 | the computed magnitude is the only correct rounding |
| Float32Laws.UnitsMonotone | hugegraph-llm/src/hugegraph_llm/extraction_runtime/property_graph.py:103-124 | rounding keeps the order of values |
| Float32Laws.UnitsFixRepresentable | hugegraph-llm/src/hugegraph_llm/extraction_runtime/property_graph.py:103-124 | representable values are left alone |
| Float32Laws.FloatAcceptedExactly | hugegraph-llm/src/hugegraph_llm/extraction_runtime/property_graph.py:157-167 | a number is accepted as FLOAT exactly when its rounding is at most the greatest finite value |
| GraphNormalization.CollectAliases | hugegraph-llm/src/hugegraph_llm/extraction_runtime/property_graph.py:391-406 | the first loop gathers aliases and updates |
| GraphNormalization.RenameEndpoint | hugegraph-llm/src/hugegraph_llm/extraction_runtime/property_graph.py:416-428 | one endpoint, named directly or by the properties of the vertex, gets its target |
| GraphNormalization.Normalize | hugegraph-llm/src/hugegraph_llm/extraction_runtime/property_graph.py:390-429 | the whole new graph in place, or the unchanged graph with one issue per ambiguous alias |
| NormalizationLaws.AliasMeaning | hugegraph-llm/src/hugegraph_llm/extraction_runtime/property_graph.py:391-406 | an alias stands for exactly the identifiers of the vertices it names |
| NormalizationLaws.IdsFromPrimaryKeys | hugegraph-llm/src/hugegraph_llm/extraction_runtime/property_graph.py:393-415 | every known vertex of an unambiguous graph gets the identifier its primary keys make, whatever it came with; all others keep theirs |
| NormalizationLaws.EndpointFollows | hugegraph-llm/src/hugegraph_llm/extraction_runtime/property_graph.py:416-428 | whichever way an edge names a vertex, it ends with that vertex's new identifier and label |
| NormalizationLaws.ReferencesKept | hugegraph-llm/src/hugegraph_llm/extraction_runtime/property_graph.py:390-429 | both ends of an edge name the same vertices before and after |
| NormalizationLaws.NormalizeTwice | hugegraph-llm/src/hugegraph_llm/extraction_runtime/property_graph.py:407-429 | a second normalisation changes nothing and reports the same; an ambiguous graph is left untouched |
| GraphValidation.CheckValue | hugegraph-llm/src/hugegraph_llm/extraction_runtime/property_graph.py:343-367 | the checks of one given property find the problems that its declaration, shape, duplicates and data type define |
| GraphValidation.ValidateProperties | hugegraph-llm/src/hugegraph_llm/extraction_runtime/property_graph.py:334-368 | the loop finds the problems of all required and all given properties |
| GraphValidation.AnyClash | hugegraph-llm/src/hugegraph_llm/extraction_runtime/property_graph.py:291-310 | the search through earlier dates decides whether one clashes |
| GraphValidation.CheckVertex | hugegraph-llm/src/hugegraph_llm/extraction_runtime/property_graph.py:261-328 | from the three memories of the loop, exactly the problems that the earlier vertices define |
| GraphValidation.ValidateVertices | hugegraph-llm/src/hugegraph_llm/extraction_runtime/property_graph.py:253-328 | the loop over vertices with its identity map, key set and date lists |
| GraphValidation.ValidateEndpoint | hugegraph-llm/src/hugegraph_llm/extraction_runtime/property_graph.py:370-388 | the problems of one end of an edge |
| GraphValidation.Validate | hugegraph-llm/src/hugegraph_llm/extraction_runtime/property_graph.py:249-332 | normalises in place and reports all remaining issues of the new graph |
| GraphLaws.NoIssuesExactly | hugegraph-llm/src/hugegraph_llm/extraction_runtime/property_graph.py:249-388 | no issues, if and only if entries are in order, identities and primary keys pairwise distinct, dates unambiguous, and every end of every edge attached to a vertex of the right identity, label and direction |
| GraphLaws.EndpointUnique | hugegraph-llm/src/hugegraph_llm/extraction_runtime/property_graph.py:234-247 | an end of an edge belongs to one vertex only |
| GraphLaws.EntryProblemsExactly | hugegraph-llm/src/hugegraph_llm/extraction_runtime/property_graph.py:334-368 | an entry has no problem exactly when its type and label are right, required properties are there and not empty, and each given one is declared, of its shape, without duplicates in a SET, and of its data type |
| IssueMeaning.MissingReportedExactly | hugegraph-llm/src/hugegraph_llm/extraction_runtime/property_graph.py:334-342 | a missing property is reported for exactly the entries without a value other than null and "" for a primary key in force, a sort key, or a declared property outside the nullable ones |
| IssueMeaning.RequiredGiven | hugegraph-llm/src/hugegraph_llm/extraction_runtime/property_graph.py:334-342 | every entry of a graph without issues gives all of them |
| IssueMeaning.ClashExactly | hugegraph-llm/src/hugegraph_llm/extraction_runtime/property_graph.py:291-310 | dates are ambiguous exactly when some are of different sorts and each pair is made equal by some offset under a day |
| IssueMeaning.SameIdentityExactly | hugegraph-llm/src/hugegraph_llm/extraction_runtime/property_graph.py:234-247 | when two identifiers are one identity |
| IssueMeaning.NoIdentityExactly | hugegraph-llm/src/hugegraph_llm/extraction_runtime/property_graph.py:234-247 | when an identifier is none |
| IssueMeaning.ScalarsExactly | hugegraph-llm/src/hugegraph_llm/extraction_runtime/property_graph.py:147-173 | which values the scalar types accept, in numbers |
| IssueMeaning.DoublesExactly | hugegraph-llm/src/hugegraph_llm/extraction_runtime/property_graph.py:147-173 | which numbers a DOUBLE accepts |
| IssueMeaning.SameKeyExactly | hugegraph-llm/src/hugegraph_llm/extraction_runtime/property_graph.py:219-232 | when two primary keys are one |
| IssueMeaning.UpperExactly | hugegraph-mcp/hugegraph_mcp/tools/manage_schema.py:539 | enumerated values are compared with the capital for each small letter of ASCII, and nothing else changed |
| GraphLaws.ValidateTwice | hugegraph-llm/src/hugegraph_llm/extraction_runtime/property_graph.py:249-252 | validating the validated graph gives the same graph and issues |
| DateKeys.DateKeysAreTimezoneProof | hugegraph-llm/src/hugegraph_llm/extraction_runtime/property_graph.py:276-311 | without issues, for every offset under a day two vertices of a label have different composite keys, unless both give a list for the same date |
| ListDates.NoListDatesExactly | hugegraph-llm/src/hugegraph_llm/extraction_runtime/property_graph.py:351-367 | no vertex in order holds a list under a date of its primary keys exactly when no vertex in order has such a key with cardinality LIST, SET or none |
| ListDates.TimezoneProofExactly | hugegraph-llm/src/hugegraph_llm/extraction_runtime/property_graph.py:276-311 | all graphs without issues are proof against time zones, if and only if no vertex in order holds a list under a date of its primary keys |
| ListDates.ValidationProofExactly | hugegraph-llm/src/hugegraph_llm/extraction_runtime/property_graph.py:249-332 | the same for all graphs that `validate` returns without an issue, normalisation included |
| ListDates.SingleDatesSuffice | hugegraph-llm/src/hugegraph_llm/extraction_runtime/property_graph.py:351-363 | a schema whose date keys all have a cardinality other than none, LIST and SET keeps both promises |
| SchemaDates.NoListDatesBySchema | hugegraph-llm/src/hugegraph_llm/extraction_runtime/property_graph.py:334-367 | no vertex in order holds such a list, if and only if no label whose required properties are all declared has a date key that admits lists |
| SchemaDates.TimezoneProofBySchema | hugegraph-llm/src/hugegraph_llm/extraction_runtime/property_graph.py:276-311 | both promises hold if and only if the schema has no such label |
| ListDates.ListDatesCollide | hugegraph-llm/src/hugegraph_llm/extraction_runtime/property_graph.py:351-367 | a schema and two vertices that `validate` returns unchanged and without issues, whose list-valued date keys a server in UTC reads alike |
| ConfirmationLedger.ConfirmationStore.CleanupExpired | hugegraph-mcp/hugegraph_mcp/confirmation_store.py:306-316 | removes expired issued and consumed rows, never operations |
| ConfirmationLedger.ConfirmationStore.Issue | hugegraph-mcp/hugegraph_mcp/confirmation_store.py:133-191 | the whole new state: lifetime check, cleanup, upsert that keeps a nonce's plan hash |
| ConfirmationLedger.ConfirmationStore.Consume | hugegraph-mcp/hugegraph_mcp/confirmation_store.py:226-304 | the payload or the refusal, and the whole new state, also when cleanup fails or a constraint rolls back |
| ConfirmationLedger.ConfirmationStore.RecordOutcome | hugegraph-mcp/hugegraph_mcp/confirmation_store.py:98-131 | updates exactly the operation of that plan hash |
| ConfirmationLedger.OperationsRemember | hugegraph-mcp/hugegraph_mcp/confirmation_store.py:344-355 | the operations table remembers exactly the nonces and plan hashes ever consumed |
| ConfirmationLedger.SingleUse | hugegraph-mcp/hugegraph_mcp/confirmation_store.py:226-316 | two successful consumptions of a run differ in nonce and in plan hash |
| ConfirmationLedger.ConsumedExactly | hugegraph-mcp/hugegraph_mcp/confirmation_store.py:241-296 | consumption succeeds if and only if the confirmation is issued, matching and unexpired and neither its nonce nor its plan hash was ever consumed |
| ConfirmationLedger.ConsumesLastIssued | hugegraph-mcp/hugegraph_mcp/confirmation_store.py:155-187 | a successful consumption returns what the last successful issue of its nonce stored, within its lifetime |
| ConfirmationLedger.OperationsTell | hugegraph-mcp/hugegraph_mcp/confirmation_store.py:98-131 | at any point of any run an operation is there exactly if its plan was consumed, with the issued payload, and tells the last outcome recorded for it |
| ConfirmationLedger.InsertedExactly | hugegraph-mcp/hugegraph_mcp/confirmation_store.py:133-191 | an issue succeeds exactly when it expires within the next ten minutes and its nonce is not issued for another plan; it replaces that nonce's row and nothing else |
| ConfirmationLedger.CleanedExactly | hugegraph-mcp/hugegraph_mcp/confirmation_store.py:306-316 | a cleanup removes exactly the issued and consumed rows that have expired, and keeps the others as they are |
| SchemaBatch.CollectPlannedCreates | hugegraph-mcp/hugegraph_mcp/tools/manage_schema.py:317-366 | the planned names, and an error for exactly the operations planned before |
| SchemaBatch.DuplicatedNames | hugegraph-mcp/hugegraph_mcp/tools/manage_schema.py:689-696 | exactly the names that occur twice, each once |
| SchemaBatch.CheckReferences | hugegraph-mcp/hugegraph_mcp/tools/manage_schema.py:369-424 | the checks of a reference list, in order, find its faults |
| SchemaBatch.CheckSubset | hugegraph-mcp/hugegraph_mcp/tools/manage_schema.py:427-508 | the same for a subset of the properties |
| SchemaBatch.CheckPrimaryKeys | hugegraph-mcp/hugegraph_mcp/tools/manage_schema.py:598-682 | the same for primary keys, under the strategy PRIMARY_KEY only |
| SchemaBatch.CheckEnum | hugegraph-mcp/hugegraph_mcp/tools/manage_schema.py:511-551 | the normalised value, the default or nothing, and a fault exactly for a value given and refused |
| SchemaBatch.CheckFields | hugegraph-mcp/hugegraph_mcp/tools/manage_schema.py:197-293 | the loop over the field table finds unsupported fields and wrong shapes |
| SchemaBatch.CheckOperation | hugegraph-mcp/hugegraph_mcp/tools/manage_schema.py:751-1046 | one round of the loop finds the faults of the operation, and whether it may become available |
| SchemaBatch.ValidateSchemaOperations | hugegraph-mcp/hugegraph_mcp/tools/manage_schema.py:714-1051 | the two passes find exactly the faults of each operation given what earlier ones made available |
| SchemaReplay.ReferencesExactly | hugegraph-mcp/hugegraph_mcp/tools/manage_schema.py:369-424 | a reference list has no fault exactly when it is a list of distinct names, or nothing, and all are defined |
| SchemaReplay.SubsetExactly | hugegraph-mcp/hugegraph_mcp/tools/manage_schema.py:427-508 | the same for subsets of the properties |
| SchemaReplay.PrimaryKeysExactly | hugegraph-mcp/hugegraph_mcp/tools/manage_schema.py:598-682 | the same for primary keys |
| SchemaReplay.FieldsExactly | hugegraph-mcp/hugegraph_mcp/tools/manage_schema.py:197-293 | fields have no fault exactly when only documented ones are given and flags, mappings and index labels have their shape |
| SchemaReplay.OperationExactly | hugegraph-mcp/hugegraph_mcp/tools/manage_schema.py:751-1046 | one round finds no fault exactly when the object could be created, but for its name |
| SchemaReplay.FalsyExactly | hugegraph-mcp/hugegraph_mcp/tools/manage_schema.py:449-495 | what counts as not given: null, false, zero, and what is empty |
| SchemaReplay.FaultsExactly | hugegraph-mcp/hugegraph_mcp/tools/manage_schema.py:751-850 | when one round reports that something is no operation, of no known type, missing, no name, or already there |
| SchemaReplay.ValidExactly | hugegraph-mcp/hugegraph_mcp/tools/manage_schema.py:714-1051 | a batch is valid if and only if each object can be created in the schema that the live one and the earlier creations make |
| SchemaReplay.ValidCarries | hugegraph-mcp/hugegraph_mcp/tools/manage_schema.py:83-95 | every operation of a valid batch carries a name that is not blank and, by its kind, a data type of the allowed ones, both end labels, or a base type and a base label |
| SchemaReplay.ValiditySplits | hugegraph-mcp/hugegraph_mcp/tools/manage_schema.py:743-748 | a batch is valid if and only if a prefix is, and the rest is valid against the schema the prefix leaves |
| ReviewLoop.RunChunk | hugegraph-llm/src/hugegraph_llm/extraction_runtime/review.py:72-133 | terminates; the trace is the whole sequence of calls with their inputs; the result is what the last call calls for; calls are 1 + reviews + fixes within both budgets and reviews at most fixes + 1 |
| ReviewLoop.ResultsAreValidated | hugegraph-llm/src/hugegraph_llm/extraction_runtime/review.py:92-124 | a final or candidate result carries the graph as a validation without issues left it; a final one was passed by the review of that graph |
| ReviewLoop.ReasonsExactly | hugegraph-llm/src/hugegraph_llm/extraction_runtime/review.py:76-133 | what each reason says about the last call, in both directions, and which status goes with it |
| ReviewLoop.EndsExactly | hugegraph-llm/src/hugegraph_llm/extraction_runtime/review.py:92-133 | the loop ends exactly after a failed call, a decision, or a spent budget |
| ReviewLoop.ResultsCarry | hugegraph-llm/src/hugegraph_llm/extraction_runtime/review.py:76-133 | which graph and which issues a result carries |

## Left out

- Store files, permissions, schema migration, JSON text of plans and receipts, and legacy plans, which executor and reconciler refuse.
- Columns that no decision reads: `confirmed_at`, receipt details, `updated_at` of plan rows.
- Overlapping reconcile passes on one plan; progress of crashed plans is not promised by the code and not claimed here.
- Adapters are assumed to return receipts for the plan, operation and attempt they were given; a receipt for another attempt is refused as stale.
- Python's equality of `True` and `1` inside state maps; states are compared as typed values.
- Floating-point literals in printed queries, whose exponent spellings the scanner does not accept, and lone surrogates in strings.
- The order in which the source sorts map entries when printing: entries are a sequence, so the result holds for every order.
- The write-query builders, query limits, de-duplication of ids and the preview of properties.
- The wording of cost warnings, and the pattern that reads the argument of `times`.
- Parsing of model responses, prompts and model calls; text dates, UUID spellings, hexadecimal doubles, JSON text and the identifier made of primary keys are uninterpreted functions.
- ListDates.TimezoneProofExactly: necessity assumes a text date that reads as the epoch and whose one-element list has another JSON text than the list of 0, because both readers are uninterpreted; `SchemaDates` assumes some text that reads as a UUID.
- ListDates.ValidationProofExactly: assumes in addition that the identifiers made of primary keys are missing for both lists or are different texts, because `_primary_key_id` (property_graph_extract.py:120-134) is uninterpreted.
- Order, repetition and wording of validation issues: issues are a set, an ambiguous date is reported for the vertex rather than for one of its keys.
- Upper-casing of letters outside ASCII in enumerated schema values and id strategies.
- Operation names that Python cannot hash, which make the schema validation raise before it reports anything.
- Unsupported operation types are one fault; the separate message for delete and drop types is not distinguished.
- Validation warnings, the hash and the application of schema plans.
- The ledger's lookups (`has_consumed`, `issued_payload`, `operation_for_nonce`), and failures of the database, which leave its tables unchanged.
- Review and repair calls that change the graph they are given; only validation does so in place.
- Concurrency of chunks, logging and serialisation of results.
