# ToolFlow: a verified model of the runtime

ToolFlow compiles a workflow into a dependency graph and runs it step by step under
single-use grants, recording every effect in a ledger from which an interrupted run can be
recovered. This project models that behaviour in Dafny and proves what it keeps.

`dafny verify dfyconfig.toml` checks everything.

## How it is modelled

**The ledger and the process.** `Records` holds the durable files of one run (graph, policy
hash, manifest, grants, receipts, approvals) and the process working on them. Every file write
is one atomic step, and before every step the process may die. What the code cannot control
(when the process dies, when a handler throws, what it answers, what the clock shows) is a
function of the step count, held in an `Env`; a theorem about every `Env` is a theorem about
every crash point and every interleaving of answers. A handler's effect is an atomic step too
and is appended to `World.execs`, so executions can be counted and ordered.

**The protocol.** `Bridge`, `Recovery` and `Protocol` give the meaning of each operation as a
function on worlds. `Store` and `RunService` are the code in its own form: a ledger object whose
files are written in place, and methods with the driving loops of `resumeWorkflow`,
`recoverRun`, `approveRunStep` and `cancelRun`. Each method is proved to compute exactly the
function of the same step, so every theorem below is about the imperative code. The state
`grant_issued`, which the code sets in memory and replaces before the next manifest write, is folded
into the change to `running` that follows it.

**What each command does.** `Commands` states cancel, approve, recover and the refusals of resume
field by field, `Dispatches` the checks of the bridges and the files a dispatch leaves, `Verdicts`
which run state goes with which steps, `Defaults` what a step gets that the workflow leaves out,
and `ApprovalBinding` that an approval's hash names it. None of them speaks through the functions
that compute these results.

**Theorems about runs.** `Invariant` and `Reachability` prove what every durable state keeps
over any sequence of resume, recover, cancel and approve with crashes anywhere; `Audit` states
it for the reader of a ledger, and `Approvals` that the approvals on file fit. `SingleUse`
needs no discipline at all: approvals at any time, edited graphs and lost receipts are allowed.
`Completion`, `CrashRefinement` and `WaveOrder` say how runs end and in which order steps run,
`Resumption` what one more resume does. `RecoveryLaws`, `Quarantine` and `Interrupted` are about
recovery, and `GraphFile` shows that the stored graph is read back intact.

**Disciplined approval.** `approveRunStep` makes any elevated step pending, whatever its
state. Theorems that need it assume a step is approved only while it awaits approval or is
still pending. `Discipline` gives the exact condition under which an approval keeps the stored
verdict true. `Accounting` bounds executions over undisciplined runs, `Discipline` shows that the
bound is reached, and `OldReceipt` what the receipt id that an approval leaves in place does.

**The compiler.** `Normalize`, `Resolve`, `CycleDetection` and `Compile` follow the three
passes; `CompileWorkflow` accepts exactly the acceptable workflows, and its result is the
`WellFormed` graph that the theorems about runs start from.

**The agreeing views.** `Json`, `JsonSort`, `JsonText` and `Hashing` model the canonical form
that hashes and files rest on, with a printer and a parser of JSON text; `Index`, `Mirror` and
`Controller` the mirror, its index and the flow derived from it; `Progress` the throttled
progress events. Hashes are injective and signatures unforgeable by construction.

## Where code and documentation disagree

- `docs/operator-playbook.md:123-131` lists recovery silently replaying `review_before_replay`
  steps as something that must not occur. The code requeues any interrupted step whose grant
  was not consumed yet, also when its handler already had its effect.
  `Interrupted.RepeatedExactly` gives the exact crash points, and the replay class plays no part.

The documentation does not say that `recoverRun` also reopens cancelled and rejected runs;
`Interrupted.RecoveryReopens` proves it.

## Model

| member | source | states |
|---|---|---|
| Store.LedgerStore.constructor | packages/runtime/src/control-plane/run-service.ts:41-58 | a prepared run: every step pending, rejected or ready, no grants, receipts or approvals |
| Store.LedgerStore.WriteManifest | packages/runtime/src/ledger/manifests.ts:5-8 | stamps and writes the manifest whole, or dies and changes no file |
| Store.LedgerStore.WriteGrant | packages/runtime/src/ledger/grants.ts:5-7 | files the record under its grant id and touches nothing else |
| Store.LedgerStore.ConsumeGrant | packages/runtime/src/ledger/grants.ts:13-19 | marks a grant consumed by its receipt; throws when the file is missing |
| Store.LedgerStore.RetireGrant | packages/runtime/src/ledger/grants.ts:21-31 | expires or voids a grant and keeps the rest of its record |
| Store.LedgerStore.WriteReceipt | packages/runtime/src/ledger/receipts.ts:4-6 | files the receipt under its id and touches nothing else |
| Store.LedgerStore.TryReadReceipt | packages/runtime/src/ledger/receipts.ts:12-19 | the receipt on file, or none |
| RunService.PrepareRun | packages/runtime/src/control-plane/run-service.ts:32-61 | succeeds if and only if the workflow is acceptable, and leaves the prepared run of a well-formed graph with one node per step, from which the theorems about runs start |
| RunService.MintStepGrant | packages/runtime/src/control-plane/grant-service.ts:9-31 | writes an issued grant bound to the node, the policy and the approval, signed with the cell's key |
| RunService.ExecuteStep | packages/runtime/src/bridges/base/bridge-server.ts:18-26 | refuses, or runs the handler, then writes the receipt, then consumes the grant, dying at any of them |
| RunService.RecoverOne | packages/runtime/src/control-plane/recovery-service.ts:41-101 | every branch of recoverStep, with the grant write it makes |
| RunService.RecoverWorkflow | packages/runtime/src/control-plane/recovery-service.ts:29-39 | recovery of all nodes in graph order, then one manifest write |
| RunService.RunStep | packages/runtime/src/control-plane/run-service.ts:95-127 | one dispatch: pause for approval, or grant, running, bridge, reconcile, persist |
| RunService.ResumeWorkflow | packages/runtime/src/control-plane/run-service.ts:69-144 | the whole driving loop, which terminates because every round leaves fewer pending steps |
| RunService.ApproveRunStep | packages/runtime/src/control-plane/run-service.ts:146-162 | writes the binding approval, then the reopened manifest; refuses unknown and ordinary steps |
| RunService.CancelRun | packages/runtime/src/control-plane/run-service.ts:164-178 | cancels exactly the unfinished steps of an unfinished run |
| Commands.PreparedExact | packages/runtime/src/control-plane/run-service.ts:41-58 | a prepared run has every step pending, is ready unless it was rejected, and records nothing else |
| Commands.RejectedNeverRuns | packages/runtime/src/control-plane/run-service.ts:80-80 | from a rejected run, any resumes, cancels and approvals with crashes anywhere leave it rejected, with no handler called and no grant or receipt |
| Commands.ResumeReturnsShut | packages/runtime/src/control-plane/run-service.ts:79-80 | a resume of a rejected or cancelled run returns it and changes no file |
| Commands.ResumeThrowsQuarantined | packages/runtime/src/control-plane/run-service.ts:78-78 | a resume of a quarantined run throws and changes no file |
| Commands.CancelExact | packages/runtime/src/control-plane/run-service.ts:164-178 | a written cancel of an unfinished run stores it as cancelled, turns exactly the pending, awaiting, granted and running steps into cancelled ones, and changes nothing else |
| Commands.CancelChangesNothing | packages/runtime/src/control-plane/run-service.ts:167-167 | a succeeded, failed, rejected or cancelled run is left as it is, and so are the files when the write is cut |
| Commands.CancelledNeverRuns | packages/runtime/src/control-plane/run-service.ts:174-175 | after a written cancel no sequence of resumes, cancels and approvals calls a handler |
| Commands.ApproveExact | packages/runtime/src/control-plane/run-service.ts:156-159 | both writes of an approval, field by field: the binding, the pending step, and ready for a paused run |
| Commands.ApproveCut | packages/runtime/src/control-plane/run-service.ts:156-159 | cut between its writes an approval leaves the binding and the old manifest |
| Commands.ApproveRefuses | packages/runtime/src/control-plane/run-service.ts:153-155 | unknown steps and steps of other cells change nothing |
| Commands.RecoverExact | packages/runtime/src/control-plane/recovery-service.ts:41-107 | what a completed recovery stores for each step, on any ledger with lost receipts and retired grants: left alone, settled by its own or its grant's receipt, quarantined, or pending without grant and start time |
| Commands.UnusedGrantRetires | packages/runtime/src/control-plane/recovery-service.ts:79-83 | the unused grant of a step under way becomes expired if its time is up by the clock, and void otherwise |
| Protocol.NextRunnable | packages/runtime/src/control-plane/scheduler.ts:3-8 | a node is in the batch exactly when it is in the graph, pending, and all its dependencies succeeded |
| Protocol.NextInOrder | packages/runtime/src/control-plane/scheduler.ts:4-7 | the batch is the graph's runnable places, each once and in the graph's order |
| Protocol.RoundDropsPending | packages/runtime/src/control-plane/run-service.ts:91-129 | each round that does not stop leaves strictly fewer pending steps, so the loop ends |
| Invariant.DispatchKeeps | packages/runtime/src/control-plane/run-service.ts:95-127 | one dispatch, cut at any write, keeps the invariant of grants, receipts, steps, run state and execution count |
| Reachability.LoopKeeps | packages/runtime/src/control-plane/run-service.ts:91-140 | the loop keeps the invariant, including that a failed verdict rests on a failed step |
| Reachability.RecoverKeeps | packages/runtime/src/control-plane/recovery-service.ts:29-117 | recovery, cut at any write, keeps the invariant; completed, it leaves no step running and a run that is neither running, cancelled nor rejected |
| Reachability.CancelKeeps | packages/runtime/src/control-plane/run-service.ts:164-178 | cancelling keeps the invariant |
| Reachability.ApproveKeeps | packages/runtime/src/control-plane/run-service.ts:146-162 | a disciplined approval keeps the invariant |
| Reachability.RunKeeps | packages/runtime/src/control-plane/run-service.ts:69-178 | every run of disciplined operations with crashes anywhere keeps the invariant and the graph |
| Reachability.QuiescentBlame | packages/runtime/src/control-plane/run-service.ts:130-137 | when nothing is runnable in an acyclic graph, the catch-all verdict failed is backed by a failed step |
| Audit.WriteOrder | packages/runtime/src/bridges/base/bridge-server.ts:18-26 | at every crash point: a consumed grant names a receipt of the same grant and step, a running step holds an existing grant in a running run, no step is grant_issued, a finished step names its receipt |
| Audit.NoConsumedWithoutReceipt | packages/runtime/src/control-plane/recovery-service.ts:86-93 | crashes alone never reach the branch for a consumed grant without a receipt |
| Audit.StatesAgree | packages/runtime/src/control-plane/run-service.ts:130-178 | run state and step states agree in every reachable stored state |
| Verdicts.RecoveredStateFollows | packages/runtime/src/control-plane/recovery-service.ts:109-117 | after a completed recovery of a reachable run: quarantined, awaiting approval, succeeded, failed and ready each hold if and only if the stored steps say so |
| Verdicts.PausedStaysPaused | packages/runtime/src/control-plane/recovery-service.ts:112-112 | recovering a run that waits for approval leaves it waiting, with every step as it was |
| Verdicts.ResumedStateFollows | packages/runtime/src/control-plane/run-service.ts:119-140 | after an undisturbed resume the run succeeded if and only if all steps did, and unless the last handler failed it waits if and only if a step does and failed if and only if one did and none waits |
| Audit.ExecutionBound | packages/runtime/src/control-plane/run-service.ts:105-125 | handlers run at most once per step and once more per crash, over every run |
| Audit.ExecutionsInOrder | packages/runtime/src/control-plane/run-service.ts:91-113 | every handler ran for a step stored as running, under its issued grant, after all its dependencies succeeded |
| Audit.AuditTheorem | packages/runtime/src/control-plane/run-service.ts:113-137 | a run stored as succeeded has for every node a succeeded receipt of exactly its payload and policy under a consumed grant, and receipts respect dependencies in time |
| Audit.CallsAreOrdered | packages/runtime/src/control-plane/run-service.ts:91-113 | every handler call of a reachable run came after a call for each dependency of its step |
| Audit.SucceededRunRan | packages/runtime/src/control-plane/run-service.ts:113-137 | a run stored as succeeded called a handler for every node, after calls for its dependencies, and no more often in all than nodes and crashes account for |
| Audit.BlockingChain | packages/runtime/src/control-plane/scheduler.ts:3-8 | at quiescence every unfinished step has a chain of pending steps ending in one that is neither pending nor succeeded |
| Audit.NoFalseDeadlock | packages/runtime/src/control-plane/run-service.ts:91-136 | if no step is stuck by itself, quiescence means every step succeeded |
| SingleUse.RunSound | packages/elevated/src/bridge/server.ts:26-61 | over every run, with edits, losses and undisciplined approvals: each execution was authorised for its exact payload and policy, elevated ones by the approval named in the signed grant; no grant reaches a handler twice or has two receipts; every receipt reports a handler call for its step and payload under its grant |
| SingleUse.PreparedSound | packages/runtime/src/control-plane/run-service.ts:32-61 | every prepared run starts from such a state |
| SingleUse.ExecuteSound | packages/elevated/src/bridge/verify-approval.ts:4-11 | one bridge call keeps authorisation and single use |
| Dispatches.BridgeCallsExactly | packages/elevated/src/bridge/server.ts:26-61 | in any world a bridge calls its handler if and only if the grant is unaltered, signed with the cell's key, unexpired, made for this request and policy, and issued on file, and for elevated steps the approval on file is the one it was signed for; otherwise no file changes |
| Dispatches.SpentGrantRefused | packages/runtime/src/bridges/base/verify-grant.ts:17-18 | a consumed, void, expired or missing grant calls no handler and writes no receipt |
| Dispatches.AlteredGrantRefused | packages/runtime/src/bridges/base/verify-grant.ts:10-11 | so does a grant changed after signing or signed with the other key |
| Dispatches.DispatchWrites | packages/runtime/src/control-plane/run-service.ts:95-127 | the grant, receipt and step that an undisturbed dispatch leaves, field by field with their times, or the pause it stores |
| ApprovalBinding.ApprovalHashBinds | packages/runtime/src/control-plane/approval-service.ts:10-24 | in any two runs, approvals on file with the same approval hash agree in step, payload hash, policy hash, time and approver |
| ApprovalBinding.GrantNamesOneApproval | packages/elevated/src/bridge/verify-approval.ts:8-10 | the approval hash in the grant of an elevated handler call names exactly the approval then on file for that step, payload and policy |
| Approvals.ReachedFits | packages/runtime/src/control-plane/approval-service.ts:10-25 | every approval a disciplined run has on file is for its step's payload under the run's policy |
| Completion.MintedIsAdmitted | packages/runtime/src/bridges/base/verify-grant.ts:8-19 | in every reachable state a grant minted for a step of the graph is admitted exactly until it expires; an elevated step only needs its approval on record and a payload that does not refuse local transport |
| GraphFile.GraphSurvives | packages/runtime/src/control-plane/run-service.ts:55-55 | the graph parsed from its file is the graph written, with the keys of its payloads sorted |
| GraphFile.WrittenNode | packages/runtime/src/compiler/build-graph.ts:13-17 | the names under which the file holds a node's fields |
| GraphFile.AdmittedAfterReadBack | packages/runtime/src/control-plane/run-service.ts:81-81 | a bridge admits the same grants for every node of the graph read back, which is well-formed if the written one was |
| GraphFile.CompiledIsStorable | packages/runtime/src/compiler/build-graph.ts:13-17 | every node compiled from JSON arguments can be stored and read back |
| Completion.DispatchCompletes | packages/runtime/src/control-plane/run-service.ts:95-127 | without crashes a dispatch runs its handler once and stores its answer, or pauses for approval |
| Completion.ResumeCompletes | packages/runtime/src/control-plane/run-service.ts:69-144 | from every reachable state of a graph of local payloads an undisturbed resume returns, or finds the run quarantined |
| Resumption.ResumeCallsExactly | packages/runtime/src/control-plane/run-service.ts:73-104 | from every reachable state an undisturbed resume calls a handler if and only if the repaired run is not refused, some step is runnable and the first one has its approval if it needs one; it starts with that step |
| Resumption.FailedRunContinues | packages/runtime/src/control-plane/run-service.ts:78-92 | a failed run with its approvals goes on executing if and only if some step is still runnable |
| CrashRefinement.CrashesDoNotMatter | packages/runtime/src/control-plane/run-service.ts:69-144 | after any resumes cut at any writes, the run state is the verdict of the handlers alone; if all succeed, so do all steps |
| CrashRefinement.LastResumeReturns | packages/runtime/src/control-plane/recovery-service.ts:29-117 | for every reachable fresh run of local payloads: after any crashes one undisturbed resume returns that verdict |
| CrashRefinement.CrashRefinement | packages/runtime/src/control-plane/run-service.ts:69-144 | for every reachable fresh run of local payloads: the crashed and resumed run ends in the same state as the uninterrupted one, which returns |
| WaveOrder.FreshRunsInWaves | packages/runtime/src/control-plane/run-service.ts:91-129 | every undisturbed fresh run of every compiled graph executes exactly the graph's nodes sorted by depth, in as many rounds as its longest dependency chain has steps, and succeeds |
| WaveOrder.WaveOrder | packages/runtime/src/control-plane/run-service.ts:91-129 | the same for a given depth map and height |
| WaveOrder.SucceededAfterRounds | packages/runtime/src/control-plane/scheduler.ts:3-8 | after k rounds the succeeded steps are exactly those of depth below k |
| WaveOrder.WavesSorted | packages/runtime/src/control-plane/scheduler.ts:3-8 | depths never decrease along the dispatch sequence |
| WaveOrder.WavesStable | packages/runtime/src/control-plane/scheduler.ts:3-8 | within one depth the dispatch sequence keeps the graph's order |
| WaveOrder.WavesPermute | packages/runtime/src/control-plane/scheduler.ts:3-8 | no node is dispatched twice or left out |
| WaveOrder.ChainsAreShallow | packages/runtime/src/control-plane/scheduler.ts:6-6 | a step's depth bounds every dependency chain below it |
| WaveOrder.DeepestChain | packages/runtime/src/control-plane/scheduler.ts:6-6 | and some chain reaches that bound |
| RecoveryLaws.RecoverIsRepair | packages/runtime/src/control-plane/recovery-service.ts:29-101 | completed recovery is a pure function of the ledger it found; cut short, it only retired unused grants |
| RecoveryLaws.RecoverRestarts | packages/runtime/src/control-plane/recovery-service.ts:79-84 | recovery restarted after any number of crashes at any of its writes gives the same steps and run state |
| RecoveryLaws.RecoverIdempotent | packages/runtime/src/control-plane/recovery-service.ts:29-39 | a second recovery changes only the time stamp |
| RecoveryLaws.RecoveredIsSettled | packages/runtime/src/control-plane/recovery-service.ts:44-98 | after a completed recovery every node's step is settled in the stored manifest |
| RecoveryLaws.RecoveredRunning | packages/runtime/src/control-plane/recovery-service.ts:109-117 | on any ledger whatever, recovery leaves a run running exactly when it was and all steps are skipped or succeeded, some skipped |
| Interrupted.InterruptedStep | packages/runtime/src/control-plane/recovery-service.ts:68-98 | an interrupted step gets its receipt's state if its grant was consumed, and is pending again without a grant otherwise |
| Interrupted.CutRequeues | packages/runtime/src/control-plane/recovery-service.ts:79-84 | after any cut of a dispatch recovery requeues the step unless its grant was consumed, whatever its replay class |
| Interrupted.RepeatedExactly | packages/runtime/src/control-plane/recovery-service.ts:79-84 | the next undisturbed resume calls the cut step's handler again if and only if the grant was not consumed, so the effect happens twice if and only if the cut falls between effect and consumption, or the handler threw |
| Interrupted.CutHappens | packages/runtime/src/control-plane/run-service.ts:105-125 | every such cut happens in a run, for each replay class |
| Interrupted.ReviewStepRepeats | packages/runtime/src/control-plane/recovery-service.ts:79-84 | a step that must be reviewed before replay has its effect twice without review |
| Interrupted.DispatchCut | packages/runtime/src/control-plane/run-service.ts:105-125 | which grant, receipt, manifest and handler call each of the six crash points of a dispatch leaves behind |
| Interrupted.RecoveryReopens | packages/runtime/src/control-plane/recovery-service.ts:109-117 | completed recovery never leaves a run running, cancelled or rejected |
| Quarantine.QuarantineExact | packages/runtime/src/control-plane/recovery-service.ts:57-90 | recovery quarantines an unsettled step if and only if it must be reviewed and has no receipt and no accountable grant |
| Quarantine.LostReceiptQuarantines | packages/runtime/src/control-plane/recovery-service.ts:86-90 | a running review step under a consumed grant whose receipt is lost is quarantined, and so is the run |
| Quarantine.QuarantineContains | packages/runtime/src/control-plane/run-service.ts:78-80 | no later resume, recover or cancel dispatches a quarantined step |
| Discipline.ApproveAgreesExactly | packages/runtime/src/control-plane/run-service.ts:156-158 | approving a step keeps run and step states in agreement if and only if the verdict does not rest on that step |
| Discipline.ReapprovalReexecutes | packages/runtime/src/control-plane/run-service.ts:156-158 | approving a finished step of a succeeded run makes the next resume execute it again, without a crash |
| Accounting.ReopeningBound | packages/runtime/src/control-plane/run-service.ts:146-162 | over every run without lost or edited files, however steps are approved: handlers run at most once per step, once more per crash, and once more per approval that reopens a step whose grant was consumed |
| Accounting.ReopeningsAreUndisciplined | packages/runtime/src/control-plane/run-service.ts:156-158 | only approvals of steps neither pending nor awaiting approval reopen |
| Discipline.BoundIsReached | packages/runtime/src/control-plane/run-service.ts:156-158 | every graph with a local elevated step has runs without a crash that reach the bound with any number of reopenings, so it fails without counting them |
| OldReceipt.OldReceiptWins | packages/runtime/src/control-plane/run-service.ts:157-157 | a re-approved step whose next dispatch dies after it was stored as running is settled by its old receipt: the run is stored as succeeded, although at the first of these cuts its handler was not called again |
| OldReceipt.OldReceiptSettles | packages/runtime/src/control-plane/recovery-service.ts:48-55 | recovery settles a running step from the receipt id it names, whatever its grant |
| OldReceipt.OldReceiptHappens | packages/runtime/src/control-plane/recovery-service.ts:103-107 | this happens in a run of every graph with a local elevated step, at each of these cuts |
| CycleDetection.DetectCycles | packages/runtime/src/compiler/build-graph.ts:22-35 | succeeds if and only if the dependencies have no cycle, and then the order of completed visits is topological |
| CycleDetection.Detector.Visit | packages/runtime/src/compiler/build-graph.ts:26-33 | visits everything reachable or exhibits a cycle; terminates because fewer ids are in neither set |
| CycleDetection.OrderedIsAcyclic | packages/runtime/src/compiler/build-graph.ts:22-35 | a topological order of all ids rules out every cycle |
| CycleDetection.EdgeDescends | packages/runtime/src/compiler/build-graph.ts:30-32 | in visit-completion order every dependency comes strictly earlier |
| Normalize.NormalizeWorkflow | packages/runtime/src/compiler/normalize-workflow.ts:4-28 | accepts exactly valid headers with distinct well-formed ids and supported actions and cells, and fills in defaults step by step |
| Normalize.NormalizeIdempotent | packages/runtime/src/compiler/normalize-workflow.ts:12-21 | a normalised workflow is accepted again unchanged |
| Defaults.StepAcceptedExactly | packages/runtime/src/compiler/normalize-workflow.ts:13-18 | a step is accepted if and only if its id has the form, its action is one of the six and its cell, if named, one of the four |
| Defaults.OneStepCompiles | packages/runtime/src/compiler/normalize-workflow.ts:4-10 | a workflow of one bare step compiles if and only if version, name and step are in order |
| Defaults.DefaultCell | packages/runtime/src/compiler/normalize-workflow.ts:17-28 | without a named cell each action has its one cell; exactly commands and patches are elevated |
| Defaults.NamedCell | packages/runtime/src/compiler/normalize-workflow.ts:17-18 | a named cell is the node's |
| Defaults.CellBridge | packages/runtime/src/compiler/build-graph.ts:14-16 | each cell has its own bridge |
| Defaults.DefaultReplayClass | packages/runtime/src/compiler/normalize-workflow.ts:19-19 | without a named replay class each cell has its one class |
| Defaults.NamedReplayClass | packages/runtime/src/compiler/normalize-workflow.ts:19-19 | a named replay class is the node's |
| Defaults.CommandsAreApproved | packages/runtime/src/compiler/normalize-workflow.ts:17-28 | in every run of a compiled workflow, a command or patch step written without a cell only ran while an approval for its exact payload and policy was on file |
| Resolve.TextResolves | packages/runtime/src/compiler/resolve-variables.ts:10-15 | a text resolves if and only if every reference in it is bound |
| Resolve.PiecesSplit | packages/runtime/src/compiler/resolve-variables.ts:11-11 | splitting a text into characters and references loses nothing, and no plain character begins a reference |
| Resolve.SplitIsUnique | packages/runtime/src/compiler/resolve-variables.ts:11-11 | a text splits in only one way |
| Resolve.SubstitutesOnce | packages/runtime/src/compiler/resolve-variables.ts:11-14 | every text whose references are bound resolves piece by piece: each reference is replaced once, and substituted text is not scanned again |
| Resolve.ReferenceFree | packages/runtime/src/compiler/resolve-variables.ts:10-15 | a text without references is unchanged |
| Resolve.InputsAsText | packages/runtime/src/compiler/resolve-variables.ts:11-14 | a reference to a text, number or flag becomes its text |
| Resolve.InheritedAsText | packages/runtime/src/compiler/resolve-variables.ts:12-13 | a reference to an inherited name resolves to the text of what every object inherits |
| Resolve.BoundExactly | packages/runtime/src/compiler/resolve-variables.ts:12-12 | a reference is bound if and only if an input has the name or every object inherits it |
| Resolve.ValueResolves | packages/runtime/src/compiler/resolve-variables.ts:9-19 | a value resolves if and only if all its texts do, and keeps its shape, keys, numbers and order |
| Compile.ResolveVariables | packages/runtime/src/compiler/resolve-variables.ts:4-7 | resolves every step's arguments in order, or fails |
| Compile.BuildGraph | packages/runtime/src/compiler/build-graph.ts:4-20 | succeeds if and only if dependencies are known and acyclic; one node per step, in order |
| Compile.CompileWorkflow | packages/runtime/src/compiler/compile.ts:11-15 | succeeds if and only if the source is acceptable, with one well-formed node per step in order |
| Compile.CompiledIsWellFormed | packages/runtime/src/compiler/build-graph.ts:13-17 | the compiled graph has unique ids, a rank below every dependent, and true payload hashes |
| JsonSort.SortForJson | packages/shared/src/hashing.ts:17-28 | the loop that fills the sorted object computes the sorted form |
| JsonSort.SortedFieldsSpec | packages/shared/src/hashing.ts:20-25 | sorting an object keeps exactly its fields, in JavaScript's enumeration order |
| JsonSort.SortedIdempotent | packages/shared/src/hashing.ts:17-28 | sorting a sorted value changes nothing |
| JsonSort.SortedIffEquivalent | packages/shared/src/hashing.ts:17-28 | two values have the same sorted form if and only if they are equal up to key order |
| JsonText.ValueReads | packages/runtime/src/ledger/store.ts:23-30 | the printed tokens of a sorted value parse back to it, whatever follows |
| JsonText.StringReads | packages/runtime/src/ledger/store.ts:23-30 | every escaped string reads back as itself |
| JsonText.LineReads | packages/runtime/src/ledger/store.ts:23-30 | the text of a file parses back to the sorted value |
| JsonText.PrintInjective | packages/shared/src/hashing.ts:5-7 | different sorted values have different texts |
| JsonText.PrintedStructure | packages/shared/src/hashing.ts:5-7 | how strings, arrays and objects are written: quotes, brackets, commas and colons |
| JsonText.PrintedCharacters | packages/shared/src/hashing.ts:5-7 | how each character of a string is escaped |
| JsonText.EnumerationOrder | packages/shared/src/hashing.ts:20-25 | array indices below 2^32 - 1 come first by number, other keys by UTF-16 code unit |
| Hashing.CanonicalTextIffEquivalent | packages/shared/src/hashing.ts:5-15 | same canonical text if and only if equal up to key order |
| Hashing.LedgerRoundTrip | packages/runtime/src/ledger/store.ts:23-30 | writing and reading gives back the sorted value |
| Hashing.HashSurvivesLedger | packages/shared/src/hashing.ts:13-15 | a hash taken before a write equals the one taken after the read |
| Index.UpsertLists | packages/runtime/src/control-plane/taskflow-mirror.ts:129-141 | rewriting an index for one file keeps exactly one entry per file, sorted by time |
| Index.NewestLast | packages/runtime/src/control-plane/taskflow-mirror.ts:131-139 | with a clock that never goes back the rewritten entry is the last one |
| Mirror.MirrorTellsTruth | packages/runtime/src/control-plane/taskflow-mirror.ts:74-120 | a waiting mirror names a step awaiting approval, a done one has all steps succeeded, one blocked by failure names a failed step |
| Mirror.RecordRepeatsRun | packages/runtime/src/control-plane/taskflow-mirror.ts:74-120 | which mirrored state stands for which run state, both ways, and what the record repeats of the run |
| Mirror.RecordNamesSteps | packages/runtime/src/control-plane/taskflow-mirror.ts:94-120 | the current step is the first awaiting one, else the first running, else the first failed; the wait and the block name theirs |
| Mirror.ListedRun | packages/runtime/src/control-plane/taskflow-mirror.ts:131-139 | each index entry repeats its run's states and time |
| Mirror.ReachedMirror | packages/runtime/src/control-plane/taskflow-mirror.ts:94-120 | the same for the mirror of every reachable stored run |
| Mirror.MirrorOfRunWaits | packages/runtime/src/control-plane/taskflow-mirror.ts:104-112 | a waiting mirror of a reachable run names a step that it lists as awaiting approval |
| Mirror.MirrorStore.Sync | packages/runtime/src/control-plane/taskflow-mirror.ts:122-146 | for keys that enumerate the manifest's steps: rewrites the run's record and index entry and keeps records and index in agreement |
| Mirror.MirrorStore.LatestRun | packages/runtime/src/control-plane/taskflow-mirror.ts:160-175 | the latest run is a recorded run that no other was updated after |
| Controller.StatusIsLastSettled | packages/runtime/src/control-plane/taskflow-controller.ts:188-211 | the last linked run that is not running decides what the flow shows: status, current step, next action, wait, block and cancellation |
| Controller.ListedFlow | packages/runtime/src/control-plane/taskflow-controller.ts:95-108 | each index entry repeats its flow's status, step and time |
| Controller.WaitingFlowNamesStep | packages/runtime/src/control-plane/taskflow-controller.ts:194-198 | when the last linked run that is not running waits and its mirror is that of a reachable run, the flow carries the wait of a step that awaits approval there |
| Controller.AllRunningKeeps | packages/runtime/src/control-plane/taskflow-controller.ts:188-211 | when all linked runs are running the flow is unchanged |
| Controller.AbsorbLinkedRuns | packages/runtime/src/control-plane/taskflow-controller.ts:188-211 | the loop brings every link up to date with its mirror and absorbs the mirrors in order, or throws when one is missing |
| Controller.ControllerStore.Reconcile | packages/runtime/src/control-plane/taskflow-controller.ts:184-216 | saves the reconciled flow, or changes nothing |
| Controller.ControllerStore.SaveFlow | packages/runtime/src/control-plane/taskflow-controller.ts:95-115 | rewrites the flow and its index entry and keeps flows and index in agreement |
| Progress.DriveKeeps | packages/runtime/src/control-plane/progress-reporter.ts:52-94 | over every interleaving of ticks and hooks: unforced reports come after the threshold and a full interval after every earlier report, and step events only in runs already reported as long |
| Progress.TickReportsExactly | packages/runtime/src/control-plane/progress-reporter.ts:52-63 | a tick reports if and only if the threshold has passed and a full interval since every report received |
| Progress.HooksSendExactly | packages/runtime/src/control-plane/progress-reporter.ts:52-94 | over every interleaving each hook adds exactly the events that those sent before call for: starts, due reports, step events, waits with a forced report, and completions of long runs |
| Progress.SpanBound | packages/runtime/src/control-plane/progress-reporter.ts:52-63 | a span of T milliseconds holds at most 1 + T / interval unforced reports |
| Progress.Monitor.MaybeEmitLongRunning | packages/runtime/src/control-plane/progress-reporter.ts:52-63 | the two closure variables and the sent event after one call |
| Progress.Monitor.StepStartedHook | packages/runtime/src/control-plane/progress-reporter.ts:75-79 | the hook computes one step of the specified monitor |
| Progress.Monitor.StepCompletedHook | packages/runtime/src/control-plane/progress-reporter.ts:80-84 | the hook computes one step of the specified monitor |
| Progress.Monitor.ApprovalWaitHook | packages/runtime/src/control-plane/progress-reporter.ts:85-88 | the hook forces a report and then sends the wait |
| Progress.Monitor.RunCompletedHook | packages/runtime/src/control-plane/progress-reporter.ts:89-93 | completion is sent only for long runs |

## Left out

- Re-sorting of stored files inside the protocol: worlds keep the graph as written, and `GraphFile` proves that reading it back changes nothing a bridge checks.
- Torn files and two processes on one run: a write happens whole or not at all, and one operation runs at a time.
- A crash inside `prepareRun` or between a manifest write and its mirror: the run does not exist before its manifest, and no decision reads the mirror back.
- Events, artifacts, checkpoints and output paths: nothing decides on them.
- Receipt signatures: they are written and never verified.
- The run id: one run per ledger, so the bindings to the run hold by construction, and an approval's hash covers its other fields; workflow, graph and proof hashes are not read back by any modelled decision.
- Cryptography: the hash is injective and only the holder of a key makes its tags; key loading and nonces are not modelled, and fresh ids come from the step count.
- Handlers: any answer or exception at any call; command execution and patches are not part of this model.
- Message texts and the `error` fields of steps and receipts.
- The policy's and classifier's contents: only the decision to reject and the policy hash.
- JSON values with `undefined`, `NaN`, `-0`, a `__proto__` key or unpaired surrogates, and UTF-8 encoding; a number is the text that prints it, and the parser reads what the printer writes plus white space, not every text of RFC 8259.
- Calendar dates: times are numbers, and the text order of ISO dates is taken to be their order.
- Mirror and controller files that cannot be parsed: the stores are maps that hold well-formed records.
- Progress messages, the disabled monitor, and timers: a tick may come at any moment.
- The elevated bridge and cell duplicated inside the runtime package, the plugin, the command line, gateway clients, schema guards and packaging.
