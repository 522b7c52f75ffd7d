# Verified model of the OperCerta kernel

OperCerta lets an agent investigate a business object, asks a human to approve the plan it derives,
and then writes exactly one work order, across crashes and restarts. This project models that
machinery and proves what it is built for:

* **The reliability kernel.** Three repositories share four tables; an eight-node graph drives one
  operation through them; a coordinator recovers it after a crash. Any number of workers may race,
  crash between a node's commit and its checkpoint, lose checkpoints and overwrite newer ones with
  older ones. The model shows that the audit trail is always a prefix of a crash-free one, that outcomes
  are sound, exactly when recovery raises, and that retrying it always gets somewhere.
* **The agent graph.** A bounded decide, authorize, read loop around a model that may answer anything,
  followed by approval, re-verification, re-approval and execution. The loop ends within its
  budget, and nothing is written that a human has not approved and that re-read facts do not confirm.
* **Plans and bindings.** Assessment, plan, approval binding and work-order payload for the three
  scenarios: what equal bindings guarantee, and when re-reading unchanged facts keeps a binding.
* **Traces, redaction, evidence and its cache.** Keep-first traces, redaction that loses nothing safe, with
  its exact set of fixed points, all-or-nothing evidence saving, and authentic cache hits.

Repositories, graph, coordinator, trace, cache and evidence store are classes whose methods update
tables in place. Each method is proved equal to a step function on values (`...Step`), and the results
about whole runs are lemmas about those functions. Beside them stand laws, most of them named `...Exactly`,
that say for every operation when it succeeds, how else it ends, and what it then leaves. Everything the
code does not control (clocks, new identifiers, model replies, approvers, gateways, crashes) is a
parameter that may take any value. A locked transaction is one step, and one that raises leaves the tables
as they were, except for approval expiry, which the code commits before it raises.

`dafny verify dfyconfig.toml` checks the project.

## What the proofs found

* `rebuild_from_business_facts` works only while no decision is recorded. After an approval the first
  node raises a transition conflict on every attempt (`RecoveryProgress.DecisionsNeedTheirCheckpoint`,
  with the run that leads there in `RecoveryProgress.LostCheckpointIsFatal`).
* An operation that finishes but dies before its last checkpoint is refused by every later recovery
  (`RecoveryProgress.FinishedOperationIsRefused`), and a checkpoint that lags by more than one transition
  blocks execution; `RecoveryProgress.Stuck` is the complete table and
  `RecoveryProgress.RecoveryRaisesExactly` shows that it is exact.
* The repositories alone allow a rejected operation with a work order and a completed one without.
  `RepositoryRuns` gives both runs. Outcomes stay sound exactly when each caller of a transition has checked
  the decision and the order first (`RepositoryRuns.OutcomesAreSoundExactlyWhenGuarded`), which the graph
  does (`CrashProtocol.DisciplinedCallsAreGuarded`).
* Capturing a trace again never changes its events, but the run's row it does change: a finished run's end
  moves to the new clock reading, and a completed run is set running again by the capture of its
  investigation. `TraceRecording.RecaptureIsSilentExactly` says when a repeated capture changes nothing.
* An entry of another kind under a call's cache key is reported as a hit although the delegate answered
  (`ObservationGateways.ReadsHitExactly`).
* A fresh reading keeps the approval of a repair exactly until its heartbeat turns stale.
* Cache keys ignore arguments a tool does not use; `ObservationGateways.KeysAreSharedExactly` says when two
  calls share an entry. Hits are authentic because the tool policy allows no such arguments.

## Model

| member | source | states |
|---|---|---|
| OperationStates.OperationStateRepository.Transition | src/opercerta/infrastructure/db/operation_state_repository.py:131-201 | the locked transition in place: status, cycle, counter and audit row together, or nothing at all; a replay is accepted only on its own single matching event |
| OperationStates.MarksChangeExactly | src/opercerta/infrastructure/db/operation_state_repository.py:131-245 | in any state of the tables: a named transition moves on from its source, replays in its target if and only if the trail holds just its own event, and is otherwise refused |
| OperationStates.OperationStateRepository.LoadRecoveryView | src/opercerta/infrastructure/db/operation_state_repository.py:30-65 | the view joins the current cycle's approval and the operation's own order, and refuses a foreign thread id |
| RepositoryRuns.JoinsAgree | src/opercerta/infrastructure/db/operation_state_repository.py:30-65 | while orders are sound, joining the order by operation or by idempotency key finds the same row |
| OperationStates.OperationStateRepository.MarkAwaitingApproval | src/opercerta/infrastructure/db/operation_state_repository.py:67-77 | received to awaiting approval, opening cycle one |
| OperationStates.OperationStateRepository.MarkExecuting | src/opercerta/infrastructure/db/operation_state_repository.py:79-90 | resuming to executing, naming the approval |
| OperationStates.OperationStateRepository.MarkVerifying | src/opercerta/infrastructure/db/operation_state_repository.py:92-103 | executing to verifying, naming the order |
| OperationStates.OperationStateRepository.MarkCompleted | src/opercerta/infrastructure/db/operation_state_repository.py:105-116 | verifying to completed, naming the order |
| OperationStates.OperationStateRepository.MarkRejected | src/opercerta/infrastructure/db/operation_state_repository.py:118-129 | resuming to rejected, naming the approval |
| Approvals.ApprovalRepository.SubmitOnce | src/opercerta/infrastructure/db/approval_repository.py:49-131 | the first decision of a cycle is stored, numbered and resumes the operation; later ones change nothing |
| Approvals.ApprovalRepository.SubmitBoundOnce | src/opercerta/infrastructure/db/approval_repository.py:133-262 | as before, only in time and only for the binding rebuilt from stored evidence and plan; expiry is stored although it raises |
| Approvals.BoundSubmissionsDecideExactly | src/opercerta/infrastructure/db/approval_repository.py:133-262 | an open question with a deadline: recorded if and only if in time and for the binding that stored evidence and plan still give, expired if and only if late, refused without a trace otherwise |
| Approvals.OtherSubmissionsExactly | src/opercerta/infrastructure/db/approval_repository.py:49-183 | unknown and decided operations, missing deadlines and unbound answers: which reply each gets, and what is stored |
| WorkOrders.WorkOrderRepository.CreateOrGet | src/opercerta/infrastructure/db/work_order_repository.py:40-63 | the outer call with its integrity-error fallback has the effect of one locked attempt |
| WorkOrders.WorkOrderRepository.CreateOrGetOnce | src/opercerta/infrastructure/db/work_order_repository.py:80-173 | a row, a counter step and an audit row together, for an approved operation in an authorized status; otherwise a replay or an error and no change |
| WorkOrders.OrdersAreCreatedExactly | src/opercerta/infrastructure/db/work_order_repository.py:80-173 | written if and only if approved in this cycle and being carried out; later requests return the stored order if and only if the payload is the same; anything else is refused |
| Tables.KeysAreInjective | src/opercerta/domain/work_orders.py:66-67 | equal idempotency keys mean the same operation |
| RepositoryRuns.OnlySilentCallsChangeNothing | src/opercerta/infrastructure/db/operation_state_repository.py:151-170 | for every repository call, the tables are untouched if and only if the reply is an error other than expiry, a replay or an unchanged transition |
| RepositoryRuns.AuditNumbering | src/opercerta/infrastructure/db/operation_state_repository.py:172-194 | under any interleaving of the three repositories an operation's new audit numbers are consecutive and end at its counter |
| RepositoryRuns.EffectivelyOnce | src/opercerta/infrastructure/db/work_order_repository.py:80-173 | over any run an operation gets at most one row, exactly one call reports it as fresh, and the row never changes |
| RepositoryRuns.OrdersStaySound | src/opercerta/infrastructure/db/work_order_repository.py:101-123 | every stored order belongs to its key's operation, hashes its own payload and was approved in the current cycle |
| RepositoryRuns.OrderPersists | src/opercerta/infrastructure/db/work_order_repository.py:190-203 | an order stored at some point of a run is the one stored at its end |
| RepositoryRuns.AnswersAgree | src/opercerta/infrastructure/db/work_order_repository.py:190-203 | every caller that was answered got its own operation's final row, with the payload it asked for |
| RepositoryRuns.OneDecision | src/opercerta/infrastructure/db/approval_repository.py:133-262 | of all submissions racing on an operation at most one succeeds or expires it |
| RepositoryRuns.DecisionsAreFinal | src/opercerta/infrastructure/db/approval_repository.py:184-247 | recorded approvals survive every call and their bindings keep matching the stored snapshot |
| RepositoryRuns.WinnerIsBound | src/opercerta/infrastructure/db/approval_repository.py:264-303 | a bound submission that wins stored the expected binding, which the stored evidence and plan rebuild, before the deadline |
| RepositoryRuns.MarksAreSoundExactlyWhenGuarded | src/opercerta/infrastructure/db/operation_state_repository.py:79-129 | a transition keeps outcomes consistent with the recorded decision and the stored order if and only if its caller has checked them first |
| RepositoryRuns.OutcomesAreSoundExactlyWhenGuarded | src/opercerta/infrastructure/db/operation_state_repository.py:79-129 | over any run of calls, the outcome stays sound throughout if and only if every transition that changed it was so guarded |
| RepositoryRuns.RejectedWithAnOrderIsPossible | src/opercerta/infrastructure/db/operation_state_repository.py:118-129 | without the graph, a run of calls ends rejected with a work order |
| RepositoryRuns.CompletedWithoutAnOrderIsPossible | src/opercerta/infrastructure/db/operation_state_repository.py:92-116 | without the graph, a run of calls ends completed with no work order |
| ReliabilityGraph.Graph.RunNode | src/opercerta/workflow/reliability_graph.py:78-170 | each node's effect on tables and channels, or the error it raises |
| ReliabilityGraph.OrdersAreVerifiedExactly | src/opercerta/workflow/reliability_graph.py:149-158 | in any state of the tables: verification accepts exactly the stored order with the written identifier and hash |
| ReliabilityGraph.WrittenOrdersAreLocated | src/opercerta/workflow/reliability_graph.py:111-124 | after the write the graph knows the stored order, which hashes the frozen payload, and whether it was there before |
| ReliabilityGraph.Graph.RunNext | src/opercerta/workflow/reliability_graph.py:172-197 | the checkpoint after a node is its successor; the remaining rank strictly falls |
| ReliabilityGraph.Graph.Invoke | src/opercerta/workflow/reliability_graph.py:172-197 | an invocation that is not crashed always ends, waits or raises, and is the uncrashed drive |
| RecoveryCoordination.RecoveryCoordinator.Recover | src/opercerta/workflow/recovery_coordinator.py:30-102 | the validation, the choice of action and the drive it starts, on tables and checkpoint |
| RecoveryCoordination.RecoveryCoordinator.Act | src/opercerta/workflow/recovery_coordinator.py:47-67 | each action enters the graph at the right checkpoint with the right resume value |
| RecoveryActions.RecoveryRefusesExactly | src/opercerta/workflow/recovery_coordinator.py:30-102 | in any state of tables and checkpoint: which inconsistencies recovery refuses, with which error, changing nothing, and that it refuses no others |
| CrashProtocol.DisciplinedCallIsSound | src/opercerta/workflow/reliability_graph.py:78-170 | every call the graph may make keeps all operations' rows, logs and numbers consistent and takes no recorded fact back |
| CrashProtocol.NodesAreDisciplined | src/opercerta/workflow/reliability_graph.py:100-170 | from any checkpoint a worker may hold, however stale, a node only makes such calls |
| CrashProtocol.DisciplinedCallsAreGuarded | src/opercerta/workflow/reliability_graph.py:78-170 | the calls graph nodes make are among those the guard lets through |
| CrashProtocol.NodeLeavesEvidence | src/opercerta/workflow/reliability_graph.py:111-124 | a checkpoint past a node is backed by lasting rows in the database |
| CrashProtocol.EventIsSound | src/opercerta/workflow/recovery_coordinator.py:30-67 | every worker step, crash, lost checkpoint and submission keeps the global invariant |
| CrashProtocol.RunIsSound | src/opercerta/workflow/recovery_coordinator.py:30-67 | the invariant holds in every reachable world of any number of workers |
| CrashProtocol.CrashTransparency | src/opercerta/workflow/reliability_graph.py:78-197 | in every run, an operation's new audit events are a gap-free prefix of a crash-free log, complete exactly when the status says so |
| CrashProtocol.OutcomeSoundness | src/opercerta/workflow/reliability_graph.py:100-170 | completed means approved with one order of the frozen payload; rejected or expired means no order in any continuation; outcomes never change |
| RecoveryRuns.RecoveriesAreRuns | src/opercerta/workflow/recovery_coordinator.py:30-67 | one call of recovery, crashed after any number of steps, is a schedule of one worker's atomic events in the concurrent world, with the same tables and checkpoint |
| RecoveryRuns.HistoriesAreRuns | src/opercerta/workflow/recovery_coordinator.py:30-67 | every history of crashed attempts and answers is a run of the concurrent world, so the stuck and the recoverable states are reachable there |
| RecoveryProgress.LatestMarkReplays | src/opercerta/infrastructure/db/operation_state_repository.py:221-245 | repeating the transition that led to the current status succeeds and changes nothing |
| RecoveryProgress.MarksSucceedExactly | src/opercerta/infrastructure/db/operation_state_repository.py:151-170 | a transition succeeds if and only if the status is its source or its target |
| RecoveryProgress.NodeOutcome | src/opercerta/workflow/reliability_graph.py:78-170 | for every sound state, which nodes raise, which pause, and the status the others leave |
| RecoveryProgress.DriveFollows | src/opercerta/workflow/reliability_graph.py:172-197 | a drive over the tables refines a drift over statuses alone, and keeps everything sound |
| RecoveryProgress.RecoveryRaisesExactly | src/opercerta/workflow/recovery_coordinator.py:30-102 | in every sound state uncrashed recovery raises if and only if status and checkpoint are in the table of stuck states |
| RecoveryProgress.RetriesAreBounded | src/opercerta/workflow/recovery_coordinator.py:30-67 | however often recovery is crashed and retried, at most sixteen attempts that finish a node can leave an operation unsettled |
| RecoveryProgress.RecoveryMakesProgress | src/opercerta/workflow/recovery_coordinator.py:30-67 | with answers given at the interrupt, recovering an unfinished operation never raises and settles it as decided, with the crash-free log |
| RecoveryProgress.DecisionsNeedTheirCheckpoint | src/opercerta/workflow/recovery_coordinator.py:47-48 | with its checkpoint lost, an unfinished operation can be recovered if and only if no decision is recorded |
| RecoveryProgress.LostCheckpointIsFatal | src/opercerta/workflow/recovery_coordinator.py:47-67 | from any fresh operation: start it, decide it, lose its checkpoint, and recovery raises |
| RecoveryProgress.FinishedOperationIsRefused | src/opercerta/workflow/recovery_coordinator.py:91-102 | from any fresh operation: start it, decide it, crash after its last commit, and every recovery is refused with one error |
| RecoveryProgress.ReachableRecoverySettles | src/opercerta/workflow/recovery_coordinator.py:30-67 | however many workers raced before, recovery of an operation whose checkpoint lags by at most one transition settles it as decided |
| RecoveryActions.ReportedActionsAreTrue | src/opercerta/domain/recovery.py:66-81 | in every reachable world: each action is returned exactly for its status, decision, order and checkpoint, and what that recovery has then done |
| Replenishment.PlannedQuantity | src/opercerta/domain/replenishment.py:203-274 | a plan orders exactly up to the target stock, within the limits, only below the reorder point |
| ScenarioOutcomes.StockIsAssessedExactly | src/opercerta/domain/replenishment.py:203-246 | an assessment reports the position and the limits, and asks for the missing stock if and only if it is below the reorder point |
| Replenishment.BindingExact | src/opercerta/domain/replenishment.py:249-288 | binding facts are equal if and only if item, availability, thresholds and rule version are |
| Maintenance.RequiredRepairIsPlannable | src/opercerta/domain/maintenance.py:188-271 | a required repair always has a code and a priority, so building its plan cannot raise |
| ScenarioOutcomes.RepairsAnswerTheDecisiveCause | src/opercerta/domain/maintenance.py:188-238 | a repair is required if and only if alert or silence applies, and answers the one no other outranks, with its mapped priority and its code |
| ScenarioOutcomes.StaleExactly | src/opercerta/domain/maintenance.py:193-200 | a heartbeat is stale from one second past the limit, counted in whole seconds |
| Maintenance.StalenessIsMonotone | src/opercerta/domain/maintenance.py:188-238 | time only turns a live heartbeat stale, in whole seconds |
| Maintenance.BindingExact | src/opercerta/domain/maintenance.py:241-289 | binding facts are equal if and only if the decision facts are, staleness included |
| ScenarioOutcomes.RecoveryIsAssessedExactly | src/opercerta/domain/task_recovery.py:173-213 | a task is recovered if and only if blocked or overdue, for the first of these reasons, as the policy says |
| TaskRecovery.BindingExact | src/opercerta/domain/task_recovery.py:216-258 | binding facts are equal if and only if task, state, blocker, retries, blocked reason and rule version are; deadlines play no part |
| ScenarioRuntime.EvaluatedPlansAreBindable | src/opercerta/application/scenario_registry.py:105-200 | every plan an evaluation returns was asked for, fits its evidence and is hashed over its own facts |
| ScenarioOutcomes.ResultsAreOfTheObservedEvidence | src/opercerta/application/scenario_registry.py:105-200 | a result is the evaluation of exactly the evidence the last successful reads of subject and policy returned under their identifiers |
| ScenarioOutcomes.EvaluationsSucceedExactly | src/opercerta/application/scenario_registry.py:105-200 | from the evidence's fields: when an evaluation fails, with which error, and when it plans |
| ScenarioOutcomes.OrdersMeetTheNeed | src/opercerta/application/scenario_runtime.py:126-152 | from evidence to payload, field by field: the missing stock, the repair for the decisive cause, the requeueing of a task |
| ScenarioOutcomes.BindingsShowTheOrder | src/opercerta/application/scenario_runtime.py:100-152 | a binding names its readings and plan, and its parameters are those of the order |
| ScenarioOutcomes.ProposalsShowTheOrder | src/opercerta/workflow/agent_controlled_action_graph.py:79-115 | the verifier is shown the order's own object and parameters |
| ScenarioRuntime.PlanHashFixesPayload | src/opercerta/application/scenario_runtime.py:126-152 | equal plan hashes mean equal work-order payloads, across all scenarios |
| ScenarioRuntime.BindingSoundness | src/opercerta/application/scenario_runtime.py:116-152 | equal binding facts mean equal payloads field by field, whatever evidence they came from |
| ScenarioRuntime.BindingStability | src/opercerta/application/scenario_runtime.py:116-123 | re-reading unchanged facts in time always plans again and keeps the binding facts, for repairs if and only if staleness has not flipped |
| ScenarioRuntime.QuantityWithinBothPolicies | src/opercerta/domain/replenishment.py:203-288 | two plans with equal binding facts order one quantity that respects both policies' unhashed limits |
| ToolPolicies.ToolPolicy.AuthorizeExtends | src/opercerta/agent/tool_policy.py:58-100 | a call is authorized if and only if the list with it is still goal-bound, distinct and within budget |
| ToolPolicies.ToolPolicy.RefusalsSayWhy | src/opercerta/agent/tool_policy.py:58-100 | which of the four refusals a call gets: budget, other object, unexpected tool or arguments, repetition |
| ToolPolicies.ToolPolicy.OfferIsExact | src/opercerta/agent/tool_policy.py:102-150 | the offered tools are exactly those with expected arguments, each once |
| ToolPolicies.ToolPolicy.AdmittedCallsAreFew | src/opercerta/agent/tool_policy.py:66-100 | authorized calls never exceed the smaller of budget and offer |
| AgentLoops.AuthorizeTurn | src/opercerta/workflow/inventory_agent_root_graph.py:352-370 | the loop authorizes a turn whole, exactly when all its calls together are admissible, or refuses it |
| AgentLoops.ExecuteReads | src/opercerta/workflow/inventory_agent_root_graph.py:372-381 | the loop completes the observations one for one and in order, keeping those already there |
| AgentLoops.ReadsAreIdempotent | src/opercerta/workflow/inventory_agent_root_graph.py:372-381 | replaying the reads adds nothing, even if the gateway now answers differently |
| AgentLoops.DecideKeepsLoop | src/opercerta/workflow/inventory_agent_root_graph.py:307-343 | an accepted turn changes neither calls nor observations and is paid for |
| AgentLoops.AuthorizeKeepsLoop | src/opercerta/workflow/inventory_agent_root_graph.py:352-370 | an authorized turn strictly extends the calls and keeps the loop invariant |
| AgentLoops.LoopIsBounded | src/opercerta/agent/harness.py:45-62 | in every loop state calls and model turns are bounded by budget and offer |
| RootRuns.AgentLoopIsSafe | src/opercerta/workflow/inventory_agent_root_graph.py:307-381 | in every run with any model: goal-bound distinct calls, bounded turns, and one observation per call in order whenever the model is asked |
| RootRuns.ModelBudgetIsNeverExceeded | src/opercerta/workflow/inventory_agent_root_graph.py:307-310 | a budget of two more model calls than possible tool calls is never exceeded |
| RootRuns.DefaultBudgetSuffices | src/opercerta/workflow/inventory_agent_root_graph.py:234-241 | with the default budget the model-budget failure is unreachable |
| RootRuns.LoopTerminates | src/opercerta/workflow/inventory_agent_root_graph.py:307-381 | in any run, with crashes and replays, at most three surviving loop steps per possible call and two more are ever taken |
| RootRuns.LoopHistoryGrows | src/opercerta/workflow/inventory_agent_root_graph.py:352-381 | over any run calls and observations only grow, and once the loop is over its channels stay as they are |
| RootRuns.RejectedTurnsLeaveNoTrace | src/opercerta/workflow/inventory_agent_root_graph.py:338-370 | whatever turn ends the loop, both lists stay for the rest of the run as they were before it |
| RootOutcomes.GoalsAreTrustedExactly | src/opercerta/workflow/inventory_agent_root_graph.py:276-305 | a run begins if and only if the model's goal is the one the operation was opened with and it can be stored |
| RootOutcomes.RoundsSucceedExactly | src/opercerta/workflow/inventory_agent_root_graph.py:307-381 | over three steps: a turn's reads are carried out whole, in order, and reported as answered, if and only if the turn fits schema, budgets and policy; otherwise the run fails |
| RootOutcomes.FinalTurnsSucceedExactly | src/opercerta/workflow/inventory_agent_root_graph.py:307-405 | a final turn is accepted if and only if a model call is left, subject, policy and any required knowledge were read, and nothing is reported missing |
| RootOutcomes.PlansReachTheHuman | src/opercerta/workflow/inventory_agent_root_graph.py:407-485 | an evaluated plan reaches the interrupt bound to its evidence, a query is answered, and an evaluation error fails the run |
| RootGraph.ResultsAreEvaluated | src/opercerta/workflow/inventory_agent_root_graph.py:407-433 | a successful evaluation holds valid evidence from which its plan follows, and the plan can be bound |
| RootGraph.RunsAreSound | src/opercerta/workflow/inventory_agent_root_graph.py:407-606 | in every run plan, evidence and binding correspond and are replaced together, over any number of re-approvals |
| RootRuns.ApprovedWorkWasApproved | src/opercerta/workflow/inventory_agent_root_graph.py:487-606 | approved work goes back to the last answer given at the interrupt, which approved this very plan, binding and evidence |
| RootRuns.ActionWasReread | src/opercerta/workflow/inventory_agent_root_graph.py:518-651 | work under way was re-read at a definite step, whose verdict consented and whose reading confirmed the binding at that step's clock |
| RootRuns.RefreshProceedsExactly | src/opercerta/workflow/inventory_agent_root_graph.py:518-584 | at any point of a run re-verification leads to execution if and only if the verifier consents and the facts read there give the binding facts the human approved |
| RootRuns.DisagreementReturnsToHuman | src/opercerta/workflow/inventory_agent_root_graph.py:518-606 | if re-verification does not lead on, anything acted upon later was approved by a later answer, in the form it then had |
| RootOutcomes.RefreshRoutesExactly | src/opercerta/workflow/inventory_agent_root_graph.py:518-606 | at any point of a run: when re-verification fails, when it aborts (on the verifier's word, or with nothing left to do), when it acts, and when it returns to the human, and with which plan |
| RootOutcomes.RefreshesReadTheGoal | src/opercerta/workflow/inventory_agent_root_graph.py:518-526 | the facts are read again with the arguments the policy allows the model, and the observations report what the gateway said |
| RootOutcomes.AbortsAreFinal | src/opercerta/workflow/inventory_agent_root_graph.py:581-620 | after the verifier's abort a run asks nobody, acts on nothing, and can only end aborted or failed |
| RootOutcomes.RejectionsAreFinal | src/opercerta/workflow/inventory_agent_root_graph.py:487-516 | after a human's no a run can only end rejected or failed |
| RootOutcomes.EndsAreStoredExactly | src/opercerta/workflow/inventory_agent_root_graph.py:507-620 | a rejection or an abort ends the run with its status exactly if it can be stored |
| RootOutcomes.AnswersAreTaken | src/opercerta/workflow/inventory_agent_root_graph.py:487-505 | the interrupt waits, fails on a malformed answer, or takes the answer and keeps everything it was given for |
| RootOutcomes.ReapprovalsAskAgain | src/opercerta/workflow/inventory_agent_root_graph.py:586-606 | a changed plan goes back to the interrupt with the earlier answer taken back |
| RootOutcomes.ActionCompletesExactly | src/opercerta/workflow/inventory_agent_root_graph.py:622-700 | over five steps: work is completed if and only if it is stored, written, and read back as written; otherwise the run fails |
| RootRuns.NothingUnapprovedExecutes | src/opercerta/workflow/inventory_agent_root_graph.py:487-651 | at the write, the last answer approved this plan and binding, and a later step re-read the facts, had the verifier's consent, and at its own clock found the approved binding facts and the same order |
| RootRuns.QuantityIsWithinPolicies | src/opercerta/workflow/inventory_agent_root_graph.py:518-651 | every replenishment order is positive, fills up to the target, and respects the limits approved and those read again after the last approval |
| Verification.SameProposalSameOrder | src/opercerta/workflow/agent_controlled_action_graph.py:79-115 | a verifier proposal equal to the approved plan names the same work order |
| Verification.ContextIsFaithful | src/opercerta/workflow/agent_controlled_action_graph.py:140-207 | evaluating what the verifier is shown gives what evaluating the evidence gives |
| Traces.AgentTraceRepository.StartRun | src/opercerta/infrastructure/db/agent_trace_repository.py:33-80 | one run per operation and key; a replay returns it unchanged or reports a contract mismatch |
| Traces.AgentTraceRepository.AppendEvent | src/opercerta/infrastructure/db/agent_trace_repository.py:82-159 | a new key appends the next number; a known key returns the stored event and changes nothing |
| Traces.AgentTraceRepository.FinishRun | src/opercerta/infrastructure/db/agent_trace_repository.py:161-177 | status and end time of one run; a running run has no end |
| Traces.AgentTraceRepository.ClaimOwner | src/opercerta/infrastructure/db/agent_trace_repository.py:179-206 | an unowned primary run is claimed; an owned one answers whether the subject owns it |
| Traces.FirstsAreKept | src/opercerta/infrastructure/db/agent_trace_repository.py:96-105 | deduplication keeps a command if and only if it is the first with its key |
| Traces.AppendsKeepFirst | src/opercerta/infrastructure/db/agent_trace_repository.py:82-159 | after any appends a run's log is the keep-first deduplication of all commands, numbered from one to its counter; other runs are untouched |
| Traces.AppendsReplyExactly | src/opercerta/infrastructure/db/agent_trace_repository.py:82-159 | an append returns the event stored under its key: the earlier one as a replay, or the new one under the next number |
| Traces.RecaptureChangesNothing | src/opercerta/agent/trace_recorder.py:411-445 | appending events with known keys, whatever their contents and times, leaves the whole store as it was |
| Traces.LaterCapturesExtend | src/opercerta/infrastructure/db/agent_trace_repository.py:82-159 | appending a list with distinct keys adds exactly those of its events whose keys are new, in order |
| Traces.CallKeepsStore | src/opercerta/infrastructure/db/agent_trace_repository.py:33-206 | every call keeps numbering, keys and index sound, only extends logs and never moves an owner |
| Traces.FirstClaimStands | src/opercerta/infrastructure/db/agent_trace_repository.py:179-206 | after any further calls exactly the first claimant's claims succeed |
| Traces.FirstClaimDecides | src/opercerta/infrastructure/db/agent_trace_repository.py:179-206 | the first claim of an unowned run succeeds, and decides all later ones |
| Traces.RunsAreStartedOnce | src/opercerta/infrastructure/db/agent_trace_repository.py:33-80 | a first start opens an empty running run; a later one finds it if and only if scenario and model are the same |
| TraceRecording.TraceRecorder.CaptureInvestigation | src/opercerta/agent/trace_recorder.py:103-287 | a capture starts or finds the primary run, appends all its events, each at its own clock reading, and sets status and end |
| TraceRecording.KeysAreDistinctExactly | src/opercerta/agent/trace_recorder.py:158-205 | a capture's keys are distinct if and only if its tool-call ids are |
| TraceRecording.EventsTellTheInvestigation | src/opercerta/agent/trace_recorder.py:103-282 | a capture's events are exactly those of the investigation, in order, with their actors, outcomes and redacted contents |
| TraceRecording.RunsEndExactly | src/opercerta/agent/trace_recorder.py:283-286 | a captured run has failed if and only if the investigation has, goes on if and only if an order was asked for, and has an end unless it goes on |
| TraceRecording.FirstCaptureIsComplete | src/opercerta/agent/trace_recorder.py:103-287 | a first capture records every event in order, each at its own time and redacted, and sets the run's status and end |
| TraceRecording.EventsAreTimed | src/opercerta/agent/trace_recorder.py:103-287 | the run starts at the first clock reading and each event is recorded at the next one |
| TraceRecording.CapturesExtend | src/opercerta/agent/trace_recorder.py:103-287 | a capture of a known run keeps its log, appends exactly the events with new keys, and sets its status and end |
| TraceRecording.LaterCaptureExtends | src/opercerta/agent/trace_recorder.py:103-287 | a second capture, at later times and of a grown state, adds exactly what the first did not have; of the same events it adds none |
| TraceRecording.RecaptureIsSilentExactly | src/opercerta/agent/trace_recorder.py:103-287 | a repeated capture leaves the store, or just the run's row, alone if and only if the run has this status and end already and knows all keys |
| TraceRecording.RepetitionMovesTheEnd | src/opercerta/agent/trace_recorder.py:283-286 | a repeated capture of a finished state keeps the log and moves the run's end to its own last clock reading |
| TraceRecording.RecaptureMovesTheEnd | src/opercerta/agent/trace_recorder.py:283-286 | a concrete query captured twice, whose end differs after the second capture |
| TraceRecording.RecaptureReopens | src/opercerta/agent/trace_recorder.py:283-286 | capturing the investigation of a requested work order again sets its run running without an end, whatever status it had |
| TraceRedaction.SanitizeValue | src/opercerta/agent/trace_recorder.py:64-82 | the recursive loop computes the redaction function |
| TraceRedaction.RedactTracePayload | src/opercerta/agent/trace_recorder.py:57-61 | a payload stays an object, so the type check never fires, and comes out redacted |
| TraceRedaction.SanitizingRedacts | src/opercerta/agent/trace_recorder.py:64-82 | any input comes out with bounded nesting, width, keys and text and no forbidden key, colliding truncated keys included |
| TraceRedaction.FixpointsExactly | src/opercerta/agent/trace_recorder.py:64-82 | redaction leaves a value alone if and only if it is redacted already |
| TraceContents.RedactionKeepsExactly | src/opercerta/agent/trace_recorder.py:64-82 | nothing safe is lost: which keys stay, in which order, with which entry's value; which list items; how much of a text |
| TraceContents.ForbiddenExactly | src/opercerta/agent/trace_recorder.py:30-55 | a key is forbidden if and only if it is a listed name in any case, with dashes or underscores, and with any spaces around it |
| TraceRedaction.SanitizingIsIdempotent | src/opercerta/agent/trace_recorder.py:64-82 | redacting twice is redacting once, at every depth |
| TraceRedaction.EveryLevelIsSafe | src/opercerta/agent/trace_recorder.py:30-55 | along every path into redacted output: at most four levels, no forbidden key, at most fifty entries |
| EvidenceCaches.RedisEvidenceCache.Lookup | src/opercerta/infrastructure/cache.py:69-84 | an unexpired value, a miss, or unavailable |
| EvidenceCaches.RedisEvidenceCache.Set | src/opercerta/infrastructure/cache.py:88-99 | a reachable cache stores the value until the lifetime is over; any failure changes nothing |
| ObservationGateways.CachedReadToolGateway.ReadAgentTool | src/opercerta/infrastructure/observation_gateway.py:37-69 | cache-aside reading with bypass, restore failures and delegate errors |
| ObservationGateways.KeysAreSharedExactly | src/opercerta/infrastructure/observation_gateway.py:82-118 | two calls share an entry if and only if they are calls of one tool for one object |
| ObservationGateways.AllowedKeysAreInjective | src/opercerta/infrastructure/observation_gateway.py:82-118 | calls the tool policy allows have keys, and share one only if tool and arguments are the same |
| ObservationGateways.HitsAreAuthentic | src/opercerta/infrastructure/observation_gateway.py:37-69 | over any reads, a hit is what the delegate returned for this tool and these arguments, cached less than the lifetime ago |
| ObservationGateways.ReadsHitExactly | src/opercerta/infrastructure/observation_gateway.py:37-69 | when a read is answered from the cache and when by the delegate, what is cached, and which status is reported |
| ObservationGateways.CachedEvidenceLasts | src/opercerta/infrastructure/observation_gateway.py:37-69 | over any reads, cached evidence answers its call until it expires, without the delegate |
| ObservationGateways.ReadsAreRefusedExactly | src/opercerta/infrastructure/observation_gateway.py:82-118 | a cached read is refused if and only if its arguments name no object |
| ObservationGateways.FailuresAreMisses | src/opercerta/infrastructure/cache.py:69-84 | an unreachable cache answers like an empty one but for the reported status |
| ObservationGateways.BypassReadsAreInvisible | src/opercerta/infrastructure/observation_gateway.py:42-46 | over any reads, those that bypass the cache leave no trace in it and are answered by the delegate alone |
| ObservationGateways.UnlistedArgumentsShareAKey | src/opercerta/infrastructure/observation_gateway.py:82-118 | outside the tool policy two different calls can share an entry |
| EvidenceStore.EvidenceRepository.Save | src/opercerta/infrastructure/db/evidence_repository.py:82-159 | the loop over both halves commits both or neither |
| EvidenceStore.SavesAreAllOrNothing | src/opercerta/infrastructure/db/evidence_repository.py:91-159 | a save is accepted if and only if the operation exists and neither half contradicts a stored row; refused ones change nothing |
| EvidenceStore.SavedBundlesAreReadBack | src/opercerta/infrastructure/db/evidence_repository.py:82-227 | round trip: after an accepted save and any others, each half holds its own reading, version, times and labels, and together they are the bundle again |
| EvidenceStore.ExpiryIsFreshness | src/opercerta/infrastructure/db/evidence_repository.py:174-227 | the stored expiries say exactly when an assessment still accepts the bundle |
| EvidenceStore.FirstWriteWins | src/opercerta/infrastructure/db/evidence_repository.py:82-159 | over any saves a stored row never changes, names its operation and evidence, and hashes its content |
| EvidenceStore.RepeatedSavesAgree | src/opercerta/infrastructure/db/evidence_repository.py:111-125 | repeating a save, after any others, returns the same records and changes nothing |

## Left out

- Work orders written by a caller outside the graph while an operation is resuming: the crash protocol only lets graph nodes write; `RepositoryRuns` covers such callers on the repositories alone.
- `replenishment_operation_repository.py` and `signal_repository.py`: not part of this model; the agent graph's calls to them succeed or fail at will.
- The scenario-specific legacy graphs with their recovery and runners: they repeat the agent graph.
- SHA-256 and canonical JSON: a digest remembers what it was taken of, so equal digests mean equal content.
- Identifier generation: new identifiers are parameters; where uniqueness matters it is a stated assumption, and primary-key collisions are not modelled.
- Graph engine internals: only the next node, the interrupt and the channel values are kept, with a checkpoint after each node's commit and the input checkpoint before the first node.
- RecoveryProgress.RecoveryMakesProgress: follows one recovering worker at a time and counts an answer only at the interrupt, because an answer stored earlier, or a slower worker's older checkpoint, can lead to a state of the stuck table; `ReachableRecoverySettles` covers every reachable world whose checkpoint lags by at most one transition.
- RecoveryProgress.RetriesAreBounded: the same histories, for the same reason.
- TraceRecording.TraceRecorder.CaptureInvestigation: request, intent, goal, plan and analysis enter as the JSON values the source dumps them to; how they are dumped is not modelled. Citation scores enter already clamped, and state entries of the wrong shape, which the source skips or refuses, are not representable.
- Malformed stored values (unknown status texts, unparsable channel or snapshot contents) and string patterns of the data classes: typed data cannot hold them; numeric and relational validators are kept.
- Timezone checks: an instant is an integer of microseconds.
- Case folding and stripping of trace keys beyond ASCII.
- OperationStates.OperationStateRepository.LoadRecoveryView: joins the work order by idempotency key where the query joins by operation; `JoinsAgree` shows that both find the same row in all sound tables. Reads of the table by row identifier (`get`) are not modelled.
- The legacy inventory columns an approval row also fills, and the human-readable parts of errors and results.
- Citation rows of trace events: stored with their event instead of in a table of their own. `capture_operation_outcome` appends through the same calls and is not modelled.
- Evidence and knowledge content as free JSON: payloads are typed by their evidence model, and a cached value that its model rejects is one of another type.
- HTTP, authentication, MCP transport, embeddings, metrics, tracing spans, the web client, scripts and migrations: wrappers and plumbing around the modelled code.
