/** The production agent graph: investigate, plan, ask a human, re-verify, then act.

    The model, the approver, the clock, the read gateways and the operation repository are an
    `Environment` that may answer anything at every step, or crash before a step is checkpointed. */
module RootGraph {
  import opened AgentDomain
  import opened AgentLoops
  import opened Digests
  import opened ScenarioRuntime
  import opened Scenarios
  import opened ToolPolicies
  import opened Verification
  import opened Wrappers
  import ReliabilityGraph
  import Replenishment
  import Tables

  datatype RootNode =
    | EncodeGoal | BeginOperation
    | ModelDecide | AuthorizeTools | ExecuteReadTools
    | ValidateFinalAnalysis | CalculatePolicy | PersistPolicyResult
    | ApprovalInterrupt | MarkRejected
    | RefreshAndVerify | MarkNeedsReapproval | MarkVerifierAborted
    | MarkExecuting | ExecuteWorkOrder | MarkVerifying | VerifyWorkOrder | MarkCompleted
    | MarkFailed

  datatype RootStatus =
    | Running | QueryCompleted | AwaitingApproval | NeedsReapproval | Completed | Rejected | Aborted | Failed

  datatype RootState = RootState(
    next: Option<RootNode>,
    loop: LoopState,
    analysis: Option<Explanation>,
    evidence: Option<Evidence>,
    assessment: Option<Assessment>,
    plan: Option<Plan>,
    binding: Option<ApprovalBinding>,
    approval: Option<ReliabilityGraph.ApprovalResume>,
    refreshed: seq<Observation>,
    verification: Option<VerificationDecision>,
    route: Option<Route>,
    workOrder: Option<Tables.WorkOrderRow>,
    replayed: bool,
    status: RootStatus,
    failure: Option<Failure>)

  /** What a human's resume of the interrupt amounts to. */
  datatype Answer = NoAnswer | Malformed | Resumed(approval: ReliabilityGraph.ApprovalResume)

  datatype Environment = Environment(
    survives: bool,
    goalReply: Option<GoalEncoding>,
    turnReply: Option<Turn>,
    gateway: ToolCall -> ReadReply,
    refreshGateway: ToolCall -> ReadReply,
    clock: Instant,
    repositoryAccepts: bool,
    answer: Answer,
    verdict: Option<VerificationDecision>,
    written: Option<(Tables.WorkOrderRow, bool)>,
    stored: Option<Tables.WorkOrderRow>)

  const INITIAL_LOOP: LoopState := LoopState(None, None, [], [], 0, 0)

  const INITIAL: RootState :=
    RootState(Some(EncodeGoal), INITIAL_LOOP, None, None, None, None, None, None, [], None, None, None, false, Running, None)

  function Fail(s: RootState, failure: Failure): RootState {
    s.(status := Failed, failure := Some(failure), next := Some(MarkFailed))
  }

  /** A node that only calls the operation repository. */
  function Guarded(s: RootState, e: Environment, onward: RootState): RootState {
    if e.repositoryAccepts then onward else Fail(s, DependencyUnavailable)
  }

  // ---- Nodes ---------------------------------------------------------------------------------------------

  function EncodeGoalNode(s: RootState, intent: GoalEncoding, e: Environment): RootState {
    if e.goalReply.None? then Fail(s, ModelOutputInvalid)
    else if e.goalReply.value != intent then Fail(s, TrustedGoalMismatch)
    else s.(loop := s.loop.(goal := e.goalReply, modelCalls := 1), next := Some(BeginOperation))
  }

  function ModelDecideNode(config: Config, s: RootState, e: Environment): RootState {
    match DecideStep(config, s.loop, e.turnReply)
    case Err(f) => Fail(s, f)
    case Ok(loop) =>
      s.(loop := loop, next := Some(if e.turnReply.value.ToolDecision? then AuthorizeTools else ValidateFinalAnalysis))
  }

  function AuthorizeToolsNode(config: Config, s: RootState): RootState
    requires s.loop.goal.Some?
  {
    match AuthorizeStep(config, s.loop)
    case Err(f) => Fail(s, f)
    case Ok(loop) => s.(loop := loop, next := Some(ExecuteReadTools))
  }

  /** A tool has evidence when its last observation that counts, a successful one, exists. */
  predicate HasRequired(config: Config, goal: GoalEncoding, observations: seq<Observation>) {
    && Successful(observations, SubjectTool(goal.scenario)).Some?
    && Successful(observations, PolicyConstraints).Some?
    && (config.knowledgeRequired ==> Successful(observations, KnowledgeSearch).Some?)
  }

  function ValidateFinalNode(config: Config, s: RootState): RootState
    requires s.loop.goal.Some?
  {
    if s.loop.lastTurn.None? || !s.loop.lastTurn.value.Final? then Fail(s, AgentTurnRouteInvalid) else
    var final := s.loop.lastTurn.value.analysis;
    if !HasRequired(config, s.loop.goal.value, s.loop.observations) || final.missingEvidence
    then Fail(s, RequiredEvidenceIncomplete)
    else s.(analysis := Some(final.explanation), next := Some(CalculatePolicy))
  }

  function CalculatePolicyNode(s: RootState, e: Environment): (r: RootState)
    requires s.loop.goal.Some? && s.analysis.Some?
    ensures r.loop == s.loop && r.next == Some(PersistPolicyResult)
  {
    match EvaluateAgentResult(s.loop.goal.value, s.loop.observations, s.analysis.value, e.clock)
    case Err(reason) => s.(status := Failed, failure := Some(PolicyGuardFailed(reason)), next := Some(PersistPolicyResult))
    case Ok(result) =>
      s.(evidence := Some(result.evidence), assessment := Some(result.assessment), plan := result.plan,
      status := if s.loop.goal.value.goal.CreateWorkOrder? && result.plan.Some? then AwaitingApproval else QueryCompleted,
      next := Some(PersistPolicyResult))
  }

  function RoutePolicy(s: RootState): Option<RootNode> {
    if s.status.Failed? then Some(MarkFailed) else if s.status.AwaitingApproval? then Some(ApprovalInterrupt) else None
  }

  function PersistPolicyNode(config: Config, s: RootState, e: Environment): RootState {
    if s.status.Failed? || !config.runtimePresent then s.(next := RoutePolicy(s))
    else if !e.repositoryAccepts then Fail(s, DependencyUnavailable)
    else if s.status.AwaitingApproval? then
      var binding := if s.evidence.Some? && s.plan.Some? then BuildBinding(s.evidence.value, s.plan.value) else None;
      if binding.None? then Fail(s, DependencyUnavailable) else s.(binding := binding, next := Some(ApprovalInterrupt))
    else s.(status := Completed, next := None)
  }

  function ApprovalInterruptNode(s: RootState, e: Environment): RootState {
    match e.answer
    case NoAnswer => s
    case Malformed => Fail(s, ApprovalResumeInvalid)
    case Resumed(a) =>
      s.(approval := Some(a), next := Some(if a.decision.Approve? then RefreshAndVerify else MarkRejected))
  }

  function RefreshCalls(goal: GoalEncoding): (ToolCall, ToolCall) {
    var key := SubjectKey(goal.scenario);
    (ToolCall("refresh-subject", SubjectTool(goal.scenario), map[key := JText(goal.objectId)]),
     ToolCall("refresh-policy", PolicyConstraints, map["action" := JText(ActionName(goal.scenario)), key := JText(goal.objectId)]))
  }

  function Refresh(goal: GoalEncoding, gateway: ToolCall -> ReadReply): seq<Observation> {
    var (subject, policy) := RefreshCalls(goal);
    [Observe(subject, gateway(subject)), Observe(policy, gateway(policy))]
  }

  /** Judge the refreshed facts. Every exception in here becomes one failure code. */
  function RefreshNode(config: Config, s: RootState, e: Environment): (r: RootState)
    requires s.loop.goal.Some?
    ensures r.loop == s.loop && (r.failure == s.failure || r.failure != Some(ModelBudgetExceeded))
    ensures r.next in {Some(MarkFailed), Some(MarkExecuting), Some(MarkVerifierAborted), Some(MarkNeedsReapproval)}
  {
    if !config.runtimePresent then Fail(s, RuntimeMissing) else
    var refreshed := Refresh(s.loop.goal.value, e.refreshGateway);
    if exists o | o in refreshed :: !o.succeeded then Fail(s, EvidenceUnavailable)
    else if s.analysis.None? || s.plan.None? || s.evidence.None? then Fail(s, ApprovalSnapshotMismatch)
    else match EvaluateAgentResult(s.loop.goal.value, refreshed, s.analysis.value, e.clock)
         case Err(_) => Fail(s, ApprovalSnapshotMismatch)
         case Ok(result) => JudgeRefreshed(s, e, refreshed, result)
  }

  /** Replan, stop or go on. Replanning replaces evidence, assessment, plan and binding together. */
  function FollowRoute(s: RootState, result: ScenarioResult, route: Route): RootState {
    match route
    case ToProceed => s.(route := Some(ToProceed), next := Some(MarkExecuting))
    case ToAbort => s.(route := Some(ToAbort), next := Some(MarkVerifierAborted))
    case ToReapproval =>
      s.(route := Some(ToReapproval), evidence := Some(result.evidence), assessment := Some(result.assessment), plan := result.plan,
      binding := if result.plan.Some? then BuildBinding(result.evidence, result.plan.value) else None,
      next := Some(MarkNeedsReapproval))
  }

  function JudgeRefreshed(s: RootState, e: Environment, refreshed: seq<Observation>, result: ScenarioResult): (r: RootState)
    requires s.plan.Some? && s.evidence.Some?
    ensures r.loop == s.loop && (r.failure == s.failure || r.failure != Some(ModelBudgetExceeded))
    ensures r.next in {Some(MarkFailed), Some(MarkExecuting), Some(MarkVerifierAborted), Some(MarkNeedsReapproval)}
  {
    if BuildVerificationContext(s.plan.value, s.evidence.value, result.evidence).None? || e.verdict.None?
    then Fail(s, ApprovalSnapshotMismatch)
    else
      var s' := s.(refreshed := refreshed, verification := e.verdict);
      if result.plan.None? then FollowRoute(s', result, ToAbort)
      else
        var binding := BuildBinding(result.evidence, result.plan.value);
        if binding.None? || s.binding.None? then Fail(s, ApprovalSnapshotMismatch)
        else FollowRoute(s', result, ChooseVerificationRoute(e.verdict.value, s.plan.value,
                                                             FactsOf(binding.value) == FactsOf(s.binding.value)))
  }

  /** The payload `execute_work_order` sends. */
  function Command(s: RootState): Option<Tables.Payload> {
    if s.plan.None? then None else Some(WorkOrderPayload(s.plan.value))
  }

  function ExecuteNode(s: RootState, e: Environment): RootState {
    if s.plan.None? || e.written.None? then Fail(s, WorkOrderStorageFailed)
    else s.(workOrder := Some(e.written.value.0), replayed := e.written.value.1, next := Some(MarkVerifying))
  }

  function VerifyNode(s: RootState, e: Environment): RootState {
    if s.workOrder.None? || e.stored.None?
       || e.stored.value.id != s.workOrder.value.id
       || e.stored.value.operationId != s.workOrder.value.operationId
       || e.stored.value.payload != s.workOrder.value.payload
       || e.stored.value.payloadHash != s.workOrder.value.payloadHash
    then Fail(s, WorkOrderVerificationFailed)
    else s.(next := Some(MarkCompleted))
  }

  /** The nodes up to the model's final turn. */
  function Explore(config: Config, intent: GoalEncoding, s: RootState, e: Environment, node: RootNode): RootState {
    match node
    case EncodeGoal => EncodeGoalNode(s, intent, e)
    case BeginOperation =>
      if config.runtimePresent then Guarded(s, e, s.(next := Some(ModelDecide))) else s.(next := Some(ModelDecide))
    case ModelDecide => ModelDecideNode(config, s, e)
    case AuthorizeTools => if s.loop.goal.Some? then AuthorizeToolsNode(config, s) else s
    case ExecuteReadTools => s.(loop := ExecuteStep(s.loop, e.gateway), next := Some(ModelDecide))
    case _ => s
  }

  /** The nodes before a human is asked. */
  function Investigate(config: Config, intent: GoalEncoding, s: RootState, e: Environment, node: RootNode): RootState {
    match node
    case ValidateFinalAnalysis => if s.loop.goal.Some? then ValidateFinalNode(config, s) else s
    case CalculatePolicy => if s.loop.goal.Some? && s.analysis.Some? then CalculatePolicyNode(s, e) else s
    case PersistPolicyResult => PersistPolicyNode(config, s, e)
    case _ => Explore(config, intent, s, e, node)
  }

  /** The nodes that need the complete runtime. */
  function Act(s: RootState, e: Environment, node: RootNode): RootState {
    match node
    case MarkNeedsReapproval =>
      Guarded(s, e, s.(status := NeedsReapproval, approval := None, next := Some(ApprovalInterrupt)))
    case MarkVerifierAborted => Guarded(s, e, s.(status := Aborted, next := None))
    case MarkExecuting => Guarded(s, e, s.(next := Some(ExecuteWorkOrder)))
    case ExecuteWorkOrder => ExecuteNode(s, e)
    case MarkVerifying => Guarded(s, e, s.(next := Some(VerifyWorkOrder)))
    case VerifyWorkOrder => VerifyNode(s, e)
    case MarkCompleted => Guarded(s, e, s.(status := Completed, next := None))
    case _ => s
  }

  /** The nodes from the interrupt on. */
  function Conclude(config: Config, s: RootState, e: Environment, node: RootNode): RootState {
    match node
    case ApprovalInterrupt => ApprovalInterruptNode(s, e)
    case MarkRejected =>
      var done := s.(status := Rejected, next := None);
      if config.runtimePresent then Guarded(s, e, done) else done
    case RefreshAndVerify => if s.loop.goal.Some? then RefreshNode(config, s, e) else s
    case MarkFailed => s.(status := Failed, next := None)
    case _ =>
      if !config.runtimePresent then Fail(s, RuntimeMissing) else Act(s, e, node)
  }

  predicate BeforeApproval(node: RootNode) {
    match node
    case EncodeGoal => true
    case BeginOperation => true
    case ModelDecide => true
    case AuthorizeTools => true
    case ExecuteReadTools => true
    case ValidateFinalAnalysis => true
    case CalculatePolicy => true
    case PersistPolicyResult => true
    case _ => false
  }

  /** One node. A crash before its checkpoint leaves the state as it was, and the node runs again. */
  function StepRoot(config: Config, intent: GoalEncoding, s: RootState, e: Environment): RootState {
    if !e.survives || s.next.None? then s
    else if BeforeApproval(s.next.value) then Investigate(config, intent, s, e, s.next.value)
    else Conclude(config, s, e, s.next.value)
  }

  /** A run in which environment `i` takes state `i` to state `i + 1`. */
  datatype Run = Run(config: Config, intent: GoalEncoding, environments: seq<Environment>, states: seq<RootState>) {
    predicate Valid() {
      && |states| == |environments| + 1 && states[0] == INITIAL
      && forall i {:trigger StepAt(i)} | 0 <= i < |environments| :: StepAt(i)
    }

    predicate StepAt(i: nat)
      requires |states| == |environments| + 1 && i < |environments|
    {
      states[i + 1] == StepRoot(config, intent, states[i], environments[i])
    }

    function Final(): RootState
      requires Valid()
    {
      states[|environments|]
    }
  }

  /** Any environments make a run. */
  function RunOf(config: Config, intent: GoalEncoding, environments: seq<Environment>): (r: Run)
    ensures r.Valid() && r.config == config && r.intent == intent && r.environments == environments
  {
    if environments == [] then Run(config, intent, [], [INITIAL])
    else
      var n := |environments| - 1;
      var before := RunOf(config, intent, environments[..n]);
      var r := Run(config, intent, environments, before.states + [StepRoot(config, intent, before.states[n], environments[n])]);
      assert forall i {:trigger r.StepAt(i)} | 0 <= i < |environments| :: r.StepAt(i) by {
        forall i | 0 <= i < |environments| ensures r.StepAt(i) {
          if i < n { assert before.StepAt(i); }
        }
      }
      r
  }

  // ---- Invariants -------------------------------------------------------------------------------------------

  /** What the agent loop has done so far, wherever the graph stands now. */
  ghost predicate LoopHistorySound(config: Config, intent: GoalEncoding, loop: LoopState) {
    || loop == INITIAL_LOOP
    || (exists phase :: LoopSound(config, intent, loop, phase))
  }

  function PhaseAt(node: RootNode): LoopPhase {
    match node
    case BeginOperation => Deciding
    case ModelDecide => Deciding
    case AuthorizeTools => Authorizing
    case ExecuteReadTools => Executing
    case _ => Finishing
  }

  ghost predicate LoopPartSound(config: Config, intent: GoalEncoding, s: RootState) {
    match s.next
    case None => LoopHistorySound(config, intent, s.loop)
    case Some(MarkFailed) => LoopHistorySound(config, intent, s.loop)
    case Some(EncodeGoal) => s.loop == INITIAL_LOOP
    case Some(node) => LoopSound(config, intent, s.loop, PhaseAt(node))
  }

  lemma LoopPartStep(config: Config, intent: GoalEncoding, s: RootState, e: Environment)
    requires LoopPartSound(config, intent, s)
    ensures LoopPartSound(config, intent, StepRoot(config, intent, s, e))
  {
    if e.survives && s.next.Some? {
      if BeforeApproval(s.next.value) {
        InvestigationKeepsLoop(config, intent, s, e, s.next.value);
      } else {
        ConclusionKeepsLoop(config, intent, s, e, s.next.value);
      }
    }
  }

  lemma InvestigationKeepsLoop(config: Config, intent: GoalEncoding, s: RootState, e: Environment, node: RootNode)
    requires LoopPartSound(config, intent, s) && s.next == Some(node) && BeforeApproval(node)
    ensures LoopPartSound(config, intent, Investigate(config, intent, s, e, node))
  {
    if Exploring(node) {
      ExplorationKeepsLoop(config, intent, s, e, node);
    }
  }

  predicate Exploring(node: RootNode) {
    BeforeApproval(node) && !node.ValidateFinalAnalysis? && !node.CalculatePolicy? && !node.PersistPolicyResult?
  }

  lemma ExplorationKeepsLoop(config: Config, intent: GoalEncoding, s: RootState, e: Environment, node: RootNode)
    requires LoopPartSound(config, intent, s) && s.next == Some(node) && Exploring(node)
    ensures LoopPartSound(config, intent, Explore(config, intent, s, e, node))
  {
    match node {
      case ModelDecide => ModelDecideKeepsLoop(config, intent, s, e);
      case AuthorizeTools => AuthorizeToolsKeepsLoop(config, intent, s);
      case ExecuteReadTools => ExecuteKeepsLoop(config, intent, s.loop, e.gateway);
      case _ =>
    }
  }

  /** Exploring nodes know nothing of plans and decisions. */
  lemma ExplorationIsEarly(config: Config, intent: GoalEncoding, s: RootState, e: Environment, node: RootNode)
    requires s.next == Some(node) && Exploring(node)
    ensures var s' := Explore(config, intent, s, e, node);
            && s'.evidence == s.evidence && s'.plan == s.plan && s'.binding == s.binding
            && s'.next.Some? && (Exploring(s'.next.value) || s'.next.value.ValidateFinalAnalysis? || s'.next.value.MarkFailed?)
  {
  }

  /** Past the loop, nodes leave its channels alone and never lead back into it. */
  lemma ConclusionKeepsLoop(config: Config, intent: GoalEncoding, s: RootState, e: Environment, node: RootNode)
    requires LoopPartSound(config, intent, s) && s.next == Some(node) && !BeforeApproval(node)
    ensures LoopPartSound(config, intent, Conclude(config, s, e, node))
  {
    ActsStayPastLoop(s, e, node);
    var s' := Conclude(config, s, e, node);
    assert s'.loop == s.loop && (s'.next.Some? ==> !BeforeApproval(s'.next.value));
  }

  lemma ActsStayPastLoop(s: RootState, e: Environment, node: RootNode)
    requires s.next == Some(node) && !BeforeApproval(node)
    ensures var s' := Act(s, e, node); s'.loop == s.loop && (s'.next.Some? ==> !BeforeApproval(s'.next.value))
  {
  }

  lemma ModelDecideKeepsLoop(config: Config, intent: GoalEncoding, s: RootState, e: Environment)
    requires LoopSound(config, intent, s.loop, Deciding)
    ensures LoopPartSound(config, intent, ModelDecideNode(config, s, e))
  {
    if DecideStep(config, s.loop, e.turnReply).Ok? {
      DecideKeepsLoop(config, intent, s.loop, e.turnReply);
    }
  }

  lemma AuthorizeToolsKeepsLoop(config: Config, intent: GoalEncoding, s: RootState)
    requires LoopSound(config, intent, s.loop, Authorizing)
    ensures LoopPartSound(config, intent, AuthorizeToolsNode(config, s))
  {
    if AuthorizeStep(config, s.loop).Ok? {
      AuthorizeKeepsLoop(config, intent, s.loop);
    }
  }

  // ---- Plan and binding ----------------------------------------------------------------------------------

  predicate Evaluated(intent: GoalEncoding, evidence: Evidence, assessment: Assessment, plan: Plan, x: Explanation, now: Instant) {
    EvaluateBundle(intent.goal.CreateWorkOrder?, evidence, x, now) == Ok(ScenarioResult(evidence, assessment, Some(plan)))
  }

  /** The stored plan follows from the stored evidence, and the stored binding from both. */
  ghost predicate PlanSound(intent: GoalEncoding, s: RootState) {
    && (s.plan.Some? ==>
          && s.evidence.Some? && s.evidence.value.Valid() && s.assessment.Some? && s.analysis.Some?
          && exists now :: Evaluated(intent, s.evidence.value, s.assessment.value, s.plan.value, s.analysis.value, now))
    && (s.binding.Some? ==> s.plan.Some? && BuildBinding(s.evidence.value, s.plan.value) == s.binding)
    && (s.next.Some? && BeforeApproval(s.next.value) ==> s.binding.None? && (!s.next.value.PersistPolicyResult? ==> s.plan.None?))
  }

  /** A successful evaluation holds valid evidence, and its plan follows from it. */
  lemma ResultsAreEvaluated(goal: GoalEncoding, observations: seq<Observation>, x: Explanation, now: Instant)
    requires EvaluateAgentResult(goal, observations, x, now).Ok?
    ensures var r := EvaluateAgentResult(goal, observations, x, now).value;
            && r.evidence.Valid()
            && (r.plan.Some? ==> Evaluated(goal, r.evidence, r.assessment, r.plan.value, x, now))
            && (r.plan.Some? ==> WellHashed(r.plan.value) && BuildBinding(r.evidence, r.plan.value).Some?)
  {
    var subject := Successful(observations, SubjectTool(goal.scenario)).value;
    var policy := Successful(observations, PolicyConstraints).value;
    var parsed := ParseBundle(goal.scenario, subject.payload, policy.payload).value;
    EvaluatedPlansAreBindable(goal.goal.CreateWorkOrder?, parsed, x, now);
  }

  lemma CalculateKeepsPlan(intent: GoalEncoding, s: RootState, e: Environment)
    requires PlanSound(intent, s) && s.next == Some(CalculatePolicy) && s.loop.goal == Some(intent) && s.analysis.Some?
    ensures PlanSound(intent, CalculatePolicyNode(s, e))
  {
    if EvaluateAgentResult(intent, s.loop.observations, s.analysis.value, e.clock).Ok? {
      ResultsAreEvaluated(intent, s.loop.observations, s.analysis.value, e.clock);
      var r := EvaluateAgentResult(intent, s.loop.observations, s.analysis.value, e.clock).value;
      assert r.plan.Some? ==> Evaluated(intent, r.evidence, r.assessment, r.plan.value, s.analysis.value, e.clock);
    }
  }

  lemma PersistKeepsPlan(config: Config, intent: GoalEncoding, s: RootState, e: Environment)
    requires PlanSound(intent, s) && s.next == Some(PersistPolicyResult)
    ensures PlanSound(intent, PersistPolicyNode(config, s, e))
  {
  }

  lemma EarlyNodesHaveNoPlan(config: Config, intent: GoalEncoding, s: RootState, e: Environment, node: RootNode)
    requires s.next == Some(node) && BeforeApproval(node) && !node.CalculatePolicy? && !node.PersistPolicyResult?
    ensures var s' := Investigate(config, intent, s, e, node);
            && s'.evidence == s.evidence && s'.plan == s.plan && s'.binding == s.binding
            && s'.next.Some? && s'.next != Some(PersistPolicyResult)
  {
    if Exploring(node) {
      ExplorationIsEarly(config, intent, s, e, node);
    }
  }

  lemma InvestigationKeepsPlan(config: Config, intent: GoalEncoding, s: RootState, e: Environment, node: RootNode)
    requires PlanSound(intent, s) && LoopPartSound(config, intent, s) && s.next == Some(node) && BeforeApproval(node)
    ensures PlanSound(intent, Investigate(config, intent, s, e, node))
  {
    match node {
      case CalculatePolicy => if s.loop.goal.Some? && s.analysis.Some? { CalculateKeepsPlan(intent, s, e); }
      case PersistPolicyResult => PersistKeepsPlan(config, intent, s, e);
      case _ => EarlyNodesHaveNoPlan(config, intent, s, e, node);
    }
  }

  // ---- Decisions --------------------------------------------------------------------------------------------

  /** Between an approval and the end of what it approves. */
  predicate Approved(node: RootNode) {
    node.RefreshAndVerify? || Acting(node)
  }

  predicate Acting(node: RootNode) {
    node.MarkExecuting? || node.ExecuteWorkOrder? || node.MarkVerifying? || node.VerifyWorkOrder? || node.MarkCompleted?
  }

  /** These readings, evaluated at this moment, carry the binding facts. */
  predicate Reconfirms(intent: GoalEncoding, refreshed: seq<Observation>, x: Explanation, now: Instant, binding: ApprovalBinding) {
    var r := EvaluateAgentResult(intent, refreshed, x, now);
    && r.Ok? && r.value.plan.Some?
    && BuildBinding(r.value.evidence, r.value.plan.value).Some?
    && FactsOf(BuildBinding(r.value.evidence, r.value.plan.value).value) == FactsOf(binding)
  }

  ghost predicate Cleared(intent: GoalEncoding, s: RootState) {
    && s.plan.Some? && s.binding.Some? && s.analysis.Some?
    && s.verification.Some? && s.verification.value.decision.Proceed?
    && Agrees(s.verification.value, s.plan.value)
    && exists now :: Reconfirms(intent, s.refreshed, s.analysis.value, now, s.binding.value)
  }

  ghost predicate DecisionSound(intent: GoalEncoding, s: RootState) {
    s.next.Some? ==>
      && (Approved(s.next.value) ==> s.approval.Some? && s.approval.value.decision.Approve?)
      && (s.next.value.MarkRejected? ==> s.approval.Some? && s.approval.value.decision.Reject?)
      && (Acting(s.next.value) ==> Cleared(intent, s))
  }

  /** What a judgement may do to a state: let it act on its plan, end it, or replace plan and binding together. */
  predicate Judged(s: RootState, refreshed: seq<Observation>, r: ScenarioResult, verdict: Option<VerificationDecision>, s': RootState) {
    && s'.analysis == s.analysis && s'.approval == s.approval
    && match s'.next
       case Some(MarkExecuting) =>
         && s'.evidence == s.evidence && s'.assessment == s.assessment && s'.plan == s.plan && s'.binding == s.binding
         && s'.refreshed == refreshed && s'.verification == verdict && verdict.Some? && verdict.value.decision.Proceed?
         && s.plan.Some? && Agrees(verdict.value, s.plan.value)
         && r.plan.Some? && BuildBinding(r.evidence, r.plan.value).Some? && s.binding.Some?
         && FactsOf(BuildBinding(r.evidence, r.plan.value).value) == FactsOf(s.binding.value)
       case Some(MarkNeedsReapproval) =>
         && s'.evidence == Some(r.evidence) && s'.assessment == Some(r.assessment) && r.plan.Some? && s'.plan == r.plan
         && s'.binding == BuildBinding(r.evidence, r.plan.value)
       case Some(node) =>
         && s'.evidence == s.evidence && s'.assessment == s.assessment && s'.plan == s.plan && s'.binding == s.binding
         && !BeforeApproval(node) && !Approved(node) && !node.MarkRejected?
       case None => false
  }

  lemma RoutesJudge(s: RootState, refreshed: seq<Observation>, verdict: VerificationDecision, r: ScenarioResult, route: Route)
    requires s.plan.Some? && s.evidence.Some? && r.plan.Some? && s.binding.Some?
    requires BuildBinding(r.evidence, r.plan.value).Some?
    requires route == ChooseVerificationRoute(verdict, s.plan.value,
                                              FactsOf(BuildBinding(r.evidence, r.plan.value).value) == FactsOf(s.binding.value))
    ensures Judged(s, refreshed, r, Some(verdict), FollowRoute(s.(refreshed := refreshed, verification := Some(verdict)), r, route))
  {
  }

  lemma FailuresJudge(s: RootState, refreshed: seq<Observation>, verdict: Option<VerificationDecision>, r: ScenarioResult, f: Failure)
    ensures Judged(s, refreshed, r, verdict, Fail(s, f))
  {
  }

  lemma AbortsJudge(s: RootState, refreshed: seq<Observation>, verdict: Option<VerificationDecision>, r: ScenarioResult)
    ensures Judged(s, refreshed, r, verdict, FollowRoute(s.(refreshed := refreshed, verification := verdict), r, ToAbort))
  {
  }

  lemma JudgementsJudge(s: RootState, e: Environment, refreshed: seq<Observation>, r: ScenarioResult)
    requires s.plan.Some? && s.evidence.Some?
    ensures Judged(s, refreshed, r, e.verdict, JudgeRefreshed(s, e, refreshed, r))
  {
    FailuresJudge(s, refreshed, e.verdict, r, ApprovalSnapshotMismatch);
    AbortsJudge(s, refreshed, e.verdict, r);
    if e.verdict.Some? && r.plan.Some? && s.binding.Some? {
      var binding := BuildBinding(r.evidence, r.plan.value);
      if binding.Some? {
        RoutesJudge(s, refreshed, e.verdict.value, r,
                    ChooseVerificationRoute(e.verdict.value, s.plan.value, FactsOf(binding.value) == FactsOf(s.binding.value)));
      }
    }
  }

  /** A refresh fails, or judges what it re-read at the moment of its own clock. */
  lemma RefreshJudges(config: Config, s: RootState, e: Environment, goal: GoalEncoding)
    requires s.loop.goal == Some(goal)
    ensures var s', refreshed := RefreshNode(config, s, e), Refresh(goal, e.refreshGateway);
            || (s'.failure.Some? && s' == Fail(s, s'.failure.value))
            || (s.analysis.Some? && EvaluateAgentResult(goal, refreshed, s.analysis.value, e.clock).Ok?
                && Judged(s, refreshed, EvaluateAgentResult(goal, refreshed, s.analysis.value, e.clock).value, e.verdict, s'))
  {
    var refreshed := Refresh(goal, e.refreshGateway);
    if s.analysis.Some? && s.plan.Some? && s.evidence.Some? {
      var result := EvaluateAgentResult(goal, refreshed, s.analysis.value, e.clock);
      if result.Ok? {
        JudgementsJudge(s, e, refreshed, result.value);
      }
    }
  }

  lemma JudgedIsSound(intent: GoalEncoding, s: RootState, refreshed: seq<Observation>, now: Instant,
                      verdict: Option<VerificationDecision>, s': RootState)
    requires PlanSound(intent, s) && s.approval.Some? && s.approval.value.decision.Approve?
    requires s.analysis.Some? && EvaluateAgentResult(intent, refreshed, s.analysis.value, now).Ok?
    requires Judged(s, refreshed, EvaluateAgentResult(intent, refreshed, s.analysis.value, now).value, verdict, s')
    ensures PlanSound(intent, s') && DecisionSound(intent, s')
  {
    var r := EvaluateAgentResult(intent, refreshed, s.analysis.value, now).value;
    ResultsAreEvaluated(intent, refreshed, s.analysis.value, now);
    if s'.next == Some(MarkExecuting) {
      assert Reconfirms(intent, refreshed, s.analysis.value, now, s.binding.value);
    } else if s'.next == Some(MarkNeedsReapproval) {
      assert Evaluated(intent, r.evidence, r.assessment, r.plan.value, s.analysis.value, now);
    }
  }

  lemma RefreshIsSound(config: Config, intent: GoalEncoding, s: RootState, e: Environment)
    requires PlanSound(intent, s) && DecisionSound(intent, s) && s.next == Some(RefreshAndVerify) && s.loop.goal == Some(intent)
    ensures PlanSound(intent, RefreshNode(config, s, e)) && DecisionSound(intent, RefreshNode(config, s, e))
  {
    RefreshJudges(config, s, e, intent);
    var s', refreshed := RefreshNode(config, s, e), Refresh(intent, e.refreshGateway);
    if s'.failure.Some? && s' == Fail(s, s'.failure.value) {
      UnchangedIsSound(intent, s, s');
    } else {
      JudgedIsSound(intent, s, refreshed, e.clock, e.verdict, s');
    }
  }

  /** Every other concluding node keeps plan, binding and grounds, and only moves on. */
  predicate Unchanged(s: RootState, s': RootState) {
    && s'.plan == s.plan && s'.evidence == s.evidence && s'.assessment == s.assessment && s'.analysis == s.analysis
    && s'.binding == s.binding && s'.verification == s.verification && s'.refreshed == s.refreshed
    && s.next.Some? && !BeforeApproval(s.next.value)
    && (s'.next.Some? ==>
          && !BeforeApproval(s'.next.value)
          && (Approved(s'.next.value) ==> s'.approval.Some? && s'.approval.value.decision.Approve?)
          && (s'.next.value.MarkRejected? ==> s'.approval.Some? && s'.approval.value.decision.Reject?)
          && (Acting(s'.next.value) ==> Acting(s.next.value)))
  }

  lemma UnchangedIsSound(intent: GoalEncoding, s: RootState, s': RootState)
    requires PlanSound(intent, s) && DecisionSound(intent, s) && Unchanged(s, s')
    ensures PlanSound(intent, s') && DecisionSound(intent, s')
  {
  }

  lemma ActsAreUnchanged(s: RootState, e: Environment, node: RootNode)
    requires s.next == Some(node) && !BeforeApproval(node) && !node.RefreshAndVerify? && !node.MarkRejected?
    requires Approved(node) ==> s.approval.Some? && s.approval.value.decision.Approve?
    ensures Unchanged(s, Act(s, e, node))
  {
  }

  lemma ConclusionsAreUnchanged(config: Config, s: RootState, e: Environment, node: RootNode)
    requires s.next == Some(node) && !BeforeApproval(node) && !node.RefreshAndVerify?
    requires Approved(node) ==> s.approval.Some? && s.approval.value.decision.Approve?
    requires node.MarkRejected? ==> s.approval.Some? && s.approval.value.decision.Reject?
    ensures Unchanged(s, Conclude(config, s, e, node))
  {
    if !node.MarkRejected? {
      ActsAreUnchanged(s, e, node);
    }
  }

  lemma ConclusionIsSound(config: Config, intent: GoalEncoding, s: RootState, e: Environment, node: RootNode)
    requires PlanSound(intent, s) && DecisionSound(intent, s) && LoopPartSound(config, intent, s)
    requires s.next == Some(node) && !BeforeApproval(node)
    ensures PlanSound(intent, Conclude(config, s, e, node)) && DecisionSound(intent, Conclude(config, s, e, node))
  {
    if node.RefreshAndVerify? {
      RefreshIsSound(config, intent, s, e);
    } else {
      ConclusionsAreUnchanged(config, s, e, node);
      UnchangedIsSound(intent, s, Conclude(config, s, e, node));
    }
  }

  // ---- Every run ----------------------------------------------------------------------------------------------

  ghost predicate RootSound(config: Config, intent: GoalEncoding, s: RootState) {
    LoopPartSound(config, intent, s) && PlanSound(intent, s) && DecisionSound(intent, s)
  }

  lemma InvestigationIsUndecided(config: Config, intent: GoalEncoding, s: RootState, e: Environment, node: RootNode)
    requires s.next == Some(node) && BeforeApproval(node)
    ensures var s' := Investigate(config, intent, s, e, node);
            s'.next.Some? ==> !Approved(s'.next.value) && !s'.next.value.MarkRejected?
  {
    if Exploring(node) {
      ExplorationIsEarly(config, intent, s, e, node);
    }
  }

  lemma StepIsSound(config: Config, intent: GoalEncoding, s: RootState, e: Environment)
    requires RootSound(config, intent, s)
    ensures RootSound(config, intent, StepRoot(config, intent, s, e))
  {
    LoopPartStep(config, intent, s, e);
    if e.survives && s.next.Some? {
      if BeforeApproval(s.next.value) {
        InvestigationKeepsPlan(config, intent, s, e, s.next.value);
        InvestigationIsUndecided(config, intent, s, e, s.next.value);
      } else {
        ConclusionIsSound(config, intent, s, e, s.next.value);
      }
    }
  }

  lemma {:induction false} RunsAreSound(r: Run, i: nat)
    requires r.Valid() && i <= |r.environments|
    ensures RootSound(r.config, r.intent, r.states[i])
  {
    if i > 0 {
      RunsAreSound(r, i - 1);
      assert r.StepAt(i - 1);
      StepIsSound(r.config, r.intent, r.states[i - 1], r.environments[i - 1]);
    }
  }
}
