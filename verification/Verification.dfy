/** What an independent verifier is shown about an approved plan, and how its verdict is used. */
module Verification {
  import opened AgentDomain
  import opened Digests
  import opened ScenarioRuntime
  import opened Scenarios
  import opened Wrappers
  import Maintenance
  import Replenishment
  import TaskRecovery

  datatype DecisionPlan = DecisionPlan(
    scenario: ScenarioKind,
    action: string,
    objectId: string,
    parameters: map<string, Json>,
    decisionFactsHash: Digest,
    planHash: Digest)

  datatype Verdict = Proceed | Abort | Escalate

  datatype VerificationDecision = VerificationDecision(decision: Verdict, reason: string, proposedPlan: Option<DecisionPlan>)

  datatype Route = ToProceed | ToAbort | ToReapproval

  function DecisionPlanOf(plan: Plan): DecisionPlan {
    match plan
    case InventoryPlan(p) =>
      DecisionPlan(Inventory, "replenish_inventory", p.sku,
                   map["kind" := JText("replenishment"), "recommended_quantity" := JInt(p.recommendedQuantity)],
                   p.decisionFactsHash, p.planHash)
    case EquipmentPlan(p) =>
      DecisionPlan(Equipment, "repair_equipment", p.equipmentId,
                   map["kind" := JText("repair"), "alert_code" := JText(p.alertCode),
                       "priority" := JText(Maintenance.PriorityText(p.priority))],
                   p.decisionFactsHash, p.planHash)
    case TaskPlan(p) =>
      DecisionPlan(Task, "recover_task", p.taskId,
                   map["kind" := JText("task_recovery"), "recovery_action" := TaskRecovery.MoveJson(Some(p.recoveryAction))],
                   p.decisionFactsHash, p.planHash)
  }

  /** A proposal equal to the approved plan names the very same work order. */
  lemma SameProposalSameOrder(p1: Plan, p2: Plan)
    requires WellHashed(p1) && WellHashed(p2) && DecisionPlanOf(p1) == DecisionPlanOf(p2)
    ensures WorkOrderPayload(p1) == WorkOrderPayload(p2)
  {
    assert PlanHash(p1) == DecisionPlanOf(p1).planHash && PlanHash(p2) == DecisionPlanOf(p2).planHash;
    PlanHashFixesPayload(p1, p2);
  }

  function ChooseVerificationRoute(decision: VerificationDecision, approved: Plan, bindingMatches: bool): Route {
    if decision.decision.Abort? then ToAbort
    else if decision.decision.Escalate? || !bindingMatches
            || (decision.proposedPlan.Some? && decision.proposedPlan.value != DecisionPlanOf(approved)) then ToReapproval
    else ToProceed
  }

  /** The verifier proposes nothing, or exactly the approved plan. */
  predicate Agrees(decision: VerificationDecision, approved: Plan) {
    decision.proposedPlan.Some? ==> decision.proposedPlan.value == DecisionPlanOf(approved)
  }

  // ---- The verifier's view ---------------------------------------------------------------------------

  datatype VerificationContext = VerificationContext(
    approvedPlan: DecisionPlan,
    original: seq<Observation>,
    refreshed: seq<Observation>)

  function ObjectKey(plan: Plan): (string, string) {
    match plan
    case InventoryPlan(p) => ("sku", p.sku)
    case EquipmentPlan(p) => ("equipment_id", p.equipmentId)
    case TaskPlan(p) => ("task_id", p.taskId)
  }

  function KindOfPlan(plan: Plan): ScenarioKind {
    match plan
    case InventoryPlan(_) => Inventory
    case EquipmentPlan(_) => Equipment
    case TaskPlan(_) => Task
  }

  function SubjectPayload(evidence: Evidence): EvidencePayload {
    match evidence
    case InventoryBundle(b) => InventoryPayload(b.inventory)
    case EquipmentBundle(b) => EquipmentPayload(b.equipment)
    case TaskBundle(b) => TaskPayload(b.task)
  }

  function PolicyPayload(evidence: Evidence): EvidencePayload {
    match evidence
    case InventoryBundle(b) => ReplenishmentPolicy(b.policy)
    case EquipmentBundle(b) => MaintenancePolicy(b.policy)
    case TaskBundle(b) => TaskRecoveryPolicy(b.policy)
  }

  function ContextObservations(prefix: string, plan: Plan, evidence: Evidence): seq<Observation> {
    var (key, objectId) := ObjectKey(plan);
    var kind := KindOfPlan(plan);
    [Observation("verify-" + prefix + "-subject", SubjectTool(kind), HashPayload(map[key := JText(objectId)]),
                 true, Some(SubjectId(evidence)), SubjectPayload(evidence)),
     Observation("verify-" + prefix + "-policy", PolicyConstraints,
                 HashPayload(map["action" := JText(ActionName(kind)), key := JText(objectId)]),
                 true, Some(PolicyId(evidence)), PolicyPayload(evidence))]
  }

  /** `None` when plan and evidence are not all of one scenario. */
  function BuildVerificationContext(approved: Plan, original: Evidence, refreshed: Evidence): Option<VerificationContext> {
    if KindOfPlan(approved) != KindOfEvidence(original) || KindOfPlan(approved) != KindOfEvidence(refreshed) then None
    else Some(VerificationContext(DecisionPlanOf(approved), ContextObservations("original", approved, original),
                                  ContextObservations("refreshed", approved, refreshed)))
  }

  /** The verifier loses nothing: evaluating what it is shown is evaluating the evidence itself. */
  lemma ContextIsFaithful(approved: Plan, original: Evidence, refreshed: Evidence, goal: GoalEncoding, x: Explanation, now: Instant)
    requires BuildVerificationContext(approved, original, refreshed).Some?
    requires original.Valid() && refreshed.Valid() && goal.scenario == KindOfPlan(approved)
    ensures var context := BuildVerificationContext(approved, original, refreshed).value;
            && EvaluateAgentResult(goal, context.original, x, now) == EvaluateBundle(goal.goal.CreateWorkOrder?, original, x, now)
            && EvaluateAgentResult(goal, context.refreshed, x, now) == EvaluateBundle(goal.goal.CreateWorkOrder?, refreshed, x, now)
  {
    ShownObservationsEvaluate("original", approved, original, goal, x, now);
    ShownObservationsEvaluate("refreshed", approved, refreshed, goal, x, now);
  }

  lemma ShownObservationsEvaluate(prefix: string, approved: Plan, evidence: Evidence, goal: GoalEncoding, x: Explanation, now: Instant)
    requires KindOfPlan(approved) == KindOfEvidence(evidence) == goal.scenario && evidence.Valid()
    ensures EvaluateAgentResult(goal, ContextObservations(prefix, approved, evidence), x, now)
         == EvaluateBundle(goal.goal.CreateWorkOrder?, evidence, x, now)
  {
    var shown := ContextObservations(prefix, approved, evidence);
    assert shown[..1][..0] == [];
    assert Successful(shown, PolicyConstraints) == Some(shown[1]);
    assert shown[..1] == [shown[0]];
    assert Successful(shown[..1], SubjectTool(goal.scenario)) == Some(shown[0]);
    assert Successful(shown, SubjectTool(goal.scenario)) == Some(shown[0]);
  }
}
