/** Evaluation of agent evidence, approval bindings and work-order payloads over all scenarios. */
module ScenarioRuntime {
  import opened AgentDomain
  import opened Digests
  import opened Scenarios
  import opened Wrappers
  import Maintenance
  import Replenishment
  import TaskRecovery

  datatype Evidence =
    | InventoryBundle(inventory: Replenishment.Bundle)
    | EquipmentBundle(equipment: Maintenance.Bundle)
    | TaskBundle(task: TaskRecovery.Bundle)
  {
    predicate Valid() {
      match this
      case InventoryBundle(b) => b.Valid()
      case EquipmentBundle(b) => b.Valid()
      case TaskBundle(b) => b.Valid()
    }

    predicate Fresh(now: Instant) {
      match this
      case InventoryBundle(b) => b.Fresh(now)
      case EquipmentBundle(b) => b.Fresh(now)
      case TaskBundle(b) => b.Fresh(now)
    }
  }

  datatype Assessment =
    | InventoryAssessment(inventory: Replenishment.Assessment)
    | EquipmentAssessment(equipment: Maintenance.Assessment)
    | TaskAssessment(task: TaskRecovery.Assessment)

  datatype Plan =
    | InventoryPlan(inventory: Replenishment.Plan)
    | EquipmentPlan(equipment: Maintenance.Plan)
    | TaskPlan(task: TaskRecovery.Plan)

  datatype ScenarioResult = ScenarioResult(evidence: Evidence, assessment: Assessment, plan: Option<Plan>)

  // ---- Evaluation -------------------------------------------------------------------------

  /** The successful observation a tool's dictionary entry ends up holding: the last one. */
  function Successful(observations: seq<Observation>, tool: ReadTool): Option<Observation> {
    if observations == [] then None
    else
      var last := observations[|observations| - 1];
      if last.tool == tool && last.succeeded then Some(last)
      else Successful(observations[..|observations| - 1], tool)
  }

  function ParseBundle(scenario: ScenarioKind, subject: EvidencePayload, policy: EvidencePayload): Option<Evidence> {
    match (scenario, subject, policy)
    case (Inventory, InventoryPayload(s), ReplenishmentPolicy(p)) => Some(InventoryBundle(Replenishment.Bundle(s, p)))
    case (Equipment, EquipmentPayload(s), MaintenancePolicy(p)) => Some(EquipmentBundle(Maintenance.Bundle(s, p)))
    case (Task, TaskPayload(s), TaskRecoveryPolicy(p)) => Some(TaskBundle(TaskRecovery.Bundle(s, p)))
    case _ => None
  }

  function SubjectId(evidence: Evidence): Uuid {
    match evidence
    case InventoryBundle(b) => b.inventory.evidenceId
    case EquipmentBundle(b) => b.equipment.evidenceId
    case TaskBundle(b) => b.task.evidenceId
  }

  function PolicyId(evidence: Evidence): Uuid {
    match evidence
    case InventoryBundle(b) => b.policy.evidenceId
    case EquipmentBundle(b) => b.policy.evidenceId
    case TaskBundle(b) => b.policy.evidenceId
  }

  function KindOfEvidence(evidence: Evidence): ScenarioKind {
    match evidence
    case InventoryBundle(_) => Inventory
    case EquipmentBundle(_) => Equipment
    case TaskBundle(_) => Task
  }

  function EvaluateInventory(create: bool, b: Replenishment.Bundle, x: Explanation, now: Instant)
    : Result<ScenarioResult, EvaluationError>
  {
    match Replenishment.Assess(b, now)
    case Err(e) => Err(e)
    case Ok(a) =>
      if !create || !a.required then Ok(ScenarioResult(InventoryBundle(b), InventoryAssessment(a), None))
      else match Replenishment.BuildPlan(a, x, b.policy.ruleVersion)
           case Err(e) => Err(e)
           case Ok(p) => Ok(ScenarioResult(InventoryBundle(b), InventoryAssessment(a), Some(InventoryPlan(p))))
  }

  function EvaluateEquipment(create: bool, b: Maintenance.Bundle, x: Explanation, now: Instant)
    : Result<ScenarioResult, EvaluationError>
  {
    match Maintenance.Assess(b, now)
    case Err(e) => Err(e)
    case Ok(a) =>
      if !create || !a.required then Ok(ScenarioResult(EquipmentBundle(b), EquipmentAssessment(a), None))
      else match Maintenance.BuildPlan(a, x, b.policy.ruleVersion)
           case Err(e) => Err(e)
           case Ok(p) => Ok(ScenarioResult(EquipmentBundle(b), EquipmentAssessment(a), Some(EquipmentPlan(p))))
  }

  function EvaluateTask(create: bool, b: TaskRecovery.Bundle, x: Explanation, now: Instant)
    : Result<ScenarioResult, EvaluationError>
  {
    match TaskRecovery.Assess(b, now)
    case Err(e) => Err(e)
    case Ok(a) =>
      if !create || !a.required then Ok(ScenarioResult(TaskBundle(b), TaskAssessment(a), None))
      else match TaskRecovery.BuildPlan(a, x, b.policy.ruleVersion)
           case Err(e) => Err(e)
           case Ok(p) => Ok(ScenarioResult(TaskBundle(b), TaskAssessment(a), Some(TaskPlan(p))))
  }

  function EvaluateBundle(create: bool, evidence: Evidence, x: Explanation, now: Instant)
    : Result<ScenarioResult, EvaluationError>
  {
    match evidence
    case InventoryBundle(b) => EvaluateInventory(create, b, x, now)
    case EquipmentBundle(b) => EvaluateEquipment(create, b, x, now)
    case TaskBundle(b) => EvaluateTask(create, b, x, now)
  }

  function EvaluateAgentResult(goal: GoalEncoding, observations: seq<Observation>, x: Explanation, now: Instant)
    : Result<ScenarioResult, EvaluationError>
  {
    var subject := Successful(observations, SubjectTool(goal.scenario));
    var policy := Successful(observations, PolicyConstraints);
    if subject.None? || policy.None? then Err(RequiredEvidenceMissing) else
    var parsed := ParseBundle(goal.scenario, subject.value.payload, policy.value.payload);
    if parsed.None? || !parsed.value.Valid() then Err(EvidenceInvalid)
    else if Some(SubjectId(parsed.value)) != subject.value.evidenceRef
            || Some(PolicyId(parsed.value)) != policy.value.evidenceRef then Err(EvidenceReferenceMismatch)
    else EvaluateBundle(goal.goal.CreateWorkOrder?, parsed.value, x, now)
  }

  // ---- Bindings and payloads --------------------------------------------------------------

  function BuildBinding(evidence: Evidence, plan: Plan): Option<ApprovalBinding> {
    match (evidence, plan)
    case (InventoryBundle(b), InventoryPlan(p)) => Some(Replenishment.BuildBinding(b, p))
    case (EquipmentBundle(b), EquipmentPlan(p)) => Some(Maintenance.BuildBinding(b, p))
    case (TaskBundle(b), TaskPlan(p)) => Some(TaskRecovery.BuildBinding(b, p))
    case _ => None
  }

  function PlanHash(plan: Plan): Digest {
    match plan
    case InventoryPlan(p) => p.planHash
    case EquipmentPlan(p) => p.planHash
    case TaskPlan(p) => p.planHash
  }

  function WorkOrderPayload(plan: Plan): map<string, Json> {
    match plan
    case InventoryPlan(p) =>
      map["sku" := JText(p.sku),
          "quantity" := JInt(p.recommendedQuantity),
          "approved_plan_hash" := JDigest(p.planHash)]
    case EquipmentPlan(p) =>
      map["kind" := JText("repair"),
          "equipment_id" := JText(p.equipmentId),
          "alert_code" := JText(p.alertCode),
          "priority" := JText(Maintenance.PriorityText(p.priority)),
          "approved_plan_hash" := JDigest(p.planHash)]
    case TaskPlan(p) =>
      map["kind" := JText("task_recovery"),
          "task_id" := JText(p.taskId),
          "blocker_code" := TextOrNull(p.blockerCode),
          "retry_count" := JInt(p.retryCount),
          "recovery_action" := TaskRecovery.MoveJson(Some(p.recoveryAction)),
          "approved_plan_hash" := JDigest(p.planHash)]
  }

  /** The plan hash really is the hash of the plan's own facts. */
  predicate WellHashed(plan: Plan) {
    match plan
    case InventoryPlan(p) =>
      p.planHash == HashPayload(Replenishment.PlanFacts(p.sku, p.recommendedQuantity, p.decisionFactsHash, p.ruleVersion))
    case EquipmentPlan(p) =>
      p.planHash == HashPayload(Maintenance.PlanFacts(p.equipmentId, p.alertCode, p.priority, p.decisionFactsHash, p.ruleVersion))
    case TaskPlan(p) =>
      p.planHash == HashPayload(TaskRecovery.PlanFacts(p.taskId, p.blockerCode, p.retryCount, p.recoveryAction,
                                                       p.decisionFactsHash, p.ruleVersion))
  }

  // ---- What a binding guarantees -----------------------------------------------------------

  /** Every plan an evaluation returns fits its own evidence and is hashed over its own facts. */
  lemma EvaluatedPlansAreBindable(create: bool, evidence: Evidence, x: Explanation, now: Instant)
    requires EvaluateBundle(create, evidence, x, now).Ok?
    ensures EvaluateBundle(create, evidence, x, now).value.evidence == evidence
    ensures EvaluateBundle(create, evidence, x, now).value.plan.Some? ==>
              var plan := EvaluateBundle(create, evidence, x, now).value.plan.value;
              create && WellHashed(plan) && BuildBinding(evidence, plan).Some?
  {
  }

  lemma PlanHashNamesTheScenario(p1: Plan, p2: Plan)
    requires WellHashed(p1) && WellHashed(p2)
    requires PlanHash(p1) == PlanHash(p2)
    ensures p1.InventoryPlan? == p2.InventoryPlan? && p1.EquipmentPlan? == p2.EquipmentPlan?
  {
    assert PlanHash(p1).preimage["action"] == PlanHash(p2).preimage["action"];
  }

  /** The plan hash alone already fixes what will be written, across all scenarios. */
  lemma PlanHashFixesPayload(p1: Plan, p2: Plan)
    requires WellHashed(p1) && WellHashed(p2)
    requires PlanHash(p1) == PlanHash(p2)
    ensures WorkOrderPayload(p1) == WorkOrderPayload(p2)
  {
    PlanHashNamesTheScenario(p1, p2);
    var f1, f2 := PlanHash(p1).preimage, PlanHash(p2).preimage;
    match p1 {
      case InventoryPlan(_) =>
        assert f1["sku"] == f2["sku"];
        assert f1["recommended_quantity"] == f2["recommended_quantity"];
      case EquipmentPlan(_) =>
        assert f1["equipment_id"] == f2["equipment_id"];
        assert f1["alert_code"] == f2["alert_code"];
        assert f1["priority"] == f2["priority"];
      case TaskPlan(_) =>
        assert f1["task_id"] == f2["task_id"];
        assert f1["blocker_code"] == f2["blocker_code"];
        assert f1["retry_count"] == f2["retry_count"];
        assert f1["recovery_action"] == f2["recovery_action"];
    }
  }

  /** Equal binding facts mean equal work orders, field by field, whatever evidence they came from. */
  lemma BindingSoundness(e1: Evidence, p1: Plan, e2: Evidence, p2: Plan)
    requires WellHashed(p1) && WellHashed(p2)
    requires BuildBinding(e1, p1).Some? && BuildBinding(e2, p2).Some?
    requires FactsOf(BuildBinding(e1, p1).value) == FactsOf(BuildBinding(e2, p2).value)
    ensures WorkOrderPayload(p1) == WorkOrderPayload(p2)
  {
    PlanHashFixesPayload(p1, p2);
  }

  // ---- Stability in time --------------------------------------------------------------------

  /** A second reading of the same facts: only evidence identifiers and capture times may differ. */
  predicate SameFacts(first: Evidence, second: Evidence) {
    match (first, second)
    case (InventoryBundle(b), InventoryBundle(c)) =>
      && c.inventory == b.inventory.(evidenceId := c.inventory.evidenceId, capturedAt := c.inventory.capturedAt)
      && c.policy == b.policy.(evidenceId := c.policy.evidenceId, capturedAt := c.policy.capturedAt)
    case (EquipmentBundle(b), EquipmentBundle(c)) =>
      && c.equipment == b.equipment.(evidenceId := c.equipment.evidenceId, capturedAt := c.equipment.capturedAt)
      && c.policy == b.policy.(evidenceId := c.policy.evidenceId, capturedAt := c.policy.capturedAt)
    case (TaskBundle(b), TaskBundle(c)) =>
      && c.task == b.task.(evidenceId := c.task.evidenceId, capturedAt := c.task.capturedAt)
      && c.policy == b.policy.(evidenceId := c.policy.evidenceId, capturedAt := c.policy.capturedAt)
    case _ => false
  }

  /** Whether the clock alone has turned a live heartbeat stale between two readings. */
  predicate HeartbeatFlipped(evidence: Evidence, t1: Instant, t2: Instant) {
    evidence.EquipmentBundle? && evidence.equipment.Stale(t1) != evidence.equipment.Stale(t2)
  }

  /** The second reading can be planned, and its binding facts match the first exactly when no flip occurred. */
  predicate ReboundUnlessFlipped(e1: Evidence, t1: Instant, x1: Explanation, e2: Evidence, t2: Instant, x2: Explanation)
    requires EvaluateBundle(true, e1, x1, t1).Ok? && EvaluateBundle(true, e1, x1, t1).value.plan.Some?
  {
    && EvaluateBundle(true, e2, x2, t2).Ok? && EvaluateBundle(true, e2, x2, t2).value.plan.Some?
    && var p1, p2 := EvaluateBundle(true, e1, x1, t1).value.plan.value, EvaluateBundle(true, e2, x2, t2).value.plan.value;
    && BuildBinding(e1, p1).Some? && BuildBinding(e2, p2).Some?
    && (FactsOf(BuildBinding(e1, p1).value) == FactsOf(BuildBinding(e2, p2).value) <==> !HeartbeatFlipped(e1, t1, t2))
  }

  lemma InventoryStability(b1: Replenishment.Bundle, t1: Instant, x1: Explanation,
                           b2: Replenishment.Bundle, t2: Instant, x2: Explanation)
    requires b1.Valid() && b2.Valid() && SameFacts(InventoryBundle(b1), InventoryBundle(b2)) && b2.Fresh(t2)
    requires EvaluateInventory(true, b1, x1, t1).Ok? && EvaluateInventory(true, b1, x1, t1).value.plan.Some?
    ensures ReboundUnlessFlipped(InventoryBundle(b1), t1, x1, InventoryBundle(b2), t2, x2)
  {
    var p1, p2 := EvaluateInventory(true, b1, x1, t1).value.plan.value, EvaluateInventory(true, b2, x2, t2).value.plan.value;
    Replenishment.BindingExact(b1, t1, x1, p1.inventory, b2, t2, x2, p2.inventory);
  }

  lemma EquipmentStability(b1: Maintenance.Bundle, t1: Instant, x1: Explanation,
                           b2: Maintenance.Bundle, t2: Instant, x2: Explanation)
    requires b1.Valid() && b2.Valid() && SameFacts(EquipmentBundle(b1), EquipmentBundle(b2)) && b2.Fresh(t2) && t1 <= t2
    requires EvaluateEquipment(true, b1, x1, t1).Ok? && EvaluateEquipment(true, b1, x1, t1).value.plan.Some?
    ensures ReboundUnlessFlipped(EquipmentBundle(b1), t1, x1, EquipmentBundle(b2), t2, x2)
  {
    if b1.Stale(t1) { Maintenance.StalenessIsMonotone(b1, t1, t2); }
    Maintenance.RequiredRepairIsPlannable(b2, t2, x2);
    var p1, p2 := EvaluateEquipment(true, b1, x1, t1).value.plan.value, EvaluateEquipment(true, b2, x2, t2).value.plan.value;
    Maintenance.BindingExact(b1, t1, x1, p1.equipment, b2, t2, x2, p2.equipment);
  }

  lemma TaskStability(b1: TaskRecovery.Bundle, t1: Instant, x1: Explanation,
                      b2: TaskRecovery.Bundle, t2: Instant, x2: Explanation)
    requires b1.Valid() && b2.Valid() && SameFacts(TaskBundle(b1), TaskBundle(b2)) && b2.Fresh(t2) && t1 <= t2
    requires EvaluateTask(true, b1, x1, t1).Ok? && EvaluateTask(true, b1, x1, t1).value.plan.Some?
    ensures ReboundUnlessFlipped(TaskBundle(b1), t1, x1, TaskBundle(b2), t2, x2)
  {
    var p1, p2 := EvaluateTask(true, b1, x1, t1).value.plan.value, EvaluateTask(true, b2, x2, t2).value.plan.value;
    TaskRecovery.BindingExact(b1, t1, x1, p1.task, b2, t2, x2, p2.task);
  }

  /** Re-reading unchanged facts within their lifetime always yields a plan again, and it carries
      the approved binding facts unless, and only unless, the heartbeat went stale meanwhile. */
  lemma BindingStability(e1: Evidence, t1: Instant, x1: Explanation, e2: Evidence, t2: Instant, x2: Explanation)
    requires e1.Valid() && e2.Valid() && SameFacts(e1, e2)
    requires t1 <= t2 && e2.Fresh(t2)
    requires EvaluateBundle(true, e1, x1, t1).Ok? && EvaluateBundle(true, e1, x1, t1).value.plan.Some?
    ensures ReboundUnlessFlipped(e1, t1, x1, e2, t2, x2)
  {
    match e1 {
      case InventoryBundle(b1) => InventoryStability(b1, t1, x1, e2.inventory, t2, x2);
      case EquipmentBundle(b1) => EquipmentStability(b1, t1, x1, e2.equipment, t2, x2);
      case TaskBundle(b1) => TaskStability(b1, t1, x1, e2.task, t2, x2);
    }
  }

  /** The order quantity stays inside the limits of both readings although no limit is hashed. */
  lemma QuantityWithinBothPolicies(b1: Replenishment.Bundle, t1: Instant, x1: Explanation, p1: Replenishment.Plan,
                                   b2: Replenishment.Bundle, t2: Instant, x2: Explanation, p2: Replenishment.Plan)
    requires Replenishment.Derived(b1, t1, x1, p1) && Replenishment.Derived(b2, t2, x2, p2)
    requires FactsOf(Replenishment.BuildBinding(b1, p1)) == FactsOf(Replenishment.BuildBinding(b2, p2))
    ensures 0 < p1.recommendedQuantity
    ensures p1.recommendedQuantity == b1.policy.targetStock - b1.Available() == b2.policy.targetStock - b2.Available()
    ensures b1.policy.minimumOrder <= p1.recommendedQuantity <= b1.policy.maximumOrder
    ensures b2.policy.minimumOrder <= p1.recommendedQuantity <= b2.policy.maximumOrder
  {
    Replenishment.BindingExact(b1, t1, x1, p1, b2, t2, x2, p2);
    Replenishment.PlannedQuantity(b1, t1, x1, p1);
    Replenishment.PlannedQuantity(b2, t2, x2, p2);
  }
}
