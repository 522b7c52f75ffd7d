/** What is ordered, and why, in terms of the evidence alone. */
module ScenarioOutcomes {
  import opened AgentDomain
  import opened Digests
  import opened ScenarioRuntime
  import opened Scenarios
  import opened Verification
  import opened Wrappers
  import Maintenance
  import Replenishment
  import TaskRecovery

  // ---- What the evidence calls for -------------------------------------------------------------------------------

  /** Both readings are still within the lifetime their policy gives them. */
  predicate InTime(e: Evidence, now: Instant) {
    match e
    case InventoryBundle(b) =>
      now - b.inventory.capturedAt < b.policy.ttlSeconds * SECOND && now - b.policy.capturedAt < b.policy.ttlSeconds * SECOND
    case EquipmentBundle(b) =>
      now - b.equipment.capturedAt < b.policy.ttlSeconds * SECOND && now - b.policy.capturedAt < b.policy.ttlSeconds * SECOND
    case TaskBundle(b) =>
      now - b.task.capturedAt < b.policy.ttlSeconds * SECOND && now - b.policy.capturedAt < b.policy.ttlSeconds * SECOND
  }

  /** What can make a repair necessary: an alert of a level the policy acts on, or a silence longer than it allows,
      counted in whole seconds. */
  predicate Applies(b: Maintenance.Bundle, now: Instant, cause: Maintenance.Reason) {
    match cause
    case Alert => b.equipment.severity in b.policy.allowedAlertLevels
    case StaleHeartbeat => (b.policy.maximumHeartbeatAgeSeconds + 1) * SECOND <= now - b.equipment.lastHeartbeat
  }

  predicate Overdue(b: TaskRecovery.Bundle, now: Instant) {
    !b.task.state.Completed? && b.task.dueAt + b.policy.overdueGraceSeconds * SECOND < now
  }

  predicate Needed(e: Evidence, now: Instant) {
    match e
    case InventoryBundle(b) => b.inventory.onHand - b.inventory.reserved < b.policy.reorderPoint
    case EquipmentBundle(b) => Applies(b, now, Maintenance.Alert) || Applies(b, now, Maintenance.StaleHeartbeat)
    case TaskBundle(b) => b.task.state in b.policy.blockedStates || Overdue(b, now)
  }

  /** The policy lets the agent order what is needed. */
  predicate Permitted(e: Evidence) {
    match e
    case InventoryBundle(b) => b.policy.minimumOrder <= Missing(b) <= b.policy.maximumOrder
    case EquipmentBundle(_) => true
    case TaskBundle(b) => b.task.retryCount <= b.policy.maximumRetryCount
  }

  /** What it takes to fill up to the target. */
  function Missing(b: Replenishment.Bundle): int {
    b.policy.targetStock - (b.inventory.onHand - b.inventory.reserved)
  }

  lemma StaleExactly(b: Maintenance.Bundle, now: Instant)
    requires b.Valid()
    ensures b.Stale(now) <==> Applies(b, now, Maintenance.StaleHeartbeat)
    ensures var age := b.HeartbeatAge(now);
            if now < b.equipment.lastHeartbeat then age == 0
            else age * SECOND <= now - b.equipment.lastHeartbeat < (age + 1) * SECOND
  {
  }

  /** An evaluation fails exactly for readings that are too old, or for a need the policy does not let the agent meet;
      otherwise it plans exactly what is asked for and needed. */
  lemma EvaluationsSucceedExactly(create: bool, e: Evidence, x: Explanation, now: Instant)
    requires e.Valid()
    ensures var r := EvaluateBundle(create, e, x, now);
            && (r == Err(EvidenceExpired) <==> !InTime(e, now))
            && (r.Err? && r.error != EvidenceExpired <==> InTime(e, now) && Needed(e, now) && !Permitted(e))
            && (r.Err? ==> r.error == EvidenceExpired || r.error == if e.InventoryBundle? then QuantityOutOfPolicy else RecoveryOutOfPolicy)
            && (r.Ok? ==> r.value.evidence == e && (r.value.plan.Some? <==> create && Needed(e, now)))
            && (r.Ok? && r.value.plan.Some? ==> ExplanationOf(r.value.plan.value) == x)
  {
    match e {
      case EquipmentBundle(b) =>
        StaleExactly(b, now);
        if InTime(e, now) { Maintenance.RequiredRepairIsPlannable(b, now, x); }
      case _ =>
    }
  }

  /** What the agent writes about its plan is kept as it is. */
  function ExplanationOf(plan: Plan): Explanation {
    match plan
    case InventoryPlan(p) => p.explanation
    case EquipmentPlan(p) => p.explanation
    case TaskPlan(p) => p.explanation
  }

  /** A stock assessment reports the position, the limits, and what is missing if it is too low. */
  lemma StockIsAssessedExactly(b: Replenishment.Bundle, now: Instant)
    requires Replenishment.Assess(b, now).Ok?
    ensures var a := Replenishment.Assess(b, now).value;
            && a.sku == b.inventory.sku && a.available == b.inventory.onHand - b.inventory.reserved
            && a.reorderPoint == b.policy.reorderPoint && a.targetStock == b.policy.targetStock
            && (a.required <==> Needed(InventoryBundle(b), now))
            && a.recommended == if a.required then Some(Missing(b)) else None
  {
  }

  /** A task is recovered because it is blocked or, failing that, overdue; the policy says how. */
  lemma RecoveryIsAssessedExactly(b: TaskRecovery.Bundle, now: Instant)
    requires TaskRecovery.Assess(b, now).Ok?
    ensures var a := TaskRecovery.Assess(b, now).value;
            && a.taskId == b.task.taskId && a.state == b.task.state && a.blockerCode == b.task.blockerCode
            && a.retryCount == b.task.retryCount
            && (a.required <==> Needed(TaskBundle(b), now))
            && (a.reason == Some(TaskRecovery.BlockedTask) <==> b.task.state in b.policy.blockedStates)
            && (a.reason == Some(TaskRecovery.OverdueTask) <==> b.task.state !in b.policy.blockedStates && Overdue(b, now))
            && a.recoveryAction == if a.required then Some(b.policy.recoveryAction) else None
  {
  }

  // ---- Which cause a repair answers ---------------------------------------------------------------------------------

  predicate Outranks(p: Priority, q: Priority) {
    (p.Urgent? && !q.Urgent?) || (p.High? && q.Normal?)
  }

  /** The priority the policy maps a cause to. */
  function PriorityFor(b: Maintenance.Bundle, cause: Maintenance.Reason): Priority {
    if cause.StaleHeartbeat? then b.policy.priorityMapping.staleHeartbeat
    else if b.equipment.severity.Critical? then b.policy.priorityMapping.critical
    else b.policy.priorityMapping.warning
  }

  /** The cause that applies and that no other one outranks; of two equals, the alert. */
  predicate Decisive(b: Maintenance.Bundle, now: Instant, cause: Maintenance.Reason) {
    && Applies(b, now, cause)
    && match cause
       case Alert => Applies(b, now, Maintenance.StaleHeartbeat) ==>
         !Outranks(PriorityFor(b, Maintenance.StaleHeartbeat), PriorityFor(b, cause))
       case StaleHeartbeat => Applies(b, now, Maintenance.Alert) ==> Outranks(PriorityFor(b, cause), PriorityFor(b, Maintenance.Alert))
  }

  /** A repair is required exactly if a cause applies, and then answers the decisive one: with its mapped priority, than
      which no applicable cause has a higher one, and with the alert's own code or the one for stale heartbeats. */
  lemma RepairsAnswerTheDecisiveCause(b: Maintenance.Bundle, now: Instant)
    requires b.Valid() && InTime(EquipmentBundle(b), now)
    ensures Maintenance.Assess(b, now).Ok?
    ensures var a := Maintenance.Assess(b, now).value;
            && (a.required <==> exists cause :: Applies(b, now, cause))
            && (a.required <==> a.reason.Some?) && (a.required <==> a.priority.Some?)
            && (forall cause :: a.reason == Some(cause) <==> Decisive(b, now, cause))
            && (a.required ==>
                  && a.priority == Some(PriorityFor(b, a.reason.value))
                  && (forall cause | Applies(b, now, cause) :: !Outranks(PriorityFor(b, cause), a.priority.value))
                  && a.alertCode == (if a.reason.value.StaleHeartbeat? then Some("STALE_HEARTBEAT") else b.equipment.alertCode)
                  && a.alertCode.Some?)
            && (!a.required ==> a.alertCode == b.equipment.alertCode)
            && a.equipmentId == b.equipment.equipmentId && a.heartbeatAge == b.HeartbeatAge(now)
  {
    StaleExactly(b, now);
    assert Applies(b, now, Maintenance.Alert) <==> b.AlertAllowed();
  }

  // ---- What the work order says ---------------------------------------------------------------------------------------

  function PriorityName(p: Priority): string {
    if p.Urgent? then "urgent" else if p.High? then "high" else "normal"
  }

  predicate OrdersStock(b: Replenishment.Bundle, payload: map<string, Json>, hash: Digest) {
    payload == map["sku" := JText(b.inventory.sku), "quantity" := JInt(Missing(b)), "approved_plan_hash" := JDigest(hash)]
  }

  predicate OrdersRepair(b: Maintenance.Bundle, cause: Maintenance.Reason, payload: map<string, Json>, hash: Digest) {
    && payload.Keys == {"kind", "equipment_id", "alert_code", "priority", "approved_plan_hash"}
    && payload["kind"] == JText("repair") && payload["equipment_id"] == JText(b.equipment.equipmentId)
    && (cause.StaleHeartbeat? ==> payload["alert_code"] == JText("STALE_HEARTBEAT"))
    && (cause.Alert? ==> b.equipment.alertCode.Some? && payload["alert_code"] == JText(b.equipment.alertCode.value))
    && payload["priority"] == JText(PriorityName(PriorityFor(b, cause)))
    && payload["approved_plan_hash"] == JDigest(hash)
  }

  predicate OrdersRecovery(b: TaskRecovery.Bundle, payload: map<string, Json>, hash: Digest) {
    && payload.Keys == {"kind", "task_id", "blocker_code", "retry_count", "recovery_action", "approved_plan_hash"}
    && payload["kind"] == JText("task_recovery") && payload["task_id"] == JText(b.task.taskId)
    && payload["blocker_code"] == (if b.task.blockerCode.Some? then JText(b.task.blockerCode.value) else JNull)
    && payload["retry_count"] == JInt(b.task.retryCount) && payload["recovery_action"] == JText("manual_requeue")
    && payload["approved_plan_hash"] == JDigest(hash)
  }

  /** From evidence to work order, field by field: the stock that is missing, the repair the decisive cause calls for,
      or the requeueing of a task. */
  lemma OrdersMeetTheNeed(e: Evidence, x: Explanation, now: Instant)
    requires e.Valid() && EvaluateBundle(true, e, x, now).Ok? && Needed(e, now)
    ensures EvaluateBundle(true, e, x, now).value.plan.Some?
    ensures var plan := EvaluateBundle(true, e, x, now).value.plan.value;
            var payload, hash := WorkOrderPayload(plan), PlanHash(plan);
            match e
            case InventoryBundle(b) => OrdersStock(b, payload, hash)
            case EquipmentBundle(b) => exists cause :: Decisive(b, now, cause) && OrdersRepair(b, cause, payload, hash)
            case TaskBundle(b) => OrdersRecovery(b, payload, hash)
  {
    EvaluationsSucceedExactly(true, e, x, now);
    match e {
      case EquipmentBundle(b) => RepairOrdersMeetTheNeed(b, x, now);
      case _ =>
    }
  }

  lemma RepairOrdersMeetTheNeed(b: Maintenance.Bundle, x: Explanation, now: Instant)
    requires b.Valid() && EvaluateEquipment(true, b, x, now).Ok? && Needed(EquipmentBundle(b), now)
    ensures EvaluateEquipment(true, b, x, now).value.plan.Some?
    ensures var plan := EvaluateEquipment(true, b, x, now).value.plan.value;
            exists cause :: Decisive(b, now, cause) && OrdersRepair(b, cause, WorkOrderPayload(plan), PlanHash(plan))
  {
    EvaluationsSucceedExactly(true, EquipmentBundle(b), x, now);
    RepairsAnswerTheDecisiveCause(b, now);
    var plan := EvaluateEquipment(true, b, x, now).value.plan.value;
    var cause := Maintenance.Assess(b, now).value.reason.value;
    assert OrdersRepair(b, cause, WorkOrderPayload(plan), PlanHash(plan));
  }

  // ---- What the human and the verifier see ----------------------------------------------------------------------------

  /** The parameters a human approves are those of the order. */
  predicate Shows(parameters: Parameters, payload: map<string, Json>) {
    match parameters
    case ReplenishmentParameters(quantity) => "quantity" in payload && payload["quantity"] == JInt(quantity)
    case RepairParameters(code, priority) =>
      && "alert_code" in payload && payload["alert_code"] == JText(code)
      && "priority" in payload && payload["priority"] == JText(PriorityName(priority))
    case TaskRecoveryParameters(_) => "recovery_action" in payload && payload["recovery_action"] == JText("manual_requeue")
  }

  /** A binding names the very readings and plan it was made of, and shows what will be ordered. */
  lemma BindingsShowTheOrder(e: Evidence, p: Plan)
    requires BuildBinding(e, p).Some?
    ensures var binding := BuildBinding(e, p).value;
            && binding.scenario == KindOfEvidence(e)
            && binding.subjectEvidenceId == SubjectId(e) && binding.policyEvidenceId == PolicyId(e)
            && binding.planHash == PlanHash(p) && Shows(binding.parameters, WorkOrderPayload(p))
  {
  }

  /** The verifier is shown the plan's own object and parameters. */
  lemma ProposalsShowTheOrder(p: Plan)
    ensures var shown, payload := DecisionPlanOf(p), WorkOrderPayload(p);
            && shown.planHash == PlanHash(p) && shown.scenario == KindOfPlan(p) && shown.action == ActionName(shown.scenario)
            && SubjectKey(shown.scenario) in payload && payload[SubjectKey(shown.scenario)] == JText(shown.objectId)
            && match p
               case InventoryPlan(_) => shown.parameters == map["kind" := JText("replenishment"), "recommended_quantity" := payload["quantity"]]
               case EquipmentPlan(_) => shown.parameters == map["kind" := payload["kind"], "alert_code" := payload["alert_code"],
                                                                "priority" := payload["priority"]]
               case TaskPlan(_) => shown.parameters == map["kind" := payload["kind"], "recovery_action" := payload["recovery_action"]]
  {
  }

  // ---- Which observations count ---------------------------------------------------------------------------------------

  /** The last successful observation of a tool. */
  predicate IsLast(observations: seq<Observation>, tool: ReadTool, i: int) {
    && 0 <= i < |observations| && observations[i].tool == tool && observations[i].succeeded
    && forall j | i < j < |observations| :: !(observations[j].tool == tool && observations[j].succeeded)
  }

  lemma {:induction false} LastsCount(observations: seq<Observation>, tool: ReadTool)
    ensures Successful(observations, tool).Some? <==> exists i :: IsLast(observations, tool, i)
    ensures forall i | IsLast(observations, tool, i) :: Successful(observations, tool) == Some(observations[i])
  {
    if observations != [] {
      var n := |observations| - 1;
      LastsCount(observations[..n], tool);
      if IsLast(observations, tool, n) {
        assert forall i | IsLast(observations, tool, i) :: i == n;
      } else {
        assert forall i :: IsLast(observations, tool, i) <==> IsLast(observations[..n], tool, i);
      }
    }
  }

  /** The evidence is what the last successful reads of subject and policy returned, under the identifiers they gave. */
  ghost predicate ReadAs(goal: GoalEncoding, observations: seq<Observation>, e: Evidence) {
    && e.Valid() && KindOfEvidence(e) == goal.scenario
    && exists i, j ::
         && IsLast(observations, SubjectTool(goal.scenario), i) && IsLast(observations, PolicyConstraints, j)
         && observations[i].payload == SubjectPayload(e) && observations[i].evidenceRef == Some(SubjectId(e))
         && observations[j].payload == PolicyPayload(e) && observations[j].evidenceRef == Some(PolicyId(e))
  }

  /** An agent's result is the evaluation of exactly the evidence its observations hold. */
  lemma ResultsAreOfTheObservedEvidence(goal: GoalEncoding, observations: seq<Observation>, x: Explanation, now: Instant, e: Evidence)
    ensures var r := EvaluateAgentResult(goal, observations, x, now);
            r.Ok? && r.value.evidence == e <==> ReadAs(goal, observations, e) && EvaluateBundle(goal.goal.CreateWorkOrder?, e, x, now).Ok?
    ensures ReadAs(goal, observations, e) ==>
              EvaluateAgentResult(goal, observations, x, now) == EvaluateBundle(goal.goal.CreateWorkOrder?, e, x, now)
  {
    LastsCount(observations, SubjectTool(goal.scenario));
    LastsCount(observations, PolicyConstraints);
    var r := EvaluateAgentResult(goal, observations, x, now);
    if r.Ok? && r.value.evidence == e {
      var subject, policy := Successful(observations, SubjectTool(goal.scenario)).value, Successful(observations, PolicyConstraints).value;
      var parsed := ParseBundle(goal.scenario, subject.payload, policy.payload).value;
      EvaluatedPlansAreBindable(goal.goal.CreateWorkOrder?, parsed, x, now);
      var i :| IsLast(observations, SubjectTool(goal.scenario), i);
      var j :| IsLast(observations, PolicyConstraints, j);
      assert observations[i] == subject && observations[j] == policy;
    }
    if ReadAs(goal, observations, e) && EvaluateBundle(goal.goal.CreateWorkOrder?, e, x, now).Ok? {
      EvaluatedPlansAreBindable(goal.goal.CreateWorkOrder?, e, x, now);
    }
  }
}
