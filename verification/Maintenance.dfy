/** Equipment maintenance: evidence, assessment, plan and approval binding. */
module Maintenance {
  import opened Digests
  import opened Scenarios
  import opened Wrappers

  datatype EquipmentState = Healthy | Degraded | Offline

  datatype Severity = NoAlert | Warning | Critical

  datatype EquipmentEvidence = EquipmentEvidence(
    evidenceId: Uuid,
    equipmentId: string,
    state: EquipmentState,
    alertCode: Option<string>,
    severity: Severity,
    lastHeartbeat: Instant,
    capturedAt: Instant,
    sourceVersion: string)

  datatype PriorityMapping = PriorityMapping(warning: Priority, critical: Priority, staleHeartbeat: Priority)

  datatype PolicyEvidence = PolicyEvidence(
    evidenceId: Uuid,
    equipmentId: string,
    allowedAlertLevels: seq<Severity>,
    maximumHeartbeatAgeSeconds: int,
    priorityMapping: PriorityMapping,
    ttlSeconds: int,
    ruleVersion: string,
    capturedAt: Instant)

  function Rank(priority: Priority): nat {
    match priority
    case Normal => 0
    case High => 1
    case Urgent => 2
  }

  datatype Bundle = Bundle(equipment: EquipmentEvidence, policy: PolicyEvidence) {

    predicate Valid() {
      && (equipment.alertCode.None? <==> equipment.severity.NoAlert?)
      && equipment.lastHeartbeat <= equipment.capturedAt
      && policy.allowedAlertLevels != []
      && (forall i, j | 0 <= i < j < |policy.allowedAlertLevels| ::
            policy.allowedAlertLevels[i] != policy.allowedAlertLevels[j])
      && NoAlert !in policy.allowedAlertLevels
      && Rank(policy.priorityMapping.warning) <= Rank(policy.priorityMapping.critical)
      && 1 <= policy.maximumHeartbeatAgeSeconds
      && 1 <= policy.ttlSeconds
      && equipment.equipmentId == policy.equipmentId
      && equipment.evidenceId != policy.evidenceId
    }

    predicate Fresh(now: Instant) {
      && now < equipment.capturedAt + policy.ttlSeconds * SECOND
      && now < policy.capturedAt + policy.ttlSeconds * SECOND
    }

    /** Whole seconds since the last heartbeat; a heartbeat in the future counts as age zero. */
    function HeartbeatAge(now: Instant): nat {
      if now <= equipment.lastHeartbeat then 0 else (now - equipment.lastHeartbeat) / SECOND
    }

    predicate Stale(now: Instant) {
      HeartbeatAge(now) > policy.maximumHeartbeatAgeSeconds
    }

    predicate AlertAllowed() {
      equipment.severity in policy.allowedAlertLevels
    }
  }

  datatype Reason = Alert | StaleHeartbeat

  datatype Assessment = Assessment(
    equipmentId: string,
    alertCode: Option<string>,
    required: bool,
    reason: Option<Reason>,
    priority: Option<Priority>,
    heartbeatAge: nat,
    decisionFactsHash: Digest)

  datatype Plan = Plan(
    equipmentId: string,
    alertCode: string,
    priority: Priority,
    decisionFactsHash: Digest,
    ruleVersion: string,
    explanation: Explanation,
    planHash: Digest)

  function PriorityText(priority: Priority): string {
    match priority
    case Normal => "normal"
    case High => "high"
    case Urgent => "urgent"
  }

  function SeverityText(severity: Severity): string {
    match severity
    case NoAlert => "none"
    case Warning => "warning"
    case Critical => "critical"
  }

  function StateText(state: EquipmentState): string {
    match state
    case Healthy => "healthy"
    case Degraded => "degraded"
    case Offline => "offline"
  }

  function ReasonJson(reason: Option<Reason>): Json {
    match reason
    case None => JNull
    case Some(Alert) => JText("alert")
    case Some(StaleHeartbeat) => JText("stale_heartbeat")
  }

  function PriorityJson(priority: Option<Priority>): Json {
    match priority
    case None => JNull
    case Some(p) => JText(PriorityText(p))
  }

  /** What the alert alone would ask for. */
  function AlertPriority(bundle: Bundle): Option<Priority> {
    if !bundle.AlertAllowed() then None
    else match bundle.equipment.severity
         case Warning => Some(bundle.policy.priorityMapping.warning)
         case Critical => Some(bundle.policy.priorityMapping.critical)
         case NoAlert => None
  }

  /** A stale heartbeat takes over when it is strictly more urgent than the alert, or alone. */
  predicate StaleWins(bundle: Bundle, now: Instant) {
    var alert := AlertPriority(bundle);
    bundle.Stale(now) && (alert.None? || Rank(bundle.policy.priorityMapping.staleHeartbeat) > Rank(alert.value))
  }

  function DecisionFacts(bundle: Bundle, stale: bool, alertCode: Option<string>, required: bool,
                         reason: Option<Reason>, priority: Option<Priority>): map<string, Json> {
    map["alert_code" := TextOrNull(alertCode),
        "alert_allowed" := JBool(bundle.AlertAllowed()),
        "equipment_id" := JText(bundle.equipment.equipmentId),
        "heartbeat_stale" := JBool(stale),
        "last_heartbeat" := JInt(bundle.equipment.lastHeartbeat),
        "maintenance_required" := JBool(required),
        "priority" := PriorityJson(priority),
        "reason" := ReasonJson(reason),
        "severity" := JText(SeverityText(bundle.equipment.severity)),
        "source_version" := JText(bundle.equipment.sourceVersion),
        "state" := JText(StateText(bundle.equipment.state))]
  }

  function Assess(bundle: Bundle, now: Instant): Result<Assessment, EvaluationError> {
    if !bundle.Fresh(now) then Err(EvidenceExpired) else
    var stale := bundle.Stale(now);
    var required := stale || bundle.AlertAllowed();
    var wins := StaleWins(bundle, now);
    var reason := if wins then Some(StaleHeartbeat) else if bundle.AlertAllowed() then Some(Alert) else None;
    var priority := if wins then Some(bundle.policy.priorityMapping.staleHeartbeat) else AlertPriority(bundle);
    var alertCode := if wins then Some("STALE_HEARTBEAT") else bundle.equipment.alertCode;
    Ok(Assessment(bundle.equipment.equipmentId, alertCode, required, reason, priority, bundle.HeartbeatAge(now),
                  HashPayload(DecisionFacts(bundle, stale, alertCode, required, reason, priority))))
  }

  function PlanFacts(equipmentId: string, alertCode: string, priority: Priority, decisionFactsHash: Digest,
                     ruleVersion: string): map<string, Json> {
    map["action" := JText("repair_equipment"),
        "alert_code" := JText(alertCode),
        "decision_facts_hash" := JDigest(decisionFactsHash),
        "equipment_id" := JText(equipmentId),
        "priority" := JText(PriorityText(priority)),
        "rule_version" := JText(ruleVersion)]
  }

  function BuildPlan(assessment: Assessment, explanation: Explanation, ruleVersion: string)
    : Result<Plan, EvaluationError>
  {
    if !assessment.required || assessment.alertCode.None? || assessment.priority.None? then Err(PlanNotBuildable) else
    var code, priority := assessment.alertCode.value, assessment.priority.value;
    Ok(Plan(assessment.equipmentId, code, priority, assessment.decisionFactsHash, ruleVersion, explanation,
            HashPayload(PlanFacts(assessment.equipmentId, code, priority, assessment.decisionFactsHash, ruleVersion))))
  }

  function BuildBinding(bundle: Bundle, plan: Plan): ApprovalBinding {
    ApprovalBinding(Equipment, bundle.equipment.evidenceId, bundle.policy.evidenceId, plan.ruleVersion,
                    plan.decisionFactsHash, plan.planHash, RepairParameters(plan.alertCode, plan.priority))
  }

  ghost predicate Derived(bundle: Bundle, now: Instant, explanation: Explanation, plan: Plan) {
    && bundle.Valid()
    && Assess(bundle, now).Ok?
    && BuildPlan(Assess(bundle, now).value, explanation, bundle.policy.ruleVersion) == Ok(plan)
  }

  datatype Commitment = Commitment(
    equipmentId: string,
    state: EquipmentState,
    severity: Severity,
    sourceVersion: string,
    lastHeartbeat: Instant,
    alertAllowed: bool,
    stale: bool,
    alertCode: Option<string>,
    priority: Option<Priority>,
    reason: Option<Reason>,
    ruleVersion: string)

  function CommitmentOf(bundle: Bundle, now: Instant): Commitment
    requires Assess(bundle, now).Ok?
  {
    var a := Assess(bundle, now).value;
    Commitment(bundle.equipment.equipmentId, bundle.equipment.state, bundle.equipment.severity,
               bundle.equipment.sourceVersion, bundle.equipment.lastHeartbeat, bundle.AlertAllowed(),
               bundle.Stale(now), a.alertCode, a.priority, a.reason, bundle.policy.ruleVersion)
  }

  /** A required repair always has a code and a priority, so building its plan never raises. */
  lemma RequiredRepairIsPlannable(bundle: Bundle, now: Instant, explanation: Explanation)
    requires bundle.Valid() && bundle.Fresh(now)
    ensures Assess(bundle, now).Ok?
    ensures Assess(bundle, now).value.required
       <==> BuildPlan(Assess(bundle, now).value, explanation, bundle.policy.ruleVersion).Ok?
  {
  }

  /** Time only ever turns a live heartbeat stale. */
  lemma StalenessIsMonotone(bundle: Bundle, t1: Instant, t2: Instant)
    requires t1 <= t2 && bundle.Stale(t1)
    ensures bundle.Stale(t2)
  {
    if bundle.equipment.lastHeartbeat < t1 {
      DivisionIsMonotone(t1 - bundle.equipment.lastHeartbeat, t2 - bundle.equipment.lastHeartbeat);
    }
  }

  lemma DivisionIsMonotone(a: int, b: int)
    requires 0 <= a <= b
    ensures a / SECOND <= b / SECOND
  {
  }

  lemma DecisionFactsAreReadable(b1: Bundle, s1: bool, c1: Option<string>, r1: bool, w1: Option<Reason>, p1: Option<Priority>,
                                 b2: Bundle, s2: bool, c2: Option<string>, r2: bool, w2: Option<Reason>, p2: Option<Priority>)
    requires DecisionFacts(b1, s1, c1, r1, w1, p1) == DecisionFacts(b2, s2, c2, r2, w2, p2)
    ensures b1.equipment.equipmentId == b2.equipment.equipmentId && b1.equipment.state == b2.equipment.state
    ensures b1.equipment.severity == b2.equipment.severity && b1.equipment.sourceVersion == b2.equipment.sourceVersion
    ensures b1.equipment.lastHeartbeat == b2.equipment.lastHeartbeat
    ensures b1.AlertAllowed() == b2.AlertAllowed() && s1 == s2 && w1 == w2
  {
    var f1, f2 := DecisionFacts(b1, s1, c1, r1, w1, p1), DecisionFacts(b2, s2, c2, r2, w2, p2);
    assert f1["equipment_id"] == f2["equipment_id"];
    assert f1["state"] == f2["state"];
    assert f1["severity"] == f2["severity"];
    assert f1["source_version"] == f2["source_version"];
    assert f1["last_heartbeat"] == f2["last_heartbeat"];
    assert f1["alert_allowed"] == f2["alert_allowed"];
    assert f1["heartbeat_stale"] == f2["heartbeat_stale"];
    assert f1["reason"] == f2["reason"];
  }

  lemma EqualBindingsCommit(b1: Bundle, t1: Instant, x1: Explanation, p1: Plan,
                            b2: Bundle, t2: Instant, x2: Explanation, p2: Plan)
    requires Derived(b1, t1, x1, p1) && Derived(b2, t2, x2, p2)
    requires FactsOf(BuildBinding(b1, p1)) == FactsOf(BuildBinding(b2, p2))
    ensures CommitmentOf(b1, t1) == CommitmentOf(b2, t2)
  {
    var a1, a2 := Assess(b1, t1).value, Assess(b2, t2).value;
    DecisionFactsAreReadable(b1, b1.Stale(t1), a1.alertCode, a1.required, a1.reason, a1.priority,
                             b2, b2.Stale(t2), a2.alertCode, a2.required, a2.reason, a2.priority);
  }

  /** Two derived plans carry the same binding facts exactly when their bundles agree on the
      commitment, which includes whether the heartbeat counted as stale. */
  lemma BindingExact(b1: Bundle, t1: Instant, x1: Explanation, p1: Plan,
                     b2: Bundle, t2: Instant, x2: Explanation, p2: Plan)
    requires Derived(b1, t1, x1, p1) && Derived(b2, t2, x2, p2)
    ensures FactsOf(BuildBinding(b1, p1)) == FactsOf(BuildBinding(b2, p2))
       <==> CommitmentOf(b1, t1) == CommitmentOf(b2, t2)
  {
    if FactsOf(BuildBinding(b1, p1)) == FactsOf(BuildBinding(b2, p2)) {
      EqualBindingsCommit(b1, t1, x1, p1, b2, t2, x2, p2);
    }
  }
}
