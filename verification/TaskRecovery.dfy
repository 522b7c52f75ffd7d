/** Task recovery: evidence, assessment, plan and approval binding. */
module TaskRecovery {
  import opened Digests
  import opened Scenarios
  import opened Wrappers

  datatype TaskState = Running | Blocked | Completed

  datatype TaskEvidence = TaskEvidence(
    evidenceId: Uuid,
    taskId: string,
    state: TaskState,
    dueAt: Instant,
    lastProgressAt: Instant,
    blockerCode: Option<string>,
    retryCount: int,
    capturedAt: Instant,
    sourceVersion: string)

  datatype PolicyEvidence = PolicyEvidence(
    evidenceId: Uuid,
    taskId: string,
    blockedStates: seq<TaskState>,
    overdueGraceSeconds: int,
    maximumRetryCount: int,
    recoveryAction: RecoveryMove,
    ttlSeconds: int,
    ruleVersion: string,
    capturedAt: Instant)

  datatype Bundle = Bundle(task: TaskEvidence, policy: PolicyEvidence) {

    predicate Valid() {
      && (task.state.Blocked? <==> task.blockerCode.Some?)
      && task.lastProgressAt <= task.capturedAt
      && 0 <= task.retryCount
      && 0 <= policy.overdueGraceSeconds
      && 0 <= policy.maximumRetryCount
      && policy.blockedStates != []
      && (forall i, j | 0 <= i < j < |policy.blockedStates| :: policy.blockedStates[i] != policy.blockedStates[j])
      && Completed !in policy.blockedStates
      && 1 <= policy.ttlSeconds
      && task.taskId == policy.taskId
      && task.evidenceId != policy.evidenceId
    }

    predicate Fresh(now: Instant) {
      && now < task.capturedAt + policy.ttlSeconds * SECOND
      && now < policy.capturedAt + policy.ttlSeconds * SECOND
    }

    predicate IsBlocked() {
      task.state in policy.blockedStates
    }

    predicate IsOverdue(now: Instant) {
      !task.state.Completed? && now > task.dueAt + policy.overdueGraceSeconds * SECOND
    }
  }

  datatype Reason = BlockedTask | OverdueTask

  datatype Assessment = Assessment(
    taskId: string,
    state: TaskState,
    blockerCode: Option<string>,
    retryCount: int,
    required: bool,
    reason: Option<Reason>,
    recoveryAction: Option<RecoveryMove>,
    decisionFactsHash: Digest)

  datatype Plan = Plan(
    taskId: string,
    blockerCode: Option<string>,
    retryCount: int,
    recoveryAction: RecoveryMove,
    decisionFactsHash: Digest,
    ruleVersion: string,
    explanation: Explanation,
    planHash: Digest)

  function StateText(state: TaskState): string {
    match state
    case Running => "running"
    case Blocked => "blocked"
    case Completed => "completed"
  }

  function ReasonJson(reason: Option<Reason>): Json {
    match reason
    case None => JNull
    case Some(BlockedTask) => JText("blocked")
    case Some(OverdueTask) => JText("overdue")
  }

  function MoveJson(move: Option<RecoveryMove>): Json {
    if move.Some? then JText("manual_requeue") else JNull
  }

  function DecisionFacts(task: TaskEvidence, reason: Option<Reason>, move: Option<RecoveryMove>, required: bool)
    : map<string, Json>
  {
    map["blocker_code" := TextOrNull(task.blockerCode),
        "reason" := ReasonJson(reason),
        "recovery_action" := MoveJson(move),
        "recovery_required" := JBool(required),
        "retry_count" := JInt(task.retryCount),
        "state" := JText(StateText(task.state)),
        "task_id" := JText(task.taskId)]
  }

  function Assess(bundle: Bundle, now: Instant): Result<Assessment, EvaluationError> {
    if !bundle.Fresh(now) then Err(EvidenceExpired) else
    var blocked := bundle.IsBlocked();
    var overdue := bundle.IsOverdue(now);
    var required := blocked || overdue;
    if required && bundle.task.retryCount > bundle.policy.maximumRetryCount then Err(RecoveryOutOfPolicy) else
    var reason := if blocked then Some(BlockedTask) else if overdue then Some(OverdueTask) else None;
    var move := if required then Some(bundle.policy.recoveryAction) else None;
    Ok(Assessment(bundle.task.taskId, bundle.task.state, bundle.task.blockerCode, bundle.task.retryCount, required,
                  reason, move, HashPayload(DecisionFacts(bundle.task, reason, move, required))))
  }

  function PlanFacts(taskId: string, blockerCode: Option<string>, retryCount: int, move: RecoveryMove,
                     decisionFactsHash: Digest, ruleVersion: string): map<string, Json>
  {
    map["action" := JText("recover_task"),
        "blocker_code" := TextOrNull(blockerCode),
        "decision_facts_hash" := JDigest(decisionFactsHash),
        "recovery_action" := MoveJson(Some(move)),
        "retry_count" := JInt(retryCount),
        "rule_version" := JText(ruleVersion),
        "task_id" := JText(taskId)]
  }

  function BuildPlan(assessment: Assessment, explanation: Explanation, ruleVersion: string)
    : Result<Plan, EvaluationError>
  {
    if !assessment.required || assessment.recoveryAction.None? then Err(PlanNotBuildable) else
    var move := assessment.recoveryAction.value;
    Ok(Plan(assessment.taskId, assessment.blockerCode, assessment.retryCount, move, assessment.decisionFactsHash,
            ruleVersion, explanation, HashPayload(PlanFacts(assessment.taskId, assessment.blockerCode, assessment.retryCount, move,
                                                            assessment.decisionFactsHash, ruleVersion))))
  }

  function BuildBinding(bundle: Bundle, plan: Plan): ApprovalBinding {
    ApprovalBinding(Task, bundle.task.evidenceId, bundle.policy.evidenceId, plan.ruleVersion,
                    plan.decisionFactsHash, plan.planHash, TaskRecoveryParameters(plan.recoveryAction))
  }

  ghost predicate Derived(bundle: Bundle, now: Instant, explanation: Explanation, plan: Plan) {
    && bundle.Valid()
    && Assess(bundle, now).Ok?
    && BuildPlan(Assess(bundle, now).value, explanation, bundle.policy.ruleVersion) == Ok(plan)
  }

  datatype Commitment = Commitment(
    taskId: string,
    state: TaskState,
    blockerCode: Option<string>,
    retryCount: int,
    blocked: bool,
    ruleVersion: string)

  function CommitmentOf(bundle: Bundle): Commitment {
    Commitment(bundle.task.taskId, bundle.task.state, bundle.task.blockerCode, bundle.task.retryCount,
               bundle.IsBlocked(), bundle.policy.ruleVersion)
  }

  /** Deadlines are not hashed: among plans, only the blocked-or-overdue reason is. */
  lemma BindingExact(b1: Bundle, t1: Instant, x1: Explanation, p1: Plan,
                     b2: Bundle, t2: Instant, x2: Explanation, p2: Plan)
    requires Derived(b1, t1, x1, p1) && Derived(b2, t2, x2, p2)
    ensures FactsOf(BuildBinding(b1, p1)) == FactsOf(BuildBinding(b2, p2))
       <==> CommitmentOf(b1) == CommitmentOf(b2)
  {
    assert b1.policy.recoveryAction.ManualRequeue? && b2.policy.recoveryAction.ManualRequeue?;
    if FactsOf(BuildBinding(b1, p1)) == FactsOf(BuildBinding(b2, p2)) {
      var f1, f2 := p1.decisionFactsHash.preimage, p2.decisionFactsHash.preimage;
      assert f1["task_id"] == f2["task_id"];
      assert f1["state"] == f2["state"];
      assert f1["blocker_code"] == f2["blocker_code"];
      assert f1["retry_count"] == f2["retry_count"];
      assert f1["reason"] == f2["reason"];
    }
  }
}
