/** Vocabulary shared by the three business scenarios. */
module Scenarios {
  import opened Digests

  type Uuid = string

  /** Microseconds on one time line; a timezone never changes the instant. */
  type Instant = int

  const SECOND: int := 1_000_000

  datatype ScenarioKind = Inventory | Equipment | Task

  datatype ActionType = Query | CreateWorkOrder

  datatype Priority = Normal | High | Urgent

  datatype RecoveryMove = ManualRequeue

  datatype Parameters =
    | ReplenishmentParameters(recommendedQuantity: int)
    | RepairParameters(alertCode: string, priority: Priority)
    | TaskRecoveryParameters(recoveryAction: RecoveryMove)

  datatype ApprovalBinding = ApprovalBinding(
    scenario: ScenarioKind,
    subjectEvidenceId: Uuid,
    policyEvidenceId: Uuid,
    ruleVersion: string,
    decisionFactsHash: Digest,
    planHash: Digest,
    parameters: Parameters)

  /** The model's free text. It is stored with a plan and never hashed. */
  datatype Explanation = Explanation(summary: string, rationale: string)

  datatype EvaluationError =
    | EvidenceExpired
    | QuantityOutOfPolicy
    | RecoveryOutOfPolicy
    | PlanNotBuildable
    | RequiredEvidenceMissing
    | EvidenceInvalid
    | EvidenceReferenceMismatch

  /** The part of a binding that decides whether an approval still stands: evidence
      identifiers are left out, so re-reading the same facts keeps it. */
  datatype BindingFacts = BindingFacts(
    scenario: ScenarioKind,
    ruleVersion: string,
    decisionFactsHash: Digest,
    planHash: Digest,
    parameters: Parameters)

  function FactsOf(binding: ApprovalBinding): BindingFacts {
    BindingFacts(binding.scenario, binding.ruleVersion, binding.decisionFactsHash,
                 binding.planHash, binding.parameters)
  }
}
