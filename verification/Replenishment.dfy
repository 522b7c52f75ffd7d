/** Inventory replenishment: evidence, assessment, plan and approval binding. */
module Replenishment {
  import opened Digests
  import opened Scenarios
  import opened Wrappers

  datatype InventoryEvidence = InventoryEvidence(
    evidenceId: Uuid,
    sku: string,
    onHand: int,
    reserved: int,
    capturedAt: Instant,
    sourceVersion: string)

  datatype PolicyEvidence = PolicyEvidence(
    evidenceId: Uuid,
    sku: string,
    reorderPoint: int,
    targetStock: int,
    minimumOrder: int,
    maximumOrder: int,
    ttlSeconds: int,
    ruleVersion: string,
    capturedAt: Instant)

  datatype Bundle = Bundle(inventory: InventoryEvidence, policy: PolicyEvidence) {

    /** The numeric and relational validators of the evidence models. */
    predicate Valid() {
      && 0 <= inventory.onHand
      && 0 <= inventory.reserved
      && 0 <= policy.reorderPoint < policy.targetStock
      && 1 <= policy.minimumOrder <= policy.maximumOrder
      && 1 <= policy.ttlSeconds
      && inventory.sku == policy.sku
    }

    predicate Fresh(now: Instant) {
      && now < inventory.capturedAt + policy.ttlSeconds * SECOND
      && now < policy.capturedAt + policy.ttlSeconds * SECOND
    }

    function Available(): int {
      inventory.onHand - inventory.reserved
    }
  }

  datatype Assessment = Assessment(
    sku: string,
    available: int,
    reorderPoint: int,
    targetStock: int,
    required: bool,
    recommended: Option<int>,
    decisionFactsHash: Digest)

  datatype Plan = Plan(
    sku: string,
    recommendedQuantity: int,
    decisionFactsHash: Digest,
    ruleVersion: string,
    explanation: Explanation,
    planHash: Digest)

  function OptionalInt(value: Option<int>): Json {
    match value
    case None => JNull
    case Some(n) => JInt(n)
  }

  function DecisionFacts(sku: string, available: int, reorderPoint: int, targetStock: int,
                         required: bool, recommended: Option<int>): map<string, Json> {
    map["available_quantity" := JInt(available),
        "recommended_quantity" := OptionalInt(recommended),
        "reorder_point" := JInt(reorderPoint),
        "replenishment_required" := JBool(required),
        "sku" := JText(sku),
        "target_stock" := JInt(targetStock)]
  }

  function Assess(bundle: Bundle, now: Instant): Result<Assessment, EvaluationError> {
    if !bundle.Fresh(now) then Err(EvidenceExpired) else
    var available := bundle.Available();
    var required := available < bundle.policy.reorderPoint;
    var recommended := if required then Some(bundle.policy.targetStock - available) else None;
    if recommended.Some? && !(bundle.policy.minimumOrder <= recommended.value <= bundle.policy.maximumOrder)
    then Err(QuantityOutOfPolicy)
    else
      Ok(Assessment(bundle.inventory.sku, available, bundle.policy.reorderPoint, bundle.policy.targetStock,
                    required, recommended,
                    HashPayload(DecisionFacts(bundle.inventory.sku, available, bundle.policy.reorderPoint,
                                              bundle.policy.targetStock, required, recommended))))
  }

  function PlanFacts(sku: string, quantity: int, decisionFactsHash: Digest, ruleVersion: string): map<string, Json> {
    map["action" := JText("replenish_inventory"),
        "decision_facts_hash" := JDigest(decisionFactsHash),
        "recommended_quantity" := JInt(quantity),
        "rule_version" := JText(ruleVersion),
        "sku" := JText(sku)]
  }

  function BuildPlan(assessment: Assessment, explanation: Explanation, ruleVersion: string)
    : Result<Plan, EvaluationError>
  {
    if assessment.recommended.None? then Err(PlanNotBuildable) else
    var quantity := assessment.recommended.value;
    Ok(Plan(assessment.sku, quantity, assessment.decisionFactsHash, ruleVersion, explanation,
            HashPayload(PlanFacts(assessment.sku, quantity, assessment.decisionFactsHash, ruleVersion))))
  }

  function BuildBinding(bundle: Bundle, plan: Plan): ApprovalBinding {
    ApprovalBinding(Inventory, bundle.inventory.evidenceId, bundle.policy.evidenceId, plan.ruleVersion,
                    plan.decisionFactsHash, plan.planHash, ReplenishmentParameters(plan.recommendedQuantity))
  }

  /** A plan as the evaluation of `bundle` at `now` produces it. */
  ghost predicate Derived(bundle: Bundle, now: Instant, explanation: Explanation, plan: Plan) {
    && bundle.Valid()
    && Assess(bundle, now).Ok?
    && BuildPlan(Assess(bundle, now).value, explanation, bundle.policy.ruleVersion) == Ok(plan)
  }

  /** What the hashes of a plan commit to. */
  datatype Commitment = Commitment(sku: string, available: int, reorderPoint: int, targetStock: int, ruleVersion: string)

  function CommitmentOf(bundle: Bundle): Commitment {
    Commitment(bundle.inventory.sku, bundle.Available(), bundle.policy.reorderPoint, bundle.policy.targetStock,
               bundle.policy.ruleVersion)
  }

  /** Order limits are checked but not hashed; the quantity is still pinned down by what is. */
  lemma PlannedQuantity(bundle: Bundle, now: Instant, explanation: Explanation, plan: Plan)
    requires Derived(bundle, now, explanation, plan)
    ensures plan.recommendedQuantity == bundle.policy.targetStock - bundle.Available()
    ensures 0 < bundle.policy.minimumOrder <= plan.recommendedQuantity <= bundle.policy.maximumOrder
    ensures bundle.Available() < bundle.policy.reorderPoint
  {
  }

  /** Two derived plans carry the same binding facts exactly when their bundles agree on the
      commitment; evidence identifiers, capture times, limits and prose play no part. */
  lemma BindingExact(b1: Bundle, t1: Instant, x1: Explanation, p1: Plan,
                     b2: Bundle, t2: Instant, x2: Explanation, p2: Plan)
    requires Derived(b1, t1, x1, p1) && Derived(b2, t2, x2, p2)
    ensures FactsOf(BuildBinding(b1, p1)) == FactsOf(BuildBinding(b2, p2))
       <==> CommitmentOf(b1) == CommitmentOf(b2)
  {
    if FactsOf(BuildBinding(b1, p1)) == FactsOf(BuildBinding(b2, p2)) {
      var f1, f2 := p1.decisionFactsHash.preimage, p2.decisionFactsHash.preimage;
      assert f1["available_quantity"] == f2["available_quantity"];
      assert f1["reorder_point"] == f2["reorder_point"];
      assert f1["target_stock"] == f2["target_stock"];
      assert f1["sku"] == f2["sku"];
    }
  }
}
