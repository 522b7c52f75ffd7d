/** The agent's data contracts: tools, calls, observations, turns. */
module AgentDomain {
  import opened Digests
  import opened Scenarios
  import opened Wrappers
  import Maintenance
  import Replenishment
  import TaskRecovery

  datatype ReadTool = InventorySnapshot | EquipmentStatus | TaskStatus | PolicyConstraints | KnowledgeSearch

  type Arguments = map<string, Json>

  datatype GoalEncoding = GoalEncoding(goal: ActionType, scenario: ScenarioKind, objectId: string)

  datatype ToolCall = ToolCall(callId: string, tool: ReadTool, arguments: Arguments)

  /** What a tool returned. A payload that no evidence model accepts is `OtherPayload`. */
  datatype EvidencePayload =
    | InventoryPayload(inventory: Replenishment.InventoryEvidence)
    | EquipmentPayload(equipment: Maintenance.EquipmentEvidence)
    | TaskPayload(task: TaskRecovery.TaskEvidence)
    | ReplenishmentPolicy(replenishment: Replenishment.PolicyEvidence)
    | MaintenancePolicy(maintenance: Maintenance.PolicyEvidence)
    | TaskRecoveryPolicy(recovery: TaskRecovery.PolicyEvidence)
    | KnowledgePayload(results: string)
    | OtherPayload

  datatype Observation = Observation(
    callId: string,
    tool: ReadTool,
    argumentsHash: Digest,
    succeeded: bool,
    evidenceRef: Option<Uuid>,
    payload: EvidencePayload)

  datatype FinalAnalysis = FinalAnalysis(missingEvidence: bool, explanation: Explanation)

  datatype Turn = ToolDecision(calls: seq<ToolCall>) | Final(analysis: FinalAnalysis)

  function SubjectTool(scenario: ScenarioKind): ReadTool {
    match scenario
    case Inventory => InventorySnapshot
    case Equipment => EquipmentStatus
    case Task => TaskStatus
  }

  function SubjectKey(scenario: ScenarioKind): string {
    match scenario
    case Inventory => "sku"
    case Equipment => "equipment_id"
    case Task => "task_id"
  }

  function ActionName(scenario: ScenarioKind): string {
    match scenario
    case Inventory => "replenish_inventory"
    case Equipment => "repair_equipment"
    case Task => "recover_task"
  }
}
