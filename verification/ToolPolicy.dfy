/** Authorization of the read calls a model proposes: exact, goal-bound, and never twice. */
module ToolPolicies {
  import opened AgentDomain
  import opened Digests
  import opened Scenarios
  import opened Wrappers

  datatype PolicyError = ToolBudgetExceeded | ToolPolicyViolation | ObjectBindingMismatch | DuplicateToolCall

  function ReadToolNamed(name: string): Option<ReadTool> {
    if name == "inventory.get_snapshot" then Some(InventorySnapshot)
    else if name == "equipment.get_status" then Some(EquipmentStatus)
    else if name == "task.get_status" then Some(TaskStatus)
    else if name == "policy.list_constraints" then Some(PolicyConstraints)
    else if name == "knowledge.search_sop" then Some(KnowledgeSearch)
    else None
  }

  function ToolName(tool: ReadTool): (name: string)
    ensures ReadToolNamed(name) == Some(tool)
  {
    match tool
    case InventorySnapshot => "inventory.get_snapshot"
    case EquipmentStatus => "equipment.get_status"
    case TaskStatus => "task.get_status"
    case PolicyConstraints => "policy.list_constraints"
    case KnowledgeSearch => "knowledge.search_sop"
  }

  function ScenarioText(scenario: ScenarioKind): string {
    match scenario
    case Inventory => "inventory"
    case Equipment => "equipment"
    case Task => "task"
  }

  function KnowledgeQuery(goal: GoalEncoding): string {
    var topic := match goal.scenario
      case Inventory => "库存补货 "
      case Equipment => "设备维修 "
      case Task => "任务恢复 ";
    topic + goal.objectId + " 审批复核 SOP"
  }

  datatype ToolPolicy = ToolPolicy(goal: GoalEncoding, maxToolCalls: nat, includeKnowledge: bool)
  {
    /** The only arguments each offered tool may be called with. */
    function Expected(): map<ReadTool, Arguments> {
      var subjectKey := SubjectKey(goal.scenario);
      var facts := map[
                     SubjectTool(goal.scenario) := map[subjectKey := JText(goal.objectId)],
                     PolicyConstraints := map["action" := JText(ActionName(goal.scenario)), subjectKey := JText(goal.objectId)]];
      if !includeKnowledge then facts
      else facts[KnowledgeSearch := map["scenario" := JText(ScenarioText(goal.scenario)), "query" := JText(KnowledgeQuery(goal))]]
    }

    /** The tools on offer, in the order they are offered. */
    function Definitions(): seq<ReadTool> {
      [SubjectTool(goal.scenario), PolicyConstraints] + if includeKnowledge then [KnowledgeSearch] else []
    }

    /** Another object named under the subject key. A JSON null there counts as absent. */
    predicate NamesAnotherObject(arguments: Arguments) {
      var key := SubjectKey(goal.scenario);
      key in arguments && !arguments[key].JNull? && arguments[key] != JText(goal.objectId)
    }

    function Authorize(callId: string, toolName: string, arguments: Arguments, prior: seq<ToolCall>)
      : Result<ToolCall, PolicyError>
    {
      if |prior| >= maxToolCalls then Err(ToolBudgetExceeded) else
      var tool := ReadToolNamed(toolName);
      if tool.None? || tool.value !in Expected() then Err(ToolPolicyViolation)
      else if NamesAnotherObject(arguments) then Err(ObjectBindingMismatch)
      else if arguments != Expected()[tool.value] then Err(ToolPolicyViolation)
      else if exists p | p in prior :: p.callId == callId || (p.tool == tool.value && p.arguments == arguments)
      then Err(DuplicateToolCall)
      else Ok(ToolCall(callId, tool.value, arguments))
    }

    /** What every list of authorized calls satisfies. */
    ghost predicate Admits(calls: seq<ToolCall>) {
      && |calls| <= maxToolCalls
      && (forall i | 0 <= i < |calls| ::
            calls[i].tool in Expected() && calls[i].arguments == Expected()[calls[i].tool])
      && (forall i, j | 0 <= i < j < |calls| :: calls[i].tool != calls[j].tool && calls[i].callId != calls[j].callId)
    }

    /** Extending an admitted list succeeds exactly when the longer list is admitted too. */
    lemma AuthorizeExtends(callId: string, toolName: string, arguments: Arguments, prior: seq<ToolCall>)
      requires Admits(prior)
      ensures var tool, r := ReadToolNamed(toolName), Authorize(callId, toolName, arguments, prior);
              && (r.Ok? <==> tool.Some? && Admits(prior + [ToolCall(callId, tool.value, arguments)]))
              && (r.Ok? ==> r.value == ToolCall(callId, tool.value, arguments))
    {
      var tool, r := ReadToolNamed(toolName), Authorize(callId, toolName, arguments, prior);
      if tool.Some? {
        var longer := prior + [ToolCall(callId, tool.value, arguments)];
        if r.Ok? {
          forall i, j | 0 <= i < j < |longer| ensures longer[i].tool != longer[j].tool && longer[i].callId != longer[j].callId {
            assert longer[i] in prior;
          }
        }
        if Admits(longer) {
          forall p | p in prior ensures p.callId != callId && p.tool != tool.value {
            var i :| 0 <= i < |prior| && prior[i] == p;
            assert longer[i] == p && longer[|prior|] == ToolCall(callId, tool.value, arguments);
          }
          assert longer[|prior|].arguments == Expected()[tool.value];
        }
      }
    }

    /** Why a call is refused: first the budget, then an unknown tool, a call for another object, other arguments than
        the expected ones, and last a repetition. */
    lemma RefusalsSayWhy(callId: string, toolName: string, arguments: Arguments, prior: seq<ToolCall>)
      requires Admits(prior)
      ensures var r, tool := Authorize(callId, toolName, arguments, prior), ReadToolNamed(toolName);
              var offered := tool.Some? && tool.value in Expected();
              var key := SubjectKey(goal.scenario);
              var other := key in arguments && arguments[key] != JNull && arguments[key] != JText(goal.objectId);
              var known := offered && Expected()[tool.value] == arguments;
              && (r == Err(ToolBudgetExceeded) <==> |prior| == maxToolCalls)
              && (r == Err(ObjectBindingMismatch) <==> |prior| < maxToolCalls && offered && other)
              && (r == Err(ToolPolicyViolation) <==>
                  |prior| < maxToolCalls && !known && !(offered && other))
              && (r == Err(DuplicateToolCall) <==>
                  |prior| < maxToolCalls && known && exists p | p in prior :: p.callId == callId || p.tool == tool.value)
    {
      forall p | p in prior ensures p.tool in Expected() && p.arguments == Expected()[p.tool] {
        var i :| 0 <= i < |prior| && prior[i] == p;
      }
    }

    /** The offer is exactly the set of tools with expected arguments, each once. */
    lemma OfferIsExact()
      ensures forall tool :: tool in Definitions() <==> tool in Expected()
      ensures forall i, j | 0 <= i < j < |Definitions()| :: Definitions()[i] != Definitions()[j]
      ensures Expected().Keys == set tool | tool in Definitions()
      ensures |Expected().Keys| == |Definitions()| == if includeKnowledge then 3 else 2
    {
      var subject := SubjectTool(goal.scenario);
      assert Expected().Keys == if includeKnowledge then {subject, PolicyConstraints, KnowledgeSearch} else {subject, PolicyConstraints};
      assert forall tool :: tool in Definitions() <==> tool in Expected();
    }

    /** Distinct tools from a fixed offer: authorized calls are few whatever the model asks for. */
    lemma AdmittedCallsAreFew(calls: seq<ToolCall>)
      requires Admits(calls)
      ensures |calls| <= Limit()
    {
      OfferIsExact();
      DistinctToolsFit(calls, Expected().Keys);
    }

    function Limit(): nat {
      if maxToolCalls < |Definitions()| then maxToolCalls else |Definitions()|
    }
  }

  lemma {:induction false} DistinctToolsFit(calls: seq<ToolCall>, tools: set<ReadTool>)
    requires forall i | 0 <= i < |calls| :: calls[i].tool in tools
    requires forall i, j | 0 <= i < j < |calls| :: calls[i].tool != calls[j].tool
    ensures |calls| <= |tools|
  {
    if calls != [] {
      var n := |calls| - 1;
      DistinctToolsFit(calls[..n], tools - {calls[n].tool});
    }
  }
}
