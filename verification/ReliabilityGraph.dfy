/** The eight-node graph that carries an operation from receipt to its outcome.

    Of the graph engine only this is kept: the next node, whether it is interrupted, the channel
    values, and that a checkpoint is written after each node's database transaction has committed. */
module ReliabilityGraph {
  import opened Database
  import opened Digests
  import OperationStates
  import opened Recovery
  import opened Scenarios
  import opened Tables
  import WorkOrders
  import opened Wrappers

  datatype Node =
    | PrepareApproval
    | RequestApproval
    | MarkExecuting
    | ExecuteWorkOrder
    | MarkVerifying
    | VerifyWorkOrder
    | MarkCompleted
    | MarkRejected

  datatype ApprovalResume = ApprovalResume(approvalId: Uuid, decision: Decision)

  datatype Locator = Locator(workOrderId: Uuid, payloadHash: Digest)

  datatype Channels = Channels(
    operationId: Uuid,
    snapshot: OperationSnapshot,
    approval: Option<ApprovalResume>,
    workOrder: Option<Locator>,
    replayed: bool)

  datatype Checkpoint = Checkpoint(channels: Channels, next: Option<Node>, interrupted: bool)

  function InitialChannels(view: OperationStates.RecoveryView): Channels {
    Channels(view.operationId, view.snapshot, None, None, false)
  }

  datatype NodeResult = Advanced(channels: Channels) | Paused | Raised(error: RepositoryError)

  datatype NodeStep = NodeStep(tables: Tables, result: NodeResult)

  function AfterMark(s: Step<OperationStates.TransitionResult>, channels: Channels): NodeStep {
    NodeStep(s.tables, if s.reply.Err? then Raised(s.reply.error) else Advanced(channels))
  }

  function RunNodeStep(t: Tables, node: Node, ch: Channels, resume: Option<ApprovalResume>, newId: Uuid): NodeStep {
    match node
    case PrepareApproval => AfterMark(OperationStates.MarkStep(t, ch.operationId, OperationStates.MarkAwaitingApproval), ch)
    case RequestApproval =>
      NodeStep(t, if resume.None? then Paused else Advanced(ch.(approval := resume)))
    case MarkExecuting =>
      if ch.approval.None? then NodeStep(t, Raised(RecoveryStateConflict("invalid_graph_approval")))
      else AfterMark(OperationStates.MarkStep(t, ch.operationId, OperationStates.MarkExecuting(ch.approval.value.approvalId)), ch)
    case ExecuteWorkOrder =>
      var s := WorkOrders.CreateOrGetStep(t, ch.operationId, ch.snapshot.workOrderPayload, newId);
      if s.reply.Err? then NodeStep(s.tables, Raised(s.reply.error))
      else
        var order := s.reply.value.workOrder;
        NodeStep(s.tables, Advanced(ch.(workOrder := Some(Locator(order.id, order.payloadHash)),
                                    replayed := s.reply.value.replayed)))
    case MarkVerifying =>
      if ch.workOrder.None? then NodeStep(t, Raised(RecoveryStateConflict("invalid_graph_work_order")))
      else AfterMark(OperationStates.MarkStep(t, ch.operationId, OperationStates.MarkVerifying(ch.workOrder.value.workOrderId)), ch)
    case VerifyWorkOrder =>
      if ch.workOrder.None? then NodeStep(t, Raised(RecoveryStateConflict("invalid_graph_work_order")))
      else
        var view := OperationStates.ViewOf(t, ch.operationId);
        if view.Err? then NodeStep(t, Raised(view.error))
        else if view.value.workOrder.None?
                || view.value.workOrder.value.id != ch.workOrder.value.workOrderId
                || view.value.workOrder.value.payloadHash != ch.workOrder.value.payloadHash
        then NodeStep(t, Raised(RecoveryStateConflict("work_order_verification_mismatch")))
        else NodeStep(t, Advanced(ch))
    case MarkCompleted =>
      if ch.workOrder.None? then NodeStep(t, Raised(RecoveryStateConflict("invalid_graph_work_order")))
      else AfterMark(OperationStates.MarkStep(t, ch.operationId, OperationStates.MarkCompleted(ch.workOrder.value.workOrderId)), ch)
    case MarkRejected =>
      if ch.approval.None? then NodeStep(t, Raised(RecoveryStateConflict("invalid_graph_approval")))
      else AfterMark(OperationStates.MarkStep(t, ch.operationId, OperationStates.MarkRejected(ch.approval.value.approvalId)), ch)
  }

  function SuccessorOf(node: Node, decision: Option<Decision>): Option<Node>
    requires node.RequestApproval? ==> decision.Some?
  {
    match node
    case PrepareApproval => Some(RequestApproval)
    case RequestApproval => Some(if decision.value.Approve? then MarkExecuting else MarkRejected)
    case MarkExecuting => Some(ExecuteWorkOrder)
    case ExecuteWorkOrder => Some(MarkVerifying)
    case MarkVerifying => Some(VerifyWorkOrder)
    case VerifyWorkOrder => Some(MarkCompleted)
    case MarkCompleted => None
    case MarkRejected => None
  }

  function DecisionOf(resume: Option<ApprovalResume>): Option<Decision> {
    if resume.None? then None else Some(resume.value.decision)
  }

  function Successor(node: Node, ch: Channels): Option<Node>
    requires node.RequestApproval? ==> ch.approval.Some?
  {
    SuccessorOf(node, DecisionOf(ch.approval))
  }

  /** Nodes still to run, at most. */
  function Rank(next: Option<Node>): nat {
    match next
    case None => 0
    case Some(MarkCompleted) => 1
    case Some(MarkRejected) => 1
    case Some(VerifyWorkOrder) => 2
    case Some(MarkVerifying) => 3
    case Some(ExecuteWorkOrder) => 4
    case Some(MarkExecuting) => 5
    case Some(RequestApproval) => 6
    case Some(PrepareApproval) => 7
  }

  datatype Ending = Finished | Waiting | Stopped(error: RepositoryError) | Crashed

  datatype Drive = Drive(tables: Tables, checkpoint: Checkpoint, ending: Ending)

  /** Enough steps for any invocation to come to rest. */
  const UNCRASHED: nat := 15

  /** One graph invocation that survives for `steps` steps. Committing a node's transaction and
      writing the checkpoint after it are separate steps, so a crash can fall between the two. */
  function DriveGraph(t: Tables, ck: Checkpoint, resume: Option<ApprovalResume>, steps: nat, newId: Uuid): Drive
    decreases steps
  {
    if ck.next.None? then Drive(t, ck, Finished)
    else if steps == 0 then Drive(t, ck, Crashed)
    else
      var s := RunNodeStep(t, ck.next.value, ck.channels, resume, newId);
      if s.result.Raised? then Drive(s.tables, ck, Stopped(s.result.error))
      else if steps == 1 then Drive(s.tables, ck, Crashed)
      else match s.result
           case Paused => Drive(s.tables, ck.(interrupted := true), Waiting)
           case Advanced(ch) =>
             DriveGraph(s.tables, Checkpoint(ch, Successor(ck.next.value, ch), false), None, steps - 2, newId)
           case Raised(_) => Drive(s.tables, ck, Finished)
  }

  /** Whatever state the tables are in: the order a run has written is accepted exactly if the operation's stored order
      has its identifier and its payload's hash, and accepting changes nothing. */
  lemma OrdersAreVerifiedExactly(t: Tables, ch: Channels, resume: Option<ApprovalResume>, newId: Uuid)
    ensures var s, op := RunNodeStep(t, VerifyWorkOrder, ch, resume, newId), ch.operationId;
            && s.tables == t && (s.result.Advanced? ==> s.result.channels == ch)
            && (s.result.Advanced? <==>
                && ch.workOrder.Some? && op in t.operations && t.operations[op].threadId == op && IdempotencyKey(op) in t.workOrders
                && t.workOrders[IdempotencyKey(op)].id == ch.workOrder.value.workOrderId
                && t.workOrders[IdempotencyKey(op)].payloadHash == ch.workOrder.value.payloadHash)
  {
  }

  /** After the write the channels locate the operation's stored order, which hashes the frozen payload, and say whether
      it was there before. */
  lemma WrittenOrdersAreLocated(t: Tables, ch: Channels, resume: Option<ApprovalResume>, newId: Uuid)
    requires RunNodeStep(t, ExecuteWorkOrder, ch, resume, newId).result.Advanced?
    ensures var s, key := RunNodeStep(t, ExecuteWorkOrder, ch, resume, newId), IdempotencyKey(ch.operationId);
            && key in s.tables.workOrders
            && var order := s.tables.workOrders[key];
            && order.payloadHash == HashPayload(ch.snapshot.workOrderPayload)
            && s.result.channels == ch.(workOrder := Some(Locator(order.id, order.payloadHash)), replayed := key in t.workOrders)
  {
  }

  lemma DriveTakesANode(t: Tables, ck: Checkpoint, resume: Option<ApprovalResume>, steps: nat, newId: Uuid, s: NodeStep)
    requires ck.next.Some? && 2 <= steps && s == RunNodeStep(t, ck.next.value, ck.channels, resume, newId)
    ensures DriveGraph(t, ck, resume, steps, newId)
         == match s.result
            case Raised(error) => Drive(s.tables, ck, Stopped(error))
            case Paused => Drive(s.tables, ck.(interrupted := true), Waiting)
            case Advanced(ch) =>
              DriveGraph(s.tables, Checkpoint(ch, Successor(ck.next.value, ch), false), None, steps - 2, newId)
  {
  }

  class Graph {
    const states: OperationStates.OperationStateRepository
    const orders: WorkOrders.WorkOrderRepository
    var checkpoints: map<Uuid, Checkpoint>

    ghost predicate Valid() {
      states.engine == orders.engine
    }

    constructor (states: OperationStates.OperationStateRepository, orders: WorkOrders.WorkOrderRepository)
      requires states.engine == orders.engine
      ensures Valid() && this.states == states && this.orders == orders && checkpoints == map[]
    {
      this.states := states;
      this.orders := orders;
      this.checkpoints := map[];
    }

    method RunNode(node: Node, ch: Channels, resume: Option<ApprovalResume>, newId: Uuid) returns (result: NodeResult)
      requires Valid()
      modifies states.engine
      ensures NodeStep(states.engine.Snapshot(), result)
           == RunNodeStep(old(states.engine.Snapshot()), node, ch, resume, newId)
    {
      match node {
        case PrepareApproval =>
          var reply := states.MarkAwaitingApproval(ch.operationId);
          return if reply.Err? then Raised(reply.error) else Advanced(ch);
        case RequestApproval =>
          return if resume.None? then Paused else Advanced(ch.(approval := resume));
        case MarkExecuting =>
          if ch.approval.None? {
            return Raised(RecoveryStateConflict("invalid_graph_approval"));
          }
          var reply := states.MarkExecuting(ch.operationId, ch.approval.value.approvalId);
          return if reply.Err? then Raised(reply.error) else Advanced(ch);
        case ExecuteWorkOrder =>
          var reply := orders.CreateOrGet(ch.operationId, ch.snapshot.workOrderPayload, newId);
          if reply.Err? {
            return Raised(reply.error);
          }
          var order := reply.value.workOrder;
          return Advanced(ch.(workOrder := Some(Locator(order.id, order.payloadHash)), replayed := reply.value.replayed));
        case MarkVerifying =>
          if ch.workOrder.None? {
            return Raised(RecoveryStateConflict("invalid_graph_work_order"));
          }
          var reply := states.MarkVerifying(ch.operationId, ch.workOrder.value.workOrderId);
          return if reply.Err? then Raised(reply.error) else Advanced(ch);
        case VerifyWorkOrder =>
          if ch.workOrder.None? {
            return Raised(RecoveryStateConflict("invalid_graph_work_order"));
          }
          var view := states.LoadRecoveryView(ch.operationId);
          if view.Err? {
            return Raised(view.error);
          }
          if view.value.workOrder.None?
             || view.value.workOrder.value.id != ch.workOrder.value.workOrderId
             || view.value.workOrder.value.payloadHash != ch.workOrder.value.payloadHash {
            return Raised(RecoveryStateConflict("work_order_verification_mismatch"));
          }
          return Advanced(ch);
        case MarkCompleted =>
          if ch.workOrder.None? {
            return Raised(RecoveryStateConflict("invalid_graph_work_order"));
          }
          var reply := states.MarkCompleted(ch.operationId, ch.workOrder.value.workOrderId);
          return if reply.Err? then Raised(reply.error) else Advanced(ch);
        case MarkRejected =>
          if ch.approval.None? {
            return Raised(RecoveryStateConflict("invalid_graph_approval"));
          }
          var reply := states.MarkRejected(ch.operationId, ch.approval.value.approvalId);
          return if reply.Err? then Raised(reply.error) else Advanced(ch);
      }
    }

    /** Run the next node and write the checkpoint after it, or come to rest. */
    method RunNext(thread: Uuid, resume: Option<ApprovalResume>, newId: Uuid, ghost steps: nat) returns (rest: Option<Ending>)
      requires Valid() && thread in checkpoints && checkpoints[thread].next.Some? && 2 <= steps
      modifies this`checkpoints, states.engine
      ensures thread in checkpoints && checkpoints - {thread} == old(checkpoints) - {thread}
      ensures rest.Some? ==>
                && !rest.value.Crashed?
                && Drive(states.engine.Snapshot(), checkpoints[thread], rest.value)
                   == DriveGraph(old(states.engine.Snapshot()), old(checkpoints[thread]), resume, steps, newId)
      ensures rest.None? ==>
                && Rank(checkpoints[thread].next) < Rank(old(checkpoints[thread]).next)
                && DriveGraph(states.engine.Snapshot(), checkpoints[thread], None, steps - 2, newId)
                   == DriveGraph(old(states.engine.Snapshot()), old(checkpoints[thread]), resume, steps, newId)
    {
      var checkpoint := checkpoints[thread];
      var node := checkpoint.next.value;
      var result := RunNode(node, checkpoint.channels, resume, newId);
      DriveTakesANode(old(states.engine.Snapshot()), checkpoint, resume, steps, newId, NodeStep(states.engine.Snapshot(), result));
      match result {
        case Raised(error) =>
          return Some(Stopped(error));
        case Paused =>
          checkpoints := checkpoints[thread := checkpoint.(interrupted := true)];
          return Some(Waiting);
        case Advanced(ch) =>
          checkpoints := checkpoints[thread := Checkpoint(ch, Successor(node, ch), false)];
          return None;
      }
    }

    /** Run nodes from the stored checkpoint until the graph ends, waits or raises. Any sufficient
        number of steps describes it. */
    method Invoke(thread: Uuid, resume: Option<ApprovalResume>, newId: Uuid, ghost steps: nat) returns (ending: Ending)
      requires Valid() && thread in checkpoints && 2 * Rank(checkpoints[thread].next) < steps
      modifies this`checkpoints, states.engine
      ensures thread in checkpoints && checkpoints - {thread} == old(checkpoints) - {thread}
      ensures Drive(states.engine.Snapshot(), checkpoints[thread], ending)
           == DriveGraph(old(states.engine.Snapshot()), old(checkpoints[thread]), resume, steps, newId)
      ensures !ending.Crashed?
      decreases Rank(checkpoints[thread].next)
    {
      if checkpoints[thread].next.None? {
        return Finished;
      }
      var rest := RunNext(thread, resume, newId, steps);
      if rest.Some? {
        return rest.value;
      }
      ending := Invoke(thread, None, newId, steps - 2);
    }
  }
}
