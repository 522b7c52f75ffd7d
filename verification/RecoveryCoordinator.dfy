/** Recovery of an operation from its business rows and its last checkpoint. */
module RecoveryCoordination {
  import opened Digests
  import OperationStates
  import opened Recovery
  import opened ReliabilityGraph
  import opened Scenarios
  import opened Tables
  import opened Wrappers

  function PhaseOf(ck: Option<Checkpoint>): CheckpointPhase {
    if ck.None? then Missing else if ck.value.interrupted then Interrupted else Runnable
  }

  function CheckpointError(view: OperationStates.RecoveryView, ck: Option<Checkpoint>): Option<RepositoryError> {
    if ck.None? then None
    else if ck.value.channels.operationId != view.threadId
    then Some(RecoveryStateConflict("checkpoint_operation_id_mismatch"))
    else if view.status in TERMINAL && (ck.value.next.Some? || ck.value.interrupted)
      then Some(RecoveryStateConflict("terminal_state_has_pending_checkpoint"))
      else None
  }

  function FactsOfView(view: OperationStates.RecoveryView, ck: Option<Checkpoint>): RecoveryFacts {
    RecoveryFacts(view.status, PhaseOf(ck), view.approval.Some?, view.workOrder.Some?)
  }

  /** The action recovery settles on, or the error it raises before touching the graph. */
  function Decide(view: OperationStates.RecoveryView, ck: Option<Checkpoint>): Result<RecoveryAction, RepositoryError> {
    var error := CheckpointError(view, ck);
    if error.Some? then Err(error.value)
    else if !FactsOfView(view, ck).Valid() then Err(InvalidRecoveryFacts)
    else Ok(ChooseRecoveryAction(FactsOfView(view, ck)))
  }

  function ResumeOf(approval: ApprovalRow): ApprovalResume {
    ApprovalResume(approval.id, approval.decision)
  }

  datatype Recovered = Recovered(tables: Tables, checkpoint: Option<Checkpoint>, ending: RecoveryEnding)

  datatype RecoveryEnding = Returned(action: RecoveryAction) | RaisedError(error: RepositoryError) | Died

  function AfterDrive(d: Drive, action: RecoveryAction): Recovered {
    Recovered(d.tables, Some(d.checkpoint),
              match d.ending
              case Finished => Returned(action)
              case Waiting => Returned(action)
              case Stopped(error) => RaisedError(error)
              case Crashed => Died)
  }

  /** Where recovery enters the graph, and how many steps it spends before the first node. */
  datatype Launch = Launch(checkpoint: Checkpoint, resume: Option<ApprovalResume>, cost: nat)

  /** Rebuilding starts over, and first writes the input checkpoint before any node runs. */
  function LaunchOf(view: OperationStates.RecoveryView, ck: Option<Checkpoint>, action: RecoveryAction): Option<Launch> {
    match action
    case RebuildFromBusinessFacts => Some(Launch(Checkpoint(InitialChannels(view), Some(PrepareApproval), false), None, 1))
    case ResumeDecision =>
      if ck.Some? && view.approval.Some? then Some(Launch(ck.value, Some(ResumeOf(view.approval.value)), 0)) else None
    case KeepWaiting => None
    case NoOp => None
    case _ => if ck.Some? then Some(Launch(ck.value, None, 0)) else None
  }

  function LaunchStep(t: Tables, ck: Option<Checkpoint>, launch: Option<Launch>, action: RecoveryAction, steps: nat, newId: Uuid)
    : Recovered
  {
    if launch.None? then Recovered(t, ck, Returned(action))
    else if steps < launch.value.cost then Recovered(t, ck, Died)
    else AfterDrive(DriveGraph(t, launch.value.checkpoint, launch.value.resume, steps - launch.value.cost, newId), action)
  }

  /** One call of `recover` that survives for `steps` steps. */
  function RecoverStep(t: Tables, ck: Option<Checkpoint>, op: Uuid, steps: nat, newId: Uuid): Recovered {
    var view := OperationStates.ViewOf(t, op);
    if view.Err? then Recovered(t, ck, RaisedError(view.error)) else
    var decided := Decide(view.value, ck);
    if decided.Err? then Recovered(t, ck, RaisedError(decided.error)) else
    var action := decided.value;
    if action.ResumeDecision? && view.value.approval.None? then
      Recovered(t, ck, RaisedError(RecoveryStateConflict("approval_locator_missing")))
    else LaunchStep(t, ck, LaunchOf(view.value, ck, action), action, steps, newId)
  }

  function EndingOf(reply: Result<RecoveryAction, RepositoryError>): RecoveryEnding {
    match reply
    case Ok(action) => Returned(action)
    case Err(error) => RaisedError(error)
  }

  function CheckpointOf(checkpoints: map<Uuid, Checkpoint>, thread: Uuid): Option<Checkpoint> {
    if thread in checkpoints then Some(checkpoints[thread]) else None
  }

  class RecoveryCoordinator {
    const graph: Graph

    constructor (graph: Graph)
      ensures this.graph == graph
    {
      this.graph := graph;
    }

    method Recover(op: Uuid, newId: Uuid, ghost steps: nat) returns (reply: Result<RecoveryAction, RepositoryError>)
      requires graph.Valid() && UNCRASHED < steps
      modifies graph`checkpoints, graph.states.engine
      ensures graph.checkpoints - {op} == old(graph.checkpoints) - {op}
      ensures Recovered(graph.states.engine.Snapshot(), CheckpointOf(graph.checkpoints, op), EndingOf(reply))
           == RecoverStep(old(graph.states.engine.Snapshot()), CheckpointOf(old(graph.checkpoints), op), op, steps, newId)
    {
      var view := graph.states.LoadRecoveryView(op);
      if view.Err? {
        return Err(view.error);
      }
      var snapshot := CheckpointOf(graph.checkpoints, op);
      var decided := Decide(view.value, snapshot);
      if decided.Err? {
        return Err(decided.error);
      }
      if decided.value.ResumeDecision? && view.value.approval.None? {
        return Err(RecoveryStateConflict("approval_locator_missing"));
      }
      reply := Act(op, view.value, decided.value, newId, steps);
    }

    method Act(op: Uuid, view: OperationStates.RecoveryView, action: RecoveryAction, newId: Uuid, ghost steps: nat)
      returns (reply: Result<RecoveryAction, RepositoryError>)
      requires graph.Valid() && UNCRASHED < steps
      requires Decide(view, CheckpointOf(graph.checkpoints, op)) == Ok(action)
      requires action.ResumeDecision? ==> view.approval.Some?
      modifies graph`checkpoints, graph.states.engine
      ensures graph.checkpoints - {op} == old(graph.checkpoints) - {op}
      ensures var ck := CheckpointOf(old(graph.checkpoints), op);
              Recovered(graph.states.engine.Snapshot(), CheckpointOf(graph.checkpoints, op), EndingOf(reply))
              == LaunchStep(old(graph.states.engine.Snapshot()), ck, LaunchOf(view, ck, action), action, steps, newId)
    {
      match action {
        case RebuildFromBusinessFacts =>
          graph.checkpoints := graph.checkpoints[op := Checkpoint(InitialChannels(view), Some(PrepareApproval), false)];
          reply := Run(op, None, action, newId, steps - 1);
        case KeepWaiting =>
          return Ok(KeepWaiting);
        case NoOp =>
          return Ok(NoOp);
        case ResumeDecision =>
          reply := Run(op, Some(ResumeOf(view.approval.value)), action, newId, steps);
        case _ =>
          reply := Run(op, None, action, newId, steps);
      }
    }

    /** Run the graph from its checkpoint and report `action`, unless a node raises. */
    method Run(op: Uuid, resume: Option<ApprovalResume>, action: RecoveryAction, newId: Uuid, ghost steps: nat)
      returns (reply: Result<RecoveryAction, RepositoryError>)
      requires graph.Valid() && UNCRASHED <= steps && op in graph.checkpoints
      modifies graph`checkpoints, graph.states.engine
      ensures graph.checkpoints - {op} == old(graph.checkpoints) - {op}
      ensures Recovered(graph.states.engine.Snapshot(), CheckpointOf(graph.checkpoints, op), EndingOf(reply))
           == AfterDrive(DriveGraph(old(graph.states.engine.Snapshot()), old(graph.checkpoints[op]), resume, steps, newId), action)
    {
      var ending := graph.Invoke(op, resume, newId, steps);
      return if ending.Stopped? then Err(ending.error) else Ok(action);
    }
  }
}
