/** What the action a recovery reports says about the operation, and about what the recovery did. */
module RecoveryActions {
  import opened Approvals
  import opened CrashProtocol
  import opened Digests
  import OperationStates
  import opened Recovery
  import opened RecoveryCoordination
  import opened RecoveryProgress
  import opened ReliabilityGraph
  import RepositoryRuns
  import opened Scenarios
  import opened Tables
  import WorkOrders
  import opened Wrappers

  // ---- When each action is reported -----------------------------------------------------------------------------

  predicate Finished(status: OperationStatus) {
    status.Completed? || status.Rejected? || status.Aborted? || status.Expired? || status.Failed?
  }

  predicate AtRunnable(ck: Option<Checkpoint>) {
    ck.Some? && !ck.value.interrupted
  }

  predicate AtInterrupted(ck: Option<Checkpoint>) {
    ck.Some? && ck.value.interrupted
  }

  /** When each action is the one reported, by status, recorded decision, stored order and checkpoint. */
  predicate Reports(action: RecoveryAction, status: OperationStatus, decided: bool, ordered: bool, ck: Option<Checkpoint>) {
    && (action.NoOp? <==> Finished(status))
    && (action.RebuildFromBusinessFacts? <==> !Finished(status) && ck.None?)
    && (action.KeepWaiting? <==> !Finished(status) && AtInterrupted(ck) && !decided)
    && (action.ResumeDecision? <==> !Finished(status) && AtInterrupted(ck) && decided)
    && (action.VerifyExistingWorkOrder? <==> !Finished(status) && AtRunnable(ck) && ordered)
    && (action.ReplayIdempotentExecution? <==> !Finished(status) && AtRunnable(ck) && decided && !ordered)
    && (action.ContinueCheckpoint? <==> !Finished(status) && AtRunnable(ck) && !decided && !ordered)
  }

  lemma CoherentReports(view: OperationStates.RecoveryView, ck: Option<Checkpoint>)
    requires Coherent(view.status, view.approval.Some?, view.workOrder.Some?, ck)
    ensures Reports(ChooseRecoveryAction(FactsOfView(view, ck)), view.status, view.approval.Some?, view.workOrder.Some?, ck)
  {
  }

  lemma ReturnsTheDecidedAction(t: Tables, ck: Option<Checkpoint>, op: Uuid, steps: nat, newId: Uuid, action: RecoveryAction)
    requires RecoverStep(t, ck, op, steps, newId).ending == Returned(action)
    ensures var view := OperationStates.ViewOf(t, op); view.Ok? && Decide(view.value, ck) == Ok(action)
  {
  }

  /** Why recovery refuses to begin, in this order, whatever state the tables and the checkpoint are in: there is no
      such operation, its thread is another's, the checkpoint is another operation's, a finished operation has work
      pending, or the rows contradict each other. */
  function Refusal(t: Tables, ck: Option<Checkpoint>, op: Uuid): Option<RepositoryError> {
    if op !in t.operations then Some(OperationNotFound)
    else if t.operations[op].threadId != op then Some(RecoveryStateConflict("thread_id_mismatch"))
    else if ck.Some? && ck.value.channels.operationId != op then Some(RecoveryStateConflict("checkpoint_operation_id_mismatch"))
    else if Finished(t.operations[op].status) && ck.Some? && (ck.value.next.Some? || ck.value.interrupted)
    then Some(RecoveryStateConflict("terminal_state_has_pending_checkpoint"))
    else if CurrentApproval(t, op).None? && StoredWorkOrder(t, op).Some? then Some(InvalidRecoveryFacts)
      else if CurrentApproval(t, op).Some? && t.operations[op].status.Received? then Some(InvalidRecoveryFacts)
      else None
  }

  /** A refusal changes nothing, and nothing else is refused. */
  lemma RecoveryRefusesExactly(t: Tables, ck: Option<Checkpoint>, op: Uuid, steps: nat, newId: Uuid)
    ensures Refusal(t, ck, op).Some? ==>
              RecoverStep(t, ck, op, steps, newId) == Recovered(t, ck, RaisedError(Refusal(t, ck, op).value))
    ensures Refusal(t, ck, op).None? ==>
              var view := OperationStates.ViewOf(t, op);
              && view.Ok? && Decide(view.value, ck).Ok?
              && RecoverStep(t, ck, op, steps, newId)
                 == LaunchStep(t, ck, LaunchOf(view.value, ck, Decide(view.value, ck).value), Decide(view.value, ck).value, steps, newId)
  {
  }

  // ---- What no drive does ---------------------------------------------------------------------------------------

  /** Nodes record no decision, and write no order for an operation that has one. */
  predicate Leaves(t: Tables, t': Tables, op: Uuid) {
    t'.approvals == t.approvals && (IdempotencyKey(op) in t.workOrders ==> t'.workOrders == t.workOrders)
  }

  lemma NodesLeave(t: Tables, node: Node, ch: Channels, resume: Option<ApprovalResume>, newId: Uuid)
    ensures var s := RunNodeStep(t, node, ch, resume, newId);
            Leaves(t, s.tables, ch.operationId) && (s.result.Advanced? ==> s.result.channels.operationId == ch.operationId)
  {
  }

  lemma {:induction false} DrivesLeave(t: Tables, ck: Checkpoint, resume: Option<ApprovalResume>, steps: nat, newId: Uuid)
    ensures Leaves(t, DriveGraph(t, ck, resume, steps, newId).tables, ck.channels.operationId)
    decreases steps
  {
    if ck.next.Some? && steps > 0 {
      NodesLeave(t, ck.next.value, ck.channels, resume, newId);
      var s := RunNodeStep(t, ck.next.value, ck.channels, resume, newId);
      if steps > 1 && s.result.Advanced? {
        DrivesLeave(s.tables, Checkpoint(s.result.channels, Successor(ck.next.value, s.result.channels), false), None, steps - 2, newId);
      }
    }
  }

  lemma RecoveryLeaves(t: Tables, ck: Option<Checkpoint>, op: Uuid, steps: nat, newId: Uuid)
    requires ck.Some? ==> ck.value.channels.operationId == op
    ensures Leaves(t, RecoverStep(t, ck, op, steps, newId).tables, op)
  {
    var view := OperationStates.ViewOf(t, op);
    if view.Ok? {
      var decided := Decide(view.value, ck);
      if decided.Ok? {
        var launch := LaunchOf(view.value, ck, decided.value);
        if launch.Some? && launch.value.cost <= steps {
          DrivesLeave(t, launch.value.checkpoint, launch.value.resume, steps - launch.value.cost, newId);
        }
      }
    }
  }

  // ---- Undecided operations end up waiting ------------------------------------------------------------------------

  /** A drift that starts before any decision and neither stops nor dies has reached the interrupt. */
  lemma UndecidedDriftWaits(lane: Lane, steps: nat)
    requires lane.status.Received? || lane.status.AwaitingApproval?
    requires lane.next == Some(PrepareApproval) || (lane.next == Some(RequestApproval) && lane.status.AwaitingApproval?)
    requires var fate := DriftOf(lane, None, steps).fate; fate.Done? || fate.Idle?
    ensures var d := DriftOf(lane, None, steps).lane; d.status.AwaitingApproval? && d.interrupted
  {
    if lane.next == Some(PrepareApproval) && 2 <= steps {
      var onward := Lane(AwaitingApproval, Some(RequestApproval), false);
      assert DriftOf(lane, None, steps) == DriftOf(onward, None, steps - 2);
    }
  }

  /** Recovery reports `RebuildFromBusinessFacts` or `ContinueCheckpoint` for an undecided operation that now waits. */
  lemma UndecidedRecoveryWaits(g: Tables, t: Tables, op: Uuid, ck: Option<Checkpoint>, steps: nat, newId: Uuid, action: RecoveryAction)
    requires Untouched(g) && TablesSound(g, t) && op in g.operations && (ck.Some? ==> CheckpointSound(t, op, ck.value))
    requires op in t.operations && CurrentApproval(t, op).None? && (action.RebuildFromBusinessFacts? || action.ContinueCheckpoint?)
    requires RecoverStep(t, ck, op, steps, newId).ending == Returned(action)
    ensures var r := RecoverStep(t, ck, op, steps, newId);
            op in r.tables.operations && r.tables.operations[op].status.AwaitingApproval? && AtInterrupted(r.checkpoint)
  {
    DecisionsAreMade(g, t, op, ck);
    SoundIsCoherent(g, t, op, ck);
    ReturnsTheDecidedAction(t, ck, op, steps, newId, action);
    var view := OperationStates.ViewOf(t, op).value;
    CoherentReports(view, ck);
    var launch := LaunchOf(view, ck, action).value;
    LaunchesAreReady(g, t, op, ck, view, action);
    RecoveryLaunches(t, ck, op, steps, newId, view, action);
    LaunchedUndecidedWaits(g, t, op, ck, steps, newId, action, launch);
  }

  lemma LaunchedUndecidedWaits(g: Tables, t: Tables, op: Uuid, ck: Option<Checkpoint>, steps: nat, newId: Uuid,
                               action: RecoveryAction, launch: Launch)
    requires Ready(g, t, op, launch.checkpoint, launch.resume) && op in t.operations && launch.resume.None?
    requires var status := t.operations[op].status;
             || (launch.checkpoint.next == Some(PrepareApproval) && (status.Received? || status.AwaitingApproval?))
             || (launch.checkpoint.next == Some(RequestApproval) && status.AwaitingApproval?)
    requires LaunchStep(t, ck, Some(launch), action, steps, newId).ending == Returned(action)
    ensures var r := LaunchStep(t, ck, Some(launch), action, steps, newId);
            op in r.tables.operations && r.tables.operations[op].status.AwaitingApproval? && AtInterrupted(r.checkpoint)
  {
    DriveFollows(g, t, op, launch.checkpoint, None, steps - launch.cost, newId);
    UndecidedDriftWaits(LaneOf(t, op, launch.checkpoint), steps - launch.cost);
  }

  // ---- Main result ------------------------------------------------------------------------------------------------

  /** What the recovery that reports an action has done: nothing for an operation that is finished or waits for its
      human; brought an undecided one to the interrupt; carried a decided one, whose checkpoint is in step, to the
      end that was decided, without a second order where one was stored. */
  ghost predicate HasDone(g: Tables, t: Tables, ck: Option<Checkpoint>, op: Uuid, action: RecoveryAction, r: Recovered)
    requires op in g.operations && op in t.operations
  {
    && op in r.tables.operations && r.tables.approvals == t.approvals
    && (action.NoOp? || action.KeepWaiting? ==> r.tables == t && r.checkpoint == ck)
    && (action.RebuildFromBusinessFacts? || action.ContinueCheckpoint? ==>
          r.tables.operations[op].status.AwaitingApproval? && AtInterrupted(r.checkpoint))
    && (StoredWorkOrder(t, op).Some? ==> r.tables.workOrders == t.workOrders)
    && ((action.ResumeDecision? || action.VerifyExistingWorkOrder? || action.ReplayIdempotentExecution?)
        && InStep(t.operations[op].status, ck) ==>
          CurrentApproval(t, op).Some? && Concluded(g, r.tables, op, CurrentApproval(t, op).value.decision))
  }

  lemma RebuildsAreUndecided(g: Tables, t: Tables, op: Uuid, steps: nat, newId: Uuid)
    requires Untouched(g) && TablesSound(g, t) && op in g.operations && op in t.operations && UNCRASHED < steps
    requires t.operations[op].status !in TERMINAL && !RecoverStep(t, None, op, steps, newId).ending.RaisedError?
    ensures CurrentApproval(t, op).None?
  {
    RecoveryRaisesExactly(g, t, op, None, steps, newId);
    SoundIsCoherent(g, t, op, None);
  }

  lemma InStepRecoveryConcludes(g: Tables, site: Site, op: Uuid, steps: nat, newId: Uuid)
    requires SiteSound(g, site, op) && UNCRASHED < steps && CurrentApproval(site.tables, op).Some?
    ensures var r := RecoverStep(site.tables, site.checkpoint, op, steps, newId);
            op in r.tables.operations && Concluded(g, r.tables, op, CurrentApproval(site.tables, op).value.decision)
  {
    var r := RecoverStep(site.tables, site.checkpoint, op, steps, newId);
    AttemptAchieves(g, site, op, steps, newId, r);
    AttemptConcludes(g, site, op, steps, r);
  }

  lemma RestingActionsDoNothing(t: Tables, ck: Option<Checkpoint>, op: Uuid, steps: nat, newId: Uuid, action: RecoveryAction)
    requires RecoverStep(t, ck, op, steps, newId).ending == Returned(action) && (action.NoOp? || action.KeepWaiting?)
    ensures RecoverStep(t, ck, op, steps, newId) == Recovered(t, ck, Returned(action))
  {
  }

  lemma SoundRecoveryReportsExactly(g: Tables, t: Tables, op: Uuid, ck: Option<Checkpoint>, steps: nat, newId: Uuid, action: RecoveryAction)
    requires Untouched(g) && TablesSound(g, t) && op in g.operations && (ck.Some? ==> CheckpointSound(t, op, ck.value))
    requires UNCRASHED < steps && RecoverStep(t, ck, op, steps, newId).ending == Returned(action)
    ensures op in t.operations
    ensures Reports(action, t.operations[op].status, CurrentApproval(t, op).Some?, StoredWorkOrder(t, op).Some?, ck)
    ensures HasDone(g, t, ck, op, action, RecoverStep(t, ck, op, steps, newId))
  {
    DecisionsAreMade(g, t, op, ck);
    SoundIsCoherent(g, t, op, ck);
    ReturnsTheDecidedAction(t, ck, op, steps, newId, action);
    CoherentReports(OperationStates.ViewOf(t, op).value, ck);
    RecoveryLeaves(t, ck, op, steps, newId);
    match action {
      case NoOp => RestingActionsDoNothing(t, ck, op, steps, newId, action);
      case KeepWaiting => RestingActionsDoNothing(t, ck, op, steps, newId, action);
      case RebuildFromBusinessFacts =>
        RebuildsAreUndecided(g, t, op, steps, newId);
        UndecidedRecoveryWaits(g, t, op, ck, steps, newId, action);
      case ContinueCheckpoint => UndecidedRecoveryWaits(g, t, op, ck, steps, newId, action);
      case _ => DecidedRecoveryConcludes(g, t, op, ck, steps, newId);
    }
  }

  lemma DecidedRecoveryConcludes(g: Tables, t: Tables, op: Uuid, ck: Option<Checkpoint>, steps: nat, newId: Uuid)
    requires Untouched(g) && TablesSound(g, t) && op in g.operations && op in t.operations && UNCRASHED < steps
    requires (ck.Some? ==> CheckpointSound(t, op, ck.value)) && CurrentApproval(t, op).Some?
    ensures var r := RecoverStep(t, ck, op, steps, newId);
            && op in r.tables.operations
            && (InStep(t.operations[op].status, ck) ==> Concluded(g, r.tables, op, CurrentApproval(t, op).value.decision))
  {
    RecoveryKeepsOperations(g, t, op, ck, steps, newId);
    if InStep(t.operations[op].status, ck) {
      InStepRecoveryConcludes(g, Site(t, ck), op, steps, newId);
    }
  }

  lemma RecoveryKeepsOperations(g: Tables, t: Tables, op: Uuid, ck: Option<Checkpoint>, steps: nat, newId: Uuid)
    requires Untouched(g) && TablesSound(g, t) && op in g.operations && (ck.Some? ==> CheckpointSound(t, op, ck.value))
    ensures op in RecoverStep(t, ck, op, steps, newId).tables.operations
  {
    DecisionsAreMade(g, t, op, ck);
    var view := OperationStates.ViewOf(t, op).value;
    if Decide(view, ck).Ok? {
      var action := Decide(view, ck).value;
      RecoveryLaunches(t, ck, op, steps, newId, view, action);
      LaunchesAreReady(g, t, op, ck, view, action);
      var launch := LaunchOf(view, ck, action);
      if launch.Some? && launch.value.cost <= steps {
        DriveFollows(g, t, op, launch.value.checkpoint, launch.value.resume, steps - launch.value.cost, newId);
      }
    }
  }

  /** In every world any number of workers can reach, the action a surviving recovery reports says exactly how it
      found the operation, and what it has done. */
  lemma ReportedActionsAreTrue(g: Tables, events: seq<Event>, op: Uuid, steps: nat, newId: Uuid, w: World, action: RecoveryAction)
    requires Untouched(g) && op in g.operations && w == Run(World(g, map[], map[]), events) && UNCRASHED < steps
    requires RecoverStep(w.tables, CheckpointOf(w.checkpoints, op), op, steps, newId).ending == Returned(action)
    ensures op in w.tables.operations
    ensures Reports(action, w.tables.operations[op].status, CurrentApproval(w.tables, op).Some?, StoredWorkOrder(w.tables, op).Some?,
                    CheckpointOf(w.checkpoints, op))
    ensures HasDone(g, w.tables, CheckpointOf(w.checkpoints, op), op, action,
                    RecoverStep(w.tables, CheckpointOf(w.checkpoints, op), op, steps, newId))
  {
    GenesisIsSound(g);
    RunIsSound(g, World(g, map[], map[]), events);
    SoundRecoveryReportsExactly(g, w.tables, op, CheckpointOf(w.checkpoints, op), steps, newId, action);
  }
}
