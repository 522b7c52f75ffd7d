/** When recovery works, when it raises, and why retrying it always gets somewhere. */
module RecoveryProgress {
  import opened Approvals
  import opened CrashProtocol
  import opened Digests
  import OperationStates
  import opened Recovery
  import opened RecoveryCoordination
  import opened ReliabilityGraph
  import RepositoryRuns
  import opened Scenarios
  import opened Tables
  import WorkOrders
  import opened Wrappers

  // ---- Replaying a transition finds its own event -------------------------------------------------

  /** At the start the audit trail holds only events of other kinds, such as the receipt itself. */
  ghost predicate Untouched(g: Tables) {
    && Genesis(g)
    && (forall op | op in g.operations :: g.operations[op].threadId == op)
    && (forall row | row in g.auditEvents :: row.entry.event.OtherEvent?)
  }

  lemma {:induction false} EventsComeFromRows(rows: seq<AuditRow>, op: Uuid, e: Entry)
    requires e in EventsOf(rows, op)
    ensures AuditRow(op, e) in rows
  {
    var last := rows[|rows| - 1];
    if e in EventsOf(rows[..|rows| - 1], op) {
      EventsComeFromRows(rows[..|rows| - 1], op, e);
    }
  }

  lemma NumberedOnce(before: seq<Entry>, after: nat, log: seq<AuditEvent>, i: nat)
    requires i < |log| && !log[i].OtherEvent?
    requires forall e | e in before :: e.event.OtherEvent?
    requires forall j | 0 <= j < |log| :: KindOf(log[j]) == KindOf(log[i]) <==> j == i
    ensures EntriesOfKind(before + Numbered(after, log), KindOf(log[i])) == [Entry(after + 1 + i, log[i])]
  {
    OperationStates.OneOfKind(before + Numbered(after, log), KindOf(log[i]), |before| + i);
  }

  lemma LoggedOnce(g: Tables, t: Tables, op: Uuid, log: seq<AuditEvent>, i: nat)
    requires Untouched(g) && op in g.operations
    requires EventsOf(t.auditEvents, op) == EventsOf(g.auditEvents, op) + Numbered(g.operations[op].nextAuditSequence, log)
    requires i < |log| && !log[i].OtherEvent?
    requires forall j | 0 <= j < |log| :: KindOf(log[j]) == KindOf(log[i]) <==> j == i
    ensures var found := EntriesOfKind(EventsOf(t.auditEvents, op), KindOf(log[i]));
            |found| == 1 && found[0].event == log[i]
  {
    forall e | e in EventsOf(g.auditEvents, op) ensures e.event.OtherEvent? {
      EventsComeFromRows(g.auditEvents, op, e);
    }
    NumberedOnce(EventsOf(g.auditEvents, op), g.operations[op].nextAuditSequence, log, i);
  }

  /** Where in the log the event of a reached status stands. */
  function EventIndex(op: Uuid, s: Slice): nat
    requires Shape(op, s)
  {
    match s.row.status
    case Executing => 2
    case Rejected => 2
    case Verifying => 4
    case Completed => 5
    case _ => 0
  }

  lemma ReachedEventIsUnique(op: Uuid, s: Slice, mark: OperationStates.Mark)
    requires Shape(op, s) && s.row.status == mark.Target()
    requires mark.MarkExecuting? || mark.MarkRejected? ==> s.approval.value.id == mark.approvalId
    requires mark.MarkVerifying? || mark.MarkCompleted? ==> s.workOrder.value.id == mark.workOrderId
    ensures var log, i := Log(op, s), EventIndex(op, s);
            && i < |log| && log[i] == mark.Event()
            && forall j | 0 <= j < |log| :: KindOf(log[j]) == KindOf(log[i]) <==> j == i
  {
  }

  /** Re-running the transition that led to the current status succeeds and changes nothing. */
  lemma LatestMarkReplays(g: Tables, t: Tables, op: Uuid, mark: OperationStates.Mark)
    requires Untouched(g) && TablesSound(g, t) && op in g.operations
    requires t.operations[op].status == mark.Target() && Disciplined(t, RepositoryRuns.MarkCall(op, mark))
    ensures OperationStates.MarkStep(t, op, mark).reply.Ok?
    ensures OperationStates.MarkStep(t, op, mark).tables == t
  {
    assert SliceSound(op, SliceOf(g, op), SliceOf(t, op));
    ReachedEventIsUnique(op, SliceOf(t, op), mark);
    LoggedOnce(g, t, op, Log(op, SliceOf(t, op)), EventIndex(op, SliceOf(t, op)));
  }

  // ---- Which nodes raise, and where the others lead ------------------------------------------------

  /** The status a node leaves behind, or `None` when it raises. */
  function After(status: OperationStatus, node: Node): Option<OperationStatus> {
    match node
    case PrepareApproval => if status.Received? || status.AwaitingApproval? then Some(AwaitingApproval) else None
    case MarkExecuting => if status.Resuming? || status.Executing? then Some(Executing) else None
    case MarkVerifying => if status.Executing? || status.Verifying? then Some(Verifying) else None
    case MarkCompleted => Some(Completed)
    case MarkRejected => Some(Rejected)
    case _ => Some(status)
  }

  /** A transition succeeds from its source, or from its own target: one replay is forgiven. */
  lemma MarksSucceedExactly(g: Tables, t: Tables, op: Uuid, mark: OperationStates.Mark)
    requires Untouched(g) && TablesSound(g, t) && op in g.operations
    requires Disciplined(t, RepositoryRuns.MarkCall(op, mark))
    ensures var s := OperationStates.MarkStep(t, op, mark);
            && (s.reply.Ok? <==> t.operations[op].status == mark.Source() || t.operations[op].status == mark.Target())
            && (s.reply.Ok? ==> op in s.tables.operations && s.tables.operations[op].status == mark.Target())
  {
    if t.operations[op].status == mark.Target() {
      LatestMarkReplays(g, t, op, mark);
    }
  }

  ghost predicate Outcome(t: Tables, op: Uuid, node: Node, resume: Option<ApprovalResume>, s: NodeStep)
    requires op in t.operations
  {
    var e := After(t.operations[op].status, node);
    && (s.result.Raised? <==> e.None?)
    && (s.result.Raised? ==> s.tables == t)
    && (s.result.Paused? <==> node.RequestApproval? && resume.None?)
    && (e.Some? ==> op in s.tables.operations && s.tables.operations[op].status == e.value)
  }

  lemma MarkOutcome(g: Tables, t: Tables, op: Uuid, node: Node, ch: Channels, mark: OperationStates.Mark, s: NodeStep)
    requires Untouched(g) && TablesSound(g, t) && op in g.operations
    requires Disciplined(t, RepositoryRuns.MarkCall(op, mark)) && s == AfterMark(OperationStates.MarkStep(t, op, mark), ch)
    requires var status := t.operations[op].status;
             match node
             case PrepareApproval => mark.MarkAwaitingApproval?
             case MarkExecuting => mark.MarkExecuting?
             case MarkVerifying => mark.MarkVerifying?
             case MarkCompleted => mark.MarkCompleted? && PastVerification(status)
             case MarkRejected => mark.MarkRejected? && (status.Resuming? || status.Rejected?)
             case _ => false
    ensures Outcome(t, op, node, None, s)
  {
    MarksSucceedExactly(g, t, op, mark);
  }

  lemma RowsAreSound(g: Tables, t: Tables, op: Uuid)
    requires TablesSound(g, t) && op in g.operations
    ensures op in t.operations && Shape(op, SliceOf(t, op)) && t.operations[op].threadId == g.operations[op].threadId
    ensures StoredWorkOrder(t, op).None? ==> !WorkOrders.HasOrder(t, op)
  {
    OrdersAreKeyed(t, op);
    assert SliceSound(op, SliceOf(g, op), SliceOf(t, op));
  }

  lemma WriteOutcome(t: Tables, op: Uuid, ch: Channels, newId: Uuid)
    requires ChannelsSound(t, op, ch, Some(ExecuteWorkOrder)) && Shape(op, SliceOf(t, op))
    requires StoredWorkOrder(t, op).None? ==> !WorkOrders.HasOrder(t, op)
    ensures Outcome(t, op, ExecuteWorkOrder, None, RunNodeStep(t, ExecuteWorkOrder, ch, None, newId))
  {
  }

  lemma VerifyOutcome(t: Tables, op: Uuid, ch: Channels)
    requires ChannelsSound(t, op, ch, Some(VerifyWorkOrder)) && t.operations[op].threadId == op
    ensures Outcome(t, op, VerifyWorkOrder, None, RunNodeStep(t, VerifyWorkOrder, ch, None, ""))
  {
  }

  lemma NodeOutcome(g: Tables, t: Tables, op: Uuid, node: Node, ch: Channels, resume: Option<ApprovalResume>, newId: Uuid)
    requires Untouched(g) && TablesSound(g, t) && op in g.operations && ChannelsSound(t, op, ch, Some(node))
    ensures Outcome(t, op, node, resume, RunNodeStep(t, node, ch, resume, newId))
  {
    var s := RunNodeStep(t, node, ch, resume, newId);
    NodesAreDisciplined(t, op, node, ch, newId);
    RowsAreSound(g, t, op);
    match node {
      case PrepareApproval => MarkOutcome(g, t, op, node, ch, OperationStates.MarkAwaitingApproval, s);
      case RequestApproval =>
      case MarkExecuting => MarkOutcome(g, t, op, node, ch, OperationStates.MarkExecuting(ch.approval.value.approvalId), s);
      case ExecuteWorkOrder => WriteOutcome(t, op, ch, newId);
      case MarkVerifying => MarkOutcome(g, t, op, node, ch, OperationStates.MarkVerifying(ch.workOrder.value.workOrderId), s);
      case VerifyWorkOrder => VerifyOutcome(t, op, ch);
      case MarkCompleted => MarkOutcome(g, t, op, node, ch, OperationStates.MarkCompleted(ch.workOrder.value.workOrderId), s);
      case MarkRejected => MarkOutcome(g, t, op, node, ch, OperationStates.MarkRejected(ch.approval.value.approvalId), s);
    }
  }

  ghost predicate Ready(g: Tables, t: Tables, op: Uuid, ck: Checkpoint, resume: Option<ApprovalResume>) {
    && Untouched(g) && TablesSound(g, t) && op in g.operations
    && CheckpointSound(t, op, ck) && ResumeSound(t, op, resume)
  }

  // ---- A drive, as seen from the status alone ----------------------------------------------------------

  datatype Lane = Lane(status: OperationStatus, next: Option<Node>, interrupted: bool)

  datatype Fate = Done | Idle | Refused | Lost

  datatype Drift = Drift(lane: Lane, fate: Fate)

  function DriftOf(lane: Lane, decision: Option<Decision>, steps: nat): Drift
    decreases steps
  {
    if lane.next.None? then Drift(lane, Done)
    else if steps == 0 then Drift(lane, Lost)
    else
      var e := After(lane.status, lane.next.value);
      if e.None? then Drift(lane, Refused)
      else if steps == 1 then Drift(lane.(status := e.value), Lost)
      else if lane.next.value.RequestApproval? && decision.None? then Drift(lane.(interrupted := true), Idle)
      else DriftOf(Lane(e.value, SuccessorOf(lane.next.value, decision), false), None, steps - 2)
  }

  function LaneOf(t: Tables, op: Uuid, ck: Checkpoint): Lane
    requires op in t.operations
  {
    Lane(t.operations[op].status, ck.next, ck.interrupted)
  }

  function FateOf(ending: Ending): Fate {
    match ending
    case Finished => Done
    case Waiting => Idle
    case Stopped(_) => Refused
    case Crashed => Lost
  }

  function NextCheckpoint(ck: Checkpoint, s: NodeStep): Checkpoint
    requires ck.next.Some? && s.result.Advanced?
    requires ck.next.value.RequestApproval? ==> s.result.channels.approval.Some?
  {
    Checkpoint(s.result.channels, Successor(ck.next.value, s.result.channels), false)
  }

  /** What `kept` has to survive for it to hold along a whole drive. */
  ghost predicate Keeps(kept: (Tables, Checkpoint, Option<ApprovalResume>) -> bool, op: Uuid, t: Tables,
                        ck: Checkpoint, resume: Option<ApprovalResume>, s: NodeStep)
    requires ck.next.Some?
  {
    && op in t.operations && Outcome(t, op, ck.next.value, resume, s)
    && (!s.result.Raised? ==> kept(s.tables, ck, None))
    && (s.result.Paused? ==> kept(s.tables, ck.(interrupted := true), None))
    && (s.result.Advanced? ==>
          && (ck.next.value.RequestApproval? ==> s.result.channels.approval == resume && resume.Some?)
          && kept(s.tables, NextCheckpoint(ck, s), None))
  }

  ghost predicate Driven(kept: (Tables, Checkpoint, Option<ApprovalResume>) -> bool, op: Uuid, t: Tables,
                         ck: Checkpoint, resume: Option<ApprovalResume>, steps: nat, d: Drive)
    requires op in t.operations
  {
    && op in d.tables.operations
    && DriftOf(LaneOf(t, op, ck), DecisionOf(resume), steps) == Drift(LaneOf(d.tables, op, d.checkpoint), FateOf(d.ending))
    && (kept(d.tables, d.checkpoint, None) || (d.tables == t && d.checkpoint == ck))
  }

  /** Where a drive stops whose first node does not lead on. */
  function AtRest(ck: Checkpoint, steps: nat, s: NodeStep): Drive {
    if s.result.Raised? then Drive(s.tables, ck, Stopped(s.result.error))
    else if steps == 1 then Drive(s.tables, ck, Crashed)
    else Drive(s.tables, ck.(interrupted := true), Waiting)
  }

  lemma DriveUnfolds(t: Tables, ck: Checkpoint, resume: Option<ApprovalResume>, steps: nat, newId: Uuid, s: NodeStep)
    requires ck.next.Some? && 1 <= steps && s == RunNodeStep(t, ck.next.value, ck.channels, resume, newId)
    requires s.result.Advanced? && ck.next.value.RequestApproval? ==> s.result.channels.approval.Some?
    ensures DriveGraph(t, ck, resume, steps, newId)
         == if steps > 1 && s.result.Advanced? then DriveGraph(s.tables, NextCheckpoint(ck, s), None, steps - 2, newId)
            else AtRest(ck, steps, s)
  {
  }

  /** `kept` survives every node, run with this identifier. */
  ghost predicate Kept(kept: (Tables, Checkpoint, Option<ApprovalResume>) -> bool, op: Uuid, newId: Uuid) {
    forall t, ck, resume {:trigger RunNodeStep(t, ck.next.value, ck.channels, resume, newId)}
      | kept(t, ck, resume) && ck.next.Some? ::
      Keeps(kept, op, t, ck, resume, RunNodeStep(t, ck.next.value, ck.channels, resume, newId))
  }

  lemma KeptAt(kept: (Tables, Checkpoint, Option<ApprovalResume>) -> bool, op: Uuid, newId: Uuid, t: Tables,
               ck: Checkpoint, resume: Option<ApprovalResume>)
    requires Kept(kept, op, newId) && kept(t, ck, resume) && ck.next.Some?
    ensures Keeps(kept, op, t, ck, resume, RunNodeStep(t, ck.next.value, ck.channels, resume, newId))
  {
  }

  /** The induction behind every fact about drives. */
  lemma {:induction false} DriveInduction(kept: (Tables, Checkpoint, Option<ApprovalResume>) -> bool, op: Uuid, t: Tables,
                                          ck: Checkpoint, resume: Option<ApprovalResume>, steps: nat, newId: Uuid)
    requires kept(t, ck, resume) && op in t.operations && Kept(kept, op, newId)
    ensures Driven(kept, op, t, ck, resume, steps, DriveGraph(t, ck, resume, steps, newId))
    decreases steps, 1
  {
    if ck.next.Some? && steps > 0 {
      KeptAt(kept, op, newId, t, ck, resume);
      DriveUnfolds(t, ck, resume, steps, newId, RunNodeStep(t, ck.next.value, ck.channels, resume, newId));
      DriveInductionFrom(kept, op, t, ck, resume, steps, newId, RunNodeStep(t, ck.next.value, ck.channels, resume, newId));
    }
  }

  lemma {:induction false} DriveInductionFrom(kept: (Tables, Checkpoint, Option<ApprovalResume>) -> bool, op: Uuid, t: Tables,
                                              ck: Checkpoint, resume: Option<ApprovalResume>, steps: nat, newId: Uuid, s: NodeStep)
    requires ck.next.Some? && 1 <= steps && Kept(kept, op, newId) && Keeps(kept, op, t, ck, resume, s)
    ensures Driven(kept, op, t, ck, resume, steps,
                   if steps > 1 && s.result.Advanced? then DriveGraph(s.tables, NextCheckpoint(ck, s), None, steps - 2, newId)
                   else AtRest(ck, steps, s))
    decreases steps, 0
  {
    if steps > 1 && s.result.Advanced? {
      DriveInduction(kept, op, s.tables, NextCheckpoint(ck, s), None, steps - 2, newId);
      DrivenOnward(kept, op, t, ck, resume, steps, s, DriveGraph(s.tables, NextCheckpoint(ck, s), None, steps - 2, newId));
    } else {
      DrivenToRest(kept, op, t, ck, resume, steps, s);
    }
  }

  lemma DrivenOnward(kept: (Tables, Checkpoint, Option<ApprovalResume>) -> bool, op: Uuid, t: Tables,
                     ck: Checkpoint, resume: Option<ApprovalResume>, steps: nat, s: NodeStep, d: Drive)
    requires ck.next.Some? && 2 <= steps && s.result.Advanced? && Keeps(kept, op, t, ck, resume, s)
    requires Driven(kept, op, s.tables, NextCheckpoint(ck, s), None, steps - 2, d)
    ensures Driven(kept, op, t, ck, resume, steps, d)
  {
  }

  lemma DrivenToRest(kept: (Tables, Checkpoint, Option<ApprovalResume>) -> bool, op: Uuid, t: Tables,
                     ck: Checkpoint, resume: Option<ApprovalResume>, steps: nat, s: NodeStep)
    requires ck.next.Some? && 1 <= steps && (s.result.Advanced? ==> steps == 1) && Keeps(kept, op, t, ck, resume, s)
    ensures Driven(kept, op, t, ck, resume, steps, AtRest(ck, steps, s))
  {
  }

  lemma ResumedChannels(t: Tables, node: Node, ch: Channels, resume: Option<ApprovalResume>, newId: Uuid)
    requires node.RequestApproval? && RunNodeStep(t, node, ch, resume, newId).result.Advanced?
    ensures RunNodeStep(t, node, ch, resume, newId).result.channels.approval == resume && resume.Some?
  {
  }

  ghost predicate Onward(g: Tables, t: Tables, op: Uuid, ck: Checkpoint, resume: Option<ApprovalResume>, s: NodeStep)
    requires ck.next.Some?
  {
    && op in t.operations && Outcome(t, op, ck.next.value, resume, s)
    && TablesSound(g, s.tables) && Evolves(t, s.tables)
    && (s.result.Advanced? ==>
          && (ck.next.value.RequestApproval? ==> s.result.channels.approval == resume && resume.Some?)
          && ChannelsSound(s.tables, op, s.result.channels, Successor(ck.next.value, s.result.channels)))
  }

  lemma NodeMovesOnward(g: Tables, t: Tables, op: Uuid, ck: Checkpoint, resume: Option<ApprovalResume>, newId: Uuid)
    requires Ready(g, t, op, ck, resume) && ck.next.Some?
    ensures Onward(g, t, op, ck, resume, RunNodeStep(t, ck.next.value, ck.channels, resume, newId))
  {
    var s := RunNodeStep(t, ck.next.value, ck.channels, resume, newId);
    NodeOutcome(g, t, op, ck.next.value, ck.channels, resume, newId);
    NodeTablesAreSound(g, t, op, ck.next.value, ck.channels, resume, newId);
    assert Grows(SliceOf(t, op), SliceOf(s.tables, op));
    NodeLeavesEvidence(t, op, ck.next.value, ck.channels, resume, newId);
    if s.result.Advanced? && ck.next.value.RequestApproval? {
      ResumedChannels(t, ck.next.value, ck.channels, resume, newId);
    }
  }

  lemma OnwardIsReady(g: Tables, t: Tables, op: Uuid, ck: Checkpoint, resume: Option<ApprovalResume>, s: NodeStep)
    requires Ready(g, t, op, ck, resume) && ck.next.Some? && Onward(g, t, op, ck, resume, s)
    ensures !s.result.Raised? ==> Ready(g, s.tables, op, ck, None)
    ensures s.result.Paused? ==> Ready(g, s.tables, op, ck.(interrupted := true), None)
    ensures s.result.Advanced? ==> Ready(g, s.tables, op, NextCheckpoint(ck, s), None)
  {
    ChannelsLast(t, s.tables, op, ck.channels, ck.next);
  }

  lemma OnwardKeepsReady(g: Tables, t0: Tables, t: Tables, op: Uuid, ck: Checkpoint, resume: Option<ApprovalResume>, s: NodeStep)
    requires Ready(g, t, op, ck, resume) && Evolves(t0, t) && ck.next.Some? && Onward(g, t, op, ck, resume, s)
    ensures Keeps((t', ck', r') => Ready(g, t', op, ck', r') && Evolves(t0, t'), op, t, ck, resume, s)
  {
    EvolvesTransitively(t0, t, s.tables);
    OnwardIsReady(g, t, op, ck, resume, s);
  }

  /** A drive is a drift, and everything sound at its start is sound at its end. */
  lemma DriveFollows(g: Tables, t: Tables, op: Uuid, ck: Checkpoint, resume: Option<ApprovalResume>, steps: nat, newId: Uuid)
    requires Ready(g, t, op, ck, resume)
    ensures var d := DriveGraph(t, ck, resume, steps, newId);
            && op in t.operations && op in d.tables.operations
            && Ready(g, d.tables, op, d.checkpoint, None) && Evolves(t, d.tables)
            && DriftOf(LaneOf(t, op, ck), DecisionOf(resume), steps) == Drift(LaneOf(d.tables, op, d.checkpoint), FateOf(d.ending))
  {
    var kept := (t', ck', r') => Ready(g, t', op, ck', r') && Evolves(t, t');
    EvolvesReflexively(t);
    forall t', ck', r' | kept(t', ck', r') && ck'.next.Some?
      ensures Keeps(kept, op, t', ck', r', RunNodeStep(t', ck'.next.value, ck'.channels, r', newId))
    {
      NodeMovesOnward(g, t', op, ck', r', newId);
      OnwardKeepsReady(g, t, t', op, ck', r', RunNodeStep(t', ck'.next.value, ck'.channels, r', newId));
    }
    DriveInduction(kept, op, t, ck, resume, steps, newId);
  }

  // ---- Exactly when recovery raises ------------------------------------------------------------------

  /** The checkpoint lags the database by more than the one transition a replay forgives. */
  predicate Blocked(lane: Lane, resumed: bool) {
    match lane.next
    case Some(PrepareApproval) => !lane.status.Received? && !lane.status.AwaitingApproval?
    case Some(RequestApproval) => resumed && PastVerification(lane.status)
    case Some(MarkExecuting) => !lane.status.Resuming? && !lane.status.Executing?
    case Some(ExecuteWorkOrder) => !lane.status.Executing? && !lane.status.Verifying?
    case Some(MarkVerifying) => !lane.status.Executing? && !lane.status.Verifying?
    case _ => false
  }

  lemma {:induction false} DriftRefusesExactly(lane: Lane, decision: Option<Decision>, steps: nat)
    requires 2 * Rank(lane.next) < steps
    requires lane.next == Some(RequestApproval) && decision.Some? ==>
               lane.status.Resuming? || PastExecution(lane.status) || decision.value.Reject?
    requires decision == Some(Reject) ==> !PastExecution(lane.status)
    ensures DriftOf(lane, decision, steps).fate.Refused? <==> Blocked(lane, decision.Some?)
    ensures !DriftOf(lane, decision, steps).fate.Lost?
    decreases steps
  {
    if lane.next.Some? && steps >= 2 {
      var node := lane.next.value;
      var e := After(lane.status, node);
      if e.Some? && !(node.RequestApproval? && decision.None?) {
        DriftRefusesExactly(Lane(e.value, SuccessorOf(node, decision), false), None, steps - 2);
      }
    }
  }

  /** Recovery without a checkpoint starts at the first node. */
  function EntryPoint(ck: Option<Checkpoint>): Option<Node> {
    if ck.None? then Some(PrepareApproval) else ck.value.next
  }

  /** A table of the states recovery cannot leave: a finished operation whose last checkpoint was
      lost to a crash, a rebuild after the approval, and an execution replayed after verification began. */
  predicate Stuck(status: OperationStatus, ck: Option<Checkpoint>) {
    if status in TERMINAL then ck.Some? && (ck.value.next.Some? || ck.value.interrupted)
    else match EntryPoint(ck)
         case Some(PrepareApproval) => !status.Received? && !status.AwaitingApproval?
         case Some(RequestApproval) => ck.value.interrupted && status.Verifying?
         case Some(MarkExecuting) => status.Verifying?
         case _ => false
  }

  lemma RecoveryLaunches(t: Tables, ck: Option<Checkpoint>, op: Uuid, steps: nat, newId: Uuid,
                         view: OperationStates.RecoveryView, action: RecoveryAction)
    requires OperationStates.ViewOf(t, op) == Ok(view) && Decide(view, ck) == Ok(action)
    ensures RecoverStep(t, ck, op, steps, newId) == LaunchStep(t, ck, LaunchOf(view, ck, action), action, steps, newId)
  {
  }

  lemma DecisionsAreMade(g: Tables, t: Tables, op: Uuid, ck: Option<Checkpoint>)
    requires Untouched(g) && TablesSound(g, t) && op in g.operations && (ck.Some? ==> CheckpointSound(t, op, ck.value))
    ensures var view := OperationStates.ViewOf(t, op);
            && op in t.operations && view.Ok?
            && view.value == OperationStates.RecoveryView(op, op, t.operations[op].status, t.operations[op].snapshot,
                                                          CurrentApproval(t, op), StoredWorkOrder(t, op))
            && Decide(view.value, ck)
               == if t.operations[op].status in TERMINAL && ck.Some? && (ck.value.next.Some? || ck.value.interrupted)
                  then Err(RecoveryStateConflict("terminal_state_has_pending_checkpoint"))
                  else Ok(ChooseRecoveryAction(FactsOfView(view.value, ck)))
  {
    RowsAreSound(g, t, op);
  }

  lemma LaunchesAreReady(g: Tables, t: Tables, op: Uuid, ck: Option<Checkpoint>, view: OperationStates.RecoveryView,
                         action: RecoveryAction)
    requires Untouched(g) && TablesSound(g, t) && op in g.operations && (ck.Some? ==> CheckpointSound(t, op, ck.value))
    requires op in t.operations && view.approval == CurrentApproval(t, op)
    requires view.snapshot == t.operations[op].snapshot && view.operationId == op
    ensures var launch := LaunchOf(view, ck, action);
            launch.Some? ==> Ready(g, t, op, launch.value.checkpoint, launch.value.resume)
  {
  }

  /** What soundness says about an operation's status, rows and checkpoint, without the tables. */
  predicate Coherent(status: OperationStatus, hasApproval: bool, hasWorkOrder: bool, ck: Option<Checkpoint>) {
    && status in {Received, AwaitingApproval, Resuming, Executing, Verifying, Completed, Rejected, Expired}
    && (hasApproval <==> status.Resuming? || PastExecution(status) || status.Rejected?)
    && (PastVerification(status) ==> hasWorkOrder)
    && (hasWorkOrder ==> PastExecution(status))
    && (ck.Some? && ck.value.interrupted ==> ck.value.next == Some(RequestApproval))
    && (ck.Some? ==>
          match ck.value.next
          case Some(PrepareApproval) => true
          case Some(RequestApproval) => !status.Received?
          case Some(MarkExecuting) => status.Resuming? || PastExecution(status)
          case Some(ExecuteWorkOrder) => PastExecution(status)
          case Some(MarkVerifying) => PastExecution(status)
          case Some(VerifyWorkOrder) => PastVerification(status)
          case Some(MarkCompleted) => PastVerification(status)
          case Some(MarkRejected) => status.Resuming? || status.Rejected?
          case None => status.Completed? || status.Rejected?)
  }

  lemma SoundIsCoherent(g: Tables, t: Tables, op: Uuid, ck: Option<Checkpoint>)
    requires TablesSound(g, t) && op in g.operations && (ck.Some? ==> CheckpointSound(t, op, ck.value))
    ensures op in t.operations
    ensures Coherent(t.operations[op].status, CurrentApproval(t, op).Some?, StoredWorkOrder(t, op).Some?, ck)
  {
    RowsAreSound(g, t, op);
  }

  /** The table agrees with where recovery would enter the graph. */
  lemma StuckMeansBlocked(ck: Option<Checkpoint>, view: OperationStates.RecoveryView)
    requires Coherent(view.status, view.approval.Some?, view.workOrder.Some?, ck)
    requires view.status in TERMINAL ==> ck.None? || (ck.value.next.None? && !ck.value.interrupted)
    ensures var launch := LaunchOf(view, ck, ChooseRecoveryAction(FactsOfView(view, ck)));
            Stuck(view.status, ck)
            <==> launch.Some? && Blocked(Lane(view.status, launch.value.checkpoint.next, launch.value.checkpoint.interrupted),
                                         launch.value.resume.Some?)
  {
  }

  /** Recovery raises if its drive stops, given that a launched drive does not crash. */
  lemma LaunchRaises(launch: Option<Launch>, action: RecoveryAction, d: Drive, r: Recovered, blocked: bool)
    requires launch.None? ==> r.ending == Returned(action)
    requires launch.Some? ==> r == AfterDrive(d, action) && (d.ending.Stopped? <==> blocked) && !d.ending.Crashed?
    ensures r.ending.RaisedError? <==> launch.Some? && blocked
  {
  }

  lemma RefusalsRaise(t: Tables, ck: Option<Checkpoint>, op: Uuid, steps: nat, newId: Uuid, view: OperationStates.RecoveryView)
    requires OperationStates.ViewOf(t, op) == Ok(view) && Decide(view, ck).Err?
    ensures RecoverStep(t, ck, op, steps, newId) == Recovered(t, ck, RaisedError(Decide(view, ck).error))
  {
  }

  lemma LaunchRaisesExactly(g: Tables, t: Tables, op: Uuid, ck: Option<Checkpoint>, steps: nat, newId: Uuid,
                            action: RecoveryAction, launch: Launch)
    requires UNCRASHED < steps && op in t.operations
    requires Ready(g, t, op, launch.checkpoint, launch.resume) && launch.cost <= 1
    ensures LaunchStep(t, ck, Some(launch), action, steps, newId).ending.RaisedError?
       <==> Blocked(LaneOf(t, op, launch.checkpoint), launch.resume.Some?)
  {
    UncrashedDrive(g, t, op, launch.checkpoint, launch.resume, steps - launch.cost, newId);
    LaunchRaises(Some(launch), action, DriveGraph(t, launch.checkpoint, launch.resume, steps - launch.cost, newId),
                 LaunchStep(t, ck, Some(launch), action, steps, newId),
                 Blocked(LaneOf(t, op, launch.checkpoint), launch.resume.Some?));
  }

  /** For every sound state, uncrashed recovery raises exactly in the stuck ones. */
  lemma RecoveryRaisesExactly(g: Tables, t: Tables, op: Uuid, ck: Option<Checkpoint>, steps: nat, newId: Uuid)
    requires Untouched(g) && TablesSound(g, t) && op in g.operations && (ck.Some? ==> CheckpointSound(t, op, ck.value))
    requires UNCRASHED < steps
    ensures op in t.operations
    ensures RecoverStep(t, ck, op, steps, newId).ending.RaisedError? <==> Stuck(t.operations[op].status, ck)
  {
    DecisionsAreMade(g, t, op, ck);
    var view := OperationStates.ViewOf(t, op).value;
    if Decide(view, ck).Ok? {
      SoundIsCoherent(g, t, op, ck);
      StuckMeansBlocked(ck, view);
      var action := Decide(view, ck).value;
      LaunchesAreReady(g, t, op, ck, view, action);
      var launch := LaunchOf(view, ck, action);
      RecoveryLaunches(t, ck, op, steps, newId, view, action);
      if launch.Some? {
        LaunchRaisesExactly(g, t, op, ck, steps, newId, action, launch.value);
      }
    } else {
      RefusalsRaise(t, ck, op, steps, newId, view);
    }
  }

  lemma LaneIsConsistent(g: Tables, t: Tables, op: Uuid, resume: Option<ApprovalResume>)
    requires TablesSound(g, t) && op in g.operations && op in t.operations && ResumeSound(t, op, resume)
    ensures var status := t.operations[op].status;
            && (resume.Some? ==> status.Resuming? || PastExecution(status) || resume.value.decision.Reject?)
            && (DecisionOf(resume) == Some(Reject) ==> !PastExecution(status))
  {
    RowsAreSound(g, t, op);
  }

  lemma DriveDrifts(g: Tables, t: Tables, op: Uuid, ck: Checkpoint, resume: Option<ApprovalResume>, steps: nat, newId: Uuid)
    requires Ready(g, t, op, ck, resume)
    ensures op in t.operations
    ensures FateOf(DriveGraph(t, ck, resume, steps, newId).ending) == DriftOf(LaneOf(t, op, ck), DecisionOf(resume), steps).fate
  {
    DriveFollows(g, t, op, ck, resume, steps, newId);
  }

  lemma UncrashedDrive(g: Tables, t: Tables, op: Uuid, ck: Checkpoint, resume: Option<ApprovalResume>, steps: nat, newId: Uuid)
    requires Ready(g, t, op, ck, resume) && UNCRASHED <= steps
    ensures op in t.operations
    ensures var ending := DriveGraph(t, ck, resume, steps, newId).ending;
            (ending.Stopped? <==> Blocked(LaneOf(t, op, ck), resume.Some?)) && !ending.Crashed?
  {
    DriveDrifts(g, t, op, ck, resume, steps, newId);
    LaneIsConsistent(g, t, op, resume);
    DriftRefusesExactly(LaneOf(t, op, ck), DecisionOf(resume), steps);
  }

  // ---- Progress under approvals submitted only at the interrupt ------------------------------------------

  /** The checkpoint is at most one transition behind the database. */
  predicate InStep(status: OperationStatus, ck: Option<Checkpoint>) {
    if ck.None? then status.Received?
    else OnTrack(Lane(status, ck.value.next, ck.value.interrupted))
  }

  predicate OnTrack(lane: Lane) {
    && (lane.interrupted ==> lane.next == Some(RequestApproval))
    && match lane.next
       case Some(PrepareApproval) => lane.status in {Received, AwaitingApproval}
       case Some(RequestApproval) =>
         if lane.interrupted then lane.status in {AwaitingApproval, Resuming, Expired} else lane.status.AwaitingApproval?
       case Some(MarkExecuting) => lane.status in {Resuming, Executing}
       case Some(ExecuteWorkOrder) => lane.status.Executing?
       case Some(MarkVerifying) => lane.status in {Executing, Verifying}
       case Some(VerifyWorkOrder) => lane.status.Verifying?
       case Some(MarkCompleted) => lane.status in {Verifying, Completed}
       case Some(MarkRejected) => lane.status in {Resuming, Rejected}
       case None => lane.status in {Completed, Rejected}
  }

  /** Nothing is left to do until a human decides, or for good. */
  predicate Settled(status: OperationStatus, ck: Option<Checkpoint>) {
    status in TERMINAL || (status.AwaitingApproval? && ck.Some? && ck.value.interrupted)
  }

  function Distance(next: Option<Node>, interrupted: bool): nat {
    2 * Rank(next) + if interrupted then 0 else 1
  }

  /** How far an operation is from its end. */
  function Potential(ck: Option<Checkpoint>): nat {
    if ck.None? then UNCRASHED + 1 else Distance(ck.value.next, ck.value.interrupted)
  }

  /** A drift on track stays on track, is never refused, and gets closer with every node it survives. */
  lemma {:induction false} DriftStaysOnTrack(lane: Lane, decision: Option<Decision>, steps: nat)
    requires OnTrack(lane)
    requires lane.interrupted <==> decision.Some?
    requires decision.Some? ==> lane.status.Resuming?
    ensures var d := DriftOf(lane, decision, steps);
            && !d.fate.Refused? && OnTrack(d.lane)
            && Distance(d.lane.next, d.lane.interrupted) <= Distance(lane.next, lane.interrupted)
            && (lane.next.Some? && 2 <= steps ==>
                  Distance(d.lane.next, d.lane.interrupted) < Distance(lane.next, lane.interrupted))
            && (2 * Rank(lane.next) < steps ==>
                  !d.fate.Lost? && (d.lane.status in {Completed, Rejected} || (d.lane.status.AwaitingApproval? && d.lane.interrupted)))
    decreases steps
  {
    if lane.next.Some? && steps >= 2 {
      var node := lane.next.value;
      var e := After(lane.status, node);
      if !(node.RequestApproval? && decision.None?) {
        DriftStaysOnTrack(Lane(e.value, SuccessorOf(node, decision), false), None, steps - 2);
      }
    }
  }

  /** One operation under retries: its tables and its last checkpoint. */
  datatype Site = Site(tables: Tables, checkpoint: Option<Checkpoint>)

  datatype Move =
    | Attempt(steps: nat, newId: Uuid)
    | Answer(command: ApprovalCommand, approvalId: Uuid)
    | AnswerBound(command: ApprovalCommand, expected: ApprovalBinding, approvalId: Uuid, now: Instant)

  predicate AtInterrupt(site: Site) {
    site.checkpoint.Some? && site.checkpoint.value.interrupted
  }

  /** Recovery may die after any number of steps. Answers count only at the interrupt. */
  function Play(site: Site, op: Uuid, move: Move): Site {
    match move
    case Attempt(steps, newId) =>
      var r := RecoverStep(site.tables, site.checkpoint, op, steps, newId);
      Site(r.tables, r.checkpoint)
    case Answer(command, id) =>
      if AtInterrupt(site) && command.operationId == op
      then site.(tables := RepositoryRuns.Apply(site.tables, RepositoryRuns.SubmitCall(command, id)).tables) else site
    case AnswerBound(command, expected, id, now) =>
      if AtInterrupt(site) && command.operationId == op
      then site.(tables := RepositoryRuns.Apply(site.tables, RepositoryRuns.BoundCall(command, expected, id, now)).tables) else site
  }

  function PlayAll(site: Site, op: Uuid, moves: seq<Move>): Site {
    if moves == [] then site else Play(PlayAll(site, op, moves[..|moves| - 1]), op, moves[|moves| - 1])
  }

  ghost predicate SiteSound(g: Tables, site: Site, op: Uuid) {
    && Untouched(g) && TablesSound(g, site.tables) && op in g.operations && op in site.tables.operations
    && (site.checkpoint.Some? ==> CheckpointSound(site.tables, op, site.checkpoint.value))
    && InStep(site.tables.operations[op].status, site.checkpoint)
  }

  /** What one attempt at recovery achieves from a sound site. */
  ghost predicate Achieves(g: Tables, before: Site, op: Uuid, steps: nat, r: Recovered)
    requires op in before.tables.operations
  {
    var after := Site(r.tables, r.checkpoint);
    var status := before.tables.operations[op].status;
    && SiteSound(g, after, op)
    && Grows(SliceOf(before.tables, op), SliceOf(after.tables, op))
    && (status !in TERMINAL ==> !r.ending.RaisedError?)
    && Potential(after.checkpoint) <= Potential(before.checkpoint)
    && (2 <= steps && !Settled(status, before.checkpoint) ==> Potential(after.checkpoint) < Potential(before.checkpoint))
    && (UNCRASHED < steps ==> Settled(after.tables.operations[op].status, after.checkpoint))
  }

  /** The launch continues the site's own checkpoint, or starts one where there was none. */
  predicate Launched(site: Site, op: Uuid, launch: Launch, steps: nat)
    requires op in site.tables.operations
  {
    && site.tables.operations[op].status !in TERMINAL
    && OnTrack(LaneOf(site.tables, op, launch.checkpoint))
    && (launch.checkpoint.interrupted <==> launch.resume.Some?)
    && (launch.resume.Some? ==> site.tables.operations[op].status.Resuming?)
    && launch.cost <= steps
    && if launch.cost == 0 then Some(launch.checkpoint) == site.checkpoint
       else launch.cost == 1 && site.checkpoint.None? && Distance(launch.checkpoint.next, launch.checkpoint.interrupted) == UNCRASHED
  }

  lemma DriveAchieves(g: Tables, site: Site, op: Uuid, launch: Launch, action: RecoveryAction, steps: nat, d: Drive)
    requires op in site.tables.operations && op in d.tables.operations && Launched(site, op, launch, steps)
    requires Ready(g, d.tables, op, d.checkpoint, None) && Grows(SliceOf(site.tables, op), SliceOf(d.tables, op))
    requires DriftOf(LaneOf(site.tables, op, launch.checkpoint), DecisionOf(launch.resume), steps - launch.cost)
          == Drift(LaneOf(d.tables, op, d.checkpoint), FateOf(d.ending))
    ensures Achieves(g, site, op, steps, AfterDrive(d, action))
  {
    DriftStaysOnTrack(LaneOf(site.tables, op, launch.checkpoint), DecisionOf(launch.resume), steps - launch.cost);
  }

  lemma LaunchAchieves(g: Tables, site: Site, op: Uuid, launch: Launch, action: RecoveryAction, steps: nat, newId: Uuid)
    requires op in site.tables.operations && Launched(site, op, launch, steps)
    requires Ready(g, site.tables, op, launch.checkpoint, launch.resume)
    ensures Achieves(g, site, op, steps,
                     AfterDrive(DriveGraph(site.tables, launch.checkpoint, launch.resume, steps - launch.cost, newId), action))
  {
    DriveFollows(g, site.tables, op, launch.checkpoint, launch.resume, steps - launch.cost, newId);
    var d := DriveGraph(site.tables, launch.checkpoint, launch.resume, steps - launch.cost, newId);
    assert Grows(SliceOf(site.tables, op), SliceOf(d.tables, op));
    DriveAchieves(g, site, op, launch, action, steps, d);
  }

  /** Where recovery enters the graph on an on-track site, or why it does not. */
  lemma OnTrackLaunches(ck: Option<Checkpoint>, view: OperationStates.RecoveryView)
    requires Coherent(view.status, view.approval.Some?, view.workOrder.Some?, ck)
    requires InStep(view.status, ck) && view.status !in TERMINAL
    ensures var launch := LaunchOf(view, ck, ChooseRecoveryAction(FactsOfView(view, ck)));
            match launch
            case None => view.status.AwaitingApproval? && ck.Some? && ck.value.interrupted
            case Some(l) =>
              && OnTrack(Lane(view.status, l.checkpoint.next, l.checkpoint.interrupted))
              && (l.checkpoint.interrupted <==> l.resume.Some?)
              && (l.resume.Some? ==> view.status.Resuming?)
              && (if ck.Some? then l.cost == 0 && l.checkpoint == ck.value
                  else l.cost == 1 && Distance(l.checkpoint.next, l.checkpoint.interrupted) == UNCRASHED)
  {
  }

  lemma RestingAchieves(g: Tables, site: Site, op: Uuid, steps: nat, r: Recovered)
    requires SiteSound(g, site, op) && Settled(site.tables.operations[op].status, site.checkpoint)
    requires r.tables == site.tables && r.checkpoint == site.checkpoint
    requires site.tables.operations[op].status !in TERMINAL ==> !r.ending.RaisedError?
    ensures Achieves(g, site, op, steps, r)
  {
  }

  lemma UnlaunchedAchieves(g: Tables, site: Site, op: Uuid)
    requires SiteSound(g, site, op) && site.checkpoint.None?
    ensures Achieves(g, site, op, 0, Recovered(site.tables, site.checkpoint, Died))
  {
  }

  lemma AttemptAchieves(g: Tables, site: Site, op: Uuid, steps: nat, newId: Uuid, r: Recovered)
    requires SiteSound(g, site, op) && r == RecoverStep(site.tables, site.checkpoint, op, steps, newId)
    ensures Achieves(g, site, op, steps, r)
  {
    DecisionsAreMade(g, site.tables, op, site.checkpoint);
    SoundIsCoherent(g, site.tables, op, site.checkpoint);
    var view := OperationStates.ViewOf(site.tables, op).value;
    var decided := Decide(view, site.checkpoint);
    if decided.Err? {
      RefusalsRaise(site.tables, site.checkpoint, op, steps, newId, view);
      RestingAchieves(g, site, op, steps, r);
    } else {
      DecidedAchieves(g, site, op, steps, newId, view, decided.value, r);
    }
  }

  lemma DecidedAchieves(g: Tables, site: Site, op: Uuid, steps: nat, newId: Uuid, view: OperationStates.RecoveryView,
                        action: RecoveryAction, r: Recovered)
    requires SiteSound(g, site, op) && r == RecoverStep(site.tables, site.checkpoint, op, steps, newId)
    requires OperationStates.ViewOf(site.tables, op) == Ok(view) && Decide(view, site.checkpoint) == Ok(action)
    requires action == ChooseRecoveryAction(FactsOfView(view, site.checkpoint))
    requires view == OperationStates.RecoveryView(op, op, site.tables.operations[op].status, site.tables.operations[op].snapshot,
                                                  CurrentApproval(site.tables, op), StoredWorkOrder(site.tables, op))
    requires Coherent(view.status, view.approval.Some?, view.workOrder.Some?, site.checkpoint)
    ensures Achieves(g, site, op, steps, r)
  {
    RecoveryLaunches(site.tables, site.checkpoint, op, steps, newId, view, action);
    LaunchOutcomeAchieves(g, site, op, steps, newId, view, action, r);
  }

  lemma LaunchOutcomeAchieves(g: Tables, site: Site, op: Uuid, steps: nat, newId: Uuid, view: OperationStates.RecoveryView,
                              action: RecoveryAction, r: Recovered)
    requires SiteSound(g, site, op) && action == ChooseRecoveryAction(FactsOfView(view, site.checkpoint))
    requires r == LaunchStep(site.tables, site.checkpoint, LaunchOf(view, site.checkpoint, action), action, steps, newId)
    requires view == OperationStates.RecoveryView(op, op, site.tables.operations[op].status, site.tables.operations[op].snapshot,
                                                  CurrentApproval(site.tables, op), StoredWorkOrder(site.tables, op))
    requires Coherent(view.status, view.approval.Some?, view.workOrder.Some?, site.checkpoint)
    ensures Achieves(g, site, op, steps, r)
  {
    var launch := LaunchOf(view, site.checkpoint, action);
    if view.status in TERMINAL {
      RestingAchieves(g, site, op, steps, r);
    } else {
      OnTrackLaunches(site.checkpoint, view);
      if launch.None? {
        RestingAchieves(g, site, op, steps, r);
      } else if steps < launch.value.cost {
        UnlaunchedAchieves(g, site, op);
      } else {
        LaunchesAreReady(g, site.tables, op, site.checkpoint, view, action);
        LaunchAchieves(g, site, op, launch.value, action, steps, newId);
      }
    }
  }

  lemma AnswerKeepsSite(g: Tables, site: Site, op: Uuid, call: RepositoryRuns.Call)
    requires SiteSound(g, site, op) && AtInterrupt(site)
    requires (call.SubmitCall? || call.BoundCall?) && call.Subject() == op
    ensures SiteSound(g, site.(tables := RepositoryRuns.Apply(site.tables, call).tables), op)
  {
    var t' := RepositoryRuns.Apply(site.tables, call).tables;
    DisciplinedCallIsSound(g, site.tables, call);
    assert Grows(SliceOf(site.tables, op), SliceOf(t', op));
    ChannelsLast(site.tables, t', op, site.checkpoint.value.channels, site.checkpoint.value.next);
    AnswersDecide(site.tables, op, call);
  }

  lemma AnswersDecide(t: Tables, op: Uuid, call: RepositoryRuns.Call)
    requires (call.SubmitCall? || call.BoundCall?) && call.Subject() == op && op in t.operations
    ensures var t' := RepositoryRuns.Apply(t, call).tables;
            op in t'.operations && t'.operations[op].status in {t.operations[op].status, Resuming, Expired}
    ensures t.operations[op].status in {Resuming, Expired} ==> RepositoryRuns.Apply(t, call).tables == t
  {
  }

  lemma MoveKeepsSite(g: Tables, site: Site, op: Uuid, move: Move)
    requires SiteSound(g, site, op)
    ensures SiteSound(g, Play(site, op, move), op)
    ensures Potential(Play(site, op, move).checkpoint) <= Potential(site.checkpoint)
  {
    match move {
      case Attempt(steps, newId) =>
        AttemptAchieves(g, site, op, steps, newId, RecoverStep(site.tables, site.checkpoint, op, steps, newId));
      case Answer(command, id) =>
        if AtInterrupt(site) && command.operationId == op {
          AnswerKeepsSite(g, site, op, RepositoryRuns.SubmitCall(command, id));
        }
      case AnswerBound(command, expected, id, now) =>
        if AtInterrupt(site) && command.operationId == op {
          AnswerKeepsSite(g, site, op, RepositoryRuns.BoundCall(command, expected, id, now));
        }
    }
  }

  /** Attempts that live to finish a node although nothing is settled yet. */
  function UnsettledAttempts(site: Site, op: Uuid, moves: seq<Move>): nat {
    if moves == [] then 0
    else
      var before, last := PlayAll(site, op, moves[..|moves| - 1]), moves[|moves| - 1];
      UnsettledAttempts(site, op, moves[..|moves| - 1])
      + if last.Attempt? && 2 <= last.steps && op in before.tables.operations
           && !Settled(before.tables.operations[op].status, before.checkpoint) then 1 else 0
  }

  /** However recovery is retried and crashed, at most sixteen attempts that finish a node can leave
      an operation unsettled; after any history the site is sound. */
  lemma {:induction false} RetriesAreBounded(g: Tables, op: Uuid, moves: seq<Move>)
    requires Untouched(g) && op in g.operations
    ensures var site := PlayAll(Site(g, None), op, moves);
            && SiteSound(g, site, op)
            && UnsettledAttempts(Site(g, None), op, moves) + Potential(site.checkpoint) <= UNCRASHED + 1
  {
    var start := Site(g, None);
    if moves == [] {
      GenesisIsSound(g);
    } else {
      var n := |moves| - 1;
      var before := PlayAll(start, op, moves[..n]);
      RetriesAreBounded(g, op, moves[..n]);
      MoveKeepsSite(g, before, op, moves[n]);
      if moves[n].Attempt? {
        AttemptAchieves(g, before, op, moves[n].steps, moves[n].newId,
                        RecoverStep(before.tables, before.checkpoint, op, moves[n].steps, moves[n].newId));
      }
    }
  }

  /** The operation ended as decided, and its audit trail is the crash-free one. */
  ghost predicate Concluded(g: Tables, t: Tables, op: Uuid, decision: Decision)
    requires op in g.operations && op in t.operations
  {
    && t.operations[op].status == (if decision.Approve? then Completed else Rejected)
    && Shape(op, SliceOf(t, op))
    && EventsOf(t.auditEvents, op)
       == EventsOf(g.auditEvents, op) + Numbered(g.operations[op].nextAuditSequence, Log(op, SliceOf(t, op)))
    && Kinds(Log(op, SliceOf(t, op))) == (if decision.Approve? then APPROVED_LOG else REJECTED_LOG)
  }

  lemma SettledDecisionsConclude(g: Tables, t: Tables, op: Uuid, ck: Option<Checkpoint>)
    requires TablesSound(g, t) && op in g.operations && op in t.operations
    requires Settled(t.operations[op].status, ck) && CurrentApproval(t, op).Some?
    ensures Concluded(g, t, op, CurrentApproval(t, op).value.decision)
  {
    assert SliceSound(op, SliceOf(g, op), SliceOf(t, op));
    LogIsAPrefix(op, SliceOf(t, op));
  }

  lemma AttemptConcludes(g: Tables, site: Site, op: Uuid, steps: nat, r: Recovered)
    requires SiteSound(g, site, op) && Achieves(g, site, op, steps, r) && UNCRASHED < steps
    requires CurrentApproval(site.tables, op).Some?
    ensures op in r.tables.operations && Concluded(g, r.tables, op, CurrentApproval(site.tables, op).value.decision)
  {
    SettledDecisionsConclude(g, r.tables, op, r.checkpoint);
  }

  /** Recovery progress. After any history, recovering an operation that is not finished raises
      nothing; if it survives, it ends waiting at the interrupt or with the outcome that was decided,
      and its audit trail is then the crash-free one. */
  lemma RecoveryMakesProgress(g: Tables, op: Uuid, moves: seq<Move>, steps: nat, newId: Uuid, site: Site, r: Recovered)
    requires Untouched(g) && op in g.operations && site == PlayAll(Site(g, None), op, moves)
    requires r == RecoverStep(site.tables, site.checkpoint, op, steps, newId)
    ensures op in site.tables.operations && op in r.tables.operations
    ensures site.tables.operations[op].status !in TERMINAL ==> !r.ending.RaisedError?
    ensures UNCRASHED < steps ==> Settled(r.tables.operations[op].status, r.checkpoint)
    ensures UNCRASHED < steps && CurrentApproval(site.tables, op).Some? ==>
              Concluded(g, r.tables, op, CurrentApproval(site.tables, op).value.decision)
  {
    RetriesAreBounded(g, op, moves);
    AttemptAchieves(g, site, op, steps, newId, r);
    if UNCRASHED < steps && CurrentApproval(site.tables, op).Some? {
      AttemptConcludes(g, site, op, steps, r);
    }
  }

  /** Rebuilding from business facts cannot replace a lost checkpoint once a decision is recorded:
      every surviving attempt raises, whatever happened before. */
  lemma DecisionsNeedTheirCheckpoint(g: Tables, op: Uuid, moves: seq<Move>, steps: nat, newId: Uuid, site: Site)
    requires Untouched(g) && op in g.operations && site == PlayAll(Site(g, None), op, moves) && UNCRASHED < steps
    requires op in site.tables.operations && site.tables.operations[op].status !in TERMINAL
    ensures RecoverStep(site.tables, None, op, steps, newId).ending.RaisedError? <==> CurrentApproval(site.tables, op).Some?
  {
    RetriesAreBounded(g, op, moves);
    RecoveryRaisesExactly(g, site.tables, op, None, steps, newId);
    SoundIsCoherent(g, site.tables, op, None);
  }

  // ---- Reaching the stuck states ------------------------------------------------------------------------------

  lemma PlayedInTurn(site: Site, op: Uuid, a: Move, b: Move, c: Move)
    ensures PlayAll(site, op, [a]) == Play(site, op, a)
    ensures PlayAll(site, op, [a, b]) == Play(Play(site, op, a), op, b)
    ensures PlayAll(site, op, [a, b, c]) == Play(Play(Play(site, op, a), op, b), op, c)
  {
    assert [a][..0] == [] && [a, b][..1] == [a] && [a, b, c][..2] == [a, b];
    assert PlayAll(site, op, []) == site;
  }

  /** A launched drive ends where the drift from its launch ends. */
  lemma LaunchDrifts(g: Tables, t: Tables, op: Uuid, launch: Launch, ck: Option<Checkpoint>, action: RecoveryAction,
                     steps: nat, newId: Uuid, d: Drift)
    requires Ready(g, t, op, launch.checkpoint, launch.resume) && op in t.operations && launch.cost <= steps
    requires d == DriftOf(LaneOf(t, op, launch.checkpoint), DecisionOf(launch.resume), steps - launch.cost)
    ensures var r := LaunchStep(t, ck, Some(launch), action, steps, newId);
            && op in r.tables.operations && r.checkpoint.Some? && LaneOf(r.tables, op, r.checkpoint.value) == d.lane
  {
    DriveFollows(g, t, op, launch.checkpoint, launch.resume, steps - launch.cost, newId);
  }

  /** The first attempt that survives brings a received operation to the interrupt. */
  lemma FirstAttemptWaits(g: Tables, op: Uuid, steps: nat, newId: Uuid, site: Site)
    requires Untouched(g) && op in g.operations && 5 <= steps && site == Play(Site(g, None), op, Attempt(steps, newId))
    ensures SiteSound(g, site, op) && AtInterrupt(site) && site.tables.operations[op].status.AwaitingApproval?
  {
    GenesisIsSound(g);
    AttemptAchieves(g, Site(g, None), op, steps, newId, RecoverStep(g, None, op, steps, newId));
    DecisionsAreMade(g, g, op, None);
    var view := OperationStates.ViewOf(g, op).value;
    var launch := LaunchOf(view, None, RebuildFromBusinessFacts).value;
    LaunchesAreReady(g, g, op, None, view, RebuildFromBusinessFacts);
    RecoveryLaunches(g, None, op, steps, newId, view, RebuildFromBusinessFacts);
    DriftsToInterrupt(steps - 1);
    LaunchDrifts(g, g, op, launch, None, RebuildFromBusinessFacts, steps, newId,
                 Drift(Lane(AwaitingApproval, Some(RequestApproval), true), Idle));
  }

  lemma DriftsToInterrupt(steps: nat)
    requires 4 <= steps
    ensures DriftOf(Lane(Received, Some(PrepareApproval), false), None, steps)
         == Drift(Lane(AwaitingApproval, Some(RequestApproval), true), Idle)
  {
    assert DriftOf(Lane(AwaitingApproval, Some(RequestApproval), false), None, steps - 2)
        == Drift(Lane(AwaitingApproval, Some(RequestApproval), true), Idle);
  }

  lemma AnswerIsTaken(g: Tables, site: Site, op: Uuid, command: ApprovalCommand, approvalId: Uuid)
    requires SiteSound(g, site, op) && AtInterrupt(site) && site.tables.operations[op].status.AwaitingApproval?
    requires command.operationId == op
    ensures var site' := Play(site, op, Answer(command, approvalId));
            && SiteSound(g, site', op) && site'.checkpoint == site.checkpoint
            && site'.tables.operations[op].status.Resuming?
            && CurrentApproval(site'.tables, op).Some? && CurrentApproval(site'.tables, op).value.decision == command.decision
  {
    RowsAreSound(g, site.tables, op);
    AnswerKeepsSite(g, site, op, RepositoryRuns.SubmitCall(command, approvalId));
  }

  /** A reachable state recovery cannot leave: an operation waited, was decided, and lost its checkpoint. */
  lemma LostCheckpointIsFatal(g: Tables, op: Uuid, command: ApprovalCommand, approvalId: Uuid, newId: Uuid, steps: nat)
    requires Untouched(g) && op in g.operations && command.operationId == op && UNCRASHED < steps
    ensures var site := PlayAll(Site(g, None), op, [Attempt(UNCRASHED + 1, newId), Answer(command, approvalId)]);
            && op in site.tables.operations && site.tables.operations[op].status.Resuming?
            && CurrentApproval(site.tables, op).Some?
            && RecoverStep(site.tables, None, op, steps, newId).ending.RaisedError?
  {
    var a, b := Attempt(UNCRASHED + 1, newId), Answer(command, approvalId);
    PlayedInTurn(Site(g, None), op, a, b, b);
    FirstAttemptWaits(g, op, UNCRASHED + 1, newId, Play(Site(g, None), op, a));
    AnswerIsTaken(g, Play(Site(g, None), op, a), op, command, approvalId);
    DecisionsNeedTheirCheckpoint(g, op, [a, b], steps, newId, PlayAll(Site(g, None), op, [a, b]));
  }

  /** The step after which a crash loses the last checkpoint. */
  function LastCommit(decision: Decision): nat {
    if decision.Approve? then 11 else 3
  }

  lemma DriftsToLastCommit(decision: Decision)
    ensures DriftOf(Lane(Resuming, Some(RequestApproval), true), Some(decision), LastCommit(decision))
         == if decision.Approve? then Drift(Lane(Completed, Some(MarkCompleted), false), Lost)
            else Drift(Lane(Rejected, Some(MarkRejected), false), Lost)
  {
    if decision.Approve? {
      var last := Drift(Lane(Completed, Some(MarkCompleted), false), Lost);
      assert DriftOf(Lane(Verifying, Some(MarkCompleted), false), None, 1) == last;
      assert DriftOf(Lane(Verifying, Some(VerifyWorkOrder), false), None, 3) == last;
      assert DriftOf(Lane(Executing, Some(MarkVerifying), false), None, 5) == last;
      assert DriftOf(Lane(Executing, Some(ExecuteWorkOrder), false), None, 7) == last;
      assert DriftOf(Lane(Resuming, Some(MarkExecuting), false), None, 9) == last;
    } else {
      assert DriftOf(Lane(Resuming, Some(MarkRejected), false), None, 1) == Drift(Lane(Rejected, Some(MarkRejected), false), Lost);
    }
  }

  /** Resuming a decision and dying right after the last commit leaves a finished operation that waits. */
  lemma CrashAfterLastCommit(g: Tables, site: Site, op: Uuid, newId: Uuid, decision: Decision)
    requires SiteSound(g, site, op) && AtInterrupt(site) && site.tables.operations[op].status.Resuming?
    requires CurrentApproval(site.tables, op).Some? && CurrentApproval(site.tables, op).value.decision == decision
    ensures var site' := Play(site, op, Attempt(LastCommit(decision), newId));
            && SiteSound(g, site', op) && site'.checkpoint.Some? && site'.checkpoint.value.next.Some?
            && site'.tables.operations[op].status == if decision.Approve? then Completed else Rejected
  {
    var steps, t, ck := LastCommit(decision), site.tables, site.checkpoint;
    AttemptAchieves(g, site, op, steps, newId, RecoverStep(t, ck, op, steps, newId));
    DecisionsAreMade(g, t, op, ck);
    var view := OperationStates.ViewOf(t, op).value;
    var launch := LaunchOf(view, ck, ResumeDecision).value;
    LaunchesAreReady(g, t, op, ck, view, ResumeDecision);
    RecoveryLaunches(t, ck, op, steps, newId, view, ResumeDecision);
    DriftsToLastCommit(decision);
    LaunchDrifts(g, t, op, launch, ck, ResumeDecision, steps, newId,
                 DriftOf(Lane(Resuming, Some(RequestApproval), true), Some(decision), steps));
  }

  /** A second one: a finished operation whose last checkpoint was lost is refused by every later recovery. */
  lemma FinishedOperationIsRefused(g: Tables, op: Uuid, command: ApprovalCommand, approvalId: Uuid, newId: Uuid, steps: nat)
    requires Untouched(g) && op in g.operations && command.operationId == op
    ensures var moves := [Attempt(UNCRASHED + 1, newId), Answer(command, approvalId), Attempt(LastCommit(command.decision), newId)];
            var site := PlayAll(Site(g, None), op, moves);
            && op in site.tables.operations
            && site.tables.operations[op].status == (if command.decision.Approve? then Completed else Rejected)
            && RecoverStep(site.tables, site.checkpoint, op, steps, newId)
               == Recovered(site.tables, site.checkpoint,
                            RaisedError(RecoveryStateConflict("terminal_state_has_pending_checkpoint")))
  {
    var a, b, c := Attempt(UNCRASHED + 1, newId), Answer(command, approvalId), Attempt(LastCommit(command.decision), newId);
    PlayedInTurn(Site(g, None), op, a, b, c);
    var waiting := Play(Site(g, None), op, a);
    FirstAttemptWaits(g, op, UNCRASHED + 1, newId, waiting);
    AnswerIsTaken(g, waiting, op, command, approvalId);
    CrashAfterLastCommit(g, Play(waiting, op, b), op, newId, command.decision);
    PendingFinishIsRefused(g, PlayAll(Site(g, None), op, [a, b, c]), op, steps, newId);
  }

  lemma PendingFinishIsRefused(g: Tables, site: Site, op: Uuid, steps: nat, newId: Uuid)
    requires SiteSound(g, site, op) && site.tables.operations[op].status in TERMINAL
    requires site.checkpoint.Some? && site.checkpoint.value.next.Some?
    ensures RecoverStep(site.tables, site.checkpoint, op, steps, newId)
         == Recovered(site.tables, site.checkpoint, RaisedError(RecoveryStateConflict("terminal_state_has_pending_checkpoint")))
  {
    DecisionsAreMade(g, site.tables, op, site.checkpoint);
    RefusalsRaise(site.tables, site.checkpoint, op, steps, newId, OperationStates.ViewOf(site.tables, op).value);
  }

  // ---- Recovery in any reachable world --------------------------------------------------------------------------

  /** However many workers have raced and crashed, if the checkpoint now stored lags by at most one transition,
      recovery raises nothing on an unfinished operation, and if it survives it settles it as decided. */
  lemma ReachableRecoverySettles(g: Tables, events: seq<Event>, op: Uuid, steps: nat, newId: Uuid, w: World, r: Recovered)
    requires Untouched(g) && op in g.operations && w == Run(World(g, map[], map[]), events)
    requires op in w.tables.operations && InStep(w.tables.operations[op].status, CheckpointOf(w.checkpoints, op))
    requires r == RecoverStep(w.tables, CheckpointOf(w.checkpoints, op), op, steps, newId)
    ensures op in r.tables.operations
    ensures w.tables.operations[op].status !in TERMINAL ==> !r.ending.RaisedError?
    ensures UNCRASHED < steps ==> Settled(r.tables.operations[op].status, r.checkpoint)
    ensures UNCRASHED < steps && CurrentApproval(w.tables, op).Some? ==>
              Concluded(g, r.tables, op, CurrentApproval(w.tables, op).value.decision)
  {
    GenesisIsSound(g);
    RunIsSound(g, World(g, map[], map[]), events);
    WorldRecoverySettles(g, w, op, steps, newId, r);
  }

  lemma WorldRecoverySettles(g: Tables, w: World, op: Uuid, steps: nat, newId: Uuid, r: Recovered)
    requires Untouched(g) && op in g.operations && WorldSound(g, w)
    requires op in w.tables.operations && InStep(w.tables.operations[op].status, CheckpointOf(w.checkpoints, op))
    requires r == RecoverStep(w.tables, CheckpointOf(w.checkpoints, op), op, steps, newId)
    ensures op in r.tables.operations
    ensures w.tables.operations[op].status !in TERMINAL ==> !r.ending.RaisedError?
    ensures UNCRASHED < steps ==> Settled(r.tables.operations[op].status, r.checkpoint)
    ensures UNCRASHED < steps && CurrentApproval(w.tables, op).Some? ==>
              Concluded(g, r.tables, op, CurrentApproval(w.tables, op).value.decision)
  {
    var site := Site(w.tables, CheckpointOf(w.checkpoints, op));
    AttemptAchieves(g, site, op, steps, newId, r);
    if UNCRASHED < steps && CurrentApproval(w.tables, op).Some? {
      AttemptConcludes(g, site, op, steps, r);
    }
  }
}
