/** Any number of workers recovering any number of operations, with crashes at every point.

    Each event is one atomic action: a locked transaction, a checkpoint read or write, a crash.
    Workers race freely, so a slow worker may overwrite a newer checkpoint with an older one. */
module CrashProtocol {
  import opened Approvals
  import opened Digests
  import OperationStates
  import opened Recovery
  import opened RecoveryCoordination
  import opened ReliabilityGraph
  import RepositoryRuns
  import opened Scenarios
  import opened Tables
  import WorkOrders
  import opened Wrappers

  datatype Worker =
    | Viewed(op: Uuid, view: OperationStates.RecoveryView)
    | Decided(op: Uuid, view: OperationStates.RecoveryView, action: RecoveryAction)
    | Running(op: Uuid, at: Checkpoint, resume: Option<ApprovalResume>)
    | Committed(op: Uuid, after: Checkpoint)

  /** A worker that is not listed is idle. */
  datatype World = World(tables: Tables, checkpoints: map<Uuid, Checkpoint>, workers: map<nat, Worker>)

  datatype Event =
    | Submit(command: ApprovalCommand, approvalId: Uuid)
    | SubmitBound(command: ApprovalCommand, expected: ApprovalBinding, approvalId: Uuid, now: Instant)
    | LoadView(worker: nat, op: Uuid)
    | ReadCheckpoint(worker: nat)
    | StartGraph(worker: nat)
    | RunNode(worker: nat, newId: Uuid)
    | WriteCheckpoint(worker: nat)
    | Crash(worker: nat)
    | LoseCheckpoint(op: Uuid)

  function Become(w: World, worker: nat, state: Worker): World {
    w.(workers := w.workers[worker := state])
  }

  function Leave(w: World, worker: nat): World {
    w.(workers := w.workers - {worker})
  }

  function ReadAndDecide(w: World, worker: nat, op: Uuid, view: OperationStates.RecoveryView): World {
    var decided := Decide(view, CheckpointOf(w.checkpoints, op));
    if decided.Err? || decided.value.KeepWaiting? || decided.value.NoOp? then Leave(w, worker)
    else Become(w, worker, Decided(op, view, decided.value))
  }

  function Start(w: World, worker: nat, op: Uuid, view: OperationStates.RecoveryView, action: RecoveryAction): World {
    if action.RebuildFromBusinessFacts? then
      var start := Checkpoint(InitialChannels(view), Some(PrepareApproval), false);
      Become(w.(checkpoints := w.checkpoints[op := start]), worker, Running(op, start, None))
    else if op !in w.checkpoints || w.checkpoints[op].next.None? then Leave(w, worker)
    else if action.ResumeDecision? then
      if view.approval.None? then Leave(w, worker)
      else Become(w, worker, Running(op, w.checkpoints[op], Some(ResumeOf(view.approval.value))))
    else Become(w, worker, Running(op, w.checkpoints[op], None))
  }

  /** The worker's own state after a node, given the node's result. */
  function AfterNode(w: World, worker: nat, op: Uuid, at: Checkpoint, s: NodeStep): World
    requires at.next.Some?
    requires s.result.Advanced? && at.next.value.RequestApproval? ==> s.result.channels.approval.Some?
  {
    var w' := w.(tables := s.tables);
    match s.result
    case Raised(_) => Leave(w', worker)
    case Paused => Become(w', worker, Committed(op, at.(interrupted := true)))
    case Advanced(ch) => Become(w', worker, Committed(op, Checkpoint(ch, Successor(at.next.value, ch), false)))
  }

  function CommitNode(w: World, worker: nat, op: Uuid, at: Checkpoint, resume: Option<ApprovalResume>, newId: Uuid): World
    requires at.next.Some?
  {
    AfterNode(w, worker, op, at, RunNodeStep(w.tables, at.next.value, at.channels, resume, newId))
  }

  function Persist(w: World, worker: nat, op: Uuid, after: Checkpoint): World {
    var w' := w.(checkpoints := w.checkpoints[op := after]);
    if after.interrupted || after.next.None? then Leave(w', worker) else Become(w', worker, Running(op, after, None))
  }

  /** One event. An event that is not enabled changes nothing. */
  function Next(w: World, e: Event): World {
    match e
    case Submit(c, id) => w.(tables := RepositoryRuns.Apply(w.tables, RepositoryRuns.SubmitCall(c, id)).tables)
    case SubmitBound(c, b, id, now) => w.(tables := RepositoryRuns.Apply(w.tables, RepositoryRuns.BoundCall(c, b, id, now)).tables)
    case LoadView(worker, op) =>
      var view := OperationStates.ViewOf(w.tables, op);
      if worker in w.workers || view.Err? then w else Become(w, worker, Viewed(op, view.value))
    case ReadCheckpoint(worker) =>
      if worker in w.workers && w.workers[worker].Viewed? then
        ReadAndDecide(w, worker, w.workers[worker].op, w.workers[worker].view) else w
    case StartGraph(worker) =>
      if worker in w.workers && w.workers[worker].Decided? then
        Start(w, worker, w.workers[worker].op, w.workers[worker].view, w.workers[worker].action) else w
    case RunNode(worker, newId) =>
      if worker in w.workers && w.workers[worker].Running? && w.workers[worker].at.next.Some? then
        CommitNode(w, worker, w.workers[worker].op, w.workers[worker].at, w.workers[worker].resume, newId) else w
    case WriteCheckpoint(worker) =>
      if worker in w.workers && w.workers[worker].Committed? then
        Persist(w, worker, w.workers[worker].op, w.workers[worker].after) else w
    case Crash(worker) => Leave(w, worker)
    case LoseCheckpoint(op) => w.(checkpoints := w.checkpoints - {op})
  }

  function Run(w: World, events: seq<Event>): World {
    if events == [] then w else Next(Run(w, events[..|events| - 1]), events[|events| - 1])
  }

  // ---- One operation: its shape, and the audit log its shape dictates ------------------------------

  /** Operations freshly received: nothing decided, nothing written. */
  ghost predicate Genesis(g: Tables) {
    && g.approvals == map[]
    && g.workOrders == map[]
    && (forall op | op in g.operations :: g.operations[op].status.Received? && g.operations[op].approvalCycle == 0)
  }

  predicate OrderMatches(op: Uuid, s: Slice)
    requires s.workOrder.Some?
  {
    && s.workOrder.value.operationId == op
    && s.workOrder.value.idempotencyKey == IdempotencyKey(op)
    && s.workOrder.value.payload == s.row.snapshot.workOrderPayload
    && s.workOrder.value.payloadHash == HashPayload(s.row.snapshot.workOrderPayload)
  }

  predicate DecidedAs(s: Slice, decision: Decision) {
    s.approval.Some? && s.approval.value.decision == decision
  }

  /** Which rows exist in which status. */
  predicate Shape(op: Uuid, s: Slice) {
    && (s.row.status.Received? <==> s.row.approvalCycle == 0)
    && s.row.approvalCycle <= 1
    && (s.workOrder.Some? ==> OrderMatches(op, s))
    && match s.row.status
       case Received => s.approval.None? && s.workOrder.None?
       case AwaitingApproval => s.approval.None? && s.workOrder.None?
       case Resuming => s.approval.Some? && s.workOrder.None?
       case Executing => DecidedAs(s, Approve)
       case Verifying => DecidedAs(s, Approve) && s.workOrder.Some?
       case Completed => DecidedAs(s, Approve) && s.workOrder.Some?
       case Rejected => DecidedAs(s, Reject) && s.workOrder.None?
       case Expired => s.approval.None? && s.workOrder.None? && s.row.approvalExpiresAt.Some?
       case _ => false
  }

  function RecordedEvent(s: Slice): AuditEvent
    requires s.approval.Some?
  {
    ApprovalRecorded(s.approval.value.id, s.approval.value.decision, 1)
  }

  function OrderEvents(s: Slice): seq<AuditEvent> {
    if s.workOrder.None? then []
    else [WorkOrderCreated(s.workOrder.value.id, s.workOrder.value.idempotencyKey, s.workOrder.value.payloadHash)]
  }

  /** The audit log, payloads included, is a function of the current rows. */
  function Log(op: Uuid, s: Slice): seq<AuditEvent>
    requires Shape(op, s)
  {
    match s.row.status
    case AwaitingApproval => [ApprovalRequested(1)]
    case Resuming => [ApprovalRequested(1), RecordedEvent(s)]
    case Executing => [ApprovalRequested(1), RecordedEvent(s), ExecutionStarted(s.approval.value.id)] + OrderEvents(s)
    case Verifying =>
      [ApprovalRequested(1), RecordedEvent(s), ExecutionStarted(s.approval.value.id)] + OrderEvents(s)
      + [VerificationStarted(s.workOrder.value.id)]
    case Completed =>
      [ApprovalRequested(1), RecordedEvent(s), ExecutionStarted(s.approval.value.id)] + OrderEvents(s)
      + [VerificationStarted(s.workOrder.value.id), OperationCompleted(s.workOrder.value.id)]
    case Rejected => [ApprovalRequested(1), RecordedEvent(s), OperationRejected(s.approval.value.id)]
    case Expired => [ApprovalRequested(1), ApprovalExpiredEvent(s.row.approvalExpiresAt.value)]
    case _ => []
  }

  function Numbered(after: nat, log: seq<AuditEvent>): seq<Entry> {
    seq(|log|, i requires 0 <= i < |log| => Entry(after + 1 + i, log[i]))
  }

  lemma NumberedAppend(after: nat, log: seq<AuditEvent>, event: AuditEvent)
    ensures Numbered(after, log + [event]) == Numbered(after, log) + [Entry(after + |log| + 1, event)]
  {
  }

  ghost predicate SliceSound(op: Uuid, g: Slice, s: Slice) {
    && s.row.threadId == g.row.threadId
    && s.row.snapshot == g.row.snapshot
    && s.row.approvalExpiresAt == g.row.approvalExpiresAt
    && Shape(op, s)
    && s.events == g.events + Numbered(g.row.nextAuditSequence, Log(op, s))
    && s.row.nextAuditSequence == g.row.nextAuditSequence + |Log(op, s)|
  }

  /** A received operation has no approval row in any cycle yet. */
  ghost predicate ApprovalsAreLate(t: Tables) {
    forall k | k in t.approvals :: k.0 in t.operations && !t.operations[k.0].status.Received?
  }

  ghost predicate TablesSound(g: Tables, t: Tables) {
    && t.operations.Keys == g.operations.Keys
    && RepositoryRuns.OrdersSound(t)
    && ApprovalsAreLate(t)
    && (forall op {:trigger SliceSound(op, SliceOf(g, op), SliceOf(t, op))} | op in g.operations ::
          SliceSound(op, SliceOf(g, op), SliceOf(t, op)))
  }

  // ---- Calls that respect the graph's discipline -----------------------------------------------------

  predicate PastExecution(status: OperationStatus) {
    status.Executing? || status.Verifying? || status.Completed?
  }

  predicate PastVerification(status: OperationStatus) {
    status.Verifying? || status.Completed?
  }

  /** What the graph guarantees about the calls its nodes make. */
  predicate Disciplined(t: Tables, call: RepositoryRuns.Call) {
    var op := call.Subject();
    op in t.operations ==>
      match call
      case MarkCall(_, MarkAwaitingApproval) => true
      case MarkCall(_, MarkExecuting(id)) =>
        var a := CurrentApproval(t, op); a.Some? && a.value.id == id && a.value.decision.Approve?
      case MarkCall(_, MarkRejected(id)) =>
        var a := CurrentApproval(t, op); a.Some? && a.value.id == id && a.value.decision.Reject?
      case MarkCall(_, MarkVerifying(id)) =>
        var o := StoredWorkOrder(t, op); o.Some? && o.value.id == id
      case MarkCall(_, MarkCompleted(id)) =>
        var o := StoredWorkOrder(t, op); o.Some? && o.value.id == id
      case WriteCall(_, payload, _) =>
        payload == t.operations[op].snapshot.workOrderPayload && PastExecution(t.operations[op].status)
      case SubmitCall(_, _) => true
      case BoundCall(_, _, _, _) => true
  }

  /** The graph's discipline is more than the guard that keeps outcomes sound. */
  lemma DisciplinedCallsAreGuarded(t: Tables, call: RepositoryRuns.Call)
    requires call.Subject() in t.operations && Disciplined(t, call)
    ensures RepositoryRuns.Guarded(t, call, call.Subject())
  {
  }

  /** The facts about an operation that no later transaction takes back. */
  predicate Grows(before: Slice, after: Slice) {
    && after.row.threadId == before.row.threadId
    && after.row.snapshot == before.row.snapshot
    && (before.approval.Some? ==> after.approval == before.approval)
    && (before.workOrder.Some? ==> after.workOrder == before.workOrder)
    && (!before.row.status.Received? ==> !after.row.status.Received?)
    && (PastExecution(before.row.status) ==> PastExecution(after.row.status))
    && (PastVerification(before.row.status) ==> PastVerification(after.row.status))
    && (before.row.status in TERMINAL ==> after == before)
  }

  ghost predicate Evolves(t: Tables, t': Tables) {
    && t'.operations.Keys == t.operations.Keys
    && forall op {:trigger Grows(SliceOf(t, op), SliceOf(t', op))} | op in t.operations ::
         Grows(SliceOf(t, op), SliceOf(t', op))
  }

  /** One operation's rows before and after a transaction that recorded `event`. */
  predicate StepSound(op: Uuid, before: Slice, after: Slice, event: AuditEvent) {
    && Shape(op, before) && Shape(op, after)
    && Log(op, after) == Log(op, before) + [event]
    && after.row.approvalExpiresAt == before.row.approvalExpiresAt
    && Grows(before, after)
  }

  function LastEvent(t: Tables): AuditEvent
    requires t.auditEvents != []
  {
    t.auditEvents[|t.auditEvents| - 1].entry.event
  }

  lemma MarkStepIsSound(op: Uuid, s: Slice, mark: OperationStates.Mark, s': Slice)
    requires Shape(op, s) && s.row.status == mark.Source()
    requires mark.MarkExecuting? ==> DecidedAs(s, Approve) && s.approval.value.id == mark.approvalId
    requires mark.MarkRejected? ==> DecidedAs(s, Reject) && s.approval.value.id == mark.approvalId
    requires mark.MarkVerifying? || mark.MarkCompleted? ==> s.workOrder.Some? && s.workOrder.value.id == mark.workOrderId
    requires s'.approval == s.approval && s'.workOrder == s.workOrder
    requires s'.row == s.row.(status := mark.Target(),
                       approvalCycle := if mark.MarkAwaitingApproval? then 1 else s.row.approvalCycle,
                       nextAuditSequence := s'.row.nextAuditSequence)
    ensures StepSound(op, s, s', mark.Event())
  {
  }

  lemma DecisionStepIsSound(op: Uuid, s: Slice, s': Slice)
    requires Shape(op, s) && s.row.status.AwaitingApproval?
    requires s'.approval.Some? && s'.workOrder == s.workOrder
    requires s'.row == s.row.(status := Resuming, nextAuditSequence := s'.row.nextAuditSequence)
    ensures StepSound(op, s, s', RecordedEvent(s'))
  {
  }

  lemma OrderStepIsSound(op: Uuid, s: Slice, s': Slice)
    requires Shape(op, s) && s.row.status.Executing? && s.workOrder.None?
    requires s'.approval == s.approval && s'.workOrder.Some? && OrderMatches(op, s')
    requires s'.row == s.row.(nextAuditSequence := s'.row.nextAuditSequence)
    ensures StepSound(op, s, s', OrderEvents(s')[0])
  {
  }

  predicate NoEarlyApproval(t: Tables, op: Uuid)
    requires op in t.operations
  {
    t.operations[op].status.Received? ==> (op, 1) !in t.approvals
  }

  /** A transaction on `op` moved its rows soundly and logged what it did. */
  ghost predicate SubjectMoved(op: Uuid, t: Tables, t': Tables) {
    && op in t.operations && op in t'.operations && t'.auditEvents != []
    && StepSound(op, SliceOf(t, op), SliceOf(t', op), LastEvent(t'))
    && !t'.operations[op].status.Received?
  }

  lemma MarkMoves(t: Tables, op: Uuid, mark: OperationStates.Mark)
    requires op in t.operations && Shape(op, SliceOf(t, op)) && NoEarlyApproval(t, op)
    requires Disciplined(t, RepositoryRuns.MarkCall(op, mark))
    requires OperationStates.MarkStep(t, op, mark).reply.Ok? && OperationStates.MarkStep(t, op, mark).reply.value.changed
    ensures SubjectMoved(op, t, OperationStates.MarkStep(t, op, mark).tables)
  {
    MarkStepIsSound(op, SliceOf(t, op), mark, SliceOf(OperationStates.MarkStep(t, op, mark).tables, op));
  }

  lemma WriteMoves(t: Tables, op: Uuid, payload: Payload, newId: Uuid)
    requires op in t.operations && Shape(op, SliceOf(t, op))
    requires Disciplined(t, RepositoryRuns.WriteCall(op, payload, newId))
    requires var reply := WorkOrders.CreateOrGetStep(t, op, payload, newId).reply; reply.Ok? && !reply.value.replayed
    ensures SubjectMoved(op, t, WorkOrders.CreateOrGetStep(t, op, payload, newId).tables)
  {
    OrderStepIsSound(op, SliceOf(t, op), SliceOf(WorkOrders.CreateOrGetStep(t, op, payload, newId).tables, op));
  }

  lemma AcceptMoves(t: Tables, command: ApprovalCommand, newId: Uuid, binding: Option<ApprovalBinding>)
    requires var op := command.operationId;
             op in t.operations && Shape(op, SliceOf(t, op)) && !AlreadyDecided(t, op)
    ensures SubjectMoved(command.operationId, t, Accept(t, command, newId, binding).tables)
  {
    var op := command.operationId;
    DecisionStepIsSound(op, SliceOf(t, op), SliceOf(Accept(t, command, newId, binding).tables, op));
  }

  lemma ExpiryMoves(t: Tables, op: Uuid)
    requires op in t.operations && Shape(op, SliceOf(t, op)) && !AlreadyDecided(t, op)
    requires t.operations[op].approvalExpiresAt.Some?
    ensures var row := t.operations[op];
            SubjectMoved(op, t, Record(t, op, row.(status := Expired), ApprovalExpiredEvent(row.approvalExpiresAt.value)))
  {
    var row := t.operations[op];
    ExpiryStepIsSound(op, SliceOf(t, op),
                      SliceOf(Record(t, op, row.(status := Expired), ApprovalExpiredEvent(row.approvalExpiresAt.value)), op));
  }

  lemma CallMoves(t: Tables, call: RepositoryRuns.Call)
    requires call.Subject() in t.operations ==>
               Shape(call.Subject(), SliceOf(t, call.Subject())) && NoEarlyApproval(t, call.Subject())
    requires Disciplined(t, call)
    requires !RepositoryRuns.Silent(RepositoryRuns.Apply(t, call).reply)
    ensures SubjectMoved(call.Subject(), t, RepositoryRuns.Apply(t, call).tables)
  {
    match call {
      case MarkCall(op, mark) => MarkMoves(t, op, mark);
      case WriteCall(op, payload, id) => WriteMoves(t, op, payload, id);
      case SubmitCall(command, id) => AcceptMoves(t, command, id, None);
      case BoundCall(command, expected, id, now) =>
        if SubmitBoundStep(t, command, expected, id, now).reply.Ok? {
          AcceptMoves(t, command, id, Some(expected));
        } else {
          ExpiryMoves(t, command.operationId);
        }
    }
  }

  lemma ExpiryStepIsSound(op: Uuid, s: Slice, s': Slice)
    requires Shape(op, s) && s.row.status.AwaitingApproval? && s.row.approvalExpiresAt.Some?
    requires s'.approval == s.approval && s'.workOrder == s.workOrder
    requires s'.row == s.row.(status := Expired, nextAuditSequence := s'.row.nextAuditSequence)
    ensures StepSound(op, s, s', ApprovalExpiredEvent(s.row.approvalExpiresAt.value))
  {
  }

  lemma SubjectIsSound(op: Uuid, g: Slice, s: Slice, s': Slice, event: AuditEvent)
    requires SliceSound(op, g, s) && StepSound(op, s, s', event)
    requires s'.row.nextAuditSequence == s.row.nextAuditSequence + 1
    requires s'.events == s.events + [Entry(s.row.nextAuditSequence + 1, event)]
    ensures SliceSound(op, g, s')
  {
    NumberedAppend(g.row.nextAuditSequence, Log(op, s), event);
  }

  lemma OneOperation(g: Slice, t: Tables, t': Tables, subject: Uuid, op: Uuid)
    requires op in t.operations && SliceSound(op, g, SliceOf(t, op))
    requires RepositoryRuns.Writes(t, t', subject) && SubjectMoved(subject, t, t')
    ensures op in t'.operations && SliceSound(op, g, SliceOf(t', op)) && Grows(SliceOf(t, op), SliceOf(t', op))
  {
    if op == subject {
      EventsOfAppend(t.auditEvents, t'.auditEvents[|t.auditEvents|], op);
      assert t'.auditEvents == t.auditEvents + [t'.auditEvents[|t.auditEvents|]];
      SubjectIsSound(op, g, SliceOf(t, op), SliceOf(t', op), LastEvent(t'));
    } else {
      RepositoryRuns.WritesContinue(t, t', subject, op);
    }
  }

  lemma DisciplinedCallIsSound(g: Tables, t: Tables, call: RepositoryRuns.Call)
    requires TablesSound(g, t) && Disciplined(t, call)
    ensures TablesSound(g, RepositoryRuns.Apply(t, call).tables)
    ensures Evolves(t, RepositoryRuns.Apply(t, call).tables)
  {
    var t' := RepositoryRuns.Apply(t, call).tables;
    if RepositoryRuns.Silent(RepositoryRuns.Apply(t, call).reply) {
      RepositoryRuns.OnlySilentCallsChangeNothing(t, call);
    } else {
      RepositoryRuns.CallKeepsOrders(t, call);
      RepositoryRuns.LoudCallsWrite(t, call);
      assert SliceSound(call.Subject(), SliceOf(g, call.Subject()), SliceOf(t, call.Subject()));
      CallMoves(t, call);
      WriteIsSound(g, t, t', call.Subject());
    }
  }

  lemma WriteKeepsApprovalsLate(t: Tables, t': Tables, subject: Uuid)
    requires ApprovalsAreLate(t) && RepositoryRuns.Writes(t, t', subject) && !t'.operations[subject].status.Received?
    ensures ApprovalsAreLate(t')
  {
  }

  lemma WriteIsSound(g: Tables, t: Tables, t': Tables, subject: Uuid)
    requires TablesSound(g, t)
    requires RepositoryRuns.Writes(t, t', subject) && RepositoryRuns.OrdersSound(t') && SubjectMoved(subject, t, t')
    ensures TablesSound(g, t') && Evolves(t, t')
  {
    WriteKeepsApprovalsLate(t, t', subject);
    forall op | op in g.operations
      ensures op in t'.operations && SliceSound(op, SliceOf(g, op), SliceOf(t', op)) && Grows(SliceOf(t, op), SliceOf(t', op))
    {
      OneOperation(SliceOf(g, op), t, t', subject, op);
    }
  }

  // ---- What checkpoints and workers remember -------------------------------------------------------

  ghost predicate ApprovedAs(t: Tables, op: Uuid, ch: Channels, decision: Decision)
    requires op in t.operations
  {
    var a := CurrentApproval(t, op);
    a.Some? && ch.approval == Some(ResumeOf(a.value)) && a.value.decision == decision
  }

  ghost predicate Locates(t: Tables, op: Uuid, ch: Channels) {
    var o := StoredWorkOrder(t, op);
    o.Some? && ch.workOrder == Some(Locator(o.value.id, o.value.payloadHash))
  }

  /** Channel values never run ahead of the database: reaching `next` leaves lasting evidence there. */
  ghost predicate ChannelsSound(t: Tables, op: Uuid, ch: Channels, next: Option<Node>) {
    && ch.operationId == op && op in t.operations && ch.snapshot == t.operations[op].snapshot
    && var status := t.operations[op].status;
    match next
    case Some(PrepareApproval) => true
    case Some(RequestApproval) => !status.Received?
    case Some(MarkExecuting) => ApprovedAs(t, op, ch, Approve)
    case Some(ExecuteWorkOrder) => ApprovedAs(t, op, ch, Approve) && PastExecution(status)
    case Some(MarkVerifying) => PastExecution(status) && Locates(t, op, ch)
    case Some(VerifyWorkOrder) => PastVerification(status) && Locates(t, op, ch)
    case Some(MarkCompleted) => PastVerification(status) && Locates(t, op, ch)
    case Some(MarkRejected) => ApprovedAs(t, op, ch, Reject)
    case None => status.Completed? || status.Rejected?
  }

  ghost predicate CheckpointSound(t: Tables, op: Uuid, ck: Checkpoint) {
    && ChannelsSound(t, op, ck.channels, ck.next)
    && (ck.interrupted ==> ck.next == Some(RequestApproval))
  }

  ghost predicate ResumeSound(t: Tables, op: Uuid, resume: Option<ApprovalResume>)
    requires op in t.operations
  {
    resume.Some? ==> CurrentApproval(t, op).Some? && resume.value == ResumeOf(CurrentApproval(t, op).value)
  }

  ghost predicate ViewSound(t: Tables, op: Uuid, view: OperationStates.RecoveryView) {
    && view.operationId == op && op in t.operations
    && view.snapshot == t.operations[op].snapshot
    && (view.approval.Some? ==> CurrentApproval(t, op) == view.approval)
  }

  ghost predicate WorkerSound(t: Tables, worker: Worker) {
    match worker
    case Viewed(op, view) => ViewSound(t, op, view)
    case Decided(op, view, _) => ViewSound(t, op, view)
    case Running(op, at, resume) =>
      CheckpointSound(t, op, at) && ResumeSound(t, op, resume)
    case Committed(op, after) => CheckpointSound(t, op, after)
  }

  ghost predicate WorldSound(g: Tables, w: World) {
    && TablesSound(g, w.tables)
    && (forall op | op in w.checkpoints :: CheckpointSound(w.tables, op, w.checkpoints[op]))
    && (forall n | n in w.workers :: WorkerSound(w.tables, w.workers[n]))
  }

  lemma ChannelsLast(t: Tables, t': Tables, op: Uuid, ch: Channels, next: Option<Node>)
    requires Evolves(t, t') && ChannelsSound(t, op, ch, next)
    ensures ChannelsSound(t', op, ch, next)
  {
    assert Grows(SliceOf(t, op), SliceOf(t', op));
  }

  lemma WorkersLast(t: Tables, t': Tables, worker: Worker)
    requires Evolves(t, t') && WorkerSound(t, worker)
    ensures WorkerSound(t', worker)
  {
    assert Grows(SliceOf(t, worker.op), SliceOf(t', worker.op));
    match worker {
      case Running(op, at, _) => ChannelsLast(t, t', op, at.channels, at.next);
      case Committed(op, after) => ChannelsLast(t, t', op, after.channels, after.next);
      case _ =>
    }
  }

  lemma WorldLasts(g: Tables, w: World, t': Tables)
    requires WorldSound(g, w) && TablesSound(g, t') && Evolves(w.tables, t')
    ensures WorldSound(g, w.(tables := t'))
  {
    forall op | op in w.checkpoints ensures CheckpointSound(t', op, w.checkpoints[op]) {
      ChannelsLast(w.tables, t', op, w.checkpoints[op].channels, w.checkpoints[op].next);
    }
    forall n | n in w.workers ensures WorkerSound(t', w.workers[n]) {
      WorkersLast(w.tables, t', w.workers[n]);
    }
  }

  lemma EvolvesReflexively(t: Tables)
    ensures Evolves(t, t)
  {
  }

  // ---- One node, from any sound checkpoint -----------------------------------------------------------

  /** The repository call a node makes, if it writes at all. */
  function CallOf(node: Node, ch: Channels, newId: Uuid): Option<RepositoryRuns.Call> {
    match node
    case PrepareApproval => Some(RepositoryRuns.MarkCall(ch.operationId, OperationStates.MarkAwaitingApproval))
    case MarkExecuting =>
      if ch.approval.None? then None
      else Some(RepositoryRuns.MarkCall(ch.operationId, OperationStates.MarkExecuting(ch.approval.value.approvalId)))
    case ExecuteWorkOrder => Some(RepositoryRuns.WriteCall(ch.operationId, ch.snapshot.workOrderPayload, newId))
    case MarkVerifying =>
      if ch.workOrder.None? then None
      else Some(RepositoryRuns.MarkCall(ch.operationId, OperationStates.MarkVerifying(ch.workOrder.value.workOrderId)))
    case MarkCompleted =>
      if ch.workOrder.None? then None
      else Some(RepositoryRuns.MarkCall(ch.operationId, OperationStates.MarkCompleted(ch.workOrder.value.workOrderId)))
    case MarkRejected =>
      if ch.approval.None? then None
      else Some(RepositoryRuns.MarkCall(ch.operationId, OperationStates.MarkRejected(ch.approval.value.approvalId)))
    case _ => None
  }

  lemma NodesOnlyCallRepositories(t: Tables, node: Node, ch: Channels, resume: Option<ApprovalResume>, newId: Uuid)
    ensures RunNodeStep(t, node, ch, resume, newId).tables
         == (if CallOf(node, ch, newId).None? then t else RepositoryRuns.Apply(t, CallOf(node, ch, newId).value).tables)
  {
  }

  lemma NodesAreDisciplined(t: Tables, op: Uuid, node: Node, ch: Channels, newId: Uuid)
    requires ChannelsSound(t, op, ch, Some(node))
    ensures CallOf(node, ch, newId).Some? ==> Disciplined(t, CallOf(node, ch, newId).value)
  {
  }

  lemma NodeTablesAreSound(g: Tables, t: Tables, op: Uuid, node: Node, ch: Channels, resume: Option<ApprovalResume>, newId: Uuid)
    requires TablesSound(g, t) && ChannelsSound(t, op, ch, Some(node))
    ensures TablesSound(g, RunNodeStep(t, node, ch, resume, newId).tables)
    ensures Evolves(t, RunNodeStep(t, node, ch, resume, newId).tables)
  {
    NodesOnlyCallRepositories(t, node, ch, resume, newId);
    NodesAreDisciplined(t, op, node, ch, newId);
    if CallOf(node, ch, newId).Some? {
      DisciplinedCallIsSound(g, t, CallOf(node, ch, newId).value);
    } else {
      EvolvesReflexively(t);
    }
  }

  /** What running a node leaves behind for the checkpoint after it. */
  ghost predicate NodeSound(t: Tables, op: Uuid, node: Node, s: NodeStep) {
    && (s.result.Paused? ==> node.RequestApproval? && s.tables == t)
    && (s.result.Advanced? ==>
          && (node.RequestApproval? ==> s.result.channels.approval.Some?)
          && ChannelsSound(s.tables, op, s.result.channels, Successor(node, s.result.channels)))
  }

  lemma MarksReachTheirTarget(t: Tables, op: Uuid, mark: OperationStates.Mark)
    requires OperationStates.MarkStep(t, op, mark).reply.Ok?
    ensures var t' := OperationStates.MarkStep(t, op, mark).tables;
            op in t'.operations && t'.operations[op].status == mark.Target()
  {
  }

  lemma WritesAreStored(t: Tables, op: Uuid, payload: Payload, newId: Uuid)
    requires WorkOrders.CreateOrGetStep(t, op, payload, newId).reply.Ok?
    ensures var s := WorkOrders.CreateOrGetStep(t, op, payload, newId);
            StoredWorkOrder(s.tables, op) == Some(s.reply.value.workOrder)
  {
  }

  lemma MarkLeavesEvidence(t: Tables, op: Uuid, node: Node, ch: Channels, mark: OperationStates.Mark, s: NodeStep)
    requires ChannelsSound(t, op, ch, Some(node)) && !node.RequestApproval?
    requires s == AfterMark(OperationStates.MarkStep(t, op, mark), ch)
    requires op in s.tables.operations && Grows(SliceOf(t, op), SliceOf(s.tables, op))
    requires match node
             case PrepareApproval => mark.MarkAwaitingApproval?
             case MarkExecuting => mark.MarkExecuting?
             case MarkVerifying => mark.MarkVerifying?
             case MarkCompleted => mark.MarkCompleted?
             case MarkRejected => mark.MarkRejected?
             case _ => false
    ensures NodeSound(t, op, node, s)
  {
    if s.result.Advanced? {
      MarksReachTheirTarget(t, op, mark);
    }
  }

  lemma WriteLeavesEvidence(t: Tables, op: Uuid, ch: Channels, resume: Option<ApprovalResume>, newId: Uuid)
    requires ChannelsSound(t, op, ch, Some(ExecuteWorkOrder))
    requires var s := RunNodeStep(t, ExecuteWorkOrder, ch, resume, newId);
             op in s.tables.operations && Grows(SliceOf(t, op), SliceOf(s.tables, op))
    ensures NodeSound(t, op, ExecuteWorkOrder, RunNodeStep(t, ExecuteWorkOrder, ch, resume, newId))
  {
    if RunNodeStep(t, ExecuteWorkOrder, ch, resume, newId).result.Advanced? {
      WritesAreStored(t, op, ch.snapshot.workOrderPayload, newId);
    }
  }

  lemma NodeLeavesEvidence(t: Tables, op: Uuid, node: Node, ch: Channels, resume: Option<ApprovalResume>, newId: Uuid)
    requires ChannelsSound(t, op, ch, Some(node)) && ResumeSound(t, op, resume)
    requires var s := RunNodeStep(t, node, ch, resume, newId);
             op in s.tables.operations && Grows(SliceOf(t, op), SliceOf(s.tables, op))
    ensures NodeSound(t, op, node, RunNodeStep(t, node, ch, resume, newId))
  {
    var s := RunNodeStep(t, node, ch, resume, newId);
    match node {
      case PrepareApproval => MarkLeavesEvidence(t, op, node, ch, OperationStates.MarkAwaitingApproval, s);
      case RequestApproval =>
      case MarkExecuting => MarkLeavesEvidence(t, op, node, ch, OperationStates.MarkExecuting(ch.approval.value.approvalId), s);
      case ExecuteWorkOrder => WriteLeavesEvidence(t, op, ch, resume, newId);
      case MarkVerifying => MarkLeavesEvidence(t, op, node, ch, OperationStates.MarkVerifying(ch.workOrder.value.workOrderId), s);
      case VerifyWorkOrder =>
      case MarkCompleted => MarkLeavesEvidence(t, op, node, ch, OperationStates.MarkCompleted(ch.workOrder.value.workOrderId), s);
      case MarkRejected => MarkLeavesEvidence(t, op, node, ch, OperationStates.MarkRejected(ch.approval.value.approvalId), s);
    }
  }

  // ---- Every reachable world ---------------------------------------------------------------------------

  lemma CommitIsSound(g: Tables, w: World, worker: nat, newId: Uuid)
    requires WorldSound(g, w) && worker in w.workers && w.workers[worker].Running? && w.workers[worker].at.next.Some?
    ensures var x := w.workers[worker];
            var w' := CommitNode(w, worker, x.op, x.at, x.resume, newId);
            WorldSound(g, w') && Evolves(w.tables, w'.tables)
  {
    var x := w.workers[worker];
    assert WorkerSound(w.tables, x);
    var s := RunNodeStep(w.tables, x.at.next.value, x.at.channels, x.resume, newId);
    NodeTablesAreSound(g, w.tables, x.op, x.at.next.value, x.at.channels, x.resume, newId);
    assert Grows(SliceOf(w.tables, x.op), SliceOf(s.tables, x.op));
    NodeLeavesEvidence(w.tables, x.op, x.at.next.value, x.at.channels, x.resume, newId);
    WorldLasts(g, w, s.tables);
    CommitMovesWorker(g, w, worker, s);
  }

  lemma BecomingIsSound(g: Tables, w: World, worker: nat, state: Worker)
    requires WorldSound(g, w) && WorkerSound(w.tables, state)
    ensures WorldSound(g, Become(w, worker, state))
  {
  }

  lemma LeavingIsSound(g: Tables, w: World, worker: nat)
    requires WorldSound(g, w)
    ensures WorldSound(g, Leave(w, worker))
  {
  }

  lemma CheckpointingIsSound(g: Tables, w: World, op: Uuid, ck: Checkpoint)
    requires WorldSound(g, w) && CheckpointSound(w.tables, op, ck)
    ensures WorldSound(g, w.(checkpoints := w.checkpoints[op := ck]))
  {
  }

  lemma CommitMovesWorker(g: Tables, w: World, worker: nat, s: NodeStep)
    requires worker in w.workers && w.workers[worker].Running? && w.workers[worker].at.next.Some?
    requires WorldSound(g, w.(tables := s.tables))
    requires CheckpointSound(w.tables, w.workers[worker].op, w.workers[worker].at)
    requires NodeSound(w.tables, w.workers[worker].op, w.workers[worker].at.next.value, s)
    ensures WorldSound(g, AfterNode(w, worker, w.workers[worker].op, w.workers[worker].at, s))
  {
    var op, at := w.workers[worker].op, w.workers[worker].at;
    var w' := w.(tables := s.tables);
    match s.result {
      case Raised(_) => LeavingIsSound(g, w', worker);
      case Paused => BecomingIsSound(g, w', worker, Committed(op, at.(interrupted := true)));
      case Advanced(ch) =>
        BecomingIsSound(g, w', worker, Committed(op, Checkpoint(ch, Successor(at.next.value, ch), false)));
    }
  }

  lemma DecidingIsSound(g: Tables, w: World, worker: nat, op: Uuid, view: OperationStates.RecoveryView)
    requires WorldSound(g, w) && ViewSound(w.tables, op, view)
    ensures WorldSound(g, ReadAndDecide(w, worker, op, view)) && ReadAndDecide(w, worker, op, view).tables == w.tables
  {
    var decided := Decide(view, CheckpointOf(w.checkpoints, op));
    if decided.Err? || decided.value.KeepWaiting? || decided.value.NoOp? {
      LeavingIsSound(g, w, worker);
    } else {
      BecomingIsSound(g, w, worker, Decided(op, view, decided.value));
    }
  }

  lemma RebuildingIsSound(g: Tables, w: World, worker: nat, op: Uuid, view: OperationStates.RecoveryView)
    requires WorldSound(g, w) && ViewSound(w.tables, op, view)
    ensures WorldSound(g, Start(w, worker, op, view, RebuildFromBusinessFacts))
  {
    var start := Checkpoint(InitialChannels(view), Some(PrepareApproval), false);
    CheckpointingIsSound(g, w, op, start);
    BecomingIsSound(g, w.(checkpoints := w.checkpoints[op := start]), worker, Running(op, start, None));
  }

  lemma ResumingIsSound(g: Tables, w: World, worker: nat, op: Uuid, resume: Option<ApprovalResume>)
    requires WorldSound(g, w) && op in w.checkpoints && op in w.tables.operations && ResumeSound(w.tables, op, resume)
    ensures WorldSound(g, Become(w, worker, Running(op, w.checkpoints[op], resume)))
  {
    assert CheckpointSound(w.tables, op, w.checkpoints[op]);
    BecomingIsSound(g, w, worker, Running(op, w.checkpoints[op], resume));
  }

  lemma StartingIsSound(g: Tables, w: World, worker: nat, op: Uuid, view: OperationStates.RecoveryView, action: RecoveryAction)
    requires WorldSound(g, w) && ViewSound(w.tables, op, view)
    ensures WorldSound(g, Start(w, worker, op, view, action)) && Start(w, worker, op, view, action).tables == w.tables
  {
    if action.RebuildFromBusinessFacts? {
      RebuildingIsSound(g, w, worker, op, view);
    } else if op !in w.checkpoints || w.checkpoints[op].next.None? || (action.ResumeDecision? && view.approval.None?) {
      LeavingIsSound(g, w, worker);
    } else {
      ResumingIsSound(g, w, worker, op, if action.ResumeDecision? then Some(ResumeOf(view.approval.value)) else None);
    }
  }

  lemma PersistingIsSound(g: Tables, w: World, worker: nat, op: Uuid, after: Checkpoint)
    requires WorldSound(g, w) && CheckpointSound(w.tables, op, after)
    ensures WorldSound(g, Persist(w, worker, op, after)) && Persist(w, worker, op, after).tables == w.tables
  {
    var w' := w.(checkpoints := w.checkpoints[op := after]);
    CheckpointingIsSound(g, w, op, after);
    LeavingIsSound(g, w', worker);
    BecomingIsSound(g, w', worker, Running(op, after, None));
  }

  lemma LoadingIsSound(g: Tables, w: World, worker: nat, op: Uuid)
    requires WorldSound(g, w) && OperationStates.ViewOf(w.tables, op).Ok?
    ensures WorldSound(g, Become(w, worker, Viewed(op, OperationStates.ViewOf(w.tables, op).value)))
  {
    BecomingIsSound(g, w, worker, Viewed(op, OperationStates.ViewOf(w.tables, op).value));
  }

  lemma LosingIsSound(g: Tables, w: World, op: Uuid)
    requires WorldSound(g, w)
    ensures WorldSound(g, w.(checkpoints := w.checkpoints - {op}))
  {
  }

  lemma SubmissionIsSound(g: Tables, w: World, e: Event)
    requires WorldSound(g, w) && (e.Submit? || e.SubmitBound?)
    ensures WorldSound(g, Next(w, e)) && Evolves(w.tables, Next(w, e).tables)
  {
    var call := if e.Submit? then RepositoryRuns.SubmitCall(e.command, e.approvalId)
    else RepositoryRuns.BoundCall(e.command, e.expected, e.approvalId, e.now);
    DisciplinedCallIsSound(g, w.tables, call);
    WorldLasts(g, w, Next(w, e).tables);
  }

  lemma LocalEventIsSound(g: Tables, w: World, e: Event)
    requires WorldSound(g, w) && (e.ReadCheckpoint? || e.StartGraph? || e.WriteCheckpoint?)
    ensures WorldSound(g, Next(w, e)) && Next(w, e).tables == w.tables
  {
    if e.worker in w.workers {
      var x := w.workers[e.worker];
      assert WorkerSound(w.tables, x);
      match e {
        case ReadCheckpoint(worker) => if x.Viewed? { DecidingIsSound(g, w, worker, x.op, x.view); }
        case StartGraph(worker) => if x.Decided? { StartingIsSound(g, w, worker, x.op, x.view, x.action); }
        case WriteCheckpoint(worker) => if x.Committed? { PersistingIsSound(g, w, worker, x.op, x.after); }
      }
    }
  }

  lemma EventIsSound(g: Tables, w: World, e: Event)
    requires WorldSound(g, w)
    ensures WorldSound(g, Next(w, e)) && Evolves(w.tables, Next(w, e).tables)
  {
    EvolvesReflexively(w.tables);
    match e {
      case Submit(_, _) => SubmissionIsSound(g, w, e);
      case SubmitBound(_, _, _, _) => SubmissionIsSound(g, w, e);
      case RunNode(worker, newId) =>
        if worker in w.workers && w.workers[worker].Running? && w.workers[worker].at.next.Some? {
          CommitIsSound(g, w, worker, newId);
        }
      case LoadView(worker, op) =>
        if OperationStates.ViewOf(w.tables, op).Ok? { LoadingIsSound(g, w, worker, op); }
      case Crash(worker) => LeavingIsSound(g, w, worker);
      case LoseCheckpoint(op) => LosingIsSound(g, w, op);
      case _ => LocalEventIsSound(g, w, e);
    }
  }

  lemma {:induction false} RunIsSound(g: Tables, w: World, events: seq<Event>)
    requires WorldSound(g, w)
    ensures WorldSound(g, Run(w, events)) && Evolves(w.tables, Run(w, events).tables)
  {
    if events == [] {
      EvolvesReflexively(w.tables);
    } else {
      var middle := Run(w, events[..|events| - 1]);
      RunIsSound(g, w, events[..|events| - 1]);
      EventIsSound(g, middle, events[|events| - 1]);
      EvolvesTransitively(w.tables, middle.tables, Run(w, events).tables);
    }
  }

  lemma EvolvesTransitively(a: Tables, b: Tables, c: Tables)
    requires Evolves(a, b) && Evolves(b, c)
    ensures Evolves(a, c)
  {
    forall op | op in a.operations ensures Grows(SliceOf(a, op), SliceOf(c, op)) {
      assert Grows(SliceOf(a, op), SliceOf(b, op)) && Grows(SliceOf(b, op), SliceOf(c, op));
    }
  }

  lemma GenesisIsSound(g: Tables)
    requires Genesis(g)
    ensures WorldSound(g, World(g, map[], map[]))
  {
    forall op | op in g.operations ensures SliceSound(op, SliceOf(g, op), SliceOf(g, op)) {
    }
  }

  // ---- Main results --------------------------------------------------------------------------------------

  const APPROVED_LOG: seq<EventKind> :=
    [RequestedKind, RecordedKind, ExecutionKind, CreatedKind, VerificationKind, CompletedKind]

  const REJECTED_LOG: seq<EventKind> := [RequestedKind, RecordedKind, RejectedKind]

  const EXPIRED_LOG: seq<EventKind> := [RequestedKind, ExpiredKind]

  function Kinds(log: seq<AuditEvent>): seq<EventKind> {
    seq(|log|, i requires 0 <= i < |log| => KindOf(log[i]))
  }

  /** Crash transparency. However workers race and crash, an operation's audit trail is what it was
      at the start, continued without gaps by a prefix of a crash-free log, so no event repeats. */
  lemma CrashTransparency(g: Tables, events: seq<Event>, op: Uuid)
    requires Genesis(g) && op in g.operations
    ensures var t := Run(World(g, map[], map[]), events).tables;
            && op in t.operations
            && exists log: seq<AuditEvent> ::
                 && EventsOf(t.auditEvents, op)
                    == EventsOf(g.auditEvents, op) + Numbered(g.operations[op].nextAuditSequence, log)
                 && t.operations[op].nextAuditSequence == g.operations[op].nextAuditSequence + |log|
                 && (Kinds(log) <= APPROVED_LOG || Kinds(log) <= REJECTED_LOG || Kinds(log) <= EXPIRED_LOG)
                 && (t.operations[op].status.Completed? <==> Kinds(log) == APPROVED_LOG)
                 && (t.operations[op].status.Rejected? <==> Kinds(log) == REJECTED_LOG)
                 && (t.operations[op].status.Expired? <==> Kinds(log) == EXPIRED_LOG)
  {
    var w0 := World(g, map[], map[]);
    GenesisIsSound(g);
    RunIsSound(g, w0, events);
    var t := Run(w0, events).tables;
    assert SliceSound(op, SliceOf(g, op), SliceOf(t, op));
    LogIsAPrefix(op, SliceOf(t, op));
    var log := Log(op, SliceOf(t, op));
    assert EventsOf(t.auditEvents, op) == EventsOf(g.auditEvents, op) + Numbered(g.operations[op].nextAuditSequence, log);
  }

  lemma LogIsAPrefix(op: Uuid, s: Slice)
    requires Shape(op, s)
    ensures var kinds := Kinds(Log(op, s));
            && (kinds <= APPROVED_LOG || kinds <= REJECTED_LOG || kinds <= EXPIRED_LOG)
            && (s.row.status.Completed? <==> kinds == APPROVED_LOG)
            && (s.row.status.Rejected? <==> kinds == REJECTED_LOG)
            && (s.row.status.Expired? <==> kinds == EXPIRED_LOG)
  {
    var kinds := Kinds(Log(op, s));
    match s.row.status {
      case Executing =>
        assert kinds[2] == ExecutionKind;
        assert kinds == if s.workOrder.Some? then APPROVED_LOG[..4] else APPROVED_LOG[..3];
      case Verifying => assert kinds == APPROVED_LOG[..5];
      case Completed => assert kinds == APPROVED_LOG;
      case Resuming =>
        assert kinds[1] == RecordedKind;
        assert kinds == APPROVED_LOG[..2];
      case AwaitingApproval => assert kinds == APPROVED_LOG[..1];
      case Rejected => assert kinds == REJECTED_LOG;
      case Expired => assert kinds == EXPIRED_LOG;
      case _ =>
    }
  }

  lemma OrdersAreKeyed(t: Tables, op: Uuid)
    requires RepositoryRuns.OrdersSound(t)
    ensures forall k | k in t.workOrders && t.workOrders[k].operationId == op :: k == IdempotencyKey(op)
  {
    forall k | k in t.workOrders && t.workOrders[k].operationId == op ensures k == IdempotencyKey(op) {
      assert RepositoryRuns.OrderSound(t, k);
    }
  }

  /** Outcome soundness. A completed operation was approved and has one work order, holding the frozen
      payload; a rejected or expired one has none and, in every continuation, never gets one. */
  lemma OutcomeSoundness(g: Tables, events: seq<Event>, more: seq<Event>, op: Uuid)
    requires Genesis(g) && op in g.operations
    ensures var w := Run(World(g, map[], map[]), events);
            var t, later := w.tables, Run(w, more).tables;
            && op in t.operations && op in later.operations
            && t.operations[op].snapshot == g.operations[op].snapshot
            && (t.operations[op].status.Completed? ==>
                  && CurrentApproval(t, op).Some? && CurrentApproval(t, op).value.decision.Approve?
                  && StoredWorkOrder(t, op).Some?
                  && StoredWorkOrder(t, op).value.payload == g.operations[op].snapshot.workOrderPayload
                  && StoredWorkOrder(t, op).value.payloadHash == HashPayload(g.operations[op].snapshot.workOrderPayload)
                  && (forall k | k in t.workOrders && t.workOrders[k].operationId == op :: k == IdempotencyKey(op)))
            && (t.operations[op].status.Rejected? || t.operations[op].status.Expired? ==>
                  forall k | k in later.workOrders :: later.workOrders[k].operationId != op)
            && (t.operations[op].status in TERMINAL ==> SliceOf(later, op) == SliceOf(t, op))
  {
    var w0 := World(g, map[], map[]);
    GenesisIsSound(g);
    RunIsSound(g, w0, events);
    var w := Run(w0, events);
    RunIsSound(g, w, more);
    assert SliceSound(op, SliceOf(g, op), SliceOf(w.tables, op));
    assert Grows(SliceOf(w.tables, op), SliceOf(Run(w, more).tables, op));
    OrdersAreKeyed(w.tables, op);
    OrdersAreKeyed(Run(w, more).tables, op);
  }
}
