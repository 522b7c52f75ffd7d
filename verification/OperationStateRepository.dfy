/** Status transitions of an operation, each recorded once in the audit trail. */
module OperationStates {
  import opened Database
  import opened Digests
  import opened Recovery
  import opened Scenarios
  import opened Tables
  import opened Wrappers

  datatype TransitionResult = TransitionResult(status: OperationStatus, changed: bool, auditSequence: Option<nat>)

  datatype RecoveryView = RecoveryView(
    operationId: Uuid,
    threadId: string,
    status: OperationStatus,
    snapshot: OperationSnapshot,
    approval: Option<ApprovalRow>,
    workOrder: Option<WorkOrderRow>)

  /** The five named transitions. */
  datatype Mark =
    | MarkAwaitingApproval
    | MarkExecuting(approvalId: Uuid)
    | MarkVerifying(workOrderId: Uuid)
    | MarkCompleted(workOrderId: Uuid)
    | MarkRejected(approvalId: Uuid)
  {
    function Source(): OperationStatus {
      match this
      case MarkAwaitingApproval => Received
      case MarkExecuting(_) => Resuming
      case MarkVerifying(_) => Executing
      case MarkCompleted(_) => Verifying
      case MarkRejected(_) => Resuming
    }

    function Target(): OperationStatus {
      match this
      case MarkAwaitingApproval => AwaitingApproval
      case MarkExecuting(_) => Executing
      case MarkVerifying(_) => Verifying
      case MarkCompleted(_) => Completed
      case MarkRejected(_) => Rejected
    }

    function Event(): AuditEvent {
      match this
      case MarkAwaitingApproval => ApprovalRequested(1)
      case MarkExecuting(id) => ExecutionStarted(id)
      case MarkVerifying(id) => VerificationStarted(id)
      case MarkCompleted(id) => OperationCompleted(id)
      case MarkRejected(id) => OperationRejected(id)
    }
  }

  function TransitionStep(t: Tables, op: Uuid, allowed: set<OperationStatus>, target: OperationStatus, event: AuditEvent)
    : Step<TransitionResult>
  {
    if op !in t.operations then Step(t, Err(OperationNotFound)) else
    var row := t.operations[op];
    if row.status == target then
      var matching := EntriesOfKind(EventsOf(t.auditEvents, op), KindOf(event));
      if |matching| != 1 || matching[0].event != event
      then Step(t, Err(RecoveryStateConflict("target_state_event_mismatch")))
      else Step(t, Ok(TransitionResult(target, false, None)))
    else if row.status !in allowed then Step(t, Err(OperationTransitionConflict(row.status, target)))
    else
      var cycle := if target.AwaitingApproval? then 1 else row.approvalCycle;
      Step(Record(t, op, row.(status := target, approvalCycle := cycle), event),
           Ok(TransitionResult(target, true, Some(row.nextAuditSequence + 1))))
  }

  function MarkStep(t: Tables, op: Uuid, mark: Mark): Step<TransitionResult> {
    TransitionStep(t, op, {mark.Source()}, mark.Target(), mark.Event())
  }

  /** One approval of the current cycle and one work order are joined to the operation. */
  function ViewOf(t: Tables, op: Uuid): Result<RecoveryView, RepositoryError> {
    if op !in t.operations then Err(OperationNotFound) else
    var row := t.operations[op];
    if row.threadId != op then Err(RecoveryStateConflict("thread_id_mismatch"))
    else Ok(RecoveryView(op, row.threadId, row.status, row.snapshot, CurrentApproval(t, op), StoredWorkOrder(t, op)))
  }

  class OperationStateRepository {
    const engine: Engine

    constructor (engine: Engine)
      ensures this.engine == engine
    {
      this.engine := engine;
    }

    method LoadRecoveryView(op: Uuid) returns (view: Result<RecoveryView, RepositoryError>)
      ensures view == ViewOf(engine.Snapshot(), op)
    {
      if op !in engine.operations {
        return Err(OperationNotFound);
      }
      var row := engine.operations[op];
      if row.threadId != op {
        return Err(RecoveryStateConflict("thread_id_mismatch"));
      }
      var approval := None;
      if (op, row.approvalCycle) in engine.approvals {
        approval := Some(engine.approvals[(op, row.approvalCycle)]);
      }
      var workOrder := None;
      if IdempotencyKey(op) in engine.workOrders {
        workOrder := Some(engine.workOrders[IdempotencyKey(op)]);
      }
      return Ok(RecoveryView(op, row.threadId, row.status, row.snapshot, approval, workOrder));
    }

    method MarkAwaitingApproval(op: Uuid) returns (reply: Result<TransitionResult, RepositoryError>)
      modifies engine
      ensures Step(engine.Snapshot(), reply) == MarkStep(old(engine.Snapshot()), op, Mark.MarkAwaitingApproval)
    {
      reply := Transition(op, {Received}, AwaitingApproval, ApprovalRequested(1));
    }

    method MarkExecuting(op: Uuid, approvalId: Uuid) returns (reply: Result<TransitionResult, RepositoryError>)
      modifies engine
      ensures Step(engine.Snapshot(), reply) == MarkStep(old(engine.Snapshot()), op, Mark.MarkExecuting(approvalId))
    {
      reply := Transition(op, {Resuming}, Executing, ExecutionStarted(approvalId));
    }

    method MarkVerifying(op: Uuid, workOrderId: Uuid) returns (reply: Result<TransitionResult, RepositoryError>)
      modifies engine
      ensures Step(engine.Snapshot(), reply) == MarkStep(old(engine.Snapshot()), op, Mark.MarkVerifying(workOrderId))
    {
      reply := Transition(op, {Executing}, Verifying, VerificationStarted(workOrderId));
    }

    method MarkCompleted(op: Uuid, workOrderId: Uuid) returns (reply: Result<TransitionResult, RepositoryError>)
      modifies engine
      ensures Step(engine.Snapshot(), reply) == MarkStep(old(engine.Snapshot()), op, Mark.MarkCompleted(workOrderId))
    {
      reply := Transition(op, {Verifying}, Completed, OperationCompleted(workOrderId));
    }

    method MarkRejected(op: Uuid, approvalId: Uuid) returns (reply: Result<TransitionResult, RepositoryError>)
      modifies engine
      ensures Step(engine.Snapshot(), reply) == MarkStep(old(engine.Snapshot()), op, Mark.MarkRejected(approvalId))
    {
      reply := Transition(op, {Resuming}, Rejected, OperationRejected(approvalId));
    }

    method Transition(op: Uuid, allowed: set<OperationStatus>, target: OperationStatus, event: AuditEvent)
      returns (reply: Result<TransitionResult, RepositoryError>)
      modifies engine
      ensures Step(engine.Snapshot(), reply)
           == TransitionStep(old(engine.Snapshot()), op, allowed, target, event)
    {
      if op !in engine.operations {
        return Err(OperationNotFound);
      }
      var row := engine.operations[op];
      if row.status == target {
        var matching := EntriesOfKind(EventsOf(engine.auditEvents, op), KindOf(event));
        if |matching| != 1 || matching[0].event != event {
          return Err(RecoveryStateConflict("target_state_event_mismatch"));
        }
        return Ok(TransitionResult(target, false, None));
      }
      if row.status !in allowed {
        return Err(OperationTransitionConflict(row.status, target));
      }
      var sequence := row.nextAuditSequence + 1;
      var values := row.(status := target, nextAuditSequence := sequence);
      if target.AwaitingApproval? {
        values := values.(approvalCycle := 1);
      }
      engine.operations := engine.operations[op := values];
      engine.auditEvents := engine.auditEvents + [AuditRow(op, Entry(sequence, event))];
      return Ok(TransitionResult(target, true, Some(sequence)));
    }
  }

  // ---- What a transition comes to ------------------------------------------------------------------------------

  /** Entry `i` is this event, and no other is of its kind. */
  predicate IsOnly(entries: seq<Entry>, i: int, event: AuditEvent) {
    && 0 <= i < |entries| && entries[i].event == event
    && forall j | 0 <= j < |entries| && j != i :: KindOf(entries[j].event) != KindOf(event)
  }

  predicate OnlyOne(entries: seq<Entry>, event: AuditEvent) {
    exists i :: 0 <= i < |entries| && IsOnly(entries, i, event)
  }

  lemma {:induction false} OneOfKind(entries: seq<Entry>, kind: EventKind, i: nat)
    requires i < |entries|
    requires forall j | 0 <= j < |entries| :: KindOf(entries[j].event) == kind <==> j == i
    ensures EntriesOfKind(entries, kind) == [entries[i]]
  {
    var n := |entries| - 1;
    if i == n {
      NoneOfKind(entries[..n], kind);
    } else {
      OneOfKind(entries[..n], kind, i);
    }
  }

  lemma {:induction false} NoneOfKind(entries: seq<Entry>, kind: EventKind)
    requires forall j | 0 <= j < |entries| :: KindOf(entries[j].event) != kind
    ensures EntriesOfKind(entries, kind) == []
  {
    if entries != [] {
      NoneOfKind(entries[..|entries| - 1], kind);
    }
  }

  /** The converse: what is listed alone is the only one of its kind. */
  lemma {:induction false} ListedAlone(entries: seq<Entry>, event: AuditEvent) returns (i: nat)
    requires |EntriesOfKind(entries, KindOf(event))| == 1 && EntriesOfKind(entries, KindOf(event))[0].event == event
    ensures IsOnly(entries, i, event)
  {
    var n, kind := |entries| - 1, KindOf(event);
    if KindOf(entries[n].event) == kind {
      i := n;
      NothingIsListed(entries[..n], kind);
      assert forall j | 0 <= j < n :: entries[..n][j] == entries[j];
    } else {
      i := ListedAlone(entries[..n], event);
      assert forall j | 0 <= j < n :: entries[..n][j] == entries[j];
    }
  }

  lemma {:induction false} NothingIsListed(entries: seq<Entry>, kind: EventKind)
    requires EntriesOfKind(entries, kind) == []
    ensures forall i | 0 <= i < |entries| :: KindOf(entries[i].event) != kind
  {
    if entries != [] {
      NothingIsListed(entries[..|entries| - 1], kind);
    }
  }

  lemma OneIsListed(entries: seq<Entry>, event: AuditEvent)
    ensures var listed := EntriesOfKind(entries, KindOf(event)); |listed| == 1 && listed[0].event == event <==> OnlyOne(entries, event)
  {
    var listed := EntriesOfKind(entries, KindOf(event));
    if |listed| == 1 && listed[0].event == event {
      var i := ListedAlone(entries, event);
    }
    if OnlyOne(entries, event) {
      var i: nat :| i < |entries| && IsOnly(entries, i, event);
      OneOfKind(entries, KindOf(event), i);
    }
  }

  /** The status a transition starts from, the one it leads to, and the event it leaves. */
  predicate Leads(mark: Mark, source: OperationStatus, target: OperationStatus, event: AuditEvent) {
    match mark
    case MarkAwaitingApproval => source.Received? && target.AwaitingApproval? && event == ApprovalRequested(1)
    case MarkExecuting(id) => source.Resuming? && target.Executing? && event == ExecutionStarted(id)
    case MarkVerifying(id) => source.Executing? && target.Verifying? && event == VerificationStarted(id)
    case MarkCompleted(id) => source.Verifying? && target.Completed? && event == OperationCompleted(id)
    case MarkRejected(id) => source.Resuming? && target.Rejected? && event == OperationRejected(id)
  }

  /** Row, number and event change together; a first request for approval opens the first cycle. */
  predicate MovesOn(t: Tables, op: Uuid, target: OperationStatus, event: AuditEvent, s: Step<TransitionResult>)
    requires op in t.operations
  {
    var row := t.operations[op];
    var number, cycle := row.nextAuditSequence + 1, if target.AwaitingApproval? then 1 else row.approvalCycle;
    && s.reply == Ok(TransitionResult(target, true, Some(number)))
    && s.tables == Tables(t.operations[op := row.(status := target, nextAuditSequence := number, approvalCycle := cycle)],
                          t.approvals, t.workOrders, t.auditEvents + [AuditRow(op, Entry(number, event))])
  }

  /** A transition moves on from its source, is repeated in its target exactly if the trail holds just its own event,
      and is otherwise refused; only moving on changes anything. */
  lemma MarksChangeExactly(t: Tables, op: Uuid, mark: Mark, source: OperationStatus, target: OperationStatus, event: AuditEvent)
    requires op in t.operations && Leads(mark, source, target, event)
    ensures var s, status := MarkStep(t, op, mark), t.operations[op].status;
            if status == source then MovesOn(t, op, target, event, s)
            else if status != target then s == Step(t, Err(OperationTransitionConflict(status, target)))
            else if OnlyOne(EventsOf(t.auditEvents, op), event) then s == Step(t, Ok(TransitionResult(target, false, None)))
            else s == Step(t, Err(RecoveryStateConflict("target_state_event_mismatch")))
  {
    OneIsListed(EventsOf(t.auditEvents, op), event);
  }
}
