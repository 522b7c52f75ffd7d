/** The rows three repositories share, and the slice of them that belongs to one operation. */
module Tables {
  import opened Digests
  import opened Recovery
  import opened Scenarios
  import opened ScenarioRuntime
  import opened Wrappers

  datatype Decision = Approve | Reject

  type Payload = map<string, Json>

  /** The frozen request snapshot. Parts a scenario does not fill in are `None`. */
  datatype OperationSnapshot = OperationSnapshot(
    scenario: Option<ScenarioKind>,
    evidence: Option<Evidence>,
    plan: Option<Plan>,
    storedBinding: Option<ApprovalBinding>,
    workOrderPayload: Payload)

  datatype OperationRow = OperationRow(
    threadId: string,
    status: OperationStatus,
    approvalCycle: nat,
    nextAuditSequence: nat,
    approvalExpiresAt: Option<Instant>,
    snapshot: OperationSnapshot)

  datatype ApprovalRow = ApprovalRow(
    id: Uuid,
    approverId: string,
    decision: Decision,
    reason: string,
    binding: Option<ApprovalBinding>)

  datatype WorkOrderRow = WorkOrderRow(
    id: Uuid,
    operationId: Uuid,
    idempotencyKey: string,
    payload: Payload,
    payloadHash: Digest)

  /** An audit row's type and payload together. */
  datatype AuditEvent =
    | ApprovalRequested(snapshotVersion: int)
    | ApprovalRecorded(approvalId: Uuid, decision: Decision, approvalCycle: nat)
    | ApprovalExpiredEvent(expiresAt: Instant)
    | ExecutionStarted(approvedBy: Uuid)
    | WorkOrderCreated(workOrderId: Uuid, idempotencyKey: string, payloadHash: Digest)
    | VerificationStarted(verifiedOrder: Uuid)
    | OperationCompleted(completedOrder: Uuid)
    | OperationRejected(rejectedBy: Uuid)
    | OtherEvent(name: string)

  datatype EventKind =
    | RequestedKind | RecordedKind | ExpiredKind | ExecutionKind | CreatedKind
    | VerificationKind | CompletedKind | RejectedKind | OtherKind

  function KindOf(event: AuditEvent): EventKind {
    match event
    case ApprovalRequested(_) => RequestedKind
    case ApprovalRecorded(_, _, _) => RecordedKind
    case ApprovalExpiredEvent(_) => ExpiredKind
    case ExecutionStarted(_) => ExecutionKind
    case WorkOrderCreated(_, _, _) => CreatedKind
    case VerificationStarted(_) => VerificationKind
    case OperationCompleted(_) => CompletedKind
    case OperationRejected(_) => RejectedKind
    case OtherEvent(_) => OtherKind
  }

  datatype Entry = Entry(sequence: nat, event: AuditEvent)

  datatype AuditRow = AuditRow(operationId: Uuid, entry: Entry)

  datatype Tables = Tables(
    operations: map<Uuid, OperationRow>,
    approvals: map<(Uuid, nat), ApprovalRow>,
    workOrders: map<string, WorkOrderRow>,
    auditEvents: seq<AuditRow>)

  datatype RepositoryError =
    | OperationNotFound
    | OperationTransitionConflict(current: OperationStatus, target: OperationStatus)
    | RecoveryStateConflict(code: string)
    | InvalidRecoveryFacts
    | WriteNotAuthorized(status: OperationStatus)
    | IdempotencyConflict
    | IntegrityError
    | ApprovalAlreadyDecided
    | ApprovalExpired
    | ApprovalSnapshotMismatch

  /** The effect of one transaction: the tables after it, and what its caller sees. */
  datatype Step<+R> = Step(tables: Tables, reply: Result<R, RepositoryError>)

  function IdempotencyKey(operationId: Uuid): string {
    "work-order:v1:" + operationId
  }

  lemma KeysAreInjective(a: Uuid, b: Uuid)
    requires IdempotencyKey(a) == IdempotencyKey(b)
    ensures a == b
  {
    var prefix := "work-order:v1:";
    assert IdempotencyKey(a)[|prefix|..] == a;
    assert IdempotencyKey(b)[|prefix|..] == b;
  }

  /** The audit trail of one operation, in insertion order. */
  function EventsOf(rows: seq<AuditRow>, operationId: Uuid): seq<Entry> {
    if rows == [] then []
    else
      var last := rows[|rows| - 1];
      EventsOf(rows[..|rows| - 1], operationId) + (if last.operationId == operationId then [last.entry] else [])
  }

  function EntriesOfKind(entries: seq<Entry>, kind: EventKind): seq<Entry> {
    if entries == [] then []
    else
      var last := entries[|entries| - 1];
      EntriesOfKind(entries[..|entries| - 1], kind) + (if KindOf(last.event) == kind then [last] else [])
  }

  lemma EventsOfAppend(rows: seq<AuditRow>, row: AuditRow, operationId: Uuid)
    ensures EventsOf(rows + [row], operationId)
         == EventsOf(rows, operationId) + (if row.operationId == operationId then [row.entry] else [])
  {
    assert (rows + [row])[..|rows|] == rows;
  }

  // ---- One operation's share of the tables ---------------------------------------------------

  /** Everything the kernel can read or write about one operation. */
  datatype Slice = Slice(
    row: OperationRow,
    approval: Option<ApprovalRow>,
    workOrder: Option<WorkOrderRow>,
    events: seq<Entry>)

  function CurrentApproval(t: Tables, op: Uuid): Option<ApprovalRow>
    requires op in t.operations
  {
    var k := (op, t.operations[op].approvalCycle);
    if k in t.approvals then Some(t.approvals[k]) else None
  }

  function StoredWorkOrder(t: Tables, op: Uuid): Option<WorkOrderRow> {
    if IdempotencyKey(op) in t.workOrders then Some(t.workOrders[IdempotencyKey(op)]) else None
  }

  function SliceOf(t: Tables, op: Uuid): Slice
    requires op in t.operations
  {
    Slice(t.operations[op], CurrentApproval(t, op), StoredWorkOrder(t, op), EventsOf(t.auditEvents, op))
  }

  /** Update an operation's row and append the audit event that says so, under one sequence number. */
  function Record(t: Tables, op: Uuid, row: OperationRow, event: AuditEvent): Tables {
    t.(operations := t.operations[op := row.(nextAuditSequence := row.nextAuditSequence + 1)],
    auditEvents := t.auditEvents + [AuditRow(op, Entry(row.nextAuditSequence + 1, event))])
  }
}
