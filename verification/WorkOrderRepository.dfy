/** Effectively-once creation of the one work order an operation may have. */
module WorkOrders {
  import opened Database
  import opened Digests
  import opened Recovery
  import opened Scenarios
  import opened Tables
  import opened Wrappers

  datatype WriteResult = WriteResult(workOrder: WorkOrderRow, replayed: bool)

  const AUTHORIZED: set<OperationStatus> := {Resuming, Executing, Verifying}

  predicate HasOrder(t: Tables, op: Uuid) {
    exists k | k in t.workOrders.Keys :: t.workOrders[k].operationId == op
  }

  function ExistingResult(existing: WorkOrderRow, payloadHash: Digest): Result<WriteResult, RepositoryError> {
    if existing.payloadHash != payloadHash then Err(IdempotencyConflict) else Ok(WriteResult(existing, true))
  }

  /** A second row for the operation under another key would break a unique constraint; the
      fallback lookup by key then finds nothing and the error is raised again. */
  function CreateOrGetStep(t: Tables, op: Uuid, payload: Payload, newId: Uuid): Step<WriteResult> {
    var key := IdempotencyKey(op);
    var hash := HashPayload(payload);
    if op !in t.operations then Step(t, Err(OperationNotFound))
    else if key in t.workOrders then Step(t, ExistingResult(t.workOrders[key], hash))
    else
      var row := t.operations[op];
      var approval := CurrentApproval(t, op);
      if approval.None? || !approval.value.decision.Approve? || row.status !in AUTHORIZED
      then Step(t, Err(WriteNotAuthorized(row.status)))
      else if HasOrder(t, op) then Step(t, Err(IntegrityError))
        else
          var order := WorkOrderRow(newId, op, key, payload, hash);
          Step(Record(t.(workOrders := t.workOrders[key := order]), op, row, WorkOrderCreated(newId, key, hash)),
               Ok(WriteResult(order, false)))
  }

  class WorkOrderRepository {
    const engine: Engine

    constructor (engine: Engine)
      ensures this.engine == engine
    {
      this.engine := engine;
    }

    method CreateOrGet(op: Uuid, payload: Payload, newId: Uuid) returns (reply: Result<WriteResult, RepositoryError>)
      modifies engine
      ensures Step(engine.Snapshot(), reply) == CreateOrGetStep(old(engine.Snapshot()), op, payload, newId)
    {
      var payloadHash := HashPayload(payload);
      var key := IdempotencyKey(op);
      reply := CreateOrGetOnce(op, key, payload, payloadHash, newId);
      if reply == Err(IntegrityError) && key in engine.workOrders {
        reply := ExistingResult(engine.workOrders[key], payloadHash);
      }
    }

    method CreateOrGetOnce(op: Uuid, key: string, payload: Payload, payloadHash: Digest, newId: Uuid)
      returns (reply: Result<WriteResult, RepositoryError>)
      requires key == IdempotencyKey(op) && payloadHash == HashPayload(payload)
      modifies engine
      ensures Step(engine.Snapshot(), reply) == CreateOrGetStep(old(engine.Snapshot()), op, payload, newId)
    {
      if op !in engine.operations {
        return Err(OperationNotFound);
      }
      var row := engine.operations[op];
      if key in engine.workOrders {
        return ExistingResult(engine.workOrders[key], payloadHash);
      }
      var slot := (op, row.approvalCycle);
      var approved := slot in engine.approvals && engine.approvals[slot].decision.Approve?;
      if !approved || row.status !in AUTHORIZED {
        return Err(WriteNotAuthorized(row.status));
      }
      if HasOrder(engine.Snapshot(), op) {
        return Err(IntegrityError);
      }
      var sequence := row.nextAuditSequence + 1;
      var order := WorkOrderRow(newId, op, key, payload, payloadHash);
      engine.workOrders := engine.workOrders[key := order];
      engine.operations := engine.operations[op := row.(nextAuditSequence := sequence)];
      engine.auditEvents := engine.auditEvents + [AuditRow(op, Entry(sequence, WorkOrderCreated(newId, key, payloadHash)))];
      return Ok(WriteResult(order, false));
    }
  }

  // ---- What a request for an order comes to ----------------------------------------------------------------

  /** The operation may write: its current cycle is approved and it is being carried out. */
  predicate MayWrite(t: Tables, op: Uuid)
    requires op in t.operations
  {
    var row := t.operations[op];
    && (op, row.approvalCycle) in t.approvals && t.approvals[(op, row.approvalCycle)].decision.Approve?
    && (row.status.Resuming? || row.status.Executing? || row.status.Verifying?)
  }

  /** One order, numbered and recorded; no status and no approval changes. */
  predicate Writes(t: Tables, op: Uuid, payload: Payload, newId: Uuid, s: Step<WriteResult>)
    requires op in t.operations
  {
    var row, key := t.operations[op], IdempotencyKey(op);
    var order := WorkOrderRow(newId, op, key, payload, HashPayload(payload));
    && s.reply == Ok(WriteResult(order, false))
    && s.tables.workOrders == t.workOrders[key := order] && s.tables.approvals == t.approvals
    && s.tables.operations == t.operations[op := row.(nextAuditSequence := row.nextAuditSequence + 1)]
    && s.tables.auditEvents
       == t.auditEvents + [AuditRow(op, Entry(row.nextAuditSequence + 1, WorkOrderCreated(newId, key, HashPayload(payload))))]
  }

  /** A first request is written exactly if the operation may write; any later one returns the stored order exactly if
      it asks for the same payload, whatever the status; everything else is refused and changes nothing. */
  lemma OrdersAreCreatedExactly(t: Tables, op: Uuid, payload: Payload, newId: Uuid)
    requires op in t.operations
    requires forall k | k in t.workOrders :: t.workOrders[k].operationId == op ==> k == IdempotencyKey(op)
    ensures var s, key := CreateOrGetStep(t, op, payload, newId), IdempotencyKey(op);
            if key in t.workOrders
            then s.tables == t
                 && s.reply == (if t.workOrders[key].payloadHash == HashPayload(payload) then Ok(WriteResult(t.workOrders[key], true))
                                else Err(IdempotencyConflict))
            else if MayWrite(t, op) then Writes(t, op, payload, newId, s)
              else s == Step(t, Err(WriteNotAuthorized(t.operations[op].status)))
  {
  }
}
