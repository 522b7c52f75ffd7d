/** Human decisions: at most one per operation and approval cycle. */
module Approvals {
  import opened Database
  import opened Digests
  import opened Recovery
  import opened ScenarioRuntime
  import opened Scenarios
  import opened Tables
  import opened Wrappers

  datatype ApprovalCommand = ApprovalCommand(operationId: Uuid, approverId: string, decision: Decision, reason: string)

  datatype ApprovalRecord = ApprovalRecord(id: Uuid, command: ApprovalCommand, approvalCycle: nat)

  const OPEN: set<OperationStatus> := {AwaitingApproval, NeedsReapproval}

  /** The stored binding, provided it is the one rebuilt from the stored evidence and plan. */
  function CurrentBinding(snapshot: OperationSnapshot): Option<ApprovalBinding> {
    if snapshot.storedBinding.None? || snapshot.scenario.None? || snapshot.evidence.None? || snapshot.plan.None? then None
    else if !snapshot.evidence.value.Valid() || KindOfEvidence(snapshot.evidence.value) != snapshot.scenario.value then None
    else if BuildBinding(snapshot.evidence.value, snapshot.plan.value) != snapshot.storedBinding then None
    else snapshot.storedBinding
  }

  predicate AlreadyDecided(t: Tables, op: Uuid)
    requires op in t.operations
  {
    CurrentApproval(t, op).Some? || t.operations[op].status !in OPEN
  }

  function Accept(t: Tables, command: ApprovalCommand, newId: Uuid, binding: Option<ApprovalBinding>): Step<ApprovalRecord>
    requires command.operationId in t.operations
  {
    var op := command.operationId;
    var row := t.operations[op];
    var approval := ApprovalRow(newId, command.approverId, command.decision, command.reason, binding);
    Step(Record(t.(approvals := t.approvals[(op, row.approvalCycle) := approval]), op, row.(status := Resuming),
                ApprovalRecorded(newId, command.decision, row.approvalCycle)),
         Ok(ApprovalRecord(newId, command, row.approvalCycle)))
  }

  function SubmitOnceStep(t: Tables, command: ApprovalCommand, newId: Uuid): Step<ApprovalRecord> {
    if command.operationId !in t.operations then Step(t, Err(OperationNotFound))
    else if AlreadyDecided(t, command.operationId) then Step(t, Err(ApprovalAlreadyDecided))
    else Accept(t, command, newId, None)
  }

  /** Expiry is committed before it is raised; every other error leaves no trace. */
  function SubmitBoundStep(t: Tables, command: ApprovalCommand, expected: ApprovalBinding, newId: Uuid, now: Instant)
    : Step<ApprovalRecord>
  {
    var op := command.operationId;
    if op !in t.operations then Step(t, Err(OperationNotFound))
    else if AlreadyDecided(t, op) then Step(t, Err(ApprovalAlreadyDecided))
    else
      var row := t.operations[op];
      if row.approvalExpiresAt.None? then Step(t, Err(RecoveryStateConflict("approval_expiry_missing")))
      else if now >= row.approvalExpiresAt.value
      then Step(Record(t, op, row.(status := Expired), ApprovalExpiredEvent(row.approvalExpiresAt.value)), Err(ApprovalExpired))
      else if CurrentBinding(row.snapshot) != Some(expected) then Step(t, Err(ApprovalSnapshotMismatch))
        else Accept(t, command, newId, Some(expected))
  }

  class ApprovalRepository {
    const engine: Engine

    constructor (engine: Engine)
      ensures this.engine == engine
    {
      this.engine := engine;
    }

    method SubmitOnce(command: ApprovalCommand, newId: Uuid) returns (reply: Result<ApprovalRecord, RepositoryError>)
      modifies engine
      ensures Step(engine.Snapshot(), reply) == SubmitOnceStep(old(engine.Snapshot()), command, newId)
    {
      var op := command.operationId;
      if op !in engine.operations {
        return Err(OperationNotFound);
      }
      var row := engine.operations[op];
      var cycle := row.approvalCycle;
      if (op, cycle) in engine.approvals || row.status !in OPEN {
        return Err(ApprovalAlreadyDecided);
      }
      var sequence := row.nextAuditSequence + 1;
      engine.approvals := engine.approvals[(op, cycle) :=
        ApprovalRow(newId, command.approverId, command.decision, command.reason, None)];
      engine.operations := engine.operations[op := row.(status := Resuming, nextAuditSequence := sequence)];
      engine.auditEvents := engine.auditEvents
      + [AuditRow(op, Entry(sequence, ApprovalRecorded(newId, command.decision, cycle)))];
      return Ok(ApprovalRecord(newId, command, cycle));
    }

    method SubmitBoundOnce(command: ApprovalCommand, expected: ApprovalBinding, newId: Uuid, now: Instant)
      returns (reply: Result<ApprovalRecord, RepositoryError>)
      modifies engine
      ensures Step(engine.Snapshot(), reply)
           == SubmitBoundStep(old(engine.Snapshot()), command, expected, newId, now)
    {
      var op := command.operationId;
      if op !in engine.operations {
        return Err(OperationNotFound);
      }
      var row := engine.operations[op];
      var cycle := row.approvalCycle;
      if (op, cycle) in engine.approvals || row.status !in OPEN {
        return Err(ApprovalAlreadyDecided);
      }
      if row.approvalExpiresAt.None? {
        return Err(RecoveryStateConflict("approval_expiry_missing"));
      }
      var sequence := row.nextAuditSequence + 1;
      if now >= row.approvalExpiresAt.value {
        engine.operations := engine.operations[op := row.(status := Expired, nextAuditSequence := sequence)];
        engine.auditEvents := engine.auditEvents
        + [AuditRow(op, Entry(sequence, ApprovalExpiredEvent(row.approvalExpiresAt.value)))];
        return Err(ApprovalExpired);
      }
      var current := CurrentBinding(row.snapshot);
      if current != Some(expected) {
        return Err(ApprovalSnapshotMismatch);
      }
      engine.approvals := engine.approvals[(op, cycle) :=
        ApprovalRow(newId, command.approverId, command.decision, command.reason, current)];
      engine.operations := engine.operations[op := row.(status := Resuming, nextAuditSequence := sequence)];
      engine.auditEvents := engine.auditEvents
      + [AuditRow(op, Entry(sequence, ApprovalRecorded(newId, command.decision, cycle)))];
      return Ok(ApprovalRecord(newId, command, cycle));
    }
  }

  // ---- What a submission comes to ------------------------------------------------------------------------

  /** The frozen snapshot still stands behind the binding the human saw. */
  predicate Confirms(snapshot: OperationSnapshot, expected: ApprovalBinding) {
    && snapshot.storedBinding == Some(expected)
    && snapshot.scenario.Some? && snapshot.evidence.Some? && snapshot.plan.Some?
    && snapshot.evidence.value.Valid() && KindOfEvidence(snapshot.evidence.value) == snapshot.scenario.value
    && BuildBinding(snapshot.evidence.value, snapshot.plan.value) == Some(expected)
  }

  /** The operation waits for a human and nobody has decided its current cycle. */
  predicate Undecided(t: Tables, op: Uuid)
    requires op in t.operations
  {
    && (op, t.operations[op].approvalCycle) !in t.approvals
    && (t.operations[op].status.AwaitingApproval? || t.operations[op].status.NeedsReapproval?)
  }

  /** Nothing of any other operation, no other approval and no order is touched; this operation gets a status and
      one audit event under its next number. */
  predicate Moved(t: Tables, t': Tables, op: Uuid, status: OperationStatus, event: AuditEvent)
    requires op in t.operations
  {
    var row := t.operations[op];
    && t'.operations == t.operations[op := row.(status := status, nextAuditSequence := row.nextAuditSequence + 1)]
    && t'.auditEvents == t.auditEvents + [AuditRow(op, Entry(row.nextAuditSequence + 1, event))]
    && t'.workOrders == t.workOrders
  }

  /** The decision is stored under the current cycle with who, why and for which binding. */
  predicate Decides(t: Tables, command: ApprovalCommand, binding: Option<ApprovalBinding>, newId: Uuid, s: Step<ApprovalRecord>)
    requires command.operationId in t.operations
  {
    var op, cycle := command.operationId, t.operations[command.operationId].approvalCycle;
    && s.reply == Ok(ApprovalRecord(newId, command, cycle))
    && Moved(t, s.tables, op, Resuming, ApprovalRecorded(newId, command.decision, cycle))
    && s.tables.approvals == t.approvals[(op, cycle) := ApprovalRow(newId, command.approverId, command.decision, command.reason, binding)]
  }

  predicate Expires(t: Tables, op: Uuid, deadline: Instant, s: Step<ApprovalRecord>)
    requires op in t.operations
  {
    s.reply == Err(ApprovalExpired) && Moved(t, s.tables, op, Expired, ApprovalExpiredEvent(deadline)) && s.tables.approvals == t.approvals
  }

  /** What becomes of an answer to an open question with a deadline: in time and for the binding that still stands it
      is recorded; late, it expires the operation; otherwise it is refused and nothing changes. */
  lemma BoundSubmissionsDecideExactly(t: Tables, command: ApprovalCommand, expected: ApprovalBinding, newId: Uuid, now: Instant)
    requires command.operationId in t.operations && Undecided(t, command.operationId)
    requires t.operations[command.operationId].approvalExpiresAt.Some?
    ensures var row, s := t.operations[command.operationId], SubmitBoundStep(t, command, expected, newId, now);
            var deadline := row.approvalExpiresAt.value;
            && (s.reply.Ok? <==> now < deadline && Confirms(row.snapshot, expected))
            && (s.reply.Ok? ==> Decides(t, command, Some(expected), newId, s))
            && (s.reply == Err(ApprovalExpired) <==> deadline <= now)
            && (s.reply == Err(ApprovalExpired) ==> Expires(t, command.operationId, deadline, s))
            && (s == Step(t, Err(ApprovalSnapshotMismatch)) <==> now < deadline && !Confirms(row.snapshot, expected))
  {
  }

  /** Without a deadline a bound answer is an inconsistency; for a decided question both kinds of answer come too
      late; an unbound answer to an open one is recorded. */
  lemma OtherSubmissionsExactly(t: Tables, command: ApprovalCommand, expected: ApprovalBinding, newId: Uuid, now: Instant)
    ensures var op := command.operationId;
            var bound, unbound := SubmitBoundStep(t, command, expected, newId, now), SubmitOnceStep(t, command, newId);
            && (bound == Step(t, Err(OperationNotFound)) <==> op !in t.operations)
            && (unbound == Step(t, Err(OperationNotFound)) <==> op !in t.operations)
            && (op in t.operations ==>
                  && (bound == Step(t, Err(ApprovalAlreadyDecided)) <==> !Undecided(t, op))
                  && (unbound == Step(t, Err(ApprovalAlreadyDecided)) <==> !Undecided(t, op))
                  && (unbound.reply.Ok? <==> Undecided(t, op))
                  && (unbound.reply.Ok? ==> Decides(t, command, None, newId, unbound))
                  && (bound == Step(t, Err(RecoveryStateConflict("approval_expiry_missing")))
                      <==> Undecided(t, op) && t.operations[op].approvalExpiresAt.None?))
  {
  }
}
