/** What the three repositories guarantee under any sequence of calls, by any callers, on any
    operations. Every call is one locked transaction, so a run is a sequence of calls. */
module RepositoryRuns {
  import opened Approvals
  import opened Digests
  import opened OperationStates
  import opened Recovery
  import opened Scenarios
  import ScenarioRuntime
  import opened Tables
  import opened WorkOrders
  import opened Wrappers

  datatype Call =
    | MarkCall(op: Uuid, mark: Mark)
    | SubmitCall(command: ApprovalCommand, approvalId: Uuid)
    | BoundCall(command: ApprovalCommand, expected: ApprovalBinding, approvalId: Uuid, now: Instant)
    | WriteCall(op: Uuid, payload: Payload, orderId: Uuid)
  {
    function Subject(): Uuid {
      match this
      case MarkCall(o, _) => o
      case SubmitCall(c, _) => c.operationId
      case BoundCall(c, _, _, _) => c.operationId
      case WriteCall(o, _, _) => o
    }
  }

  datatype Reply =
    | MarkReply(transition: Result<TransitionResult, RepositoryError>)
    | ApprovalReply(approval: Result<ApprovalRecord, RepositoryError>)
    | WriteReply(write: Result<WriteResult, RepositoryError>)

  datatype Outcome = Outcome(tables: Tables, reply: Reply)

  function Apply(t: Tables, call: Call): Outcome {
    match call
    case MarkCall(op, mark) => var s := MarkStep(t, op, mark); Outcome(s.tables, MarkReply(s.reply))
    case SubmitCall(c, id) => var s := SubmitOnceStep(t, c, id); Outcome(s.tables, ApprovalReply(s.reply))
    case BoundCall(c, b, id, now) => var s := SubmitBoundStep(t, c, b, id, now); Outcome(s.tables, ApprovalReply(s.reply))
    case WriteCall(op, p, id) => var s := CreateOrGetStep(t, op, p, id); Outcome(s.tables, WriteReply(s.reply))
  }

  function Final(t: Tables, calls: seq<Call>): Tables {
    if calls == [] then t else Apply(Final(t, calls[..|calls| - 1]), calls[|calls| - 1]).tables
  }

  function ReplyTo(t: Tables, calls: seq<Call>, i: nat): Reply
    requires i < |calls|
  {
    Apply(Final(t, calls[..i]), calls[i]).reply
  }

  // ---- Rollback and audit numbering ------------------------------------------------------------

  /** Replies that promise their caller nothing was written. */
  predicate Silent(reply: Reply) {
    match reply
    case MarkReply(r) => r.Err? || !r.value.changed
    case ApprovalReply(r) => r.Err? && !r.error.ApprovalExpired?
    case WriteReply(r) => r.Err? || r.value.replayed
  }

  /** A call leaves every table untouched exactly when its reply says so. */
  lemma OnlySilentCallsChangeNothing(t: Tables, call: Call)
    ensures Silent(Apply(t, call).reply) <==> Apply(t, call).tables == t
    ensures Apply(t, call).tables.operations.Keys == t.operations.Keys
  {
    if !Silent(Apply(t, call).reply) {
      assert |Apply(t, call).tables.auditEvents| == |t.auditEvents| + 1;
    }
  }

  /** `later` continues the audit trail of `op` in `earlier` with consecutive numbers, ending at its counter. */
  ghost predicate Continues(earlier: Tables, later: Tables, op: Uuid) {
    && op in earlier.operations && op in later.operations
    && var before, after := EventsOf(earlier.auditEvents, op), EventsOf(later.auditEvents, op);
    && |before| <= |after|
    && after[..|before|] == before
    && later.operations[op].nextAuditSequence == earlier.operations[op].nextAuditSequence + |after| - |before|
    && forall i | |before| <= i < |after| ::
         after[i].sequence == earlier.operations[op].nextAuditSequence + 1 + i - |before|
  }

  /** The shape of every call that writes: one operation's row, one audit row, and at most one new
      approval or work order, never over an old one. */
  ghost predicate Writes(t: Tables, t': Tables, subject: Uuid) {
    && subject in t.operations && subject in t'.operations
    && var old_, new_ := t.operations[subject], t'.operations[subject];
    && t'.operations == t.operations[subject := new_]
    && new_.nextAuditSequence == old_.nextAuditSequence + 1
    && new_.snapshot == old_.snapshot
    && |t'.auditEvents| == |t.auditEvents| + 1
    && t'.auditEvents[..|t.auditEvents|] == t.auditEvents
    && t'.auditEvents[|t.auditEvents|].operationId == subject
    && t'.auditEvents[|t.auditEvents|].entry.sequence == old_.nextAuditSequence + 1
    && var slot, key := (subject, old_.approvalCycle), IdempotencyKey(subject);
    && (t'.approvals == t.approvals
        || (slot !in t.approvals && slot in t'.approvals && t'.approvals == t.approvals[slot := t'.approvals[slot]]))
    && (t'.workOrders == t.workOrders
        || (key !in t.workOrders && key in t'.workOrders && t'.workOrders == t.workOrders[key := t'.workOrders[key]]))
  }

  lemma LoudCallsWrite(t: Tables, call: Call)
    requires !Silent(Apply(t, call).reply)
    ensures Writes(t, Apply(t, call).tables, call.Subject())
  {
  }

  lemma WritesContinue(t: Tables, t': Tables, subject: Uuid, op: Uuid)
    requires op in t.operations && Writes(t, t', subject)
    ensures Continues(t, t', op)
    ensures subject != op ==> SliceOf(t', op) == SliceOf(t, op)
  {
    EventsOfAppend(t.auditEvents, t'.auditEvents[|t.auditEvents|], op);
    assert t'.auditEvents == t.auditEvents + [t'.auditEvents[|t.auditEvents|]];
    if subject != op && IdempotencyKey(subject) == IdempotencyKey(op) {
      KeysAreInjective(subject, op);
    }
  }

  lemma CallContinues(t: Tables, call: Call, op: Uuid)
    requires op in t.operations
    ensures Continues(t, Apply(t, call).tables, op)
    ensures call.Subject() != op ==> SliceOf(Apply(t, call).tables, op) == SliceOf(t, op)
  {
    if Silent(Apply(t, call).reply) {
      OnlySilentCallsChangeNothing(t, call);
    } else {
      LoudCallsWrite(t, call);
      WritesContinue(t, Apply(t, call).tables, call.Subject(), op);
    }
  }

  /** Audit numbers added by any interleaving of calls have no gap and no repeat. */
  lemma {:induction false} AuditNumbering(t: Tables, calls: seq<Call>, op: Uuid)
    requires op in t.operations
    ensures Continues(t, Final(t, calls), op)
  {
    if calls != [] {
      var n := |calls| - 1;
      AuditNumbering(t, calls[..n], op);
      CallContinues(Final(t, calls[..n]), calls[n], op);
      ContinuesTransitively(t, Final(t, calls[..n]), Final(t, calls), op);
    }
  }

  lemma ContinuesTransitively(a: Tables, b: Tables, c: Tables, op: Uuid)
    requires Continues(a, b, op) && Continues(b, c, op)
    ensures Continues(a, c, op)
  {
    var x, y, z := EventsOf(a.auditEvents, op), EventsOf(b.auditEvents, op), EventsOf(c.auditEvents, op);
    assert z[..|x|] == z[..|y|][..|x|];
    assert forall i | |x| <= i < |y| :: z[i] == z[..|y|][i];
  }

  // ---- Effectively-once writes -------------------------------------------------------------------

  const DECIDED: set<OperationStatus> := {Resuming, Executing, Verifying, Completed, Rejected}

  predicate OrderSound(t: Tables, k: string)
    requires k in t.workOrders
  {
    var row := t.workOrders[k];
    && k == row.idempotencyKey == IdempotencyKey(row.operationId)
    && row.payloadHash == HashPayload(row.payload)
    && row.operationId in t.operations
    && t.operations[row.operationId].status in DECIDED
    && CurrentApproval(t, row.operationId).Some?
    && CurrentApproval(t, row.operationId).value.decision.Approve?
  }

  /** Every row sits under its own operation's key and was approved in that operation's current cycle. */
  ghost predicate OrdersSound(t: Tables) {
    forall k {:trigger OrderSound(t, k)} | k in t.workOrders :: OrderSound(t, k)
  }

  lemma CallKeepsOrder(t: Tables, call: Call, k: string)
    requires k in t.workOrders && OrderSound(t, k)
    ensures var t' := Apply(t, call).tables;
            k in t'.workOrders && t'.workOrders[k] == t.workOrders[k] && OrderSound(t', k)
  {
    if Silent(Apply(t, call).reply) {
      OnlySilentCallsChangeNothing(t, call);
    } else {
      LoudCallsWrite(t, call);
      var op := t.workOrders[k].operationId;
      if call.Subject() != op {
        WritesContinue(t, Apply(t, call).tables, call.Subject(), op);
      }
    }
  }

  lemma NewOrderIsSound(t: Tables, call: Call, k: string)
    requires k !in t.workOrders && k in Apply(t, call).tables.workOrders
    ensures OrderSound(Apply(t, call).tables, k)
  {
  }

  lemma CallKeepsOrders(t: Tables, call: Call)
    requires OrdersSound(t)
    ensures var t' := Apply(t, call).tables;
            && OrdersSound(t')
            && (forall k | k in t.workOrders :: k in t'.workOrders && t'.workOrders[k] == t.workOrders[k])
  {
    var t' := Apply(t, call).tables;
    forall k | k in t.workOrders ensures k in t'.workOrders && t'.workOrders[k] == t.workOrders[k] {
      CallKeepsOrder(t, call, k);
    }
    forall k | k in t'.workOrders ensures OrderSound(t', k) {
      if k in t.workOrders { CallKeepsOrder(t, call, k); } else { NewOrderIsSound(t, call, k); }
    }
  }

  /** How many calls in a run reported a fresh write (not a replay) for `op`. */
  function FreshWrites(t: Tables, calls: seq<Call>, op: Uuid): nat {
    if calls == [] then 0
    else
      var n := |calls| - 1;
      var reply := ReplyTo(t, calls, n);
      FreshWrites(t, calls[..n], op)
      + (if calls[n].WriteCall? && calls[n].op == op && reply.WriteReply? && reply.write.Ok? && !reply.write.value.replayed
         then 1 else 0)
  }

  /** Over any run an operation gets at most one row, reported fresh exactly once and never altered. */
  lemma {:induction false} EffectivelyOnce(t: Tables, calls: seq<Call>, op: Uuid)
    requires OrdersSound(t)
    ensures var t' := Final(t, calls);
            && OrdersSound(t')
            && (forall k | k in t.workOrders :: k in t'.workOrders && t'.workOrders[k] == t.workOrders[k])
            && (forall k, l | k in t'.workOrders && l in t'.workOrders
                              && t'.workOrders[k].operationId == t'.workOrders[l].operationId :: k == l)
            && FreshWrites(t, calls, op)
               == (if IdempotencyKey(op) in t'.workOrders && IdempotencyKey(op) !in t.workOrders then 1 else 0)
  {
    if calls != [] {
      var n := |calls| - 1;
      EffectivelyOnce(t, calls[..n], op);
      var middle := Final(t, calls[..n]);
      CallKeepsOrders(middle, calls[n]);
      FreshWriteIsTheNewRow(middle, calls[n], op);
    }
    OrdersAreUnique(Final(t, calls));
  }

  /** One order row per operation. */
  lemma OrdersAreUnique(t: Tables)
    requires OrdersSound(t)
    ensures forall k, l | k in t.workOrders && l in t.workOrders
                          && t.workOrders[k].operationId == t.workOrders[l].operationId :: k == l
  {
    forall k, l | k in t.workOrders && l in t.workOrders && t.workOrders[k].operationId == t.workOrders[l].operationId
      ensures k == l
    {
      assert OrderSound(t, k) && OrderSound(t, l);
    }
  }

  /** Joining the order by operation, as the recovery query does, or by idempotency key finds the same row. */
  lemma JoinsAgree(t: Tables, op: Uuid, row: WorkOrderRow)
    requires OrdersSound(t)
    ensures row in t.workOrders.Values && row.operationId == op <==> StoredWorkOrder(t, op) == Some(row)
  {
    if row in t.workOrders.Values && row.operationId == op {
      var k :| k in t.workOrders && t.workOrders[k] == row;
      assert OrderSound(t, k);
    }
    if StoredWorkOrder(t, op) == Some(row) {
      assert OrderSound(t, IdempotencyKey(op));
      KeysAreInjective(op, row.operationId);
    }
  }

  lemma FreshWriteIsTheNewRow(t: Tables, call: Call, op: Uuid)
    requires OrdersSound(t)
    ensures var reply := Apply(t, call).reply;
            (call.WriteCall? && call.op == op && reply.write.Ok? && !reply.write.value.replayed)
            <==> (IdempotencyKey(op) in Apply(t, call).tables.workOrders && IdempotencyKey(op) !in t.workOrders)
  {
    var subject := call.Subject();
    if call.WriteCall? && subject != op && IdempotencyKey(subject) == IdempotencyKey(op) {
      KeysAreInjective(subject, op);
    }
  }

  lemma AnswerIsStored(t: Tables, call: Call)
    requires OrdersSound(t) && call.WriteCall? && Apply(t, call).reply.write.Ok?
    ensures var answer := Apply(t, call).reply.write.value.workOrder;
            && StoredWorkOrder(Apply(t, call).tables, call.op) == Some(answer)
            && answer.operationId == call.op
            && answer.payload == call.payload
  {
    if IdempotencyKey(call.op) in t.workOrders {
      assert OrderSound(t, IdempotencyKey(call.op));
      KeysAreInjective(call.op, t.workOrders[IdempotencyKey(call.op)].operationId);
    }
  }

  lemma {:induction false} OrdersStaySound(t: Tables, calls: seq<Call>)
    requires OrdersSound(t)
    ensures OrdersSound(Final(t, calls))
  {
    if calls != [] {
      OrdersStaySound(t, calls[..|calls| - 1]);
      CallKeepsOrders(Final(t, calls[..|calls| - 1]), calls[|calls| - 1]);
    }
  }

  lemma {:induction false} OrderPersists(t: Tables, calls: seq<Call>, i: nat, op: Uuid)
    requires OrdersSound(t) && i <= |calls| && StoredWorkOrder(Final(t, calls[..i]), op).Some?
    ensures StoredWorkOrder(Final(t, calls), op) == StoredWorkOrder(Final(t, calls[..i]), op)
  {
    if i == |calls| {
      assert calls[..i] == calls;
    } else {
      var n := |calls| - 1;
      assert calls[..n][..i] == calls[..i];
      OrderPersists(t, calls[..n], i, op);
      OrdersStaySound(t, calls[..n]);
      CallKeepsOrder(Final(t, calls[..n]), calls[n], IdempotencyKey(op));
    }
  }

  /** Every caller that was answered got the operation's own row, the one still stored at the end
      of the run, and it holds the payload that caller asked for. */
  lemma AnswersAgree(t: Tables, calls: seq<Call>, i: nat)
    requires OrdersSound(t) && i < |calls|
    requires calls[i].WriteCall? && ReplyTo(t, calls, i).write.Ok?
    ensures var op, answer := calls[i].op, ReplyTo(t, calls, i).write.value.workOrder;
            && StoredWorkOrder(Final(t, calls), op) == Some(answer)
            && answer.operationId == op
            && answer.payload == calls[i].payload
  {
    OrdersStaySound(t, calls[..i]);
    AnswerIsStored(Final(t, calls[..i]), calls[i]);
    assert calls[..i + 1][..i] == calls[..i];
    OrderPersists(t, calls, i + 1, calls[i].op);
  }

  // ---- The approval race ---------------------------------------------------------------------------

  /** Successful submissions and committed expiries of `op` in a run. */
  function Decisions(t: Tables, calls: seq<Call>, op: Uuid): nat {
    if calls == [] then 0
    else
      var n := |calls| - 1;
      Decisions(t, calls[..n], op) + (if Decides(calls[n], ReplyTo(t, calls, n), op) then 1 else 0)
  }

  predicate Decides(call: Call, reply: Reply, op: Uuid) {
    && (call.SubmitCall? || call.BoundCall?)
    && call.Subject() == op
    && reply.ApprovalReply?
    && (reply.approval.Ok? || reply.approval.error.ApprovalExpired?)
  }

  /** Statuses from which a decision can still come. */
  function Chances(t: Tables, op: Uuid): nat {
    if op in t.operations && t.operations[op].status in {Received, AwaitingApproval, NeedsReapproval} then 1 else 0
  }

  /** Of all submissions racing on an operation at most one is decided: a success excludes every
      other success and every expiry, and an expiry excludes every success. */
  lemma {:induction false} OneDecision(t: Tables, calls: seq<Call>, op: Uuid)
    ensures Decisions(t, calls, op) + Chances(Final(t, calls), op) <= Chances(t, op) <= 1
  {
    if calls != [] {
      var n := |calls| - 1;
      OneDecision(t, calls[..n], op);
      CallUsesAChance(Final(t, calls[..n]), calls[n], op);
    }
  }

  lemma CallUsesAChance(t: Tables, call: Call, op: Uuid)
    ensures (if Decides(call, Apply(t, call).reply, op) then 1 else 0) + Chances(Apply(t, call).tables, op) <= Chances(t, op)
  {
    OnlySilentCallsChangeNothing(t, call);
    if op in t.operations && call.Subject() != op {
      CallContinues(t, call, op);
    }
  }

  predicate BindingSound(t: Tables, k: (Uuid, nat))
    requires k in t.approvals
  {
    && k.0 in t.operations
    && (t.approvals[k].binding.Some? ==>
          var s := t.operations[k.0].snapshot;
          s.evidence.Some? && s.plan.Some?
          && ScenarioRuntime.BuildBinding(s.evidence.value, s.plan.value) == t.approvals[k].binding)
  }

  /** Each recorded binding is the one that the operation's own stored evidence and plan give. */
  ghost predicate BindingsSound(t: Tables) {
    forall k | k in t.approvals :: BindingSound(t, k)
  }

  lemma NewBindingIsSound(t: Tables, call: Call, k: (Uuid, nat))
    requires k !in t.approvals && k in Apply(t, call).tables.approvals
    ensures BindingSound(Apply(t, call).tables, k)
  {
  }

  lemma OldBindingsLast(t: Tables, t': Tables, subject: Uuid)
    requires BindingsSound(t) && Writes(t, t', subject)
    ensures forall k | k in t.approvals :: k in t'.approvals && t'.approvals[k] == t.approvals[k] && BindingSound(t', k)
    ensures forall op | op in t.operations :: op in t'.operations && t'.operations[op].snapshot == t.operations[op].snapshot
  {
    assert forall k | k in t.approvals :: BindingSound(t, k);
  }

  lemma CallKeepsBindings(t: Tables, call: Call)
    requires BindingsSound(t)
    ensures var t' := Apply(t, call).tables;
            && BindingsSound(t')
            && (forall k | k in t.approvals :: k in t'.approvals && t'.approvals[k] == t.approvals[k])
            && (forall op | op in t.operations :: op in t'.operations && t'.operations[op].snapshot == t.operations[op].snapshot)
  {
    if Silent(Apply(t, call).reply) {
      OnlySilentCallsChangeNothing(t, call);
    } else {
      LoudCallsWrite(t, call);
      OldBindingsLast(t, Apply(t, call).tables, call.Subject());
      forall k | k in Apply(t, call).tables.approvals ensures BindingSound(Apply(t, call).tables, k) {
        if k !in t.approvals { NewBindingIsSound(t, call, k); }
      }
    }
  }

  /** Recorded decisions are final, and their bindings keep matching the stored facts. */
  lemma {:induction false} DecisionsAreFinal(t: Tables, calls: seq<Call>)
    requires BindingsSound(t)
    ensures var t' := Final(t, calls);
            && BindingsSound(t')
            && (forall k | k in t.approvals :: k in t'.approvals && t'.approvals[k] == t.approvals[k])
            && (forall op | op in t.operations :: op in t'.operations && t'.operations[op].snapshot == t.operations[op].snapshot)
  {
    if calls != [] {
      var n := |calls| - 1;
      DecisionsAreFinal(t, calls[..n]);
      CallKeepsBindings(Final(t, calls[..n]), calls[n]);
    }
  }

  /** A winning bound submission stored exactly what its approver saw, before the deadline. */
  lemma WinnerIsBound(t: Tables, command: ApprovalCommand, expected: ApprovalBinding, id: Uuid, now: Instant)
    requires SubmitBoundStep(t, command, expected, id, now).reply.Ok?
    ensures var op, t' := command.operationId, SubmitBoundStep(t, command, expected, id, now).tables;
            && op in t.operations && op in t'.operations
            && t.operations[op].approvalExpiresAt.Some? && now < t.operations[op].approvalExpiresAt.value
            && CurrentApproval(t, op).None?
            && CurrentApproval(t', op)
               == Some(ApprovalRow(id, command.approverId, command.decision, command.reason, Some(expected)))
            && t.operations[op].snapshot.evidence.Some? && t.operations[op].snapshot.plan.Some?
            && ScenarioRuntime.BuildBinding(t.operations[op].snapshot.evidence.value, t.operations[op].snapshot.plan.value)
               == Some(expected)
  {
  }

  // ---- What the repositories do not check by themselves ---------------------------------------------

  predicate DecidedAs(t: Tables, op: Uuid, decision: Decision)
    requires op in t.operations
  {
    CurrentApproval(t, op).Some? && CurrentApproval(t, op).value.decision == decision
  }

  /** An executing, verifying or completed operation was approved in its current cycle, and from verifying on it
      has a work order; a rejected one was rejected; and neither a rejected nor an expired one has an order. */
  ghost predicate OutcomeSound(t: Tables, op: Uuid)
    requires op in t.operations
  {
    var status := t.operations[op].status;
    && (status.Executing? || status.Verifying? || status.Completed? ==> DecidedAs(t, op, Approve))
    && (status.Verifying? || status.Completed? ==> StoredWorkOrder(t, op).Some?)
    && (status.Rejected? ==> DecidedAs(t, op, Reject))
    && (status.Rejected? || status.Expired? ==> StoredWorkOrder(t, op).None?)
  }

  /** What a caller of a transition would have to check first. */
  predicate CallerGuard(t: Tables, op: Uuid, mark: Mark)
    requires op in t.operations
  {
    match mark
    case MarkExecuting(_) => DecidedAs(t, op, Approve)
    case MarkVerifying(_) => StoredWorkOrder(t, op).Some?
    case MarkRejected(_) => DecidedAs(t, op, Reject)
    case _ => true
  }

  /** Calls that change the operation by a transition are made under the guard. */
  predicate Guarded(t: Tables, call: Call, op: Uuid)
    requires op in t.operations
  {
    call.MarkCall? && call.op == op && !Silent(Apply(t, call).reply) ==> CallerGuard(t, op, call.mark)
  }

  /** A transition keeps outcomes sound exactly when its caller has checked. */
  lemma MarksAreSoundExactlyWhenGuarded(t: Tables, op: Uuid, mark: Mark)
    requires op in t.operations && OrdersSound(t) && OutcomeSound(t, op)
    requires MarkStep(t, op, mark).reply.Ok? && MarkStep(t, op, mark).reply.value.changed
    ensures op in MarkStep(t, op, mark).tables.operations
    ensures OutcomeSound(MarkStep(t, op, mark).tables, op) <==> CallerGuard(t, op, mark)
  {
    if StoredWorkOrder(t, op).Some? {
      assert OrderSound(t, IdempotencyKey(op));
      KeysAreInjective(op, t.workOrders[IdempotencyKey(op)].operationId);
    }
  }

  lemma OtherCallsAreSound(t: Tables, call: Call, op: Uuid)
    requires op in t.operations && OrdersSound(t) && OutcomeSound(t, op)
    requires !call.MarkCall? && call.Subject() == op && !Silent(Apply(t, call).reply)
    ensures op in Apply(t, call).tables.operations && OutcomeSound(Apply(t, call).tables, op)
  {
    if StoredWorkOrder(t, op).Some? {
      assert OrderSound(t, IdempotencyKey(op));
      KeysAreInjective(op, t.workOrders[IdempotencyKey(op)].operationId);
    }
  }

  lemma OutcomeStep(t: Tables, call: Call, op: Uuid)
    requires op in t.operations && OrdersSound(t) && OutcomeSound(t, op)
    ensures op in Apply(t, call).tables.operations
    ensures OutcomeSound(Apply(t, call).tables, op) <==> Guarded(t, call, op)
  {
    CallContinues(t, call, op);
    if Silent(Apply(t, call).reply) {
      OnlySilentCallsChangeNothing(t, call);
    } else if call.Subject() != op {
      SlicesDecideOutcomes(t, Apply(t, call).tables, op);
    } else if call.MarkCall? {
      MarksAreSoundExactlyWhenGuarded(t, op, call.mark);
    } else {
      OtherCallsAreSound(t, call, op);
    }
  }

  lemma SlicesDecideOutcomes(t: Tables, t': Tables, op: Uuid)
    requires op in t.operations && op in t'.operations && SliceOf(t', op) == SliceOf(t, op)
    ensures OutcomeSound(t', op) <==> OutcomeSound(t, op)
  {
    assert SliceOf(t, op).row == t.operations[op] && SliceOf(t', op).row == t'.operations[op];
    assert SliceOf(t, op).approval == CurrentApproval(t, op) && SliceOf(t', op).approval == CurrentApproval(t', op);
    assert SliceOf(t, op).workOrder == StoredWorkOrder(t, op) && SliceOf(t', op).workOrder == StoredWorkOrder(t', op);
  }

  /** After each of the first `n` calls the operation exists and its outcome is sound. */
  ghost predicate SoundThroughout(t: Tables, calls: seq<Call>, op: Uuid, n: nat)
    requires n <= |calls|
  {
    forall i | 0 <= i <= n :: op in Final(t, calls[..i]).operations && OutcomeSound(Final(t, calls[..i]), op)
  }

  ghost predicate GuardedThroughout(t: Tables, calls: seq<Call>, op: Uuid, n: nat)
    requires n <= |calls|
  {
    forall i | 0 <= i < n :: op in Final(t, calls[..i]).operations && Guarded(Final(t, calls[..i]), calls[i], op)
  }

  /** Over any run of calls by any callers, an operation's outcome stays sound if and only if every transition
      that changed it was made by a caller that had checked decision and order, as the graph's nodes have. */
  lemma {:induction false} OutcomesAreSoundExactlyWhenGuarded(t: Tables, calls: seq<Call>, op: Uuid, n: nat)
    requires op in t.operations && OrdersSound(t) && OutcomeSound(t, op) && n <= |calls|
    ensures SoundThroughout(t, calls, op, n) <==> GuardedThroughout(t, calls, op, n)
  {
    if n == 0 {
      assert calls[..0] == [];
    } else {
      OutcomesAreSoundExactlyWhenGuarded(t, calls, op, n - 1);
      if SoundThroughout(t, calls, op, n - 1) {
        var middle := Final(t, calls[..n - 1]);
        OrdersStaySound(t, calls[..n - 1]);
        OutcomeStep(middle, calls[n - 1], op);
        FinalSteps(t, calls, n - 1);
      }
    }
  }

  lemma FinalSteps(t: Tables, calls: seq<Call>, i: nat)
    requires i < |calls|
    ensures Final(t, calls[..i + 1]) == Apply(Final(t, calls[..i]), calls[i]).tables
  {
    assert calls[..i + 1][..i] == calls[..i];
  }

  function OneReceived(op: Uuid): Tables {
    Tables(map[op := OperationRow(op, Received, 0, 0, None, OperationSnapshot(None, None, None, None, map[]))],
           map[], map[], [])
  }

  /** Without the graph, an approved write can be followed by a rejection. */
  lemma RejectedWithAnOrderIsPossible(op: Uuid)
    ensures var calls := [MarkCall(op, MarkAwaitingApproval),
                          SubmitCall(ApprovalCommand(op, "approver", Approve, "ok"), "a1"),
                          WriteCall(op, map[], "w1"),
                          MarkCall(op, MarkRejected("a1"))];
            && op in Final(OneReceived(op), calls).operations
            && Final(OneReceived(op), calls).operations[op].status.Rejected?
            && StoredWorkOrder(Final(OneReceived(op), calls), op).Some?
  {
    var t0 := OneReceived(op);
    var c1 := MarkCall(op, MarkAwaitingApproval);
    var c2 := SubmitCall(ApprovalCommand(op, "approver", Approve, "ok"), "a1");
    var c3 := WriteCall(op, map[], "w1");
    var c4 := MarkCall(op, MarkRejected("a1"));
    FinalOfFour(t0, c1, c2, c3, c4);
  }

  /** Without the graph, an operation can complete although nothing was ever written. */
  lemma CompletedWithoutAnOrderIsPossible(op: Uuid)
    ensures var calls := [MarkCall(op, MarkAwaitingApproval),
                          SubmitCall(ApprovalCommand(op, "approver", Approve, "ok"), "a1"),
                          MarkCall(op, MarkExecuting("a1")),
                          MarkCall(op, MarkVerifying("none"))];
            var t := Apply(Final(OneReceived(op), calls), MarkCall(op, MarkCompleted("none"))).tables;
            && op in t.operations && t.operations[op].status.Completed? && StoredWorkOrder(t, op).None?
  {
    var t0 := OneReceived(op);
    var c1 := MarkCall(op, MarkAwaitingApproval);
    var c2 := SubmitCall(ApprovalCommand(op, "approver", Approve, "ok"), "a1");
    FinalOfFour(t0, c1, c2, MarkCall(op, MarkExecuting("a1")), MarkCall(op, MarkVerifying("none")));
  }

  lemma FinalOfFour(t: Tables, a: Call, b: Call, c: Call, d: Call)
    ensures Final(t, [a, b, c, d])
         == Apply(Apply(Apply(Apply(t, a).tables, b).tables, c).tables, d).tables
  {
    assert [a, b, c, d][..3] == [a, b, c] && [a, b, c][..2] == [a, b] && [a, b][..1] == [a] && [a][..0] == [];
    assert Final(t, [a]) == Apply(t, a).tables;
    assert Final(t, [a, b]) == Apply(Final(t, [a]), b).tables;
    assert Final(t, [a, b, c]) == Apply(Final(t, [a, b]), c).tables;
  }
}
