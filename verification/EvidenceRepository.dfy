/** Saved evidence: one row per operation and evidence identifier, written once and never changed. */
module EvidenceStore {
  import opened AgentDomain
  import opened ScenarioRuntime
  import opened Scenarios
  import opened Verification
  import opened Wrappers

  /** The digest of canonical content, equal only for equal content. */
  datatype ContentHash = HashOf(content: EvidencePayload)

  datatype Specification = Specification(
    evidenceId: Uuid,
    evidenceType: string,
    sourceTool: string,
    sourceVersion: string,
    capturedAt: Instant,
    expiresAt: Instant,
    content: EvidencePayload,
    contentHash: ContentHash)

  datatype EvidenceRecord = EvidenceRecord(id: Uuid, operationId: Uuid, specification: Specification, createdAt: Instant)

  type EvidenceTable = map<(Uuid, Uuid), EvidenceRecord>

  datatype EvidenceError = OperationNotFound | EvidenceConflict

  function LifetimeSeconds(bundle: Evidence): int {
    match bundle
    case InventoryBundle(b) => b.policy.ttlSeconds
    case EquipmentBundle(b) => b.policy.ttlSeconds
    case TaskBundle(b) => b.policy.ttlSeconds
  }

  function SubjectCapture(bundle: Evidence): (Instant, string) {
    match bundle
    case InventoryBundle(b) => (b.inventory.capturedAt, b.inventory.sourceVersion)
    case EquipmentBundle(b) => (b.equipment.capturedAt, b.equipment.sourceVersion)
    case TaskBundle(b) => (b.task.capturedAt, b.task.sourceVersion)
  }

  function PolicyCapture(bundle: Evidence): (Instant, string) {
    match bundle
    case InventoryBundle(b) => (b.policy.capturedAt, b.policy.ruleVersion)
    case EquipmentBundle(b) => (b.policy.capturedAt, b.policy.ruleVersion)
    case TaskBundle(b) => (b.policy.capturedAt, b.policy.ruleVersion)
  }

  function SubjectLabels(bundle: Evidence): (string, string) {
    match bundle
    case InventoryBundle(_) => ("inventory", "inventory")
    case EquipmentBundle(_) => ("equipment", "equipment.get_status")
    case TaskBundle(_) => ("task", "task.get_status")
  }

  function SubjectSpecification(bundle: Evidence): Specification {
    var (captured, version) := SubjectCapture(bundle);
    var (kind, tool) := SubjectLabels(bundle);
    Specification(SubjectId(bundle), kind, tool, version, captured, captured + LifetimeSeconds(bundle) * SECOND,
                  SubjectPayload(bundle), HashOf(SubjectPayload(bundle)))
  }

  function PolicySpecification(bundle: Evidence): Specification {
    var (captured, version) := PolicyCapture(bundle);
    Specification(PolicyId(bundle), "policy", "policy", version, captured, captured + LifetimeSeconds(bundle) * SECOND,
                  PolicyPayload(bundle), HashOf(PolicyPayload(bundle)))
  }

  function Specifications(bundle: Evidence): seq<Specification> {
    [SubjectSpecification(bundle), PolicySpecification(bundle)]
  }

  /** Nothing is stored under the identifier yet, or exactly this. */
  predicate Compatible(table: EvidenceTable, op: Uuid, specification: Specification) {
    (op, specification.evidenceId) in table ==> table[(op, specification.evidenceId)].specification == specification
  }

  function RecordFor(table: EvidenceTable, op: Uuid, specification: Specification, newId: Uuid, at: Instant): EvidenceRecord {
    if (op, specification.evidenceId) in table then table[(op, specification.evidenceId)]
    else EvidenceRecord(newId, op, specification, at)
  }

  function SaveStep(known: set<Uuid>, table: EvidenceTable, op: Uuid, bundle: Evidence, newIds: (Uuid, Uuid), at: Instant)
    : (EvidenceTable, Result<seq<EvidenceRecord>, EvidenceError>)
  {
    var subject, policy := SubjectSpecification(bundle), PolicySpecification(bundle);
    if op !in known then (table, Err(OperationNotFound))
    else if subject.evidenceId == policy.evidenceId then (table, Err(EvidenceConflict))
    else if !Compatible(table, op, subject) || !Compatible(table, op, policy) then (table, Err(EvidenceConflict))
    else
      var first, second := RecordFor(table, op, subject, newIds.0, at), RecordFor(table, op, policy, newIds.1, at);
      (table[(op, subject.evidenceId) := first][(op, policy.evidenceId) := second], Ok([first, second]))
  }

  class EvidenceRepository {
    const operations: set<Uuid>
    var table: EvidenceTable

    constructor (operations: set<Uuid>)
      ensures this.operations == operations && table == map[]
    {
      this.operations, this.table := operations, map[];
    }

    /** One transaction: inserts collect in `pending` and reach the table only on commit. */
    method Save(op: Uuid, bundle: Evidence, newIds: (Uuid, Uuid), at: Instant)
      returns (reply: Result<seq<EvidenceRecord>, EvidenceError>)
      modifies this
      ensures (table, reply) == SaveStep(operations, old(table), op, bundle, newIds, at)
    {
      if op !in operations {
        return Err(OperationNotFound);
      }
      if SubjectId(bundle) == PolicyId(bundle) {
        return Err(EvidenceConflict);
      }
      var specifications := Specifications(bundle);
      var ids := [newIds.0, newIds.1];
      var records := [];
      var pending := table;
      for i := 0 to |specifications|
        invariant |records| == i
        invariant table == old(table)
        invariant forall k | 0 <= k < i ::
            && Compatible(table, op, specifications[k])
            && records[k] == RecordFor(table, op, specifications[k], ids[k], at)
        invariant i == 0 ==> pending == table
        invariant i == 1 ==> pending == table[(op, specifications[0].evidenceId) := records[0]]
        invariant i == 2 ==>
            pending == table[(op, specifications[0].evidenceId) := records[0]][(op, specifications[1].evidenceId) := records[1]]
      {
        var specification := specifications[i];
        var key := (op, specification.evidenceId);
        if key in table {
          if table[key].specification != specification {
            return Err(EvidenceConflict);
          }
          records := records + [table[key]];
          assert pending == pending[key := table[key]];
        } else {
          var record := EvidenceRecord(ids[i], op, specification, at);
          pending := pending[key := record];
          records := records + [record];
        }
      }
      table := pending;
      assert records == [RecordFor(old(table), op, specifications[0], newIds.0, at),
                         RecordFor(old(table), op, specifications[1], newIds.1, at)];
      return Ok(records);
    }
  }

  // ---- What saving guarantees -------------------------------------------------------------------------------

  /** A save is accepted exactly if the operation exists and neither half contradicts what is stored;
      an accepted one stores both halves, a refused one stores nothing. */
  lemma SavesAreAllOrNothing(known: set<Uuid>, table: EvidenceTable, op: Uuid, bundle: Evidence, newIds: (Uuid, Uuid), at: Instant)
    ensures var (table', reply) := SaveStep(known, table, op, bundle, newIds, at);
            && (reply.Ok? <==> op in known && SubjectId(bundle) != PolicyId(bundle)
                               && forall s | s in Specifications(bundle) :: Compatible(table, op, s))
            && (reply.Err? ==> table' == table)
            && (reply.Ok? ==>
                  && |reply.value| == 2
                  && (forall i | 0 <= i < 2 ::
                        && reply.value[i].specification == Specifications(bundle)[i]
                        && (op, Specifications(bundle)[i].evidenceId) in table'
                        && table'[(op, Specifications(bundle)[i].evidenceId)] == reply.value[i])
                  && table'.Keys == table.Keys + {(op, SubjectId(bundle)), (op, PolicyId(bundle))})
            && (forall k | k in table :: k in table' && table'[k] == table[k])
  {
    assert Specifications(bundle)[0] == SubjectSpecification(bundle) && Specifications(bundle)[1] == PolicySpecification(bundle);
    assert forall s | s in Specifications(bundle) :: s == SubjectSpecification(bundle) || s == PolicySpecification(bundle);
  }

  /** The two stored expiries say exactly when an assessment of the bundle still accepts it as fresh. */
  lemma ExpiryIsFreshness(bundle: Evidence, now: Instant)
    ensures bundle.Fresh(now) <==> forall s | s in Specifications(bundle) :: now < s.expiresAt
  {
    assert Specifications(bundle)[0] == SubjectSpecification(bundle) && Specifications(bundle)[1] == PolicySpecification(bundle);
  }

  datatype SaveCall = SaveCall(op: Uuid, bundle: Evidence, newIds: (Uuid, Uuid), at: Instant)

  function SaveAll(known: set<Uuid>, table: EvidenceTable, calls: seq<SaveCall>): EvidenceTable {
    if calls == [] then table
    else
      var last := calls[|calls| - 1];
      SaveStep(known, SaveAll(known, table, calls[..|calls| - 1]), last.op, last.bundle, last.newIds, last.at).0
  }

  /** Rows say which operation and evidence they belong to, and hash what they hold. */
  ghost predicate TableSound(table: EvidenceTable) {
    forall k | k in table ::
      && k == (table[k].operationId, table[k].specification.evidenceId)
      && table[k].specification.contentHash == HashOf(table[k].specification.content)
  }

  /** First write wins: whatever is saved later, a row once stored stays as it is. */
  lemma {:induction false} FirstWriteWins(known: set<Uuid>, table: EvidenceTable, calls: seq<SaveCall>)
    requires TableSound(table)
    ensures TableSound(SaveAll(known, table, calls))
    ensures forall k | k in table :: k in SaveAll(known, table, calls) && SaveAll(known, table, calls)[k] == table[k]
  {
    if calls != [] {
      var last := calls[|calls| - 1];
      FirstWriteWins(known, table, calls[..|calls| - 1]);
      SavesAreAllOrNothing(known, SaveAll(known, table, calls[..|calls| - 1]), last.op, last.bundle, last.newIds, last.at);
    }
  }

  /** Saving the same bundle again, however much later, returns the same records and changes nothing. */
  lemma RepeatedSavesAgree(known: set<Uuid>, table: EvidenceTable, first: SaveCall, between: seq<SaveCall>,
                           newIds: (Uuid, Uuid), at: Instant)
    requires TableSound(table)
    requires SaveStep(known, table, first.op, first.bundle, first.newIds, first.at).1.Ok?
    ensures var (saved, records) := SaveStep(known, table, first.op, first.bundle, first.newIds, first.at);
            var later := SaveAll(known, saved, between);
            SaveStep(known, later, first.op, first.bundle, newIds, at) == (later, records)
  {
    var (saved, records) := SaveStep(known, table, first.op, first.bundle, first.newIds, first.at);
    SavesAreAllOrNothing(known, table, first.op, first.bundle, first.newIds, first.at);
    FirstWriteWins(known, saved, between);
    var later := SaveAll(known, saved, between);
    var op, subject, policy := first.op, SubjectSpecification(first.bundle), PolicySpecification(first.bundle);
    assert later[(op, subject.evidenceId)] == records.value[0] && later[(op, policy.evidenceId)] == records.value[1];
    assert later[(op, subject.evidenceId) := records.value[0]][(op, policy.evidenceId) := records.value[1]] == later;
  }

  // ---- What is stored ------------------------------------------------------------------------------------------

  /** A stored half: whose it is, what was read, when, in which version, and until when it holds. */
  predicate Holds(record: EvidenceRecord, op: Uuid, id: Uuid, kind: string, tool: string, content: EvidencePayload, version: string,
                  captured: Instant, ttlSeconds: int)
  {
    var s := record.specification;
    && record.operationId == op && s.evidenceId == id && s.evidenceType == kind && s.sourceTool == tool && s.content == content
    && s.sourceVersion == version && s.capturedAt == captured && s.expiresAt == captured + ttlSeconds * SECOND
  }

  /** Under the subject's and the policy's own identifiers, an accepted save stores what was read of each. */
  predicate StoresBundle(table: EvidenceTable, op: Uuid, bundle: Evidence) {
    && (op, SubjectId(bundle)) in table && (op, PolicyId(bundle)) in table
    && var subject, policy := table[(op, SubjectId(bundle))], table[(op, PolicyId(bundle))];
    match bundle
    case InventoryBundle(b) =>
      && Holds(subject, op, b.inventory.evidenceId, "inventory", "inventory", InventoryPayload(b.inventory), b.inventory.sourceVersion,
               b.inventory.capturedAt, b.policy.ttlSeconds)
      && Holds(policy, op, b.policy.evidenceId, "policy", "policy", ReplenishmentPolicy(b.policy), b.policy.ruleVersion,
               b.policy.capturedAt, b.policy.ttlSeconds)
    case EquipmentBundle(b) =>
      && Holds(subject, op, b.equipment.evidenceId, "equipment", "equipment.get_status", EquipmentPayload(b.equipment), b.equipment.sourceVersion,
               b.equipment.capturedAt, b.policy.ttlSeconds)
      && Holds(policy, op, b.policy.evidenceId, "policy", "policy", MaintenancePolicy(b.policy), b.policy.ruleVersion,
               b.policy.capturedAt, b.policy.ttlSeconds)
    case TaskBundle(b) =>
      && Holds(subject, op, b.task.evidenceId, "task", "task.get_status", TaskPayload(b.task), b.task.sourceVersion, b.task.capturedAt, b.policy.ttlSeconds)
      && Holds(policy, op, b.policy.evidenceId, "policy", "policy", TaskRecoveryPolicy(b.policy), b.policy.ruleVersion,
               b.policy.capturedAt, b.policy.ttlSeconds)
  }

  /** Round trip: after an accepted save, and any later ones, the stored halves hold what was read, and reading them
      back gives the bundle again. */
  lemma SavedBundlesAreReadBack(known: set<Uuid>, table: EvidenceTable, save: SaveCall, later: seq<SaveCall>)
    requires TableSound(table) && SaveStep(known, table, save.op, save.bundle, save.newIds, save.at).1.Ok?
    ensures var end := SaveAll(known, SaveStep(known, table, save.op, save.bundle, save.newIds, save.at).0, later);
            && StoresBundle(end, save.op, save.bundle)
            && ParseBundle(KindOfEvidence(save.bundle), end[(save.op, SubjectId(save.bundle))].specification.content,
                           end[(save.op, PolicyId(save.bundle))].specification.content) == Some(save.bundle)
  {
    var saved := SaveStep(known, table, save.op, save.bundle, save.newIds, save.at).0;
    SavesAreAllOrNothing(known, table, save.op, save.bundle, save.newIds, save.at);
    SavesKeepTheTableSound(known, table, save);
    FirstWriteWins(known, saved, later);
    SavedHalvesHold(known, table, save);
  }

  lemma SavesKeepTheTableSound(known: set<Uuid>, table: EvidenceTable, save: SaveCall)
    requires TableSound(table)
    ensures TableSound(SaveStep(known, table, save.op, save.bundle, save.newIds, save.at).0)
  {
    assert SaveAll(known, table, [save]) == SaveStep(known, table, save.op, save.bundle, save.newIds, save.at).0 by {
      assert [save][..0] == [] && SaveAll(known, table, []) == table;
    }
    FirstWriteWins(known, table, [save]);
  }

  lemma SavedHalvesHold(known: set<Uuid>, table: EvidenceTable, save: SaveCall)
    requires TableSound(table) && SaveStep(known, table, save.op, save.bundle, save.newIds, save.at).1.Ok?
    ensures StoresBundle(SaveStep(known, table, save.op, save.bundle, save.newIds, save.at).0, save.op, save.bundle)
  {
    var (saved, reply) := SaveStep(known, table, save.op, save.bundle, save.newIds, save.at);
    SavesAreAllOrNothing(known, table, save.op, save.bundle, save.newIds, save.at);
    SavesKeepTheTableSound(known, table, save);
    assert saved[(save.op, SubjectId(save.bundle))].specification == Specifications(save.bundle)[0] == SubjectSpecification(save.bundle);
    assert saved[(save.op, PolicyId(save.bundle))].specification == Specifications(save.bundle)[1] == PolicySpecification(save.bundle);
  }
}
