/** The database connection pool: four tables that repositories read and update in place. */
module Database {
  import opened Scenarios
  import opened Tables

  class Engine {
    var operations: map<Uuid, OperationRow>
    var approvals: map<(Uuid, nat), ApprovalRow>
    var workOrders: map<string, WorkOrderRow>
    var auditEvents: seq<AuditRow>

    function Snapshot(): Tables
      reads this
    {
      Tables(operations, approvals, workOrders, auditEvents)
    }

    constructor (initial: Tables)
      ensures Snapshot() == initial
    {
      operations := initial.operations;
      approvals := initial.approvals;
      workOrders := initial.workOrders;
      auditEvents := initial.auditEvents;
    }
  }
}
