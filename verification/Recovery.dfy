/** Operation life cycle and the choice of a recovery action. */
module Recovery {
  import opened Wrappers

  datatype OperationStatus =
    | Received
    | GatheringEvidence
    | Planning
    | Validating
    | Reporting
    | AwaitingApproval
    | NeedsReapproval
    | Resuming
    | Executing
    | Verifying
    | Completed
    | Rejected
    | Aborted
    | Expired
    | Failed

  datatype CheckpointPhase = Missing | Interrupted | Runnable

  datatype RecoveryAction =
    | RebuildFromBusinessFacts
    | KeepWaiting
    | ResumeDecision
    | ReplayIdempotentExecution
    | VerifyExistingWorkOrder
    | ContinueCheckpoint
    | NoOp

  const TERMINAL: set<OperationStatus> := {Completed, Rejected, Aborted, Expired, Failed}

  datatype RecoveryFacts = RecoveryFacts(
    status: OperationStatus,
    checkpoint: CheckpointPhase,
    hasApproval: bool,
    hasWorkOrder: bool)
  {
    predicate Valid() {
      && (hasWorkOrder ==> hasApproval)
      && (status.Received? ==> !hasApproval)
    }
  }

  function ChooseRecoveryAction(facts: RecoveryFacts): RecoveryAction {
    if facts.status in TERMINAL then NoOp
    else if facts.checkpoint.Missing? then RebuildFromBusinessFacts
    else if facts.checkpoint.Interrupted? then (if facts.hasApproval then ResumeDecision else KeepWaiting)
    else if facts.hasWorkOrder then VerifyExistingWorkOrder
    else if facts.status.Resuming? || facts.status.Executing? || facts.status.Verifying? then ReplayIdempotentExecution
    else ContinueCheckpoint
  }
}
