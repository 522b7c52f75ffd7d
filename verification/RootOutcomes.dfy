/** Where every step of the agent graph leads, and how a run can end. */
module RootOutcomes {
  import opened AgentDomain
  import opened AgentLoops
  import opened Digests
  import opened RootGraph
  import opened RootRuns
  import opened ScenarioRuntime
  import opened Scenarios
  import opened ToolPolicies
  import opened Verification
  import opened Wrappers
  import ReliabilityGraph
  import Tables

  // ---- Evidence is of the run's own scenario ---------------------------------------------------------------------

  lemma ResultsAreOfTheGoalsKind(goal: GoalEncoding, observations: seq<Observation>, x: Explanation, now: Instant)
    requires EvaluateAgentResult(goal, observations, x, now).Ok?
    ensures KindOfEvidence(EvaluateAgentResult(goal, observations, x, now).value.evidence) == goal.scenario
  {
    var subject := Successful(observations, SubjectTool(goal.scenario)).value;
    var policy := Successful(observations, PolicyConstraints).value;
    var parsed := ParseBundle(goal.scenario, subject.payload, policy.payload).value;
    EvaluatedPlansAreBindable(goal.goal.CreateWorkOrder?, parsed, x, now);
  }

  predicate FitsScenario(intent: GoalEncoding, s: RootState) {
    s.evidence.Some? ==> KindOfEvidence(s.evidence.value) == intent.scenario
  }

  lemma StepKeepsScenario(config: Config, intent: GoalEncoding, s: RootState, e: Environment)
    requires RootSound(config, intent, s) && FitsScenario(intent, s)
    ensures FitsScenario(intent, StepRoot(config, intent, s, e))
  {
    if e.survives && s.next.Some? {
      var node := s.next.value;
      if BeforeApproval(node) {
        InvestigationKeepsScenario(config, intent, s, e, node);
      } else if node.RefreshAndVerify? {
        RefreshKeepsScenario(config, intent, s, e);
      } else {
        ConclusionsAreUnchanged(config, s, e, node);
      }
    }
  }

  lemma InvestigationKeepsScenario(config: Config, intent: GoalEncoding, s: RootState, e: Environment, node: RootNode)
    requires LoopPartSound(config, intent, s) && FitsScenario(intent, s) && s.next == Some(node) && BeforeApproval(node)
    ensures FitsScenario(intent, Investigate(config, intent, s, e, node))
  {
    if node.CalculatePolicy? {
      if s.loop.goal.Some? && s.analysis.Some? && EvaluateAgentResult(intent, s.loop.observations, s.analysis.value, e.clock).Ok? {
        ResultsAreOfTheGoalsKind(intent, s.loop.observations, s.analysis.value, e.clock);
      }
    } else if !node.PersistPolicyResult? {
      EarlyNodesHaveNoPlan(config, intent, s, e, node);
    }
  }

  lemma RefreshKeepsScenario(config: Config, intent: GoalEncoding, s: RootState, e: Environment)
    requires s.loop.goal == Some(intent) && FitsScenario(intent, s)
    ensures FitsScenario(intent, RefreshNode(config, s, e))
  {
    RefreshJudges(config, s, e, intent);
    var refreshed := Refresh(intent, e.refreshGateway);
    if s.analysis.Some? && EvaluateAgentResult(intent, refreshed, s.analysis.value, e.clock).Ok? {
      ResultsAreOfTheGoalsKind(intent, refreshed, s.analysis.value, e.clock);
    }
  }

  lemma {:induction false} RunsFitTheirScenario(r: Run, i: nat)
    requires r.Valid() && i <= |r.environments|
    ensures FitsScenario(r.intent, r.states[i])
  {
    if i > 0 {
      RunsFitTheirScenario(r, i - 1);
      RunsAreSound(r, i - 1);
      assert r.StepAt(i - 1);
      StepKeepsScenario(r.config, r.intent, r.states[i - 1], r.environments[i - 1]);
    }
  }

  /** The facts are read again with just the arguments the model itself was allowed for them. */
  lemma RefreshesReadTheGoal(config: Config, goal: GoalEncoding)
    ensures var (subject, policy), expected := RefreshCalls(goal), PolicyOf(config, goal).Expected();
            && subject.tool == SubjectTool(goal.scenario) && policy.tool == PolicyConstraints
            && subject.tool in expected && subject.arguments == expected[subject.tool]
            && policy.tool in expected && policy.arguments == expected[policy.tool]
    ensures forall gateway: ToolCall -> ReadReply ::
              var refreshed, (subject, policy) := Refresh(goal, gateway), RefreshCalls(goal);
              |refreshed| == 2 && Reports(refreshed[0], subject, gateway(subject)) && Reports(refreshed[1], policy, gateway(policy))
  {
  }

  // ---- Where re-verification leads --------------------------------------------------------------------------------

  /** What reading the facts again finds, if they can be read and evaluated at all. */
  function Found(intent: GoalEncoding, s: RootState, e: Environment): Option<ScenarioResult> {
    if s.analysis.None? then None
    else match EvaluateAgentResult(intent, Refresh(intent, e.refreshGateway), s.analysis.value, e.clock)
         case Ok(result) => Some(result)
         case Err(_) => None
  }

  /** The verifier proposes nothing else and the facts still give the binding a human approved. */
  predicate StillApproved(s: RootState, verdict: VerificationDecision, found: ScenarioResult) {
    && verdict.decision.Proceed? && s.plan.Some? && s.binding.Some? && found.plan.Some?
    && (verdict.proposedPlan.Some? ==> verdict.proposedPlan.value == DecisionPlanOf(s.plan.value))
    && BuildBinding(found.evidence, found.plan.value).Some?
    && FactsOf(BuildBinding(found.evidence, found.plan.value).value) == FactsOf(s.binding.value)
  }

  /** Re-verification fails without a runtime, a verdict or facts; aborts on the verifier's word or when nothing is
      left to do; acts on what is still approved; and returns to the human, with what it found, in all other cases. */
  predicate Routed(runtime: bool, s: RootState, verdict: Option<VerificationDecision>, found: Option<ScenarioResult>, s': RootState) {
    && (s'.next == Some(MarkFailed) <==> !runtime || verdict.None? || found.None?)
    && (s'.next != Some(MarkFailed) ==>
          && (s'.next == Some(MarkVerifierAborted) <==> verdict.value.decision.Abort? || found.value.plan.None?)
          && (s'.next == Some(MarkExecuting) <==> StillApproved(s, verdict.value, found.value))
          && (s'.next == Some(MarkNeedsReapproval) <==>
              !verdict.value.decision.Abort? && found.value.plan.Some? && !StillApproved(s, verdict.value, found.value)))
    && s'.route == (match s'.next
                    case Some(MarkExecuting) => Some(ToProceed)
                    case Some(MarkVerifierAborted) => Some(ToAbort)
                    case Some(MarkNeedsReapproval) => Some(ToReapproval)
                    case _ => s.route)
    && (if s'.next == Some(MarkNeedsReapproval)
        then s'.evidence == Some(found.value.evidence) && s'.assessment == Some(found.value.assessment) && s'.plan == found.value.plan
             && s'.binding == BuildBinding(found.value.evidence, found.value.plan.value)
        else s'.evidence == s.evidence && s'.assessment == s.assessment && s'.plan == s.plan && s'.binding == s.binding)
  }

  lemma FailuresRoute(runtime: bool, s: RootState, verdict: Option<VerificationDecision>, found: Option<ScenarioResult>, f: Failure)
    requires !runtime || verdict.None? || found.None?
    ensures Routed(runtime, s, verdict, found, Fail(s, f))
  {
  }

  lemma VerdictsRoute(s: RootState, s': RootState, verdict: VerificationDecision, found: ScenarioResult, route: Route)
    requires s.plan.Some? && s.binding.Some? && found.plan.Some? && BuildBinding(found.evidence, found.plan.value).Some?
    requires route == ChooseVerificationRoute(verdict, s.plan.value,
                                              FactsOf(BuildBinding(found.evidence, found.plan.value).value) == FactsOf(s.binding.value))
    requires s'.evidence == s.evidence && s'.assessment == s.assessment && s'.plan == s.plan && s'.binding == s.binding
    ensures Routed(true, s, Some(verdict), Some(found), FollowRoute(s', found, route))
  {
  }

  lemma JudgementRoutes(s: RootState, e: Environment, refreshed: seq<Observation>, found: ScenarioResult)
    requires s.plan.Some? && s.evidence.Some? && s.binding.Some? && s.binding == BuildBinding(s.evidence.value, s.plan.value)
    requires KindOfEvidence(found.evidence) == KindOfEvidence(s.evidence.value)
    requires found.plan.Some? ==> BuildBinding(found.evidence, found.plan.value).Some?
    ensures Routed(true, s, e.verdict, Some(found), JudgeRefreshed(s, e, refreshed, found))
  {
    BindingsAreOfOneKind(s.evidence.value, s.plan.value);
    if e.verdict.None? {
      FailuresRoute(true, s, e.verdict, Some(found), ApprovalSnapshotMismatch);
    } else if found.plan.Some? {
      VerdictsRoute(s, s.(refreshed := refreshed, verification := e.verdict), e.verdict.value, found,
                    ChooseVerificationRoute(e.verdict.value, s.plan.value,
                                            FactsOf(BuildBinding(found.evidence, found.plan.value).value) == FactsOf(s.binding.value)));
    }
  }

  lemma RefreshRoutes(config: Config, intent: GoalEncoding, s: RootState, e: Environment)
    requires s.loop.goal == Some(intent) && PlanSound(intent, s) && FitsScenario(intent, s)
    requires config.runtimePresent ==> s.binding.Some?
    ensures Routed(config.runtimePresent, s, e.verdict, Found(intent, s, e), RefreshNode(config, s, e))
  {
    var found := Found(intent, s, e);
    if config.runtimePresent && found.Some? {
      var refreshed := Refresh(intent, e.refreshGateway);
      EvaluationNeedsBothReads(intent, e.refreshGateway, s.analysis.value, e.clock);
      ResultsAreEvaluated(intent, refreshed, s.analysis.value, e.clock);
      ResultsAreOfTheGoalsKind(intent, refreshed, s.analysis.value, e.clock);
      JudgementRoutes(s, e, refreshed, found.value);
    } else {
      FailuresRoute(config.runtimePresent, s, e.verdict, found, RefreshNode(config, s, e).failure.value);
    }
  }

  /** Which of its four ways a surviving re-verification takes, anywhere in any run. */
  lemma RefreshRoutesExactly(r: Run, j: nat)
    requires r.Valid() && j < |r.environments|
    requires r.states[j].next == Some(RefreshAndVerify) && r.environments[j].survives
    ensures Routed(r.config.runtimePresent, r.states[j], r.environments[j].verdict, Found(r.intent, r.states[j], r.environments[j]),
                   r.states[j + 1])
  {
    RunsAreSound(r, j);
    RunsFitTheirScenario(r, j);
    if r.config.runtimePresent {
      RunsAreBound(r, j);
    }
    assert r.StepAt(j);
    RefreshRoutes(r.config, r.intent, r.states[j], r.environments[j]);
  }

  // ---- Endings ----------------------------------------------------------------------------------------------------

  /** On the way to an end through `node`, or ended with its status. Storage may still fail. */
  predicate Ending(s: RootState, node: RootNode, status: RootStatus) {
    match s.next
    case Some(n) => n == node || n.MarkFailed?
    case None => s.status == status || s.status.Failed?
  }

  lemma EndingsStay(config: Config, intent: GoalEncoding, s: RootState, e: Environment, node: RootNode, status: RootStatus)
    requires Ending(s, node, status)
    requires (node.MarkVerifierAborted? && status.Aborted?) || (node.MarkRejected? && status.Rejected?)
    ensures Ending(StepRoot(config, intent, s, e), node, status)
  {
  }

  lemma {:induction false} EndingsAreFinal(r: Run, j: nat, i: nat, node: RootNode, status: RootStatus)
    requires r.Valid() && j <= i <= |r.environments| && Ending(r.states[j], node, status)
    requires (node.MarkVerifierAborted? && status.Aborted?) || (node.MarkRejected? && status.Rejected?)
    ensures Ending(r.states[i], node, status)
    decreases i
  {
    if j < i {
      EndingsAreFinal(r, j, i - 1, node, status);
      assert r.StepAt(i - 1);
      EndingsStay(r.config, r.intent, r.states[i - 1], r.environments[i - 1], node, status);
    }
  }

  /** Once the verifier has said to abort, nothing is acted on and nobody is asked again: the run can only end
      aborted, or failed if that could not be stored. */
  lemma AbortsAreFinal(r: Run, j: nat, i: nat)
    requires r.Valid() && j < i <= |r.environments|
    requires r.states[j].next == Some(RefreshAndVerify) && r.environments[j].survives
    requires r.environments[j].verdict.Some? && r.environments[j].verdict.value.decision.Abort?
    ensures Ending(r.states[i], MarkVerifierAborted, Aborted)
    ensures r.states[i].next.Some? ==> !Approved(r.states[i].next.value) && !r.states[i].next.value.ApprovalInterrupt?
  {
    RefreshRoutesExactly(r, j);
    EndingsAreFinal(r, j + 1, i, MarkVerifierAborted, Aborted);
  }

  /** Once a human has said no, the run can only end rejected, or failed if that could not be stored. */
  lemma RejectionsAreFinal(r: Run, k: nat, i: nat)
    requires r.Valid() && k < i <= |r.environments|
    requires r.states[k].next == Some(ApprovalInterrupt) && r.environments[k].survives
    requires r.environments[k].answer.Resumed? && r.environments[k].answer.approval.decision.Reject?
    ensures Ending(r.states[i], MarkRejected, Rejected)
    ensures r.states[i].next.Some? ==> !Approved(r.states[i].next.value) && !r.states[i].next.value.ApprovalInterrupt?
  {
    assert r.StepAt(k);
    EndingsAreFinal(r, k + 1, i, MarkRejected, Rejected);
  }

  /** Whether the end was stored, or failed to be. Without a runtime a rejection needs no storing. */
  lemma EndsAreStoredExactly(r: Run, i: nat)
    requires r.Valid() && i < |r.environments| && r.environments[i].survives
    requires r.states[i].next == Some(MarkRejected) || r.states[i].next == Some(MarkVerifierAborted)
    ensures var s, s', e := r.states[i], r.states[i + 1], r.environments[i];
            if s.next == Some(MarkRejected)
            then if r.config.runtimePresent && !e.repositoryAccepts then HasFailed(s') else s'.next.None? && s'.status.Rejected?
            else if r.config.runtimePresent && e.repositoryAccepts then s'.next.None? && s'.status.Aborted? else HasFailed(s')
  {
    assert r.StepAt(i);
  }

  // ---- From the model to the human --------------------------------------------------------------------------------

  /** Steps `i` to `j` of the run were all checkpointed. */
  ghost predicate Survives(r: Run, i: nat, j: nat)
    requires r.Valid() && j <= |r.environments|
  {
    forall k | i <= k < j :: r.environments[k].survives
  }

  /** Over, or about to be, as a failure. */
  predicate HasFailed(s: RootState) {
    s.status.Failed? && (s.next == Some(MarkFailed) || s.next.None?)
  }

  lemma FailuresStay(config: Config, intent: GoalEncoding, s: RootState, e: Environment)
    requires HasFailed(s)
    ensures HasFailed(StepRoot(config, intent, s, e))
  {
  }

  lemma {:induction false} FailuresAreFinal(r: Run, i: nat, j: nat)
    requires r.Valid() && i <= j <= |r.environments| && HasFailed(r.states[i])
    ensures HasFailed(r.states[j])
    decreases j
  {
    if i < j {
      FailuresAreFinal(r, i, j - 1);
      assert r.StepAt(j - 1);
      FailuresStay(r.config, r.intent, r.states[j - 1], r.environments[j - 1]);
    }
  }

  /** The graph's first word to the model is accepted only in the form the operation was opened with. */
  lemma GoalsAreTrustedExactly(r: Run)
    requires r.Valid() && 2 <= |r.environments| && Survives(r, 0, 2)
    ensures var accepted := r.environments[0].goalReply == Some(r.intent)
                            && (r.config.runtimePresent ==> r.environments[1].repositoryAccepts);
            if accepted then r.states[2].next == Some(ModelDecide) && r.states[2].loop.goal == Some(r.intent) else HasFailed(r.states[2])
  {
    assert r.StepAt(0) && r.StepAt(1);
  }

  /** A turn fits if it is a turn at all, a model call is left for it, and policy and budget allow it on top of all
      earlier calls. */
  ghost predicate Fits(config: Config, intent: GoalEncoding, loop: LoopState, calls: seq<ToolCall>) {
    loop.modelCalls < config.maxModelCalls && 1 <= |calls| <= 4 && PolicyOf(config, intent).Admits(loop.authorized + calls)
  }

  /** What carrying out a turn's reads makes of the loop. */
  ghost predicate CarriedOut(before: LoopState, calls: seq<ToolCall>, gateway: ToolCall -> ReadReply, after: LoopState) {
    && after.modelCalls == before.modelCalls + 1
    && after.authorized == before.authorized + calls
    && |after.observations| == |before.observations| + |calls| && before.observations <= after.observations
    && forall i | 0 <= i < |calls| :: Reports(after.observations[|before.observations| + i], calls[i], gateway(calls[i]))
  }

  /** A turn that asks for reads is carried out whole, exactly if it fits; otherwise the run fails. Each new call is
      answered by the gateway, in order. */
  lemma RoundsSucceedExactly(r: Run, j: nat, calls: seq<ToolCall>)
    requires r.Valid() && j + 3 <= |r.environments| && Survives(r, j, j + 3)
    requires r.states[j].next == Some(ModelDecide) && r.environments[j].turnReply == Some(ToolDecision(calls))
    ensures if Fits(r.config, r.intent, r.states[j].loop, calls)
            then r.states[j + 3].next == Some(ModelDecide)
                 && CarriedOut(r.states[j].loop, calls, r.environments[j + 2].gateway, r.states[j + 3].loop)
            else HasFailed(r.states[j + 3])
  {
    AgentLoopIsSafe(r, j);
    TurnsAreAuthorizedExactly(r, j, calls);
    if HasFailed(r.states[j + 2]) {
      FailuresAreFinal(r, j + 2, j + 3);
    } else {
      ReadsAreExecuted(r, j + 2, r.states[j].loop, calls);
    }
  }

  lemma TurnsAreAuthorizedExactly(r: Run, j: nat, calls: seq<ToolCall>)
    requires r.Valid() && j + 3 <= |r.environments| && Survives(r, j, j + 3)
    requires r.states[j].next == Some(ModelDecide) && r.environments[j].turnReply == Some(ToolDecision(calls))
    ensures var before, s' := r.states[j].loop, r.states[j + 2];
            if Fits(r.config, r.intent, before, calls)
            then s'.next == Some(ExecuteReadTools) && s'.loop.modelCalls == before.modelCalls + 1
                 && s'.loop.authorized == before.authorized + calls && s'.loop.observations == before.observations
            else HasFailed(s')
  {
    TurnsAreTaken(r, j, calls);
    if HasFailed(r.states[j + 1]) {
      FailuresAreFinal(r, j + 1, j + 2);
    } else {
      CallsAreAuthorized(r, j + 1, r.states[j].loop, calls);
    }
  }

  lemma TurnsAreTaken(r: Run, j: nat, calls: seq<ToolCall>)
    requires r.Valid() && j < |r.environments| && r.environments[j].survives
    requires r.states[j].next == Some(ModelDecide) && r.environments[j].turnReply == Some(ToolDecision(calls))
    ensures var before, s' := r.states[j].loop, r.states[j + 1];
            if before.modelCalls < r.config.maxModelCalls && 1 <= |calls| <= 4 && |before.authorized| + |calls| <= r.config.maxToolCalls
            then s'.next == Some(AuthorizeTools)
                 && s'.loop == before.(lastTurn := Some(ToolDecision(calls)), modelCalls := before.modelCalls + 1)
            else HasFailed(s') && !Fits(r.config, r.intent, before, calls)
  {
    RunsAreSound(r, j);
    assert r.StepAt(j);
  }

  lemma CallsAreAuthorized(r: Run, j: nat, before: LoopState, calls: seq<ToolCall>)
    requires r.Valid() && j < |r.environments| && r.environments[j].survives && r.states[j].next == Some(AuthorizeTools)
    requires r.states[j].loop == before.(lastTurn := Some(ToolDecision(calls)), modelCalls := before.modelCalls + 1)
    ensures var s' := r.states[j + 1];
            if PolicyOf(r.config, r.intent).Admits(before.authorized + calls)
            then s'.next == Some(ExecuteReadTools) && s'.loop.modelCalls == before.modelCalls + 1
                 && s'.loop.authorized == before.authorized + calls && s'.loop.observations == before.observations
            else HasFailed(s')
  {
    RunsAreSound(r, j);
    assert r.StepAt(j);
    AuthorizeAllExactly(PolicyOf(r.config, r.intent), calls, before.authorized);
  }

  lemma ReadsAreExecuted(r: Run, j: nat, before: LoopState, calls: seq<ToolCall>)
    requires r.Valid() && j < |r.environments| && r.environments[j].survives && r.states[j].next == Some(ExecuteReadTools)
    requires r.states[j].loop.modelCalls == before.modelCalls + 1 && |before.observations| == |before.authorized|
    requires r.states[j].loop.authorized == before.authorized + calls && r.states[j].loop.observations == before.observations
    ensures r.states[j + 1].next == Some(ModelDecide)
    ensures CarriedOut(before, calls, r.environments[j].gateway, r.states[j + 1].loop)
  {
    RunsAreSound(r, j);
    assert r.StepAt(j);
    NewReadsAreObserved(before.authorized, calls, before.observations, r.environments[j].gateway);
  }

  lemma NewReadsAreObserved(authorized: seq<ToolCall>, calls: seq<ToolCall>, before: seq<Observation>, gateway: ToolCall -> ReadReply)
    requires DistinctIds(authorized + calls) && AnswersPrefix(authorized + calls, before) && |before| == |authorized|
    ensures var after := ReadsStep(authorized + calls, before, gateway);
            && |after| == |before| + |calls| && before <= after
            && forall i | 0 <= i < |calls| :: Reports(after[|before| + i], calls[i], gateway(calls[i]))
  {
    ReadsComplete(authorized + calls, before, gateway);
    var after := ReadsStep(authorized + calls, before, gateway);
    forall i | 0 <= i < |calls| ensures Reports(after[|before| + i], calls[i], gateway(calls[i])) {
      assert (authorized + calls)[|before| + i] == calls[i];
    }
  }

  predicate Seen(observations: seq<Observation>, tool: ReadTool) {
    exists o | o in observations :: o.tool == tool && o.succeeded
  }

  lemma {:induction false} SeenExactly(observations: seq<Observation>, tool: ReadTool)
    ensures Successful(observations, tool).Some? <==> Seen(observations, tool)
  {
    if observations != [] {
      var n := |observations| - 1;
      SeenExactly(observations[..n], tool);
      assert observations == observations[..n] + [observations[n]];
    }
  }

  /** A final turn is accepted exactly if a model call is left, subject and policy were read, and knowledge where it
      is required, and the model itself misses nothing; otherwise the run fails. */
  lemma FinalTurnsSucceedExactly(r: Run, j: nat, analysis: FinalAnalysis)
    requires r.Valid() && j + 2 <= |r.environments| && Survives(r, j, j + 2)
    requires r.states[j].next == Some(ModelDecide) && r.environments[j].turnReply == Some(Final(analysis))
    ensures var s, s' := r.states[j].loop, r.states[j + 2];
            if s.modelCalls < r.config.maxModelCalls && !analysis.missingEvidence
               && Seen(s.observations, SubjectTool(r.intent.scenario)) && Seen(s.observations, PolicyConstraints)
               && (r.config.knowledgeRequired ==> Seen(s.observations, KnowledgeSearch))
            then s'.next == Some(CalculatePolicy) && s'.analysis == Some(analysis.explanation) && s'.loop.observations == s.observations
            else HasFailed(s')
  {
    FinalTurnsAreTaken(r, j, analysis);
    if HasFailed(r.states[j + 1]) {
      FailuresAreFinal(r, j + 1, j + 2);
    } else {
      AnalysesAreValidated(r, j + 1, analysis);
    }
  }

  lemma FinalTurnsAreTaken(r: Run, j: nat, analysis: FinalAnalysis)
    requires r.Valid() && j < |r.environments| && r.environments[j].survives
    requires r.states[j].next == Some(ModelDecide) && r.environments[j].turnReply == Some(Final(analysis))
    ensures var before, s' := r.states[j].loop, r.states[j + 1];
            if before.modelCalls < r.config.maxModelCalls
            then s'.next == Some(ValidateFinalAnalysis) && s'.loop.lastTurn == Some(Final(analysis))
                 && s'.loop.observations == before.observations
            else HasFailed(s')
  {
    assert r.StepAt(j);
  }

  lemma AnalysesAreValidated(r: Run, j: nat, analysis: FinalAnalysis)
    requires r.Valid() && j < |r.environments| && r.environments[j].survives
    requires r.states[j].next == Some(ValidateFinalAnalysis) && r.states[j].loop.lastTurn == Some(Final(analysis))
    ensures var observations, s' := r.states[j].loop.observations, r.states[j + 1];
            if !analysis.missingEvidence && Seen(observations, SubjectTool(r.intent.scenario)) && Seen(observations, PolicyConstraints)
               && (r.config.knowledgeRequired ==> Seen(observations, KnowledgeSearch))
            then s'.next == Some(CalculatePolicy) && s'.analysis == Some(analysis.explanation) && s'.loop.observations == observations
            else HasFailed(s')
  {
    RunsAreSound(r, j);
    assert r.StepAt(j);
    var observations := r.states[j].loop.observations;
    SeenExactly(observations, SubjectTool(r.intent.scenario));
    SeenExactly(observations, PolicyConstraints);
    SeenExactly(observations, KnowledgeSearch);
  }

  /** A plan is before the human, bound to its evidence; without a plan the query is answered. */
  predicate Presented(config: Config, found: ScenarioResult, s: RootState) {
    && s.evidence == Some(found.evidence) && s.assessment == Some(found.assessment) && s.plan == found.plan
    && if found.plan.Some?
       then s.next == Some(ApprovalInterrupt) && s.status == AwaitingApproval
            && (config.runtimePresent ==> s.binding == BuildBinding(found.evidence, found.plan.value))
       else s.next.None? && s.status == if config.runtimePresent then RootStatus.Completed else QueryCompleted
  }

  /** A calculated plan reaches the human; an evaluation that fails, or storage that does, fails the run. */
  lemma PlansReachTheHuman(r: Run, j: nat)
    requires r.Valid() && j + 2 <= |r.environments| && Survives(r, j, j + 2)
    requires r.states[j].next == Some(CalculatePolicy) && r.states[j].analysis.Some?
    ensures match EvaluateAgentResult(r.intent, r.states[j].loop.observations, r.states[j].analysis.value, r.environments[j].clock)
            case Err(reason) => HasFailed(r.states[j + 2]) && r.states[j + 2].failure == Some(PolicyGuardFailed(reason))
            case Ok(found) =>
              if r.config.runtimePresent && !r.environments[j + 1].repositoryAccepts then HasFailed(r.states[j + 2])
              else Presented(r.config, found, r.states[j + 2])
  {
    ResultIsCalculated(r, j);
    ResultIsPersisted(r, j + 1);
  }

  lemma ResultIsCalculated(r: Run, j: nat)
    requires r.Valid() && j < |r.environments| && r.environments[j].survives
    requires r.states[j].next == Some(CalculatePolicy) && r.states[j].analysis.Some?
    ensures Calculated(EvaluateAgentResult(r.intent, r.states[j].loop.observations, r.states[j].analysis.value, r.environments[j].clock),
                       r.states[j + 1])
  {
    RunsAreSound(r, j);
    assert r.StepAt(j);
    PolicyIsCalculated(r.intent, r.states[j], r.environments[j]);
  }

  lemma ResultIsPersisted(r: Run, j: nat)
    requires r.Valid() && j < |r.environments| && r.environments[j].survives && r.states[j].next == Some(PersistPolicyResult)
    ensures Persisted(r.config, r.states[j], r.environments[j], r.states[j + 1])
  {
    assert r.StepAt(j);
    ResultsArePersisted(r.config, r.states[j], r.environments[j]);
  }

  predicate Calculated(result: Result<ScenarioResult, EvaluationError>, s: RootState) {
    && s.next == Some(PersistPolicyResult)
    && match result
       case Err(reason) => s.status.Failed? && s.failure == Some(PolicyGuardFailed(reason))
       case Ok(found) =>
         && s.evidence == Some(found.evidence) && s.assessment == Some(found.assessment) && s.plan == found.plan
         && s.status == (if found.plan.Some? then AwaitingApproval else QueryCompleted)
         && (found.plan.Some? ==> BuildBinding(found.evidence, found.plan.value).Some?)
  }

  predicate Persisted(config: Config, s: RootState, e: Environment, s': RootState) {
    && (s.status.Failed? ==> HasFailed(s') && s'.failure == s.failure)
    && (s.status.AwaitingApproval? && s.evidence.Some? && s.plan.Some? && BuildBinding(s.evidence.value, s.plan.value).Some? ==>
          if config.runtimePresent && !e.repositoryAccepts then HasFailed(s')
          else s'.next == Some(ApprovalInterrupt) && s'.status == s.status && s'.plan == s.plan && s'.evidence == s.evidence
               && s'.assessment == s.assessment
               && (config.runtimePresent ==> s'.binding == BuildBinding(s.evidence.value, s.plan.value)))
    && (s.status.QueryCompleted? ==>
          if config.runtimePresent && !e.repositoryAccepts then HasFailed(s')
          else s'.next.None? && s'.status == (if config.runtimePresent then RootStatus.Completed else QueryCompleted)
               && s'.plan == s.plan && s'.evidence == s.evidence && s'.assessment == s.assessment)
  }

  lemma PolicyIsCalculated(intent: GoalEncoding, s: RootState, e: Environment)
    requires s.loop.goal == Some(intent) && s.analysis.Some?
    ensures Calculated(EvaluateAgentResult(intent, s.loop.observations, s.analysis.value, e.clock), CalculatePolicyNode(s, e))
  {
    var result := EvaluateAgentResult(intent, s.loop.observations, s.analysis.value, e.clock);
    if result.Ok? {
      ResultsAreEvaluated(intent, s.loop.observations, s.analysis.value, e.clock);
      GoalsDecideOnPlans(intent, s.loop.observations, s.analysis.value, e.clock);
    }
  }

  /** Only a goal that asks for a work order is answered with a plan. */
  lemma GoalsDecideOnPlans(goal: GoalEncoding, observations: seq<Observation>, x: Explanation, now: Instant)
    requires EvaluateAgentResult(goal, observations, x, now).Ok?
    ensures EvaluateAgentResult(goal, observations, x, now).value.plan.Some? ==> goal.goal.CreateWorkOrder?
  {
    var subject := Successful(observations, SubjectTool(goal.scenario)).value;
    var policy := Successful(observations, PolicyConstraints).value;
    var parsed := ParseBundle(goal.scenario, subject.payload, policy.payload).value;
    EvaluatedPlansAreBindable(goal.goal.CreateWorkOrder?, parsed, x, now);
  }

  lemma ResultsArePersisted(config: Config, s: RootState, e: Environment)
    requires s.next == Some(PersistPolicyResult)
    ensures Persisted(config, s, e, PersistPolicyNode(config, s, e))
  {
  }

  // ---- From the human to the work order ---------------------------------------------------------------------------

  /** At the interrupt a run waits, fails on a malformed answer, or takes the answer and keeps everything else. */
  lemma AnswersAreTaken(r: Run, k: nat)
    requires r.Valid() && k < |r.environments| && r.states[k].next == Some(ApprovalInterrupt) && r.environments[k].survives
    ensures var s, s' := r.states[k], r.states[k + 1];
            match r.environments[k].answer
            case NoAnswer => s' == s
            case Malformed => HasFailed(s')
            case Resumed(a) =>
              && s' == s.(approval := Some(a), next := s'.next)
              && (s'.next == Some(RefreshAndVerify) <==> a.decision.Approve?)
              && (s'.next == Some(MarkRejected) <==> a.decision.Reject?)
  {
    assert r.StepAt(k);
  }

  /** A changed plan is put before the human again, with the earlier answer taken back. */
  lemma ReapprovalsAskAgain(r: Run, j: nat)
    requires r.Valid() && j < |r.environments| && r.states[j].next == Some(MarkNeedsReapproval) && r.environments[j].survives
    ensures var s, s' := r.states[j], r.states[j + 1];
            if r.config.runtimePresent && r.environments[j].repositoryAccepts
            then s'.next == Some(ApprovalInterrupt) && s'.status == NeedsReapproval && s'.approval.None?
                 && s'.plan == s.plan && s'.binding == s.binding && s'.evidence == s.evidence
            else HasFailed(s')
  {
    assert r.StepAt(j);
  }

  /** The write went through and everything around it was stored. */
  predicate Written(runtime: bool, e: seq<Environment>)
    requires |e| == 2
  {
    runtime && e[0].repositoryAccepts && e[1].written.Some?
  }

  predicate Verified(runtime: bool, e: seq<Environment>, order: Tables.WorkOrderRow)
    requires |e| == 3
  {
    && runtime && e[0].repositoryAccepts && e[2].repositoryAccepts
    && e[1].stored.Some? && SameOrder(e[1].stored.value, order)
  }

  /** Work that begins is completed exactly if every status is stored, the order is written, and the order read back
      is the one written; otherwise the run fails. */
  lemma ActionCompletesExactly(r: Run, j: nat)
    requires r.Valid() && j + 5 <= |r.environments| && Survives(r, j, j + 5) && r.states[j].next == Some(MarkExecuting)
    ensures var s', e, runtime := r.states[j + 5], r.environments, r.config.runtimePresent;
            if Written(runtime, e[j..j + 2]) && Verified(runtime, e[j + 2..j + 5], e[j + 1].written.value.0)
            then s'.next.None? && s'.status == RootStatus.Completed
                 && s'.workOrder == Some(e[j + 1].written.value.0) && s'.replayed == e[j + 1].written.value.1
            else HasFailed(s')
  {
    RunsAreSound(r, j);
    ExecutionIsWritten(r, j);
    if HasFailed(r.states[j + 2]) {
      FailuresAreFinal(r, j + 2, j + 5);
    } else {
      WritingIsVerified(r, j + 2, r.environments[j + 1].written.value);
    }
  }

  predicate SameOrder(a: Tables.WorkOrderRow, b: Tables.WorkOrderRow) {
    a.id == b.id && a.operationId == b.operationId && a.payload == b.payload && a.payloadHash == b.payloadHash
  }

  /** A node that only stores a status leads on with everything else kept. */
  lemma StatusIsStored(r: Run, j: nat, node: RootNode, onward: RootNode)
    requires r.Valid() && j < |r.environments| && r.environments[j].survives && r.states[j].next == Some(node)
    requires (node.MarkExecuting? && onward.ExecuteWorkOrder?) || (node.MarkVerifying? && onward.VerifyWorkOrder?)
    ensures if r.config.runtimePresent && r.environments[j].repositoryAccepts
            then r.states[j + 1] == r.states[j].(next := Some(onward)) else HasFailed(r.states[j + 1])
  {
    assert r.StepAt(j);
  }

  lemma OrderIsCompared(r: Run, j: nat, written: (Tables.WorkOrderRow, bool))
    requires r.Valid() && j < |r.environments| && r.environments[j].survives && r.states[j].next == Some(VerifyWorkOrder)
    requires r.config.runtimePresent && r.states[j].workOrder == Some(written.0) && r.states[j].replayed == written.1
    ensures var s', e := r.states[j + 1], r.environments[j];
            if e.stored.Some? && SameOrder(e.stored.value, written.0)
            then s'.next == Some(MarkCompleted) && s'.workOrder == Some(written.0) && s'.replayed == written.1
            else HasFailed(s')
  {
    assert r.StepAt(j);
  }

  lemma ExecutionIsWritten(r: Run, j: nat)
    requires r.Valid() && j + 2 <= |r.environments| && Survives(r, j, j + 2) && r.states[j].next == Some(MarkExecuting)
    requires r.states[j].plan.Some?
    ensures var s', e := r.states[j + 2], r.environments;
            if Written(r.config.runtimePresent, e[j..j + 2])
            then s'.next == Some(MarkVerifying) && s'.workOrder == Some(e[j + 1].written.value.0) && s'.replayed == e[j + 1].written.value.1
            else HasFailed(s')
  {
    StatusIsStored(r, j, MarkExecuting, ExecuteWorkOrder);
    if HasFailed(r.states[j + 1]) {
      FailuresAreFinal(r, j + 1, j + 2);
    } else {
      assert r.StepAt(j + 1);
    }
  }

  lemma WritingIsVerified(r: Run, j: nat, written: (Tables.WorkOrderRow, bool))
    requires r.Valid() && j + 3 <= |r.environments| && Survives(r, j, j + 3) && r.states[j].next == Some(MarkVerifying)
    requires r.states[j].workOrder == Some(written.0) && r.states[j].replayed == written.1
    ensures var s', e := r.states[j + 3], r.environments;
            if Verified(r.config.runtimePresent, e[j..j + 3], written.0)
            then s'.next.None? && s'.status == RootStatus.Completed && s'.workOrder == Some(written.0) && s'.replayed == written.1
            else HasFailed(s')
  {
    OrdersAreReadBack(r, j, written);
    if HasFailed(r.states[j + 2]) {
      FailuresAreFinal(r, j + 2, j + 3);
    }
    assert r.StepAt(j + 2);
  }

  lemma OrdersAreReadBack(r: Run, j: nat, written: (Tables.WorkOrderRow, bool))
    requires r.Valid() && j + 2 <= |r.environments| && Survives(r, j, j + 2) && r.states[j].next == Some(MarkVerifying)
    requires r.states[j].workOrder == Some(written.0) && r.states[j].replayed == written.1
    ensures var s', e := r.states[j + 2], r.environments;
            if r.config.runtimePresent && e[j].repositoryAccepts && e[j + 1].stored.Some? && SameOrder(e[j + 1].stored.value, written.0)
            then s'.next == Some(MarkCompleted) && s'.workOrder == Some(written.0) && s'.replayed == written.1
            else HasFailed(s')
  {
    StatusIsStored(r, j, MarkVerifying, VerifyWorkOrder);
    if HasFailed(r.states[j + 1]) {
      FailuresAreFinal(r, j + 1, j + 2);
    } else {
      OrderIsCompared(r, j + 1, written);
    }
  }
}
