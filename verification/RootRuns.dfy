/** What every run of the agent graph guarantees, whatever model, approver, gateways and crashes do. */
module RootRuns {
  import opened AgentDomain
  import opened AgentLoops
  import opened Digests
  import opened RootGraph
  import opened ScenarioRuntime
  import opened Scenarios
  import opened ToolPolicies
  import opened Verification
  import opened Wrappers
  import ReliabilityGraph
  import Replenishment

  // ---- The agent loop ------------------------------------------------------------------------------------------

  /** Whatever the model proposes, its authorized calls are the goal's own, distinct and few, its turns
      are bounded, and whenever it is asked again every call it made has one observation, in order. */
  lemma AgentLoopIsSafe(r: Run, i: nat)
    requires r.Valid() && i <= |r.environments|
    ensures var s := r.states[i];
            var policy := PolicyOf(r.config, r.intent);
            && policy.Admits(s.loop.authorized) && |s.loop.authorized| <= policy.Limit()
            && s.loop.modelCalls <= 2 + policy.Limit()
            && AnswersPrefix(s.loop.authorized, s.loop.observations)
            && (s.next == Some(ModelDecide) ==> Answers(s.loop.authorized, s.loop.observations))
  {
    RunsAreSound(r, i);
    SoundLoopsAreSafe(r.config, r.intent, r.states[i]);
  }

  lemma SoundLoopsAreSafe(config: Config, intent: GoalEncoding, s: RootState)
    requires LoopPartSound(config, intent, s)
    ensures var policy := PolicyOf(config, intent);
            && policy.Admits(s.loop.authorized) && |s.loop.authorized| <= policy.Limit()
            && s.loop.modelCalls <= 2 + policy.Limit()
            && AnswersPrefix(s.loop.authorized, s.loop.observations)
            && (s.next == Some(ModelDecide) ==> Answers(s.loop.authorized, s.loop.observations))
  {
    if s.loop != INITIAL_LOOP {
      var phase := SomePhase(config, intent, s);
      LoopIsBounded(config, intent, s.loop, phase);
    }
  }

  lemma SomePhase(config: Config, intent: GoalEncoding, s: RootState) returns (phase: LoopPhase)
    requires LoopPartSound(config, intent, s) && s.loop != INITIAL_LOOP
    ensures LoopSound(config, intent, s.loop, phase)
  {
    if s.next.Some? && !s.next.value.MarkFailed? {
      phase := PhaseAt(s.next.value);
    } else {
      phase :| LoopSound(config, intent, s.loop, phase);
    }
  }

  /** A budget with a model call for the goal, one for every possible tool call and one to finish is never
      what stops a run. */
  lemma {:induction false} ModelBudgetIsNeverExceeded(r: Run, i: nat)
    requires r.Valid() && i <= |r.environments|
    requires 2 + PolicyOf(r.config, r.intent).Limit() <= r.config.maxModelCalls
    ensures r.states[i].failure != Some(ModelBudgetExceeded)
  {
    if i > 0 {
      ModelBudgetIsNeverExceeded(r, i - 1);
      RunsAreSound(r, i - 1);
      assert r.StepAt(i - 1);
      StepKeepsBudget(r.config, r.intent, r.states[i - 1], r.environments[i - 1]);
    }
  }

  lemma StepKeepsBudget(config: Config, intent: GoalEncoding, s: RootState, e: Environment)
    requires 2 + PolicyOf(config, intent).Limit() <= config.maxModelCalls
    requires LoopPartSound(config, intent, s) && s.failure != Some(ModelBudgetExceeded)
    ensures StepRoot(config, intent, s, e).failure != Some(ModelBudgetExceeded)
  {
    if e.survives && s.next.Some? {
      var node := s.next.value;
      if node.ModelDecide? {
        ModelBudgetSuffices(config, intent, s.loop, e.turnReply);
      } else if BeforeApproval(node) {
        InvestigationKeepsBudget(config, intent, s, e, node);
      } else {
        ConclusionKeepsBudget(config, s, e, node);
      }
    }
  }

  lemma InvestigationKeepsBudget(config: Config, intent: GoalEncoding, s: RootState, e: Environment, node: RootNode)
    requires s.failure != Some(ModelBudgetExceeded) && BeforeApproval(node) && !node.ModelDecide?
    ensures Investigate(config, intent, s, e, node).failure != Some(ModelBudgetExceeded)
  {
  }

  lemma ConclusionKeepsBudget(config: Config, s: RootState, e: Environment, node: RootNode)
    requires s.failure != Some(ModelBudgetExceeded)
    ensures Conclude(config, s, e, node).failure != Some(ModelBudgetExceeded)
  {
  }

  /** Six model calls and four tool calls are what the graph is built with when no budget is given. */
  lemma DefaultBudgetSuffices(r: Run, i: nat)
    requires r.Valid() && i <= |r.environments| && r.config.maxModelCalls == 6 && r.config.maxToolCalls == 4
    ensures r.states[i].failure != Some(ModelBudgetExceeded)
  {
    ModelBudgetIsNeverExceeded(r, i);
  }

  /** Steps the agent loop may still take: nothing once it has been left. */
  function LoopFuel(config: Config, intent: GoalEncoding, s: RootState): int {
    var left := PolicyOf(config, intent).Limit() - |s.loop.authorized|;
    match s.next
    case Some(EncodeGoal) => 3 * left + 2
    case Some(BeginOperation) => 3 * left + 2
    case Some(ModelDecide) => 3 * left + 2
    case Some(AuthorizeTools) => 3 * left + 1
    case Some(ExecuteReadTools) => 3 * left + 3
    case _ => 0
  }

  predicate InLoop(s: RootState) {
    s.next == Some(ModelDecide) || s.next == Some(AuthorizeTools) || s.next == Some(ExecuteReadTools)
  }

  /** How many of a run's first `i` steps worked in the agent loop and were checkpointed. */
  function LoopSteps(r: Run, i: nat): nat
    requires r.Valid() && i <= |r.environments|
  {
    if i == 0 then 0
    else LoopSteps(r, i - 1) + if r.environments[i - 1].survives && InLoop(r.states[i - 1]) then 1 else 0
  }

  /** The loop terminates: in any run, with any model and however often nodes are crashed and replayed,
      at most three steps per possible call and two more are ever taken in it. */
  lemma {:induction false} LoopTerminates(r: Run, i: nat)
    requires r.Valid() && i <= |r.environments|
    ensures 0 <= LoopFuel(r.config, r.intent, r.states[i])
    ensures LoopSteps(r, i) + LoopFuel(r.config, r.intent, r.states[i]) <= 3 * PolicyOf(r.config, r.intent).Limit() + 2
    ensures LoopSteps(r, i) <= 3 * PolicyOf(r.config, r.intent).Limit() + 2
  {
    if i > 0 {
      LoopTerminates(r, i - 1);
      RunsAreSound(r, i - 1);
      assert r.StepAt(i - 1);
      StepsMove(r.config, r.intent, r.states[i - 1], r.environments[i - 1]);
    }
  }

  lemma MovesAt(r: Run, i: nat)
    requires r.Valid() && i < |r.environments|
    ensures if r.environments[i].survives && InLoop(r.states[i])
            then MovesInLoop(r.config, r.intent, r.states[i], r.states[i + 1])
            else MovesOutside(r.config, r.intent, r.states[i], r.states[i + 1])
  {
    RunsAreSound(r, i);
    LoopTerminates(r, i);
    assert r.StepAt(i);
    StepsMove(r.config, r.intent, r.states[i], r.environments[i]);
  }

  /** Past the agent loop, successfully or not. */
  predicate LoopIsOver(s: RootState) {
    s.next.Some? ==> !Exploring(s.next.value)
  }

  predicate SameLists(s: RootState, s': RootState) {
    s'.loop.authorized == s.loop.authorized && s'.loop.observations == s.loop.observations
  }

  /** A step in the loop uses fuel, extends the lists, and leaves them alone when it ends the loop. */
  predicate MovesInLoop(config: Config, intent: GoalEncoding, s: RootState, s': RootState) {
    && 0 <= LoopFuel(config, intent, s') < LoopFuel(config, intent, s)
    && s.loop.authorized <= s'.loop.authorized && s.loop.observations <= s'.loop.observations
    && (LoopIsOver(s') ==> SameLists(s, s'))
  }

  /** Any other step leaves the lists alone and never leads back into a loop that is over. */
  predicate MovesOutside(config: Config, intent: GoalEncoding, s: RootState, s': RootState) {
    && 0 <= LoopFuel(config, intent, s') <= LoopFuel(config, intent, s)
    && SameLists(s, s') && (LoopIsOver(s) ==> LoopIsOver(s') && s'.loop == s.loop)
  }

  lemma DecidingMoves(config: Config, intent: GoalEncoding, s: RootState, e: Environment)
    requires LoopSound(config, intent, s.loop, Deciding) && s.next == Some(ModelDecide)
    ensures MovesInLoop(config, intent, s, ModelDecideNode(config, s, e))
  {
    LoopIsBounded(config, intent, s.loop, Deciding);
  }

  lemma AuthorizingMoves(config: Config, intent: GoalEncoding, s: RootState)
    requires LoopSound(config, intent, s.loop, Authorizing) && s.next == Some(AuthorizeTools)
    ensures MovesInLoop(config, intent, s, AuthorizeToolsNode(config, s))
  {
    LoopIsBounded(config, intent, s.loop, Authorizing);
    if AuthorizeStep(config, s.loop).Ok? {
      AuthorizeKeepsLoop(config, intent, s.loop);
      LoopIsBounded(config, intent, AuthorizeStep(config, s.loop).value, Executing);
    }
  }

  lemma ExecutingMoves(config: Config, intent: GoalEncoding, s: RootState, e: Environment)
    requires LoopSound(config, intent, s.loop, Executing) && s.next == Some(ExecuteReadTools)
    ensures MovesInLoop(config, intent, s, s.(loop := ExecuteStep(s.loop, e.gateway), next := Some(ModelDecide)))
  {
    LoopIsBounded(config, intent, s.loop, Executing);
    ExecuteKeepsLoop(config, intent, s.loop, e.gateway);
  }

  lemma LoopNodesMove(config: Config, intent: GoalEncoding, s: RootState, e: Environment, node: RootNode)
    requires LoopPartSound(config, intent, s) && s.next == Some(node) && InLoop(s)
    ensures MovesInLoop(config, intent, s, Explore(config, intent, s, e, node))
  {
    match node {
      case ModelDecide => DecidingMoves(config, intent, s, e);
      case AuthorizeTools => AuthorizingMoves(config, intent, s);
      case ExecuteReadTools => ExecutingMoves(config, intent, s, e);
    }
  }

  lemma FirstNodesMove(config: Config, intent: GoalEncoding, s: RootState, e: Environment, node: RootNode)
    requires s.next == Some(node) && (node.EncodeGoal? || node.BeginOperation?) && 0 <= LoopFuel(config, intent, s)
    ensures MovesOutside(config, intent, s, Explore(config, intent, s, e, node))
  {
  }

  lemma PolicyNodesMove(config: Config, intent: GoalEncoding, s: RootState, e: Environment, node: RootNode)
    requires s.next == Some(node) && BeforeApproval(node) && !Exploring(node)
    ensures MovesOutside(config, intent, s, Investigate(config, intent, s, e, node))
  {
  }

  lemma ConclusionsMove(config: Config, intent: GoalEncoding, s: RootState, e: Environment, node: RootNode)
    requires s.next == Some(node) && !BeforeApproval(node)
    ensures MovesOutside(config, intent, s, Conclude(config, s, e, node))
  {
    ActsStayPastLoop(s, e, node);
    var s' := Conclude(config, s, e, node);
    assert s'.loop == s.loop && (s'.next.Some? ==> !BeforeApproval(s'.next.value));
  }

  lemma StepsMove(config: Config, intent: GoalEncoding, s: RootState, e: Environment)
    requires LoopPartSound(config, intent, s) && 0 <= LoopFuel(config, intent, s)
    ensures var s' := StepRoot(config, intent, s, e);
            if e.survives && InLoop(s) then MovesInLoop(config, intent, s, s') else MovesOutside(config, intent, s, s')
  {
    if e.survives && s.next.Some? {
      var node := s.next.value;
      if InLoop(s) {
        LoopNodesMove(config, intent, s, e, node);
      } else if Exploring(node) {
        FirstNodesMove(config, intent, s, e, node);
      } else if BeforeApproval(node) {
        PolicyNodesMove(config, intent, s, e, node);
      } else {
        ConclusionsMove(config, intent, s, e, node);
      }
    }
  }

  /** Calls and observations only ever grow, and once the loop is over its channels never change. */
  lemma {:induction false} LoopHistoryGrows(r: Run, j: nat, i: nat)
    requires r.Valid() && j <= i <= |r.environments|
    ensures r.states[j].loop.authorized <= r.states[i].loop.authorized
    ensures r.states[j].loop.observations <= r.states[i].loop.observations
    ensures LoopIsOver(r.states[j]) ==> LoopIsOver(r.states[i]) && r.states[i].loop == r.states[j].loop
    decreases i
  {
    if j < i {
      LoopHistoryGrows(r, j, i - 1);
      MovesAt(r, i - 1);
    }
  }

  /** A turn that ends the loop, whether final, rejected or over budget, leaves both lists for the rest of the
      run as they were before it. */
  lemma RejectedTurnsLeaveNoTrace(r: Run, j: nat, i: nat)
    requires r.Valid() && j < i <= |r.environments|
    requires InLoop(r.states[j]) && LoopIsOver(r.states[j + 1])
    ensures SameLists(r.states[j], r.states[i])
  {
    MovesAt(r, j);
    LoopHistoryGrows(r, j + 1, i);
  }

  // ---- Approval, re-reading, execution ------------------------------------------------------------------------

  /** Step `k` of the run took an answer that approved exactly the plan, binding and evidence of `s`. */
  ghost predicate WasApproved(r: Run, k: nat, s: RootState)
    requires r.Valid() && k < |r.environments|
  {
    var before := r.states[k];
    && before.next == Some(ApprovalInterrupt) && r.environments[k].survives
    && s.approval.Some? && s.approval.value.decision.Approve? && r.environments[k].answer == Resumed(s.approval.value)
    && before.plan == s.plan && before.binding == s.binding && before.evidence == s.evidence && before.analysis == s.analysis
  }

  /** From step `k` to state `i` the run only re-verified and acted, so the answer of step `k` was the last. */
  ghost predicate StaysApproved(r: Run, k: nat, i: nat)
    requires r.Valid() && i <= |r.environments|
  {
    forall m | k < m <= i :: r.states[m].next.Some? && Approved(r.states[m].next.value)
  }

  ghost predicate StaysActing(r: Run, j: nat, i: nat)
    requires r.Valid() && i <= |r.environments|
  {
    forall m | j < m <= i :: r.states[m].next.Some? && Acting(r.states[m].next.value)
  }

  /** The verifier goes along with the plan. */
  predicate Consents(verdict: Option<VerificationDecision>, plan: Plan) {
    verdict.Some? && verdict.value.decision.Proceed? && Agrees(verdict.value, plan)
  }

  /** What `s` holds was re-read in environment `e`, at whose own clock it confirmed the binding of `s`. */
  ghost predicate RereadIn(intent: GoalEncoding, s: RootState, e: Environment) {
    && s.refreshed == Refresh(intent, e.refreshGateway) && s.verification == e.verdict
    && s.plan.Some? && s.analysis.Some? && s.binding.Some?
    && Consents(e.verdict, s.plan.value)
    && Reconfirms(intent, s.refreshed, s.analysis.value, e.clock, s.binding.value)
  }

  /** Step `j` of the run re-read the facts `s` acts on. */
  ghost predicate WasReread(r: Run, j: nat, s: RootState)
    requires r.Valid() && j < |r.environments|
  {
    r.states[j].next == Some(RefreshAndVerify) && r.environments[j].survives && RereadIn(r.intent, s, r.environments[j])
  }

  /** A step towards approved work takes the answer, or keeps everything the answer was given for. */
  predicate CarriesApproval(s: RootState, e: Environment, s': RootState) {
    && s'.plan == s.plan && s'.binding == s.binding && s'.evidence == s.evidence && s'.analysis == s.analysis
    && s.next.Some?
    && ((s.next.value.ApprovalInterrupt? && e.survives && s'.approval.Some? && s'.approval.value.decision.Approve?
         && e.answer == Resumed(s'.approval.value))
        || (Approved(s.next.value) && s'.approval == s.approval))
  }

  lemma ApprovalCarriesOver(config: Config, intent: GoalEncoding, s: RootState, e: Environment)
    requires RootSound(config, intent, s)
    requires var s' := StepRoot(config, intent, s, e); s'.next.Some? && Approved(s'.next.value)
    ensures CarriesApproval(s, e, StepRoot(config, intent, s, e))
  {
    if e.survives && s.next.Some? {
      var node := s.next.value;
      if BeforeApproval(node) {
        InvestigationIsUndecided(config, intent, s, e, node);
      } else if node.RefreshAndVerify? {
        RefreshJudges(config, s, e, intent);
      } else {
        ConclusionsCarryOver(config, s, e, node);
      }
    }
  }

  lemma ApprovalAt(r: Run, i: nat)
    requires r.Valid() && i < |r.environments| && r.states[i + 1].next.Some? && Approved(r.states[i + 1].next.value)
    ensures CarriesApproval(r.states[i], r.environments[i], r.states[i + 1])
  {
    RunsAreSound(r, i);
    assert r.StepAt(i);
    ApprovalCarriesOver(r.config, r.intent, r.states[i], r.environments[i]);
  }

  lemma ConclusionsCarryOver(config: Config, s: RootState, e: Environment, node: RootNode)
    requires s.next == Some(node) && !BeforeApproval(node) && !node.RefreshAndVerify?
    ensures var s' := Conclude(config, s, e, node);
            s'.next.Some? && Approved(s'.next.value) ==>
              && s'.plan == s.plan && s'.binding == s.binding && s'.evidence == s.evidence && s'.analysis == s.analysis
              && ((node.ApprovalInterrupt? && s'.approval.Some? && s'.approval.value.decision.Approve?
                   && e.answer == Resumed(s'.approval.value))
                  || (Approved(node) && s'.approval == s.approval))
  {
  }

  /** Approved work goes back to the last answer given, which approved this very plan, binding and evidence. */
  lemma {:induction false} ApprovedWorkWasApproved(r: Run, i: nat) returns (k: nat)
    requires r.Valid() && i <= |r.environments| && r.states[i].next.Some? && Approved(r.states[i].next.value)
    ensures k < i && WasApproved(r, k, r.states[i]) && StaysApproved(r, k, i)
  {
    ApprovalAt(r, i - 1);
    if r.states[i - 1].next.value.ApprovalInterrupt? {
      k := i - 1;
    } else {
      k := ApprovedWorkWasApproved(r, i - 1);
    }
  }

  predicate SameGrounds(s: RootState, s': RootState) {
    && s'.plan == s.plan && s'.binding == s.binding && s'.analysis == s.analysis
    && s'.refreshed == s.refreshed && s'.verification == s.verification
  }

  lemma RereadingLasts(intent: GoalEncoding, s: RootState, s': RootState, e: Environment)
    requires RereadIn(intent, s, e) && SameGrounds(s, s')
    ensures RereadIn(intent, s', e)
  {
  }

  /** Action begins with a surviving refresh and then keeps its grounds. */
  lemma ActionCarriesOver(config: Config, intent: GoalEncoding, s: RootState, e: Environment)
    requires RootSound(config, intent, s)
    requires var s' := StepRoot(config, intent, s, e); s'.next.Some? && Acting(s'.next.value)
    ensures s.next.Some?
    ensures (s.next.value.RefreshAndVerify? && e.survives)
            || (Acting(s.next.value) && SameGrounds(s, StepRoot(config, intent, s, e)))
  {
    if e.survives && s.next.Some? {
      var node := s.next.value;
      if BeforeApproval(node) {
        InvestigationIsUndecided(config, intent, s, e, node);
      } else if !node.RefreshAndVerify? {
        ConclusionsAreUnchanged(config, s, e, node);
      }
    }
  }

  lemma ActionAt(r: Run, i: nat)
    requires r.Valid() && i < |r.environments| && r.states[i + 1].next.Some? && Acting(r.states[i + 1].next.value)
    ensures r.states[i].next.Some?
    ensures (r.states[i].next.value.RefreshAndVerify? && r.environments[i].survives)
            || (Acting(r.states[i].next.value) && SameGrounds(r.states[i], r.states[i + 1]))
  {
    RunsAreSound(r, i);
    assert r.StepAt(i);
    ActionCarriesOver(r.config, r.intent, r.states[i], r.environments[i]);
  }

  /** A refresh that leads to action confirmed the binding then and there. */
  lemma RefreshAt(r: Run, j: nat)
    requires r.Valid() && j < |r.environments| && r.states[j].next == Some(RefreshAndVerify) && r.environments[j].survives
    requires r.states[j + 1].next.Some? && Acting(r.states[j + 1].next.value)
    ensures RereadIn(r.intent, r.states[j + 1], r.environments[j])
  {
    RunsAreSound(r, j);
    assert r.StepAt(j);
    RefreshReconfirms(r.config, r.intent, r.states[j], r.environments[j]);
  }

  lemma RefreshReconfirms(config: Config, intent: GoalEncoding, s: RootState, e: Environment)
    requires s.loop.goal == Some(intent) && s.next == Some(RefreshAndVerify) && RefreshNode(config, s, e).next == Some(MarkExecuting)
    ensures var s' := RefreshNode(config, s, e);
            && s'.plan == s.plan && s'.binding == s.binding && s'.analysis == s.analysis && RereadIn(intent, s', e)
  {
    RefreshJudges(config, s, e, intent);
  }

  lemma {:induction false} ActionBegan(r: Run, i: nat) returns (j: nat)
    requires r.Valid() && i <= |r.environments| && r.states[i].next.Some? && Acting(r.states[i].next.value)
    ensures j < i && r.states[j].next == Some(RefreshAndVerify) && r.environments[j].survives
    ensures StaysActing(r, j, i) && SameGrounds(r.states[j + 1], r.states[i])
  {
    ActionAt(r, i - 1);
    if r.states[i - 1].next.value.RefreshAndVerify? {
      j := i - 1;
    } else {
      j := ActionBegan(r, i - 1);
    }
  }

  /** Action goes back to a re-reading that confirmed the binding, after which the run only acted. */
  lemma ActionWasReread(r: Run, i: nat) returns (j: nat)
    requires r.Valid() && i <= |r.environments| && r.states[i].next.Some? && Acting(r.states[i].next.value)
    ensures j < i && WasReread(r, j, r.states[i]) && StaysActing(r, j, i)
  {
    j := ActionBegan(r, i);
    RefreshAt(r, j);
    RereadingLasts(r.intent, r.states[j + 1], r.states[i], r.environments[j]);
  }

  // ---- When re-verification lets work go on ----------------------------------------------------------------------

  predicate Concluding(node: RootNode) {
    !BeforeApproval(node) && !node.MarkFailed?
  }

  /** With the complete runtime, whatever a human is asked about has a binding. */
  predicate Bound(s: RootState) {
    s.next.Some? && Concluding(s.next.value) ==> s.binding.Some?
  }

  lemma InvestigationBinds(config: Config, intent: GoalEncoding, s: RootState, e: Environment, node: RootNode)
    requires config.runtimePresent && s.next == Some(node) && BeforeApproval(node)
    ensures Bound(Investigate(config, intent, s, e, node))
  {
    if Exploring(node) {
      ExplorationIsEarly(config, intent, s, e, node);
    }
  }

  lemma StepKeepsBound(config: Config, intent: GoalEncoding, s: RootState, e: Environment)
    requires config.runtimePresent && RootSound(config, intent, s) && Bound(s)
    ensures Bound(StepRoot(config, intent, s, e))
  {
    if e.survives && s.next.Some? {
      var node := s.next.value;
      if BeforeApproval(node) {
        InvestigationBinds(config, intent, s, e, node);
      } else if node.RefreshAndVerify? {
        RefreshKeepsBound(config, intent, s, e);
      } else {
        ConclusionsAreUnchanged(config, s, e, node);
        ConclusionsEnd(config, s, e, node);
      }
    }
  }

  lemma RefreshKeepsBound(config: Config, intent: GoalEncoding, s: RootState, e: Environment)
    requires s.loop.goal == Some(intent) && s.binding.Some?
    ensures Bound(RefreshNode(config, s, e))
  {
    RefreshJudges(config, s, e, intent);
    var s', refreshed := RefreshNode(config, s, e), Refresh(intent, e.refreshGateway);
    if s'.next == Some(MarkNeedsReapproval) {
      ResultsAreEvaluated(intent, refreshed, s.analysis.value, e.clock);
    }
  }

  lemma ConclusionsEnd(config: Config, s: RootState, e: Environment, node: RootNode)
    requires s.next == Some(node)
    ensures node.MarkFailed? ==> Conclude(config, s, e, node).next.None?
  {
  }

  lemma {:induction false} RunsAreBound(r: Run, i: nat)
    requires r.Valid() && i <= |r.environments| && r.config.runtimePresent
    ensures Bound(r.states[i])
  {
    if i > 0 {
      RunsAreBound(r, i - 1);
      RunsAreSound(r, i - 1);
      assert r.StepAt(i - 1);
      StepKeepsBound(r.config, r.intent, r.states[i - 1], r.environments[i - 1]);
    }
  }

  lemma EvaluationNeedsBothReads(goal: GoalEncoding, gateway: ToolCall -> ReadReply, x: Explanation, now: Instant)
    requires EvaluateAgentResult(goal, Refresh(goal, gateway), x, now).Ok?
    ensures forall o | o in Refresh(goal, gateway) :: o.succeeded
  {
    var refreshed := Refresh(goal, gateway);
    SuccessIsObserved(refreshed, SubjectTool(goal.scenario));
    SuccessIsObserved(refreshed, PolicyConstraints);
    assert refreshed[0].tool == SubjectTool(goal.scenario) && refreshed[1].tool == PolicyConstraints;
  }

  lemma {:induction false} SuccessIsObserved(observations: seq<Observation>, tool: ReadTool)
    ensures Successful(observations, tool).Some? ==>
              var o := Successful(observations, tool).value; o in observations && o.tool == tool && o.succeeded
  {
    if observations != [] {
      SuccessIsObserved(observations[..|observations| - 1], tool);
    }
  }

  lemma BindingsAreOfOneKind(e: Evidence, p: Plan)
    requires BuildBinding(e, p).Some?
    ensures KindOfPlan(p) == KindOfEvidence(e) == BuildBinding(e, p).value.scenario
  {
  }

  lemma ConfirmedJudgementProceeds(s: RootState, e: Environment, refreshed: seq<Observation>, r: ScenarioResult)
    requires s.plan.Some? && s.evidence.Some? && s.binding == BuildBinding(s.evidence.value, s.plan.value) && s.binding.Some?
    requires Consents(e.verdict, s.plan.value) && r.plan.Some? && BuildBinding(r.evidence, r.plan.value).Some?
    requires FactsOf(BuildBinding(r.evidence, r.plan.value).value) == FactsOf(s.binding.value)
    ensures JudgeRefreshed(s, e, refreshed, r).next == Some(MarkExecuting)
  {
    BindingsAreOfOneKind(s.evidence.value, s.plan.value);
    BindingsAreOfOneKind(r.evidence, r.plan.value);
    assert FactsOf(s.binding.value).scenario == s.binding.value.scenario;
  }

  lemma ConfirmedRefreshProceeds(config: Config, intent: GoalEncoding, s: RootState, e: Environment)
    requires config.runtimePresent && PlanSound(intent, s) && s.loop.goal == Some(intent) && s.binding.Some?
    requires Consents(e.verdict, s.plan.value)
    requires Reconfirms(intent, Refresh(intent, e.refreshGateway), s.analysis.value, e.clock, s.binding.value)
    ensures RefreshNode(config, s, e).next == Some(MarkExecuting)
  {
    var refreshed := Refresh(intent, e.refreshGateway);
    EvaluationNeedsBothReads(intent, e.refreshGateway, s.analysis.value, e.clock);
    ConfirmedJudgementProceeds(s, e, refreshed, EvaluateAgentResult(intent, refreshed, s.analysis.value, e.clock).value);
  }

  /** Re-verification lets work go on if and only if there is a runtime, the verifier consents, and what was read
      again confirms the binding the human saw. */
  lemma RefreshProceedsExactly(r: Run, j: nat)
    requires r.Valid() && j < |r.environments|
    requires r.states[j].next == Some(RefreshAndVerify) && r.environments[j].survives
    ensures var s, e := r.states[j], r.environments[j];
            && (r.config.runtimePresent ==> s.plan.Some? && s.analysis.Some? && s.binding.Some?)
            && (r.states[j + 1].next == Some(MarkExecuting)
                <==> (r.config.runtimePresent && Consents(e.verdict, s.plan.value)
                      && Reconfirms(r.intent, Refresh(r.intent, e.refreshGateway), s.analysis.value, e.clock, s.binding.value)))
  {
    RunsAreSound(r, j);
    assert r.StepAt(j);
    var s, e := r.states[j], r.environments[j];
    if r.config.runtimePresent {
      RunsAreBound(r, j);
      if r.states[j + 1].next == Some(MarkExecuting) {
        RefreshReconfirms(r.config, r.intent, s, e);
      } else if Consents(e.verdict, s.plan.value)
                && Reconfirms(r.intent, Refresh(r.intent, e.refreshGateway), s.analysis.value, e.clock, s.binding.value) {
        ConfirmedRefreshProceeds(r.config, r.intent, s, e);
      }
    }
  }

  /** After a differing proposal, an escalation or changed facts, whatever is later executed was put before the
      human once more, in the form then at hand. */
  lemma DisagreementReturnsToHuman(r: Run, j: nat, i: nat) returns (k: nat)
    requires r.Valid() && j < i <= |r.environments|
    requires r.states[j].next == Some(RefreshAndVerify) && r.environments[j].survives
    requires r.states[j + 1].next != Some(MarkExecuting)
    requires r.states[i].next.Some? && Acting(r.states[i].next.value)
    ensures j < k < i && WasApproved(r, k, r.states[i])
  {
    k := ApprovedWorkWasApproved(r, i);
    RunsAreSound(r, j);
    assert r.StepAt(j);
    assert r.states[j + 1] == RefreshNode(r.config, r.states[j], r.environments[j]);
    ApprovalsBreak(r, k, i, j + 1);
  }

  lemma ApprovalsBreak(r: Run, k: nat, i: nat, m: nat)
    requires r.Valid() && m <= i <= |r.environments| && StaysApproved(r, k, i)
    requires r.states[m].next.Some? ==> !Approved(r.states[m].next.value)
    ensures m <= k
  {
  }

  /** The order about to be written is the one a fresh look at the facts would write. */
  ghost predicate WritesWhatIsFresh(intent: GoalEncoding, s: RootState, now: Instant)
    requires s.plan.Some? && s.analysis.Some?
  {
    var r := EvaluateAgentResult(intent, s.refreshed, s.analysis.value, now);
    r.Ok? && r.value.plan.Some? && WorkOrderPayload(r.value.plan.value) == WorkOrderPayload(s.plan.value)
  }

  lemma ReadingsComeLater(r: Run, k: nat, j: nat, i: nat)
    requires r.Valid() && k < i <= |r.environments| && j < i
    requires r.states[k].next == Some(ApprovalInterrupt) && r.states[j].next == Some(RefreshAndVerify) && StaysActing(r, j, i)
    ensures k < j
  {
    assert j < k ==> Acting(r.states[k].next.value);
  }

  /** Nothing unapproved executes. However often the plan was sent back, when the work order is about to be
      written, the last answer of the run, at step `k`, approved this very plan and binding. A later step `j`
      read the facts again and asked the verifier, who agreed; at that step's own clock what it read gives
      the approved binding facts and the very order about to be written. */
  lemma NothingUnapprovedExecutes(r: Run, i: nat) returns (k: nat, j: nat)
    requires r.Valid() && i <= |r.environments| && r.states[i].next == Some(ExecuteWorkOrder)
    ensures k < j < i
    ensures WasApproved(r, k, r.states[i]) && StaysApproved(r, k, i) && WasReread(r, j, r.states[i])
    ensures var s := r.states[i];
            && s.evidence.Some? && s.binding == BuildBinding(s.evidence.value, s.plan.value)
            && WritesWhatIsFresh(r.intent, s, r.environments[j].clock)
  {
    RunsAreSound(r, i);
    k := ApprovedWorkWasApproved(r, i);
    j := ActionWasReread(r, i);
    ReadingsComeLater(r, k, j, i);
    ReconfirmedOrdersAgree(r.intent, r.states[i], r.environments[j].clock);
  }

  lemma ReconfirmedOrdersAgree(intent: GoalEncoding, s: RootState, now: Instant)
    requires PlanSound(intent, s) && s.plan.Some? && s.binding.Some?
    requires Reconfirms(intent, s.refreshed, s.analysis.value, now, s.binding.value)
    ensures WritesWhatIsFresh(intent, s, now)
  {
    var r := EvaluateAgentResult(intent, s.refreshed, s.analysis.value, now).value;
    ResultsAreEvaluated(intent, s.refreshed, s.analysis.value, now);
    var moment :| Evaluated(intent, s.evidence.value, s.assessment.value, s.plan.value, s.analysis.value, moment);
    EvaluatedPlansAreBindable(intent.goal.CreateWorkOrder?, s.evidence.value, s.analysis.value, moment);
    BindingSoundness(s.evidence.value, s.plan.value, r.evidence, r.plan.value);
  }

  lemma InventoryPlansAreDerived(intent: GoalEncoding, evidence: Evidence, assessment: Assessment, plan: Plan, x: Explanation, now: Instant)
    requires Evaluated(intent, evidence, assessment, plan, x, now) && evidence.Valid() && plan.InventoryPlan?
    ensures evidence.InventoryBundle? && Replenishment.Derived(evidence.inventory, now, x, plan.inventory)
  {
  }

  /** Every replenishment order has a positive quantity that fills up to the target and respects the limits
      of the approved policy and of the policy read again at step `j`, after the last approval at step `k`,
      although no limit is part of what was approved. */
  lemma QuantityIsWithinPolicies(r: Run, i: nat) returns (k: nat, j: nat, reread: Replenishment.Bundle)
    requires r.Valid() && i <= |r.environments| && r.states[i].next == Some(ExecuteWorkOrder)
    requires r.states[i].plan.Some? && r.states[i].plan.value.InventoryPlan?
    ensures k < j < i
    ensures WasApproved(r, k, r.states[i]) && StaysApproved(r, k, i) && WasReread(r, j, r.states[i])
    ensures var s, e := r.states[i], r.environments[j];
            var quantity := s.plan.value.inventory.recommendedQuantity;
            && EvaluateAgentResult(r.intent, Refresh(r.intent, e.refreshGateway), s.analysis.value, e.clock).value.evidence
               == InventoryBundle(reread)
            && Command(s).Some? && "quantity" in Command(s).value && Command(s).value["quantity"] == JInt(quantity)
            && s.evidence.Some? && s.evidence.value.InventoryBundle?
            && var approved := s.evidence.value.inventory;
            && 0 < quantity
            && quantity == approved.policy.targetStock - approved.Available() == reread.policy.targetStock - reread.Available()
            && approved.policy.minimumOrder <= quantity <= approved.policy.maximumOrder
            && reread.policy.minimumOrder <= quantity <= reread.policy.maximumOrder
  {
    RunsAreSound(r, i);
    k, j := NothingUnapprovedExecutes(r, i);
    reread := ReconfirmedQuantity(r.intent, r.states[i], r.environments[j].clock);
  }

  lemma ReconfirmedQuantity(intent: GoalEncoding, s: RootState, now: Instant) returns (reread: Replenishment.Bundle)
    requires PlanSound(intent, s) && s.plan.Some? && s.plan.value.InventoryPlan? && s.binding.Some?
    requires Reconfirms(intent, s.refreshed, s.analysis.value, now, s.binding.value)
    ensures EvaluateAgentResult(intent, s.refreshed, s.analysis.value, now).value.evidence == InventoryBundle(reread)
    ensures s.evidence.value.InventoryBundle?
    ensures var approved, quantity := s.evidence.value.inventory, s.plan.value.inventory.recommendedQuantity;
            && 0 < quantity
            && quantity == approved.policy.targetStock - approved.Available() == reread.policy.targetStock - reread.Available()
            && approved.policy.minimumOrder <= quantity <= approved.policy.maximumOrder
            && reread.policy.minimumOrder <= quantity <= reread.policy.maximumOrder
  {
    var x := s.analysis.value;
    var r := EvaluateAgentResult(intent, s.refreshed, x, now).value;
    ResultsAreEvaluated(intent, s.refreshed, x, now);
    var moment :| Evaluated(intent, s.evidence.value, s.assessment.value, s.plan.value, x, moment);
    InventoryPlansAreDerived(intent, s.evidence.value, s.assessment.value, s.plan.value, x, moment);
    ReconfirmedPlansAreOfOneKind(s.evidence.value, s.plan.value, r.evidence, r.plan.value);
    InventoryPlansAreDerived(intent, r.evidence, r.assessment, r.plan.value, x, now);
    reread := r.evidence.inventory;
    QuantityWithinBothPolicies(s.evidence.value.inventory, moment, x, s.plan.value.inventory, reread, now, x, r.plan.value.inventory);
  }

  lemma ReconfirmedPlansAreOfOneKind(e1: Evidence, p1: Plan, e2: Evidence, p2: Plan)
    requires BuildBinding(e1, p1).Some? && BuildBinding(e2, p2).Some?
    requires FactsOf(BuildBinding(e1, p1).value) == FactsOf(BuildBinding(e2, p2).value)
    ensures p1.InventoryPlan? <==> p2.InventoryPlan?
  {
    assert FactsOf(BuildBinding(e1, p1).value).scenario == FactsOf(BuildBinding(e2, p2).value).scenario;
  }
}
