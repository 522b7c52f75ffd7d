/** The bounded decide, authorize, read loop around a model that may answer anything. */
module AgentLoops {
  import opened AgentDomain
  import opened Digests
  import opened Scenarios
  import opened ToolPolicies
  import opened Wrappers

  datatype Config = Config(
    maxModelCalls: nat,
    maxToolCalls: nat,
    knowledgeEnabled: bool,
    knowledgeRequired: bool,
    runtimePresent: bool)

  datatype Failure =
    | TrustedGoalMismatch
    | ModelBudgetExceeded
    | ModelOutputInvalid
    | Refused(error: PolicyError)
    | AgentTurnRouteInvalid
    | RequiredEvidenceIncomplete
    | PolicyGuardFailed(reason: EvaluationError)
    | DependencyUnavailable
    | ApprovalResumeInvalid
    | RuntimeMissing
    | EvidenceUnavailable
    | ApprovalSnapshotMismatch
    | WorkOrderStorageFailed
    | WorkOrderVerificationFailed

  /** A read either fails in an expected way or returns evidence with its identifier. */
  datatype ReadReply = Unavailable | Read(evidenceId: Uuid, payload: EvidencePayload)

  datatype LoopState = LoopState(
    goal: Option<GoalEncoding>,
    lastTurn: Option<Turn>,
    authorized: seq<ToolCall>,
    observations: seq<Observation>,
    modelCalls: nat,
    toolCalls: nat)

  function PolicyOf(config: Config, goal: GoalEncoding): ToolPolicy {
    ToolPolicy(goal, config.maxToolCalls, config.knowledgeEnabled)
  }

  // ---- Authorizing a turn --------------------------------------------------------------------------

  function AuthorizeAll(policy: ToolPolicy, calls: seq<ToolCall>, prior: seq<ToolCall>): Result<seq<ToolCall>, PolicyError>
    decreases |calls|
  {
    if calls == [] then Ok(prior)
    else match policy.Authorize(calls[0].callId, ToolName(calls[0].tool), calls[0].arguments, prior)
         case Err(e) => Err(e)
         case Ok(call) => AuthorizeAll(policy, calls[1..], prior + [call])
  }

  method AuthorizeTurn(policy: ToolPolicy, calls: seq<ToolCall>, prior: seq<ToolCall>)
    returns (reply: Result<seq<ToolCall>, PolicyError>)
    requires policy.Admits(prior)
    ensures reply == AuthorizeAll(policy, calls, prior)
    ensures reply.Ok? <==> policy.Admits(prior + calls)
    ensures reply.Ok? ==> reply.value == prior + calls
  {
    var authorized := prior;
    for i := 0 to |calls|
      invariant AuthorizeAll(policy, calls[i..], authorized) == AuthorizeAll(policy, calls, prior)
    {
      var next := policy.Authorize(calls[i].callId, ToolName(calls[i].tool), calls[i].arguments, authorized);
      assert calls[i..][1..] == calls[i + 1..];
      if next.Err? {
        AuthorizeAllExactly(policy, calls, prior);
        return Err(next.error);
      }
      authorized := authorized + [next.value];
    }
    AuthorizeAllExactly(policy, calls, prior);
    reply := Ok(authorized);
  }

  /** Authorizing goes on past an admitted first call, and stops with the error of any other. */
  lemma AuthorizeFirst(policy: ToolPolicy, calls: seq<ToolCall>, prior: seq<ToolCall>) returns (admitted: bool)
    requires policy.Admits(prior) && calls != []
    ensures admitted ==> policy.Admits(prior + [calls[0]])
    ensures admitted ==> AuthorizeAll(policy, calls, prior) == AuthorizeAll(policy, calls[1..], prior + [calls[0]])
    ensures !admitted ==> !policy.Admits(prior + calls) && AuthorizeAll(policy, calls, prior).Err?
  {
    var call := calls[0];
    policy.AuthorizeExtends(call.callId, ToolName(call.tool), call.arguments, prior);
    assert call == ToolCall(call.callId, call.tool, call.arguments);
    FirstIsAdmitted(policy, calls, prior);
    admitted := policy.Authorize(call.callId, ToolName(call.tool), call.arguments, prior).Ok?;
  }

  lemma FirstIsAdmitted(policy: ToolPolicy, calls: seq<ToolCall>, prior: seq<ToolCall>)
    requires calls != []
    ensures policy.Admits(prior + calls) ==> policy.Admits(prior + [calls[0]])
  {
    assert prior + calls == (prior + [calls[0]]) + calls[1..];
    if policy.Admits((prior + [calls[0]]) + calls[1..]) {
      PrefixesAreAdmitted(policy, prior + [calls[0]], calls[1..]);
    }
  }

  lemma FirstMovesOver(calls: seq<ToolCall>, prior: seq<ToolCall>)
    requires calls != []
    ensures (prior + [calls[0]]) + calls[1..] == prior + calls
  {
  }

  /** A turn is authorized whole or not at all, and exactly when the calls together are admissible. */
  lemma {:induction false} AuthorizeAllExactly(policy: ToolPolicy, calls: seq<ToolCall>, prior: seq<ToolCall>)
    requires policy.Admits(prior)
    ensures AuthorizeAll(policy, calls, prior).Ok? <==> policy.Admits(prior + calls)
    ensures AuthorizeAll(policy, calls, prior).Ok? ==> AuthorizeAll(policy, calls, prior).value == prior + calls
    decreases |calls|
  {
    if calls == [] {
      assert prior + calls == prior;
    } else {
      var admitted := AuthorizeFirst(policy, calls, prior);
      if admitted {
        FirstMovesOver(calls, prior);
        AuthorizeAllExactly(policy, calls[1..], prior + [calls[0]]);
      }
    }
  }

  lemma PrefixesAreAdmitted(policy: ToolPolicy, prefix: seq<ToolCall>, rest: seq<ToolCall>)
    requires policy.Admits(prefix + rest)
    ensures policy.Admits(prefix)
  {
    assert forall i | 0 <= i < |prefix| :: prefix[i] == (prefix + rest)[i];
  }

  // ---- Executing the authorized reads ------------------------------------------------------------------

  function Observe(call: ToolCall, reply: ReadReply): Observation {
    match reply
    case Unavailable => Observation(call.callId, call.tool, HashPayload(call.arguments), false, None, OtherPayload)
    case Read(id, payload) => Observation(call.callId, call.tool, HashPayload(call.arguments), true, Some(id), payload)
  }

  /** An observation says what was asked of which tool, and either what was read or that nothing was. */
  predicate Reports(o: Observation, call: ToolCall, reply: ReadReply) {
    && o.callId == call.callId && o.tool == call.tool && o.argumentsHash == HashPayload(call.arguments)
    && match reply
       case Unavailable => !o.succeeded && o.evidenceRef.None?
       case Read(id, payload) => o.succeeded && o.evidenceRef == Some(id) && o.payload == payload
  }

  function Completed(observations: seq<Observation>): set<string> {
    set o | o in observations :: o.callId
  }

  function ReadMissing(calls: seq<ToolCall>, completed: set<string>, gateway: ToolCall -> ReadReply): seq<Observation> {
    if calls == [] then []
    else
      var last := calls[|calls| - 1];
      ReadMissing(calls[..|calls| - 1], completed, gateway)
      + if last.callId in completed then [] else [Observe(last, gateway(last))]
  }

  function ReadsStep(calls: seq<ToolCall>, observations: seq<Observation>, gateway: ToolCall -> ReadReply): seq<Observation> {
    observations + ReadMissing(calls, Completed(observations), gateway)
  }

  predicate Matches(o: Observation, call: ToolCall) {
    o.callId == call.callId && o.tool == call.tool && o.argumentsHash == HashPayload(call.arguments)
  }

  /** The observations answer the first calls, one for one and in order. */
  ghost predicate AnswersPrefix(calls: seq<ToolCall>, observations: seq<Observation>) {
    && |observations| <= |calls|
    && forall i | 0 <= i < |observations| :: Matches(observations[i], calls[i])
  }

  ghost predicate Answers(calls: seq<ToolCall>, observations: seq<Observation>) {
    |observations| == |calls| && AnswersPrefix(calls, observations)
  }

  ghost predicate DistinctIds(calls: seq<ToolCall>) {
    forall i, j | 0 <= i < j < |calls| :: calls[i].callId != calls[j].callId
  }

  method ExecuteReads(calls: seq<ToolCall>, observations: seq<Observation>, gateway: ToolCall -> ReadReply)
    returns (updated: seq<Observation>)
    requires DistinctIds(calls) && AnswersPrefix(calls, observations)
    ensures updated == ReadsStep(calls, observations, gateway)
    ensures observations <= updated && Answers(calls, updated)
    ensures forall i | |observations| <= i < |updated| :: updated[i] == Observe(calls[i], gateway(calls[i]))
  {
    var completed := Completed(observations);
    updated := observations;
    for i := 0 to |calls|
      invariant updated == observations + ReadMissing(calls[..i], completed, gateway)
    {
      assert calls[..i + 1][..i] == calls[..i];
      if calls[i].callId !in completed {
        updated := updated + [Observe(calls[i], gateway(calls[i]))];
      }
    }
    assert calls[..|calls|] == calls;
    ReadsComplete(calls, observations, gateway);
  }

  lemma {:induction false} NothingToRead(calls: seq<ToolCall>, observations: seq<Observation>, done: nat,
                                         gateway: ToolCall -> ReadReply)
    requires done <= |calls| && done <= |observations|
    requires forall i | 0 <= i < done :: Matches(observations[i], calls[i])
    ensures ReadMissing(calls[..done], Completed(observations), gateway) == []
  {
    if done > 0 {
      assert calls[..done][..done - 1] == calls[..done - 1];
      NothingToRead(calls, observations, done - 1, gateway);
      assert observations[done - 1] in observations;
    }
  }

  lemma NotYetRead(calls: seq<ToolCall>, observations: seq<Observation>, k: nat)
    requires DistinctIds(calls) && AnswersPrefix(calls, observations) && |observations| <= k < |calls|
    ensures calls[k].callId !in Completed(observations)
  {
    forall o | o in observations ensures o.callId != calls[k].callId {
      var i :| 0 <= i < |observations| && observations[i] == o;
      assert Matches(o, calls[i]);
    }
  }

  /** What the reads of the first `done` calls add. */
  lemma {:induction false} ReadsSoFar(calls: seq<ToolCall>, observations: seq<Observation>, done: nat, gateway: ToolCall -> ReadReply)
    requires DistinctIds(calls) && AnswersPrefix(calls, observations) && |observations| <= done <= |calls|
    ensures var added := ReadMissing(calls[..done], Completed(observations), gateway);
            && |added| == done - |observations|
            && forall i | 0 <= i < |added| :: added[i] == Observe(calls[|observations| + i], gateway(calls[|observations| + i]))
  {
    if done == |observations| {
      NothingToRead(calls, observations, done, gateway);
    } else {
      assert calls[..done][..done - 1] == calls[..done - 1];
      ReadsSoFar(calls, observations, done - 1, gateway);
      NotYetRead(calls, observations, done - 1);
    }
  }

  /** Reading completes the answers and keeps those already there. */
  lemma ReadsComplete(calls: seq<ToolCall>, observations: seq<Observation>, gateway: ToolCall -> ReadReply)
    requires DistinctIds(calls) && AnswersPrefix(calls, observations)
    ensures var updated := ReadsStep(calls, observations, gateway);
            && observations <= updated && Answers(calls, updated)
            && forall i | |observations| <= i < |updated| :: updated[i] == Observe(calls[i], gateway(calls[i]))
  {
    assert calls[..|calls|] == calls;
    ReadsSoFar(calls, observations, |calls|, gateway);
    var updated := ReadsStep(calls, observations, gateway);
    forall i | 0 <= i < |updated|
      ensures Matches(updated[i], calls[i])
      ensures |observations| <= i ==> updated[i] == Observe(calls[i], gateway(calls[i]))
    {
      if |observations| <= i {
        assert updated[i] == ReadMissing(calls, Completed(observations), gateway)[i - |observations|];
      }
    }
  }

  /** Replaying the reads after a crash, even against a gateway that now answers differently. */
  lemma ReadsAreIdempotent(calls: seq<ToolCall>, observations: seq<Observation>, gateway: ToolCall -> ReadReply,
                           later: ToolCall -> ReadReply)
    requires DistinctIds(calls) && AnswersPrefix(calls, observations)
    ensures var updated := ReadsStep(calls, observations, gateway);
            ReadsStep(calls, updated, later) == updated
  {
    ReadsComplete(calls, observations, gateway);
    assert calls[..|calls|] == calls;
    NothingToRead(calls, ReadsStep(calls, observations, gateway), |calls|, later);
  }

  // ---- The loop's nodes ------------------------------------------------------------------------------------

  predicate WellFormed(turn: Turn) {
    turn.ToolDecision? ==> 1 <= |turn.calls| <= 4
  }

  /** A reply that is no turn at all, or breaks its schema, is raised by the model gateway. */
  function DecideStep(config: Config, s: LoopState, reply: Option<Turn>): Result<LoopState, Failure> {
    var count := s.modelCalls + 1;
    if count > config.maxModelCalls then Err(ModelBudgetExceeded)
    else if reply.None? || !WellFormed(reply.value) then Err(ModelOutputInvalid)
    else if reply.value.ToolDecision? && s.toolCalls + |reply.value.calls| > config.maxToolCalls
    then Err(Refused(ToolBudgetExceeded))
    else Ok(s.(lastTurn := reply, modelCalls := count))
  }

  function AuthorizeStep(config: Config, s: LoopState): Result<LoopState, Failure>
    requires s.goal.Some?
  {
    if s.lastTurn.None? || !s.lastTurn.value.ToolDecision? then Err(AgentTurnRouteInvalid)
    else match AuthorizeAll(PolicyOf(config, s.goal.value), s.lastTurn.value.calls, s.authorized)
         case Err(e) => Err(Refused(e))
         case Ok(calls) => Ok(s.(authorized := calls, toolCalls := |calls|))
  }

  function ExecuteStep(s: LoopState, gateway: ToolCall -> ReadReply): LoopState {
    s.(observations := ReadsStep(s.authorized, s.observations, gateway), lastTurn := None)
  }

  // ---- The loop invariant -----------------------------------------------------------------------------------

  datatype LoopPhase = Deciding | Authorizing | Executing | Finishing

  /** Goal-bound distinct calls, one observation per call in order, and model calls paid for by tool calls. */
  ghost predicate LoopSound(config: Config, goal: GoalEncoding, s: LoopState, phase: LoopPhase) {
    && s.goal == Some(goal)
    && PolicyOf(config, goal).Admits(s.authorized)
    && s.toolCalls == |s.authorized|
    && 1 <= s.modelCalls
    && match phase
       case Deciding => Answers(s.authorized, s.observations) && s.modelCalls <= 1 + |s.authorized|
       case Authorizing =>
         && Answers(s.authorized, s.observations) && s.modelCalls <= 2 + |s.authorized|
         && s.lastTurn.Some? && s.lastTurn.value.ToolDecision? && WellFormed(s.lastTurn.value)
       case Executing => AnswersPrefix(s.authorized, s.observations) && s.modelCalls <= 1 + |s.authorized|
       case Finishing =>
         && Answers(s.authorized, s.observations) && s.modelCalls <= 2 + |s.authorized|
         && s.lastTurn.Some? && s.lastTurn.value.Final?
  }

  lemma DecideKeepsLoop(config: Config, goal: GoalEncoding, s: LoopState, reply: Option<Turn>)
    requires LoopSound(config, goal, s, Deciding) && DecideStep(config, s, reply).Ok?
    ensures var s' := DecideStep(config, s, reply).value;
            && LoopSound(config, goal, s', if reply.value.ToolDecision? then Authorizing else Finishing)
            && s'.authorized == s.authorized && s'.observations == s.observations
  {
  }

  lemma AuthorizeKeepsLoop(config: Config, goal: GoalEncoding, s: LoopState)
    requires LoopSound(config, goal, s, Authorizing) && AuthorizeStep(config, s).Ok?
    ensures var s' := AuthorizeStep(config, s).value;
            && LoopSound(config, goal, s', Executing)
            && s'.authorized == s.authorized + s.lastTurn.value.calls && |s.authorized| < |s'.authorized|
  {
    AuthorizeAllExactly(PolicyOf(config, goal), s.lastTurn.value.calls, s.authorized);
  }

  lemma ExecuteKeepsLoop(config: Config, goal: GoalEncoding, s: LoopState, gateway: ToolCall -> ReadReply)
    requires LoopSound(config, goal, s, Executing)
    ensures LoopSound(config, goal, ExecuteStep(s, gateway), Deciding)
    ensures s.observations <= ExecuteStep(s, gateway).observations
    ensures ExecuteStep(s, gateway).authorized == s.authorized
  {
    ReadsComplete(s.authorized, s.observations, gateway);
  }

  /** Whatever the model says, calls stay within the offer and the budget, and so do its own turns. */
  lemma LoopIsBounded(config: Config, goal: GoalEncoding, s: LoopState, phase: LoopPhase)
    requires LoopSound(config, goal, s, phase)
    ensures |s.authorized| <= PolicyOf(config, goal).Limit()
    ensures s.modelCalls <= 2 + PolicyOf(config, goal).Limit()
    ensures phase.Deciding? ==> s.modelCalls <= 1 + PolicyOf(config, goal).Limit()
  {
    PolicyOf(config, goal).AdmittedCallsAreFew(s.authorized);
  }

  /** With room for the goal, one turn per allowed call and a final turn, the model budget never runs out. */
  lemma ModelBudgetSuffices(config: Config, goal: GoalEncoding, s: LoopState, reply: Option<Turn>)
    requires LoopSound(config, goal, s, Deciding)
    requires 2 + PolicyOf(config, goal).Limit() <= config.maxModelCalls
    ensures DecideStep(config, s, reply) != Err(ModelBudgetExceeded)
  {
    LoopIsBounded(config, goal, s, Deciding);
  }
}
