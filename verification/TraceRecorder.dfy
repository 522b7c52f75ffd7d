/** What an investigation leaves in the trace: redacted events under stable keys. */
module TraceRecording {
  import opened Scenarios
  import opened TraceRedaction
  import opened Traces
  import opened Wrappers

  datatype TracedObservation = TracedObservation(
    callId: string,
    toolName: string,
    isKnowledge: bool,
    argumentsHash: string,
    succeeded: bool,
    evidenceRef: Option<string>,
    summary: string,
    errorCode: Option<string>,
    citations: seq<Citation>)

  /** The parts of an investigation's state the recorder looks at. */
  datatype Investigation = Investigation(
    operationId: Uuid,
    scenario: ScenarioKind,
    action: ActionType,
    request: Value,
    intent: Value,
    goal: Option<Value>,
    plan: Option<(nat, Value)>,
    observations: seq<TracedObservation>,
    analysis: Option<Value>,
    assessmentPresent: bool,
    planPresent: bool,
    status: string,
    errorCode: Option<string>)
  {
    predicate Failed() {
      status == "failed"
    }
  }

  /** Successive readings of the recorder's clock during one capture. */
  type Clock = nat -> Instant

  function Digit(n: nat): char {
    if n == 0 then '0' else '1'
  }

  function TextOrNothing(text: Option<string>): Value {
    if text.None? then Null else Text(text.value)
  }

  predicate Safe(c: TraceCommand) {
    Redacted(c.safeInput, MAX_DEPTH) && Redacted(c.safeOutput, MAX_DEPTH)
  }

  /** Every event goes through redaction. Its time is set when it is appended. */
  function Recorded(key: string, eventType: EventType, actor: Actor, node: string, status: EventStatus, input: Value, output: Value,
                    promptRef: Option<string>, errorCode: Option<string>): (c: TraceCommand)
    ensures Safe(c)
  {
    SanitizingRedacts(input, 0);
    SanitizingRedacts(output, 0);
    TraceCommand(key, eventType, actor, node, status, Sanitize(input, 0), Sanitize(output, 0), promptRef, None, errorCode, [], 0)
  }

  /** Where a fixed key belongs in the order of an investigation. */
  function Stage(c: TraceCommand): nat {
    if |c.semanticKey| <= 6 || c.semanticKey[0] == 'o' then 3
    else if c.semanticKey[0] == 'p' then 0
    else if c.semanticKey[0] == 'm' then (if c.semanticKey[6] == 'g' then 1 else if c.semanticKey[6] == 'p' then 2 else 4)
    else if c.semanticKey[0] == 'r' then 5
    else if c.semanticKey[0] == 'g' then 6
    else 7
  }

  predicate Staged(commands: seq<TraceCommand>, from: nat, to: nat) {
    && (forall i | 0 <= i < |commands| :: from <= Stage(commands[i]) <= to)
    && (forall i, j | 0 <= i < j < |commands| :: Stage(commands[i]) < Stage(commands[j]))
  }

  function IntentEvent(x: Investigation): (c: TraceCommand)
    ensures Safe(c) && Stage(c) == 0
  {
    Recorded("perception:intent", Perception, ByUser, "intent_envelope", Done, x.request, x.intent, None, None)
  }

  function GoalEvent(goal: Value): (c: TraceCommand)
    ensures Safe(c) && Stage(c) == 1
  {
    Recorded("model:goal", Model, ByModel, "encode_goal", Done, Object([("intent_ref", Text("perception:intent"))]), goal,
             Some("goal_encoder:v1"), None)
  }

  /** A plan is numbered by its replan count, zero or one. */
  function PlanEvent(replanCount: nat, steps: Value): (c: TraceCommand)
    ensures Safe(c) && Stage(c) == 2
  {
    Recorded("model:plan:r" + [Digit(replanCount)], Model, ByModel, "plan_investigation", Done,
             Object([("goal_ref", Text("model:goal")), ("replan_count", Number(replanCount as real))]), steps,
             Some("investigation_planner:v1"), None)
  }

  function Observed(o: TracedObservation): (c: TraceCommand)
    ensures Safe(c) && Stage(c) == 3
  {
    var c := Recorded("observation:" + o.callId, if o.isKnowledge then Rag else Tool, ByTool, "execute_read_tools",
                      if o.succeeded then Done else EndedBadly,
                      Object([("tool_name", Text(o.toolName)), ("arguments_hash", Text(o.argumentsHash))]),
                      Object([("status", Text(if o.succeeded then "ok" else "error")), ("evidence_ref", TextOrNothing(o.evidenceRef)),
                              ("safe_summary", Text(o.summary)), ("error_code", TextOrNothing(o.errorCode))]),
                      None, if o.succeeded then None else o.errorCode);
    c.(toolRef := Some(o.toolName), citations := if o.isKnowledge && o.succeeded then o.citations else [])
  }

  function AnalysisEvent(count: nat, analysis: Value): (c: TraceCommand)
    ensures Safe(c) && Stage(c) == 4
  {
    Recorded("model:analysis", Model, ByModel, "analyze_observations", Done,
             Object([("observation_count", Number(count as real))]), analysis, Some("observation_analyst:v1"), None)
  }

  function PolicyEvent(assessmentPresent: bool, planPresent: bool): (c: TraceCommand)
    ensures Safe(c) && Stage(c) == 5
  {
    Recorded("rule:policy_guard", Rule, ByPolicy, "calculate_policy_facts", Done,
             Object([("analysis_ref", Text("model:analysis"))]),
             Object([("assessment_present", Bool(assessmentPresent)), ("decision_plan_present", Bool(planPresent))]), None, None)
  }

  function GuardEvent(errorCode: Option<string>): (c: TraceCommand)
    ensures Safe(c) && Stage(c) == 6
  {
    Recorded("guardrail:terminal", Guardrail, ByPolicy, "mark_failed", Blocked, Object([]), Object([("blocked", Bool(true))]), None,
             Some(if errorCode.Some? then errorCode.value else "agent_investigation_failed"))
  }

  function FeedbackEvent(failed: bool, status: string, errorCode: Option<string>): (c: TraceCommand)
    ensures Safe(c) && Stage(c) == 7
  {
    Recorded("feedback:investigation_terminal", Feedback, BySystem, "investigation_terminal", if failed then EndedBadly else Done,
             Object([]), Object([("status", Text(status))]), None, if failed then errorCode else None)
  }

  /** No event, or one of the given stage. */
  function OneOrNone(c: Option<TraceCommand>, stage: nat): (commands: seq<TraceCommand>)
    requires c.Some? ==> Safe(c.value) && Stage(c.value) == stage
    ensures (forall e | e in commands :: Safe(e)) && Staged(commands, stage, stage)
  {
    if c.None? then [] else [c.value]
  }

  function InOrder(first: seq<TraceCommand>, second: seq<TraceCommand>, from: nat, to: nat, through: nat): (commands: seq<TraceCommand>)
    requires (forall c | c in first :: Safe(c)) && Staged(first, from, to)
    requires (forall c | c in second :: Safe(c)) && Staged(second, to + 1, through)
    requires from <= to < through
    ensures (forall c | c in commands :: Safe(c)) && Staged(commands, from, through)
  {
    first + second
  }

  function GoalOf(x: Investigation): (c: Option<TraceCommand>)
    ensures c.Some? ==> Safe(c.value) && Stage(c.value) == 1
  {
    if x.goal.None? then None else Some(GoalEvent(x.goal.value))
  }

  function PlanOf(x: Investigation): (c: Option<TraceCommand>)
    ensures c.Some? ==> Safe(c.value) && Stage(c.value) == 2
  {
    if x.plan.None? then None else Some(PlanEvent(x.plan.value.0, x.plan.value.1))
  }

  function Opening(x: Investigation): (commands: seq<TraceCommand>)
    ensures (forall c | c in commands :: Safe(c)) && Staged(commands, 0, 2)
  {
    InOrder(InOrder(OneOrNone(Some(IntentEvent(x)), 0), OneOrNone(GoalOf(x), 1), 0, 0, 1), OneOrNone(PlanOf(x), 2), 0, 1, 2)
  }

  function ObservedAll(observations: seq<TracedObservation>): (commands: seq<TraceCommand>)
    ensures forall c | c in commands :: Safe(c) && Stage(c) == 3
  {
    seq(|observations|, i requires 0 <= i < |observations| => Observed(observations[i]))
  }

  function AnalysisOf(x: Investigation): (c: Option<TraceCommand>)
    ensures c.Some? ==> Safe(c.value) && Stage(c.value) == 4
  {
    if x.analysis.None? then None else Some(AnalysisEvent(|x.observations|, x.analysis.value))
  }

  function PolicyOf(x: Investigation): (c: Option<TraceCommand>)
    ensures c.Some? ==> Safe(c.value) && Stage(c.value) == 5
  {
    if !x.assessmentPresent && !x.planPresent then None else Some(PolicyEvent(x.assessmentPresent, x.planPresent))
  }

  function GuardOf(x: Investigation): (c: Option<TraceCommand>)
    ensures c.Some? ==> Safe(c.value) && Stage(c.value) == 6
  {
    if !x.Failed() then None else Some(GuardEvent(x.errorCode))
  }

  function Judgement(x: Investigation): (commands: seq<TraceCommand>)
    ensures (forall c | c in commands :: Safe(c)) && Staged(commands, 4, 5)
  {
    InOrder(OneOrNone(AnalysisOf(x), 4), OneOrNone(PolicyOf(x), 5), 4, 4, 5)
  }

  function Closing(x: Investigation): (commands: seq<TraceCommand>)
    ensures (forall c | c in commands :: Safe(c)) && Staged(commands, 6, 7)
  {
    InOrder(OneOrNone(GuardOf(x), 6), OneOrNone(Some(FeedbackEvent(x.Failed(), x.status, x.errorCode)), 7), 6, 6, 7)
  }

  /** The events of an investigation, before any clock is read. */
  function Events(x: Investigation): (commands: seq<TraceCommand>)
    ensures forall c | c in commands :: Safe(c)
  {
    Opening(x) + ObservedAll(x.observations) + Judgement(x) + Closing(x)
  }

  /** Each command is stamped with its own reading, after the one that started the run. */
  function Stamped(commands: seq<TraceCommand>, clock: Clock): (stamped: seq<TraceCommand>)
    ensures |stamped| == |commands|
  {
    seq(|commands|, i requires 0 <= i < |commands| => commands[i].(at := clock(i + 1)))
  }

  function FinalStatus(x: Investigation): RunStatus {
    if x.Failed() then RunFailed else if x.action.CreateWorkOrder? then RunRunning else RunCompleted
  }

  function EndTime(events: seq<TraceCommand>, status: RunStatus, clock: Clock): Option<Instant> {
    if status.RunRunning? then None else Some(clock(|events| + 1))
  }

  /** Append every event at its own time, then set the run's status and end. */
  function RecordStep(s: Store, runId: Uuid, events: seq<TraceCommand>, status: RunStatus, clock: Clock): Store {
    FinishStep(AppendAll(s, runId, Stamped(events, clock)), runId, status, clock(|events| + 1)).0
  }

  /** A whole capture: start or find the primary run, append its events, and set the run's status. */
  function CaptureStep(s: Store, modelMode: string, x: Investigation, clock: Clock, newId: Uuid): (Store, Result<Uuid, TraceError>) {
    var (started, run) := StartStep(s, x.operationId, x.scenario, modelMode, PRIMARY, clock(0), newId);
    if run.Err? then (started, Err(run.error))
    else if run.value.id !in started.runs then (started, Err(RunNotFound))
    else (RecordStep(started, run.value.id, Events(x), FinalStatus(x), clock), Ok(run.value.id))
  }

  class TraceRecorder {
    const repository: AgentTraceRepository
    const modelMode: string

    constructor (repository: AgentTraceRepository, modelMode: string)
      ensures this.repository == repository && this.modelMode == modelMode
    {
      this.repository, this.modelMode := repository, modelMode;
    }

    method AppendEach(runId: Uuid, commands: seq<TraceCommand>, clock: Clock)
      requires runId in repository.runs
      modifies repository
      ensures repository.Snapshot() == AppendAll(old(repository.Snapshot()), runId, Stamped(commands, clock))
      ensures runId in repository.runs
    {
      ghost var stamped := Stamped(commands, clock);
      assert stamped[..0] == [];
      for i := 0 to |commands|
        invariant runId in repository.runs
        invariant repository.Snapshot() == AppendAll(old(repository.Snapshot()), runId, stamped[..i])
      {
        var now := clock(i + 1);
        var result := repository.AppendEvent(runId, commands[i].(at := now));
        assert stamped[..i + 1][..i] == stamped[..i];
      }
      assert stamped[..|commands|] == stamped;
    }

    method CaptureInvestigation(x: Investigation, clock: Clock, newId: Uuid) returns (reply: Result<Uuid, TraceError>)
      modifies repository
      ensures (repository.Snapshot(), reply) == CaptureStep(old(repository.Snapshot()), modelMode, x, clock, newId)
    {
      var run := repository.StartRun(x.operationId, x.scenario, modelMode, PRIMARY, clock(0), newId);
      if run.Err? {
        return Err(run.error);
      }
      var id := run.value.id;
      if id !in repository.runs {
        return Err(RunNotFound);
      }
      AppendEach(id, Events(x), clock);
      var finished := repository.FinishRun(id, FinalStatus(x), clock(|Events(x)| + 1));
      return Ok(id);
    }
  }

  predicate DistinctCalls(observations: seq<TracedObservation>) {
    forall i, j | 0 <= i < j < |observations| :: observations[i].callId != observations[j].callId
  }

  /** An investigation loses none of its events to deduplication exactly if its tool calls have
      distinct ids, which the agent loop guarantees. */
  lemma KeysAreDistinctExactly(x: Investigation)
    ensures DistinctCommandKeys(Events(x)) <==> DistinctCalls(x.observations)
  {
    SameKeySameCall(x.observations);
    StagesTellKeysApart(Opening(x), ObservedAll(x.observations), Judgement(x), Closing(x));
  }

  lemma PartsAreDistinct(a: seq<TraceCommand>, b: seq<TraceCommand>, cut: nat)
    requires (forall c | c in a :: Stage(c) < cut) && (forall d | d in b :: cut <= Stage(d))
    ensures DistinctCommandKeys(a + b) <==> DistinctCommandKeys(a) && DistinctCommandKeys(b)
  {
    var all := a + b;
    if DistinctCommandKeys(all) {
      assert forall i | 0 <= i < |a| :: all[i] == a[i];
      assert forall i | 0 <= i < |b| :: all[|a| + i] == b[i];
      forall i, j | 0 <= i < j < |b| ensures b[i].semanticKey != b[j].semanticKey {
        assert all[|a| + i] == b[i] && all[|a| + j] == b[j];
      }
    }
    if DistinctCommandKeys(a) && DistinctCommandKeys(b) {
      forall i, j | 0 <= i < j < |all| ensures all[i].semanticKey != all[j].semanticKey {
        if i < |a| <= j {
          StagesTell(a[i], b[j - |a|], cut);
        }
      }
    }
  }

  lemma StagesTell(c: TraceCommand, d: TraceCommand, cut: nat)
    requires Stage(c) < cut <= Stage(d)
    ensures c.semanticKey != d.semanticKey
  {
  }

  lemma StagedIsDistinct(commands: seq<TraceCommand>, from: nat, to: nat)
    requires Staged(commands, from, to)
    ensures DistinctCommandKeys(commands) && forall c | c in commands :: from <= Stage(c) <= to
  {
  }

  lemma SameKeySameCall(observations: seq<TracedObservation>)
    ensures DistinctCommandKeys(ObservedAll(observations)) <==> DistinctCalls(observations)
  {
    var observed := ObservedAll(observations);
    forall i, j | 0 <= i < j < |observations|
      ensures observed[i].semanticKey == observed[j].semanticKey <==> observations[i].callId == observations[j].callId
    {
      assert observed[i].semanticKey[|"observation:"|..] == observations[i].callId;
      assert observed[j].semanticKey[|"observation:"|..] == observations[j].callId;
    }
  }

  lemma StagesTellKeysApart(opening: seq<TraceCommand>, observed: seq<TraceCommand>, judgement: seq<TraceCommand>,
                            closing: seq<TraceCommand>)
    requires Staged(opening, 0, 2) && forall c | c in observed :: Stage(c) == 3
    requires Staged(judgement, 4, 5) && Staged(closing, 6, 7)
    ensures DistinctCommandKeys(opening + observed + judgement + closing) <==> DistinctCommandKeys(observed)
  {
    StagedIsDistinct(opening, 0, 2);
    StagedIsDistinct(judgement, 4, 5);
    StagedIsDistinct(closing, 6, 7);
    PartsAreDistinct(opening, observed, 3);
    PartsAreDistinct(opening + observed, judgement, 4);
    PartsAreDistinct(opening + observed + judgement, closing, 6);
  }

  // ---- Captures, again and again ---------------------------------------------------------------------------------

  lemma StampingKeepsKeys(commands: seq<TraceCommand>, clock: Clock)
    ensures DistinctCommandKeys(Stamped(commands, clock)) <==> DistinctCommandKeys(commands)
    ensures forall key :: HasKey(Stamped(commands, clock), key) <==> HasKey(commands, key)
  {
    var stamped := Stamped(commands, clock);
    assert forall i | 0 <= i < |commands| :: stamped[i].semanticKey == commands[i].semanticKey;
    forall key ensures HasKey(stamped, key) <==> HasKey(commands, key) {
      if HasKey(stamped, key) {
        var i :| 0 <= i < |stamped| && stamped[i].semanticKey == key;
        assert commands[i] in commands;
      }
      if HasKey(commands, key) {
        var i :| 0 <= i < |commands| && commands[i].semanticKey == key;
        assert stamped[i] in stamped;
      }
    }
  }

  lemma StampingKeepsSafety(commands: seq<TraceCommand>, clock: Clock)
    requires forall c | c in commands :: Safe(c)
    ensures forall c | c in Stamped(commands, clock) :: Safe(c)
  {
    forall c | c in Stamped(commands, clock) ensures Safe(c) {
      var i :| 0 <= i < |commands| && Stamped(commands, clock)[i] == c;
      assert commands[i] in commands;
    }
  }

  /** The primary run a capture of `x` would replay. */
  ghost predicate Replays(s: Store, modelMode: string, x: Investigation, runId: Uuid) {
    && (x.operationId, PRIMARY) in s.index && s.index[(x.operationId, PRIMARY)] == runId && runId in s.runs
    && s.runs[runId].scenario == x.scenario && s.runs[runId].modelMode == modelMode
  }

  /** What recording does to a run: its log gains the events whose keys are new, and its status, end and counter
      are set; nothing else changes. */
  lemma RecordingExtends(s: Store, runId: Uuid, events: seq<TraceCommand>, status: RunStatus, clock: Clock)
    requires StoreSound(s) && runId in s.runs && DistinctCommandKeys(events)
    ensures var s' := RecordStep(s, runId, events, status, clock);
            && StoreSound(s') && s'.index == s.index && s'.runs.Keys == s.runs.Keys
            && LogOf(s', runId) == LogOf(s, runId) + Newcomers(LogOf(s, runId), Stamped(events, clock))
            && s'.runs[runId] == s.runs[runId].(status := status, endedAt := EndTime(events, status, clock),
                                 nextSequence := |LogOf(s', runId)|)
  {
    var stamped := Stamped(events, clock);
    StampingKeepsKeys(events, clock);
    AppendsKeepFirst(s, runId, stamped);
    LaterCapturesExtend(s, runId, stamped);
    var appended := AppendAll(s, runId, stamped);
    RowUpdateIsSound(appended, runId, appended.runs[runId].(status := status, endedAt := EndTime(events, status, clock)));
  }

  lemma ReplayRecords(s: Store, modelMode: string, x: Investigation, clock: Clock, newId: Uuid, runId: Uuid)
    requires StoreSound(s) && Replays(s, modelMode, x, runId)
    ensures CaptureStep(s, modelMode, x, clock, newId) == (RecordStep(s, runId, Events(x), FinalStatus(x), clock), Ok(runId))
  {
    assert s.runs[runId].id == runId;
  }

  /** A capture of an investigation whose run exists records its events there. */
  lemma CapturesExtend(s: Store, modelMode: string, x: Investigation, clock: Clock, newId: Uuid, runId: Uuid)
    requires StoreSound(s) && Replays(s, modelMode, x, runId) && DistinctCalls(x.observations)
    ensures var s' := CaptureStep(s, modelMode, x, clock, newId).0;
            && StoreSound(s') && Replays(s', modelMode, x, runId)
            && LogOf(s', runId) == LogOf(s, runId) + Newcomers(LogOf(s, runId), Stamped(Events(x), clock))
            && s'.runs[runId] == s.runs[runId].(status := FinalStatus(x), endedAt := EndTime(Events(x), FinalStatus(x), clock),
                                 nextSequence := |LogOf(s', runId)|)
            && s'.index == s.index && s'.runs.Keys == s.runs.Keys
  {
    KeysAreDistinctExactly(x);
    ReplayRecords(s, modelMode, x, clock, newId, runId);
    RecordingExtends(s, runId, Events(x), FinalStatus(x), clock);
  }

  /** A first capture records every event of an investigation in order, each at its own time and redacted. */
  lemma FirstCaptureIsComplete(s: Store, modelMode: string, x: Investigation, clock: Clock, newId: Uuid)
    requires StoreSound(s) && (x.operationId, PRIMARY) !in s.index && newId !in s.runs && DistinctCalls(x.observations)
    ensures var s' := CaptureStep(s, modelMode, x, clock, newId).0;
            && StoreSound(s') && Replays(s', modelMode, x, newId)
            && LogOf(s', newId) == Stamped(Events(x), clock)
            && (forall c | c in LogOf(s', newId) :: Safe(c))
            && s'.runs[newId].status == FinalStatus(x) && s'.runs[newId].endedAt == EndTime(Events(x), FinalStatus(x), clock)
  {
    var run := Run(newId, x.operationId, PRIMARY, x.scenario, RunRunning, modelMode, None, 0, clock(0), None);
    var started := s.(runs := s.runs[newId := run], index := s.index[(x.operationId, PRIMARY) := newId]);
    NewRunIsSound(s, run);
    NoEventsWithoutRun(s.events, newId);
    CapturesExtend(started, modelMode, x, clock, newId, newId);
    assert CaptureStep(s, modelMode, x, clock, newId) == CaptureStep(started, modelMode, x, clock, newId);
    StampingKeepsSafety(Events(x), clock);
    NothingIsKnown(Stamped(Events(x), clock));
  }

  lemma ReadingsAreInOrder(commands: seq<TraceCommand>, clock: Clock)
    ensures forall i | 0 <= i < |commands| :: Stamped(commands, clock)[i] == commands[i].(at := clock(i + 1))
  {
  }

  /** The run starts at the first reading of the clock, and every event is recorded at the next one. */
  lemma EventsAreTimed(s: Store, modelMode: string, x: Investigation, clock: Clock, newId: Uuid)
    requires StoreSound(s) && (x.operationId, PRIMARY) !in s.index && newId !in s.runs && DistinctCalls(x.observations)
    ensures var (s', events) := (CaptureStep(s, modelMode, x, clock, newId).0, Events(x));
            && newId in s'.runs && s'.runs[newId].startedAt == clock(0) && |LogOf(s', newId)| == |events|
            && forall i | 0 <= i < |events| :: LogOf(s', newId)[i] == events[i].(at := clock(i + 1))
  {
    FirstCaptureIsComplete(s, modelMode, x, clock, newId);
    ReadingsAreInOrder(Events(x), clock);
    StartsAtFirstReading(s, modelMode, x, clock, newId);
  }

  lemma StartsAtFirstReading(s: Store, modelMode: string, x: Investigation, clock: Clock, newId: Uuid)
    requires StoreSound(s) && (x.operationId, PRIMARY) !in s.index && newId !in s.runs && DistinctCalls(x.observations)
    ensures newId in CaptureStep(s, modelMode, x, clock, newId).0.runs
    ensures CaptureStep(s, modelMode, x, clock, newId).0.runs[newId].startedAt == clock(0)
  {
    var run := Run(newId, x.operationId, PRIMARY, x.scenario, RunRunning, modelMode, None, 0, clock(0), None);
    var started := s.(runs := s.runs[newId := run], index := s.index[(x.operationId, PRIMARY) := newId]);
    NewRunIsSound(s, run);
    CapturesExtend(started, modelMode, x, clock, newId, newId);
    assert CaptureStep(s, modelMode, x, clock, newId) == CaptureStep(started, modelMode, x, clock, newId);
  }

  lemma {:induction false} NothingIsKnown(again: seq<TraceCommand>)
    ensures Newcomers([], again) == again
  {
    if again != [] {
      NothingIsKnown(again[..|again| - 1]);
      assert again == again[..|again| - 1] + [again[|again| - 1]];
    }
  }

  lemma {:induction false} EverythingIsKnown(known: seq<TraceCommand>, again: seq<TraceCommand>)
    requires forall c | c in again :: HasKey(known, c.semanticKey)
    ensures Newcomers(known, again) == []
  {
    if again != [] {
      EverythingIsKnown(known, again[..|again| - 1]);
    }
  }

  /** A later capture of a state that has grown, at any later times, keeps the log and appends exactly the events
      the first capture did not have; of a state with the same events, it appends nothing. */
  lemma LaterCaptureExtends(s: Store, modelMode: string, x: Investigation, clock: Clock, newId: Uuid,
                            grown: Investigation, later: Clock, otherId: Uuid)
    requires StoreSound(s) && (x.operationId, PRIMARY) !in s.index && newId !in s.runs
    requires DistinctCalls(x.observations) && DistinctCalls(grown.observations)
    requires grown.operationId == x.operationId && grown.scenario == x.scenario
    ensures var first := CaptureStep(s, modelMode, x, clock, newId).0;
            var second := CaptureStep(first, modelMode, grown, later, otherId).0;
            && LogOf(second, newId) == LogOf(first, newId) + Newcomers(LogOf(first, newId), Stamped(Events(grown), later))
            && (forall key :: HasKey(LogOf(second, newId), key) <==> HasKey(Events(x), key) || HasKey(Events(grown), key))
            && ((forall c | c in Events(grown) :: HasKey(Events(x), c.semanticKey)) ==> LogOf(second, newId) == LogOf(first, newId))
  {
    FirstCaptureIsComplete(s, modelMode, x, clock, newId);
    var first := CaptureStep(s, modelMode, x, clock, newId).0;
    CapturesExtend(first, modelMode, grown, later, otherId, newId);
    StampingKeepsKeys(Events(x), clock);
    StampingKeepsKeys(Events(grown), later);
    var log, again := LogOf(first, newId), Stamped(Events(grown), later);
    forall key ensures HasKey(log + Newcomers(log, again), key) <==> HasKey(Events(x), key) || HasKey(Events(grown), key) {
      NewcomersComeFrom(log, again, key);
      HasKeySplits(log, Newcomers(log, again), key);
    }
    if forall c | c in Events(grown) :: HasKey(Events(x), c.semanticKey) {
      forall c | c in again ensures HasKey(log, c.semanticKey) {
        assert HasKey(again, c.semanticKey);
        var d :| d in Events(grown) && d.semanticKey == c.semanticKey;
      }
      EverythingIsKnown(log, again);
    }
  }

  predicate AllKnown(log: seq<TraceCommand>, events: seq<TraceCommand>) {
    forall c | c in events :: HasKey(log, c.semanticKey)
  }

  /** The run already has what the recording would set, and knows all its keys. */
  ghost predicate Silent(s: Store, runId: Uuid, events: seq<TraceCommand>, status: RunStatus, clock: Clock)
    requires runId in s.runs
  {
    && s.runs[runId].status == status && s.runs[runId].endedAt == EndTime(events, status, clock)
    && AllKnown(LogOf(s, runId), events)
  }

  /** Capturing again leaves everything as it was, or just the run's row, if and only if the run already has the
      status and end the capture would set and knows all its keys. So the log may stay while the row does not. */
  lemma RecaptureIsSilentExactly(s: Store, modelMode: string, x: Investigation, clock: Clock, newId: Uuid, runId: Uuid)
    requires StoreSound(s) && Replays(s, modelMode, x, runId) && DistinctCalls(x.observations)
    ensures CaptureStep(s, modelMode, x, clock, newId).0 == s <==> Silent(s, runId, Events(x), FinalStatus(x), clock)
    ensures var s' := CaptureStep(s, modelMode, x, clock, newId).0;
            runId in s'.runs && (s'.runs[runId] == s.runs[runId] <==> Silent(s, runId, Events(x), FinalStatus(x), clock))
  {
    KeysAreDistinctExactly(x);
    ReplayRecords(s, modelMode, x, clock, newId, runId);
    RecordingIsSilentExactly(s, runId, Events(x), FinalStatus(x), clock);
  }

  lemma RecordingIsSilentExactly(s: Store, runId: Uuid, events: seq<TraceCommand>, status: RunStatus, clock: Clock)
    requires StoreSound(s) && runId in s.runs && DistinctCommandKeys(events)
    ensures var s' := RecordStep(s, runId, events, status, clock);
            && (s' == s <==> Silent(s, runId, events, status, clock))
            && runId in s'.runs && (s'.runs[runId] == s.runs[runId] <==> Silent(s, runId, events, status, clock))
  {
    RecordingExtends(s, runId, events, status, clock);
    if AllKnown(LogOf(s, runId), events) {
      KnownEventsAddNothing(s, runId, events, clock);
      assert s.runs[runId := s.runs[runId]] == s.runs;
      assert RunSound(s, runId);
    } else {
      NewEventsCount(s, runId, events, clock);
    }
  }

  lemma NewEventsCount(s: Store, runId: Uuid, events: seq<TraceCommand>, clock: Clock)
    requires StoreSound(s) && runId in s.runs && !AllKnown(LogOf(s, runId), events)
    ensures s.runs[runId].nextSequence < |LogOf(s, runId) + Newcomers(LogOf(s, runId), Stamped(events, clock))|
  {
    assert RunSound(s, runId);
    var c :| c in events && !HasKey(LogOf(s, runId), c.semanticKey);
    assert HasKey(events, c.semanticKey);
    StampingKeepsKeys(events, clock);
    NewcomersComeFrom(LogOf(s, runId), Stamped(events, clock), c.semanticKey);
  }

  lemma KnownEventsAddNothing(s: Store, runId: Uuid, events: seq<TraceCommand>, clock: Clock)
    requires StoreSound(s) && runId in s.runs && AllKnown(LogOf(s, runId), events)
    ensures AppendAll(s, runId, Stamped(events, clock)) == s
  {
    var stamped := Stamped(events, clock);
    forall c | c in stamped ensures HasKey(LogOf(s, runId), c.semanticKey) {
      var i :| 0 <= i < |stamped| && stamped[i] == c;
      assert events[i] in events;
    }
    KnownKeysChangeNothing(s, runId, stamped);
  }

  const EMPTY: Store := Store(map[], map[], [])

  function Query(status: string): Investigation {
    Investigation("op", Inventory, ActionType.Query, Null, Null, None, None, [], None, false, false, status, None)
  }

  /** A repeated capture of a finished state keeps the log but moves the run's end to its own last reading. */
  lemma RepetitionMovesTheEnd(s: Store, modelMode: string, x: Investigation, clock: Clock, newId: Uuid, later: Clock, otherId: Uuid)
    requires StoreSound(s) && (x.operationId, PRIMARY) !in s.index && newId !in s.runs && DistinctCalls(x.observations)
    requires !FinalStatus(x).RunRunning?
    ensures var first := CaptureStep(s, modelMode, x, clock, newId).0;
            var second := CaptureStep(first, modelMode, x, later, otherId).0;
            && newId in first.runs && newId in second.runs
            && first.runs[newId].endedAt == Some(clock(|Events(x)| + 1))
            && second.runs[newId].endedAt == Some(later(|Events(x)| + 1))
            && LogOf(second, newId) == LogOf(first, newId)
  {
    FirstCaptureIsComplete(s, modelMode, x, clock, newId);
    CapturesExtend(CaptureStep(s, modelMode, x, clock, newId).0, modelMode, x, later, otherId, newId);
    LaterCaptureExtends(s, modelMode, x, clock, newId, x, later, otherId);
    assert forall c | c in Events(x) :: HasKey(Events(x), c.semanticKey);
  }

  /** For example, a query captured again one tick later. */
  lemma RecaptureMovesTheEnd()
    ensures var first := CaptureStep(EMPTY, "mock", Query("completed"), _ => 1, "run").0;
            var second := CaptureStep(first, "mock", Query("completed"), _ => 2, "other").0;
            && "run" in first.runs && "run" in second.runs
            && first.runs["run"].endedAt == Some(1) && second.runs["run"].endedAt == Some(2)
  {
    RepetitionMovesTheEnd(EMPTY, "mock", Query("completed"), _ => 1, "run", _ => 2, "other");
  }

  /** A run that was completed is reopened, without an end, by a later capture of its unfinished investigation. */
  lemma RecaptureReopens(s: Store, modelMode: string, x: Investigation, clock: Clock, newId: Uuid, runId: Uuid)
    requires StoreSound(s) && Replays(s, modelMode, x, runId) && DistinctCalls(x.observations)
    requires x.action.CreateWorkOrder? && !x.Failed()
    ensures var s' := CaptureStep(s, modelMode, x, clock, newId).0;
            runId in s'.runs && s'.runs[runId].status.RunRunning? && s'.runs[runId].endedAt.None?
  {
    CapturesExtend(s, modelMode, x, clock, newId, runId);
  }

  // ---- What a capture tells ----------------------------------------------------------------------------------------

  function Count(present: bool): nat {
    if present then 1 else 0
  }

  /** An event of this kind, with what it received and what came out of it, both redacted. */
  predicate Tells(c: TraceCommand, key: string, eventType: EventType, actor: Actor, status: EventStatus, input: Value, output: Value) {
    && c.semanticKey == key && c.eventType == eventType && c.actor == actor && c.status == status
    && c.safeInput == Sanitize(input, 0) && c.safeOutput == Sanitize(output, 0)
  }

  predicate TellsOpening(x: Investigation, events: seq<TraceCommand>) {
    && |events| == 1 + Count(x.goal.Some?) + Count(x.plan.Some?)
    && Tells(events[0], "perception:intent", Perception, ByUser, Done, x.request, x.intent)
    && (x.goal.Some? ==> Tells(events[1], "model:goal", Model, ByModel, Done, Object([("intent_ref", Text("perception:intent"))]), x.goal.value))
    && (x.plan.Some? ==>
          && events[1 + Count(x.goal.Some?)].semanticKey == "model:plan:r" + (if x.plan.value.0 == 0 then "0" else "1")
          && events[1 + Count(x.goal.Some?)].safeOutput == Sanitize(x.plan.value.1, 0))
  }

  predicate TellsRead(c: TraceCommand, o: TracedObservation) {
    && c.semanticKey == "observation:" + o.callId && c.actor == ByTool && c.toolRef == Some(o.toolName)
    && c.eventType == (if o.isKnowledge then Rag else Tool)
    && c.status == (if o.succeeded then Done else EndedBadly)
    && c.errorCode == (if o.succeeded then None else o.errorCode)
    && c.citations == (if o.isKnowledge && o.succeeded then o.citations else [])
    && c.safeInput == Sanitize(Object([("tool_name", Text(o.toolName)), ("arguments_hash", Text(o.argumentsHash))]), 0)
    && c.safeOutput == Sanitize(Object([("status", Text(if o.succeeded then "ok" else "error")), ("evidence_ref", TextOrNothing(o.evidenceRef)),
                                        ("safe_summary", Text(o.summary)), ("error_code", TextOrNothing(o.errorCode))]), 0)
  }

  predicate TellsJudgement(x: Investigation, events: seq<TraceCommand>) {
    && |events| == Count(x.analysis.Some?) + Count(x.assessmentPresent || x.planPresent)
    && (x.analysis.Some? ==> TellsAnalysis(events[0], |x.observations|, x.analysis.value))
    && (x.assessmentPresent || x.planPresent ==> TellsPolicy(events[Count(x.analysis.Some?)], x.assessmentPresent, x.planPresent))
  }

  predicate TellsAnalysis(c: TraceCommand, count: nat, analysis: Value) {
    Tells(c, "model:analysis", Model, ByModel, Done, Object([("observation_count", Number(count as real))]), analysis)
  }

  predicate TellsPolicy(c: TraceCommand, assessed: bool, planned: bool) {
    Tells(c, "rule:policy_guard", Rule, ByPolicy, Done, Object([("analysis_ref", Text("model:analysis"))]),
          Object([("assessment_present", Bool(assessed)), ("decision_plan_present", Bool(planned))]))
  }

  predicate TellsClosing(x: Investigation, events: seq<TraceCommand>) {
    var failed := x.status == "failed";
    && |events| == Count(failed) + 1
    && (failed ==>
          && Tells(events[0], "guardrail:terminal", Guardrail, ByPolicy, Blocked, Object([]), Object([("blocked", Bool(true))]))
          && events[0].errorCode == Some(if x.errorCode.Some? then x.errorCode.value else "agent_investigation_failed"))
    && var last := events[Count(failed)];
    && Tells(last, "feedback:investigation_terminal", Feedback, BySystem, if failed then EndedBadly else Done, Object([]),
             Object([("status", Text(x.status))]))
    && last.errorCode == (if failed then x.errorCode else None)
  }

  /** These events tell the whole investigation and nothing else. */
  ghost predicate TellsAll(x: Investigation, events: seq<TraceCommand>) {
    exists opening, observed, judgement, closing {:trigger opening + observed + judgement + closing} ::
      && events == opening + observed + judgement + closing
      && TellsOpening(x, opening) && TellsReads(x, observed) && TellsJudgement(x, judgement) && TellsClosing(x, closing)
  }

  predicate TellsReads(x: Investigation, events: seq<TraceCommand>) {
    |events| == |x.observations| && forall i | 0 <= i < |events| :: TellsRead(events[i], x.observations[i])
  }

  lemma OpeningTells(x: Investigation)
    ensures TellsOpening(x, Opening(x))
  {
  }

  lemma ReadTells(o: TracedObservation)
    ensures TellsRead(Observed(o), o)
  {
  }

  lemma ReadsTell(x: Investigation)
    ensures TellsReads(x, ObservedAll(x.observations))
  {
    forall i | 0 <= i < |x.observations| ensures TellsRead(ObservedAll(x.observations)[i], x.observations[i]) {
      ReadTells(x.observations[i]);
    }
  }

  lemma AnalysisTells(count: nat, analysis: Value)
    ensures TellsAnalysis(AnalysisEvent(count, analysis), count, analysis)
  {
  }

  lemma PolicyTells(assessed: bool, planned: bool)
    ensures TellsPolicy(PolicyEvent(assessed, planned), assessed, planned)
  {
  }

  lemma JudgementTells(x: Investigation)
    ensures TellsJudgement(x, Judgement(x))
  {
    if x.analysis.Some? {
      AnalysisTells(|x.observations|, x.analysis.value);
    }
    PolicyTells(x.assessmentPresent, x.planPresent);
  }

  lemma ClosingTells(x: Investigation)
    ensures TellsClosing(x, Closing(x))
  {
  }

  lemma PartsTellAll(x: Investigation, opening: seq<TraceCommand>, observed: seq<TraceCommand>, judgement: seq<TraceCommand>,
                     closing: seq<TraceCommand>)
    requires TellsOpening(x, opening) && TellsReads(x, observed) && TellsJudgement(x, judgement) && TellsClosing(x, closing)
    ensures TellsAll(x, opening + observed + judgement + closing)
  {
  }

  /** A capture tells the whole investigation, in its order: what was asked, the goal, the plan, each read, the
      analysis, the policy check, the guard that stopped it, and how it ended. */
  lemma EventsTellTheInvestigation(x: Investigation)
    ensures TellsAll(x, Events(x))
  {
    OpeningTells(x);
    ReadsTell(x);
    JudgementTells(x);
    ClosingTells(x);
    PartsTellAll(x, Opening(x), ObservedAll(x.observations), Judgement(x), Closing(x));
  }

  /** After a capture the run has failed exactly if the investigation did, and otherwise goes on exactly if a work order
      was asked for; a run that goes on has no end. */
  lemma RunsEndExactly(s: Store, modelMode: string, x: Investigation, clock: Clock, newId: Uuid, runId: Uuid)
    requires StoreSound(s) && Replays(s, modelMode, x, runId) && DistinctCalls(x.observations)
    ensures var s' := CaptureStep(s, modelMode, x, clock, newId).0;
            && runId in s'.runs
            && (s'.runs[runId].status == RunFailed <==> x.status == "failed")
            && (s'.runs[runId].status == RunRunning <==> x.status != "failed" && x.action.CreateWorkOrder?)
            && (s'.runs[runId].status == RunCompleted <==> x.status != "failed" && x.action.Query?)
            && s'.runs[runId].endedAt == if s'.runs[runId].status == RunRunning then None else Some(clock(|Events(x)| + 1))
  {
    CapturesExtend(s, modelMode, x, clock, newId, runId);
  }
}
