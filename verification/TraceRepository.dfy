/** The append-only trace of an agent run: one event per semantic key, the first one. */
module Traces {
  import opened Scenarios
  import opened TraceRedaction
  import opened Wrappers

  datatype RunStatus = RunRunning | AwaitingHuman | RunCompleted | RunFailed

  datatype Run = Run(
    id: Uuid,
    operationId: Uuid,
    runKey: string,
    scenario: ScenarioKind,
    status: RunStatus,
    modelMode: string,
    initiatedBy: Option<string>,
    nextSequence: nat,
    startedAt: Instant,
    endedAt: Option<Instant>)

  datatype Citation = Citation(documentId: Uuid, chunkId: Uuid, version: string, rank: nat, score: real)

  datatype EventType = Perception | Model | Tool | Rag | Rule | Guardrail | Human | Execution | Feedback

  datatype Actor = ByUser | ByModel | ByTool | ByPolicy | ByHuman | BySystem

  datatype EventStatus = Waiting | Done | Blocked | EndedBadly

  datatype TraceCommand = TraceCommand(
    semanticKey: string,
    eventType: EventType,
    actor: Actor,
    node: string,
    status: EventStatus,
    safeInput: Value,
    safeOutput: Value,
    promptRef: Option<string>,
    toolRef: Option<string>,
    errorCode: Option<string>,
    citations: seq<Citation>,
    at: Instant)

  /** An event row together with the citation rows inserted with it. */
  datatype TraceEvent = TraceEvent(runId: Uuid, sequence: nat, command: TraceCommand)

  /** The index is the unique constraint on operation and run key. */
  datatype Store = Store(runs: map<Uuid, Run>, index: map<(Uuid, string), Uuid>, events: seq<TraceEvent>)

  datatype TraceError = RunNotFound | ReplayContractMismatch

  datatype AppendResult = AppendResult(event: TraceEvent, replayed: bool)

  const PRIMARY: string := "primary"

  function EventsOf(events: seq<TraceEvent>, runId: Uuid): seq<TraceEvent> {
    if events == [] then []
    else
      var last := events[|events| - 1];
      EventsOf(events[..|events| - 1], runId) + if last.runId == runId then [last] else []
  }

  /** The event of a run with a semantic key: at most one, by the unique constraint. */
  function Find(events: seq<TraceEvent>, runId: Uuid, semanticKey: string): Option<TraceEvent> {
    if events == [] then None
    else
      var last := events[|events| - 1];
      if last.runId == runId && last.command.semanticKey == semanticKey then Some(last)
      else Find(events[..|events| - 1], runId, semanticKey)
  }

  function StartStep(s: Store, op: Uuid, scenario: ScenarioKind, modelMode: string, runKey: string, at: Instant, newId: Uuid)
    : (Store, Result<Run, TraceError>)
  {
    if (op, runKey) in s.index && s.index[(op, runKey)] in s.runs then
      var run := s.runs[s.index[(op, runKey)]];
      (s, if run.scenario != scenario || run.modelMode != modelMode then Err(ReplayContractMismatch) else Ok(run))
    else
      var run := Run(newId, op, runKey, scenario, RunRunning, modelMode, None, 0, at, None);
      (s.(runs := s.runs[newId := run], index := s.index[(op, runKey) := newId]), Ok(run))
  }

  function AppendStep(s: Store, runId: Uuid, command: TraceCommand): (Store, Result<AppendResult, TraceError>) {
    if runId !in s.runs then (s, Err(RunNotFound)) else
    var existing := Find(s.events, runId, command.semanticKey);
    if existing.Some? then (s, Ok(AppendResult(existing.value, true)))
    else
      var run := s.runs[runId];
      var event := TraceEvent(runId, run.nextSequence + 1, command);
      (s.(events := s.events + [event], runs := s.runs[runId := run.(nextSequence := run.nextSequence + 1)]),
       Ok(AppendResult(event, false)))
  }

  function FinishStep(s: Store, runId: Uuid, status: RunStatus, at: Instant): (Store, Result<(), TraceError>) {
    if runId !in s.runs then (s, Err(RunNotFound))
    else (s.(runs := s.runs[runId := s.runs[runId].(status := status, endedAt := if status.RunRunning? then None else Some(at))]),
          Ok(()))
  }

  function ClaimStep(s: Store, op: Uuid, subject: string): (Store, Result<bool, TraceError>) {
    if (op, PRIMARY) !in s.index || s.index[(op, PRIMARY)] !in s.runs then (s, Err(RunNotFound)) else
    var id := s.index[(op, PRIMARY)];
    var owner := s.runs[id].initiatedBy;
    if owner.Some? && owner.value != subject then (s, Ok(false))
    else if owner.None? then (s.(runs := s.runs[id := s.runs[id].(initiatedBy := Some(subject))]), Ok(true))
    else (s, Ok(true))
  }

  class AgentTraceRepository {
    var runs: map<Uuid, Run>
    var index: map<(Uuid, string), Uuid>
    var events: seq<TraceEvent>

    function Snapshot(): Store
      reads this
    {
      Store(runs, index, events)
    }

    constructor ()
      ensures Snapshot() == Store(map[], map[], [])
    {
      runs, index, events := map[], map[], [];
    }

    method StartRun(op: Uuid, scenario: ScenarioKind, modelMode: string, runKey: string, at: Instant, newId: Uuid)
      returns (reply: Result<Run, TraceError>)
      modifies this
      ensures (Snapshot(), reply) == StartStep(old(Snapshot()), op, scenario, modelMode, runKey, at, newId)
    {
      if (op, runKey) !in index || index[(op, runKey)] !in runs {
        var run := Run(newId, op, runKey, scenario, RunRunning, modelMode, None, 0, at, None);
        runs := runs[newId := run];
        index := index[(op, runKey) := newId];
        return Ok(run);
      }
      var run := runs[index[(op, runKey)]];
      if run.scenario != scenario || run.modelMode != modelMode {
        return Err(ReplayContractMismatch);
      }
      return Ok(run);
    }

    method AppendEvent(runId: Uuid, command: TraceCommand) returns (reply: Result<AppendResult, TraceError>)
      modifies this
      ensures (Snapshot(), reply) == AppendStep(old(Snapshot()), runId, command)
    {
      if runId !in runs {
        return Err(RunNotFound);
      }
      var existing := Find(events, runId, command.semanticKey);
      if existing.Some? {
        return Ok(AppendResult(existing.value, true));
      }
      var run := runs[runId];
      var sequence := run.nextSequence + 1;
      var event := TraceEvent(runId, sequence, command);
      events := events + [event];
      runs := runs[runId := run.(nextSequence := sequence)];
      return Ok(AppendResult(event, false));
    }

    method FinishRun(runId: Uuid, status: RunStatus, at: Instant) returns (reply: Result<(), TraceError>)
      modifies this
      ensures (Snapshot(), reply) == FinishStep(old(Snapshot()), runId, status, at)
    {
      if runId !in runs {
        return Err(RunNotFound);
      }
      runs := runs[runId := runs[runId].(status := status, endedAt := if status.RunRunning? then None else Some(at))];
      return Ok(());
    }

    method ClaimOwner(op: Uuid, subject: string) returns (reply: Result<bool, TraceError>)
      modifies this
      ensures (Snapshot(), reply) == ClaimStep(old(Snapshot()), op, subject)
    {
      if (op, PRIMARY) !in index || index[(op, PRIMARY)] !in runs {
        return Err(RunNotFound);
      }
      var id := index[(op, PRIMARY)];
      var owner := runs[id].initiatedBy;
      if owner.Some? && owner.value != subject {
        return Ok(false);
      }
      if owner.None? {
        runs := runs[id := runs[id].(initiatedBy := Some(subject))];
      }
      return Ok(true);
    }
  }

  // ---- Keeping the first command of every key --------------------------------------------------------

  predicate HasKey(commands: seq<TraceCommand>, key: string) {
    exists c | c in commands :: c.semanticKey == key
  }

  function KeepFirst(commands: seq<TraceCommand>): seq<TraceCommand> {
    if commands == [] then []
    else
      var kept, last := KeepFirst(commands[..|commands| - 1]), commands[|commands| - 1];
      if HasKey(kept, last.semanticKey) then kept else kept + [last]
  }

  predicate DistinctCommandKeys(commands: seq<TraceCommand>) {
    forall i, j | 0 <= i < j < |commands| :: commands[i].semanticKey != commands[j].semanticKey
  }

  /** Position `i` holds the first command with its key. */
  predicate FirstOfItsKey(commands: seq<TraceCommand>, i: nat)
    requires i < |commands|
  {
    forall j | 0 <= j < i :: commands[j].semanticKey != commands[i].semanticKey
  }

  lemma HasKeySplits(a: seq<TraceCommand>, b: seq<TraceCommand>, key: string)
    ensures HasKey(a + b, key) <==> HasKey(a, key) || HasKey(b, key)
  {
  }

  lemma SingleKey(c: TraceCommand, key: string)
    ensures HasKey([c], key) <==> c.semanticKey == key
  {
    assert c in [c];
  }

  lemma {:induction false} EveryKeyIsKept(commands: seq<TraceCommand>, key: string)
    ensures HasKey(KeepFirst(commands), key) <==> HasKey(commands, key)
  {
    if commands != [] {
      var n := |commands| - 1;
      assert commands == commands[..n] + [commands[n]];
      EveryKeyIsKept(commands[..n], key);
      EveryKeyIsKept(commands[..n], commands[n].semanticKey);
      HasKeySplits(commands[..n], [commands[n]], key);
      HasKeySplits(KeepFirst(commands[..n]), [commands[n]], key);
    }
  }

  lemma {:induction false} NoKeyIsKeptTwice(commands: seq<TraceCommand>)
    ensures DistinctCommandKeys(KeepFirst(commands))
  {
    if commands != [] {
      NoKeyIsKeptTwice(commands[..|commands| - 1]);
    }
  }

  lemma {:induction false} FirstIsKept(commands: seq<TraceCommand>, i: nat)
    requires i < |commands| && FirstOfItsKey(commands, i)
    ensures commands[i] in KeepFirst(commands)
  {
    var n := |commands| - 1;
    if i < n {
      FirstIsKept(commands[..n], i);
    } else {
      EveryKeyIsKept(commands[..n], commands[n].semanticKey);
    }
  }

  lemma {:induction false} KeptIsFirst(commands: seq<TraceCommand>, c: TraceCommand) returns (i: nat)
    requires c in KeepFirst(commands)
    ensures i < |commands| && commands[i] == c && FirstOfItsKey(commands, i)
  {
    var n := |commands| - 1;
    if c in KeepFirst(commands[..n]) {
      i := KeptIsFirst(commands[..n], c);
    } else {
      i := n;
      EveryKeyIsKept(commands[..n], c.semanticKey);
      assert forall j | 0 <= j < n :: commands[j] in commands[..n];
    }
  }

  /** A command is kept exactly if it stands at a position that is the first with its key. */
  lemma FirstsAreKept(commands: seq<TraceCommand>, c: TraceCommand)
    ensures c in KeepFirst(commands) <==> exists i | 0 <= i < |commands| :: commands[i] == c && FirstOfItsKey(commands, i)
  {
    if c in KeepFirst(commands) {
      var i := KeptIsFirst(commands, c);
    }
    forall i | 0 <= i < |commands| && FirstOfItsKey(commands, i) ensures commands[i] in KeepFirst(commands) {
      FirstIsKept(commands, i);
    }
  }

  lemma {:induction false} DistinctKeysStay(commands: seq<TraceCommand>)
    requires DistinctCommandKeys(commands)
    ensures KeepFirst(commands) == commands
  {
    if commands != [] {
      var n := |commands| - 1;
      DistinctKeysStay(commands[..n]);
      assert commands == commands[..n] + [commands[n]];
      assert forall c | c in commands[..n] :: c.semanticKey != commands[n].semanticKey;
    }
  }

  lemma KeepFirstOfOneMore(commands: seq<TraceCommand>, c: TraceCommand)
    ensures KeepFirst(commands + [c])
         == KeepFirst(commands) + if HasKey(KeepFirst(commands), c.semanticKey) then [] else [c]
  {
    assert (commands + [c])[..|commands|] == commands;
  }

  lemma {:induction false} RepeatsAreDropped(kept: seq<TraceCommand>, commands: seq<TraceCommand>)
    requires DistinctCommandKeys(kept) && forall c | c in commands :: HasKey(kept, c.semanticKey)
    ensures KeepFirst(kept + commands) == kept
  {
    if commands == [] {
      assert kept + commands == kept;
      DistinctKeysStay(kept);
    } else {
      var n := |commands| - 1;
      assert kept + commands == (kept + commands[..n]) + [commands[n]];
      RepeatsAreDropped(kept, commands[..n]);
      KeepFirstOfOneMore(kept + commands[..n], commands[n]);
    }
  }

  // ---- A sound store, whatever is called on it -----------------------------------------------------------

  function Commands(events: seq<TraceEvent>): seq<TraceCommand> {
    seq(|events|, i requires 0 <= i < |events| => events[i].command)
  }

  function LogOf(s: Store, runId: Uuid): seq<TraceCommand> {
    Commands(EventsOf(s.events, runId))
  }

  /** A run's events carry distinct keys and are numbered from one to its counter. */
  ghost predicate RunSound(s: Store, runId: Uuid)
    requires runId in s.runs
  {
    var events := EventsOf(s.events, runId);
    && DistinctCommandKeys(Commands(events))
    && s.runs[runId].nextSequence == |events|
    && forall i | 0 <= i < |events| :: events[i].sequence == i + 1
  }

  ghost predicate StoreSound(s: Store) {
    && (forall id {:trigger RunSound(s, id)} | id in s.runs :: RunSound(s, id))
    && (forall id | id in s.runs :: s.runs[id].id == id)
    && (forall e | e in s.events :: e.runId in s.runs)
    && (forall k | k in s.index :: s.index[k] in s.runs && (s.runs[s.index[k]].operationId, s.runs[s.index[k]].runKey) == k)
  }

  datatype TraceCall =
    | Start(op: Uuid, scenario: ScenarioKind, modelMode: string, runKey: string, at: Instant, newId: Uuid)
    | Append(runId: Uuid, command: TraceCommand)
    | Finish(runId: Uuid, status: RunStatus, at: Instant)
    | Claim(op: Uuid, subject: string)

  function Perform(s: Store, call: TraceCall): Store {
    match call
    case Start(op, scenario, mode, key, at, id) => StartStep(s, op, scenario, mode, key, at, id).0
    case Append(id, command) => AppendStep(s, id, command).0
    case Finish(id, status, at) => FinishStep(s, id, status, at).0
    case Claim(op, subject) => ClaimStep(s, op, subject).0
  }

  lemma {:induction false} FindFinds(events: seq<TraceEvent>, runId: Uuid, key: string)
    ensures Find(events, runId, key).Some? <==> HasKey(Commands(EventsOf(events, runId)), key)
    ensures Find(events, runId, key).Some? ==>
              Find(events, runId, key).value in EventsOf(events, runId) && Find(events, runId, key).value.command.semanticKey == key
  {
    if events != [] {
      var n := |events| - 1;
      FindFinds(events[..n], runId, key);
      var earlier := EventsOf(events[..n], runId);
      if events[n].runId == runId {
        assert Commands(earlier + [events[n]]) == Commands(earlier) + [events[n].command];
        assert EventsOf(events, runId) == earlier + [events[n]];
        HasKeySplits(Commands(earlier), [events[n].command], key);
        SingleKey(events[n].command, key);
      } else {
        assert EventsOf(events, runId) == earlier;
      }
    }
  }

  lemma EventsOfAppended(events: seq<TraceEvent>, e: TraceEvent, runId: Uuid)
    ensures EventsOf(events + [e], runId) == EventsOf(events, runId) + if e.runId == runId then [e] else []
  {
    assert (events + [e])[..|events|] == events;
  }

  lemma {:induction false} NoEventsWithoutRun(events: seq<TraceEvent>, runId: Uuid)
    requires forall e | e in events :: e.runId != runId
    ensures EventsOf(events, runId) == []
  {
    if events != [] {
      NoEventsWithoutRun(events[..|events| - 1], runId);
    }
  }

  /** The run's log is the keep-first deduplication of all that was appended; everything else stays. */
  ghost predicate Appended(s: Store, s': Store, runId: Uuid, commands: seq<TraceCommand>) {
    && runId in s.runs && s'.runs.Keys == s.runs.Keys && s'.index == s.index
    && LogOf(s', runId) == KeepFirst(LogOf(s, runId) + commands)
    && s'.runs[runId] == s.runs[runId].(nextSequence := |LogOf(s', runId)|)
    && (forall other {:trigger EventsOf(s'.events, other)} | other in s.runs && other != runId ::
          s'.runs[other] == s.runs[other] && EventsOf(s'.events, other) == EventsOf(s.events, other))
    && EventsOf(s.events, runId) <= EventsOf(s'.events, runId)
  }

  lemma AppendKeepsFirst(s: Store, runId: Uuid, command: TraceCommand)
    requires StoreSound(s) && runId in s.runs
    ensures var s' := AppendStep(s, runId, command).0; StoreSound(s') && Appended(s, s', runId, [command])
  {
    FindFinds(s.events, runId, command.semanticKey);
    if HasKey(LogOf(s, runId), command.semanticKey) {
      KnownEventIsKept(s, runId, command);
    } else {
      NewEventIsAppended(s, runId, command);
      NewEventIsSound(s, runId, command);
    }
  }

  lemma KnownEventIsKept(s: Store, runId: Uuid, command: TraceCommand)
    requires StoreSound(s) && runId in s.runs && HasKey(LogOf(s, runId), command.semanticKey)
    ensures Appended(s, s, runId, [command])
  {
    var log := LogOf(s, runId);
    assert RunSound(s, runId);
    DistinctKeysStay(log);
    KeepFirstOfOneMore(log, command);
    assert s.runs[runId] == s.runs[runId].(nextSequence := |log|);
  }

  /** The store with one more event of a run. */
  function Extended(s: Store, runId: Uuid, command: TraceCommand): Store
    requires runId in s.runs
  {
    var run := s.runs[runId];
    s.(events := s.events + [TraceEvent(runId, run.nextSequence + 1, command)],
    runs := s.runs[runId := run.(nextSequence := run.nextSequence + 1)])
  }

  lemma NewEventIsAppended(s: Store, runId: Uuid, command: TraceCommand)
    requires StoreSound(s) && runId in s.runs && !HasKey(LogOf(s, runId), command.semanticKey)
    ensures Appended(s, Extended(s, runId, command), runId, [command])
    ensures EventsOf(Extended(s, runId, command).events, runId)
         == EventsOf(s.events, runId) + [TraceEvent(runId, s.runs[runId].nextSequence + 1, command)]
  {
    var event := TraceEvent(runId, s.runs[runId].nextSequence + 1, command);
    var log := LogOf(s, runId);
    assert RunSound(s, runId);
    DistinctKeysStay(log);
    KeepFirstOfOneMore(log, command);
    EventsOfAppended(s.events, event, runId);
    assert Commands(EventsOf(s.events, runId) + [event]) == log + [command];
    forall other | other in s.runs && other != runId
      ensures EventsOf(Extended(s, runId, command).events, other) == EventsOf(s.events, other)
    {
      EventsOfAppended(s.events, event, other);
    }
  }

  lemma NewEventIsSound(s: Store, runId: Uuid, command: TraceCommand)
    requires StoreSound(s) && runId in s.runs && !HasKey(LogOf(s, runId), command.semanticKey)
    ensures StoreSound(Extended(s, runId, command))
  {
    var s' := Extended(s, runId, command);
    NewEventIsAppended(s, runId, command);
    forall id | id in s'.runs ensures RunSound(s', id) {
      assert RunSound(s, id);
      if id == runId {
        GrownRunIsSound(s, runId, TraceEvent(runId, s.runs[runId].nextSequence + 1, command), s');
      } else {
        assert EventsOf(s'.events, id) == EventsOf(s.events, id);
      }
    }
  }

  lemma GrownRunIsSound(s: Store, runId: Uuid, event: TraceEvent, s': Store)
    requires runId in s.runs && runId in s'.runs && RunSound(s, runId)
    requires EventsOf(s'.events, runId) == EventsOf(s.events, runId) + [event]
    requires event.sequence == s.runs[runId].nextSequence + 1 == s'.runs[runId].nextSequence
    requires !HasKey(LogOf(s, runId), event.command.semanticKey)
    ensures RunSound(s', runId)
  {
    var log := LogOf(s, runId);
    assert LogOf(s', runId) == log + [event.command];
    assert forall i | 0 <= i < |log| :: log[i] in log;
  }

  lemma RowUpdateIsSound(s: Store, runId: Uuid, run: Run)
    requires StoreSound(s) && runId in s.runs
    requires run.nextSequence == s.runs[runId].nextSequence
    requires run.id == runId && run.operationId == s.runs[runId].operationId && run.runKey == s.runs[runId].runKey
    ensures StoreSound(s.(runs := s.runs[runId := run]))
  {
    var s' := s.(runs := s.runs[runId := run]);
    forall id | id in s'.runs ensures RunSound(s', id) {
      assert RunSound(s, id);
    }
  }

  lemma NewRunIsSound(s: Store, run: Run)
    requires StoreSound(s) && run.id !in s.runs && run.nextSequence == 0
    ensures StoreSound(s.(runs := s.runs[run.id := run], index := s.index[(run.operationId, run.runKey) := run.id]))
  {
    var s' := s.(runs := s.runs[run.id := run], index := s.index[(run.operationId, run.runKey) := run.id]);
    NoEventsWithoutRun(s.events, run.id);
    forall id | id in s'.runs ensures RunSound(s', id) {
      if id != run.id {
        assert RunSound(s, id);
      }
    }
  }

  /** Every call keeps the store sound, forgets no run, rewrites no event and never moves an owner. */
  lemma CallKeepsStore(s: Store, call: TraceCall, runId: Uuid)
    requires StoreSound(s) && runId in s.runs
    requires call.Start? ==> call.newId !in s.runs
    ensures var s' := Perform(s, call);
            && StoreSound(s') && runId in s'.runs
            && EventsOf(s.events, runId) <= EventsOf(s'.events, runId)
            && (s.runs[runId].initiatedBy.Some? ==> s'.runs[runId].initiatedBy == s.runs[runId].initiatedBy)
            && (forall k | k in s.index :: k in s'.index && s'.index[k] == s.index[k])
  {
    match call {
      case Start(op, scenario, mode, key, at, id) => StartKeepsStore(s, op, scenario, mode, key, at, id, runId);
      case Append(id, command) => AppendKeepsStore(s, id, command, runId);
      case Finish(id, status, at) =>
        if id in s.runs {
          RowUpdateIsSound(s, id, s.runs[id].(status := status, endedAt := if status.RunRunning? then None else Some(at)));
        }
      case Claim(op, subject) => ClaimKeepsStore(s, op, subject, runId);
    }
  }

  lemma StartKeepsStore(s: Store, op: Uuid, scenario: ScenarioKind, mode: string, key: string, at: Instant, id: Uuid, runId: Uuid)
    requires StoreSound(s) && runId in s.runs && id !in s.runs
    ensures var s' := StartStep(s, op, scenario, mode, key, at, id).0;
            && StoreSound(s') && s'.events == s.events && runId in s'.runs && s'.runs[runId] == s.runs[runId]
            && (forall k | k in s.index :: k in s'.index && s'.index[k] == s.index[k])
  {
    if (op, key) !in s.index {
      NewRunIsSound(s, Run(id, op, key, scenario, RunRunning, mode, None, 0, at, None));
    }
  }

  lemma AppendKeepsStore(s: Store, id: Uuid, command: TraceCommand, runId: Uuid)
    requires StoreSound(s) && runId in s.runs
    ensures var s' := AppendStep(s, id, command).0;
            && StoreSound(s') && s'.index == s.index && runId in s'.runs
            && s'.runs[runId].initiatedBy == s.runs[runId].initiatedBy
            && EventsOf(s.events, runId) <= EventsOf(s'.events, runId)
  {
    if id in s.runs {
      AppendKeepsFirst(s, id, command);
      if id != runId {
        assert EventsOf(AppendStep(s, id, command).0.events, runId) == EventsOf(s.events, runId);
      }
    }
  }

  lemma ClaimKeepsStore(s: Store, op: Uuid, subject: string, runId: Uuid)
    requires StoreSound(s) && runId in s.runs
    ensures var s' := ClaimStep(s, op, subject).0;
            && StoreSound(s') && s'.index == s.index && s'.events == s.events && runId in s'.runs
            && (s.runs[runId].initiatedBy.Some? ==> s'.runs[runId].initiatedBy == s.runs[runId].initiatedBy)
  {
    if (op, PRIMARY) in s.index {
      var id := s.index[(op, PRIMARY)];
      RowUpdateIsSound(s, id, s.runs[id].(initiatedBy := Some(subject)));
    }
  }

  // ---- Main results ------------------------------------------------------------------------------------------

  function AppendAll(s: Store, runId: Uuid, commands: seq<TraceCommand>): Store {
    if commands == [] then s
    else AppendStep(AppendAll(s, runId, commands[..|commands| - 1]), runId, commands[|commands| - 1]).0
  }

  /** Appending any commands leaves the keep-first deduplication of everything ever appended. */
  lemma {:induction false} AppendsKeepFirst(s: Store, runId: Uuid, commands: seq<TraceCommand>)
    requires StoreSound(s) && runId in s.runs
    ensures var s' := AppendAll(s, runId, commands); StoreSound(s') && Appended(s, s', runId, commands)
  {
    if commands == [] {
      assert RunSound(s, runId);
      DistinctKeysStay(LogOf(s, runId));
      assert LogOf(s, runId) + commands == LogOf(s, runId);
    } else {
      var n := |commands| - 1;
      var middle := AppendAll(s, runId, commands[..n]);
      AppendsKeepFirst(s, runId, commands[..n]);
      AppendKeepsFirst(middle, runId, commands[n]);
      assert commands == commands[..n] + [commands[n]];
      AppendedTwice(s, middle, AppendAll(s, runId, commands), runId, commands[..n], commands[n]);
    }
  }

  lemma AppendedTwice(s: Store, middle: Store, s': Store, runId: Uuid, commands: seq<TraceCommand>, c: TraceCommand)
    requires Appended(s, middle, runId, commands) && Appended(middle, s', runId, [c])
    ensures Appended(s, s', runId, commands + [c])
  {
    KeepingTwice(LogOf(s, runId) + commands, c);
    assert LogOf(s, runId) + (commands + [c]) == (LogOf(s, runId) + commands) + [c];
    forall other | other in s.runs && other != runId
      ensures s'.runs[other] == s.runs[other] && EventsOf(s'.events, other) == EventsOf(s.events, other)
    {
      assert other in middle.runs.Keys;
      assert EventsOf(middle.events, other) == EventsOf(s.events, other);
      assert EventsOf(s'.events, other) == EventsOf(middle.events, other);
      assert middle.runs[other] == s.runs[other];
      assert s'.runs[other] == middle.runs[other];
    }
  }

  lemma KeepingTwice(commands: seq<TraceCommand>, c: TraceCommand)
    ensures KeepFirst(KeepFirst(commands) + [c]) == KeepFirst(commands + [c])
  {
    NoKeyIsKeptTwice(commands);
    DistinctKeysStay(KeepFirst(commands));
    KeepFirstOfOneMore(KeepFirst(commands), c);
    KeepFirstOfOneMore(commands, c);
  }

  /** Appending known keys again leaves the store exactly as it was. */
  lemma {:induction false} KnownKeysChangeNothing(s: Store, runId: Uuid, commands: seq<TraceCommand>)
    requires StoreSound(s) && runId in s.runs && forall c | c in commands :: HasKey(LogOf(s, runId), c.semanticKey)
    ensures AppendAll(s, runId, commands) == s
  {
    if commands != [] {
      var n := |commands| - 1;
      KnownKeysChangeNothing(s, runId, commands[..n]);
      assert commands[n] in commands;
      FindFinds(s.events, runId, commands[n].semanticKey);
    }
  }

  /** Appending events whose keys were appended before, whatever their contents and times, changes nothing. */
  lemma RecaptureChangesNothing(s: Store, runId: Uuid, commands: seq<TraceCommand>, again: seq<TraceCommand>)
    requires StoreSound(s) && runId in s.runs && forall c | c in again :: HasKey(commands, c.semanticKey)
    ensures AppendAll(AppendAll(s, runId, commands), runId, again) == AppendAll(s, runId, commands)
  {
    AppendsKeepFirst(s, runId, commands);
    forall c | c in again ensures HasKey(LogOf(AppendAll(s, runId, commands), runId), c.semanticKey) {
      EveryKeyIsKept(LogOf(s, runId) + commands, c.semanticKey);
      HasKeySplits(LogOf(s, runId), commands, c.semanticKey);
    }
    KnownKeysChangeNothing(AppendAll(s, runId, commands), runId, again);
  }

  /** The commands whose keys are not known yet. */
  function Newcomers(known: seq<TraceCommand>, again: seq<TraceCommand>): seq<TraceCommand> {
    if again == [] then []
    else
      var last := again[|again| - 1];
      Newcomers(known, again[..|again| - 1]) + if HasKey(known, last.semanticKey) then [] else [last]
  }

  lemma {:induction false} NewcomersComeFrom(known: seq<TraceCommand>, again: seq<TraceCommand>, key: string)
    ensures HasKey(Newcomers(known, again), key) <==> HasKey(again, key) && !HasKey(known, key)
  {
    if again != [] {
      var n := |again| - 1;
      assert again == again[..n] + [again[n]];
      NewcomersComeFrom(known, again[..n], key);
      HasKeySplits(again[..n], [again[n]], key);
      SingleKey(again[n], key);
      HasKeySplits(Newcomers(known, again[..n]), [again[n]], key);
    }
  }

  lemma {:induction false} KeepFirstAddsNewcomers(known: seq<TraceCommand>, again: seq<TraceCommand>)
    requires DistinctCommandKeys(known) && DistinctCommandKeys(again)
    ensures KeepFirst(known + again) == known + Newcomers(known, again)
  {
    if again == [] {
      assert known + again == known;
      DistinctKeysStay(known);
    } else {
      var n := |again| - 1;
      assert known + again == (known + again[..n]) + [again[n]];
      KeepFirstAddsNewcomers(known, again[..n]);
      KeepFirstOfOneMore(known + again[..n], again[n]);
      NewcomersComeFrom(known, again[..n], again[n].semanticKey);
      HasKeySplits(known, Newcomers(known, again[..n]), again[n].semanticKey);
      assert forall c | c in again[..n] :: c.semanticKey != again[n].semanticKey;
    }
  }

  /** A later capture extends the log by exactly those of its events that are new, in order. */
  lemma LaterCapturesExtend(s: Store, runId: Uuid, again: seq<TraceCommand>)
    requires StoreSound(s) && runId in s.runs && DistinctCommandKeys(again)
    ensures LogOf(AppendAll(s, runId, again), runId) == LogOf(s, runId) + Newcomers(LogOf(s, runId), again)
    ensures AppendAll(s, runId, again) == s <==> forall c | c in again :: HasKey(LogOf(s, runId), c.semanticKey)
  {
    assert RunSound(s, runId);
    AppendsKeepFirst(s, runId, again);
    KeepFirstAddsNewcomers(LogOf(s, runId), again);
    if forall c | c in again :: HasKey(LogOf(s, runId), c.semanticKey) {
      KnownKeysChangeNothing(s, runId, again);
    } else {
      var c :| c in again && !HasKey(LogOf(s, runId), c.semanticKey);
      NewcomersComeFrom(LogOf(s, runId), again, c.semanticKey);
      assert Newcomers(LogOf(s, runId), again) != [];
    }
  }

  function PerformAll(s: Store, calls: seq<TraceCall>): Store {
    if calls == [] then s else Perform(PerformAll(s, calls[..|calls| - 1]), calls[|calls| - 1])
  }

  /** New run ids are fresh, as random UUIDs are. */
  predicate FreshIds(s: Store, calls: seq<TraceCall>) {
    forall i | 0 <= i < |calls| && calls[i].Start? :: calls[i].newId !in PerformAll(s, calls[..i]).runs
  }

  /** The first claim on a run's ownership stands: afterwards exactly the owner's claims succeed. */
  lemma {:induction false} FirstClaimStands(s: Store, calls: seq<TraceCall>, op: Uuid, owner: string, subject: string)
    requires StoreSound(s) && FreshIds(s, calls)
    requires (op, PRIMARY) in s.index && s.index[(op, PRIMARY)] in s.runs
    requires s.runs[s.index[(op, PRIMARY)]].initiatedBy == Some(owner)
    ensures var s' := PerformAll(s, calls);
            && StoreSound(s')
            && (op, PRIMARY) in s'.index && s'.index[(op, PRIMARY)] in s'.runs
            && s'.runs[s'.index[(op, PRIMARY)]].initiatedBy == Some(owner)
            && ClaimStep(s', op, subject) == (s', Ok(subject == owner))
  {
    if calls != [] {
      var n := |calls| - 1;
      forall i | 0 <= i < n && calls[..n][i].Start? ensures calls[..n][i].newId !in PerformAll(s, calls[..n][..i]).runs {
        assert calls[..n][..i] == calls[..i];
      }
      FirstClaimStands(s, calls[..n], op, owner, subject);
      var middle := PerformAll(s, calls[..n]);
      CallKeepsStore(middle, calls[n], middle.index[(op, PRIMARY)]);
    }
  }

  /** One run per operation and key. A first start opens an empty, running, unowned run; a later one finds that run
      exactly if it is for the same scenario and model, and changes nothing. */
  lemma RunsAreStartedOnce(s: Store, op: Uuid, scenario: ScenarioKind, modelMode: string, runKey: string, at: Instant, newId: Uuid)
    requires StoreSound(s) && newId !in s.runs
    ensures var (s', reply) := StartStep(s, op, scenario, modelMode, runKey, at, newId);
            if (op, runKey) in s.index
            then var run := s.runs[s.index[(op, runKey)]];
                 && s' == s && run.operationId == op && run.runKey == runKey
                 && reply == (if run.scenario == scenario && run.modelMode == modelMode then Ok(run) else Err(ReplayContractMismatch))
            else && reply == Ok(Run(newId, op, runKey, scenario, RunRunning, modelMode, None, 0, at, None))
                 && s'.runs == s.runs[newId := reply.value] && s'.index == s.index[(op, runKey) := newId]
                 && s'.events == s.events && LogOf(s', newId) == []
  {
    NoEventsWithoutRun(s.events, newId);
  }

  /** Whoever claims an unowned run first owns it for good: whatever happens after, exactly the owner's claims succeed. */
  lemma FirstClaimDecides(s: Store, calls: seq<TraceCall>, op: Uuid, owner: string, subject: string)
    requires StoreSound(s) && FreshIds(ClaimStep(s, op, owner).0, calls)
    requires (op, PRIMARY) in s.index && s.index[(op, PRIMARY)] in s.runs && s.runs[s.index[(op, PRIMARY)]].initiatedBy.None?
    ensures ClaimStep(s, op, owner).1 == Ok(true)
    ensures var s' := PerformAll(ClaimStep(s, op, owner).0, calls); ClaimStep(s', op, subject) == (s', Ok(subject == owner))
  {
    ClaimKeepsStore(s, op, owner, s.index[(op, PRIMARY)]);
    FirstClaimStands(ClaimStep(s, op, owner).0, calls, op, owner, subject);
  }

  /** An append replies with the event now stored under the key: the one already there, marked as a replay, or the new
      one under the next number. */
  lemma AppendsReplyExactly(s: Store, runId: Uuid, command: TraceCommand)
    requires StoreSound(s) && runId in s.runs
    ensures var (s', reply) := AppendStep(s, runId, command);
            && reply.Ok? && reply.value.event in EventsOf(s'.events, runId)
            && reply.value.event.command.semanticKey == command.semanticKey
            && (reply.value.replayed <==> HasKey(LogOf(s, runId), command.semanticKey))
            && (reply.value.replayed ==> s' == s)
            && (!reply.value.replayed ==> reply.value.event == TraceEvent(runId, |LogOf(s, runId)| + 1, command))
  {
    assert RunSound(s, runId);
    FindFinds(s.events, runId, command.semanticKey);
    if !HasKey(LogOf(s, runId), command.semanticKey) {
      NewEventIsAppended(s, runId, command);
    }
  }
}
