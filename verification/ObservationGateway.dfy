/** Cache-aside reads for the tools a model may call, and what a hit may be trusted for. */
module ObservationGateways {
  import opened AgentDomain
  import opened Digests
  import opened EvidenceCaches
  import opened Scenarios
  import opened ToolPolicies
  import opened Wrappers

  datatype ReadFailure = InvalidAgentToolArguments | DelegateFailed

  datatype ReadToolResult = ReadToolResult(evidence: EvidencePayload, status: CacheStatus)

  /** The outside world during one read. */
  datatype Moment = Moment(
    lookupAt: Instant,
    lookupReachable: bool,
    loaded: Option<EvidencePayload>,
    setAt: Instant,
    setReachable: bool)

  function TextAt(arguments: Arguments, key: string): Option<ObjectRef> {
    if key in arguments && arguments[key].JText? then Some(Named(arguments[key].text)) else None
  }

  function PolicyKind(arguments: Arguments): Option<(string, string)> {
    if "action" !in arguments then None
    else if arguments["action"] == JText("replenish_inventory") then Some(("policy.inventory", "sku"))
    else if arguments["action"] == JText("repair_equipment") then Some(("policy.equipment", "equipment_id"))
    else if arguments["action"] == JText("recover_task") then Some(("policy.task", "task_id"))
    else None
  }

  function KeyedBy(kind: string, object_: Option<ObjectRef>): Option<CacheKey> {
    if object_.None? then None else Some(EvidenceCacheKey(kind, object_.value))
  }

  /** `None` where the arguments do not identify an object. */
  function KeyOf(tool: ReadTool, arguments: Arguments): Option<CacheKey> {
    match tool
    case InventorySnapshot => KeyedBy("inventory", TextAt(arguments, "sku"))
    case EquipmentStatus => KeyedBy("equipment", TextAt(arguments, "equipment_id"))
    case TaskStatus => KeyedBy("task", TextAt(arguments, "task_id"))
    case PolicyConstraints =>
      var selected := PolicyKind(arguments);
      if selected.None? then None else KeyedBy(selected.value.0, TextAt(arguments, selected.value.1))
    case KnowledgeSearch => KeyedBy("knowledge", Some(CanonicalText(arguments)))
  }

  /** A cached value that the tool's own evidence model accepts. */
  function Restore(tool: ReadTool, arguments: Arguments, value: EvidencePayload): Option<EvidencePayload> {
    var accepted := match tool
      case InventorySnapshot => value.InventoryPayload?
      case EquipmentStatus => value.EquipmentPayload?
      case TaskStatus => value.TaskPayload?
      case KnowledgeSearch => value.KnowledgePayload?
      case PolicyConstraints =>
        var selected := PolicyKind(arguments);
        if selected.None? then false
        else if selected.value.1 == "sku" then value.ReplenishmentPolicy?
        else if selected.value.1 == "equipment_id" then value.MaintenancePolicy?
        else value.TaskRecoveryPolicy?;
    if accepted then Some(value) else None
  }

  function Loaded(m: Moment, status: CacheStatus): Result<ReadToolResult, ReadFailure> {
    if m.loaded.None? then Err(DelegateFailed) else Ok(ReadToolResult(m.loaded.value, status))
  }

  /** What the cache has to offer for a call, if anything. */
  function Cached(entries: Entries, key: CacheKey, tool: ReadTool, arguments: Arguments, m: Moment): Option<EvidencePayload> {
    var lookup := LookupIn(entries, key, m.lookupAt, m.lookupReachable);
    if lookup.value.None? then None else Restore(tool, arguments, lookup.value.value)
  }

  function ReadStep(entries: Entries, ttl: int, bypass: bool, tool: ReadTool, arguments: Arguments, m: Moment)
    : (Entries, Result<ReadToolResult, ReadFailure>)
  {
    if bypass then (entries, Loaded(m, Bypass)) else
    var key := KeyOf(tool, arguments);
    if key.None? then (entries, Err(InvalidAgentToolArguments)) else
    var cached := Cached(entries, key.value, tool, arguments, m);
    if cached.Some? then (entries, Ok(ReadToolResult(cached.value, Hit)))
    else if m.loaded.None? then (entries, Err(DelegateFailed))
    else (SetIn(entries, key.value, m.loaded.value, ttl, m.setAt, m.setReachable),
          Loaded(m, LookupIn(entries, key.value, m.lookupAt, m.lookupReachable).status))
  }

  class CachedReadToolGateway {
    const cache: RedisEvidenceCache
    const ttl: int
    const bypass: bool

    constructor (cache: RedisEvidenceCache, ttl: int, bypass: bool)
      requires 0 < ttl
      ensures this.cache == cache && this.ttl == ttl && this.bypass == bypass
    {
      this.cache, this.ttl, this.bypass := cache, ttl, bypass;
    }

    method ReadAgentTool(tool: ReadTool, arguments: Arguments, m: Moment) returns (reply: Result<ReadToolResult, ReadFailure>)
      modifies cache
      ensures (cache.entries, reply) == ReadStep(old(cache.entries), ttl, bypass, tool, arguments, m)
    {
      if bypass {
        return if m.loaded.None? then Err(DelegateFailed) else Ok(ReadToolResult(m.loaded.value, Bypass));
      }
      var key := KeyOf(tool, arguments);
      if key.None? {
        return Err(InvalidAgentToolArguments);
      }
      var lookup := cache.Lookup(key.value, m.lookupAt, m.lookupReachable);
      if lookup.value.Some? {
        var cached := Restore(tool, arguments, lookup.value.value);
        if cached.Some? {
          return Ok(ReadToolResult(cached.value, Hit));
        }
      }
      if m.loaded.None? {
        return Err(DelegateFailed);
      }
      cache.Set(key.value, m.loaded.value, ttl, m.setAt, m.setReachable);
      return Ok(ReadToolResult(m.loaded.value, lookup.status));
    }
  }

  // ---- Which calls share a key ----------------------------------------------------------------------------

  /** A call some tool policy would authorize. */
  ghost predicate Allowed(tool: ReadTool, arguments: Arguments) {
    exists policy: ToolPolicy :: tool in policy.Expected() && arguments == policy.Expected()[tool]
  }

  /** The argument that names the object a fact tool reads, and the kind the policy tool looks up. */
  predicate SameObject(tool: ReadTool, arguments1: Arguments, arguments2: Arguments) {
    match tool
    case InventorySnapshot => TextAt(arguments1, "sku") == TextAt(arguments2, "sku")
    case EquipmentStatus => TextAt(arguments1, "equipment_id") == TextAt(arguments2, "equipment_id")
    case TaskStatus => TextAt(arguments1, "task_id") == TextAt(arguments2, "task_id")
    case PolicyConstraints =>
      var selected := PolicyKind(arguments1);
      && selected == PolicyKind(arguments2)
      && selected.Some? && TextAt(arguments1, selected.value.1) == TextAt(arguments2, selected.value.1)
    case KnowledgeSearch => arguments1 == arguments2
  }

  /** Two calls share a cache entry if and only if they are calls of the same tool for the same object; whatever
      else their arguments hold makes no difference. */
  lemma KeysAreSharedExactly(tool1: ReadTool, arguments1: Arguments, tool2: ReadTool, arguments2: Arguments)
    requires KeyOf(tool1, arguments1).Some? && KeyOf(tool2, arguments2).Some?
    ensures KeyOf(tool1, arguments1) == KeyOf(tool2, arguments2) <==> tool1 == tool2 && SameObject(tool1, arguments1, arguments2)
  {
    if KeyOf(tool1, arguments1) == KeyOf(tool2, arguments2) {
      KindsTellTools(tool1, arguments1, tool2, arguments2);
    }
  }

  /** The kind of a key begins with a letter of its tool, and a policy kind goes on with one of its object. */
  lemma KindsTellTools(tool1: ReadTool, arguments1: Arguments, tool2: ReadTool, arguments2: Arguments)
    requires KeyOf(tool1, arguments1).Some? && KeyOf(tool2, arguments2).Some?
    requires KeyOf(tool1, arguments1).value.kind == KeyOf(tool2, arguments2).value.kind
    ensures tool1 == tool2 && (tool1.PolicyConstraints? ==> PolicyKind(arguments1) == PolicyKind(arguments2))
  {
    var kind1, kind2 := KeyOf(tool1, arguments1).value.kind, KeyOf(tool2, arguments2).value.kind;
    assert kind1[0] == kind2[0];
    if tool1.PolicyConstraints? && tool2.PolicyConstraints? {
      assert kind1[7] == kind2[7];
    }
  }

  /** Allowed calls identify their object, and different allowed calls never share a key. */
  lemma AllowedKeysAreInjective(tool1: ReadTool, arguments1: Arguments, tool2: ReadTool, arguments2: Arguments)
    requires Allowed(tool1, arguments1) && Allowed(tool2, arguments2)
    ensures KeyOf(tool1, arguments1).Some?
    ensures KeyOf(tool1, arguments1) == KeyOf(tool2, arguments2) <==> tool1 == tool2 && arguments1 == arguments2
  {
    var p1: ToolPolicy :| tool1 in p1.Expected() && arguments1 == p1.Expected()[tool1];
    var p2: ToolPolicy :| tool2 in p2.Expected() && arguments2 == p2.Expected()[tool2];
    KeyOfExpected(p1, tool1);
    KeyOfExpected(p2, tool2);
    KeysAreSharedExactly(tool1, arguments1, tool2, arguments2);
    if tool1 == tool2 && SameObject(tool1, arguments1, arguments2) && !tool1.KnowledgeSearch? {
      ObjectsTellPolicies(p1, p2, tool1);
      ExpectedByObject(p1, p2, tool1);
    }
  }

  lemma ObjectsTellPolicies(p1: ToolPolicy, p2: ToolPolicy, tool: ReadTool)
    requires tool in p1.Expected() && tool in p2.Expected() && !tool.KnowledgeSearch?
    requires SameObject(tool, p1.Expected()[tool], p2.Expected()[tool])
    ensures p1.goal.scenario == p2.goal.scenario && p1.goal.objectId == p2.goal.objectId
  {
  }

  /** The fact tools' arguments depend on scenario and object only. */
  lemma ExpectedByObject(p1: ToolPolicy, p2: ToolPolicy, tool: ReadTool)
    requires tool in p1.Expected() && tool in p2.Expected() && !tool.KnowledgeSearch?
    requires p1.goal.scenario == p2.goal.scenario && p1.goal.objectId == p2.goal.objectId
    ensures p1.Expected()[tool] == p2.Expected()[tool]
  {
  }

  lemma KeyOfExpected(policy: ToolPolicy, tool: ReadTool)
    requires tool in policy.Expected()
    ensures KeyOf(tool, policy.Expected()[tool]).Some?
  {
  }

  // ---- Reads over time --------------------------------------------------------------------------------------

  datatype Read = Read(bypass: bool, tool: ReadTool, arguments: Arguments, moment: Moment)

  /** What a cached read took from the delegate, and when it tried to cache it. */
  datatype Load = Load(tool: ReadTool, arguments: Arguments, evidence: EvidencePayload, at: Instant)

  datatype History = History(entries: Entries, loads: seq<Load>)

  function Perform(h: History, ttl: int, read: Read): History {
    var (entries, reply) := ReadStep(h.entries, ttl, read.bypass, read.tool, read.arguments, read.moment);
    var key := KeyOf(read.tool, read.arguments);
    var fromDelegate := !read.bypass && read.moment.loaded.Some? && key.Some?
                        && Cached(h.entries, key.value, read.tool, read.arguments, read.moment).None?;
    History(entries,
            if fromDelegate then h.loads + [Load(read.tool, read.arguments, read.moment.loaded.value, read.moment.setAt)] else h.loads)
  }

  function PerformAll(h: History, ttl: int, calls: seq<Read>): History {
    if calls == [] then h else Perform(PerformAll(h, ttl, calls[..|calls| - 1]), ttl, calls[|calls| - 1])
  }

  predicate Backs(load: Load, key: CacheKey, entry: CacheEntry, ttl: int) {
    KeyOf(load.tool, load.arguments) == Some(key) && load.evidence == entry.value && entry.expiresAt == load.at + ttl
  }

  /** Every entry was put there by a load, and loads are of allowed calls. */
  ghost predicate HistorySound(h: History, ttl: int) {
    && (forall key | key in h.entries :: exists load | load in h.loads :: Backs(load, key, h.entries[key], ttl))
    && (forall load | load in h.loads :: Allowed(load.tool, load.arguments))
  }

  lemma ReadKeepsHistory(h: History, ttl: int, read: Read)
    requires HistorySound(h, ttl) && (!read.bypass ==> Allowed(read.tool, read.arguments))
    ensures HistorySound(Perform(h, ttl, read), ttl) && h.loads <= Perform(h, ttl, read).loads
  {
    var h' := Perform(h, ttl, read);
    forall key | key in h'.entries ensures exists load | load in h'.loads :: Backs(load, key, h'.entries[key], ttl) {
      if key in h.entries && h'.entries[key] == h.entries[key] {
        var load :| load in h.loads && Backs(load, key, h.entries[key], ttl);
        assert load in h'.loads;
      } else {
        var load := h'.loads[|h'.loads| - 1];
        assert load in h'.loads && Backs(load, key, h'.entries[key], ttl);
      }
    }
  }

  lemma {:induction false} ReadsKeepHistory(ttl: int, calls: seq<Read>)
    requires forall r | r in calls && !r.bypass :: Allowed(r.tool, r.arguments)
    ensures HistorySound(PerformAll(History(map[], []), ttl, calls), ttl)
  {
    if calls != [] {
      var n := |calls| - 1;
      ReadsKeepHistory(ttl, calls[..n]);
      assert calls[n] in calls;
      ReadKeepsHistory(PerformAll(History(map[], []), ttl, calls[..n]), ttl, calls[n]);
    }
  }

  /** Every hit is something the delegate returned for this very tool and these very arguments, cached
      less than the lifetime ago. */
  lemma HitsAreAuthentic(ttl: int, calls: seq<Read>, read: Read) returns (load: Load)
    requires forall r | r in calls && !r.bypass :: Allowed(r.tool, r.arguments)
    requires Allowed(read.tool, read.arguments) && KeyOf(read.tool, read.arguments).Some?
    requires var h := PerformAll(History(map[], []), ttl, calls);
             Cached(h.entries, KeyOf(read.tool, read.arguments).value, read.tool, read.arguments, read.moment).Some?
    ensures var h := PerformAll(History(map[], []), ttl, calls);
            && load in h.loads
            && load.tool == read.tool && load.arguments == read.arguments
            && ReadStep(h.entries, ttl, false, read.tool, read.arguments, read.moment)
               == (h.entries, Ok(ReadToolResult(load.evidence, Hit)))
            && read.moment.lookupAt - load.at < ttl
  {
    var h := PerformAll(History(map[], []), ttl, calls);
    ReadsKeepHistory(ttl, calls);
    var key := KeyOf(read.tool, read.arguments).value;
    load :| load in h.loads && Backs(load, key, h.entries[key], ttl);
    AllowedKeysAreInjective(load.tool, load.arguments, read.tool, read.arguments);
  }

  /** A cache that cannot be reached answers like an empty one, except for the status it reports. */
  lemma FailuresAreMisses(entries: Entries, ttl: int, tool: ReadTool, arguments: Arguments, m: Moment)
    requires !m.lookupReachable
    ensures var failed := ReadStep(entries, ttl, false, tool, arguments, m);
            var empty := ReadStep(map[], ttl, false, tool, arguments, m.(lookupReachable := true));
            && (failed.1.Ok? <==> empty.1.Ok?)
            && (failed.1.Ok? ==> failed.1.value.evidence == empty.1.value.evidence == m.loaded.value)
            && (failed.1.Err? ==> failed.1 == empty.1 && failed.0 == entries)
            && (forall key | key in empty.0 :: key in failed.0 && failed.0[key] == empty.0[key])
  {
  }

  /** The calls of a history that go through the cache. */
  function Cacheable(calls: seq<Read>): seq<Read> {
    if calls == [] then []
    else
      var last := calls[|calls| - 1];
      Cacheable(calls[..|calls| - 1]) + if last.bypass then [] else [last]
  }

  /** The bypass gateway used for re-verification is invisible: however its reads are interleaved with cached
      ones, cache and loads are those of the cached reads alone, and it answers what the delegate says now. */
  lemma {:induction false} BypassReadsAreInvisible(h: History, ttl: int, calls: seq<Read>, read: Read)
    requires read.bypass
    ensures PerformAll(h, ttl, calls) == PerformAll(h, ttl, Cacheable(calls))
    ensures ReadStep(PerformAll(h, ttl, calls).entries, ttl, true, read.tool, read.arguments, read.moment)
         == (PerformAll(h, ttl, Cacheable(calls)).entries, Loaded(read.moment, Bypass))
  {
    if calls != [] {
      var n := |calls| - 1;
      BypassReadsAreInvisible(h, ttl, calls[..n], read);
      if calls[n].bypass {
        assert Cacheable(calls) == Cacheable(calls[..n]);
      } else {
        var kept := Cacheable(calls[..n]);
        assert (kept + [calls[n]])[..|kept|] == kept;
      }
    }
  }

  /** So outside the tool policy agreement fails: an argument the key ignores shares the other call's entry. */
  lemma UnlistedArgumentsShareAKey()
    ensures var plain: Arguments := map["sku" := JText("A-1")];
            var extra: Arguments := map["sku" := JText("A-1"), "site" := JText("B")];
            plain != extra && KeyOf(InventorySnapshot, plain) == KeyOf(InventorySnapshot, extra)
  {
    var plain: Arguments := map["sku" := JText("A-1")];
    assert "site" !in plain;
  }

  // ---- When reads hit -------------------------------------------------------------------------------------------

  /** The value is evidence of the kind the call asks for. */
  predicate Answers(tool: ReadTool, arguments: Arguments, value: EvidencePayload) {
    match tool
    case InventorySnapshot => value.InventoryPayload?
    case EquipmentStatus => value.EquipmentPayload?
    case TaskStatus => value.TaskPayload?
    case KnowledgeSearch => value.KnowledgePayload?
    case PolicyConstraints =>
      "action" in arguments
      && match value
         case ReplenishmentPolicy(_) => arguments["action"] == JText("replenish_inventory")
         case MaintenancePolicy(_) => arguments["action"] == JText("repair_equipment")
         case TaskRecoveryPolicy(_) => arguments["action"] == JText("recover_task")
         case _ => false
  }

  /** The cache can be reached and holds something that has not expired. */
  predicate Finds(entries: Entries, key: CacheKey, m: Moment) {
    m.lookupReachable && key in entries && m.lookupAt < entries[key].expiresAt
  }

  /** A read is answered from the cache, at no change, exactly if it finds evidence of the kind the call asks for.
      Otherwise the delegate answers, and what it says is cached if that is possible. The reported status is that of
      the lookup alone, so a find of another kind is reported as a hit although the delegate answered. */
  lemma ReadsHitExactly(entries: Entries, ttl: int, tool: ReadTool, arguments: Arguments, m: Moment)
    requires KeyOf(tool, arguments).Some?
    ensures var key := KeyOf(tool, arguments).value;
            var status := if Finds(entries, key, m) then Hit else if m.lookupReachable then Miss else UnavailableCache;
            ReadStep(entries, ttl, false, tool, arguments, m)
            == if Finds(entries, key, m) && Answers(tool, arguments, entries[key].value)
            then (entries, Ok(ReadToolResult(entries[key].value, Hit)))
            else if m.loaded.None? then (entries, Err(DelegateFailed))
              else (if 0 < ttl && m.setReachable then entries[key := CacheEntry(m.loaded.value, m.setAt + ttl)] else entries,
                    Ok(ReadToolResult(m.loaded.value, status)))
  {
  }

  predicate TextUnder(arguments: Arguments, key: string) {
    key in arguments && arguments[key].JText?
  }

  /** The arguments name the object the tool reads; a search is its own object. */
  predicate NamesAnObject(tool: ReadTool, arguments: Arguments) {
    match tool
    case InventorySnapshot => TextUnder(arguments, "sku")
    case EquipmentStatus => TextUnder(arguments, "equipment_id")
    case TaskStatus => TextUnder(arguments, "task_id")
    case KnowledgeSearch => true
    case PolicyConstraints =>
      && "action" in arguments
      && ((arguments["action"] == JText("replenish_inventory") && TextUnder(arguments, "sku"))
          || (arguments["action"] == JText("repair_equipment") && TextUnder(arguments, "equipment_id"))
          || (arguments["action"] == JText("recover_task") && TextUnder(arguments, "task_id")))
  }

  /** Only calls without an object are refused, and only when the cache is to be used. */
  lemma ReadsAreRefusedExactly(entries: Entries, ttl: int, bypass: bool, tool: ReadTool, arguments: Arguments, m: Moment)
    ensures ReadStep(entries, ttl, bypass, tool, arguments, m).1 == Err(InvalidAgentToolArguments)
       <==> !bypass && !NamesAnObject(tool, arguments)
    ensures bypass ==> (ReadStep(entries, ttl, bypass, tool, arguments, m)
                        == (entries, if m.loaded.Some? then Ok(ReadToolResult(m.loaded.value, Bypass)) else Err(DelegateFailed)))
  {
  }

  /** The reads of this call, if any, reach the cache before `until`. */
  predicate ReachedInTime(calls: seq<Read>, key: CacheKey, until: Instant) {
    forall r | r in calls && !r.bypass && KeyOf(r.tool, r.arguments) == Some(key) ::
      r.moment.lookupReachable && r.moment.lookupAt < until
  }

  /** Evidence once cached answers every read of its call until it expires, whatever else is read in between: the
      delegate is not asked again. */
  lemma {:induction false} CachedEvidenceLasts(h: History, ttl: int, tool: ReadTool, arguments: Arguments, entry: CacheEntry,
                                               calls: seq<Read>, m: Moment)
    requires Allowed(tool, arguments) && (forall r | r in calls && !r.bypass :: Allowed(r.tool, r.arguments))
    requires KeyOf(tool, arguments).Some? && Answers(tool, arguments, entry.value)
    requires KeyOf(tool, arguments).value in h.entries && h.entries[KeyOf(tool, arguments).value] == entry
    requires ReachedInTime(calls, KeyOf(tool, arguments).value, entry.expiresAt)
    requires m.lookupReachable && m.lookupAt < entry.expiresAt
    ensures var later := PerformAll(h, ttl, calls).entries;
            && KeyOf(tool, arguments).value in later && later[KeyOf(tool, arguments).value] == entry
            && ReadStep(later, ttl, false, tool, arguments, m) == (later, Ok(ReadToolResult(entry.value, Hit)))
  {
    if calls != [] {
      var n := |calls| - 1;
      CachedEvidenceLasts(h, ttl, tool, arguments, entry, calls[..n], m);
      assert calls[n] in calls;
      CachedEvidenceLastsOneRead(PerformAll(h, ttl, calls[..n]), ttl, tool, arguments, entry, calls[n]);
    }
    ReadsHitExactly(PerformAll(h, ttl, calls).entries, ttl, tool, arguments, m);
  }

  lemma CachedEvidenceLastsOneRead(h: History, ttl: int, tool: ReadTool, arguments: Arguments, entry: CacheEntry, read: Read)
    requires Allowed(tool, arguments) && (!read.bypass ==> Allowed(read.tool, read.arguments))
    requires KeyOf(tool, arguments).Some? && Answers(tool, arguments, entry.value)
    requires KeyOf(tool, arguments).value in h.entries && h.entries[KeyOf(tool, arguments).value] == entry
    requires ReachedInTime([read], KeyOf(tool, arguments).value, entry.expiresAt)
    ensures var later := Perform(h, ttl, read).entries;
            KeyOf(tool, arguments).value in later && later[KeyOf(tool, arguments).value] == entry
  {
    if !read.bypass && KeyOf(read.tool, read.arguments).Some? {
      AllowedKeysAreInjective(tool, arguments, read.tool, read.arguments);
      assert read in [read];
      ReadsHitExactly(h.entries, ttl, read.tool, read.arguments, read.moment);
    }
  }
}
