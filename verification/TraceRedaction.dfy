/** Redaction of trace payloads: bounded in depth, width and text, and without forbidden keys. */
module TraceRedaction {
  import opened Wrappers

  /** Anything a payload may hold. An object lists its entries in order; a value of any other kind,
      such as bytes, carries the text `str` makes of it. */
  datatype Value =
    | Null
    | Bool(flag: bool)
    | Number(number: real)
    | Text(text: string)
    | Object(entries: seq<(string, Value)>)
    | List(items: seq<Value>)
    | Opaque(text: string)

  const MAX_DEPTH: nat := 4
  const MAX_ITEMS: nat := 50
  const MAX_TEXT: nat := 1000
  const MAX_KEY: nat := 128

  const FORBIDDEN_KEYS: set<string> := {
    "authorization", "api_key", "apikey", "access_token", "refresh_token", "password", "secret", "prompt",
    "full_prompt", "prompt_text", "system_prompt", "messages", "reasoning_content", "chain_of_thought",
    "stack_trace", "stacktrace", "traceback", "raw_body", "raw_tool_body", "raw_response"}

  function Cut(text: string, limit: nat): (r: string)
    ensures IsCut(r, text, limit)
  {
    if |text| <= limit then text else text[..limit]
  }

  /** The longest beginning of a text that fits. */
  predicate IsCut(cut: string, text: string, limit: nat) {
    cut <= text && |cut| <= limit && (|cut| < limit ==> cut == text)
  }

  predicate IsSpace(c: char) {
    c == ' ' || '\t' <= c <= '\r' || '\U{1c}' <= c <= '\U{1f}'
  }

  function StripLeft(text: string): string {
    if text != "" && IsSpace(text[0]) then StripLeft(text[1..]) else text
  }

  function StripRight(text: string): string {
    if text != "" && IsSpace(text[|text| - 1]) then StripRight(text[..|text| - 1]) else text
  }

  function FoldChar(c: char): char {
    if 'A' <= c <= 'Z' then c + ('a' - 'A') else if c == '-' then '_' else c
  }

  /** Strip, lower and unify dashes; ASCII only. */
  function Normalize(key: string): string {
    var stripped := StripRight(StripLeft(key));
    seq(|stripped|, i requires 0 <= i < |stripped| => FoldChar(stripped[i]))
  }

  predicate Forbidden(key: string) {
    Normalize(key) in FORBIDDEN_KEYS
  }

  /** Assigning a dictionary key: a new key goes last, a known one keeps its place. */
  function Put(entries: seq<(string, Value)>, key: string, value: Value): (r: seq<(string, Value)>)
    ensures |entries| <= |r| <= |entries| + 1
    ensures forall i | 0 <= i < |r| :: r[i] == (key, value) || r[i] in entries
  {
    if entries == [] then [(key, value)]
    else if entries[0].0 == key then [(key, value)] + entries[1..]
    else [entries[0]] + Put(entries[1..], key, value)
  }

  function Sanitize(value: Value, depth: nat): Value
    decreases value, 0
  {
    if depth >= MAX_DEPTH then Text("[truncated]")
    else match value
         case Text(text) => Text(Cut(text, MAX_TEXT))
         case Opaque(text) => Text(Cut(text, MAX_TEXT))
         case Object(entries) => Object(SanitizeEntries(value, if |entries| <= MAX_ITEMS then |entries| else MAX_ITEMS, depth))
         case List(items) =>
           var n := if |items| <= MAX_ITEMS then |items| else MAX_ITEMS;
           List(seq(n, i requires 0 <= i < n => Sanitize(items[i], depth + 1)))
         case _ => value
  }

  /** The result dictionary after the first `n` entries. */
  function SanitizeEntries(value: Value, n: nat, depth: nat): seq<(string, Value)>
    requires value.Object? && n <= |value.entries| && depth < MAX_DEPTH
    decreases value, 0, n
  {
    if n == 0 then []
    else
      var done := SanitizeEntries(value, n - 1, depth);
      var key := Cut(value.entries[n - 1].0, MAX_KEY);
      if Forbidden(key) then done else Put(done, key, Sanitize(value.entries[n - 1].1, depth + 1))
  }

  method SanitizeValue(value: Value, depth: nat) returns (safe: Value)
    ensures safe == Sanitize(value, depth)
    decreases value
  {
    if depth >= MAX_DEPTH {
      return Text("[truncated]");
    }
    match value {
      case Text(text) => return Text(Cut(text, MAX_TEXT));
      case Opaque(text) => return Text(Cut(text, MAX_TEXT));
      case Object(entries) =>
        var result := [];
        for n := 0 to if |entries| <= MAX_ITEMS then |entries| else MAX_ITEMS
          invariant result == SanitizeEntries(value, n, depth)
        {
          var key := Cut(entries[n].0, MAX_KEY);
          if !Forbidden(key) {
            var item := SanitizeValue(entries[n].1, depth + 1);
            result := Put(result, key, item);
          }
        }
        return Object(result);
      case List(items) =>
        var result := [];
        for n := 0 to if |items| <= MAX_ITEMS then |items| else MAX_ITEMS
          invariant |result| == n && forall i | 0 <= i < n :: result[i] == Sanitize(items[i], depth + 1)
        {
          var item := SanitizeValue(items[n], depth + 1);
          result := result + [item];
        }
        return List(result);
      case _ => return value;
    }
  }

  /** Redact a payload, which is an object and stays one. */
  method RedactTracePayload(payload: Value) returns (safe: Value)
    requires payload.Object?
    ensures safe == Sanitize(payload, 0) && safe.Object? && Redacted(safe, MAX_DEPTH)
  {
    safe := SanitizeValue(payload, 0);
    SanitizingRedacts(payload, 0);
  }

  // ---- What redaction guarantees ---------------------------------------------------------------------

  predicate DistinctKeys(entries: seq<(string, Value)>) {
    forall i, j | 0 <= i < j < |entries| :: entries[i].0 != entries[j].0
  }

  /** Safe with `room` levels of nesting left: short texts, few entries, distinct allowed keys. */
  predicate Redacted(value: Value, room: nat)
    decreases value
  {
    if room == 0 then value == Text("[truncated]")
    else match value
         case Text(text) => |text| <= MAX_TEXT
         case Opaque(_) => false
         case Object(entries) =>
           && |entries| <= MAX_ITEMS && DistinctKeys(entries)
           && forall i | 0 <= i < |entries| ::
                |entries[i].0| <= MAX_KEY && !Forbidden(entries[i].0) && Redacted(entries[i].1, room - 1)
         case List(items) => |items| <= MAX_ITEMS && forall i | 0 <= i < |items| :: Redacted(items[i], room - 1)
         case _ => true
  }

  predicate HasEntry(entries: seq<(string, Value)>, key: string) {
    exists p :: 0 <= p < |entries| && entries[p].0 == key
  }

  /** Assigning a key replaces its value in place, or appends it. */
  lemma {:induction false} PutExactly(entries: seq<(string, Value)>, key: string, value: Value)
    requires DistinctKeys(entries)
    ensures !HasEntry(entries, key) ==> Put(entries, key, value) == entries + [(key, value)]
    ensures forall p | 0 <= p < |entries| && entries[p].0 == key :: Put(entries, key, value) == entries[p := (key, value)]
  {
    if entries != [] && entries[0].0 != key {
      PutExactly(entries[1..], key, value);
      if !HasEntry(entries, key) {
        assert forall p | 0 <= p < |entries[1..]| :: entries[1..][p] == entries[p + 1];
      }
      forall p | 0 <= p < |entries| && entries[p].0 == key ensures Put(entries, key, value) == entries[p := (key, value)] {
        assert entries[1..][p - 1].0 == key;
      }
    }
  }

  lemma PutKeepsKeysDistinct(entries: seq<(string, Value)>, key: string, value: Value)
    requires DistinctKeys(entries)
    ensures DistinctKeys(Put(entries, key, value))
  {
    PutExactly(entries, key, value);
    if HasEntry(entries, key) {
      var p :| 0 <= p < |entries| && entries[p].0 == key;
    }
  }

  lemma {:induction false} EntriesAreRedacted(value: Value, n: nat, depth: nat)
    requires value.Object? && n <= |value.entries| && depth < MAX_DEPTH
    requires forall i | 0 <= i < n :: Redacted(Sanitize(value.entries[i].1, depth + 1), MAX_DEPTH - depth - 1)
    ensures var r := SanitizeEntries(value, n, depth);
            && |r| <= n && DistinctKeys(r)
            && forall i | 0 <= i < |r| ::
                 |r[i].0| <= MAX_KEY && !Forbidden(r[i].0) && Redacted(r[i].1, MAX_DEPTH - depth - 1)
    decreases n
  {
    if n > 0 {
      EntriesAreRedacted(value, n - 1, depth);
      var done := SanitizeEntries(value, n - 1, depth);
      var key := Cut(value.entries[n - 1].0, MAX_KEY);
      if !Forbidden(key) {
        PutKeepsKeysDistinct(done, key, Sanitize(value.entries[n - 1].1, depth + 1));
      }
    }
  }

  /** Whatever goes in, what comes out is redacted, also when distinct keys collide after truncation. */
  lemma {:induction false} SanitizingRedacts(value: Value, depth: nat)
    requires depth <= MAX_DEPTH
    ensures Redacted(Sanitize(value, depth), MAX_DEPTH - depth)
    decreases value
  {
    if depth < MAX_DEPTH {
      match value {
        case Object(entries) =>
          var n := if |entries| <= MAX_ITEMS then |entries| else MAX_ITEMS;
          forall i | 0 <= i < n ensures Redacted(Sanitize(entries[i].1, depth + 1), MAX_DEPTH - depth - 1) {
            SanitizingRedacts(entries[i].1, depth + 1);
          }
          EntriesAreRedacted(value, n, depth);
        case List(items) =>
          forall i | 0 <= i < |items| ensures Redacted(Sanitize(items[i], depth + 1), MAX_DEPTH - depth - 1) {
            SanitizingRedacts(items[i], depth + 1);
          }
        case _ =>
      }
    }
  }

  lemma PutAppendsNext(entries: seq<(string, Value)>, n: nat)
    requires DistinctKeys(entries) && n < |entries|
    ensures Put(entries[..n], entries[n].0, entries[n].1) == entries[..n + 1]
  {
    PutExactly(entries[..n], entries[n].0, entries[n].1);
    assert entries[..n + 1] == entries[..n] + [(entries[n].0, entries[n].1)];
  }

  lemma {:induction false} SafeEntriesStay(value: Value, n: nat, depth: nat)
    requires value.Object? && n <= |value.entries| && depth < MAX_DEPTH && DistinctKeys(value.entries)
    requires forall i | 0 <= i < n ::
               && |value.entries[i].0| <= MAX_KEY && !Forbidden(value.entries[i].0)
               && Sanitize(value.entries[i].1, depth + 1) == value.entries[i].1
    ensures SanitizeEntries(value, n, depth) == value.entries[..n]
    decreases n
  {
    if n > 0 {
      SafeEntriesStay(value, n - 1, depth);
      PutAppendsNext(value.entries, n - 1);
    }
  }

  lemma {:induction false} RedactedValuesStay(value: Value, depth: nat)
    requires depth <= MAX_DEPTH && Redacted(value, MAX_DEPTH - depth)
    ensures Sanitize(value, depth) == value
    decreases value
  {
    if depth < MAX_DEPTH {
      match value {
        case Object(entries) =>
          forall i | 0 <= i < |entries| ensures Sanitize(entries[i].1, depth + 1) == entries[i].1 {
            RedactedValuesStay(entries[i].1, depth + 1);
          }
          SafeEntriesStay(value, |entries|, depth);
        case List(items) =>
          forall i | 0 <= i < |items| ensures Sanitize(items[i], depth + 1) == items[i] {
            RedactedValuesStay(items[i], depth + 1);
          }
        case _ =>
      }
    }
  }

  /** Redaction leaves a value alone exactly when the value is redacted already. */
  lemma FixpointsExactly(value: Value, depth: nat)
    requires depth <= MAX_DEPTH
    ensures Sanitize(value, depth) == value <==> Redacted(value, MAX_DEPTH - depth)
  {
    SanitizingRedacts(value, depth);
    if Redacted(value, MAX_DEPTH - depth) {
      RedactedValuesStay(value, depth);
    }
  }

  lemma SanitizingIsIdempotent(value: Value, depth: nat)
    ensures Sanitize(Sanitize(value, depth), depth) == Sanitize(value, depth)
  {
    if depth <= MAX_DEPTH {
      SanitizingRedacts(value, depth);
      RedactedValuesStay(Sanitize(value, depth), depth);
    }
  }

  // ---- In plain words: nesting and forbidden keys at any level ------------------------------------------

  /** A path of indices into nested containers leads somewhere. */
  predicate Reaches(value: Value, path: seq<nat>)
    decreases path
  {
    path == [] || match value
                  case Object(entries) => path[0] < |entries| && Reaches(entries[path[0]].1, path[1..])
                  case List(items) => path[0] < |items| && Reaches(items[path[0]], path[1..])
                  case _ => false
  }

  function At(value: Value, path: seq<nat>): Value
    requires Reaches(value, path)
    decreases path
  {
    if path == [] then value
    else match value
         case Object(entries) => At(entries[path[0]].1, path[1..])
         case List(items) => At(items[path[0]], path[1..])
  }

  /** At the end of every path into a redacted payload: at most four levels down, no forbidden key,
      at most fifty entries, no long text. */
  lemma {:induction false} EveryLevelIsSafe(payload: Value, room: nat, path: seq<nat>)
    requires Redacted(payload, room) && Reaches(payload, path)
    ensures |path| <= room
    ensures var here := At(payload, path);
            && Redacted(here, room - |path|)
            && (here.Object? ==> |path| < room && |here.entries| <= MAX_ITEMS
                                 && forall i | 0 <= i < |here.entries| :: !Forbidden(here.entries[i].0))
            && (here.List? ==> |path| < room && |here.items| <= MAX_ITEMS)
            && (here.Text? ==> |here.text| <= MAX_TEXT)
    decreases path
  {
    if path != [] {
      match payload {
        case Object(entries) => EveryLevelIsSafe(entries[path[0]].1, room - 1, path[1..]);
        case List(items) => EveryLevelIsSafe(items[path[0]], room - 1, path[1..]);
      }
    }
  }
}
