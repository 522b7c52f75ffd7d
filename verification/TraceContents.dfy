/** What redaction keeps: everything safe, where it was, as far as it fits. */
module TraceContents {
  import opened TraceRedaction
  import opened Wrappers

  // ---- Which keys are forbidden -------------------------------------------------------------------------------------

  predicate AllSpace(text: string) {
    forall c | c in text :: IsSpace(c)
  }

  /** A letter stands for itself in lower case, and a dash for an underscore. */
  predicate StandsFor(c: char, d: char) {
    if 'A' <= c <= 'Z' then d as int == c as int + 32
    else if c == '-' then d == '_'
    else d == c
  }

  predicate Spells(text: string, name: string) {
    |text| == |name| && forall i | 0 <= i < |text| :: StandsFor(text[i], name[i])
  }

  /** Spaces around a spelling of the name. */
  predicate Hides(key: string, a: nat, b: nat, name: string) {
    a <= b <= |key| && AllSpace(key[..a]) && AllSpace(key[b..]) && Spells(key[a..b], name)
  }

  lemma {:induction false} StrippedLeft(text: string)
    ensures exists a: nat :: a <= |text| && StripLeft(text) == text[a..] && AllSpace(text[..a])
    ensures StripLeft(text) != "" ==> !IsSpace(StripLeft(text)[0])
  {
    if text != "" && IsSpace(text[0]) {
      StrippedLeft(text[1..]);
      var a: nat :| a <= |text[1..]| && StripLeft(text[1..]) == text[1..][a..] && AllSpace(text[1..][..a]);
      assert text[..a + 1] == [text[0]] + text[1..][..a];
      assert StripLeft(text) == text[a + 1..];
    } else {
      assert text[0..] == text && AllSpace(text[..0]);
    }
  }

  lemma {:induction false} StrippedRight(text: string)
    ensures exists b: nat :: b <= |text| && StripRight(text) == text[..b] && AllSpace(text[b..])
  {
    var n := |text| - 1;
    if text != "" && IsSpace(text[n]) {
      StrippedRight(text[..n]);
      var b: nat :| b <= n && StripRight(text[..n]) == text[..n][..b] && AllSpace(text[..n][b..]);
      assert text[b..] == text[..n][b..] + [text[n]];
      assert StripRight(text) == text[..b];
    } else {
      assert text[..|text|] == text && AllSpace(text[|text|..]);
    }
  }

  lemma {:induction false} SpacesAreStrippedLeft(spaces: string, text: string)
    requires AllSpace(spaces) && text != "" && !IsSpace(text[0])
    ensures StripLeft(spaces + text) == text
  {
    if spaces == "" {
      assert spaces + text == text;
    } else {
      assert (spaces + text)[1..] == spaces[1..] + text;
      SpacesAreStrippedLeft(spaces[1..], text);
    }
  }

  lemma {:induction false} SpacesAreStrippedRight(text: string, spaces: string)
    requires AllSpace(spaces) && text != "" && !IsSpace(text[|text| - 1])
    ensures StripRight(text + spaces) == text
  {
    if spaces == "" {
      assert text + spaces == text;
    } else {
      var n := |spaces| - 1;
      assert (text + spaces)[..|text + spaces| - 1] == text + spaces[..n];
      SpacesAreStrippedRight(text, spaces[..n]);
    }
  }

  lemma FoldingStandsFor(c: char, d: char)
    ensures FoldChar(c) == d <==> StandsFor(c, d)
  {
  }

  /** No forbidden name begins or ends with a space. */
  lemma NamesAreTight(name: string)
    requires name in FORBIDDEN_KEYS
    ensures name != "" && !IsSpace(name[0]) && !IsSpace(name[|name| - 1])
  {
  }

  lemma FoldedIsSpelled(text: string, name: string)
    ensures seq(|text|, i requires 0 <= i < |text| => FoldChar(text[i])) == name <==> Spells(text, name)
  {
    var folded := seq(|text|, i requires 0 <= i < |text| => FoldChar(text[i]));
    forall i | 0 <= i < |text| && i < |name| ensures folded[i] == name[i] <==> StandsFor(text[i], name[i]) {
      FoldingStandsFor(text[i], name[i]);
    }
    if Spells(text, name) {
      assert forall i | 0 <= i < |text| :: folded[i] == name[i];
    }
  }

  /** A key is forbidden exactly if it is one of the names, in any case, with dashes or underscores, and with any
      spaces around it. */
  lemma ForbiddenExactly(key: string)
    ensures Forbidden(key) <==> exists a: nat, b: nat, name :: name in FORBIDDEN_KEYS && Hides(key, a, b, name)
  {
    var a, b := NormalizedIsHidden(key);
    forall a: nat, b: nat, name | name in FORBIDDEN_KEYS && Hides(key, a, b, name) ensures Forbidden(key) {
      NamesAreTight(name);
      HiddenIsNormalized(key, a, b, name);
    }
  }

  /** Every key hides what normalizing makes of it. */
  lemma NormalizedIsHidden(key: string) returns (a: nat, b: nat)
    ensures Hides(key, a, b, Normalize(key))
  {
    StrippedLeft(key);
    a :| a <= |key| && StripLeft(key) == key[a..] && AllSpace(key[..a]);
    StrippedRight(key[a..]);
    var c: nat :| c <= |key[a..]| && StripRight(key[a..]) == key[a..][..c] && AllSpace(key[a..][c..]);
    b := a + c;
    assert key[a..][..c] == key[a..b] && key[a..][c..] == key[b..];
    FoldedIsSpelled(key[a..b], Normalize(key));
  }

  lemma HiddenIsNormalized(key: string, a: nat, b: nat, name: string)
    requires Hides(key, a, b, name) && name != "" && !IsSpace(name[0]) && !IsSpace(name[|name| - 1])
    ensures Normalize(key) == name
  {
    var spelled := key[a..b];
    assert !IsSpace(spelled[0]) && !IsSpace(spelled[|spelled| - 1]);
    assert key == key[..a] + (spelled + key[b..]);
    SpacesAreStrippedLeft(key[..a], spelled + key[b..]);
    SpacesAreStrippedRight(spelled, key[b..]);
    FoldedIsSpelled(spelled, name);
  }

  // ---- Nothing safe is lost -----------------------------------------------------------------------------------------

  /** Entry `i` is among those looked at, its key is allowed, and `key` is as much of it as fits. */
  predicate Kept(entries: seq<(string, Value)>, i: int, key: string) {
    0 <= i < |entries| && i < 50 && IsCut(key, entries[i].0, 128) && !Forbidden(key)
  }

  predicate FirstKept(entries: seq<(string, Value)>, i: int, key: string) {
    Kept(entries, i, key) && forall j | 0 <= j < i :: !Kept(entries, j, key)
  }

  /** The last of the first `n` entries with this key. */
  predicate LastKept(entries: seq<(string, Value)>, n: int, i: int, key: string) {
    i < n && Kept(entries, i, key) && forall j | i < j < n :: !Kept(entries, j, key)
  }

  predicate KeptAmong(entries: seq<(string, Value)>, n: int, key: string) {
    exists i :: 0 <= i < n && Kept(entries, i, key)
  }

  /** `kept` holds every allowed key of the first `n` entries once, in order of first appearance, each with what its
      last entry becomes. */
  ghost predicate KeepsAll(entries: seq<(string, Value)>, n: nat, depth: nat, kept: seq<(string, Value)>) {
    && DistinctKeys(kept)
    && (forall key :: HasEntry(kept, key) <==> KeptAmong(entries, n, key))
    && (forall p, i | 0 <= p < |kept| && LastKept(entries, n, i, kept[p].0) :: kept[p].1 == Sanitize(entries[i].1, depth + 1))
    && (forall p, q, i, j | 0 <= p < q < |kept| && FirstKept(entries, i, kept[p].0) && FirstKept(entries, j, kept[q].0) :: i < j)
  }

  lemma CutsAreUnique(a: string, b: string, text: string, limit: nat)
    requires IsCut(a, text, limit) && IsCut(b, text, limit)
    ensures a == b
  {
  }

  lemma ForbiddenEntriesChangeNothing(entries: seq<(string, Value)>, n: nat, depth: nat, kept: seq<(string, Value)>, key: string)
    requires 0 < n <= |entries| && KeepsAll(entries, n - 1, depth, kept)
    requires IsCut(key, entries[n - 1].0, MAX_KEY) && Forbidden(key)
    ensures KeepsAll(entries, n, depth, kept)
  {
    forall k ensures KeptAmong(entries, n, k) <==> KeptAmong(entries, n - 1, k) {
      ForbiddenIsNotKept(entries, n - 1, key, k);
    }
    forall p, i | 0 <= p < |kept| && LastKept(entries, n, i, kept[p].0) ensures kept[p].1 == Sanitize(entries[i].1, depth + 1) {
      ForbiddenIsNotKept(entries, n - 1, key, kept[p].0);
      assert LastKept(entries, n - 1, i, kept[p].0);
    }
  }

  lemma ForbiddenIsNotKept(entries: seq<(string, Value)>, n: nat, key: string, other: string)
    requires n < |entries| && IsCut(key, entries[n].0, MAX_KEY) && Forbidden(key)
    ensures !Kept(entries, n, other)
  {
    if Kept(entries, n, other) {
      CutsAreUnique(key, other, entries[n].0, MAX_KEY);
    }
  }

  lemma NewKeysAreAppended(entries: seq<(string, Value)>, n: nat, depth: nat, kept: seq<(string, Value)>, key: string)
    requires 0 < n <= |entries| && KeepsAll(entries, n - 1, depth, kept)
    requires Kept(entries, n - 1, key) && !HasEntry(kept, key)
    ensures KeepsAll(entries, n, depth, kept + [(key, Sanitize(entries[n - 1].1, depth + 1))])
  {
    var longer := kept + [(key, Sanitize(entries[n - 1].1, depth + 1))];
    EntriesGrow(entries, n, kept, longer, key);
    forall p, i | 0 <= p < |longer| && LastKept(entries, n, i, longer[p].0) ensures longer[p].1 == Sanitize(entries[i].1, depth + 1) {
      OthersEndEarlier(entries, n, i, key, longer[p].0);
    }
    forall p, q, i, j | 0 <= p < q < |longer| && FirstKept(entries, i, longer[p].0) && FirstKept(entries, j, longer[q].0) ensures i < j {
      if q == |kept| {
        assert HasEntry(kept, longer[p].0) && KeptAmong(entries, n - 1, longer[p].0);
        var k :| 0 <= k < n - 1 && Kept(entries, k, longer[p].0);
        assert i <= k;
        assert !Kept(entries, j, key) || n - 1 <= j;
      }
    }
  }

  lemma KnownKeysAreReplaced(entries: seq<(string, Value)>, n: nat, depth: nat, kept: seq<(string, Value)>, key: string, at: nat)
    requires 0 < n <= |entries| && KeepsAll(entries, n - 1, depth, kept)
    requires Kept(entries, n - 1, key) && at < |kept| && kept[at].0 == key
    ensures KeepsAll(entries, n, depth, kept[at := (key, Sanitize(entries[n - 1].1, depth + 1))])
  {
    var changed := kept[at := (key, Sanitize(entries[n - 1].1, depth + 1))];
    assert forall p | 0 <= p < |kept| :: changed[p].0 == kept[p].0;
    EntriesGrow(entries, n, kept, changed, key);
    forall p, i | 0 <= p < |changed| && LastKept(entries, n, i, changed[p].0) ensures changed[p].1 == Sanitize(entries[i].1, depth + 1) {
      OthersEndEarlier(entries, n, i, key, changed[p].0);
    }
  }

  /** With one more entry the keys kept are the earlier ones and its own. */
  lemma EntriesGrow(entries: seq<(string, Value)>, n: nat, kept: seq<(string, Value)>, kept': seq<(string, Value)>, key: string)
    requires 0 < n <= |entries| && Kept(entries, n - 1, key)
    requires forall k :: HasEntry(kept, k) <==> KeptAmong(entries, n - 1, k)
    requires |kept| <= |kept'| <= |kept| + 1 && (forall p | 0 <= p < |kept| :: kept'[p].0 == kept[p].0)
    requires if |kept'| == |kept| then HasEntry(kept, key) else kept'[|kept|].0 == key
    ensures forall k :: HasEntry(kept', k) <==> KeptAmong(entries, n, k)
  {
    forall k ensures HasEntry(kept', k) <==> KeptAmong(entries, n, k) {
      if HasEntry(kept', k) {
        var p :| 0 <= p < |kept'| && kept'[p].0 == k;
        if p < |kept| {
          assert kept[p].0 == k && HasEntry(kept, k) && KeptAmong(entries, n - 1, k);
          var i :| 0 <= i < n - 1 && Kept(entries, i, k);
        }
      }
      if i :| 0 <= i < n && Kept(entries, i, k) {
        if i == n - 1 {
          CutsAreUnique(k, key, entries[i].0, MAX_KEY);
          if |kept'| == |kept| {
            var p :| 0 <= p < |kept| && kept[p].0 == key;
            assert kept'[p].0 == k;
          }
        } else {
          assert KeptAmong(entries, n - 1, k) && HasEntry(kept, k);
          var p :| 0 <= p < |kept| && kept[p].0 == k;
          assert kept'[p].0 == k;
        }
      }
    }
  }

  lemma OthersEndEarlier(entries: seq<(string, Value)>, n: nat, i: int, key: string, other: string)
    requires 0 < n <= |entries| && Kept(entries, n - 1, key) && LastKept(entries, n, i, other)
    ensures if other == key then i == n - 1 else LastKept(entries, n - 1, i, other)
  {
    if other != key && i == n - 1 {
      CutsAreUnique(key, other, entries[i].0, MAX_KEY);
    }
  }

  lemma EntryIsKept(entries: seq<(string, Value)>, n: nat, depth: nat, kept: seq<(string, Value)>, key: string)
    requires 0 < n <= |entries| && KeepsAll(entries, n - 1, depth, kept) && Kept(entries, n - 1, key)
    ensures KeepsAll(entries, n, depth, Put(kept, key, Sanitize(entries[n - 1].1, depth + 1)))
  {
    PutExactly(kept, key, Sanitize(entries[n - 1].1, depth + 1));
    if HasEntry(kept, key) {
      var at: nat :| at < |kept| && kept[at].0 == key;
      KnownKeysAreReplaced(entries, n, depth, kept, key, at);
    } else {
      NewKeysAreAppended(entries, n, depth, kept, key);
    }
  }

  lemma {:induction false} EntriesAreKept(value: Value, n: nat, depth: nat)
    requires value.Object? && n <= |value.entries| && n <= MAX_ITEMS && depth < MAX_DEPTH
    ensures KeepsAll(value.entries, n, depth, SanitizeEntries(value, n, depth))
    decreases n
  {
    if n > 0 {
      EntriesAreKept(value, n - 1, depth);
      var key := Cut(value.entries[n - 1].0, MAX_KEY);
      if Forbidden(key) {
        ForbiddenEntriesChangeNothing(value.entries, n, depth, SanitizeEntries(value, n - 1, depth), key);
      } else {
        EntryIsKept(value.entries, n, depth, SanitizeEntries(value, n - 1, depth), key);
      }
    }
  }

  function FirstFifty<T>(items: seq<T>): seq<T> {
    if |items| <= 50 then items else items[..50]
  }

  /** Below four levels nothing is left of a value. Above, nothing safe is lost: an object keeps each allowed key once,
      in order, with what its last entry becomes; a list keeps its first fifty items in place; a text its longest
      beginning that fits; and everything else stays as it is. */
  lemma RedactionKeepsExactly(value: Value, depth: nat)
    ensures var safe := Sanitize(value, depth);
            if depth >= 4 then safe == Text("[truncated]")
            else match value
                 case Object(entries) => safe.Object? && KeepsAll(entries, |FirstFifty(entries)|, depth, safe.entries)
                 case List(items) =>
                   && safe.List? && |safe.items| == |FirstFifty(items)|
                   && forall i | 0 <= i < |safe.items| :: safe.items[i] == Sanitize(items[i], depth + 1)
                 case Text(text) => safe.Text? && IsCut(safe.text, text, 1000)
                 case Opaque(text) => safe.Text? && IsCut(safe.text, text, 1000)
                 case _ => safe == value
  {
    if value.Object? && depth < MAX_DEPTH {
      EntriesAreKept(value, |FirstFifty(value.entries)|, depth);
    }
  }
}
