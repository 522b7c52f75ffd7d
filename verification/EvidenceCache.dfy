/** A best-effort key-value cache: every failure is a miss, every entry expires. */
module EvidenceCaches {
  import opened AgentDomain
  import opened Digests
  import opened Scenarios
  import opened Wrappers

  /** An object identifier, or for knowledge searches the canonical text of the whole query. */
  datatype ObjectRef = Named(name: string) | CanonicalText(arguments: Arguments)

  /** The key carries the digest of kind and object, so it is equal only for equal kind and object. */
  datatype CacheKey = CacheKey(kind: string, digestOf: (string, ObjectRef))

  function EvidenceCacheKey(kind: string, object_: ObjectRef): CacheKey {
    CacheKey(kind, (kind, object_))
  }

  datatype CacheStatus = Hit | Miss | Bypass | UnavailableCache

  datatype CacheLookup = CacheLookup(status: CacheStatus, value: Option<EvidencePayload>)

  datatype CacheEntry = CacheEntry(value: EvidencePayload, expiresAt: Instant)

  type Entries = map<CacheKey, CacheEntry>

  function LookupIn(entries: Entries, key: CacheKey, now: Instant, reachable: bool): CacheLookup {
    if !reachable then CacheLookup(UnavailableCache, None)
    else if key in entries && now < entries[key].expiresAt then CacheLookup(Hit, Some(entries[key].value))
    else CacheLookup(Miss, None)
  }

  function SetIn(entries: Entries, key: CacheKey, value: EvidencePayload, ttl: int, now: Instant, reachable: bool): Entries {
    if ttl <= 0 || !reachable then entries else entries[key := CacheEntry(value, now + ttl)]
  }

  class RedisEvidenceCache {
    var entries: Entries

    constructor ()
      ensures entries == map[]
    {
      entries := map[];
    }

    method Lookup(key: CacheKey, now: Instant, reachable: bool) returns (lookup: CacheLookup)
      ensures lookup == LookupIn(entries, key, now, reachable)
    {
      if !reachable {
        return CacheLookup(UnavailableCache, None);
      }
      if key !in entries || entries[key].expiresAt <= now {
        return CacheLookup(Miss, None);
      }
      return CacheLookup(Hit, Some(entries[key].value));
    }

    method Set(key: CacheKey, value: EvidencePayload, ttl: int, now: Instant, reachable: bool)
      modifies this
      ensures entries == SetIn(old(entries), key, value, ttl, now, reachable)
    {
      if 0 < ttl && reachable {
        entries := entries[key := CacheEntry(value, now + ttl)];
      }
    }
  }
}
