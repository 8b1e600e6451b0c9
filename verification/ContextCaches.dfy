/** The bounded in-memory cache of compacted contexts, evicting least recently used entries. */
module ContextCaches {
  import opened Wrappers
  import opened MachineNumbers
  import opened Compaction

  const MAX_CACHE_ENTRIES := 256
  const MAX_CACHE_BYTES := 64 * 1024 * 1024

  datatype CacheError = InvalidCachePolicy | InvalidCacheEntry

  datatype CachedContext = CachedContext(value: CompactedContext, expiresAtMs: nat, bytes: nat, lastAccess: nat)

  type Entries = map<CacheKey, CachedContext>

  function Tick(clock: nat): nat { if clock < U64_MAX then clock + 1 else clock }

  ghost function SumBytes(entries: Entries): nat
    decreases |entries|
  {
    if entries == map[] then 0 else
    var key :| key in entries;
    assert |entries - {key}| < |entries| by { assert (entries - {key}).Keys == entries.Keys - {key}; }
    entries[key].bytes + SumBytes(entries - {key})
  }

  lemma {:induction false} SumWithout(entries: Entries, key: CacheKey)
    requires key in entries
    ensures SumBytes(entries) == entries[key].bytes + SumBytes(entries - {key})
    decreases |entries|
  {
    var picked :| picked in entries && SumBytes(entries) == entries[picked].bytes + SumBytes(entries - {picked});
    if picked != key {
      assert (entries - {picked}).Keys == entries.Keys - {picked};
      assert (entries - {key}).Keys == entries.Keys - {key};
      SumWithout(entries - {picked}, key);
      SumWithout(entries - {key}, picked);
      assert entries - {picked} - {key} == entries - {key} - {picked};
    }
  }

  lemma SumWith(entries: Entries, key: CacheKey, entry: CachedContext)
    ensures SumBytes(entries[key := entry]) == entry.bytes + SumBytes(entries - {key})
  {
    SumWithout(entries[key := entry], key);
    assert entries[key := entry] - {key} == entries - {key};
  }

  /** `part` holds some of the entries of `whole`, unchanged. */
  ghost predicate Within(part: Entries, whole: Entries) {
    forall k :: k in part ==> k in whole && part[k] == whole[k]
  }

  lemma {:induction false} PartIsSmaller(part: Entries, whole: Entries)
    requires Within(part, whole)
    ensures |part| <= |whole| && SumBytes(part) <= SumBytes(whole)
    decreases |part|
  {
    if part != map[] {
      var key :| key in part;
      assert (part - {key}).Keys == part.Keys - {key} && (whole - {key}).Keys == whole.Keys - {key};
      PartIsSmaller(part - {key}, whole - {key});
      SumWithout(part, key);
      SumWithout(whole, key);
    }
  }

  ghost predicate Fits(entries: Entries, maxEntries: nat, maxBytes: nat) {
    |entries| <= maxEntries && SumBytes(entries) <= maxBytes
  }

  /** Nothing left out of `part` was used after anything in it. */
  ghost predicate Recent(part: Entries, whole: Entries) {
    && Within(part, whole)
    && forall k, j :: k in part && j in whole && j !in part ==> whole[j].lastAccess <= whole[k].lastAccess
  }

  ghost predicate DistinctTimes(entries: Entries) {
    forall j, k :: j in entries && k in entries && j != k ==> entries[j].lastAccess != entries[k].lastAccess
  }

  /** `kept` is the longest most-recently-used run of `entries` that fits. */
  ghost predicate LongestRecentRun(entries: Entries, kept: Entries, maxEntries: nat, maxBytes: nat) {
    && Recent(kept, entries) && Fits(kept, maxEntries, maxBytes)
    && forall other :: Recent(other, entries) && Within(kept, other) && other != kept ==>
         !Fits(other, maxEntries, maxBytes)
  }

  /** Of two most-recently-used runs one contains the other. */
  lemma RecentRunsNest(a: Entries, b: Entries, entries: Entries)
    requires DistinctTimes(entries) && Recent(a, entries) && Recent(b, entries)
    ensures Within(a, b) || Within(b, a)
  {
    if !Within(a, b) {
      var x :| x in a && x !in b;
      forall y | y in b ensures y in a && b[y] == a[y] {
        assert y in entries && x in entries;
      }
    }
  }

  /** The run that is kept is determined by the entries and the bounds. */
  lemma LongestRecentRunUnique(entries: Entries, a: Entries, b: Entries, maxEntries: nat, maxBytes: nat)
    requires DistinctTimes(entries)
    requires LongestRecentRun(entries, a, maxEntries, maxBytes) && LongestRecentRun(entries, b, maxEntries, maxBytes)
    ensures a == b
  {
    RecentRunsNest(a, b, entries);
  }

  /** One entry more than fits, chosen as the latest one left out, spoils every longer run. */
  lemma LastEvictedSpoils(entries: Entries, kept: Entries, last: CacheKey, maxEntries: nat, maxBytes: nat)
    requires DistinctTimes(entries) && Recent(kept, entries)
    requires last in entries && last !in kept
    requires forall j :: j in entries && j !in kept ==> entries[j].lastAccess <= entries[last].lastAccess
    requires !Fits(kept[last := entries[last]], maxEntries, maxBytes)
    ensures forall other :: Recent(other, entries) && Within(kept, other) && other != kept ==>
              !Fits(other, maxEntries, maxBytes)
  {
    forall other | Recent(other, entries) && Within(kept, other) && other != kept
      ensures !Fits(other, maxEntries, maxBytes)
    {
      LongerRunHasLast(entries, kept, other, last);
      PartIsSmaller(kept[last := entries[last]], other);
    }
  }

  lemma LongerRunHasLast(entries: Entries, kept: Entries, other: Entries, last: CacheKey)
    requires DistinctTimes(entries) && Recent(other, entries) && Within(kept, other) && other != kept
    requires Within(kept, entries) && last in entries && last !in kept
    requires forall j :: j in entries && j !in kept ==> entries[j].lastAccess <= entries[last].lastAccess
    ensures Within(kept[last := entries[last]], other)
  {
    SameKeysSameEntries(kept, other);
    var extra :| extra in other.Keys && extra !in kept.Keys;
    assert entries[extra].lastAccess <= entries[last].lastAccess;
  }

  lemma SameKeysSameEntries(part: Entries, whole: Entries)
    requires Within(part, whole) && part != whole
    ensures part.Keys < whole.Keys
  {
    assert part.Keys == whole.Keys ==> part == whole;
  }

  /** A plain map in which the last insertion wins: what a cache without bounds would hold. */
  type Written = map<CacheKey, (CompactedContext, nat)>

  ghost predicate GoodEntry(key: CacheKey, entry: CachedContext, written: Written, clock: nat, maxBytes: nat,
                            size: CompactedContext -> nat)
  {
    && entry.value.cacheKey == key && entry.value.Valid()
    && entry.bytes == size(entry.value) <= maxBytes
    && entry.lastAccess <= clock
    && key in written && written[key] == (entry.value, entry.expiresAtMs)
  }

  /** Every entry is the last one written under its key, and below clock saturation no two entries
      were used at the same time. */
  ghost predicate Good(entries: Entries, written: Written, clock: nat, maxBytes: nat, size: CompactedContext -> nat) {
    && clock <= U64_MAX
    && (forall k :: k in entries ==> GoodEntry(k, entries[k], written, clock, maxBytes, size))
    && (clock < U64_MAX ==> DistinctTimes(entries))
  }

  lemma GoodWithout(entries: Entries, written: Written, clock: nat, maxBytes: nat, size: CompactedContext -> nat,
                    key: CacheKey)
    requires Good(entries, written, clock, maxBytes, size)
    ensures Good(entries - {key}, written, clock, maxBytes, size)
    ensures Good(entries - {key}, written - {key}, clock, maxBytes, size)
    ensures key in entries ==> SumBytes(entries) == entries[key].bytes + SumBytes(entries - {key})
  {
    hide CompactedContext.Valid, SumBytes;
    if key in entries { SumWithout(entries, key); }
    var rest := entries - {key};
    forall k | k in rest
      ensures GoodEntry(k, rest[k], written, clock, maxBytes, size)
      ensures GoodEntry(k, rest[k], written - {key}, clock, maxBytes, size)
    {
      assert rest[k] == entries[k] && GoodEntry(k, entries[k], written, clock, maxBytes, size);
    }
  }

  lemma SizeWithout(entries: Entries, key: CacheKey)
    ensures |entries - {key}| == if key in entries then |entries| - 1 else |entries|
    ensures key !in entries ==> entries - {key} == entries
  {
    assert (entries - {key}).Keys == entries.Keys - {key};
  }

  /** Only the entry at `key` is new, and it was used after all the others. */
  ghost predicate Newest(entries: Entries, key: CacheKey) {
    key in entries && forall k :: k in entries && k != key ==> entries[k].lastAccess < entries[key].lastAccess
  }

  lemma GoodWith(entries: Entries, written: Written, clock: nat, maxBytes: nat, size: CompactedContext -> nat,
                 key: CacheKey, entry: CachedContext)
    requires Good(entries, written, clock, maxBytes, size)
    requires entry.lastAccess == Tick(clock)
    requires GoodEntry(key, entry, written[key := (entry.value, entry.expiresAtMs)], Tick(clock), maxBytes, size)
    ensures Good(entries[key := entry], written[key := (entry.value, entry.expiresAtMs)], Tick(clock), maxBytes, size)
    ensures clock < U64_MAX ==> DistinctTimes(entries[key := entry]) && Newest(entries[key := entry], key)
    ensures SumBytes(entries[key := entry]) == entry.bytes + SumBytes(entries - {key})
  {
    hide CompactedContext.Valid;
    var after, written' := entries[key := entry], written[key := (entry.value, entry.expiresAtMs)];
    forall k | k in after ensures GoodEntry(k, after[k], written', Tick(clock), maxBytes, size) {
      if k != key { assert GoodEntry(k, entries[k], written, clock, maxBytes, size); }
    }
    if clock < U64_MAX {
      forall k | k in after && k != key ensures after[k].lastAccess < entry.lastAccess {
        assert GoodEntry(k, entries[k], written, clock, maxBytes, size);
      }
    }
    SumWith(entries, key, entry);
  }

  lemma GoodValues(entries: Entries, written: Written, clock: nat, maxBytes: nat, size: CompactedContext -> nat)
    requires Good(entries, written, clock, maxBytes, size)
    ensures forall k :: k in entries ==> k in written && written[k] == (entries[k].value, entries[k].expiresAtMs)
  {
    hide CompactedContext.Valid;
  }

  /** A lookup ticks the clock whether or not it finds anything, and touches what it finds. */
  lemma GoodTick(entries: Entries, written: Written, clock: nat, maxBytes: nat, size: CompactedContext -> nat,
                 key: CacheKey)
    requires Good(entries, written, clock, maxBytes, size)
    ensures Good(entries, written, Tick(clock), maxBytes, size)
    ensures key in entries ==>
              var touched := entries[key := entries[key].(lastAccess := Tick(clock))];
              Good(touched, written, Tick(clock), maxBytes, size) && SumBytes(touched) == SumBytes(entries)
  {
    hide CompactedContext.Valid;
    if key in entries {
      var entry := entries[key].(lastAccess := Tick(clock));
      assert GoodEntry(key, entries[key], written, clock, maxBytes, size);
      assert written[key := (entry.value, entry.expiresAtMs)] == written;
      GoodWith(entries, written, clock, maxBytes, size, key, entry);
      SumWithout(entries, key);
    }
  }

  lemma FreshEntry(key: CacheKey, entry: CachedContext, written: Written, clock: nat, maxBytes: nat,
                   size: CompactedContext -> nat)
    requires entry.value.cacheKey == key && entry.value.Valid() && entry.bytes == size(entry.value) <= maxBytes
    requires entry.lastAccess == clock
    ensures GoodEntry(key, entry, written[key := (entry.value, entry.expiresAtMs)], clock, maxBytes, size)
  {
  }

  class ContextCache {
    const maxEntries: nat
    const maxBytes: nat
    /** The length of a context's JSON encoding. */
    const size: CompactedContext -> nat
    var currentBytes: nat
    var accessClock: nat
    var entries: Entries
    ghost var written: Written

    constructor Empty(maxEntries: nat, maxBytes: nat, size: CompactedContext -> nat)
      ensures this.maxEntries == maxEntries && this.maxBytes == maxBytes && this.size == size
      ensures currentBytes == 0 && accessClock == 0 && entries == map[] && written == map[]
    {
      this.maxEntries, this.maxBytes, this.size := maxEntries, maxBytes, size;
      currentBytes, accessClock, entries, written := 0, 0, map[], map[];
    }

    static method Create(maxEntries: nat, maxBytes: nat, size: CompactedContext -> nat)
      returns (r: Result<ContextCache, CacheError>)
      ensures r.Success? <==> 1 <= maxEntries <= 256 && 1024 <= maxBytes <= 67_108_864
      ensures r.Success? ==> fresh(r.value) && r.value.Valid() && r.value.entries == map[] && r.value.written == map[]
                             && r.value.maxEntries == maxEntries && r.value.maxBytes == maxBytes && r.value.size == size
    {
      if maxEntries == 0 || maxEntries > MAX_CACHE_ENTRIES || !(1024 <= maxBytes <= MAX_CACHE_BYTES) {
        return Failure(InvalidCachePolicy);
      }
      var cache := new ContextCache.Empty(maxEntries, maxBytes, size);
      return Success(cache);
    }

    ghost predicate Accounted()
      reads this
    {
      && 0 < maxEntries <= MAX_CACHE_ENTRIES && 1024 <= maxBytes <= MAX_CACHE_BYTES
      && currentBytes == SumBytes(entries)
      && Good(entries, written, accessClock, maxBytes, size)
    }

    /** The byte count is exact, both bounds hold, and every entry is the last one written. */
    ghost predicate Valid()
      reads this
    {
      Accounted() && |entries| <= maxEntries && currentBytes <= maxBytes
    }

    method Insert(value: CompactedContext, expiresAtMs: nat) returns (r: Result<(), CacheError>)
      requires Valid()
      modifies this
      ensures Valid()
      ensures r.Success? <==> value.Valid() && expiresAtMs > value.createdAtMs && size(value) <= maxBytes
      ensures r.Failure? ==> r.error == InvalidCacheEntry && unchanged(this)
      ensures r.Success? ==>
                var entry := CachedContext(value, expiresAtMs, size(value), Tick(old(accessClock)));
                && accessClock == Tick(old(accessClock))
                && written == old(written)[value.cacheKey := (value, expiresAtMs)]
                && Recent(entries, old(entries)[value.cacheKey := entry])
                && (old(accessClock) < U64_MAX ==>
                      && value.cacheKey in entries && entries[value.cacheKey] == entry
                      && LongestRecentRun(old(entries)[value.cacheKey := entry], entries, maxEntries, maxBytes))
    {
      hide Good, GoodEntry, CompactedContext.Valid, LongestRecentRun, Recent, Newest, DistinctTimes, SumBytes;
      if !value.Valid() || expiresAtMs <= value.createdAtMs { return Failure(InvalidCacheEntry); }
      var bytes := size(value);
      if bytes > maxBytes { return Failure(InvalidCacheEntry); }
      var key := value.cacheKey;
      ghost var before := entries;
      GoodWithout(entries, written, accessClock, maxBytes, size, key);
      SizeWithout(entries, key);
      if key in entries {
        currentBytes := SaturatingSub(currentBytes, entries[key].bytes);
        entries := entries - {key};
      }
      accessClock := Tick(accessClock);
      currentBytes := SaturatingAdd(currentBytes, bytes, USIZE_MAX);
      var entry := CachedContext(value, expiresAtMs, bytes, accessClock);
      FreshEntry(key, entry, written, accessClock, maxBytes, size);
      GoodWith(before, written, old(accessClock), maxBytes, size, key, entry);
      entries := entries[key := entry];
      assert entries == before[key := entry];
      written := written[key := (value, expiresAtMs)];
      Evict();
      if old(accessClock) < U64_MAX {
        NewestStays(before[key := entry], entries, key, maxEntries, maxBytes);
      }
      return Success(());
    }

    method Get(key: CacheKey, nowMs: nat) returns (r: Option<CompactedContext>)
      requires Valid()
      modifies this
      ensures Valid()
      ensures r.Some? ==> key in old(written) && old(written)[key].0 == r.value && nowMs < old(written)[key].1
      ensures if key in old(entries) && old(entries)[key].expiresAtMs <= nowMs then
                && r == None && entries == old(entries) - {key} && accessClock == old(accessClock)
                && written == old(written) - {key}
              else if key in old(entries) then
                && r == Some(old(entries)[key].value) && accessClock == Tick(old(accessClock))
                && entries == old(entries)[key := old(entries)[key].(lastAccess := accessClock)]
                && written == old(written)
              else
                && r == None && entries == old(entries) && accessClock == Tick(old(accessClock))
                && written == old(written)
    {
      hide Good, SumBytes;
      GoodValues(entries, written, accessClock, maxBytes, size);
      SizeWithout(entries, key);
      if key in entries && entries[key].expiresAtMs <= nowMs {
        GoodWithout(entries, written, accessClock, maxBytes, size, key);
        currentBytes := SaturatingSub(currentBytes, entries[key].bytes);
        entries := entries - {key};
        written := written - {key};
        return None;
      }
      GoodTick(entries, written, accessClock, maxBytes, size, key);
      accessClock := Tick(accessClock);
      if key !in entries { return None; }
      assert entries[key := entries[key].(lastAccess := accessClock)].Keys == entries.Keys;
      entries := entries[key := entries[key].(lastAccess := accessClock)];
      return Some(entries[key].value);
    }

    method Invalidate(key: CacheKey) returns (found: bool)
      requires Accounted()
      modifies this`entries, this`currentBytes
      ensures Accounted()
      ensures found <==> key in old(entries)
      ensures entries == old(entries) - {key}
      ensures currentBytes <= old(currentBytes)
      ensures |entries| == if found then |old(entries)| - 1 else |old(entries)|
    {
      hide Good;
      SizeWithout(entries, key);
      GoodWithout(entries, written, accessClock, maxBytes, size, key);
      if key !in entries { return false; }
      currentBytes := SaturatingSub(currentBytes, entries[key].bytes);
      entries := entries - {key};
      return true;
    }

    /** Ties can only arise after the clock has saturated; any tied entry may then go first. */
    method Evict()
      requires Accounted()
      modifies this`entries, this`currentBytes
      ensures Valid()
      ensures Recent(entries, old(entries))
      ensures DistinctTimes(old(entries)) ==> LongestRecentRun(old(entries), entries, maxEntries, maxBytes)
    {
      hide Good, Recent, LongestRecentRun;
      ghost var before := entries;
      ghost var last: Option<CacheKey> := None;
      RecentStart(before);
      while |entries| > maxEntries || currentBytes > maxBytes
        invariant Accounted()
        invariant Evicted(before, entries, last, maxEntries, maxBytes)
        decreases |entries|
      {
        EntriesRemain(entries, written, accessClock, maxEntries, maxBytes, size);
        OldestExists(entries);
        var key :| key in entries && forall k :: k in entries ==> entries[key].lastAccess <= entries[k].lastAccess;
        EvictedOneMore(before, entries, last, key, maxEntries, maxBytes);
        var _ := Invalidate(key);
        last := Some(key);
      }
      EvictedIsLongest(before, entries, last, maxEntries, maxBytes);
    }
  }

  /** What the eviction loop keeps: the entries left are a most-recently-used run, and with the last
      evicted one they did not fit. */
  ghost predicate Evicted(before: Entries, entries: Entries, last: Option<CacheKey>, maxEntries: nat, maxBytes: nat) {
    && Recent(entries, before)
    && (last.None? ==> entries == before)
    && (last.Some? ==>
          && last.value in before && last.value !in entries
          && (forall j :: j in before && j !in entries ==> before[j].lastAccess <= before[last.value].lastAccess)
          && !Fits(entries[last.value := before[last.value]], maxEntries, maxBytes))
  }

  lemma RecentStart(entries: Entries)
    ensures Recent(entries, entries)
  {
  }

  lemma EntriesRemain(entries: Entries, written: Written, clock: nat, maxEntries: nat, maxBytes: nat,
                      size: CompactedContext -> nat)
    requires Good(entries, written, clock, maxBytes, size)
    requires |entries| > maxEntries || SumBytes(entries) > maxBytes
    ensures entries != map[]
  {
  }

  lemma EvictedOneMore(before: Entries, entries: Entries, last: Option<CacheKey>, key: CacheKey, maxEntries: nat,
                       maxBytes: nat)
    requires Evicted(before, entries, last, maxEntries, maxBytes)
    requires key in entries && forall k :: k in entries ==> entries[key].lastAccess <= entries[k].lastAccess
    requires !Fits(entries, maxEntries, maxBytes)
    ensures Evicted(before, entries - {key}, Some(key), maxEntries, maxBytes)
  {
    assert (entries - {key})[key := before[key]] == entries;
  }

  lemma EvictedIsLongest(before: Entries, entries: Entries, last: Option<CacheKey>, maxEntries: nat, maxBytes: nat)
    requires Evicted(before, entries, last, maxEntries, maxBytes) && Fits(entries, maxEntries, maxBytes)
    ensures Recent(entries, before)
    ensures DistinctTimes(before) ==> LongestRecentRun(before, entries, maxEntries, maxBytes)
  {
    if DistinctTimes(before) {
      if last.Some? {
        LastEvictedSpoils(before, entries, last.value, maxEntries, maxBytes);
      } else {
        NothingLonger(before, maxEntries, maxBytes);
      }
    }
  }

  /** The newest entry fits on its own, so it belongs to the longest run. */
  lemma NewestStays(entries: Entries, kept: Entries, key: CacheKey, maxEntries: nat, maxBytes: nat)
    requires maxEntries > 0 && DistinctTimes(entries)
    requires LongestRecentRun(entries, kept, maxEntries, maxBytes)
    requires Newest(entries, key) && entries[key].bytes <= maxBytes
    ensures key in kept && kept[key] == entries[key]
  {
    var alone: Entries := map[key := entries[key]];
    SumWithout(alone, key);
    assert alone - {key} == map[];
    RecentRunsNest(alone, kept, entries);
    assert Fits(alone, maxEntries, maxBytes);
    assert key in alone;
  }

  lemma NothingLonger(entries: Entries, maxEntries: nat, maxBytes: nat)
    ensures forall other :: Recent(other, entries) && Within(entries, other) && other != entries ==>
              !Fits(other, maxEntries, maxBytes)
  {
    forall other | Recent(other, entries) && Within(entries, other) ensures other == entries {
      assert other.Keys == entries.Keys;
    }
  }

  lemma {:induction false} OldestExists(entries: Entries)
    requires entries != map[]
    ensures exists key :: key in entries && forall k :: k in entries ==>
              entries[key].lastAccess <= entries[k].lastAccess
    decreases |entries|
  {
    var e :| e in entries;
    var rest := entries - {e};
    assert rest.Keys == entries.Keys - {e};
    assert forall k :: k in entries ==> k == e || (k in rest && rest[k] == entries[k]);
    if rest != map[] {
      OldestExists(rest);
      var m :| m in rest && forall k :: k in rest ==> rest[m].lastAccess <= rest[k].lastAccess;
      var key := if entries[e].lastAccess <= entries[m].lastAccess then e else m;
      assert key in entries && forall k :: k in entries ==> entries[key].lastAccess <= entries[k].lastAccess;
    } else {
      assert e in entries && forall k :: k in entries ==> entries[e].lastAccess <= entries[k].lastAccess;
    }
  }
}
