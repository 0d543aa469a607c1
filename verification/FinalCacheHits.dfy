/** When the final-result cache answers. The other direction of the refinement: a stored result is answered until
    something takes it away, and not after. */
module FinalCacheHits {
  import opened Options
  import opened FinalCache
  import opened FinalCacheRuns

  /** The `i`-th action stores its result: an insertion into an enabled cache, unfenced since its fetch began, of a
      result that may be cached and is within the byte budget. */
  ghost predicate StoresAt(l: Limits, trace: seq<CacheAction>, i: nat)
    requires IsCacheRun(l, trace) && i < |trace|
  {
    && Unfenced(l, trace, i)
    && var s := CacheAt(l, trace, i);
       s.enabled && Cacheable(s.lastInstant, trace[i].result, trace[i].receipt)
       && TrueBytes(trace[i].key, trace[i].result.encodedLength.value) <= s.maxBytes
  }

  /** Each verdict on an insertion, in terms of the result. */
  lemma VerdictExactly(s: CacheState, key: Key, token: Generation, result: CoreResult, receipt: nat)
    requires s.maxBytes <= MAX_BYTES
    ensures var v, hints := VerdictOn(s, key, token, result, receipt), result.hints;
            var stale := !s.enabled || token != Current(s, ClassOf(key.resultSet));
            var late := hints.Some? && (hints.value.ttl.None?
                                        || (hints.value.ttl.value > 0
                                            && receipt + hints.value.ttl.value * 1_000_000 > s.lastInstant));
            && (v == InvalidatedDuringFetch <==> stale)
            && (v == NotCacheable <==> !stale && hints.None?)
            && (v == ExpiryOutOfRange <==> !stale && late)
            && (v == ImmediatelyStale <==> !stale && hints.Some? && hints.value.ttl == Some(0))
            && (v == Stored <==> !stale && Cacheable(s.lastInstant, result, receipt)
                                 && TrueBytes(key, result.encodedLength.value) <= s.maxBytes)
  {
    hide EntryBytes;
    if result.encodedLength.Some? { StoredSizeIsExact(key, result.encodedLength.value); }
  }

  /** The verdict says so. */
  lemma StoredExactly(l: Limits, trace: seq<CacheAction>, i: nat)
    requires IsCacheRun(l, trace) && i < |trace| && trace[i].Insert?
    ensures var a := trace[i];
            StoresAt(l, trace, i)
            <==> VerdictOn(CacheAt(l, trace, i), a.key, a.token, a.result, a.receipt) == Stored
  {
    hide CacheAt, IsCacheRun, VerdictOn, Unfenced, TrueBytes, EntriesOk, Total;
    CacheStateInv(l, trace, i);
    if CacheAt(l, trace, i).enabled { UnfencedIffCurrent(l, trace, i); }
    VerdictExactly(CacheAt(l, trace, i), trace[i].key, trace[i].token, trace[i].result, trace[i].receipt);
  }

  /** What takes the entry of a key away: a fence of its class, an insertion under another key that needs its room, or
      a lookup once it has expired. */
  predicate TakesAway(s: CacheState, a: CacheAction, key: Key, expiry: nat) {
    || Fence(s, a, ClassOf(key.resultSet))
    || (a.Insert? && a.key != key && key in a.victims)
    || (a.Lookup? && a.key == key && a.now >= expiry)
  }

  predicate Refills(s: CacheState, a: CacheAction, key: Key) {
    a.Insert? && a.key == key && VerdictOn(s, key, a.token, a.result, a.receipt) == Stored
  }

  /** One action on the entry of one key. */
  ghost predicate Follows(s: CacheState, a: CacheAction, s': CacheState, key: Key) {
    if key in s.entries && !TakesAway(s, a, key, s.entries[key].expiresAt)
    then key in s'.entries && s'.entries[key] == s.entries[key]
    else key !in s'.entries
  }

  lemma FenceFollows(s: CacheState, a: CacheAction, key: Key)
    requires CacheInv(s) && (a.Clear? || a.SetEnabled? || a.Invalidate?)
    ensures Follows(s, a, CacheApply(s, a), key)
  {
    hide Total, EntriesOk;
  }

  lemma InsertFollows(s: CacheState, a: CacheAction, key: Key)
    requires a.Insert? && CacheEnabled(s, a) && !Refills(s, a, key)
    ensures Follows(s, a, CacheApply(s, a), key)
  {
    hide Total, VerdictOn, EntryOf, EntryBytes, Room;
  }

  lemma RestFollows(s: CacheState, a: CacheAction, key: Key)
    requires CacheInv(s) && (a.Begin? || a.Lookup?)
    ensures Follows(s, a, CacheApply(s, a), key)
  {
    hide Total, EntriesOk;
  }

  lemma EntryFollows(s: CacheState, a: CacheAction, key: Key)
    requires CacheInv(s) && CacheEnabled(s, a) && !Refills(s, a, key)
    ensures Follows(s, a, CacheApply(s, a), key)
  {
    hide CacheInv, CacheEnabled, CacheApply, Follows, Refills;
    if a.Insert? { InsertFollows(s, a, key); }
    else if a.Begin? || a.Lookup? { RestFollows(s, a, key); }
    else { FenceFollows(s, a, key); }
  }

  ghost predicate RefilledBetween(l: Limits, trace: seq<CacheAction>, i: nat, j: nat, key: Key)
    requires IsCacheRun(l, trace) && i <= j <= |trace|
  {
    exists m | i <= m < j :: trace[m].Insert? && trace[m].key == key && StoresAt(l, trace, m)
  }

  ghost predicate TakenBetween(l: Limits, trace: seq<CacheAction>, i: nat, j: nat, key: Key, expiry: nat)
    requires IsCacheRun(l, trace) && i <= j <= |trace|
  {
    exists m | i <= m < j :: TakesAway(CacheAt(l, trace, m), trace[m], key, expiry)
  }

  /** The entry that was there before the `i`-th action is there before the `j`-th, or gone for good. */
  lemma {:induction false} EntryBetween(l: Limits, trace: seq<CacheAction>, i: nat, j: nat, key: Key)
    requires IsCacheRun(l, trace) && i <= j <= |trace| && !RefilledBetween(l, trace, i, j, key)
    ensures var s, s' := CacheAt(l, trace, i), CacheAt(l, trace, j);
            if key in s.entries && !TakenBetween(l, trace, i, j, key, s.entries[key].expiresAt)
            then key in s'.entries && s'.entries[key] == s.entries[key]
            else key !in s'.entries
    decreases j
  {
    hide CacheAt, IsCacheRun, CacheInv, CacheEnabled, CacheApply, TakesAway, StoresAt;
    if i < j {
      var m := j - 1;
      var s := CacheAt(l, trace, m);
      assert !RefilledBetween(l, trace, i, m, key);
      EntryBetween(l, trace, i, m, key);
      CacheStateInv(l, trace, m);
      CacheStepAt(l, trace, m);
      if trace[m].Insert? { StoredExactly(l, trace, m); }
      EntryFollows(s, trace[m], key);
      var t := CacheAt(l, trace, i);
      if key in t.entries {
        assert TakenBetween(l, trace, i, j, key, t.entries[key].expiresAt)
               <==> TakenBetween(l, trace, i, m, key, t.entries[key].expiresAt)
                    || TakesAway(s, trace[m], key, t.entries[key].expiresAt);
      }
    }
  }

  lemma StoredEntryIs(l: Limits, trace: seq<CacheAction>, i: nat)
    requires IsCacheRun(l, trace) && i < |trace| && trace[i].Insert? && StoresAt(l, trace, i)
    ensures trace[i].result.hints.Some? && trace[i].result.hints.value.ttl.Some?
    ensures var a, s := trace[i], CacheAt(l, trace, i + 1);
            a.key in s.entries
            && (var e := s.entries[a.key];
                e.result == a.result && e.scope == a.result.hints.value.scope && e.generation == a.token
                && e.expiresAt == a.receipt + a.result.hints.value.ttl.value * 1_000_000)
  {
    hide CacheAt, IsCacheRun, VerdictOn, Unfenced, EntryBytes, TrueBytes, Total, Evicts;
    StoredExactly(l, trace, i);
    CacheStepAt(l, trace, i);
    StoredEntry(CacheAt(l, trace, i), trace[i].key, trace[i].token, trace[i].result, trace[i].receipt);
  }

  /** Hits, exactly: after a result was stored, and while no other is stored for its key, a lookup gives that very
      result until its time has come, unless a fence, an eviction or an earlier late lookup took it away. Lookups in
      time change nothing. */
  lemma StoredResultIsAnswered(l: Limits, trace: seq<CacheAction>, i: nat, j: nat, now: nat)
    requires IsCacheRun(l, trace) && i < j <= |trace| && trace[i].Insert? && StoresAt(l, trace, i)
    requires !RefilledBetween(l, trace, i + 1, j, trace[i].key)
    ensures trace[i].result.hints.Some? && trace[i].result.hints.value.ttl.Some?
    ensures var a, s, hints := trace[i], CacheAt(l, trace, j), trace[i].result.hints.value;
            var expiry := a.receipt + hints.ttl.value * 1_000_000;
            AnswerTo(s, a.key, now)
            == if TakenBetween(l, trace, i + 1, j, a.key, expiry) then Missed(if s.enabled then Absent else Disabled)
               else if now < expiry then FreshPage(a.result, a.token, hints.scope)
               else Missed(Stale)
  {
    hide CacheAt, IsCacheRun, TakenBetween, RefilledBetween, StoresAt, Sound, Total;
    StoredEntryIs(l, trace, i);
    EntryBetween(l, trace, i + 1, j, trace[i].key);
    CacheStateInv(l, trace, j);
  }

  /** A key for which nothing was stored is never answered. */
  lemma NothingStoredIsMissed(l: Limits, trace: seq<CacheAction>, j: nat, key: Key, now: nat)
    requires IsCacheRun(l, trace) && j <= |trace| && !RefilledBetween(l, trace, 0, j, key)
    ensures var s := CacheAt(l, trace, j); AnswerTo(s, key, now) == Missed(if s.enabled then Absent else Disabled)
  {
    hide CacheAt, IsCacheRun, RefilledBetween, TakenBetween;
    NothingYet(l, trace);
    EntryBetween(l, trace, 0, j, key);
  }

  lemma NothingYet(l: Limits, trace: seq<CacheAction>)
    requires IsCacheRun(l, trace)
    ensures CacheAt(l, trace, 0).entries == map[]
  {
    hide CacheEnabled, CacheApply;
    assert trace[..0] == [];
  }
}
