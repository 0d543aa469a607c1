/** The cache object. As with the executor, the ghost `trace` records the actions of each operation and `Valid` ties the
    fields to the state they lead to. */
module FinalResultCache {
  import opened Options
  import opened FinalCache
  import opened FinalCacheRuns

  datatype Notification =
    | ToolsListChanged | ResourcesListChanged | PromptsListChanged | ResourceUpdated(uri: string) | OtherNotification

  class ResultCache {
    const limits: Limits
    var state: CacheState
    ghost var trace: seq<CacheAction>

    ghost predicate Valid()
      reads this
    {
      CacheAfter(limits, trace) == Some(state) && CacheInv(state)
    }

    /** `with_limits` */
    constructor (limits: Limits)
      ensures Valid() && this.limits == limits && trace == [] && state.enabled && state.entries == map[]
      ensures 1 <= limits.capacity <= 10_000 ==> state.capacity == limits.capacity
      ensures 1 <= limits.maxBytes <= MAX_BYTES ==> state.maxBytes == limits.maxBytes
    {
      hide CacheInv;
      FreshInv(limits.capacity, limits.maxBytes, limits.lastInstant);
      EmptyRun(limits);
      this.limits := limits;
      state := Fresh(limits.capacity, limits.maxBytes, limits.lastInstant);
      trace := [];
    }

    ghost method Record(s: CacheState, a: CacheAction)
      requires CacheAfter(limits, trace) == Some(s) && CacheInv(s) && CacheEnabled(s, a) && state == CacheApply(s, a)
      modifies this`trace
      ensures Valid() && trace == old(trace) + [a]
    {
      hide CacheEnabled, CacheApply, CacheInv, CacheAfter;
      CacheStep(limits, trace, a);
      CacheInvKept(s, a);
      trace := trace + [a];
    }

    /** `clear` without its record. */
    method Empty()
      modifies this`state
      ensures state == Cleared(old(state))
    {
      state := state.(entries := map[], retainedBytes := 0);
      if state.epoch < U64_MAX {
        state := state.(epoch := state.epoch + 1);
      } else {
        state := state.(exhausted := true, enabled := false);
      }
    }

    /** `clear` */
    method ClearAll()
      requires Valid()
      modifies this
      ensures Valid() && trace == old(trace) + [Clear] && state == Cleared(old(state))
    {
      hide CacheAfter, CacheInv, Cleared;
      ghost var s := state;
      Empty();
      Record(s, Clear);
    }

    /** `set_enabled` */
    method Switch(enabled: bool)
      requires Valid()
      modifies this
      ensures Valid() && trace == old(trace) + [SetEnabled(enabled)] && state == Toggled(old(state), enabled)
      ensures state.enabled ==> enabled
      ensures !old(state).exhausted && !state.exhausted ==> state.enabled == enabled
    {
      hide CacheAfter, CacheInv;
      ghost var s := state;
      if state.enabled != enabled { Empty(); }
      state := state.(enabled := enabled && !state.exhausted);
      Record(s, SetEnabled(enabled));
    }

    /** `begin_fetch` */
    method BeginFetch(target: ResultSet) returns (token: Generation, ghost ticket: nat)
      requires Valid()
      modifies this
      ensures Valid() && trace == old(trace) + [Begin(target)]
      ensures state == old(state).(issued := old(state).issued + [token])
      ensures token == Current(state, ClassOf(target)) && ticket == |old(state).issued|
    {
      hide CacheAfter, CacheInv;
      ghost var s := state;
      var revision := if ClassOf(target) in state.revisions then state.revisions[ClassOf(target)] else 0;
      token, ticket := Generation(state.epoch, revision, ClassOf(target)), |state.issued|;
      state := state.(issued := state.issued + [token]);
      Record(s, Begin(target));
    }

    /** `lookup_page_at`; the outdated-generation branch is there as in the source and is never taken. */
    method LookupPageAt(key: Key, now: nat) returns (r: Answer)
      requires Valid()
      modifies this
      ensures Valid() && trace == old(trace) + [Lookup(key, now)] && state == LookedUp(old(state), key, now)
      ensures r == AnswerTo(old(state), key, now) && r != Missed(InvalidatedMiss)
    {
      hide CacheAfter, Sound, Total;
      ghost var s := state;
      if !state.enabled {
        r := Missed(Disabled);
      } else if key !in state.entries {
        r := Missed(Absent);
      } else {
        var e := state.entries[key];
        var miss := if e.generation != Current(state, ClassOf(key.resultSet)) then Some(InvalidatedMiss)
                    else if now >= e.expiresAt then Some(Stale) else None;
        if miss.Some? {
          TotalWithout(state.entries, key);
          state := state.(entries := state.entries - {key}, retainedBytes := SatSub(state.retainedBytes, e.bytes));
          r := Missed(miss.value);
        } else {
          r := FreshPage(e.result, e.generation, e.scope);
        }
      }
      Record(s, Lookup(key, now));
    }

    /** `evict_oldest`: one entry with the least receipt goes. */
    method EvictOldest() returns (evicted: bool, ghost victim: Option<Key>)
      requires state.retainedBytes == Total(state.entries)
      modifies this`state
      ensures evicted <==> old(state).entries != map[]
      ensures !evicted ==> state == old(state)
      ensures evicted ==> victim.Some? && victim.value in old(state).entries
                          && IsOldest(old(state).entries, victim.value)
                          && state == old(state).(entries := old(state).entries - {victim.value},
                                                  retainedBytes := Total(old(state).entries - {victim.value}))
    {
      hide Total;
      if state.entries == map[] { return false, None; }
      var entries := state.entries;
      var oldest :| oldest in entries;
      var left: set<Key> := entries.Keys - {oldest};
      while left != {}
        invariant left <= entries.Keys && oldest in entries && oldest !in left
        invariant forall k | k in entries && k !in left :: entries[oldest].receipt <= entries[k].receipt
      {
        var k :| k in left;
        if entries[k].receipt < entries[oldest].receipt { oldest := k; }
        left := left - {k};
      }
      TotalWithout(entries, oldest);
      state := state.(entries := state.entries - {oldest},
                      retainedBytes := SatSub(state.retainedBytes, entries[oldest].bytes));
      return true, Some(oldest);
    }

    /** The eviction loop of an insertion. It ends before the cache is empty of reasons to go on: an empty cache always
        has room for an entry within the byte budget, so the refusal inside the loop is never reached. */
    method MakeRoom(bytes: nat) returns (ghost victims: set<Key>)
      requires state.retainedBytes == Total(state.entries) && bytes <= state.maxBytes && state.capacity > 0
      modifies this`state
      ensures Evicts(old(state).entries, state.capacity, SatSub(state.maxBytes, bytes), victims)
      ensures state == old(state).(entries := old(state).entries - victims,
                                   retainedBytes := Total(old(state).entries - victims))
    {
      hide Total, Oldest, LastNeeded, IsOldest, Evicts;
      victims := {};
      ghost var start, budget := state.entries, SatSub(state.maxBytes, bytes);
      ghost var last: Option<Key> := None;
      NobodyEvicted(start, state.capacity, budget);
      while |state.entries| >= state.capacity || state.retainedBytes > SatSub(state.maxBytes, bytes)
        invariant victims <= start.Keys
        invariant state == old(state).(entries := start - victims, retainedBytes := Total(start - victims))
        invariant Oldest(start, victims) && LastNeeded(start, state.capacity, budget, victims, last)
        decreases |state.entries|
      {
        EmptyHasRoom(state.entries);
        var evicted;
        ghost var victim;
        evicted, victim := EvictOldest();
        assert evicted;
        EvictedOne(start, state.capacity, budget, victims, victim.value);
        victims, last := victims + {victim.value}, victim;
      }
      EvictionDone(start, state.capacity, budget, victims, last);
    }

    /** `insert_if_current_at`, with any token; `ticket` names the fetch when this cache gave the token out. */
    method InsertIfCurrentAt(key: Key, token: Generation, result: CoreResult, receipt: nat, ghost ticket: Option<nat>)
      returns (r: Verdict, ghost victims: set<Key>)
      requires Valid() && (ticket.Some? ==> ticket.value < |state.issued| && state.issued[ticket.value] == token)
      modifies this
      ensures Valid() && trace == old(trace) + [Insert(key, token, ticket, result, receipt, victims)]
      ensures r == VerdictOn(old(state), key, token, result, receipt)
      ensures r == Stored ==> Places(old(state), state, key, token, result, receipt, victims)
      ensures r != Stored ==> state == old(state) && victims == {}
    {
      hide CacheAfter, CacheInv, Total, Evicts, EntryBytes, VerdictOn, EntryOf, Inserted, CacheEnabled, CacheApply;
      ghost var s := state;
      victims := {};
      r := Checks(key, token, result, receipt);
      if r == Stored {
        StoredEntry(state, key, token, result, receipt);
        Facts(state);
        victims := Store(key, EntryOf(key, token, result, receipt));
        InsertStep(s, key, token, ticket, result, receipt, victims);
      } else {
        RefusalStep(s, key, token, ticket, result, receipt);
      }
      Record(s, Insert(key, token, ticket, result, receipt, victims));
    }

    /** A previous entry of the key goes, the oldest entries make room, and the new one is placed. */
    method Store(key: Key, e: Entry) returns (ghost victims: set<Key>)
      requires state.retainedBytes == Total(state.entries) <= state.maxBytes <= MAX_BYTES && state.capacity > 0
      requires e.bytes <= state.maxBytes
      modifies this`state
      ensures Evicts(old(state).entries - {key}, old(state).capacity, SatSub(old(state).maxBytes, e.bytes), victims)
      ensures state == Inserted(old(state), key, e, victims)
    {
      hide Total, Evicts;
      ghost var s := state;
      if key in state.entries {
        TotalWithout(state.entries, key);
        state := state.(entries := state.entries - {key},
                        retainedBytes := SatSub(state.retainedBytes, state.entries[key].bytes));
      } else {
        assert state.entries - {key} == state.entries;
      }
      victims := MakeRoom(e.bytes);
      EvictsMakesRoom(s.entries - {key}, s.capacity, SatSub(s.maxBytes, e.bytes), victims);
      Place(key, e, s.entries - {key} - victims);
    }

    method Place(key: Key, e: Entry, ghost kept: map<Key, Entry>)
      requires state.entries == kept && key !in kept && state.retainedBytes == Total(kept)
      requires Total(kept) + e.bytes <= USIZE_MAX
      modifies this`state
      ensures state == old(state).(entries := kept[key := e], retainedBytes := Total(kept[key := e]))
    {
      hide Total;
      TotalUpdate(kept, key, e);
      state := state.(entries := state.entries[key := e], retainedBytes := SatAdd(state.retainedBytes, e.bytes));
    }

    /** The checks of an insertion in their order. */
    method Checks(key: Key, token: Generation, result: CoreResult, receipt: nat) returns (r: Verdict)
      ensures r == VerdictOn(state, key, token, result, receipt)
    {
      hide KeyBytes;
      if !state.enabled || token != Current(state, ClassOf(key.resultSet)) { return InvalidatedDuringFetch; }
      if result.hints.None? { return NotCacheable; }
      if result.hints.value.ttl.None? { return ExpiryOutOfRange; }
      var ttl := result.hints.value.ttl.value;
      if ttl == 0 { return ImmediatelyStale; }
      if receipt + ttl * NANOS_PER_MILLI > state.lastInstant { return ExpiryOutOfRange; }
      if result.encodedLength.None? { return Oversized; }
      if SatAdd(KeyBytes(key), result.encodedLength.value) > state.maxBytes { return Oversized; }
      return Stored;
    }

    /** `invalidate_result_set` */
    method InvalidateResultSet(target: ResultSet)
      requires Valid()
      modifies this
      ensures Valid() && trace == old(trace) + [Invalidate(target)] && state == Invalidated(old(state), target)
    {
      hide CacheAfter, CacheInv, Total, Cleared, OfClass;
      ghost var s := state;
      Facts(state);
      var c := ClassOf(target);
      var revision := if c in state.revisions then state.revisions[c] else 0;
      if revision >= U64_MAX {
        Empty();
        state := state.(revisions := map[]);
      } else {
        state := state.(revisions := state.revisions[c := revision + 1]);
        Retain(target);
      }
      Record(s, Invalidate(target));
    }

    /** Entries of the invalidated set go; for resource reads that is every uri. */
    method Retain(target: ResultSet)
      requires Total(state.entries) <= USIZE_MAX
      modifies this`state
      ensures var kept := old(state).entries - OfClass(old(state).entries, ClassOf(target));
              state == old(state).(entries := kept, retainedBytes := Total(kept))
    {
      hide Total;
      var gone := if target.Resource? then set k | k in state.entries && k.resultSet.Resource?
                  else set k | k in state.entries && k.resultSet == target;
      SameClass(state.entries, target);
      TotalShrinks(state.entries, gone);
      state := state.(entries := state.entries - gone);
      RecountRetainedBytes();
    }

    /** `recount_retained_bytes` */
    method RecountRetainedBytes()
      requires Total(state.entries) <= USIZE_MAX
      modifies this`state
      ensures state == old(state).(retainedBytes := Total(old(state).entries))
    {
      hide Total;
      var entries := state.entries;
      var left: set<Key> := entries.Keys;
      var total := 0;
      assert entries - entries.Keys == map[];
      EmptyTotal();
      while left != {}
        invariant left <= entries.Keys && total == Total(entries - left) && state == old(state)
      {
        var k :| k in left;
        CountOneMore(entries, left, k);
        total := SatAdd(total, entries[k].bytes);
        left := left - {k};
      }
      assert entries - {} == entries;
      state := state.(retainedBytes := total);
    }

    /** `invalidate_notification`: which classes a notification of the server fences. */
    method InvalidateNotification(n: Notification) returns (ghost added: seq<CacheAction>)
      requires Valid()
      modifies this
      ensures Valid() && trace == old(trace) + added
      ensures added == match n
                       case ToolsListChanged => [Invalidate(Tools)]
                       case ResourcesListChanged =>
                         [Invalidate(Resources), Invalidate(ResourceTemplates), Invalidate(Resource(""))]
                       case PromptsListChanged => [Invalidate(Prompts)]
                       case ResourceUpdated(uri) => [Invalidate(Resource(uri))]
                       case OtherNotification => []
    {
      hide CacheAfter, CacheInv, Invalidated;
      added := [];
      match n
      case ToolsListChanged =>
        InvalidateResultSet(Tools);
        added := [Invalidate(Tools)];
      case ResourcesListChanged =>
        InvalidateResultSet(Resources);
        InvalidateResultSet(ResourceTemplates);
        InvalidateResultSet(Resource(""));
        added := [Invalidate(Resources), Invalidate(ResourceTemplates), Invalidate(Resource(""))];
      case PromptsListChanged =>
        InvalidateResultSet(Prompts);
        added := [Invalidate(Prompts)];
      case ResourceUpdated(uri) =>
        InvalidateResultSet(Resource(uri));
        added := [Invalidate(Resource(uri))];
      case OtherNotification =>
    }
  }

  /** The entry of the result is placed after the victims made room for it. */
  ghost predicate Places(s: CacheState, t: CacheState, key: Key, token: Generation, result: CoreResult, receipt: nat,
                         victims: set<Key>) {
    && result.hints.Some? && result.hints.value.ttl.Some? && result.encodedLength.Some?
    && Evicts(s.entries - {key}, s.capacity, SatSub(s.maxBytes, EntryBytes(key, result.encodedLength.value)), victims)
    && t == Inserted(s, key, EntryOf(key, token, result, receipt), victims)
  }

  // ----- Eviction -----

  ghost predicate IsOldest(entries: map<Key, Entry>, v: Key)
    requires v in entries
  {
    forall k | k in entries :: entries[v].receipt <= entries[k].receipt
  }

  /** Nobody evicted is younger than a survivor. */
  ghost predicate Oldest(entries: map<Key, Entry>, victims: set<Key>)
    requires victims <= entries.Keys
  {
    forall v, k | v in victims && k in entries && k !in victims :: entries[v].receipt <= entries[k].receipt
  }

  /** The last one evicted is the youngest, and there was no room before it went. */
  ghost predicate LastNeeded(entries: map<Key, Entry>, capacity: nat, budget: nat, victims: set<Key>, last: Option<Key>)
    requires victims <= entries.Keys
  {
    if last.None? then victims == {}
    else last.value in victims && (forall w | w in victims :: entries[w].receipt <= entries[last.value].receipt)
         && !Room(entries - (victims - {last.value}), capacity, budget)
  }

  lemma EmptyHasRoom(entries: map<Key, Entry>)
    ensures entries == map[] ==> |entries| == 0 && Total(entries) == 0
  {
  }

  lemma NobodyEvicted(start: map<Key, Entry>, capacity: nat, budget: nat)
    ensures start - {} == start && Oldest(start, {}) && LastNeeded(start, capacity, budget, {}, None)
  {
    hide Total;
  }

  lemma EvictedOne(start: map<Key, Entry>, capacity: nat, budget: nat, victims: set<Key>, v: Key)
    requires victims <= start.Keys && v in start - victims && Oldest(start, victims)
    requires IsOldest(start - victims, v) && !Room(start - victims, capacity, budget)
    ensures start - victims - {v} == start - (victims + {v})
    ensures |start - victims - {v}| < |start - victims|
    ensures Oldest(start, victims + {v}) && LastNeeded(start, capacity, budget, victims + {v}, Some(v))
  {
    hide Total;
    assert (start - victims - {v}).Keys == (start - victims).Keys - {v};
    assert victims + {v} - {v} == victims;
    forall k | k in start && k !in victims ensures start[v].receipt <= start[k].receipt { assert k in start - victims; }
  }

  lemma EvictionDone(start: map<Key, Entry>, capacity: nat, budget: nat, victims: set<Key>, last: Option<Key>)
    requires victims <= start.Keys && Oldest(start, victims) && LastNeeded(start, capacity, budget, victims, last)
    requires Room(start - victims, capacity, budget)
    ensures Evicts(start, capacity, budget, victims)
  {
    hide Total;
  }

  lemma InsertStep(s: CacheState, key: Key, token: Generation, ticket: Option<nat>, result: CoreResult, receipt: nat,
                   victims: set<Key>)
    requires ticket.Some? ==> ticket.value < |s.issued| && s.issued[ticket.value] == token
    requires VerdictOn(s, key, token, result, receipt) == Stored && result.encodedLength.Some?
    requires var bytes := EntryBytes(key, result.encodedLength.value);
             Evicts(s.entries - {key}, s.capacity, SatSub(s.maxBytes, bytes), victims)
    ensures var a := Insert(key, token, ticket, result, receipt, victims);
            CacheEnabled(s, a)
            && CacheApply(s, a) == Inserted(s, key, EntryOf(key, token, result, receipt), victims)
  {
    hide Evicts, Inserted, EntryBytes, Total;
  }

  lemma RefusalStep(s: CacheState, key: Key, token: Generation, ticket: Option<nat>, result: CoreResult, receipt: nat)
    requires ticket.Some? ==> ticket.value < |s.issued| && s.issued[ticket.value] == token
    requires VerdictOn(s, key, token, result, receipt) != Stored
    ensures CacheEnabled(s, Insert(key, token, ticket, result, receipt, {}))
    ensures CacheApply(s, Insert(key, token, ticket, result, receipt, {})) == s
  {
    hide EntryBytes, Total;
  }

  lemma Facts(s: CacheState)
    requires CacheInv(s)
    ensures s.retainedBytes == Total(s.entries) <= s.maxBytes <= MAX_BYTES && s.capacity > 0
  {
    hide Total, Sound;
  }

  lemma SameClass(entries: map<Key, Entry>, target: ResultSet)
    ensures OfClass(entries, ClassOf(target)) == if target.Resource? then set k | k in entries && k.resultSet.Resource?
                                               else set k | k in entries && k.resultSet == target
  {
  }

  lemma EmptyTotal()
    ensures Total(map[]) == 0
  {
  }

  lemma CountOneMore(entries: map<Key, Entry>, left: set<Key>, k: Key)
    requires left <= entries.Keys && k in left
    ensures Total(entries - (left - {k})) == Total(entries - left) + entries[k].bytes <= Total(entries)
  {
    TotalUpdate(entries - left, k, entries[k]);
    assert (entries - left)[k := entries[k]] == entries - (left - {k});
    TotalShrinks(entries, left - {k});
  }
}
