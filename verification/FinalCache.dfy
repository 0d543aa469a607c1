/** The client's cache of final results as a state machine: what is stored, under which fences, and in how many bytes.
    Instants count nanoseconds. A fetch is named by its ticket, the position of its token among those given out; an
    insertion whose token this cache did not give out has no ticket. */
module FinalCache {
  import opened Options

  const MAX_CAPACITY: nat := 10_000
  const MAX_BYTES: nat := 128 * 1024 * 1024
  const U64_MAX: nat := 0xFFFF_FFFF_FFFF_FFFF
  const USIZE_MAX: nat := 0xFFFF_FFFF_FFFF_FFFF
  const NANOS_PER_MILLI: nat := 1_000_000

  // ----- Keys and results -----

  datatype ResultSet = ServerDiscovery | Tools | Resources | ResourceTemplates | Prompts | Resource(uri: string)

  /** Fixed-cardinality generation classes: all resource reads share one. */
  datatype Class = DiscoveryClass | ToolsClass | ResourcesClass | TemplatesClass | PromptsClass | ResourceClass

  function ClassOf(target: ResultSet): Class {
    match target
    case ServerDiscovery => DiscoveryClass
    case Tools => ToolsClass
    case Resources => ResourcesClass
    case ResourceTemplates => TemplatesClass
    case Prompts => PromptsClass
    case Resource(_) => ResourceClass
  }

  datatype Key = Key(
    endpoint: string, version: string, capabilities: string, settings: string, rpc: string, projection: string,
    cursor: Option<string>, policy: nat, extensions: nat, representation: nat, limits: nat, partition: string,
    resultSet: ResultSet)

  datatype Scope = Public | Private

  /** `ttl` is None when the hint does not fit a number of milliseconds. */
  datatype Hints = Hints(ttl: Option<nat>, scope: Scope)

  /** A decoded result: its cache hints, if it has any, and the length of its encoding, if it can be encoded. */
  datatype CoreResult = CoreResult(body: string, hints: Option<Hints>, encodedLength: Option<nat>)

  function SatAdd(a: nat, b: nat): nat { if a + b > USIZE_MAX then USIZE_MAX else a + b }

  function SatSub(a: nat, b: nat): nat { if a < b then 0 else a - b }

  function ResultSetBytes(target: ResultSet): nat { if target.Resource? then SatAdd(1, |target.uri|) else 1 }

  /** `FinalCacheKey::estimated_bytes` */
  function KeyBytes(k: Key): nat {
    var n := SatAdd(SatAdd(SatAdd(|k.endpoint|, |k.version|), |k.capabilities|), |k.settings|);
    var m := SatAdd(SatAdd(SatAdd(n, |k.rpc|), |k.projection|), if k.cursor.Some? then |k.cursor.value| else 0);
    SatAdd(SatAdd(SatAdd(m, |k.partition|), ResultSetBytes(k.resultSet)), 32)
  }

  function EntryBytes(k: Key, encodedLength: nat): nat { SatAdd(KeyBytes(k), encodedLength) }

  // ----- State -----

  datatype Generation = Generation(epoch: nat, revision: nat, group: Class)

  datatype Entry = Entry(
    result: CoreResult, scope: Scope, generation: Generation, receipt: nat, expiresAt: nat, bytes: nat)

  /** `issued` lists the tokens given out so far, only to name fetches. */
  datatype CacheState = CacheState(
    enabled: bool, capacity: nat, maxBytes: nat, lastInstant: nat, retainedBytes: nat,
    entries: map<Key, Entry>, revisions: map<Class, nat>, epoch: nat, exhausted: bool,
    issued: seq<Generation>)

  function Clamp(n: nat, low: nat, high: nat): nat { if n < low then low else if n > high then high else n }

  /** `with_limits` */
  function Fresh(capacity: nat, maxBytes: nat, lastInstant: nat): CacheState {
    CacheState(true, Clamp(capacity, 1, MAX_CAPACITY), Clamp(maxBytes, 1, MAX_BYTES), lastInstant, 0,
               map[], map[], 0, false, [])
  }

  function Revision(s: CacheState, c: Class): nat { if c in s.revisions then s.revisions[c] else 0 }

  /** `begin_fetch` */
  function Current(s: CacheState, c: Class): Generation { Generation(s.epoch, Revision(s, c), c) }

  /** Bytes of all entries. */
  ghost function Total(entries: map<Key, Entry>): nat {
    if entries == map[] then 0 else
      var k :| k in entries;
      entries[k].bytes + Total(entries - {k})
  }

  // ----- Actions -----

  datatype CacheAction =
    | SetEnabled(enabled: bool)
    | Clear
    | Begin(target: ResultSet)
    | Lookup(key: Key, now: nat)
    | Insert(key: Key, token: Generation, ticket: Option<nat>, result: CoreResult, receipt: nat, victims: set<Key>)
    | Invalidate(target: ResultSet)

  datatype Verdict =
    Stored | NotCacheable | ImmediatelyStale | InvalidatedDuringFetch | ExpiryOutOfRange | Oversized

  /** What the checks of an insertion say before anything is evicted, except for the byte budget. */
  function Admissible(s: CacheState, key: Key, token: Generation, result: CoreResult, receipt: nat): Verdict {
    if !s.enabled || token != Current(s, ClassOf(key.resultSet)) then InvalidatedDuringFetch
    else if result.hints.None? then NotCacheable
    else if result.hints.value.ttl.None? then ExpiryOutOfRange
    else if result.hints.value.ttl.value == 0 then ImmediatelyStale
    else if receipt + result.hints.value.ttl.value * NANOS_PER_MILLI > s.lastInstant then ExpiryOutOfRange
    else if result.encodedLength.None? then Oversized
    else Stored
  }

  function VerdictOn(s: CacheState, key: Key, token: Generation, result: CoreResult, receipt: nat): Verdict {
    var v := Admissible(s, key, token, result, receipt);
    if v == Stored && EntryBytes(key, result.encodedLength.value) > s.maxBytes then Oversized else v
  }

  function EntryOf(key: Key, token: Generation, result: CoreResult, receipt: nat): Entry
    requires result.hints.Some? && result.hints.value.ttl.Some? && result.encodedLength.Some?
  {
    Entry(result, result.hints.value.scope, token, receipt,
          receipt + result.hints.value.ttl.value * NANOS_PER_MILLI, EntryBytes(key, result.encodedLength.value))
  }

  ghost predicate Room(entries: map<Key, Entry>, capacity: nat, budget: nat) {
    |entries| < capacity && Total(entries) <= budget
  }

  /** `victims` make room, oldest first and no more than needed: none is younger than a survivor, and without the
      youngest of them there was no room yet. */
  ghost predicate Evicts(entries: map<Key, Entry>, capacity: nat, budget: nat, victims: set<Key>) {
    && victims <= entries.Keys
    && Room(entries - victims, capacity, budget)
    && (forall v, k | v in victims && k in entries && k !in victims :: entries[v].receipt <= entries[k].receipt)
    && (victims != {} ==>
          exists v | v in victims ::
            (forall w | w in victims :: entries[w].receipt <= entries[v].receipt)
            && !Room(entries - (victims - {v}), capacity, budget))
  }

  ghost predicate CacheEnabled(s: CacheState, a: CacheAction) {
    match a
    case Insert(key, token, ticket, result, receipt, victims) =>
      (ticket.Some? ==> ticket.value < |s.issued| && s.issued[ticket.value] == token)
      && (if VerdictOn(s, key, token, result, receipt) == Stored
          then Evicts(s.entries - {key}, s.capacity,
                      SatSub(s.maxBytes, EntryBytes(key, result.encodedLength.value)), victims)
          else victims == {})
    case _ => true
  }

  function Cleared(s: CacheState): CacheState {
    var t := s.(entries := map[], retainedBytes := 0);
    if s.epoch < U64_MAX then t.(epoch := s.epoch + 1) else t.(exhausted := true, enabled := false)
  }

  function Toggled(s: CacheState, enabled: bool): CacheState {
    var t := if s.enabled != enabled then Cleared(s) else s;
    t.(enabled := enabled && !t.exhausted)
  }

  /** Entries of one class. */
  function OfClass(entries: map<Key, Entry>, c: Class): set<Key> {
    set k | k in entries && ClassOf(k.resultSet) == c
  }

  ghost function Invalidated(s: CacheState, target: ResultSet): CacheState {
    var c := ClassOf(target);
    if Revision(s, c) < U64_MAX then
      var kept := s.entries - OfClass(s.entries, c);
      s.(revisions := s.revisions[c := Revision(s, c) + 1], entries := kept, retainedBytes := Total(kept))
    else Cleared(s).(revisions := map[])
  }

  predicate Expired(s: CacheState, key: Key, now: nat) {
    s.enabled && key in s.entries && now >= s.entries[key].expiresAt
  }

  ghost function LookedUp(s: CacheState, key: Key, now: nat): CacheState {
    if Expired(s, key, now) then s.(entries := s.entries - {key}, retainedBytes := Total(s.entries - {key})) else s
  }

  ghost function Inserted(s: CacheState, key: Key, e: Entry, victims: set<Key>): CacheState {
    var kept := s.entries - {key} - victims;
    s.(entries := kept[key := e], retainedBytes := Total(kept[key := e]))
  }

  ghost function CacheApply(s: CacheState, a: CacheAction): CacheState
    requires CacheEnabled(s, a)
  {
    match a
    case SetEnabled(enabled) => Toggled(s, enabled)
    case Clear => Cleared(s)
    case Begin(target) => s.(issued := s.issued + [Current(s, ClassOf(target))])
    case Lookup(key, now) => LookedUp(s, key, now)
    case Insert(key, token, _, result, receipt, victims) =>
      if VerdictOn(s, key, token, result, receipt) == Stored
      then Inserted(s, key, EntryOf(key, token, result, receipt), victims)
      else s
    case Invalidate(target) => Invalidated(s, target)
  }

  // ----- Bytes -----

  /** Any entry can be counted first. */
  lemma {:induction false} TotalWithout(entries: map<Key, Entry>, k: Key)
    requires k in entries
    ensures Total(entries) == entries[k].bytes + Total(entries - {k})
    decreases |entries|
  {
    var j :| j in entries && Total(entries) == entries[j].bytes + Total(entries - {j});
    if j != k {
      assert |entries - {j}| < |entries| by { assert (entries - {j}).Keys == entries.Keys - {j}; }
      assert |entries - {k}| < |entries| by { assert (entries - {k}).Keys == entries.Keys - {k}; }
      TotalWithout(entries - {j}, k);
      TotalWithout(entries - {k}, j);
      assert entries - {j} - {k} == entries - {k} - {j};
    }
  }

  lemma TotalUpdate(entries: map<Key, Entry>, k: Key, e: Entry)
    requires k !in entries
    ensures Total(entries[k := e]) == Total(entries) + e.bytes
  {
    TotalWithout(entries[k := e], k);
    assert entries[k := e] - {k} == entries;
  }

  lemma {:induction false} TotalShrinks(entries: map<Key, Entry>, gone: set<Key>)
    ensures Total(entries - gone) <= Total(entries) && |entries - gone| <= |entries|
    decreases |entries|
  {
    if exists k :: k in entries && k in gone {
      var k :| k in entries && k in gone;
      assert |entries - {k}| < |entries| by { assert (entries - {k}).Keys == entries.Keys - {k}; }
      TotalShrinks(entries - {k}, gone);
      assert entries - {k} - gone == entries - gone;
      TotalWithout(entries, k);
    } else {
      assert entries - gone == entries;
    }
  }

  /** The size of an entry without any saturation. */
  function TrueBytes(k: Key, encodedLength: nat): nat {
    |k.endpoint| + |k.version| + |k.capabilities| + |k.settings| + |k.rpc| + |k.projection|
    + (if k.cursor.Some? then |k.cursor.value| else 0) + |k.partition|
    + (if k.resultSet.Resource? then 1 + |k.resultSet.uri| else 1) + 32 + encodedLength
  }

  /** No arithmetic on the size of a stored entry saturates: within any byte budget the size is the true one. */
  lemma StoredSizeIsExact(k: Key, encodedLength: nat)
    ensures EntryBytes(k, encodedLength) == if TrueBytes(k, encodedLength) < USIZE_MAX
                                            then TrueBytes(k, encodedLength) else USIZE_MAX
    ensures EntryBytes(k, encodedLength) <= MAX_BYTES ==> EntryBytes(k, encodedLength) == TrueBytes(k, encodedLength)
  {
  }

  // ----- Invariant -----

  /** Byte accounting and limits; every entry is current; a disabled cache is empty; an exhausted one stays disabled. */
  ghost predicate CacheInv(s: CacheState) {
    && 1 <= s.capacity <= MAX_CAPACITY && 1 <= s.maxBytes <= MAX_BYTES
    && s.retainedBytes == Total(s.entries) <= s.maxBytes
    && |s.entries| <= s.capacity
    && EntriesOk(s, s.entries)
    && (!s.enabled ==> s.entries == map[])
    && (s.exhausted ==> !s.enabled)
    && s.epoch <= U64_MAX && (forall c | c in s.revisions :: s.revisions[c] <= U64_MAX)
  }

  /** Every entry is sound, within the byte budget and of the current generation of its class. */
  ghost predicate EntriesOk(s: CacheState, entries: map<Key, Entry>) {
    forall k | k in entries ::
      Sound(k, entries[k]) && entries[k].bytes <= s.maxBytes
      && entries[k].generation == Current(s, ClassOf(k.resultSet))
  }

  /** The entry's size, scope and expiry are those of its result. */
  ghost predicate Sound(k: Key, e: Entry) {
    && e.result.hints.Some? && e.result.hints.value.ttl.Some? && e.result.encodedLength.Some?
    && e == EntryOf(k, e.generation, e.result, e.receipt)
  }

  lemma FreshInv(capacity: nat, maxBytes: nat, lastInstant: nat)
    ensures CacheInv(Fresh(capacity, maxBytes, lastInstant))
  {
  }

  lemma ClearedInv(s: CacheState)
    requires CacheInv(s)
    ensures CacheInv(Cleared(s))
  {
    hide Sound;
  }

  lemma RemovedInv(s: CacheState, gone: set<Key>)
    requires CacheInv(s)
    ensures CacheInv(s.(entries := s.entries - gone, retainedBytes := Total(s.entries - gone)))
  {
    hide Sound, Total;
    TotalShrinks(s.entries, gone);
  }

  lemma InvalidatedInv(s: CacheState, target: ResultSet)
    requires CacheInv(s)
    ensures CacheInv(Invalidated(s, target))
  {
    hide Total, Sound, CacheInv;
    var c := ClassOf(target);
    if Revision(s, c) < U64_MAX {
      RemovedInv(s, OfClass(s.entries, c));
      var kept := s.entries - OfClass(s.entries, c);
      RevisedInv(s.(entries := kept, retainedBytes := Total(kept)), c);
    } else {
      ClearedInv(s);
      RestartedInv(Cleared(s));
    }
  }

  lemma RevisedInv(s: CacheState, c: Class)
    requires CacheInv(s) && OfClass(s.entries, c) == {} && Revision(s, c) < U64_MAX
    ensures CacheInv(s.(revisions := s.revisions[c := Revision(s, c) + 1]))
  {
    hide Total, Sound;
    forall k | k in s.entries ensures ClassOf(k.resultSet) != c { assert k !in OfClass(s.entries, c); }
  }

  lemma RestartedInv(s: CacheState)
    requires CacheInv(s) && s.entries == map[]
    ensures CacheInv(s.(revisions := map[]))
  {
    hide Total, Sound;
  }

  lemma InsertedInv(s: CacheState, a: CacheAction)
    requires CacheInv(s) && a.Insert? && CacheEnabled(s, a)
    ensures CacheInv(CacheApply(s, a))
  {
    hide Total, EntryBytes, Sound, VerdictOn, EntryOf, Evicts, CacheInv;
    if VerdictOn(s, a.key, a.token, a.result, a.receipt) == Stored {
      var kept := s.entries - {a.key} - a.victims;
      StoredEntry(s, a.key, a.token, a.result, a.receipt);
      var e := EntryOf(a.key, a.token, a.result, a.receipt);
      EvictsMakesRoom(s.entries - {a.key}, s.capacity, SatSub(s.maxBytes, e.bytes), a.victims);
      EntryAddedInv(s, kept, a.key, e);
    }
  }

  lemma StoredEntry(s: CacheState, key: Key, token: Generation, result: CoreResult, receipt: nat)
    requires VerdictOn(s, key, token, result, receipt) == Stored
    ensures s.enabled && token == Current(s, ClassOf(key.resultSet))
    ensures result.hints.Some? && result.hints.value.ttl.Some? && result.encodedLength.Some?
    ensures var e := EntryOf(key, token, result, receipt);
            Sound(key, e) && e.bytes == EntryBytes(key, result.encodedLength.value) <= s.maxBytes
            && e.generation == token && e.result == result && e.receipt == receipt
  {
    hide EntryBytes;
  }

  lemma EvictsMakesRoom(entries: map<Key, Entry>, capacity: nat, budget: nat, victims: set<Key>)
    requires Evicts(entries, capacity, budget, victims)
    ensures |entries - victims| < capacity && Total(entries - victims) <= budget
  {
    hide Total;
  }

  lemma EntryAddedInv(s: CacheState, kept: map<Key, Entry>, key: Key, e: Entry)
    requires CacheInv(s) && s.enabled && key !in kept
    requires forall k | k in kept :: k in s.entries && kept[k] == s.entries[k]
    requires |kept| < s.capacity && Total(kept) <= SatSub(s.maxBytes, e.bytes)
    requires Sound(key, e) && e.bytes <= s.maxBytes && e.generation == Current(s, ClassOf(key.resultSet))
    ensures CacheInv(s.(entries := kept[key := e], retainedBytes := Total(kept[key := e])))
  {
    hide Total, Sound, EntriesOk;
    TotalUpdate(kept, key, e);
    assert kept[key := e].Keys == kept.Keys + {key};
    EntriesKept(s, kept, key, e);
  }

  lemma EntriesKept(s: CacheState, kept: map<Key, Entry>, key: Key, e: Entry)
    requires EntriesOk(s, s.entries) && forall k | k in kept :: k in s.entries && kept[k] == s.entries[k]
    requires Sound(key, e) && e.bytes <= s.maxBytes && e.generation == Current(s, ClassOf(key.resultSet))
    ensures EntriesOk(s.(entries := kept[key := e], retainedBytes := Total(kept[key := e])), kept[key := e])
  {
    hide Total, Sound;
  }

  lemma CacheInvKept(s: CacheState, a: CacheAction)
    requires CacheInv(s) && CacheEnabled(s, a)
    ensures CacheInv(CacheApply(s, a))
  {
    hide Total, Evicts, EntryOf, VerdictOn, CacheInv, Inserted, Invalidated;
    match a
    case SetEnabled(enabled) => ToggledInv(s, enabled);
    case Clear => ClearedInv(s);
    case Begin(target) => IssuedInv(s, Current(s, ClassOf(target)));
    case Lookup(key, now) => RemovedInv(s, {key});
    case Insert(_, _, _, _, _, _) => InsertedInv(s, a);
    case Invalidate(target) => InvalidatedInv(s, target);
  }

  lemma ToggledInv(s: CacheState, enabled: bool)
    requires CacheInv(s)
    ensures CacheInv(Toggled(s, enabled))
  {
    hide Total, Sound, CacheInv, Cleared;
    if s.enabled != enabled {
      ClearedInv(s);
      ClearedIsEmpty(s);
      SwitchedInv(Cleared(s), enabled);
    } else {
      SwitchedInv(s, enabled);
    }
  }

  lemma ClearedIsEmpty(s: CacheState)
    ensures Cleared(s).entries == map[]
  {
  }

  lemma SwitchedInv(s: CacheState, enabled: bool)
    requires CacheInv(s) && (s.enabled == enabled || s.entries == map[])
    ensures CacheInv(s.(enabled := enabled && !s.exhausted))
  {
    hide Total, Sound;
  }

  lemma IssuedInv(s: CacheState, t: Generation)
    requires CacheInv(s)
    ensures CacheInv(s.(issued := s.issued + [t]))
  {
    hide Total, Sound;
  }
}
