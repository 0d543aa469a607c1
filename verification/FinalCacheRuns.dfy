/** The final-result cache over whole runs: which fetches may still store, and which answers it gives. */
module FinalCacheRuns {
  import opened Options
  import opened FinalCache

  /** What a cache is created with. */
  datatype Limits = Limits(capacity: nat, maxBytes: nat, lastInstant: nat)

  ghost function CacheAfter(l: Limits, trace: seq<CacheAction>): Option<CacheState> {
    if trace == [] then Some(Fresh(l.capacity, l.maxBytes, l.lastInstant))
    else
      var n := |trace| - 1;
      var before := CacheAfter(l, trace[..n]);
      if before.Some? && CacheEnabled(before.value, trace[n]) then Some(CacheApply(before.value, trace[n])) else None
  }

  ghost predicate IsCacheRun(l: Limits, trace: seq<CacheAction>) { CacheAfter(l, trace).Some? }

  lemma CacheStep(l: Limits, trace: seq<CacheAction>, a: CacheAction)
    requires IsCacheRun(l, trace) && CacheEnabled(CacheAfter(l, trace).value, a)
    ensures CacheAfter(l, trace + [a]) == Some(CacheApply(CacheAfter(l, trace).value, a))
  {
    hide CacheEnabled, CacheApply;
    assert (trace + [a])[..|trace|] == trace;
  }

  /** Byte accounting, limits, current entries and the empty disabled cache hold in every reachable state. */
  lemma {:induction false} CacheReachable(l: Limits, trace: seq<CacheAction>)
    requires IsCacheRun(l, trace)
    ensures CacheInv(CacheAfter(l, trace).value)
    decreases |trace|
  {
    hide CacheInv, CacheEnabled, CacheApply, Fresh;
    if trace == [] { FreshInv(l.capacity, l.maxBytes, l.lastInstant); }
    else {
      var n := |trace| - 1;
      CacheReachable(l, trace[..n]);
      CacheInvKept(CacheAfter(l, trace[..n]).value, trace[n]);
    }
  }

  lemma {:induction false} CachePrefix(l: Limits, trace: seq<CacheAction>, i: nat)
    requires IsCacheRun(l, trace) && i <= |trace|
    ensures IsCacheRun(l, trace[..i])
    decreases |trace|
  {
    hide CacheEnabled, CacheApply;
    if i == |trace| { assert trace[..i] == trace; }
    else {
      CachePrefix(l, trace[..|trace| - 1], i);
      assert trace[..|trace| - 1][..i] == trace[..i];
    }
  }

  /** The state before the `i`-th action. */
  ghost function CacheAt(l: Limits, trace: seq<CacheAction>, i: nat): CacheState
    requires IsCacheRun(l, trace) && i <= |trace|
  {
    hide CacheEnabled, CacheApply;
    CachePrefix(l, trace, i);
    CacheAfter(l, trace[..i]).value
  }

  lemma CacheStateInv(l: Limits, trace: seq<CacheAction>, i: nat)
    requires IsCacheRun(l, trace) && i <= |trace|
    ensures CacheInv(CacheAt(l, trace, i))
  {
    hide CacheInv, CacheEnabled, CacheApply;
    CachePrefix(l, trace, i);
    CacheReachable(l, trace[..i]);
  }

  lemma CacheStepAt(l: Limits, trace: seq<CacheAction>, i: nat)
    requires IsCacheRun(l, trace) && i < |trace|
    ensures CacheEnabled(CacheAt(l, trace, i), trace[i])
    ensures CacheAt(l, trace, i + 1) == CacheApply(CacheAt(l, trace, i), trace[i])
  {
    hide CacheInv, CacheEnabled, CacheApply;
    CachePrefix(l, trace, i + 1);
    assert trace[..i + 1][..i] == trace[..i];
  }

  // ----- Fencing -----

  /** Actions after which no fetch of class `c` begun before may store: a clear, a change of the enabled state, an
      invalidation of the class, and an invalidation that finds its counter saturated. */
  predicate Fence(s: CacheState, a: CacheAction, c: Class) {
    match a
    case Clear => true
    case SetEnabled(enabled) => s.enabled != enabled
    case Invalidate(target) => ClassOf(target) == c || Revision(s, ClassOf(target)) == U64_MAX
    case _ => false
  }

  /** The cache has moved past `t` and cannot come back to it. */
  predicate Beyond(s: CacheState, t: Generation) {
    s.exhausted || t.epoch < s.epoch || (t.epoch == s.epoch && t.revision < Revision(s, t.group))
  }

  lemma FenceMovesOn(s: CacheState, a: CacheAction, c: Class)
    requires CacheInv(s) && CacheEnabled(s, a) && Fence(s, a, c)
    ensures Beyond(CacheApply(s, a), Current(s, c))
  {
    hide Total, Sound;
  }

  lemma BeyondStays(s: CacheState, a: CacheAction, t: Generation)
    requires CacheInv(s) && CacheEnabled(s, a) && Beyond(s, t)
    ensures Beyond(CacheApply(s, a), t)
  {
    hide Total, Sound, Evicts, VerdictOn, EntryOf;
  }

  lemma UnfencedKeepsCurrent(s: CacheState, a: CacheAction, c: Class)
    requires CacheInv(s) && CacheEnabled(s, a) && !Fence(s, a, c)
    ensures Current(CacheApply(s, a), c) == Current(s, c)
  {
    hide Total, Sound, Evicts, VerdictOn, EntryOf;
  }

  lemma BeyondIsNotCurrent(s: CacheState, t: Generation)
    requires CacheInv(s) && s.enabled && Beyond(s, t)
    ensures t != Current(s, t.group)
  {
    hide Total, Sound;
  }

  ghost predicate FencedBetween(l: Limits, trace: seq<CacheAction>, i: nat, j: nat, c: Class)
    requires IsCacheRun(l, trace) && i <= j <= |trace|
  {
    exists m | i <= m < j :: Fence(CacheAt(l, trace, m), trace[m], c)
  }

  lemma {:induction false} TokenAfter(l: Limits, trace: seq<CacheAction>, i: nat, j: nat, c: Class)
    requires IsCacheRun(l, trace) && i <= j <= |trace|
    ensures var t := Current(CacheAt(l, trace, i), c);
            if FencedBetween(l, trace, i, j, c) then Beyond(CacheAt(l, trace, j), t)
            else Current(CacheAt(l, trace, j), c) == t
    decreases j
  {
    hide CacheInv, CacheEnabled, CacheApply, CacheAt, IsCacheRun, Fence, Beyond, Current;
    if i < j { CacheStateInv(l, trace, j - 1); }
    if i < j {
      var s := CacheAt(l, trace, j - 1);
      TokenAfter(l, trace, i, j - 1, c);
      CacheStepAt(l, trace, j - 1);
      var t := Current(CacheAt(l, trace, i), c);
      if FencedBetween(l, trace, i, j - 1, c) {
        var m :| i <= m < j - 1 && Fence(CacheAt(l, trace, m), trace[m], c);
        BeyondStays(s, trace[j - 1], t);
      } else if Fence(s, trace[j - 1], c) {
        FenceMovesOn(s, trace[j - 1], c);
      } else {
        UnfencedKeepsCurrent(s, trace[j - 1], c);
      }
    }
  }

  /** Generation fencing. A token captured before the `i`-th action is current before the `j`-th action of an enabled
      cache exactly when nothing in between fenced its class, however often counters saturated. */
  lemma TokenIsCurrentIffUnfenced(l: Limits, trace: seq<CacheAction>, i: nat, j: nat, c: Class)
    requires IsCacheRun(l, trace) && i <= j <= |trace| && CacheAt(l, trace, j).enabled
    ensures Current(CacheAt(l, trace, j), c) == Current(CacheAt(l, trace, i), c)
            <==> !FencedBetween(l, trace, i, j, c)
  {
    hide CacheInv, CacheAt, IsCacheRun, Fence, Beyond;
    CacheStateInv(l, trace, j);
    TokenAfter(l, trace, i, j, c);
    var t := Current(CacheAt(l, trace, i), c);
    if FencedBetween(l, trace, i, j, c) { BeyondIsNotCurrent(CacheAt(l, trace, j), t); }
  }

  /** Nothing that a fenced fetch brings is stored: its insertion changes nothing at all. */
  lemma FencedFetchStoresNothing(l: Limits, trace: seq<CacheAction>, i: nat, j: nat)
    requires IsCacheRun(l, trace) && i < j < |trace| && trace[i].Begin? && trace[j].Insert?
    requires trace[j].ticket == Some(|CacheAt(l, trace, i).issued|)
    requires FencedBetween(l, trace, i, j, ClassOf(trace[i].target))
    ensures CacheAt(l, trace, j + 1) == CacheAt(l, trace, j)
    ensures VerdictOn(CacheAt(l, trace, j), trace[j].key, trace[j].token, trace[j].result, trace[j].receipt)
            == InvalidatedDuringFetch
  {
    hide CacheInv, CacheAt, IsCacheRun, Fence, Beyond, CacheEnabled, CacheApply;
    CacheStateInv(l, trace, j);
    var c := ClassOf(trace[i].target);
    TokenAfter(l, trace, i, j, c);
    CacheStepAt(l, trace, i);
    BeginIssues(CacheAt(l, trace, i), trace[i].target);
    IssuedStay(l, trace, i + 1, j);
    CacheStepAt(l, trace, j);
    StaleInsertIsRefused(CacheAt(l, trace, j), trace[j], Current(CacheAt(l, trace, i), c));
  }

  lemma BeginIssues(s: CacheState, target: ResultSet)
    ensures CacheApply(s, Begin(target)).issued == s.issued + [Current(s, ClassOf(target))]
  {
  }

  lemma StaleInsertIsRefused(s: CacheState, a: CacheAction, t: Generation)
    requires CacheInv(s) && a.Insert? && CacheEnabled(s, a) && a.ticket.Some? && s.issued[a.ticket.value] == t
    requires Beyond(s, t)
    ensures VerdictOn(s, a.key, a.token, a.result, a.receipt) == InvalidatedDuringFetch && CacheApply(s, a) == s
  {
    hide Total, Sound, EntryOf, EntryBytes;
    if s.enabled { BeyondIsNotCurrent(s, t); }
  }

  lemma {:induction false} IssuedStay(l: Limits, trace: seq<CacheAction>, i: nat, j: nat)
    requires IsCacheRun(l, trace) && i <= j <= |trace|
    ensures CacheAt(l, trace, i).issued <= CacheAt(l, trace, j).issued
    decreases j
  {
    hide CacheInv, CacheAt, IsCacheRun, CacheEnabled, CacheApply;
    if i < j {
      IssuedStay(l, trace, i, j - 1);
      CacheStepAt(l, trace, j - 1);
      IssuedGrow(CacheAt(l, trace, j - 1), trace[j - 1]);
    }
  }

  lemma IssuedGrow(s: CacheState, a: CacheAction)
    requires CacheEnabled(s, a)
    ensures s.issued <= CacheApply(s, a).issued
  {
    hide Total, Evicts, VerdictOn, EntryOf;
  }

  /** A cache whose epoch is used up never stores anything again. */
  lemma {:induction false} ExhaustedForEver(l: Limits, trace: seq<CacheAction>, i: nat, j: nat)
    requires IsCacheRun(l, trace) && i <= j <= |trace| && CacheAt(l, trace, i).exhausted
    ensures var s := CacheAt(l, trace, j); s.exhausted && !s.enabled && s.entries == map[]
    decreases j
  {
    hide CacheAt, IsCacheRun, CacheEnabled, CacheApply, Total, Sound;
    CacheStateInv(l, trace, j);
    if i < j {
      ExhaustedForEver(l, trace, i, j - 1);
      CacheStepAt(l, trace, j - 1);
      ExhaustedStays(CacheAt(l, trace, j - 1), trace[j - 1]);
    }
  }

  lemma ExhaustedStays(s: CacheState, a: CacheAction)
    requires CacheEnabled(s, a) && s.exhausted
    ensures CacheApply(s, a).exhausted
  {
    hide Total, Evicts, VerdictOn, EntryOf;
  }

  // ----- The unbounded reference cache -----

  /** The fetch that took the given ticket begins with the `i`-th action. */
  ghost predicate BeganAt(l: Limits, trace: seq<CacheAction>, i: nat, ticket: nat)
    requires IsCacheRun(l, trace) && i < |trace|
  {
    trace[i].Begin? && |CacheAt(l, trace, i).issued| == ticket
  }

  /** The `j`-th action is an insertion, and nothing has fenced the class of its key since its fetch began, which was
      for that class. A token of another cache counts for what it says. */
  ghost predicate Unfenced(l: Limits, trace: seq<CacheAction>, j: nat)
    requires IsCacheRun(l, trace) && j < |trace|
  {
    trace[j].Insert?
    && var c := ClassOf(trace[j].key.resultSet);
       if trace[j].ticket.None? then trace[j].token == Current(CacheAt(l, trace, j), c)
       else exists i: nat | i < j ::
              BeganAt(l, trace, i, trace[j].ticket.value) && ClassOf(trace[i].target) == c
              && !FencedBetween(l, trace, i, j, c)
  }

  /** The token that a fetch was given is the current generation of its class when it began. */
  lemma TokenOfFetch(l: Limits, trace: seq<CacheAction>, i: nat, j: nat, ticket: nat)
    requires IsCacheRun(l, trace) && i < j <= |trace| && BeganAt(l, trace, i, ticket)
    ensures ticket < |CacheAt(l, trace, j).issued|
            && CacheAt(l, trace, j).issued[ticket] == Current(CacheAt(l, trace, i), ClassOf(trace[i].target))
  {
    hide CacheInv, CacheAt, IsCacheRun, CacheEnabled, CacheApply, Current;
    CacheStepAt(l, trace, i);
    BeginIssues(CacheAt(l, trace, i), trace[i].target);
    IssuedStay(l, trace, i + 1, j);
  }

  /** Every ticket was taken by a fetch. */
  lemma {:induction false} TicketOfFetch(l: Limits, trace: seq<CacheAction>, j: nat, ticket: nat) returns (i: nat)
    requires IsCacheRun(l, trace) && j <= |trace| && ticket < |CacheAt(l, trace, j).issued|
    ensures i < j && BeganAt(l, trace, i, ticket)
    decreases j
  {
    hide CacheInv, CacheAt, IsCacheRun, CacheEnabled, CacheApply;
    NoTicketYet(l, trace);
    i := j - 1;
    CacheStepAt(l, trace, i);
    OneTicket(CacheAt(l, trace, i), trace[i]);
    if ticket < |CacheAt(l, trace, i).issued| { i := TicketOfFetch(l, trace, i, ticket); }
  }

  lemma NoTicketYet(l: Limits, trace: seq<CacheAction>)
    requires IsCacheRun(l, trace)
    ensures CacheAt(l, trace, 0).issued == []
  {
    hide CacheEnabled, CacheApply;
    assert trace[..0] == [];
  }

  lemma OneTicket(s: CacheState, a: CacheAction)
    requires CacheEnabled(s, a)
    ensures |CacheApply(s, a).issued| == if a.Begin? then |s.issued| + 1 else |s.issued|
  {
    hide Total, Evicts, VerdictOn, EntryOf;
  }

  /** What the cache decides by comparing generations is what a reader of the run decides by looking for fences. */
  lemma UnfencedIffCurrent(l: Limits, trace: seq<CacheAction>, j: nat)
    requires IsCacheRun(l, trace) && j < |trace| && trace[j].Insert? && CacheAt(l, trace, j).enabled
    ensures Unfenced(l, trace, j)
            <==> trace[j].token == Current(CacheAt(l, trace, j), ClassOf(trace[j].key.resultSet))
  {
    hide CacheInv, CacheAt, IsCacheRun, CacheApply, FencedBetween, VerdictOn, Evicts, EntryBytes;
    CacheStepAt(l, trace, j);
    if trace[j].ticket.Some? {
      var ticket, c := trace[j].ticket.value, ClassOf(trace[j].key.resultSet);
      if Unfenced(l, trace, j) {
        var i: nat :| i < j && BeganAt(l, trace, i, ticket) && ClassOf(trace[i].target) == c
                      && !FencedBetween(l, trace, i, j, c);
        TokenOfFetch(l, trace, i, j, ticket);
        TokenIsCurrentIffUnfenced(l, trace, i, j, c);
      }
      if trace[j].token == Current(CacheAt(l, trace, j), c) {
        var i := TicketOfFetch(l, trace, j, ticket);
        TokenOfFetch(l, trace, i, j, ticket);
        TokenIsCurrentIffUnfenced(l, trace, i, j, c);
      }
    }
  }

  /** The reference keeps the last cacheable result of each key that a fetch brought unfenced, whatever its size, until
      its class is fenced. It knows no generations. */
  datatype Kept = Kept(result: CoreResult, receipt: nat)
  type Reference = map<Key, Kept>

  /** The result may be cached at all: it has hints, lives for a while within the clock, and can be encoded. */
  predicate Cacheable(lastInstant: nat, result: CoreResult, receipt: nat) {
    && result.hints.Some? && result.hints.value.ttl.Some? && result.hints.value.ttl.value > 0
    && receipt + result.hints.value.ttl.value * NANOS_PER_MILLI <= lastInstant
    && result.encodedLength.Some?
  }

  predicate AllCacheable(lastInstant: nat, u: Reference) {
    forall k | k in u :: Cacheable(lastInstant, u[k].result, u[k].receipt)
  }

  ghost function ReferenceApply(s: CacheState, u: Reference, a: CacheAction, unfenced: bool): Reference {
    match a
    case Clear => map[]
    case SetEnabled(enabled) => if s.enabled != enabled then map[] else u
    case Invalidate(target) => u - (set k | k in u && Fence(s, a, ClassOf(k.resultSet)))
    case Insert(key, _, _, result, receipt, _) =>
      if s.enabled && unfenced && Cacheable(s.lastInstant, result, receipt) then u[key := Kept(result, receipt)] else u
    case _ => u
  }

  ghost function ReferenceAt(l: Limits, trace: seq<CacheAction>, i: nat): Reference
    requires IsCacheRun(l, trace) && i <= |trace|
  {
    if i == 0 then map[]
    else
      ReferenceApply(CacheAt(l, trace, i - 1), ReferenceAt(l, trace, i - 1), trace[i - 1], Unfenced(l, trace, i - 1))
  }

  function ExpiryOf(e: Kept): nat
    requires e.result.hints.Some? && e.result.hints.value.ttl.Some?
  {
    e.receipt + e.result.hints.value.ttl.value * NANOS_PER_MILLI
  }

  /** The size that the result has under its key. */
  function BytesOf(key: Key, e: Kept): nat
    requires e.result.encodedLength.Some?
  {
    EntryBytes(key, e.result.encodedLength.value)
  }

  function ReferenceAnswer(lastInstant: nat, u: Reference, key: Key, now: nat): Option<CoreResult>
    requires AllCacheable(lastInstant, u)
  {
    if key in u && now < ExpiryOf(u[key]) then Some(u[key].result) else None
  }

  /** `lookup_page_at` */
  datatype Miss = Disabled | Absent | Stale | InvalidatedMiss
  datatype Answer = FreshPage(result: CoreResult, generation: Generation, scope: Scope) | Missed(miss: Miss)

  function AnswerTo(s: CacheState, key: Key, now: nat): Answer {
    if !s.enabled then Missed(Disabled)
    else if key !in s.entries then Missed(Absent)
    else if s.entries[key].generation != Current(s, ClassOf(key.resultSet)) then Missed(InvalidatedMiss)
    else if now >= s.entries[key].expiresAt then Missed(Stale)
    else FreshPage(s.entries[key].result, s.entries[key].generation, s.entries[key].scope)
  }

  /** Every retained entry is the reference's, unless the reference has since taken a result too large to retain. */
  ghost predicate Refines(s: CacheState, u: Reference) {
    && AllCacheable(s.lastInstant, u)
    && (forall k | k in s.entries ::
          k in u && (BytesOf(k, u[k]) <= s.maxBytes ==> u[k] == Kept(s.entries[k].result, s.entries[k].receipt)))
  }

  lemma RefinesInsert(s: CacheState, u: Reference, a: CacheAction, unfenced: bool)
    requires CacheInv(s) && Refines(s, u) && a.Insert? && CacheEnabled(s, a)
    requires s.enabled ==> (unfenced <==> a.token == Current(s, ClassOf(a.key.resultSet)))
    ensures Refines(CacheApply(s, a), ReferenceApply(s, u, a, unfenced))
  {
    hide Total, Evicts, EntryBytes, Sound, EntryOf, CacheInv, Admissible, Cacheable;
    AdmissibleIffCacheable(s, a.key, a.token, a.result, a.receipt);
    CacheableParts(s.lastInstant, a.result, a.receipt);
    if Admissible(s, a.key, a.token, a.result, a.receipt) == Stored {
      AdmissibleEntry(s, a.key, a.token, a.result, a.receipt);
    }
    ReferenceCacheable(s, u, a, unfenced);
  }

  lemma AdmissibleIffCacheable(s: CacheState, key: Key, token: Generation, result: CoreResult, receipt: nat)
    ensures Admissible(s, key, token, result, receipt) == Stored
            <==> s.enabled && token == Current(s, ClassOf(key.resultSet)) && Cacheable(s.lastInstant, result, receipt)
  {
  }

  lemma CacheableParts(lastInstant: nat, result: CoreResult, receipt: nat)
    ensures Cacheable(lastInstant, result, receipt) ==>
              result.hints.Some? && result.hints.value.ttl.Some? && result.encodedLength.Some?
  {
  }

  lemma ReferenceCacheable(s: CacheState, u: Reference, a: CacheAction, unfenced: bool)
    requires AllCacheable(s.lastInstant, u)
    ensures AllCacheable(s.lastInstant, ReferenceApply(s, u, a, unfenced))
  {
    hide Cacheable, Fence;
  }

  lemma AdmissibleEntry(s: CacheState, key: Key, token: Generation, result: CoreResult, receipt: nat)
    requires Admissible(s, key, token, result, receipt) == Stored
    ensures result.hints.Some? && result.hints.value.ttl.Some? && result.encodedLength.Some?
    ensures var e := EntryOf(key, token, result, receipt);
            e.result == result && e.receipt == receipt && e.bytes == EntryBytes(key, result.encodedLength.value)
  {
    hide EntryBytes;
  }

  lemma RefinesFence(s: CacheState, u: Reference, a: CacheAction)
    requires CacheInv(s) && Refines(s, u) && (a.Clear? || a.SetEnabled? || a.Invalidate?)
    ensures Refines(CacheApply(s, a), ReferenceApply(s, u, a, false))
  {
    hide Total, Sound, CacheInv, Cacheable, EntryBytes;
    if a.SetEnabled? { DisabledIsEmpty(s); }
    ReferenceCacheable(s, u, a, false);
  }

  lemma DisabledIsEmpty(s: CacheState)
    requires CacheInv(s)
    ensures !s.enabled ==> s.entries == map[]
  {
    hide Total, Sound;
  }

  lemma RefinesRest(s: CacheState, u: Reference, a: CacheAction)
    requires CacheInv(s) && Refines(s, u) && (a.Begin? || a.Lookup?)
    ensures Refines(CacheApply(s, a), ReferenceApply(s, u, a, false))
  {
    hide Total, Sound, Cacheable, EntryBytes;
  }

  lemma {:induction false} CacheRefines(l: Limits, trace: seq<CacheAction>, i: nat)
    requires IsCacheRun(l, trace) && i <= |trace|
    ensures Refines(CacheAt(l, trace, i), ReferenceAt(l, trace, i))
  {
    hide CacheInv, CacheEnabled, CacheApply, ReferenceApply, Refines, CacheAt, IsCacheRun, Unfenced;
    if i > 0 { CacheStateInv(l, trace, i - 1); }
    if i == 0 { StartRefines(l, trace); }
    else {
      CacheRefines(l, trace, i - 1);
      CacheStepAt(l, trace, i - 1);
      var s, u, a := CacheAt(l, trace, i - 1), ReferenceAt(l, trace, i - 1), trace[i - 1];
      if a.Insert? {
        if s.enabled { UnfencedIffCurrent(l, trace, i - 1); }
        RefinesInsert(s, u, a, Unfenced(l, trace, i - 1));
      } else {
        OnlyInsertsAsk(s, u, a, Unfenced(l, trace, i - 1));
        if a.Begin? || a.Lookup? { RefinesRest(s, u, a); } else { RefinesFence(s, u, a); }
      }
    }
  }

  lemma OnlyInsertsAsk(s: CacheState, u: Reference, a: CacheAction, unfenced: bool)
    requires !a.Insert?
    ensures ReferenceApply(s, u, a, unfenced) == ReferenceApply(s, u, a, false)
  {
    hide Fence;
  }

  lemma StartRefines(l: Limits, trace: seq<CacheAction>)
    requires IsCacheRun(l, trace)
    ensures Refines(CacheAt(l, trace, 0), map[])
  {
    hide CacheInv, CacheEnabled, CacheApply;
    assert trace[..0] == [];
  }

  /** Refinement: whatever the cache answers as fresh is what the unbounded reference answers, exactly when the last
      cacheable result of that key was within the byte budget. The miss for an outdated generation never happens. */
  lemma FreshAnswerIsReferenceAnswer(l: Limits, trace: seq<CacheAction>, i: nat, key: Key, now: nat)
    requires IsCacheRun(l, trace) && i <= |trace|
    ensures var s, u := CacheAt(l, trace, i), ReferenceAt(l, trace, i);
            AllCacheable(s.lastInstant, u)
            && AnswerTo(s, key, now) != Missed(InvalidatedMiss)
            && (AnswerTo(s, key, now).FreshPage? ==>
                  key in u
                  && (ReferenceAnswer(s.lastInstant, u, key, now) == Some(AnswerTo(s, key, now).result)
                      <==> BytesOf(key, u[key]) <= s.maxBytes))
  {
    hide CacheAt, IsCacheRun, Total, EntryBytes, ReferenceAt;
    CacheStateInv(l, trace, i);
    CacheRefines(l, trace, i);
    var s, u := CacheAt(l, trace, i), ReferenceAt(l, trace, i);
    if key in s.entries { assert Sound(key, s.entries[key]); }
  }

  // ----- Where the unconditional statement fails -----

  const SMALL_KEY := Key("", "", "", "", "", "", None, 0, 0, 0, 0, "", Tools)

  function PageOf(encodedLength: nat): CoreResult { CoreResult("", Some(Hints(Some(1), Public)), Some(encodedLength)) }

  const SMALL_TOKEN := Generation(0, 0, ToolsClass)

  /** A cache of 100 bytes after one fetch has begun. */
  const FETCHING := Fresh(1, 100, NANOS_PER_MILLI).(issued := [SMALL_TOKEN])

  const FILL := Insert(SMALL_KEY, SMALL_TOKEN, Some(0), PageOf(10), 0, {})
  const REFILL := Insert(SMALL_KEY, SMALL_TOKEN, Some(0), PageOf(1000), 0, {})

  lemma SmallSizes()
    ensures EntryBytes(SMALL_KEY, 10) == 43 && EntryBytes(SMALL_KEY, 1000) == 1033
  {
  }

  lemma FillStores()
    ensures CacheEnabled(FETCHING, FILL)
    ensures var s := CacheApply(FETCHING, FILL);
            s == FETCHING.(entries := s.entries, retainedBytes := s.retainedBytes)
            && SMALL_KEY in s.entries && s.entries[SMALL_KEY] == EntryOf(SMALL_KEY, SMALL_TOKEN, PageOf(10), 0)
  {
    hide EntryBytes;
    SmallSizes();
    assert FETCHING.entries - {SMALL_KEY} - {} == map[];
    assert Evicts(FETCHING.entries - {SMALL_KEY}, 1, 57, {});
  }

  lemma RefillIsRefused(s: CacheState)
    requires s == FETCHING.(entries := s.entries, retainedBytes := s.retainedBytes)
    ensures CacheEnabled(s, REFILL) && CacheApply(s, REFILL) == s
    ensures Admissible(s, SMALL_KEY, SMALL_TOKEN, PageOf(1000), 0) == Stored
  {
    hide EntryBytes, Total;
    SmallSizes();
  }

  /** A refill that is too large is refused and leaves the older result in place, which is then still answered. */
  lemma OversizedRefillKeepsOlder() returns (l: Limits, trace: seq<CacheAction>)
    ensures IsCacheRun(l, trace)
    ensures var s, u := CacheAt(l, trace, |trace|), ReferenceAt(l, trace, |trace|);
            AnswerTo(s, SMALL_KEY, 0).FreshPage? && AnswerTo(s, SMALL_KEY, 0).result == PageOf(10)
            && AllCacheable(s.lastInstant, u)
            && ReferenceAnswer(s.lastInstant, u, SMALL_KEY, 0) == Some(PageOf(1000))
  {
    hide CacheInv, CacheAfter, CacheAt, CacheEnabled, CacheApply, EntryBytes, ReferenceAt, ReferenceApply;
    l, trace := Limits(1, 100, NANOS_PER_MILLI), [Begin(Tools), FILL, REFILL];
    EmptyRun(l);
    FillStores();
    var s := CacheApply(FETCHING, FILL);
    RefillIsRefused(s);
    BeginFetches();
    assert [] + [Begin(Tools)] == trace[..1] && trace[..1] + [FILL] == trace[..2];
    assert trace[..2] + [REFILL] == trace[..3];
    CacheStep(l, [], Begin(Tools));
    CacheStep(l, trace[..1], FILL);
    CacheStep(l, trace[..2], REFILL);
    assert trace == trace[..3];
    StatesAlong(l, trace);
    ReferenceRefilled(l, trace, s);
  }

  lemma BeginFetches()
    ensures CacheEnabled(Fresh(1, 100, NANOS_PER_MILLI), Begin(Tools))
    ensures CacheApply(Fresh(1, 100, NANOS_PER_MILLI), Begin(Tools)) == FETCHING
  {
  }

  lemma ReferenceRefilled(l: Limits, trace: seq<CacheAction>, s: CacheState)
    requires IsCacheRun(l, trace) && |trace| == 3 && trace[2] == REFILL && CacheAt(l, trace, 2) == s
    requires s == FETCHING.(entries := s.entries, retainedBytes := s.retainedBytes)
    ensures var u := ReferenceAt(l, trace, 3);
            AllCacheable(s.lastInstant, u) && ReferenceAnswer(s.lastInstant, u, SMALL_KEY, 0) == Some(PageOf(1000))
  {
    hide CacheInv, CacheAfter, CacheAt, CacheApply, CacheEnabled, EntryBytes, Unfenced, AllCacheable;
    RefillIsRefused(s);
    UnfencedIffCurrent(l, trace, 2);
    CacheRefines(l, trace, 2);
    RefinedIsCacheable(s, ReferenceAt(l, trace, 2));
    ReferenceCacheable(s, ReferenceAt(l, trace, 2), trace[2], Unfenced(l, trace, 2));
  }

  lemma RefinedIsCacheable(s: CacheState, u: Reference)
    requires Refines(s, u)
    ensures AllCacheable(s.lastInstant, u)
  {
  }

  lemma EmptyRun(l: Limits)
    ensures CacheAfter(l, []) == Some(Fresh(l.capacity, l.maxBytes, l.lastInstant))
  {
  }

  lemma StatesAlong(l: Limits, trace: seq<CacheAction>)
    requires IsCacheRun(l, trace)
    ensures forall i | 0 <= i <= |trace| ::
              IsCacheRun(l, trace[..i]) && CacheAt(l, trace, i) == CacheAfter(l, trace[..i]).value
  {
    hide CacheInv, CacheAfter;
    forall i | 0 <= i <= |trace| ensures IsCacheRun(l, trace[..i]) { CachePrefix(l, trace, i); }
  }
}
