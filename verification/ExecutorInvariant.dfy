/** What every action of the protocol keeps. The invariant is split into parts so that each action is
    checked against one part at a time. */
module ExecutorInvariant {
  import opened Options
  import opened Correlation
  import opened ReverseProtocol
  import opened ExecutorProtocol

  /** Who owns what: each admitted generation is either pending under its key or retired, never both. */
  ghost predicate Ownership(cfg: Config, s: State) {
    var h := s.history;
    && (forall k | k in s.pending ::
          var o := s.pending[k];
          && cfg.keyOf(o.id) == Some(k)
          && o.generation in h.admitted
          && h.admitted[o.generation].key == k
          && h.admitted[o.generation].id == o.id
          && h.admitted[o.generation].rpc == o.rpc
          && h.admitted[o.generation].absolute == o.absolute
          && o.generation !in h.retired)
    && (forall g | g in h.admitted ::
          0 < g <= s.nextGeneration && h.admitted[g].at <= s.clock
          && (g in h.retired || (h.admitted[g].key in s.pending && s.pending[h.admitted[g].key].generation == g)))
    && (forall g | g in h.retired :: g in h.admitted && h.retired[g].at <= s.clock)
    && (forall g | g in h.sent :: 0 < g <= s.nextGeneration)
  }

  /** Terminal outcomes: the three maps have the same slots, each of a retired generation not yet handed out and with
      the outcome of its retirement. */
  ghost predicate Terminals(s: State) {
    && s.completed.Keys == s.records.Keys == s.expirations.Keys
    && (forall x | x in s.completed ::
          x.1 in s.history.retired && x.1 in s.history.admitted && s.history.admitted[x.1].id == x.0
          && s.history.handed[x.1] == 0 && s.history.retired[x.1].outcome == Some(s.completed[x]))
    && (forall g :: s.history.handed[g] <= 1)
    && (forall g | s.history.handed[g] > 0 :: g in s.history.retired)
  }

  /** Tombstones: none over a live owner, each of a retired generation of its key. While the connection lives,
      a fenced generation keeps its tombstone until the retention has passed. */
  ghost predicate Fences(cfg: Config, s: State) {
    var h := s.history;
    && (forall k | k in s.tombstones ::
          k !in s.pending
          && s.tombstones[k].generation in h.retired && s.tombstones[k].generation in h.admitted
          && h.admitted[s.tombstones[k].generation].key == k)
    && (forall g | g in h.retired && h.retired[g].fenced ::
          g in h.admitted
          && (s.terminalError.Some? || h.retired[g].at + cfg.retention <= s.clock
              || Guarded(cfg, s, g)))
    && (forall g | g in h.retired && !h.retired[g].fenced :: !Fits(cfg, h.retired[g].at, cfg.retention))
  }

  ghost predicate Guarded(cfg: Config, s: State, g: nat)
    requires g in s.history.retired && g in s.history.admitted
  {
    var k := s.history.admitted[g].key;
    k in s.tombstones && s.tombstones[k].generation == g
    && s.tombstones[k].expiresAt == s.history.retired[g].at + cfg.retention
  }

  /** Two generations of one key: the earlier one is retired, and its retention had passed before the later began. */
  ghost predicate Spaced(cfg: Config, s: State, g: nat, g': nat)
    requires g in s.history.admitted && g' in s.history.admitted
  {
    s.history.admitted[g].key == s.history.admitted[g'].key && g < g' ==>
      g in s.history.retired
      && (s.history.retired[g].fenced ==>
            s.history.retired[g].at + cfg.retention <= s.history.admitted[g'].at)
  }

  ghost predicate Spacing(cfg: Config, s: State) {
    forall g, g' | g in s.history.admitted && g' in s.history.admitted :: Spaced(cfg, s, g, g')
  }

  /** Cancellation notices: at most one for a generation, and none that the protocol forbids. */
  ghost predicate Wire(s: State) {
    var h := s.history;
    && (forall g :: h.cancels[g] <= 1)
    && (forall g | h.cancels[g] > 0 :: MayCancel(h, g))
    && (forall i | 0 <= i < |s.deferred| ::
          s.deferred[i] !in s.records
          && MayCancel(h, s.deferred[i].1) && h.admitted[s.deferred[i].1].id == s.deferred[i].0
          && h.cancels[s.deferred[i].1] == 0)
    && (forall i, j | 0 <= i < j < |s.deferred| :: s.deferred[i].1 != s.deferred[j].1)
  }

  ghost predicate MayCancel(h: History, g: nat) {
    g in h.retired && IsCancelReason(h.retired[g].reason) && g in h.admitted && h.admitted[g].rpc != Initialize
  }

  /** The limits that really hold, and what a failed connection leaves behind. */
  ghost predicate Bounds(cfg: Config, s: State) {
    && |s.pending| <= cfg.maxInFlight
    && |s.pending| + |s.tombstones| <= cfg.maxCorrelations
    && |s.pending| + |s.completed| <= cfg.maxCorrelations
    && (s.terminalError.Some? ==> s.pending == map[] && s.deferred == [])
  }

  /** Streams of progress values: bounded, strictly increasing, and below the last accepted value of a live owner. */
  ghost predicate Streams(s: State) {
    && (forall x | x in s.streams ::
          x.1 in s.history.admitted && |s.streams[x]| <= MAX_PEER_ACTIVITY && Increasing(s.streams[x]))
    && (forall k | k in s.pending && SlotOf(s.pending[k]) in s.streams ::
          BelowLast(s.streams[SlotOf(s.pending[k])], s.pending[k].lastProgress))
  }

  ghost predicate Increasing(values: seq<real>) {
    forall i, j | 0 <= i < j < |values| :: values[i] < values[j]
  }

  ghost predicate BelowLast(values: seq<real>, last: Option<real>) {
    values != [] ==> last.Some? && values[|values| - 1] <= last.value
  }

  /** Requests of the peer: their own invariant, and none is active once the connection has failed. */
  ghost predicate Callbacks(cfg: Config, s: State) {
    ReverseInv(cfg.keyOf, s.reverse) && (s.terminalError.Some? ==> s.reverse.active == map[])
  }

  /** Requests sent: one for each generation so far. A generation got an owner exactly when the transport took the
      request and both its deadlines fit the clock; nothing later was sent under the key of a pending owner. */
  ghost predicate Sends(cfg: Config, s: State) {
    var h := s.history;
    && (forall g: nat | 0 < g <= s.nextGeneration :: g in h.sent)
    && (forall g | g in h.sent ::
          (g in h.admitted <==> h.sent[g].taken && Lasts(cfg, h.sent[g].order, h.sent[g].at))
          && cfg.keyOf(h.sent[g].order.id) == Some(h.sent[g].key)
          && (g in h.admitted ==> h.admitted[g].key == h.sent[g].key && h.admitted[g].id == h.sent[g].order.id)
          && (h.sent[g].key in s.pending ==> g <= s.pending[h.sent[g].key].generation))
  }

  /** What waiters can still get: the outcome of every retirement is kept until it was handed out, its handle was
      dropped, or its time was over. Owners marked as dropped have lost their handle. */
  ghost predicate Kept(cfg: Config, s: State) {
    var h := s.history;
    && (forall k | k in s.pending && s.pending[k].dropped :: s.pending[k].generation in h.gone)
    && (forall x | x in s.expirations && x.1 in h.retired ::
          h.retired[x.1].at + TERMINAL_RETENTION <= s.expirations[x] || !Fits(cfg, s.clock, TERMINAL_RETENTION))
    && (forall g | g in h.retired && h.retired[g].outcome.Some? :: KeptOrSpent(cfg, s, g))
  }

  ghost predicate KeptOrSpent(cfg: Config, s: State, g: nat)
    requires g in s.history.retired
  {
    var h := s.history;
    g in h.admitted
    && ((h.admitted[g].id, g) in s.completed || h.handed[g] > 0 || g in h.gone || Late(cfg, s, g))
  }

  /** The retention of an outcome has passed, or no longer fits the clock. */
  ghost predicate Late(cfg: Config, s: State, g: nat)
    requires g in s.history.retired
  {
    s.history.retired[g].at + TERMINAL_RETENTION <= s.clock || !Fits(cfg, s.clock, TERMINAL_RETENTION)
  }

  ghost predicate Inv(cfg: Config, s: State) {
    && Sends(cfg, s) && Ownership(cfg, s) && Terminals(s) && Fences(cfg, s) && Spacing(cfg, s) && Wire(s)
    && Bounds(cfg, s) && Streams(s) && Callbacks(cfg, s) && Kept(cfg, s)
  }

  lemma InitialInv(cfg: Config)
    ensures Inv(cfg, INITIAL)
  {
  }

  // ----- Counting -----

  lemma RemovedOne<K, V>(m: map<K, V>, k: K)
    requires k in m
    ensures |m - {k}| == |m| - 1
  {
    assert (m - {k}).Keys == m.Keys - {k};
  }

  lemma UpdatedOne<K, V>(m: map<K, V>, k: K, v: V)
    ensures |m[k := v]| == if k in m then |m| else |m| + 1
  {
    assert m[k := v].Keys == m.Keys + {k};
  }

  lemma {:induction false} SubsetSize<K>(a: set<K>, b: set<K>)
    requires a <= b
    ensures |a| <= |b|
  {
    assert b == a + (b - a);
  }

  lemma MergedSize<K, V>(m: map<K, V>, n: map<K, V>)
    ensures |m + n| <= |m| + |n|
  {
    assert (m + n).Keys == m.Keys + n.Keys;
    assert |m.Keys + n.Keys| <= |m.Keys| + |n.Keys|;
  }

  /** There are at most as many slots as owners. */
  lemma {:induction false} SlotCount(pending: map<CorrelationKey, Owner>)
    ensures |PendingSlots(pending)| <= |pending|
    decreases |pending|
  {
    if pending != map[] {
      var k :| k in pending;
      var rest := pending - {k};
      RemovedOne(pending, k);
      SlotCount(rest);
      forall x | x in PendingSlots(pending) ensures x in PendingSlots(rest) + {SlotOf(pending[k])} {
        var j :| j in pending && x == SlotOf(pending[j]);
        if j != k { assert j in rest && SlotOf(rest[j]) == x; }
      }
      SubsetSize(PendingSlots(pending), PendingSlots(rest) + {SlotOf(pending[k])});
    }
  }

  /** Later histories know at least as much. */
  ghost predicate Extends(h: History, h': History) {
    && (forall g | g in h.sent :: g in h'.sent && h'.sent[g] == h.sent[g])
    && (forall g | g in h.admitted :: g in h'.admitted && h'.admitted[g] == h.admitted[g])
    && (forall g | g in h.retired :: g in h'.retired && h'.retired[g] == h.retired[g])
    && h.gone <= h'.gone
  }

  lemma HistoryExtends(cfg: Config, s: State, a: Action)
    requires Ownership(cfg, s) && Enabled(cfg, s, a)
    ensures Extends(s.history, Apply(cfg, s, a).history)
  {
    hide Ownership, Enabled, Apply, Extends;
    if a.FailAll? { FailAllExtends(cfg, s, a); }
    else if a.SendOwned? || a.SendUnowned? || a.Retire? || a.Lose? || a.DropOwner? { MoveExtends(cfg, s, a); }
    else { RestExtends(cfg, s, a); }
  }

  lemma MoveExtends(cfg: Config, s: State, a: Action)
    requires Ownership(cfg, s) && Enabled(cfg, s, a)
    requires a.SendOwned? || a.SendUnowned? || a.Retire? || a.Lose? || a.DropOwner?
    ensures Extends(s.history, Apply(cfg, s, a).history)
  {
    hide Ownership, CanAdmit, OutcomeOf, RecordOf, ReasonOf, TerminalExpiry, IsCancelReason, OwnerFor;
    LiveUnretired(cfg, s);
    NextIsNew(cfg, s);
  }

  lemma RestExtends(cfg: Config, s: State, a: Action)
    requires Enabled(cfg, s, a) && !a.FailAll? && !a.SendOwned? && !a.SendUnowned? && !a.Retire? && !a.Lose?
    requires !a.DropOwner?
    ensures Extends(s.history, Apply(cfg, s, a).history)
  {
    hide Enabled, Apply;
    if a.FlushDeferred? || a.HandOut? || a.MarkDropped? || a.Release? { CountingExtends(cfg, s, a); }
    else { HistoryUntouched(cfg, s, a); }
  }

  lemma CountingExtends(cfg: Config, s: State, a: Action)
    requires Enabled(cfg, s, a) && (a.FlushDeferred? || a.HandOut? || a.MarkDropped? || a.Release?)
    ensures Extends(s.history, Apply(cfg, s, a).history)
  {
    hide StreamOf;
  }

  lemma HistoryUntouched(cfg: Config, s: State, a: Action)
    requires Enabled(cfg, s, a) && !a.FailAll? && !a.SendOwned? && !a.SendUnowned? && !a.Retire? && !a.Lose?
    requires !a.DropOwner? && !a.FlushDeferred? && !a.HandOut? && !a.MarkDropped? && !a.Release?
    ensures Apply(cfg, s, a).history == s.history
  {
    hide UniqueMarker, MayReverse, ReverseApply, IdleAfterProgress, StreamOf, Expired, Fits;
  }

  lemma NextIsNew(cfg: Config, s: State)
    requires Ownership(cfg, s)
    ensures var g := s.nextGeneration + 1; g !in s.history.sent && g !in s.history.admitted && g !in s.history.retired
  {
  }

  lemma LiveUnretired(cfg: Config, s: State)
    requires Ownership(cfg, s)
    ensures forall k | k in s.pending ::
              s.pending[k].generation !in s.history.retired && s.pending[k].generation in s.history.admitted
              && s.history.admitted[s.pending[k].generation].rpc == s.pending[k].rpc
              && s.history.admitted[s.pending[k].generation].id == s.pending[k].id
  {
  }

  lemma FailAllExtends(cfg: Config, s: State, a: Action)
    requires Ownership(cfg, s) && a.FailAll? && Enabled(cfg, s, a)
    ensures Extends(s.history, Apply(cfg, s, a).history)
  {
    hide Ownership;
    LiveUnretired(cfg, s);
  }

  lemma PendingUnretired(cfg: Config, s: State)
    requires Ownership(cfg, s)
    ensures forall x | x in PendingSlots(s.pending) ::
              x.1 !in s.history.retired && x.1 in s.history.admitted && s.history.admitted[x.1].id == x.0
  {
  }

  // ----- Ownership -----

  lemma OwnershipFrame(cfg: Config, s: State, s': State)
    requires Ownership(cfg, s)
    requires s'.pending == s.pending && s'.history.admitted == s.history.admitted
    requires s'.history.retired == s.history.retired
    requires s.clock <= s'.clock && s.nextGeneration <= s'.nextGeneration
    requires forall g | g in s'.history.sent :: 0 < g <= s'.nextGeneration
    ensures Ownership(cfg, s')
  {
  }

  lemma OwnershipLeave(cfg: Config, s: State, s': State, key: CorrelationKey)
    requires Ownership(cfg, s) && key in s.pending
    requires s'.pending == s.pending - {key} && s'.history.admitted == s.history.admitted
    requires s'.history.sent == s.history.sent
    requires var g := s.pending[key].generation;
             g in s'.history.retired && s'.history.retired == s.history.retired[g := s'.history.retired[g]]
             && s'.history.retired[g].at <= s'.clock
    requires s.clock <= s'.clock && s.nextGeneration <= s'.nextGeneration
    ensures Ownership(cfg, s')
  {
  }

  lemma OwnershipTouch(cfg: Config, s: State, s': State, key: CorrelationKey)
    requires Ownership(cfg, s) && key in s.pending && key in s'.pending
    requires s'.pending == s.pending[key := s'.pending[key]]
    requires var o, o' := s.pending[key], s'.pending[key];
             o'.id == o.id && o'.generation == o.generation && o'.rpc == o.rpc && o'.absolute == o.absolute
    requires s'.history == s.history.(gone := s'.history.gone)
    requires s'.clock == s.clock && s'.nextGeneration == s.nextGeneration
    ensures Ownership(cfg, s')
  {
  }

  lemma OwnershipEnter(cfg: Config, s: State, key: CorrelationKey, order: Order, at: nat)
    requires Ownership(cfg, s) && key !in s.pending && cfg.keyOf(order.id) == Some(key) && s.clock <= at
    ensures Ownership(cfg, ApplyOwn(s, key, order, at))
  {
    var s' := ApplyOwn(s, key, order, at);
    forall k | k in s.pending ensures k in s'.pending && s'.pending[k] == s.pending[k] {}
    NextIsNew(cfg, s);
  }

  lemma OwnershipFailAll(cfg: Config, s: State, error: Error, reason: Reason, f: Failures, at: nat)
    requires Ownership(cfg, s) && Enabled(cfg, s, FailAll(error, reason, f, at))
    ensures Ownership(cfg, ApplyFailAll(s, error, f, at))
  {
  }

  lemma OwnershipWhenMoving(cfg: Config, s: State, a: Action)
    requires Ownership(cfg, s) && Enabled(cfg, s, a)
    requires a.SendOwned? || a.Retire? || a.Lose? || a.DropOwner? || a.FailAll?
    ensures Ownership(cfg, Apply(cfg, s, a))
  {
    hide Ownership, ApplyOwn, ApplyFailAll, FailuresOf, OutcomeOf, RecordOf, TerminalExpiry, IsCancelReason;
    var s' := Apply(cfg, s, a);
    match a
    case SendOwned(key, order, at) => OwnershipEnter(cfg, s, key, order, at);
    case Retire(key, _, _) => OwnershipLeave(cfg, s, s', key);
    case Lose(key, _) => OwnershipLeave(cfg, s, s', key);
    case DropOwner(key) => OwnershipLeave(cfg, s, s', key);
    case FailAll(error, reason, f, at) => OwnershipFailAll(cfg, s, error, reason, f, at);
  }

  lemma OwnershipAtRest(cfg: Config, s: State, a: Action)
    requires Ownership(cfg, s) && Enabled(cfg, s, a)
    requires !a.SendOwned? && !a.Retire? && !a.Lose? && !a.DropOwner? && !a.FailAll?
    ensures Ownership(cfg, Apply(cfg, s, a))
  {
    hide Ownership, Enabled, Apply;
    if a.MarkDropped? || a.Progress? { OwnershipTouched(cfg, s, a); } else { OwnershipUntouched(cfg, s, a); }
  }

  lemma OwnershipTouched(cfg: Config, s: State, a: Action)
    requires Ownership(cfg, s) && Enabled(cfg, s, a) && (a.MarkDropped? || a.Progress?)
    ensures Ownership(cfg, Apply(cfg, s, a))
  {
    hide Ownership, UniqueMarker, IdleAfterProgress, StreamOf, Fits;
    SentSoFar(cfg, s);
    OwnershipTouch(cfg, s, Apply(cfg, s, a), a.key);
  }

  lemma OwnershipUntouched(cfg: Config, s: State, a: Action)
    requires Ownership(cfg, s) && Enabled(cfg, s, a) && !a.MarkDropped? && !a.Progress?
    requires !a.SendOwned? && !a.Retire? && !a.Lose? && !a.DropOwner? && !a.FailAll?
    ensures Ownership(cfg, Apply(cfg, s, a))
  {
    hide Ownership, Enabled, Apply, Sweeps;
    SentSoFar(cfg, s);
    if Sweeps(a) { SweepsKeepOwners(cfg, s, a); } else { RestKeepsOwners(cfg, s, a); }
    OwnershipFrame(cfg, s, Apply(cfg, s, a));
  }

  /** Owners, and what is known of them, are the same in both states. */
  ghost predicate SameOwners(s: State, s': State) {
    && s'.pending == s.pending && s'.clock == s.clock && s'.nextGeneration == s.nextGeneration
    && s'.history.admitted == s.history.admitted && s'.history.retired == s.history.retired
    && s'.history.sent == s.history.sent
  }

  lemma SweepingKeepsOwners(s: State, slot: Slot, withStream: bool)
    ensures SameOwners(s, ApplyPruneTerminals(s)) && SameOwners(s, ApplyForget(s, slot, withStream))
    ensures SameOwners(s, ApplyRelease(s, slot, withStream))
    ensures SameOwners(s, ApplyForget(s, slot, true).(
                            history := s.history.(handed := s.history.handed + multiset{slot.1})))
    ensures s.deferred != [] ==> SameOwners(s, ApplyFlush(s))
  {
    hide Expired;
  }

  lemma SweepsKeepOwners(cfg: Config, s: State, a: Action)
    requires Enabled(cfg, s, a) && Sweeps(a)
    ensures SameOwners(s, Apply(cfg, s, a))
  {
    hide MayHandOut, SameOwners, PendingGenerations, ApplyPruneTerminals, ApplyForget, ApplyRelease, ApplyFlush;
    var slot := if a.Forget? || a.Release? || a.HandOut? then a.slot else (NumberId(0), 0);
    SweepingKeepsOwners(s, slot, a.Release? && a.withStream);
  }

  lemma RestKeepsOwners(cfg: Config, s: State, a: Action)
    requires Enabled(cfg, s, a) && !Sweeps(a) && !a.MarkDropped? && !a.Progress?
    requires !a.SendOwned? && !a.Retire? && !a.Lose? && !a.DropOwner? && !a.FailAll?
    ensures var s' := Apply(cfg, s, a);
            s'.pending == s.pending && s.clock <= s'.clock && s.nextGeneration <= s'.nextGeneration
            && s'.history.admitted == s.history.admitted && s'.history.retired == s.history.retired
            && (if a.SendUnowned?
                then s'.nextGeneration == s.nextGeneration + 1
                     && s'.history.sent.Keys == s.history.sent.Keys + {s'.nextGeneration}
                else s'.history.sent == s.history.sent)
  {
    hide CanAdmit, MayReverse, ReverseApply, Lasts;
  }

  lemma SentSoFar(cfg: Config, s: State)
    requires Ownership(cfg, s)
    ensures forall g | g in s.history.sent :: 0 < g <= s.nextGeneration
  {
  }

  lemma OwnershipKept(cfg: Config, s: State, a: Action)
    requires Ownership(cfg, s) && Enabled(cfg, s, a)
    ensures Ownership(cfg, Apply(cfg, s, a))
  {
    hide Ownership, Enabled, Apply;
    if a.SendOwned? || a.Retire? || a.Lose? || a.DropOwner? || a.FailAll? { OwnershipWhenMoving(cfg, s, a); }
    else { OwnershipAtRest(cfg, s, a); }
  }

  // ----- Terminal outcomes -----

  /** Actions that only take outcomes, records, streams or notices away. */
  predicate Sweeps(a: Action) { a.PruneTerminals? || a.Forget? || a.Release? || a.HandOut? || a.FlushDeferred? }

  lemma TerminalKeys(s: State)
    requires Terminals(s)
    ensures s.completed.Keys == s.records.Keys == s.expirations.Keys
  {
  }

  lemma TerminalsFrame(s: State, s': State)
    requires Terminals(s) && Extends(s.history, s'.history)
    requires s'.completed.Keys == s'.records.Keys == s'.expirations.Keys <= s.completed.Keys
    requires forall x | x in s'.completed :: s'.completed[x] == s.completed[x]
    requires s'.history.handed == s.history.handed
    ensures Terminals(s')
  {
  }

  lemma TerminalsHandOut(s: State, slot: Slot)
    requires Terminals(s) && slot in s.completed
    ensures Terminals(ApplyForget(s, slot, true).(history :=
              s.history.(handed := s.history.handed + multiset{slot.1})))
  {
  }

  lemma TerminalsAdd(s: State, s': State, slots: set<Slot>)
    requires Terminals(s) && Extends(s.history, s'.history) && s'.history.handed == s.history.handed
    requires s'.completed.Keys == s.completed.Keys + slots
    requires s'.records.Keys == s.records.Keys + slots
    requires s'.expirations.Keys == s.expirations.Keys + slots
    requires forall x | x in slots ::
               x.1 !in s.history.retired && x.1 in s'.history.retired
               && x.1 in s'.history.admitted && s'.history.admitted[x.1].id == x.0
               && s'.history.retired[x.1].outcome == Some(s'.completed[x])
    requires forall x | x in s.completed && x !in slots :: s'.completed[x] == s.completed[x]
    ensures Terminals(s')
  {
    forall x | x in slots ensures s.history.handed[x.1] == 0 { assert x.1 !in s.history.retired; }
  }

  lemma SlotPending(pending: map<CorrelationKey, Owner>, key: CorrelationKey)
    requires key in pending
    ensures SlotOf(pending[key]) in PendingSlots(pending)
  {
  }

  lemma SlotGenerations(pending: map<CorrelationKey, Owner>)
    ensures forall x | x in PendingSlots(pending) :: x.1 in PendingGenerations(pending)
  {
    forall x | x in PendingSlots(pending) ensures x.1 in PendingGenerations(pending) {
      var k :| k in pending && x == SlotOf(pending[k]);
      assert x.1 == pending[k].generation;
    }
  }

  /** What a failure adds: one terminal outcome for each pending slot. */
  lemma FailAllAdds(cfg: Config, s: State, a: Action)
    requires a.FailAll? && Enabled(cfg, s, a)
    ensures var s' := Apply(cfg, s, a);
            s'.completed.Keys == s.completed.Keys + PendingSlots(s.pending)
            && s'.records.Keys == s.records.Keys + PendingSlots(s.pending)
            && s'.expirations.Keys == s.expirations.Keys + PendingSlots(s.pending)
            && s'.history == s.history.(retired := s'.history.retired)
            && s'.history.retired.Keys == s.history.retired.Keys + PendingGenerations(s.pending)
            && s'.deferred == [] && s'.pending == map[]
  {
    hide PendingSlots, PendingGenerations;
  }

  /** Each pending slot gets the failure that its retirement names; other outcomes stay. */
  lemma FailAllOutcomes(cfg: Config, s: State, a: Action)
    requires a.FailAll? && Enabled(cfg, s, a)
    ensures var s' := Apply(cfg, s, a);
            (forall x | x in PendingSlots(s.pending) :: x in s'.completed && s'.completed[x] == Failure(a.error))
            && (forall g | g in PendingGenerations(s.pending) ::
                  g in s'.history.retired && s'.history.retired[g].outcome == Some(Failure(a.error)))
            && (forall x | x in s.completed && x !in PendingSlots(s.pending) ::
                  x in s'.completed && s'.completed[x] == s.completed[x])
  {
    hide PendingSlots, PendingGenerations, CancelledAll;
  }

  lemma TerminalsFailAll(cfg: Config, s: State, a: Action)
    requires Ownership(cfg, s) && Terminals(s) && a.FailAll? && Enabled(cfg, s, a)
    ensures Terminals(Apply(cfg, s, a))
  {
    hide Ownership, Terminals, Extends, PendingSlots, PendingGenerations, Enabled, Apply;
    HistoryExtends(cfg, s, a);
    PendingUnretired(cfg, s);
    SlotGenerations(s.pending);
    FailAllAdds(cfg, s, a);
    FailAllOutcomes(cfg, s, a);
    TerminalsAdd(s, Apply(cfg, s, a), PendingSlots(s.pending));
  }

  lemma TerminalsRetire(cfg: Config, s: State, a: Action)
    requires Ownership(cfg, s) && Terminals(s) && a.Retire? && Enabled(cfg, s, a)
    ensures Terminals(Apply(cfg, s, a))
  {
    hide Terminals, Extends, Ownership, RecordOf, OutcomeOf, ReasonOf, TerminalExpiry, PendingSlots;
    HistoryExtends(cfg, s, a);
    PendingUnretired(cfg, s);
    assert SlotOf(s.pending[a.key]) in PendingSlots(s.pending) by { SlotPending(s.pending, a.key); }
    TerminalsAdd(s, Apply(cfg, s, a), {SlotOf(s.pending[a.key])});
  }

  lemma TerminalsKept(cfg: Config, s: State, a: Action)
    requires Ownership(cfg, s) && Terminals(s) && Enabled(cfg, s, a)
    ensures Terminals(Apply(cfg, s, a))
  {
    hide Ownership, Terminals, Extends, Enabled, Apply;
    if a.HandOut? { TerminalsTaken(cfg, s, a); }
    else if a.Retire? { TerminalsRetire(cfg, s, a); }
    else if a.FailAll? { TerminalsFailAll(cfg, s, a); }
    else {
      HistoryExtends(cfg, s, a);
      OnlyFewerOutcomes(cfg, s, a);
      TerminalsFrame(s, Apply(cfg, s, a));
    }
  }

  lemma TerminalsTaken(cfg: Config, s: State, a: Action)
    requires Terminals(s) && a.HandOut? && Enabled(cfg, s, a)
    ensures Terminals(Apply(cfg, s, a))
  {
    hide Terminals, StreamOf;
    TerminalsHandOut(s, a.slot);
  }

  lemma OnlyFewerOutcomes(cfg: Config, s: State, a: Action)
    requires Terminals(s) && Enabled(cfg, s, a) && !a.HandOut? && !a.Retire? && !a.FailAll?
    ensures var s' := Apply(cfg, s, a);
            s'.completed.Keys == s'.records.Keys == s'.expirations.Keys <= s.completed.Keys
            && (forall x | x in s'.completed :: s'.completed[x] == s.completed[x])
            && s'.history.handed == s.history.handed
  {
    hide Terminals, Enabled, Apply, Sweeps;
    if Sweeps(a) { SweepOutcomes(cfg, s, a); }
    else if a.DropOwner? || a.Lose? { LeaverOutcomes(cfg, s, a); }
    else { StillOutcomes(cfg, s, a); }
  }

  lemma SweepOutcomes(cfg: Config, s: State, a: Action)
    requires Terminals(s) && Enabled(cfg, s, a) && !a.HandOut? && !a.Retire? && !a.FailAll?
    requires Sweeps(a)
    ensures var s' := Apply(cfg, s, a);
            s'.completed.Keys == s'.records.Keys == s'.expirations.Keys <= s.completed.Keys
            && (forall x | x in s'.completed :: s'.completed[x] == s.completed[x])
            && s'.history.handed == s.history.handed
  {
    hide Terminals, CanAdmit, UniqueMarker, MayReverse, StreamOf, Expired, Fits, Lasts, PendingGenerations;
    TerminalKeys(s);
  }

  lemma StillOutcomes(cfg: Config, s: State, a: Action)
    requires Terminals(s) && Enabled(cfg, s, a) && !a.HandOut? && !a.Retire? && !a.FailAll?
    requires !Sweeps(a) && !a.DropOwner? && !a.Lose?
    ensures var s' := Apply(cfg, s, a);
            s'.completed.Keys == s'.records.Keys == s'.expirations.Keys <= s.completed.Keys
            && (forall x | x in s'.completed :: s'.completed[x] == s.completed[x])
            && s'.history.handed == s.history.handed
  {
    hide Terminals, CanAdmit, UniqueMarker, MayReverse, ReverseApply, IdleAfterProgress, StreamOf, Fits, Lasts;
    hide OwnerFor;
    TerminalKeys(s);
  }

  lemma LeaverOutcomes(cfg: Config, s: State, a: Action)
    requires Terminals(s) && Enabled(cfg, s, a) && (a.DropOwner? || a.Lose?)
    ensures var s' := Apply(cfg, s, a);
            s'.completed.Keys == s'.records.Keys == s'.expirations.Keys <= s.completed.Keys
            && (forall x | x in s'.completed :: s'.completed[x] == s.completed[x])
            && s'.history.handed == s.history.handed
  {
    hide Terminals, Fits;
    TerminalKeys(s);
  }

  // ----- Tombstones -----

  lemma FencesFrame(cfg: Config, s: State, s': State)
    requires Fences(cfg, s)
    requires s'.pending.Keys <= s.pending.Keys && s'.tombstones == s.tombstones
    requires s'.history.admitted == s.history.admitted && s'.history.retired == s.history.retired
    requires s.clock <= s'.clock && (s.terminalError.Some? ==> s'.terminalError.Some?)
    ensures Fences(cfg, s')
  {
  }

  lemma FencesPrune(cfg: Config, s: State)
    requires Fences(cfg, s)
    ensures Fences(cfg, ApplyPruneTombstones(s))
  {
  }

  lemma FencesOwn(cfg: Config, s: State, key: CorrelationKey, order: Order, at: nat)
    requires Ownership(cfg, s) && Fences(cfg, s) && key !in s.pending && key !in s.tombstones && s.clock <= at
    ensures Fences(cfg, ApplyOwn(s, key, order, at))
  {
    NextIsNew(cfg, s);
  }

  lemma FencesLeave(cfg: Config, s: State, s': State, key: CorrelationKey)
    requires Ownership(cfg, s) && Fences(cfg, s) && key in s.pending && key in s'.tombstones
    requires s'.pending == s.pending - {key} && s'.tombstones == s.tombstones[key := s'.tombstones[key]]
    requires var g := s.pending[key].generation; var h' := s'.history;
             h'.admitted == s.history.admitted
             && g in h'.retired && h'.retired == s.history.retired[g := h'.retired[g]]
             && s'.tombstones[key].generation == g
             && (if h'.retired[g].fenced then s'.tombstones[key].expiresAt == h'.retired[g].at + cfg.retention
                 else !Fits(cfg, h'.retired[g].at, cfg.retention))
    requires s.clock <= s'.clock && s'.terminalError == s.terminalError
    ensures Fences(cfg, s')
  {
  }

  lemma FencesLose(cfg: Config, s: State, key: CorrelationKey, reason: Reason)
    requires Ownership(cfg, s) && Fences(cfg, s) && Enabled(cfg, s, Lose(key, reason))
    ensures Fences(cfg, ApplyLose(s, key, reason))
  {
  }

  lemma FencesFailAll(cfg: Config, s: State, error: Error, reason: Reason, f: Failures, at: nat)
    requires Ownership(cfg, s) && Fences(cfg, s) && Enabled(cfg, s, FailAll(error, reason, f, at))
    ensures Fences(cfg, ApplyFailAll(s, error, f, at))
  {
  }

  lemma KeyIsFree(cfg: Config, s: State, key: CorrelationKey)
    requires CanAdmit(cfg, s, key)
    ensures key !in s.pending && key !in s.tombstones
  {
  }

  /** An owner leaves through its tombstone. */
  lemma FencesWhenLeaving(cfg: Config, s: State, a: Action)
    requires Ownership(cfg, s) && Fences(cfg, s) && Enabled(cfg, s, a) && (a.Retire? || a.DropOwner?)
    ensures Fences(cfg, Apply(cfg, s, a))
  {
    hide Ownership, Fences, OutcomeOf, RecordOf, ReasonOf, TerminalExpiry, IsCancelReason;
    FencesLeave(cfg, s, Apply(cfg, s, a), a.key);
  }

  lemma FencesWhenMoving(cfg: Config, s: State, a: Action)
    requires Ownership(cfg, s) && Fences(cfg, s) && Enabled(cfg, s, a)
    requires a.PruneTombstones? || a.SendOwned? || a.Lose? || a.FailAll?
    ensures Fences(cfg, Apply(cfg, s, a))
  {
    hide Ownership, Fences, ApplyOwn, ApplyLose, ApplyFailAll, ApplyPruneTombstones, CanAdmit, FailuresOf;
    match a
    case PruneTombstones => FencesPrune(cfg, s);
    case SendOwned(key, order, at) =>
      KeyIsFree(cfg, s, key);
      FencesOwn(cfg, s, key, order, at);
    case Lose(key, reason) => FencesLose(cfg, s, key, reason);
    case FailAll(error, reason, f, at) => FencesFailAll(cfg, s, error, reason, f, at);
  }

  lemma FencesKept(cfg: Config, s: State, a: Action)
    requires Ownership(cfg, s) && Fences(cfg, s) && Enabled(cfg, s, a)
    ensures Fences(cfg, Apply(cfg, s, a))
  {
    hide Ownership, Fences, Enabled, Apply;
    if a.Retire? || a.DropOwner? { FencesWhenLeaving(cfg, s, a); }
    else if a.PruneTombstones? || a.SendOwned? || a.Lose? || a.FailAll? { FencesWhenMoving(cfg, s, a); }
    else { FencesAtRest(cfg, s, a); }
  }

  lemma FencesAtRest(cfg: Config, s: State, a: Action)
    requires Ownership(cfg, s) && Fences(cfg, s) && Enabled(cfg, s, a)
    requires !a.Retire? && !a.DropOwner? && !a.PruneTombstones? && !a.SendOwned? && !a.Lose? && !a.FailAll?
    ensures Fences(cfg, Apply(cfg, s, a))
  {
    hide Ownership, Fences, Enabled, Apply;
    FencesUntouched(cfg, s, a);
    FencesFrame(cfg, s, Apply(cfg, s, a));
  }

  lemma FencesUntouched(cfg: Config, s: State, a: Action)
    requires Enabled(cfg, s, a)
    requires !a.Retire? && !a.DropOwner? && !a.PruneTombstones? && !a.SendOwned? && !a.Lose? && !a.FailAll?
    ensures var s' := Apply(cfg, s, a);
            s'.pending.Keys == s.pending.Keys && s'.tombstones == s.tombstones
            && s'.history.admitted == s.history.admitted && s'.history.retired == s.history.retired
            && s.clock <= s'.clock && (s.terminalError.Some? ==> s'.terminalError.Some?)
  {
    hide Enabled, Apply, Sweeps;
    if Sweeps(a) { SweepKeepsFences(cfg, s, a); } else { StillKeepsFences(cfg, s, a); }
  }

  lemma SweepKeepsFences(cfg: Config, s: State, a: Action)
    requires Enabled(cfg, s, a)
    requires !a.Retire? && !a.DropOwner? && !a.PruneTombstones? && !a.SendOwned? && !a.Lose? && !a.FailAll?
    requires Sweeps(a)
    ensures var s' := Apply(cfg, s, a);
            s'.pending.Keys == s.pending.Keys && s'.tombstones == s.tombstones
            && s'.history.admitted == s.history.admitted && s'.history.retired == s.history.retired
            && s.clock <= s'.clock && (s.terminalError.Some? ==> s'.terminalError.Some?)
  {
    hide CanAdmit, UniqueMarker, MayReverse, StreamOf, Expired, Fits, Lasts, PendingGenerations;
  }

  lemma StillKeepsFences(cfg: Config, s: State, a: Action)
    requires Enabled(cfg, s, a)
    requires !a.Retire? && !a.DropOwner? && !a.PruneTombstones? && !a.SendOwned? && !a.Lose? && !a.FailAll?
    requires !Sweeps(a)
    ensures var s' := Apply(cfg, s, a);
            s'.pending.Keys == s.pending.Keys && s'.tombstones == s.tombstones
            && s'.history.admitted == s.history.admitted && s'.history.retired == s.history.retired
            && s.clock <= s'.clock && (s.terminalError.Some? ==> s'.terminalError.Some?)
  {
    hide CanAdmit, UniqueMarker, MayReverse, ReverseApply, IdleAfterProgress, StreamOf, Fits, Lasts, OwnerFor;
  }

  // ----- Generations of one key -----

  lemma SpacingFrame(cfg: Config, s: State, s': State)
    requires Spacing(cfg, s) && Extends(s.history, s'.history)
    requires s'.history.admitted == s.history.admitted
    ensures Spacing(cfg, s')
  {
    forall g, g' | g in s'.history.admitted && g' in s'.history.admitted ensures Spaced(cfg, s', g, g') {
      assert Spaced(cfg, s, g, g');
    }
  }

  /** A new generation starts only after every earlier one of its key is out of its fence. */
  lemma SpacingOwn(cfg: Config, s: State, a: Action)
    requires Ownership(cfg, s) && Fences(cfg, s) && Spacing(cfg, s) && a.SendOwned? && Enabled(cfg, s, a)
    ensures Spacing(cfg, Apply(cfg, s, a))
  {
    var s' := Apply(cfg, s, a);
    forall g, g' | g in s'.history.admitted && g' in s'.history.admitted ensures Spaced(cfg, s', g, g') {
      if g in s.history.admitted && g' in s.history.admitted { assert Spaced(cfg, s, g, g'); }
    }
  }

  lemma SpacingKept(cfg: Config, s: State, a: Action)
    requires Ownership(cfg, s) && Fences(cfg, s) && Spacing(cfg, s) && Enabled(cfg, s, a)
    ensures Spacing(cfg, Apply(cfg, s, a))
  {
    hide Ownership, Fences, Spacing, Extends, Enabled, Apply;
    HistoryExtends(cfg, s, a);
    if a.SendOwned? { SpacingOwn(cfg, s, a); }
    else {
      AdmittedKept(cfg, s, a);
      SpacingFrame(cfg, s, Apply(cfg, s, a));
    }
  }

  lemma AdmittedKept(cfg: Config, s: State, a: Action)
    requires Enabled(cfg, s, a) && !a.SendOwned?
    ensures Apply(cfg, s, a).history.admitted == s.history.admitted
  {
    hide Enabled, Apply;
    if a.SendUnowned? { UnownedAdmitsNobody(cfg, s, a); } else { SendsUntouched(cfg, s, a); }
  }

  lemma UnownedAdmitsNobody(cfg: Config, s: State, a: Action)
    requires a.SendUnowned? && Enabled(cfg, s, a)
    ensures Apply(cfg, s, a).history.admitted == s.history.admitted
  {
    hide CanAdmit, Lasts;
  }

  // ----- Cancellation notices -----

  lemma WireFrame(s: State, s': State)
    requires Wire(s) && Extends(s.history, s'.history) && s'.history.cancels == s.history.cancels
    requires s'.deferred == s.deferred
    requires forall x | x in s'.records && x !in s.records :: x.1 !in s.history.retired
    ensures Wire(s')
  {
  }

  lemma WireNotify(s: State, s': State, g: nat)
    requires Wire(s) && Extends(s.history, s'.history) && s'.history.cancels == s.history.cancels + multiset{g}
    requires g !in s.history.retired && MayCancel(s'.history, g)
    requires s'.deferred == s.deferred
    requires forall x | x in s'.records && x !in s.records :: x.1 !in s.history.retired
    ensures Wire(s')
  {
    assert !MayCancel(s.history, g);
  }

  lemma WireDefer(s: State, s': State, slot: Slot)
    requires Wire(s) && Extends(s.history, s'.history) && s'.history.cancels == s.history.cancels
    requires slot.1 !in s.history.retired && MayCancel(s'.history, slot.1)
    requires s'.history.admitted[slot.1].id == slot.0
    requires s'.deferred == s.deferred + [slot]
    requires s'.records.Keys == s.records.Keys - {slot}
    ensures Wire(s')
  {
    assert !MayCancel(s.history, slot.1);
  }

  lemma WireFlush(s: State)
    requires Wire(s) && s.deferred != []
    ensures Wire(ApplyFlush(s))
  {
  }

  lemma WireFailAll(cfg: Config, s: State, a: Action)
    requires Ownership(cfg, s) && Wire(s) && a.FailAll? && Enabled(cfg, s, a)
    ensures Wire(Apply(cfg, s, a))
  {
    hide Ownership, Enabled, Apply;
    HistoryExtends(cfg, s, a);
    FailAllAdds(cfg, s, a);
  }

  lemma WireLeave(cfg: Config, s: State, a: Action)
    requires Ownership(cfg, s) && Wire(s) && (a.Retire? || a.DropOwner?) && Enabled(cfg, s, a)
    ensures Wire(Apply(cfg, s, a))
  {
    hide Ownership, Wire, Extends, RecordOf, OutcomeOf, TerminalExpiry;
    HistoryExtends(cfg, s, a);
    LiveUnretired(cfg, s);
    var s' := Apply(cfg, s, a);
    var o := s.pending[a.key];
    if a.Retire? && Notifies(a.cause) {
      WireNotify(s, s', o.generation);
    } else if a.DropOwner? && s'.deferred != s.deferred {
      WireDefer(s, s', SlotOf(o));
    } else {
      WireFrame(s, s');
    }
  }

  lemma WireKept(cfg: Config, s: State, a: Action)
    requires Ownership(cfg, s) && Wire(s) && Enabled(cfg, s, a)
    ensures Wire(Apply(cfg, s, a))
  {
    hide Ownership, Wire, Extends, Enabled, Apply;
    if a.Retire? || a.DropOwner? { WireLeave(cfg, s, a); }
    else if a.FlushDeferred? { WireFlushed(cfg, s, a); }
    else if a.FailAll? { WireFailAll(cfg, s, a); }
    else {
      HistoryExtends(cfg, s, a);
      NoNotice(cfg, s, a);
      WireFrame(s, Apply(cfg, s, a));
    }
  }

  lemma WireFlushed(cfg: Config, s: State, a: Action)
    requires Wire(s) && a.FlushDeferred? && Enabled(cfg, s, a)
    ensures Wire(Apply(cfg, s, a))
  {
    hide Wire, ApplyFlush;
    WireFlush(s);
  }

  lemma NoNotice(cfg: Config, s: State, a: Action)
    requires Enabled(cfg, s, a) && !a.Retire? && !a.DropOwner? && !a.FlushDeferred? && !a.FailAll?
    ensures var s' := Apply(cfg, s, a);
            s'.history.cancels == s.history.cancels && s'.deferred == s.deferred && s'.records.Keys <= s.records.Keys
  {
    hide CanAdmit, UniqueMarker, MayReverse, ReverseApply, IdleAfterProgress, StreamOf, Fits, Lasts, Expired,
         PendingGenerations, OwnerFor;
  }

  // ----- Streams -----

  lemma StreamsFrame(s: State, s': State)
    requires Streams(s) && Extends(s.history, s'.history)
    requires forall x | x in s'.streams :: x in s.streams && s'.streams[x] == s.streams[x]
    requires forall k | k in s'.pending ::
               k in s.pending && SlotOf(s'.pending[k]) == SlotOf(s.pending[k])
               && s'.pending[k].lastProgress == s.pending[k].lastProgress
    ensures Streams(s')
  {
  }

  lemma StreamsOwn(cfg: Config, s: State, key: CorrelationKey, order: Order, at: nat)
    requires Ownership(cfg, s) && Streams(s)
    ensures Streams(ApplyOwn(s, key, order, at))
  {
    NextIsNew(cfg, s);
  }

  lemma StreamAppend(values: seq<real>, last: Option<real>, value: real)
    requires Increasing(values) && BelowLast(values, last) && (last.Some? ==> last.value < value)
    ensures Increasing(values + [value]) && BelowLast(values + [value], Some(value)) && BelowLast(values, Some(value))
  {
  }

  lemma StreamsProgress(cfg: Config, s: State, key: CorrelationKey, value: real, kept: bool)
    requires Ownership(cfg, s) && Streams(s) && Enabled(cfg, s, Progress(key, value, kept))
    ensures Streams(ApplyProgress(cfg, s, key, value, kept))
  {
    hide IdleAfterProgress, Increasing, BelowLast, Ownership;
    var o := s.pending[key];
    var values := StreamOf(s.streams, SlotOf(o));
    assert Increasing(values) && BelowLast(values, o.lastProgress) by { EmptyStream(o.lastProgress); }
    StreamAppend(values, o.lastProgress, value);
    SlotsDiffer(cfg, s, key);
  }

  lemma SlotsDiffer(cfg: Config, s: State, key: CorrelationKey)
    requires Ownership(cfg, s) && key in s.pending
    ensures forall k | k in s.pending && k != key :: SlotOf(s.pending[k]) != SlotOf(s.pending[key])
    ensures s.pending[key].generation in s.history.admitted
  {
  }

  lemma EmptyStream(last: Option<real>)
    ensures Increasing([]) && BelowLast([], last)
  {
  }

  /** Only admissions and progress add anything that streams depend on. */
  lemma StreamsShrink(cfg: Config, s: State, a: Action)
    requires Enabled(cfg, s, a) && !a.SendOwned? && !a.Progress?
    ensures var s' := Apply(cfg, s, a);
            (forall x | x in s'.streams :: x in s.streams && s'.streams[x] == s.streams[x])
            && (forall k | k in s'.pending ::
                  k in s.pending && SlotOf(s'.pending[k]) == SlotOf(s.pending[k])
                  && s'.pending[k].lastProgress == s.pending[k].lastProgress)
  {
    hide RecordOf, OutcomeOf, ReasonOf, TerminalExpiry, PendingSlots, PendingGenerations, Expired, CanAdmit;
  }

  lemma StreamsKept(cfg: Config, s: State, a: Action)
    requires Ownership(cfg, s) && Streams(s) && Enabled(cfg, s, a)
    ensures Streams(Apply(cfg, s, a))
  {
    hide Ownership, Streams, Extends, Enabled, Apply, ApplyOwn, ApplyProgress;
    if a.SendOwned? {
      OwnedStep(cfg, s, a);
      StreamsOwn(cfg, s, a.key, a.order, a.at);
    } else if a.Progress? {
      ProgressedStep(cfg, s, a);
      StreamsProgress(cfg, s, a.key, a.value, a.kept);
    } else {
      HistoryExtends(cfg, s, a);
      StreamsShrink(cfg, s, a);
      StreamsFrame(s, Apply(cfg, s, a));
    }
  }

  lemma ProgressedStep(cfg: Config, s: State, a: Action)
    requires a.Progress? && Enabled(cfg, s, a)
    ensures a.key in s.pending && Apply(cfg, s, a) == ApplyProgress(cfg, s, a.key, a.value, a.kept)
  {
    hide UniqueMarker, ApplyProgress, StreamOf, Fits;
  }

  // ----- Bounds -----

  lemma BoundsRetire(cfg: Config, s: State, key: CorrelationKey, cause: Cause, at: nat)
    requires Fences(cfg, s) && Bounds(cfg, s) && Enabled(cfg, s, Retire(key, cause, at))
    ensures Bounds(cfg, ApplyRetire(cfg, s, key, cause, at))
  {
    var s' := ApplyRetire(cfg, s, key, cause, at);
    var slot := SlotOf(s.pending[key]);
    RemovedOne(s.pending, key);
    UpdatedOne(s.tombstones, key, s'.tombstones[key]);
    UpdatedOne(s.completed, slot, s'.completed[slot]);
  }

  lemma BoundsDrop(cfg: Config, s: State, key: CorrelationKey)
    requires Fences(cfg, s) && Bounds(cfg, s) && Enabled(cfg, s, DropOwner(key))
    ensures Bounds(cfg, ApplyDrop(cfg, s, key))
  {
    var s' := ApplyDrop(cfg, s, key);
    var slot := SlotOf(s.pending[key]);
    RemovedOne(s.pending, key);
    UpdatedOne(s.tombstones, key, s'.tombstones[key]);
    SubsetSize(s'.completed.Keys, s.completed.Keys);
  }

  lemma BoundsFailAll(cfg: Config, s: State, error: Error, reason: Reason, f: Failures, at: nat)
    requires Bounds(cfg, s) && Enabled(cfg, s, FailAll(error, reason, f, at))
    ensures Bounds(cfg, ApplyFailAll(s, error, f, at))
  {
    hide FailuresOf, ApplyFailAll;
    FailureCount(s, error, reason, f);
    FailedParts(s, error, f, at);
  }

  lemma FailedParts(s: State, error: Error, f: Failures, at: nat)
    ensures var t := ApplyFailAll(s, error, f, at);
            |t.pending| == 0 && |t.tombstones| == 0 && |t.completed| <= |s.completed| + |f.outcomes|
            && t.pending == map[] && t.deferred == []
  {
    hide CancelledAll;
    MergedSize(s.completed, f.outcomes);
  }

  lemma FailureCount(s: State, error: Error, reason: Reason, f: Failures)
    requires FailuresOf(s.pending, s.clock, error, reason, f)
    ensures |f.outcomes| <= |s.pending|
  {
    hide PendingSlots, PendingGenerations;
    SlotCount(s.pending);
    assert |f.outcomes| == |f.outcomes.Keys|;
  }

  lemma BoundsOwn(cfg: Config, s: State, key: CorrelationKey, order: Order, at: nat)
    requires Bounds(cfg, s) && CanAdmit(cfg, s, key)
    ensures Bounds(cfg, ApplyOwn(s, key, order, at))
  {
    UpdatedOne(s.pending, key, OwnerFor(order, s.nextGeneration + 1, at));
  }

  lemma BoundsLose(cfg: Config, s: State, key: CorrelationKey, reason: Reason)
    requires Bounds(cfg, s) && key in s.pending
    ensures Bounds(cfg, ApplyLose(s, key, reason))
  {
    RemovedOne(s.pending, key);
  }

  lemma BoundsEndShutdown(cfg: Config, s: State, error: Error)
    requires Bounds(cfg, s) && Enabled(cfg, s, EndShutdown(error))
    ensures Bounds(cfg, Apply(cfg, s, EndShutdown(error)))
  {
  }

  lemma BoundsFrame(cfg: Config, s: State, s': State)
    requires Bounds(cfg, s)
    requires s'.pending.Keys == s.pending.Keys
    requires s'.tombstones.Keys <= s.tombstones.Keys && s'.completed.Keys <= s.completed.Keys
    requires s'.terminalError == s.terminalError && (s.deferred == [] ==> s'.deferred == [])
    ensures Bounds(cfg, s')
  {
    assert |s'.pending| == |s'.pending.Keys| == |s.pending|;
    SubsetSize(s'.tombstones.Keys, s.tombstones.Keys);
    SubsetSize(s'.completed.Keys, s.completed.Keys);
    assert s.pending == map[] ==> s'.pending == map[];
  }

  lemma BoundsWhenMoving(cfg: Config, s: State, a: Action)
    requires Fences(cfg, s) && Bounds(cfg, s) && Enabled(cfg, s, a)
    requires a.Retire? || a.DropOwner? || a.FailAll? || a.SendOwned? || a.Lose? || a.EndShutdown?
    ensures Bounds(cfg, Apply(cfg, s, a))
  {
    hide ApplyRetire, ApplyDrop, ApplyFailAll, ApplyOwn, ApplyLose, Fences, Bounds, CanAdmit, FailuresOf,
         IsCancelReason;
    match a
    case Retire(key, cause, at) => BoundsRetire(cfg, s, key, cause, at);
    case DropOwner(key) => BoundsDrop(cfg, s, key);
    case FailAll(error, reason, f, at) => BoundsFailAll(cfg, s, error, reason, f, at);
    case SendOwned(key, order, at) => BoundsOwn(cfg, s, key, order, at);
    case Lose(key, reason) => BoundsLose(cfg, s, key, reason);
    case EndShutdown(error) => BoundsEndShutdown(cfg, s, error);
  }

  lemma BoundsShrink(cfg: Config, s: State, s': State, keys: set<CorrelationKey>, slots: set<Slot>)
    requires Bounds(cfg, s) && s'.pending == s.pending && s'.terminalError == s.terminalError
    requires s'.tombstones == s.tombstones || s'.tombstones == s.tombstones - keys
    requires s'.completed == s.completed || s'.completed == s.completed - slots
    requires s.deferred == [] ==> s'.deferred == []
    ensures Bounds(cfg, s')
  {
    hide Bounds;
    BoundsFrame(cfg, s, s');
  }

  lemma BoundsPruned(cfg: Config, s: State)
    requires Bounds(cfg, s)
    ensures Bounds(cfg, ApplyPruneTombstones(s)) && Bounds(cfg, ApplyPruneTerminals(s))
  {
    hide Bounds, Expired;
    var lapsed := set k | k in s.tombstones && s.tombstones[k].expiresAt <= s.clock;
    BoundsShrink(cfg, s, ApplyPruneTombstones(s), lapsed, {});
    BoundsShrink(cfg, s, ApplyPruneTerminals(s), {}, Expired(s));
  }

  lemma BoundsForget(cfg: Config, s: State, a: Action)
    requires Bounds(cfg, s) && Enabled(cfg, s, a) && (a.Forget? || a.Release? || a.HandOut?)
    ensures Bounds(cfg, Apply(cfg, s, a))
  {
    hide Bounds, MayHandOut, PendingGenerations;
    BoundsShrink(cfg, s, Apply(cfg, s, a), {}, {a.slot});
  }

  lemma BoundsSwept(cfg: Config, s: State, a: Action)
    requires Bounds(cfg, s) && Enabled(cfg, s, a) && (Sweeps(a) || a.PruneTombstones?)
    ensures Bounds(cfg, Apply(cfg, s, a))
  {
    hide Bounds, MayHandOut, PendingGenerations, ApplyPruneTombstones, ApplyPruneTerminals, ApplyForget, ApplyRelease;
    BoundsPruned(cfg, s);
    if a.FlushDeferred? { BoundsShrink(cfg, s, ApplyFlush(s), {}, {}); }
    else if !a.PruneTombstones? && !a.PruneTerminals? { BoundsForget(cfg, s, a); }
  }

  lemma BoundsAtRest(cfg: Config, s: State, a: Action)
    requires Bounds(cfg, s) && Enabled(cfg, s, a) && !Sweeps(a) && !a.PruneTombstones?
    requires !a.Retire? && !a.DropOwner? && !a.FailAll? && !a.SendOwned? && !a.Lose? && !a.EndShutdown?
    ensures Bounds(cfg, Apply(cfg, s, a))
  {
    hide Bounds, CanAdmit, UniqueMarker, MayReverse, ReverseApply, IdleAfterProgress, StreamOf, Fits, Lasts;
    BoundsFrame(cfg, s, Apply(cfg, s, a));
  }

  lemma BoundsKept(cfg: Config, s: State, a: Action)
    requires Fences(cfg, s) && Bounds(cfg, s) && Enabled(cfg, s, a)
    ensures Bounds(cfg, Apply(cfg, s, a))
  {
    hide Fences, Bounds, Enabled, Apply;
    if a.Retire? || a.DropOwner? || a.FailAll? || a.SendOwned? || a.Lose? || a.EndShutdown? {
      BoundsWhenMoving(cfg, s, a);
    }
    else if Sweeps(a) || a.PruneTombstones? { BoundsSwept(cfg, s, a); }
    else { BoundsAtRest(cfg, s, a); }
  }

  // ----- Requests of the peer -----

  lemma CallbacksStep(cfg: Config, s: State, step: ReverseAction)
    requires Callbacks(cfg, s) && MayReverse(cfg, s, step)
    ensures Callbacks(cfg, s.(reverse := ReverseApply(cfg.keyOf, s.reverse, step)))
  {
    hide ReverseInv;
    ReverseInvKept(cfg.keyOf, s.reverse, step);
  }

  lemma CallbacksFailAll(cfg: Config, s: State, error: Error, f: Failures, at: nat)
    requires Callbacks(cfg, s)
    ensures Callbacks(cfg, ApplyFailAll(s, error, f, at))
  {
    hide ReverseInv;
    ReverseInvKept(cfg.keyOf, s.reverse, CancelAll);
  }

  lemma CallbacksKept(cfg: Config, s: State, a: Action)
    requires Callbacks(cfg, s) && Enabled(cfg, s, a)
    ensures Callbacks(cfg, Apply(cfg, s, a))
  {
    hide ReverseInv, ReverseEnabled, ReverseApply, ApplyFailAll, MayReverse;
    match a
    case Reverse(step) => CallbacksStep(cfg, s, step);
    case FailAll(error, _, f, at) => CallbacksFailAll(cfg, s, error, f, at);
    case _ =>
  }

  // ----- Requests sent -----

  lemma SendsFrame(cfg: Config, s: State, s': State)
    requires Sends(cfg, s) && s'.nextGeneration == s.nextGeneration
    requires s'.history.sent == s.history.sent && s'.history.admitted == s.history.admitted
    requires forall k | k in s'.pending :: k in s.pending && s'.pending[k].generation == s.pending[k].generation
    ensures Sends(cfg, s')
  {
  }

  lemma SendsSend(cfg: Config, s: State, key: CorrelationKey, order: Order, taken: bool, at: nat)
    requires Ownership(cfg, s) && Sends(cfg, s) && key !in s.pending && !(taken && Lasts(cfg, order, at))
    requires cfg.keyOf(order.id) == Some(key)
    ensures Sends(cfg, ApplySend(s, key, order, taken, at))
  {
    hide Lasts;
    NextIsNew(cfg, s);
  }

  lemma SendsOwn(cfg: Config, s: State, key: CorrelationKey, order: Order, at: nat)
    requires Ownership(cfg, s) && Sends(cfg, s) && key !in s.pending && Lasts(cfg, order, at)
    requires cfg.keyOf(order.id) == Some(key)
    ensures Sends(cfg, ApplyOwn(s, key, order, at))
  {
    hide Lasts;
    NextIsNew(cfg, s);
    SentSoFar(cfg, s);
  }

  /** Only sending changes what was sent, who was admitted and which generation comes next. */
  lemma SendsUntouched(cfg: Config, s: State, a: Action)
    requires Enabled(cfg, s, a) && !a.SendOwned? && !a.SendUnowned?
    ensures var s' := Apply(cfg, s, a);
            s'.nextGeneration == s.nextGeneration && s'.history.sent == s.history.sent
            && s'.history.admitted == s.history.admitted
            && (forall k | k in s'.pending :: k in s.pending && s'.pending[k].generation == s.pending[k].generation)
  {
    hide Enabled, Apply;
    SentUntouched(cfg, s, a);
    forall k | k in Apply(cfg, s, a).pending
      ensures k in s.pending && Apply(cfg, s, a).pending[k].generation == s.pending[k].generation
    {
      OwnerUntouched(cfg, s, a, k);
    }
  }

  lemma SentUntouched(cfg: Config, s: State, a: Action)
    requires Enabled(cfg, s, a) && !a.SendOwned? && !a.SendUnowned?
    ensures SameSendings(s, Apply(cfg, s, a))
  {
    hide Enabled, Apply, SameSendings;
    if a.Retire? || a.Lose? || a.DropOwner? || a.FailAll? || a.FlushDeferred? || a.HandOut? {
      LeavingSendsNothing(cfg, s, a);
    } else {
      StayingSendsNothing(cfg, s, a);
    }
  }

  ghost predicate SameSendings(s: State, s': State) {
    s'.nextGeneration == s.nextGeneration && s'.history.sent == s.history.sent
    && s'.history.admitted == s.history.admitted
  }

  lemma LeavingSendsNothing(cfg: Config, s: State, a: Action)
    requires Enabled(cfg, s, a)
    requires a.Retire? || a.Lose? || a.DropOwner? || a.FailAll? || a.FlushDeferred? || a.HandOut?
    ensures SameSendings(s, Apply(cfg, s, a))
  {
    hide StreamOf, TerminalExpiry, OutcomeOf, RecordOf, ReasonOf, CancelledAll, Fits, FailuresOf, MayRetire, MayHandOut;
  }

  lemma StayingSendsNothing(cfg: Config, s: State, a: Action)
    requires Enabled(cfg, s, a) && !a.SendOwned? && !a.SendUnowned?
    requires !a.Retire? && !a.Lose? && !a.DropOwner? && !a.FailAll? && !a.FlushDeferred? && !a.HandOut?
    ensures SameSendings(s, Apply(cfg, s, a))
  {
    hide Expired, StreamOf, IdleAfterProgress, ReverseApply, MayReverse, UniqueMarker, Fits;
  }

  lemma OwnerUntouched(cfg: Config, s: State, a: Action, k: CorrelationKey)
    requires Enabled(cfg, s, a) && !a.SendOwned? && !a.SendUnowned? && k in Apply(cfg, s, a).pending
    ensures k in s.pending && Apply(cfg, s, a).pending[k].generation == s.pending[k].generation
  {
    hide UniqueMarker, FailuresOf, Fits, Expired, StreamOf, IdleAfterProgress, TerminalExpiry, OutcomeOf, RecordOf,
         ReasonOf, ReverseEnabled, ReverseApply, IsCancelReason, CancelledAll, CanAdmit, PendingSlots,
         PendingGenerations;
  }

  lemma SendsKept(cfg: Config, s: State, a: Action)
    requires Ownership(cfg, s) && Sends(cfg, s) && Enabled(cfg, s, a)
    ensures Sends(cfg, Apply(cfg, s, a))
  {
    hide Ownership, Sends, ApplySend, ApplyOwn, CanAdmit, Lasts;
    match a
    case SendUnowned(key, order, taken, at) =>
      KeyIsFree(cfg, s, key);
      SendsSend(cfg, s, key, order, taken, at);
    case SendOwned(key, order, at) =>
      KeyIsFree(cfg, s, key);
      SendsOwn(cfg, s, key, order, at);
    case _ =>
      SendsUntouched(cfg, s, a);
      SendsFrame(cfg, s, Apply(cfg, s, a));
  }

  // ----- Outcomes for waiters -----

  lemma ExpiryIsLate(cfg: Config, from: nat, to: nat, expiry: nat)
    requires ExpiryWithin(cfg, from, to, expiry)
    ensures from + TERMINAL_RETENTION <= expiry || !Fits(cfg, to, TERMINAL_RETENTION)
  {
  }

  /** Nobody retires: an outcome goes only when it was handed out, lost its handle or ran out of time. */
  lemma KeptFrame(cfg: Config, s: State, s': State)
    requires Terminals(s) && Kept(cfg, s) && s.clock <= s'.clock
    requires s'.history.retired == s.history.retired && s'.history.admitted == s.history.admitted
    requires s.history.gone <= s'.history.gone && s.history.handed <= s'.history.handed
    requires forall x | x in s'.expirations :: x in s.expirations && s'.expirations[x] == s.expirations[x]
    requires forall x | x in s.completed && x !in s'.completed ::
               s'.history.handed[x.1] > 0 || x.1 in s'.history.gone
               || (x in s.expirations && s.expirations[x] <= s.clock)
    requires forall k | k in s'.pending && s'.pending[k].dropped :: s'.pending[k].generation in s'.history.gone
    ensures Kept(cfg, s')
  {
    forall g | g in s'.history.retired && s'.history.retired[g].outcome.Some? ensures KeptOrSpent(cfg, s', g) {
      assert KeptOrSpent(cfg, s, g);
      assert s.history.handed[g] <= s'.history.handed[g];
    }
  }

  /** Some retire: those with an outcome have it stored, to last from now. */
  lemma KeptAdd(cfg: Config, s: State, s': State)
    requires Terminals(s) && Kept(cfg, s) && s.clock <= s'.clock && Extends(s.history, s'.history)
    requires s'.history.handed == s.history.handed
    requires forall x | x in s.completed :: x in s'.completed || x.1 in s'.history.gone
    requires forall g | g in s'.history.retired && g !in s.history.retired && s'.history.retired[g].outcome.Some? ::
               g in s'.history.admitted && (s'.history.admitted[g].id, g) in s'.completed
    requires forall x | x in s'.expirations ::
               (x in s.expirations && s'.expirations[x] == s.expirations[x] && x.1 in s.history.retired)
               || (x.1 in s'.history.retired && s'.history.retired[x.1].at == s.clock
                   && ExpiryWithin(cfg, s.clock, s'.clock, s'.expirations[x]))
    requires forall k | k in s'.pending :: k in s.pending && s'.pending[k] == s.pending[k]
    ensures Kept(cfg, s')
  {
    hide ExpiryWithin;
    forall g | g in s'.history.retired && s'.history.retired[g].outcome.Some? ensures KeptOrSpent(cfg, s', g) {
      if g in s.history.retired { assert KeptOrSpent(cfg, s, g); }
    }
    forall x | x in s'.expirations && x.1 in s'.history.retired
      ensures s'.history.retired[x.1].at + TERMINAL_RETENTION <= s'.expirations[x]
              || !Fits(cfg, s'.clock, TERMINAL_RETENTION)
    {
      if !(x in s.expirations && s'.expirations[x] == s.expirations[x] && x.1 in s.history.retired) {
        ExpiryIsLate(cfg, s.clock, s'.clock, s'.expirations[x]);
      }
    }
  }

  lemma KeptRetire(cfg: Config, s: State, a: Action)
    requires Ownership(cfg, s) && Terminals(s) && Kept(cfg, s) && a.Retire? && Enabled(cfg, s, a)
    ensures Kept(cfg, Apply(cfg, s, a))
  {
    hide Ownership, Terminals, Kept, Extends, RecordOf, OutcomeOf, ReasonOf, TerminalExpiry, IsCancelReason;
    HistoryExtends(cfg, s, a);
    LiveUnretired(cfg, s);
    OutcomesAreRetired(s);
    var s' := Apply(cfg, s, a);
    assert ExpiryWithin(cfg, s.clock, s'.clock, TerminalExpiry(cfg, a.recordedAt));
    KeptAdd(cfg, s, s');
  }

  lemma OutcomesAreRetired(s: State)
    requires Terminals(s)
    ensures s.completed.Keys == s.expirations.Keys
    ensures forall x | x in s.completed :: x.1 in s.history.retired
  {
  }

  lemma KeptLose(cfg: Config, s: State, a: Action)
    requires Ownership(cfg, s) && Terminals(s) && Kept(cfg, s) && (a.Lose? || a.DropOwner?) && Enabled(cfg, s, a)
    ensures Kept(cfg, Apply(cfg, s, a))
  {
    hide Ownership, Terminals, Kept, Extends, Fits;
    HistoryExtends(cfg, s, a);
    LiveUnretired(cfg, s);
    OutcomesAreRetired(s);
    KeptAdd(cfg, s, Apply(cfg, s, a));
  }

  lemma KeptFailAll(cfg: Config, s: State, a: Action)
    requires Ownership(cfg, s) && Terminals(s) && Kept(cfg, s) && a.FailAll? && Enabled(cfg, s, a)
    ensures Kept(cfg, Apply(cfg, s, a))
  {
    hide Ownership, Terminals, Kept, Extends, Enabled, Apply, PendingSlots, PendingGenerations;
    HistoryExtends(cfg, s, a);
    PendingUnretired(cfg, s);
    SlotGenerations(s.pending);
    GenerationSlots(cfg, s);
    OutcomesAreRetired(s);
    FailAllAdds(cfg, s, a);
    FailAllExpiries(cfg, s, a);
    KeptAdd(cfg, s, Apply(cfg, s, a));
  }

  lemma GenerationSlots(cfg: Config, s: State)
    requires Ownership(cfg, s)
    ensures forall g | g in PendingGenerations(s.pending) ::
              g in s.history.admitted && (s.history.admitted[g].id, g) in PendingSlots(s.pending)
  {
    forall g | g in PendingGenerations(s.pending)
      ensures g in s.history.admitted && (s.history.admitted[g].id, g) in PendingSlots(s.pending)
    {
      var k :| k in s.pending && g == s.pending[k].generation;
      assert SlotOf(s.pending[k]) == (s.history.admitted[g].id, g);
    }
  }

  lemma FailAllExpiries(cfg: Config, s: State, a: Action)
    requires a.FailAll? && Enabled(cfg, s, a)
    ensures var s' := Apply(cfg, s, a);
            s.clock <= s'.clock
            && (forall x | x in PendingSlots(s.pending) ::
                  x in s'.expirations && ExpiryWithin(cfg, s.clock, s'.clock, s'.expirations[x]))
            && (forall x | x in s.expirations && x !in PendingSlots(s.pending) ::
                  x in s'.expirations && s'.expirations[x] == s.expirations[x])
            && (forall g | g in PendingGenerations(s.pending) ::
                  g in s'.history.retired && s'.history.retired[g].at == s.clock)
  {
    hide PendingSlots, PendingGenerations, CancelledAll, ExpiryWithin;
  }

  /** Actions after which the same generations are retired. */
  lemma KeptAtRest(cfg: Config, s: State, a: Action)
    requires Terminals(s) && Kept(cfg, s) && Enabled(cfg, s, a) && !a.SendOwned?
    requires !a.Retire? && !a.Lose? && !a.DropOwner? && !a.FailAll?
    ensures Kept(cfg, Apply(cfg, s, a))
  {
    hide Terminals, Kept, Enabled, Apply;
    RestCounts(cfg, s, a);
    RestOutcomes(cfg, s, a);
    DroppedAreGone(cfg, s);
    RestOwners(cfg, s, a);
    KeptFrame(cfg, s, Apply(cfg, s, a));
  }

  lemma DroppedAreGone(cfg: Config, s: State)
    requires Kept(cfg, s)
    ensures forall k | k in s.pending && s.pending[k].dropped :: s.pending[k].generation in s.history.gone
  {
  }

  lemma RestCounts(cfg: Config, s: State, a: Action)
    requires Enabled(cfg, s, a) && !a.SendOwned? && !a.Retire? && !a.Lose? && !a.DropOwner? && !a.FailAll?
    ensures var s' := Apply(cfg, s, a);
            s.clock <= s'.clock && s'.history.retired == s.history.retired && s'.history.admitted == s.history.admitted
            && s.history.gone <= s'.history.gone && s.history.handed <= s'.history.handed
  {
    hide Enabled, Apply, Sweeps;
    if Sweeps(a) { SweepCounts(cfg, s, a); } else { StillCounts(cfg, s, a); }
  }

  lemma SweepCounts(cfg: Config, s: State, a: Action)
    requires Enabled(cfg, s, a) && !a.SendOwned? && !a.Retire? && !a.Lose? && !a.DropOwner? && !a.FailAll?
    requires Sweeps(a)
    ensures var s' := Apply(cfg, s, a);
            s.clock <= s'.clock && s'.history.retired == s.history.retired && s'.history.admitted == s.history.admitted
            && s.history.gone <= s'.history.gone && s.history.handed <= s'.history.handed
  {
    hide CanAdmit, UniqueMarker, MayReverse, StreamOf, Expired, Fits, Lasts, PendingGenerations;
  }

  lemma StillCounts(cfg: Config, s: State, a: Action)
    requires Enabled(cfg, s, a) && !a.SendOwned? && !a.Retire? && !a.Lose? && !a.DropOwner? && !a.FailAll?
    requires !Sweeps(a)
    ensures var s' := Apply(cfg, s, a);
            s.clock <= s'.clock && s'.history.retired == s.history.retired && s'.history.admitted == s.history.admitted
            && s.history.gone <= s'.history.gone && s.history.handed <= s'.history.handed
  {
    hide CanAdmit, UniqueMarker, MayReverse, ReverseApply, IdleAfterProgress, StreamOf, Fits, Lasts, OwnerFor;
  }

  lemma RestOutcomes(cfg: Config, s: State, a: Action)
    requires Terminals(s) && Enabled(cfg, s, a)
    requires !a.SendOwned? && !a.Retire? && !a.Lose? && !a.DropOwner? && !a.FailAll?
    ensures var s' := Apply(cfg, s, a);
            (forall x | x in s'.expirations :: x in s.expirations && s'.expirations[x] == s.expirations[x])
            && (forall x | x in s.completed && x !in s'.completed ::
                  s'.history.handed[x.1] > 0 || x.1 in s'.history.gone
                  || (x in s.expirations && s.expirations[x] <= s.clock))
  {
    hide Terminals, CanAdmit, UniqueMarker, MayReverse, ReverseApply, IdleAfterProgress, StreamOf, Fits, Lasts,
         PendingGenerations;
  }

  lemma RestOwners(cfg: Config, s: State, a: Action)
    requires Enabled(cfg, s, a) && !a.SendOwned? && !a.Retire? && !a.Lose? && !a.DropOwner? && !a.FailAll?
    requires forall k | k in s.pending && s.pending[k].dropped :: s.pending[k].generation in s.history.gone
    ensures var s' := Apply(cfg, s, a);
            forall k | k in s'.pending && s'.pending[k].dropped :: s'.pending[k].generation in s'.history.gone
  {
    hide CanAdmit, UniqueMarker, MayReverse, ReverseApply, IdleAfterProgress, StreamOf, Expired, Fits, Lasts,
         PendingGenerations;
  }

  lemma KeptOwn(cfg: Config, s: State, key: CorrelationKey, order: Order, at: nat)
    requires Ownership(cfg, s) && Kept(cfg, s) && s.clock <= at
    ensures Kept(cfg, ApplyOwn(s, key, order, at))
  {
    NextIsNew(cfg, s);
    var s' := ApplyOwn(s, key, order, at);
    forall g | g in s'.history.retired && s'.history.retired[g].outcome.Some? ensures KeptOrSpent(cfg, s', g) {
      assert KeptOrSpent(cfg, s, g);
    }
  }

  lemma KeptKept(cfg: Config, s: State, a: Action)
    requires Ownership(cfg, s) && Terminals(s) && Kept(cfg, s) && Enabled(cfg, s, a)
    ensures Kept(cfg, Apply(cfg, s, a))
  {
    hide Ownership, Terminals, Kept, Enabled, Apply, ApplyOwn;
    if a.Retire? { KeptRetire(cfg, s, a); }
    else if a.Lose? || a.DropOwner? { KeptLose(cfg, s, a); }
    else if a.FailAll? { KeptFailAll(cfg, s, a); }
    else if a.SendOwned? {
      OwnedStep(cfg, s, a);
      KeptOwn(cfg, s, a.key, a.order, a.at);
    } else { KeptAtRest(cfg, s, a); }
  }

  lemma OwnedStep(cfg: Config, s: State, a: Action)
    requires a.SendOwned? && Enabled(cfg, s, a)
    ensures s.clock <= a.at && Apply(cfg, s, a) == ApplyOwn(s, a.key, a.order, a.at)
  {
    hide CanAdmit, Lasts, ApplyOwn;
  }

  /** Every action keeps the invariant. */
  lemma InvKept(cfg: Config, s: State, a: Action)
    requires Inv(cfg, s) && Enabled(cfg, s, a)
    ensures Inv(cfg, Apply(cfg, s, a))
  {
    hide Enabled, Apply, Ownership, Terminals, Fences, Spacing, Wire, Bounds, Streams, Callbacks, Sends, Kept;
    OwnershipKept(cfg, s, a);
    TerminalsKept(cfg, s, a);
    FencesKept(cfg, s, a);
    SpacingKept(cfg, s, a);
    WireKept(cfg, s, a);
    BoundsKept(cfg, s, a);
    StreamsKept(cfg, s, a);
    CallbacksKept(cfg, s, a);
    SendsKept(cfg, s, a);
    KeptKept(cfg, s, a);
  }
}
