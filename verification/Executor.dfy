/** The request executor: maps, queues and counters updated in place under one lock. The ghost `trace` records which
    protocol actions each operation performed, and `Valid` says that the fields are the state those actions lead to, so
    that every theorem about runs of the protocol is a theorem about every use of this object. */
module Executor {
  import opened Options
  import opened Correlation
  import opened ReverseProtocol
  import opened ExecutorProtocol
  import opened ExecutorInvariant
  import opened ExecutorRuns
  import opened ExecutorWire
  import opened ExecutorSpec

  /** A request-owned handle. */
  class RequestExecution {
    const id: RequestId
    const generation: nat
    var completed: bool

    constructor (id: RequestId, generation: nat)
      ensures this.id == id && this.generation == generation && !completed
    {
      this.id, this.generation, completed := id, generation, false;
    }

    ghost function Slot(): Slot { (id, generation) }
  }

  /** `state` is the struct behind the executor's one lock; its `history` part is only bookkeeping for the proofs. */
  class RequestExecutor {
    const cfg: Config
    const modern: bool
    var state: State
    var uncorrelated: seq<Payload>
    var notifications: seq<Inbound>
    ghost var trace: seq<Action>
    ghost var wire: seq<Dispatch> // every frame that was sent, and what the transport answered

    ghost predicate Valid()
      reads this
    {
      Traced() && Wired(cfg, trace, wire)
    }

    /** The fields are what the log of actions leads to. */
    ghost predicate Traced()
      reads this
    {
      After(cfg, trace) == Some(state) && |uncorrelated| <= MAX_PEER_ACTIVITY && |notifications| <= MAX_PEER_ACTIVITY
    }

    constructor (cfg: Config, modern: bool)
      ensures Valid() && this.cfg == cfg && this.modern == modern && trace == [] && wire == []
    {
      this.cfg, this.modern, state, uncorrelated, notifications := cfg, modern, INITIAL, [], [];
      trace, wire := [], [];
    }

    /** The state now is what action `a`, which sends nothing, makes of the state `s` that the trace leads to. */
    ghost method Record(s: State, a: Action)
      requires After(cfg, trace) == Some(s) && Enabled(cfg, s, a) && state == Apply(cfg, s, a) && Quiet(a)
      requires Wired(cfg, trace, wire)
      requires |uncorrelated| <= MAX_PEER_ACTIVITY && |notifications| <= MAX_PEER_ACTIVITY
      modifies this`trace
      ensures Valid() && trace == old(trace) + [a]
    {
      hide Enabled, Apply, After, Wired, Quiet;
      AfterStep(cfg, trace, a);
      QuietHasNoDuty(cfg, s, a);
      WiredQuiet(cfg, trace, wire, s, a);
      trace := trace + [a];
    }

    /** The same for an action that sends the frame `x`, which is the last on the wire. */
    ghost method RecordSent(s: State, a: Action, before: seq<Dispatch>, x: Dispatch)
      requires After(cfg, trace) == Some(s) && Enabled(cfg, s, a) && state == Apply(cfg, s, a)
      requires Wired(cfg, trace, before) && wire == before + [x]
      requires DutyOf(cfg, s, a).Some? && Meets(DutyOf(cfg, s, a).value, x)
      requires |uncorrelated| <= MAX_PEER_ACTIVITY && |notifications| <= MAX_PEER_ACTIVITY
      modifies this`trace
      ensures Valid() && trace == old(trace) + [a]
    {
      hide Enabled, Apply, After, Wired, DutyOf, Meets;
      AfterStep(cfg, trace, a);
      WiredLoud(cfg, trace, before, s, a, x);
      trace := trace + [a];
    }

    /** Any instant that is not before the last one. */
    method Instant() returns (now: nat)
      ensures now >= state.clock
    {
      now :| now >= state.clock;
    }

    /** `Instant::now` */
    method ReadClock() returns (now: nat)
      requires Valid()
      modifies this`state, this`trace
      ensures Valid() && now >= old(state).clock && state == old(state).(clock := now)
      ensures trace == old(trace) + [Tick(now)]
    {
      hide After, Wired, Enabled, Apply;
      ghost var s := state;
      now := Instant();
      state := state.(clock := now);
      TickStep(cfg, s, now);
      Record(s, Tick(now));
    }

    /** `Transport::send`: any result, noted with its frame. */
    method Send(frame: Frame) returns (r: SendResult)
      modifies this`wire
      ensures wire == old(wire) + [Dispatch(frame, r)]
    {
      r := *;
      wire := wire + [Dispatch(frame, r)];
    }

    method PruneTombstones()
      requires Valid()
      modifies this`state, this`trace
      ensures Valid() && trace == old(trace) + [ExecutorProtocol.PruneTombstones]
      ensures state == ApplyPruneTombstones(old(state))
    {
      hide After, Wired;
      ghost var s := state;
      state := state.(tombstones :=
        state.tombstones - set k | k in state.tombstones && state.tombstones[k].expiresAt <= state.clock);
      Record(s, ExecutorProtocol.PruneTombstones);
    }

    /** `retain_terminal` */
    method RetainTerminal(slot: Slot, record: TerminalRecord, outcome: Outcome, now: nat)
      modifies this`state
      ensures state == old(state).(records := old(state).records[slot := record],
                                   completed := old(state).completed[slot := outcome],
                                   expirations := old(state).expirations[slot := TerminalExpiry(cfg, now)])
    {
      var expiresAt := if Fits(cfg, now, TERMINAL_RETENTION) then now + TERMINAL_RETENTION else now;
      state := state.(records := state.records[slot := record]);
      state := state.(expirations := state.expirations[slot := expiresAt]);
      state := state.(completed := state.completed[slot := outcome]);
    }

    /** `release_terminal` */
    method ReleaseTerminal(slot: Slot)
      modifies this`state
      ensures state == ApplyForget(old(state), slot, false)
    {
      state := state.(completed := state.completed - {slot}, records := state.records - {slot},
                      expirations := state.expirations - {slot});
    }

    method PruneRetainedTerminals()
      requires Valid()
      modifies this`state, this`trace
      ensures Valid() && trace == old(trace) + [PruneTerminals] && state == ApplyPruneTerminals(old(state))
    {
      hide After, Wired, Enabled, Apply, WithoutSlots, ApplyPruneTerminals;
      ghost var s := state;
      WithoutNobody(s);
      var expired := set x | x in state.expirations && state.expirations[x] <= state.clock;
      var left := expired;
      ghost var gone: set<Slot> := {};
      while left != {}
        invariant left <= expired && gone == expired - left && trace == old(trace)
        invariant state == WithoutSlots(s, gone)
      {
        var x :| x in left;
        ReleaseWithStream(x);
        WithoutOneMore(s, gone, x);
        left, gone := left - {x}, gone + {x};
      }
      assert gone == Expired(s);
      PruneStep(cfg, s);
      Record(s, PruneTerminals);
    }

    method ReleaseWithStream(slot: Slot)
      modifies this`state
      ensures state == WithoutSlots(old(state), {slot})
    {
      ReleaseTerminal(slot);
      state := state.(streams := state.streams - {slot});
    }

    /** `cancel_reverse_requests` */
    method CancelReverseRequests()
      modifies this`state
      ensures state == old(state).(reverse := CancelledAll(old(state).reverse))
    {
      hide TokensBut;
      var r := state.reverse;
      var left: set<CorrelationKey> := r.active.Keys;
      TokensAtEnds(r);
      while left != {}
        invariant left <= r.active.Keys
        invariant state == old(state).(reverse := r.(cancelled := r.cancelled + (TokensBut(r, left) - r.sent)))
      {
        var k :| k in left;
        CancelCallback(r.active[k].token);
        OneTokenMore(r, left, k);
        left := left - {k};
      }
      state := state.(reverse := state.reverse.(active := map[], queue := []));
    }

    /** `ReverseRequestCancellation::cancel`: only an open callback changes. */
    method CancelCallback(token: nat)
      modifies this`state
      ensures state == old(state).(reverse := old(state).reverse.(cancelled :=
                if IsOpen(old(state).reverse, token) then old(state).reverse.cancelled + {token}
                else old(state).reverse.cancelled))
    {
      if IsOpen(state.reverse, token) {
        state := state.(reverse := state.reverse.(cancelled := state.reverse.cancelled + {token}));
      }
    }

    /** `fail_all`: the first cause wins, every owner gets its outcome with its own reading of the clock, and nothing
        is left to correlate. */
    method FailAll(error: Error, reason: Reason) returns (ghost added: seq<Action>)
      requires Valid() && IsFailureReason(reason)
      modifies this`state, this`trace
      ensures Valid() && trace == old(trace) + added
      ensures old(state).terminalError.Some? ==> added == [] && state == old(state)
      ensures old(state).terminalError.None? ==> |added| == 1 && IsFailAll(added[0], error, reason)
      ensures OnlyHousekeeping(added)
      ensures state.terminalError
              == if old(state).terminalError.Some? then old(state).terminalError else Some(error)
      ensures state.nextGeneration == old(state).nextGeneration && state.history.admitted == old(state).history.admitted
              && state.shutdown == old(state).shutdown
      ensures old(state).terminalError.None? ==>
                state.pending == map[] && state.reverse == CancelledAll(old(state).reverse)
                && AllFailed(old(state).pending, state, error)
      ensures Saved(old(state), state, added)
    {
      hide After, Wired, Enabled, Apply, FailuresOf, ApplyFailAll, FailOne, FailRecord, OnlyHousekeeping, CancelledAll,
           ExpiriesWithin, TerminalExpiry, Saved, AllFailed, IsFailureReason;
      NothingToKeep();
      added := [];
      NothingLost(state, state, []);
      if state.terminalError.Some? { return; }
      OwnersHaveNoOutcome(cfg, trace);
      ghost var s := state;
      var owners, failedAt := state.pending, state.clock;
      state := state.(terminalError := Some(error), tombstones := map[], deferred := [], pending := map[]);
      CancelReverseRequests();
      var left: set<CorrelationKey> := owners.Keys;
      ghost var done: map<CorrelationKey, Owner> := map[];
      ghost var f := NO_FAILURES;
      NoFailures(cfg, s, error, reason);
      while left != {}
        invariant left <= owners.Keys && done == owners - left && trace == old(trace)
        invariant FailuresOf(done, s.clock, error, reason, f) && s.clock <= state.clock
        invariant ExpiriesWithin(cfg, s.clock, state.clock, f.expiries)
        invariant state == ApplyFailAll(s, error, f, state.clock)
      {
        var k :| k in left;
        var o := owners[k];
        ghost var was := state;
        var now := FailOwner(o, error, reason, failedAt);
        FailOneMore(done, k, o, s.clock, error, reason, f, TerminalExpiry(cfg, now));
        FailOneApplied(s, was.clock, o, error, reason, f, TerminalExpiry(cfg, now), now);
        OneMoreExpiry(cfg, s.clock, was.clock, now, f, o, s.clock, error, reason);
        f := FailOne(o, s.clock, error, reason, f, TerminalExpiry(cfg, now));
        left, done := left - {k}, done[k := o];
      }
      assert done == owners;
      FailAllStep(cfg, s, error, reason, f, state.clock);
      AppliedError(s, error, f, state.clock);
      AppliedOutcomes(s, error, reason, f, state.clock);
      added := [ExecutorProtocol.FailAll(error, reason, f, state.clock)];
      FailingIsHousekeeping(added[0]);
      FailingSaves(s, error, reason, f, state.clock, added);
      Record(s, added[0]);
    }

    /** The outcome of one owner of a failed connection. */
    method FailOwner(o: Owner, error: Error, reason: Reason, failedAt: nat) returns (now: nat)
      modifies this`state
      ensures old(state).clock <= now
      ensures var t := old(state);
              state == t.(completed := t.completed[SlotOf(o) := Failure(error)],
                          records := t.records[SlotOf(o) := FailRecord(reason)],
                          expirations := t.expirations[SlotOf(o) := TerminalExpiry(cfg, now)],
                          streams := t.streams - {SlotOf(o)}, clock := now,
                          history := t.history.(retired := t.history.retired[
                            o.generation := Retirement(reason, failedAt, true, Some(Failure(error)))]))
    {
      hide FailRecord, TerminalExpiry;
      now := Instant();
      state := state.(streams := state.streams - {SlotOf(o)}, clock := now,
                      history := state.history.(retired := state.history.retired[
                        o.generation := Retirement(reason, failedAt, true, Some(Failure(error)))]));
      RetainTerminal(SlotOf(o), FailRecord(reason), Failure(error), now);
    }

    /** One owner leaves `pending` through the ordinary transition: tombstone, terminal outcome, stream, and the notice
        to the peer when there is one. The tombstone counts from the reading of the clock before, the outcome from one
        more reading. */
    method RetireOwner(key: CorrelationKey, cause: Cause) returns (result: SendResult)
      requires Valid() && MayRetire(cfg, state, key, cause)
      modifies this`state, this`trace, this`wire
      ensures Valid() && old(state).clock <= state.clock
      ensures state == ApplyRetire(cfg, old(state), key, cause, state.clock)
      ensures state.pending == old(state).pending - {key} && state.terminalError == old(state).terminalError
              && state.deferred == old(state).deferred && state.shutdown == old(state).shutdown
      ensures var g := old(state).pending[key].generation;
              state.history.retired == old(state).history.retired[
                g := Retirement(ReasonOf(cause), old(state).clock, true, Some(OutcomeOf(cause)))]
      ensures trace == old(trace) + [Retire(key, cause, state.clock)]
      ensures wire == if Notifies(cause)
                      then old(wire) + [Dispatch(CancelFrame(cause.notice.value, old(state).pending[key].generation),
                                                 result)]
                      else old(wire)
      ensures Saved(old(state), state, [Retire(key, cause, state.clock)])
    {
      hide After, Wired, Enabled, Apply, RecordOf, OutcomeOf, ReasonOf, TerminalExpiry, Saved, MayRetire;
      ghost var s, before := state, wire;
      RetireFacts(cfg, s, key, cause);
      var generation := state.pending[key].generation;
      OwnersHaveNoOutcome(cfg, trace);
      LeavePending(key, cause);
      ghost var a := Retire(key, cause, state.clock);
      RetireStep(cfg, s, key, cause, state.clock);
      RetiringSaves(cfg, s, key, cause, state.clock, [a]);
      result := Sent;
      if Notifies(cause) {
        result := Send(CancelFrame(cause.notice.value, generation));
        RetireDuty(cfg, s, key, cause, state.clock, result);
        RecordSent(s, a, before, Dispatch(CancelFrame(cause.notice.value, generation), result));
      } else {
        Record(s, a);
      }
    }

    method LeavePending(key: CorrelationKey, cause: Cause)
      requires key in state.pending
      modifies this`state
      ensures old(state).clock <= state.clock && state == ApplyRetire(cfg, old(state), key, cause, state.clock)
    {
      hide RecordOf, OutcomeOf, TerminalExpiry, ApplyRetire, Departed;
      var o, now := state.pending[key], state.clock;
      var recordedAt := Instant();
      RetireParts(cfg, state, key, cause, recordedAt);
      RetainTerminal(SlotOf(o), RecordOf(cause), OutcomeOf(cause), recordedAt);
      state := Departed(cfg, state, key, o, cause, now, recordedAt);
    }

    /** `cancel_pending_with_notification_locked`: cancels whoever owns the key of `id` now. */
    method CancelPending(id: RequestId, reason: Reason, wanted: bool)
      returns (r: Result<(), Error>, ghost added: seq<Action>, ghost sent: seq<Dispatch>)
      requires Valid() && (if wanted then IsCancelReason(reason) else reason == PeerSubscriptionTeardown)
      modifies this`state, this`trace, this`wire
      ensures Valid() && trace == old(trace) + added && wire == old(wire) + sent
      ensures Cancels(cfg, old(state), id, reason, wanted, added, sent, r)
      ensures state.shutdown == old(state).shutdown
      ensures r.Ok? ==> state.terminalError == old(state).terminalError && state.deferred == old(state).deferred
      ensures NobodyNew(old(state).pending, state.pending)
      ensures cfg.keyOf(id).Some? && cfg.keyOf(id).value in state.pending ==>
                wanted && state.pending[cfg.keyOf(id).value].rpc != Initialize && !cfg.encodable(id)
      ensures Saved(old(state), state, added)
      ensures r.Ok? ==> cfg.keyOf(id).Some? && state.pending == old(state).pending - {cfg.keyOf(id).value}
      ensures r.Ok? && cfg.keyOf(id).value in old(state).pending ==>
                var g := old(state).pending[cfg.keyOf(id).value].generation;
                RetiredFor(state.history, old(state).pending[cfg.keyOf(id).value], reason)
                && state.history.retired == old(state).history.retired[g := state.history.retired[g]]
    {
      hide After, Wired, Abandons, Saved, NobodyNew, CancelError;
      NobodyLeft(cfg, state.pending);
      added, sent := [], [];
      NothingLost(state, state, []);
      var found := cfg.keyOf(id);
      if found.None? {
        r := Err("Request cancellation requires a valid JSON-RPC request ID");
        return;
      }
      var key := found.value;
      if key !in state.pending {
        r := Ok(());
        return;
      }
      var notify := wanted && state.pending[key].rpc != Initialize;
      if notify && !cfg.encodable(id) {
        r := Err("Invalid cancellation control parameters");
        return;
      }
      r, added, sent := Abandon(key, reason, if notify then Some(id) else None);
    }

    /** The owner of `key` leaves and, when there is a notice, the peer is told. */
    method Abandon(key: CorrelationKey, reason: Reason, notice: Option<RequestId>)
      returns (r: Result<(), Error>, ghost added: seq<Action>, ghost sent: seq<Dispatch>)
      requires Valid() && key in state.pending
      requires IsCancelReason(reason) || reason == PeerSubscriptionTeardown
      requires notice.Some? <==> IsCancelReason(reason) && state.pending[key].rpc != Initialize
      requires notice.Some? ==> cfg.keyOf(notice.value) == Some(key)
      modifies this`state, this`trace, this`wire
      ensures Valid() && trace == old(trace) + added && wire == old(wire) + sent
      ensures Abandons(cfg, key, reason, notice, added, sent, r)
      ensures state.shutdown == old(state).shutdown && key !in state.pending
      ensures NobodyNew(old(state).pending, state.pending) && Saved(old(state), state, added)
      ensures r.Ok? ==> state.terminalError == old(state).terminalError && state.deferred == old(state).deferred
                        && state.pending == old(state).pending - {key}
      ensures r.Ok? ==> var g := old(state).pending[key].generation;
                        RetiredFor(state.history, old(state).pending[key], reason)
                        && state.history.retired == old(state).history.retired[g := state.history.retired[g]]
    {
      hide After, Wired, MayRetire, IsCancelReason, ApplyLose, Fits, Saved, NobodyNew, RecordOf, Abandons,
           IsFailAll, CancelError;
      FailedIsEmpty(cfg, trace);
      NobodyLeft(cfg, state.pending);
      var now := ReadClock();
      ghost var s := state;
      NothingLost(old(state), s, [Tick(now)]);
      if !Fits(cfg, now, cfg.retention) {
        LoseOwner(key, reason);
        LosingSaves(s, key, reason, [Lose(key, reason)]);
        SavedJoins(old(state), s, state, [Tick(now)], [Lose(key, reason)]);
        OneFewerPending(s.pending, key);
        AbandonsLost(cfg, key, reason, notice, now);
        return Err(CLOCK_RANGE), [Tick(now)] + [Lose(key, reason)], [];
      }
      RetireAllowed(cfg, state, key, reason, notice);
      ghost var more;
      r, more, sent := RetireAndTell(key, Abandoned(reason, notice, CancelError(reason)));
      SavedJoins(old(state), s, state, [Tick(now)], more);
      AbandonsRetired(cfg, key, reason, notice, now, more, sent, r);
      added := [Tick(now)] + more;
    }

    /** An owner leaves; a notice that cannot be sent fails the connection. */
    method RetireAndTell(key: CorrelationKey, cause: Cause)
      returns (r: Result<(), Error>, ghost added: seq<Action>, ghost sent: seq<Dispatch>)
      requires Valid() && MayRetire(cfg, state, key, cause) && state.terminalError.None?
      modifies this`state, this`trace, this`wire
      ensures Valid() && trace == old(trace) + added && wire == old(wire) + sent
      ensures |sent| == (if Notifies(cause) then 1 else 0) && (r.Ok? <==> sent == [] || sent[0].result.Sent?)
      ensures |added| == (if r.Ok? then 1 else 2) && added[0].Retire? && added[0].key == key && added[0].cause == cause
      ensures r.Err? ==> added[1].FailAll?
      ensures state.shutdown == old(state).shutdown && key !in state.pending
      ensures NobodyNew(old(state).pending, state.pending) && Saved(old(state), state, added)
      ensures r.Ok? ==> state.terminalError == old(state).terminalError && state.deferred == old(state).deferred
                        && state.pending == old(state).pending - {key}
                        && var g := old(state).pending[key].generation;
                           g in state.history.retired && state.history.retired[g].reason == ReasonOf(cause)
                           && state.history.retired[g].outcome == Some(OutcomeOf(cause))
                           && state.history.retired == old(state).history.retired[g := state.history.retired[g]]
    {
      hide After, Wired, MayRetire, ApplyRetire, OutcomeOf, ReasonOf, Saved, NobodyNew, OnlyHousekeeping, CancelledAll;
      RetireFacts(cfg, state, key, cause);
      var result := RetireOwner(key, cause);
      ghost var s := state;
      OneFewerPending(old(state).pending, key);
      r, added, sent := Ok(()), [Retire(key, cause, state.clock)], wire[|old(wire)|..];
      if Notifies(cause) && !result.Sent? {
        ghost var more := FailAll("transport", ConnectionLost);
        SavedJoins(old(state), s, state, added, more);
        NobodyIsNobody(old(state).pending);
        r, added := Err("transport"), added + more;
      }
    }

    /** The clock has no room for the tombstone: the owner is gone and nothing replaces it. */
    method LoseOwner(key: CorrelationKey, reason: Reason)
      requires Valid() && key in state.pending && !Fits(cfg, state.clock, cfg.retention)
      modifies this`state, this`trace
      ensures Valid() && trace == old(trace) + [Lose(key, reason)] && state == ApplyLose(old(state), key, reason)
      ensures state.shutdown == old(state).shutdown && state.pending == old(state).pending - {key}
    {
      hide After, Wired, Enabled, Apply;
      ghost var s := state;
      var o, h := state.pending[key], state.history;
      state := state.(pending := state.pending - {key},
                      history := h.(retired :=
                        h.retired[o.generation := Retirement(reason, state.clock, false, None)]));
      LoseStep(cfg, s, key, reason);
      Record(s, Lose(key, reason));
    }

    /** `flush_deferred_drop_cancellations_locked` */
    method FlushDeferredCancellations()
      returns (r: Result<(), Error>, ghost added: seq<Action>, ghost sent: seq<Dispatch>)
      requires Valid()
      modifies this`state, this`trace, this`wire
      ensures Valid() && trace == old(trace) + added && wire == old(wire) + sent && OnlyHousekeeping(added)
      ensures r.Ok? <==> Clean(added, sent)
      ensures Saved(old(state), state, added) && NobodyNew(old(state).pending, state.pending)
      ensures state.nextGeneration == old(state).nextGeneration && state.history.admitted == old(state).history.admitted
      ensures r.Ok? ==> state.deferred == [] && |added| == |sent| == |old(state).deferred|
      ensures r.Ok? ==> state.pending == old(state).pending && state.terminalError == old(state).terminalError
                        && state.shutdown == old(state).shutdown && state.tombstones == old(state).tombstones
                        && state.completed == old(state).completed
      ensures r.Err? ==> state.terminalError.Some?
    {
      hide After, Wired, Enabled, Apply, IsFailAll, OnlyHousekeeping, Clean, Saved, CancelledAll, NobodyNew;
      NothingToKeep();
      NothingUnclean();
      NobodyLeft(cfg, state.pending);
      NobodyIsNobody(state.pending);
      added, sent := [], [];
      NothingLost(state, state, []);
      while state.deferred != []
        invariant Valid() && trace == old(trace) + added && wire == old(wire) + sent && OnlyHousekeeping(added)
        invariant Clean(added, sent) && |sent| == |added|
        invariant state == old(state).(deferred := state.deferred, records := state.records, history := state.history)
        invariant state.history.admitted == old(state).history.admitted
        invariant |added| + |state.deferred| == |old(state).deferred|
        decreases |state.deferred|
      {
        ghost var slot := state.deferred[0];
        var result := FlushOne();
        HousekeepingJoins(added, [FlushDeferred]);
        ghost var x := Dispatch(CancelFrame(slot.0, slot.1), result);
        FlushedCleanly(added, sent, x);
        added, sent := added + [FlushDeferred], sent + [x];
        if !result.Sent? {
          ghost var s := state;
          ghost var more := FailAll("transport", ConnectionLost);
          HousekeepingJoins(added, more);
          CleanJoins(added, sent, more, []);
          assert sent + [] == sent;
          NothingLost(old(state), s, added);
          SavedJoins(old(state), s, state, added, more);
          return Err("transport"), added + more, sent;
        }
      }
      NothingLost(old(state), state, added);
      return Ok(()), added, sent;
    }

    /** The first deferred notice is taken, counted and sent. */
    method FlushOne() returns (result: SendResult)
      requires Valid() && state.deferred != []
      modifies this`state, this`trace, this`wire
      ensures Valid() && trace == old(trace) + [FlushDeferred] && state == ApplyFlush(old(state))
      ensures var slot := old(state).deferred[0]; wire == old(wire) + [Dispatch(CancelFrame(slot.0, slot.1), result)]
    {
      hide After, Wired, Enabled, Apply, Meets;
      ghost var s, before := state, wire;
      var slot, h := state.deferred[0], state.history;
      state := state.(deferred := state.deferred[1..]);
      if slot in state.records {
        var record := state.records[slot];
        var attempts := record.cancellationAttempts + 1;
        state := state.(records := state.records[slot := record.(cancellationAttempts := attempts)]);
      }
      state := state.(history := h.(cancels := h.cancels + multiset{slot.1}));
      result := Send(CancelFrame(slot.0, slot.1));
      FlushStep(cfg, s);
      FlushDuty(cfg, s, result);
      RecordSent(s, FlushDeferred, before, Dispatch(CancelFrame(slot.0, slot.1), result));
    }

    /** A dropped owner is cancelled, and its outcome, which nobody can take, is forgotten. */
    method CancelAbandoned(key: CorrelationKey)
      returns (r: Result<(), Error>, ghost added: seq<Action>, ghost sent: seq<Dispatch>)
      requires Valid() && key in state.pending && state.pending[key].dropped
      modifies this`state, this`trace, this`wire
      ensures Valid() && trace == old(trace) + added && wire == old(wire) + sent && OnlyHousekeeping(added)
      ensures r.Ok? <==> Clean(added, sent) && !Stuck(cfg, old(state).pending[key])
      ensures SlotOf(old(state).pending[key]) !in state.completed
      ensures forall x | x in old(state).completed && x != SlotOf(old(state).pending[key]) ::
                x in state.completed && state.completed[x] == old(state).completed[x]
      ensures r.Ok? ==> state.pending == old(state).pending - {key}
                        && state.terminalError == old(state).terminalError && state.deferred == old(state).deferred
    {
      hide After, Wired, Enabled, Apply, IsFailAll, Cancels, Clean, OnlyHousekeeping;
      OwnersCorrelate(cfg, trace);
      var o := state.pending[key];
      assert cfg.keyOf(o.id) == Some(key);
      r, added, sent := CancelPending(o.id, CallerDropped, true);
      CancellingIsHousekeeping(cfg, old(state), o.id, CallerDropped, true, added, sent, r);
      CancelsCleanly(cfg, old(state), o.id, CallerDropped, true, added, sent, r);
      assert r.Ok? <==> Clean(added, sent) && !Stuck(cfg, o);
      ghost var s := state;
      DroppedStayGone(cfg, old(trace), added, key);
      ReleaseTerminal(SlotOf(o));
      ForgetStep(cfg, s, SlotOf(o));
      Record(s, Forget(SlotOf(o)));
      OnlyForgets(added, sent, SlotOf(o));
      added := added + [Forget(SlotOf(o))];
    }

    /** `drain_abandoned_locked`: expired fences and outcomes go, deferred notices are sent, and owners whose handle
        was dropped while the lock was taken are cancelled. */
    method DrainAbandoned() returns (r: Result<(), Error>, ghost added: seq<Action>, ghost sent: seq<Dispatch>)
      requires Valid()
      modifies this`state, this`trace, this`wire
      ensures Valid() && trace == old(trace) + added && wire == old(wire) + sent
      ensures OnlyHousekeeping(added) && Prunes(added, 0)
      ensures r.Ok? <==> Drains(cfg, old(state), added, sent)
      ensures r.Ok? ==> state.deferred == [] && state.terminalError == old(state).terminalError
      ensures r.Ok? ==> state.pending == old(state).pending - Dropped(old(state).pending)
                        && Drained(old(state).pending, state.pending)
    {
      hide After, Wired, ApplyPruneTerminals, ApplyPruneTombstones, IsFailAll, OnlyHousekeeping, Clean, Stuck, Saved;
      var now := ReadClock();
      PruneTombstones();
      PruneRetainedTerminals();
      PruningKeeps(old(state).(clock := now));
      ghost var pruned := [Tick(now), ExecutorProtocol.PruneTombstones, PruneTerminals];
      PrunedCleanly(now);
      r, added, sent := FlushDeferredCancellations();
      HousekeepingJoins(pruned, added);
      CleanJoins(pruned, [], added, sent);
      assert [] + sent == sent;
      added := pruned + added;
      if r.Err? { return; }
      ghost var more, results;
      r, more, results := CancelDropped();
      HousekeepingJoins(added, more);
      CleanJoins(added, sent, more, results);
      added, sent := added + more, sent + results;
    }

    /** The owners whose handle was dropped are cancelled one by one, until one cannot be. */
    method CancelDropped() returns (r: Result<(), Error>, ghost added: seq<Action>, ghost sent: seq<Dispatch>)
      requires Valid()
      modifies this`state, this`trace, this`wire
      ensures Valid() && trace == old(trace) + added && wire == old(wire) + sent && OnlyHousekeeping(added)
      ensures r.Ok? <==> Drains(cfg, old(state), added, sent)
      ensures r.Ok? ==> state.deferred == old(state).deferred && state.terminalError == old(state).terminalError
      ensures r.Ok? ==> state.pending == old(state).pending - Dropped(old(state).pending)
                        && Drained(old(state).pending, state.pending)
    {
      hide After, Wired, OnlyHousekeeping, Clean, Stuck;
      NothingToKeep();
      NothingUnclean();
      r, added, sent := Ok(()), [], [];
      ghost var owners := state.pending;
      var left: set<CorrelationKey> := Dropped(state.pending);
      while left != {}
        invariant Valid() && trace == old(trace) + added && wire == old(wire) + sent && OnlyHousekeeping(added)
        invariant r.Ok? && Clean(added, sent) && Free(cfg, owners, Dropped(owners) - left)
        invariant left <= Dropped(owners) && state.pending == owners - (Dropped(owners) - left)
        invariant state.deferred == old(state).deferred && state.terminalError == old(state).terminalError
      {
        var key :| key in left;
        ghost var more, results;
        r, more, results := CancelAbandoned(key);
        HousekeepingJoins(added, more);
        CleanJoins(added, sent, more, results);
        added, sent := added + more, sent + results;
        if r.Err? { return; }
        left := left - {key};
      }
    }

    method ExpireOne(key: CorrelationKey, reason: Reason)
      returns (r: Result<(), Error>, ghost added: seq<Action>, ghost sent: seq<Dispatch>)
      requires Valid() && key in state.pending && IsCancelReason(reason)
      modifies this`state, this`trace, this`wire
      ensures Valid() && trace == old(trace) + added && wire == old(wire) + sent && OnlyHousekeeping(added)
      ensures r.Ok? <==> Clean(added, sent) && !Stuck(cfg, old(state).pending[key])
      ensures r.Ok? ==> state.pending == old(state).pending - {key}
                        && state.terminalError == old(state).terminalError && state.deferred == old(state).deferred
      ensures Saved(old(state), state, added) && NobodyNew(old(state).pending, state.pending)
      ensures r.Ok? ==> RetiredFor(state.history, old(state).pending[key], reason)
      ensures r.Ok? ==> forall o, why | RetiredFor(old(state).history, o, why) :: RetiredFor(state.history, o, why)
    {
      hide After, Wired, Cancels, IsCancelReason, Housekeeping, OnlyHousekeeping, Clean, Saved;
      OwnersCorrelate(cfg, trace);
      var o := state.pending[key];
      assert cfg.keyOf(o.id) == Some(key);
      r, added, sent := CancelPending(o.id, reason, true);
      CancellingIsHousekeeping(cfg, old(state), o.id, reason, true, added, sent, r);
      CancelsCleanly(cfg, old(state), o.id, reason, true, added, sent, r);
      assert r.Ok? <==> Clean(added, sent) && !Stuck(cfg, o);
    }

    /** `expire_timeouts_locked`: on success exactly the owners due at `at` are gone, each for its own reason. */
    method ExpireTimeouts(at: nat) returns (r: Result<(), Error>, ghost added: seq<Action>, ghost sent: seq<Dispatch>)
      requires Valid()
      modifies this`state, this`trace, this`wire
      ensures Valid() && trace == old(trace) + added && wire == old(wire) + sent && OnlyHousekeeping(added)
      ensures r.Ok? <==> Expires(cfg, old(state).pending, at, added, sent)
      ensures Saved(old(state), state, added) && NobodyNew(old(state).pending, state.pending)
      ensures r.Ok? ==> TimedOut(old(state).pending, state, at)
      ensures r.Ok? ==> state.pending == old(state).pending - Due(old(state).pending, at)
      ensures r.Ok? ==> state.terminalError == old(state).terminalError && state.deferred == old(state).deferred
    {
      hide After, Wired, Enabled, Apply, Housekeeping, OnlyHousekeeping, RetiredFor, Clean, Stuck, Saved, NobodyNew,
           TimedOut;
      NothingLost(state, state, []);
      NobodyLeft(cfg, state.pending);
      NothingToKeep();
      NothingUnclean();
      added, sent := [], [];
      var owners := state.pending;
      var left: set<CorrelationKey> := Due(owners, at);
      r := Ok(());
      while left != {}
        invariant Valid() && trace == old(trace) + added && wire == old(wire) + sent && OnlyHousekeeping(added)
        invariant r.Ok? && Clean(added, sent) && Free(cfg, owners, Due(owners, at) - left)
        invariant Saved(old(state), state, added) && NobodyNew(owners, state.pending)
        invariant left <= Due(owners, at) && state.pending == owners - (Due(owners, at) - left)
        invariant state.terminalError == old(state).terminalError && state.deferred == old(state).deferred
        invariant forall k | k in Due(owners, at) - left ::
                    RetiredFor(state.history, owners[k], TimeoutReason(owners[k], at))
      {
        var key :| key in left;
        ghost var more, results;
        ghost var s := state;
        r, more, results := ExpireOne(key, TimeoutReason(owners[key], at));
        SavedJoins(old(state), s, state, added, more);
        NobodyNewYet(owners, s.pending, state.pending);
        HousekeepingJoins(added, more);
        CleanJoins(added, sent, more, results);
        added, sent := added + more, sent + results;
        if r.Err? { return; }
        left := left - {key};
      }
      assert Due(owners, at) - left == Due(owners, at);
      TimedOutByReason(cfg, trace, state, owners, at);
    }

    /** `next_pending_deadline` */
    method NextPendingDeadline() returns (r: Option<nat>)
      ensures IsNextDeadline(state.pending, r)
    {
      r := None;
      var left: set<CorrelationKey> := state.pending.Keys;
      while left != {}
        invariant left <= state.pending.Keys && IsNextDeadline(state.pending - left, r)
      {
        var k :| k in left;
        var o := state.pending[k];
        var deadline := if o.idle < o.absolute then o.idle else o.absolute;
        EarlierDeadline(state.pending - left, r, k, o);
        r := if r.None? || deadline < r.value then Some(deadline) else r;
        assert state.pending - (left - {k}) == (state.pending - left)[k := state.pending[k]];
        left := left - {k};
      }
      assert state.pending - left == state.pending;
    }

    /** `poll_timeouts_at`: on success nobody pending is due at `at`. */
    method PollTimeoutsAt(at: nat) returns (r: Result<(), Error>, ghost added: seq<Action>, ghost sent: seq<Dispatch>)
      requires Valid()
      modifies this`state, this`trace, this`wire
      ensures Valid() && trace == old(trace) + added && wire == old(wire) + sent && OnlyHousekeeping(added)
      ensures r.Ok? <==> Polls(cfg, old(state), at, added, sent)
      ensures var dropped := set k | k in old(state).pending && old(state).pending[k].dropped;
              var live := old(state).pending - dropped;
              r.Ok? ==> TimedOut(live, state, at) && state.deferred == []
                        && (forall k | k in live && k !in state.pending :: SlotOf(live[k]) in state.completed)
      ensures r.Ok? ==> state.terminalError == old(state).terminalError
    {
      hide After, Wired, OnlyHousekeeping, RetiredFor, Clean, Free, Saved;
      r, added, sent := DrainAbandoned();
      if r.Err? { return; }
      ghost var more, results;
      ghost var s := state;
      r, more, results := ExpireTimeouts(at);
      if r.Ok? { CleanlySaved(s, state, more, results); }
      HousekeepingJoins(added, more);
      CleanJoins(added, sent, more, results);
      added, sent := added + more, sent + results;
    }

    /** `prepare_drive_locked`; timeouts are measured against the second reading of the clock. */
    method PrepareDrive()
      returns (r: Result<(), Error>, ghost added: seq<Action>, ghost sent: seq<Dispatch>, ghost at: nat)
      requires Valid()
      modifies this`state, this`trace, this`wire
      ensures Valid() && trace == old(trace) + added && wire == old(wire) + sent && OnlyHousekeeping(added)
      ensures r.Ok? <==> old(state).terminalError.None? && Polls(cfg, old(state), at, added, sent)
      ensures r.Ok? ==> Ready(state, at) && Tick(at) in added
    {
      hide After, Wired, OnlyHousekeeping, Clean, Free;
      r, added, sent := DrainAbandoned();
      at := state.clock;
      if r.Err? { return; }
      var now := ReadClock();
      at := now;
      OnlyATick(now);
      HousekeepingJoins(added, [Tick(now)]);
      CleanJoins(added, sent, [Tick(now)], []);
      assert sent + [] == sent;
      added := added + [Tick(now)];
      assert added[|added| - 1] == Tick(now);
      ghost var more, results;
      r, more, results := ExpireTimeouts(now);
      HousekeepingJoins(added, more);
      CleanJoins(added, sent, more, results);
      added, sent := added + more, sent + results;
      if r.Ok? && state.terminalError.Some? { r := Err(state.terminalError.value); }
    }

    // ----- Routing what the peer writes -----

    /** `route_response_with_raw_result_locked`: only the pending owner of the canonical key can be completed.
        `defect` is what typed decoding found wrong. */
    method RouteResponse(id: Option<RequestId>, payload: Payload, defect: Option<Error>)
      returns (r: Result<(), Error>, ghost added: seq<Action>)
      requires Valid()
      modifies this`state, this`trace, this`wire, this`uncorrelated
      ensures Valid() && trace == old(trace) + added && wire == old(wire)
      ensures RoutesResponse(cfg, old(state), id, payload, defect, |old(uncorrelated)| < MAX_PEER_ACTIVITY, added, r)
      ensures uncorrelated == if KeepsDiagnostic(cfg, old(state), id) && |old(uncorrelated)| < MAX_PEER_ACTIVITY
                              then old(uncorrelated) + [payload] else old(uncorrelated)
      ensures var found := if id.Some? then cfg.keyOf(id.value) else None;
              found.Some? && found.value !in old(state).tombstones && |old(uncorrelated)| < MAX_PEER_ACTIVITY ==>
                (uncorrelated != old(uncorrelated) <==> found.value !in old(state).pending)
    {
      hide After, Wired, Enabled, Apply, MayRetire, ApplyRetire, OnlyHousekeeping;
      r, added := Ok(()), [];
      if id.None? || cfg.keyOf(id.value).None? {
        added := FailAll("invalid response id", ConnectionLost);
        return;
      }
      var key := cfg.keyOf(id.value).value;
      if key in state.tombstones {
        if state.tombstones[key].keepsDiagnostic { added := RetainUncorrelated(payload); }
        return;
      }
      if key !in state.pending {
        added := RetainUncorrelated(payload);
        return;
      }
      var now := ReadClock();
      if !Fits(cfg, now, cfg.retention) { return Err(CLOCK_RANGE), [Tick(now)]; }
      var cause := if defect.Some? then Malformed(defect.value) else Answered(payload);
      AnswerAllowed(cfg, state, key, cause);
      var _ := RetireOwner(key, cause);
      added := [Tick(now), Retire(key, cause, state.clock)];
    }

    /** `retain_uncorrelated_response`; a full queue fails the connection. */
    method RetainUncorrelated(payload: Payload) returns (ghost added: seq<Action>)
      requires Valid()
      modifies this`state, this`trace, this`uncorrelated
      ensures Valid() && trace == old(trace) + added
      ensures if |old(uncorrelated)| < MAX_PEER_ACTIVITY
              then added == [] && state == old(state) && uncorrelated == old(uncorrelated) + [payload]
              else uncorrelated == old(uncorrelated) && Fails(old(state), added)
    {
      hide After, Wired, OnlyHousekeeping;
      if |uncorrelated| < MAX_PEER_ACTIVITY {
        uncorrelated, added := uncorrelated + [payload], [];
      } else {
        added := FailAll("Client uncorrelated-response queue is full", ConnectionLost);
      }
    }

    /** `route_stream_notification_locked`: progress counts for the one owner that advertised its marker, and only when
        it exceeds what that owner has accepted. */
    method RouteProgress(marker: Marker, value: real) returns (r: Result<bool, Error>, ghost added: seq<Action>)
      requires Valid()
      modifies this`state, this`trace
      ensures Valid() && trace == old(trace) + added
      ensures RoutesProgress(cfg, old(state), marker, value, added, r)
    {
      hide After, Wired, Enabled, Apply, IdleAfterProgress, StreamOf, UniqueMarker, Ignores;
      var matching := Matching(state.pending, marker);
      IgnoredUnlessOne(state, marker, value);
      if |matching| != 1 { return Ok(false), []; }
      var key :| key in matching;
      var o := state.pending[key];
      if o.lastProgress.Some? && value <= o.lastProgress.value { return Ok(false), []; }
      r, added := ProgressFor(key, value);
    }

    /** The owner of `key` gets the value. */
    method ProgressFor(key: CorrelationKey, value: real) returns (r: Result<bool, Error>, ghost added: seq<Action>)
      requires Valid() && key in state.pending && UniqueMarker(state.pending, key)
      requires state.pending[key].lastProgress.Some? ==> state.pending[key].lastProgress.value < value
      modifies this`state, this`trace
      ensures Valid() && trace == old(trace) + added
      ensures AcceptsProgress(cfg, old(state), key, value, added, r)
    {
      hide After, Wired, Enabled, Apply, IdleAfterProgress, StreamOf, UniqueMarker;
      var o := state.pending[key];
      added := [];
      if o.resets {
        var now := ReadClock();
        added := [Tick(now)];
        if !Fits(cfg, now, o.idleTimeout) {
          AcceptProgress(key, value, false);
          return Err("Client idle deadline exceeds the clock range"), added + [Progress(key, value, false)];
        }
      }
      var kept := |StreamOf(state.streams, SlotOf(o))| < MAX_PEER_ACTIVITY;
      AcceptProgress(key, value, kept);
      r := if kept then Ok(true) else Err("Client request stream queue is full");
      added := added + [Progress(key, value, kept)];
    }

    method AcceptProgress(key: CorrelationKey, value: real, kept: bool)
      requires Valid() && MayProgress(cfg, state, key, value, kept)
      modifies this`state, this`trace
      ensures Valid() && trace == old(trace) + [Progress(key, value, kept)]
      ensures state == ApplyProgress(cfg, old(state), key, value, kept)
    {
      hide After, Wired, Enabled, Apply, UniqueMarker, ApplyProgress;
      ghost var s := state;
      MoveDeadline(key, value, kept);
      ProgressStep(cfg, s, key, value, kept);
      Record(s, Progress(key, value, kept));
    }

    /** The owner remembers the value, its idle deadline may move, and the value may join its stream. */
    method MoveDeadline(key: CorrelationKey, value: real, kept: bool)
      requires key in state.pending
      modifies this`state
      ensures state == ApplyProgress(cfg, old(state), key, value, kept)
    {
      hide StreamOf;
      var o := state.pending[key].(lastProgress := Some(value));
      if o.resets && Fits(cfg, state.clock, o.idleTimeout) {
        var next := state.clock + o.idleTimeout;
        o := o.(idle := if next < o.absolute then next else o.absolute);
      }
      var slot := SlotOf(o);
      var streams := if kept then state.streams[slot := StreamOf(state.streams, slot) + [value]] else state.streams;
      state := state.(pending := state.pending[key := o], streams := streams);
    }

    /** `route_cancellation_notification_locked`: a legacy peer withdraws one of its own requests, a modern peer ends a
        subscription of ours. */
    method RouteCancelled(id: RequestId, subscription: Option<RequestId>)
      returns (r: Result<(), Error>, ghost added: seq<Action>)
      requires Valid()
      modifies this`state, this`trace, this`wire
      ensures Valid() && trace == old(trace) + added && wire == old(wire)
      ensures var found := cfg.keyOf(id);
              if !modern then r.Ok? && added == [Reverse(PeerCancel(id))]
              else if found.Some? && (subscription.None? || cfg.keyOf(subscription.value) == found)
                      && found.value in old(state).pending
                      && old(state).pending[found.value].rpc == SubscriptionsListen
              then Cancels(cfg, old(state), old(state).pending[cfg.keyOf(id).value].id, PeerSubscriptionTeardown, false,
                           added, [], r)
              else r.Ok? && added == []
    {
      hide After, Wired, Cancels;
      r, added := Ok(()), [];
      if !modern {
        WithdrawReverse(id);
        return Ok(()), [Reverse(PeerCancel(id))];
      }
      if SubscriptionEnds(cfg, state, id, subscription) {
        ghost var s, sent := state, [];
        r, added, sent := CancelPending(state.pending[cfg.keyOf(id).value].id, PeerSubscriptionTeardown, false);
        QuietCancel(cfg, s, s.pending[cfg.keyOf(id).value].id, PeerSubscriptionTeardown, added, sent, r);
      }
    }

    method WithdrawReverse(id: RequestId)
      requires Valid()
      modifies this`state, this`trace
      ensures Valid() && trace == old(trace) + [Reverse(PeerCancel(id))]
      ensures state == old(state).(reverse := ReverseApply(cfg.keyOf, old(state).reverse, PeerCancel(id)))
    {
      hide After, Wired, Enabled, Apply;
      ghost var s := state;
      var found := cfg.keyOf(id);
      if found.Some? && found.value in state.reverse.active {
        var c := state.reverse.active[found.value];
        state := state.(reverse := state.reverse.(active := state.reverse.active - {found.value}));
        CancelCallback(c.token);
        state := state.(reverse := state.reverse.(queue := WithoutToken(state.reverse.queue, c.token)));
      }
      ReverseStep(cfg, s, PeerCancel(id));
      Record(s, Reverse(PeerCancel(id)));
    }

    /** `retain_reverse_request`; a refusal fails the connection. */
    method RetainReverse(id: RequestId) returns (r: Result<(), Error>, ghost added: seq<Action>)
      requires Valid() && state.terminalError.None?
      modifies this`state, this`trace
      ensures Valid() && trace == old(trace) + added
      ensures if HasRoom(cfg, old(state).reverse, id)
              then ReverseEnabled(cfg.keyOf, old(state).reverse, Receive(id))
                   && r.Ok? && added == [Reverse(Receive(id))]
                   && state == old(state).(reverse := ReverseApply(cfg.keyOf, old(state).reverse, Receive(id)))
                   && state.reverse.queue == old(state).reverse.queue + [Capability(id, old(state).reverse.next)]
              else r.Err? && Fails(old(state), added)
    {
      hide After, Wired, Enabled, Apply, OnlyHousekeeping;
      var found := cfg.keyOf(id);
      if found.None? || found.value in state.reverse.active || |state.reverse.queue| >= MAX_REVERSE_QUEUE {
        added := FailAll("reverse request", ConnectionLost);
        return Err("reverse request"), added;
      }
      ghost var s := state;
      var c := Capability(id, state.reverse.next);
      state := state.(reverse := state.reverse.(active := state.reverse.active[found.value := c],
                                                next := state.reverse.next + 1,
                                                received := state.reverse.received[state.reverse.next := id]));
      state := state.(reverse := state.reverse.(queue := state.reverse.queue + [c]));
      ReverseStep(cfg, s, Receive(id));
      Record(s, Reverse(Receive(id)));
      return Ok(()), [Reverse(Receive(id))];
    }

    /** `take_reverse_requests` */
    method TakeReverseRequests() returns (taken: seq<Capability>)
      requires Valid()
      modifies this`state, this`trace
      ensures Valid() && trace == old(trace) + [Reverse(TakeRequests)] && taken == old(state).reverse.queue
      ensures forall c | c in taken :: Queued(cfg.keyOf, state.reverse, c)
    {
      hide After, Wired, Enabled, Apply;
      QueuedAreActive(cfg, trace);
      ghost var s := state;
      taken := state.reverse.queue;
      state := state.(reverse := state.reverse.(queue := []));
      ReverseStep(cfg, s, TakeRequests);
      Record(s, Reverse(TakeRequests));
    }

    /** `respond_to_reverse_request`: only the capability of the active request answers, and only once. */
    method RespondToReverse(c: Capability)
      returns (r: Result<(), Error>, ghost added: seq<Action>, ghost sent: seq<Dispatch>)
      requires Valid()
      modifies this`state, this`trace, this`wire
      ensures Valid() && trace == old(trace) + added && wire == old(wire) + sent
      ensures Responds(cfg, old(state), c, added, sent, r)
      ensures r.Ok? ==> state == old(state).(reverse := ReverseApply(cfg.keyOf, old(state).reverse, Answer(c)))
    {
      hide After, Wired, Enabled, Apply, OnlyHousekeeping, DutyOf, Meets, Saved, CancelledAll;
      sent := [];
      if state.shutdown || state.terminalError.Some? { return Err("unusable"), [], []; }
      var found := cfg.keyOf(c.id);
      if found.None? || found.value !in state.reverse.active { return Err("not a live peer request"), [], []; }
      var active := state.reverse.active[found.value];
      if active.token != c.token || !IsOpen(state.reverse, c.token) { return Err("not a live peer request"), [], []; }
      ghost var s, before := state, wire;
      var frame := ResponseFrame(active.id, c.token);
      var result := Send(frame);
      sent := [Dispatch(frame, result)];
      if !result.Sent? {
        SilentStep(cfg, s, Unanswered(c));
        AnswerDuty(cfg, s, Unanswered(c), c, result);
        RecordSent(s, Unanswered(c), before, sent[0]);
        added := [Unanswered(c)];
        if result.Fatal? {
          ghost var more := FailAll("transport", ConnectionLost);
          added := added + more;
        }
        return Err("transport"), added, sent;
      }
      CloseAnswered(c, found.value, active.id);
      ReverseStep(cfg, s, Answer(c));
      AnswerDuty(cfg, s, Reverse(Answer(c)), c, result);
      RecordSent(s, Reverse(Answer(c)), before, sent[0]);
      return Ok(()), [Reverse(Answer(c))], sent;
    }

    /** The answered request is closed: its callback has sent its response, and it is neither active nor queued. */
    method CloseAnswered(c: Capability, key: CorrelationKey, id: RequestId)
      requires ReverseEnabled(cfg.keyOf, state.reverse, Answer(c)) && cfg.keyOf(c.id) == Some(key)
      requires id == state.reverse.active[key].id
      modifies this`state
      ensures state == old(state).(reverse := ReverseApply(cfg.keyOf, old(state).reverse, Answer(c)))
    {
      var reverse := state.reverse;
      state := state.(reverse := reverse.(sent := reverse.sent + {c.token},
                                          answers := reverse.answers + multiset{(c.token, id)}));
      state := state.(reverse := state.reverse.(active := state.reverse.active - {key}));
      state := state.(reverse := state.reverse.(queue := WithoutKey(cfg.keyOf, state.reverse.queue, key)));
    }

    /** `reject_reverse_request_with_error_locked`: one error response, and nothing else unless the transport breaks. */
    method RejectReverse(id: RequestId)
      returns (r: Result<(), Error>, ghost added: seq<Action>, ghost sent: seq<Dispatch>)
      requires Valid() && state.terminalError.None?
      modifies this`state, this`trace, this`wire
      ensures Valid() && trace == old(trace) + added && wire == old(wire) + sent
      ensures Rejects(old(state), id, added, sent, r)
    {
      hide After, Wired, Enabled, Apply, OnlyHousekeeping, DutyOf, Meets, Saved, CancelledAll;
      ghost var s, before := state, wire;
      var result := Send(RejectionFrame(id));
      sent := [Dispatch(RejectionFrame(id), result)];
      SilentStep(cfg, s, Reject(id));
      RejectDuty(cfg, s, id, result);
      RecordSent(s, Reject(id), before, sent[0]);
      r, added := if result.Sent? then Ok(()) else Err("transport"), [Reject(id)];
      if result.Fatal? {
        ghost var more := FailAll("transport", ConnectionLost);
        added := added + more;
      }
    }

    /** `retain_notification`; a full queue fails the connection. */
    method RetainNotification(message: Inbound) returns (r: Result<(), Error>, ghost added: seq<Action>)
      requires Valid()
      modifies this`state, this`trace, this`notifications
      ensures Valid() && trace == old(trace) + added
      ensures Queues(old(state), Room(true, |old(notifications)| < MAX_PEER_ACTIVITY), added, r)
      ensures notifications == if |old(notifications)| < MAX_PEER_ACTIVITY then old(notifications) + [message]
                               else old(notifications)
    {
      hide After, Wired, OnlyHousekeeping, Saved, CancelledAll;
      if |notifications| < MAX_PEER_ACTIVITY {
        notifications := notifications + [message];
        return Ok(()), [];
      }
      added := FailAll("Client peer-activity queue is full", ConnectionLost);
      return Err("Client peer-activity queue is full"), added;
    }

    // ----- Requests and their handles -----

    /** `execute_with_timeout_policy`: housekeeping, then at most one attempt to send the request, in the state that the
        housekeeping left. A cancelled caller and a request without a valid id do nothing at all. */
    method Execute(cancelled: bool, request: Request, policy: TimeoutPolicy)
      returns (r: Result<RequestExecution, Error>, ghost before: seq<Action>, ghost flushed: seq<Dispatch>,
               ghost mid: State, ghost attempt: seq<Action>, ghost sent: seq<Dispatch>)
      requires Valid()
      modifies this`state, this`trace, this`wire
      ensures Valid() && trace == old(trace) + before + attempt && wire == old(wire) + flushed + sent
      ensures OnlyHousekeeping(before) && After(cfg, old(trace) + before) == Some(mid)
      ensures var usable := !cancelled && request.id.Some? && cfg.keyOf(request.id.value).Some?;
              if usable && Drains(cfg, old(state), before, flushed)
              then mid.deferred == []
                   && |before| >= 4 && before[|before| - 3] == ExecutorProtocol.PruneTombstones
                   && before[|before| - 1] == PruneTerminals
                   && Attempts(cfg, mid, cfg.keyOf(request.id.value).value, OrderOf(request.id.value, request, policy),
                               attempt, sent, r.Ok?)
              else r.Err? && attempt == [] && sent == [] && (!usable ==> before == [] && flushed == [])
      ensures r.Ok? ==> fresh(r.value) && !r.value.completed && request.id == Some(r.value.id)
                        && r.value.generation == mid.nextGeneration + 1 && Issued(r.value)
      ensures r.Ok? ==> var key := cfg.keyOf(r.value.id).value;
                        key in state.pending
                        && (var o := state.pending[key];
                            && SlotOf(o) == r.value.Slot() && o.rpc == request.rpc && o.marker == request.marker
                            && o.idle == state.clock + policy.idle && o.absolute == state.clock + policy.absolute
                            && o.idleTimeout == policy.idle && o.resets == policy.resets
                            && o.lastProgress.None? && !o.dropped)
    {
      hide After, Wired, OnlyHousekeeping, Attempts, Clean, Free;
      NothingToKeep();
      before, flushed, mid, attempt, sent := [], [], state, [], [];
      assert trace + [] == trace;
      if cancelled { return Err(CANCELLED), [], [], state, [], []; }
      if request.id.None? || cfg.keyOf(request.id.value).None? {
        return Err("invalid request id"), [], [], state, [], [];
      }
      var drained;
      drained, before, flushed := DrainAbandoned();
      mid := state;
      if drained.Err? { return Err(drained.error), before, flushed, state, [], []; }
      ghost var more := PruneAll();
      HousekeepingJoins(before, more);
      CleanJoins(before, flushed, more, []);
      assert flushed + [] == flushed;
      before, mid := before + more, state;
      assert trace == old(trace) + before;
      r, attempt, sent := SendAndOwn(cfg.keyOf(request.id.value).value, OrderOf(request.id.value, request, policy));
    }

    /** The two prunings of `execute`, each with its own reading of the clock. */
    method PruneAll() returns (ghost added: seq<Action>)
      requires Valid()
      modifies this`state, this`trace
      ensures Valid() && trace == old(trace) + added && OnlyHousekeeping(added)
      ensures |added| == 4 && added[1] == ExecutorProtocol.PruneTombstones && added[3] == PruneTerminals
      ensures state.deferred == old(state).deferred && Clean(added, [])
    {
      hide After, Wired;
      var first := ReadClock();
      PruneTombstones();
      var second := ReadClock();
      PruneRetainedTerminals();
      added := [Tick(first), ExecutorProtocol.PruneTombstones, Tick(second), PruneTerminals];
    }

    /** The admission checks, the send and the new owner. */
    method SendAndOwn(key: CorrelationKey, order: Order)
      returns (r: Result<RequestExecution, Error>, ghost added: seq<Action>, ghost sent: seq<Dispatch>)
      requires Valid() && state.deferred == [] && cfg.keyOf(order.id) == Some(key)
      modifies this`state, this`trace, this`wire
      ensures Valid() && trace == old(trace) + added && wire == old(wire) + sent
      ensures Attempts(cfg, old(state), key, order, added, sent, r.Ok?)
      ensures r.Ok? ==> key in state.pending
                        && state.pending[key] == OwnerFor(order, old(state).nextGeneration + 1, state.clock)
      ensures r.Ok? ==> fresh(r.value) && !r.value.completed && r.value.id == order.id
                        && r.value.generation == old(state).nextGeneration + 1 && Issued(r.value)
    {
      hide After, Wired, CanAdmit;
      var refusal := RefuseAdmission(key);
      if refusal.Some? { return Err(refusal.value), [], []; }
      if state.nextGeneration >= MAX_GENERATION { return Err("Client execution generation exhausted"), [], []; }
      ghost var x;
      r, added, x := Commit(key, order);
      sent := [x];
    }

    /** The request goes out; once the transport has taken it, it gets its owner unless a deadline overflows. */
    method Commit(key: CorrelationKey, order: Order)
      returns (r: Result<RequestExecution, Error>, ghost added: seq<Action>, ghost x: Dispatch)
      requires Valid() && MaySend(cfg, state, key, order, state.clock)
      modifies this`state, this`trace, this`wire
      ensures Valid() && trace == old(trace) + added && wire == old(wire) + [x]
      ensures Attempts(cfg, old(state), key, order, added, [x], r.Ok?)
      ensures r.Ok? ==> key in state.pending
                        && state.pending[key] == OwnerFor(order, old(state).nextGeneration + 1, state.clock)
      ensures r.Ok? ==> fresh(r.value) && !r.value.completed && r.value.id == order.id
                        && r.value.generation == old(state).nextGeneration + 1 && Issued(r.value)
    {
      hide After, Wired, Enabled, Apply, CanAdmit, OnlyHousekeeping, CancelledAll, ApplyOwn, ApplySend, DutyOf, Meets,
           Saved, OwnerFor;
      ghost var s := state;
      var generation := state.nextGeneration + 1;
      var result := Send(RequestFrame(order, generation));
      x := Dispatch(RequestFrame(order, generation), result);
      if !result.Sent? {
        SendStep(cfg, s, key, order, false, state.clock);
        Orphan(key, order, generation, false, state.clock, result, old(wire));
        added := [SendUnowned(key, order, false, s.clock)];
        if result.Fatal? {
          SentAnyway(cfg, s, key, order, false, s.clock);
          ghost var more := FailAll("transport", ConnectionLost);
          added := added + more;
        }
        return Err("transport"), added, x;
      }
      var now := Instant();
      if !Fits(cfg, now, order.idle) || !Fits(cfg, now, order.absolute) {
        SendStep(cfg, s, key, order, true, now);
        Orphan(key, order, generation, true, now, result, old(wire));
        return Err("Client execution deadline exceeds the clock range"), [SendUnowned(key, order, true, now)], x;
      }
      OwnStep(cfg, s, key, order, now);
      Own(key, order, generation, now, result, old(wire));
      OwnerIssued(s, key, order, now);
      var handle := new RequestExecution(order.id, generation);
      return Ok(handle), [SendOwned(key, order, now)], x;
    }

    /** The checks of `execute` in their order. */
    method RefuseAdmission(key: CorrelationKey) returns (refusal: Option<Error>)
      requires After(cfg, trace) == Some(state)
      ensures refusal.None? <==> CanAdmit(cfg, state, key)
      ensures refusal.None? <==>
                && !state.shutdown && state.terminalError.None? && key !in state.pending && key !in state.tombstones
                && |state.pending| + 1 <= cfg.maxInFlight
                && |state.pending| + |state.tombstones| + |state.completed| + 1 <= cfg.maxCorrelations
    {
      hide After, Wired;
      TerminalsAgree(cfg, trace);
      var retained := if |state.completed| < |state.records| then |state.records| else |state.completed|;
      if state.shutdown { return Some(SHUT_DOWN); }
      if state.terminalError.Some? { return state.terminalError; }
      if key in state.pending { return Some("Duplicate in-flight request ID"); }
      if key in state.tombstones { return Some("Tombstoned request ID cannot be reused"); }
      if |state.pending| >= cfg.maxInFlight { return Some("Client in-flight execution limit reached"); }
      if |state.pending| + |state.tombstones| + retained >= cfg.maxCorrelations {
        return Some("Client response correlation limit reached");
      }
      return None;
    }

    /** The generation is used up and nobody owns it. */
    method Orphan(key: CorrelationKey, order: Order, generation: nat, taken: bool, now: nat, ghost result: SendResult,
                  ghost before: seq<Dispatch>)
      requires Traced() && Enabled(cfg, state, SendUnowned(key, order, taken, now))
      requires Apply(cfg, state, SendUnowned(key, order, taken, now)) == ApplySend(state, key, order, taken, now)
      requires generation == state.nextGeneration + 1 && (result.Sent? <==> taken)
      requires Wired(cfg, trace, before) && wire == before + [Dispatch(RequestFrame(order, generation), result)]
      modifies this`state, this`trace
      ensures Valid() && trace == old(trace) + [SendUnowned(key, order, taken, now)]
      ensures state == ApplySend(old(state), key, order, taken, now)
    {
      hide After, Wired, Enabled, Apply, DutyOf, Meets;
      ghost var s := state;
      var h := state.history;
      state := state.(nextGeneration := generation, clock := now,
                      history := h.(sent := h.sent[generation := Sending(key, order, taken, now)]));
      SendDuty(cfg, s, SendUnowned(key, order, taken, now), order, result);
      RecordSent(s, SendUnowned(key, order, taken, now), before, Dispatch(RequestFrame(order, generation), result));
    }

    method Own(key: CorrelationKey, order: Order, generation: nat, now: nat, ghost result: SendResult,
               ghost before: seq<Dispatch>)
      requires Traced() && Enabled(cfg, state, SendOwned(key, order, now))
      requires Apply(cfg, state, SendOwned(key, order, now)) == ApplyOwn(state, key, order, now)
      requires generation == state.nextGeneration + 1 && result.Sent?
      requires Wired(cfg, trace, before) && wire == before + [Dispatch(RequestFrame(order, generation), result)]
      modifies this`state, this`trace
      ensures Valid() && trace == old(trace) + [SendOwned(key, order, now)]
      ensures state == ApplyOwn(old(state), key, order, now)
    {
      hide After, Wired, Enabled, Apply, DutyOf, Meets;
      ghost var s := state;
      var h := state.history;
      var o := Owner(order.id, generation, order.rpc, order.marker, now + order.idle, now + order.absolute, order.idle,
                     order.resets, None, false);
      state := state.(nextGeneration := generation, clock := now, pending := state.pending[key := o],
                      history := h.(
                        sent := h.sent[generation := Sending(key, order, true, now)],
                        admitted := h.admitted[generation := Admission(key, o.id, o.rpc, o.absolute, now)]));
      SendDuty(cfg, s, SendOwned(key, order, now), order, result);
      RecordSent(s, SendOwned(key, order, now), before, Dispatch(RequestFrame(order, generation), result));
    }

    /** `take_terminal_outcome`: an outcome leaves with its stream, once; a handle that is neither pending nor completed
        learns that its outcome has expired. */
    method TakeTerminalOutcome(h: RequestExecution)
      returns (r: Result<Option<(Outcome, seq<real>)>, Error>, ghost added: seq<Action>)
      requires Valid()
      modifies this`state, this`trace, h
      ensures Valid() && trace == old(trace) + added
      ensures if old(h.completed) then r.Err? && added == [] && state == old(state) && h.completed
              else Takes(cfg, old(state), h.Slot(), added, r)
                   && (h.completed <==> r.Ok? && r.value.Some?)
                   && state.pending == old(state).pending
      ensures r.Ok? && r.value.Some? ==>
                added != [] && added[|added| - 1] == HandOut(h.Slot(), r.value.value.0, r.value.value.1)
    {
      hide After, Wired, ApplyPruneTerminals, StreamOf;
      if h.completed { return Err("Request execution result was already consumed"), []; }
      TerminalsAgree(cfg, trace);
      var now := ReadClock();
      PruneRetainedTerminals();
      added := [Tick(now), PruneTerminals];
      var slot := (h.id, h.generation);
      PrunedSlot(old(state).(clock := now), slot);
      if slot !in state.completed {
        var pending := StillPending(slot);
        r := if pending.Ok? then Ok(None) else Err(pending.error);
        return;
      }
      var outcome, stream := HandOutcome(slot);
      h.completed := true;
      return Ok(Some((outcome, stream))), added + [HandOut(slot, outcome, stream)];
    }

    /** Whether an execution without an outcome still waits for one. */
    method StillPending(slot: Slot) returns (r: Result<(), Error>)
      ensures var found := cfg.keyOf(slot.0);
              r.Ok? <==> found.Some? && found.value in state.pending && state.pending[found.value].generation == slot.1
    {
      var found := cfg.keyOf(slot.0);
      if found.None? { return Err("Request execution owns an invalid JSON-RPC request ID"); }
      if found.value in state.pending && state.pending[found.value].generation == slot.1 { return Ok(()); }
      return Err("Request execution terminal result expired before it was consumed");
    }

    method HandOutcome(slot: Slot) returns (outcome: Outcome, stream: seq<real>)
      requires Valid() && slot in state.completed
      modifies this`state, this`trace
      ensures Valid() && trace == old(trace) + [HandOut(slot, outcome, stream)] && state.pending == old(state).pending
      ensures slot !in state.completed && slot !in state.streams
      ensures outcome == old(state).completed[slot] && stream == StreamOf(old(state).streams, slot)
    {
      hide After, Wired, Enabled, Apply;
      ghost var s := state;
      outcome, stream := state.completed[slot], StreamOf(state.streams, slot);
      ReleaseTerminal(slot);
      state := state.(streams := state.streams - {slot},
                      history := state.history.(handed := state.history.handed + multiset{slot.1}));
      HandOutStep(cfg, s, slot, outcome, stream);
      Record(s, HandOut(slot, outcome, stream));
    }

    /** `cancel`: through the id alone, so it reaches whoever owns that key now. On success the handle's own generation
        is retired, by this call or by an earlier one. */
    method Cancel(h: RequestExecution)
      returns (r: Result<(), Error>, ghost added: seq<Action>, ghost sent: seq<Dispatch>)
      requires Valid()
      modifies this`state, this`trace, this`wire
      ensures Valid() && trace == old(trace) + added && wire == old(wire) + sent
      ensures if h.completed then r.Err? && added == [] && sent == []
              else Cancels(cfg, old(state), h.id, CallerCancelled, true, added, sent, r)
      ensures r.Ok? ==> cfg.keyOf(h.id).Some? && cfg.keyOf(h.id).value !in state.pending
      ensures r.Ok? && old(Issued(h)) ==> Issued(h) && h.generation in state.history.retired
    {
      hide After, Wired, Cancels, Later;
      if h.completed { return Err("Request execution result was already consumed"), [], []; }
      r, added, sent := CancelPending(h.id, CallerCancelled, true);
      if old(Issued(h)) {
        StaysIssued(cfg, old(trace), added, (h.id, h.generation));
        if r.Ok? { GoneIsRetired(cfg, trace, (h.id, h.generation)); }
      }
    }

    /** Whatever the other holders of the executor do while this one does not hold the lock: the run goes on. */
    method Yield() returns (ghost added: seq<Action>)
      requires Valid()
      modifies this
      ensures Valid() && trace == old(trace) + added && old(wire) <= wire
    {
      added := [];
    }

    /** The end of `wait_for_terminal` once the caller's context is cancelled. The lock is free before each of its two
        steps. The source expects an outcome after a successful cancel; here that expectation is proved. */
    method CancelAndTake(h: RequestExecution)
      returns (r: Result<(Outcome, seq<real>), Error>, ghost added: seq<Action>, ghost end: WaitEnd)
      requires Valid() && Issued(h) && !h.completed
      modifies this, h
      ensures Valid() && trace == old(trace) + added && (h.completed <==> r.Ok?)
      ensures WaitEnds(cfg, modern, old(trace), h.Slot(), [], added, end, r) && (r.Ok? ==> end == Delivered(true))
    {
      hide After, Wired, Cancels, Takes;
      var cancelled, taken;
      ghost var s, more, sent;
      added := Yield();
      StaysIssued(cfg, old(trace), added, (h.id, h.generation));
      s := state;
      cancelled, more, sent := Cancel(h);
      if cancelled.Err? { return Err(cancelled.error), added + more, Stopped(added, s, more, CancelRefused(sent)); }
      added := added + more;
      ghost var start := trace;
      more := Yield();
      StaysRetired(cfg, start, more, h.generation);
      added, s, start := added + more, state, trace;
      assert trace == old(trace) + added;
      taken, more := TakeTerminalOutcome(h);
      EndsAtTake(cfg, modern, old(trace), h.Slot(), [], true, added, s, more, taken);
      if taken.Err? { return Err(taken.error), added + more, Stopped(added, s, more, NoOutcome); }
      OnlyPendingWaits(cfg, start, (h.id, h.generation), more, taken);
      return Ok(taken.value.value), added + more, Delivered(true);
    }

    /** `accept_subscription_teardown` */
    method AcceptSubscriptionTeardown(h: RequestExecution) returns (r: Result<(), Error>, ghost added: seq<Action>)
      requires Valid()
      modifies this`state, this`trace, this`wire
      ensures Valid() && trace == old(trace) + added && wire == old(wire)
      ensures if !h.completed && modern && SubscriptionEnds(cfg, old(state), h.id, None)
              then Cancels(cfg, old(state), h.id, PeerSubscriptionTeardown, false, added, [], r)
              else r.Err? && added == []
    {
      hide After, Wired, Cancels;
      if h.completed { return Err("Request execution result was already consumed"), []; }
      var found := cfg.keyOf(h.id);
      if found.None? { return Err("Request execution owns an invalid JSON-RPC request ID"), []; }
      if !modern || found.value !in state.pending || state.pending[found.value].rpc != SubscriptionsListen {
        return Err("not an active modern subscriptions/listen request"), [];
      }
      ghost var sent;
      r, added, sent := CancelPending(h.id, PeerSubscriptionTeardown, false);
      QuietCancel(cfg, old(state), h.id, PeerSubscriptionTeardown, added, sent, r);
    }

    /** The handle was given out for the generation it names. */
    ghost predicate Issued(h: RequestExecution)
      reads this
    {
      h.generation in state.history.admitted && state.history.admitted[h.generation].id == h.id
    }

    /** `Drop`: a live owner becomes a tombstone and a deferred notice; when the lock is taken, only its flag is set. */
    method DropHandle(h: RequestExecution, contended: bool) returns (ghost added: seq<Action>)
      requires Valid() && Issued(h)
      modifies this`state, this`trace
      ensures Valid() && trace == old(trace) + added
      ensures Drops(cfg, old(state), h.Slot(), h.completed, contended, added)
      ensures var found := cfg.keyOf(h.id);
              !h.completed && !contended && found.Some? && found.value in old(state).pending
              && old(state).pending[found.value].generation == h.generation ==>
                GivenUp(cfg, old(state), found.value, state)
    {
      hide After, Wired, Enabled, Apply, ApplyDrop;
      added := [];
      var slot, found := (h.id, h.generation), cfg.keyOf(h.id);
      if h.completed {
        if !contended { ReleaseSlot(slot, false); added := [Release(slot, false)]; }
        return;
      }
      OwnersNamed(cfg, trace);
      if found.None? { return; }
      var key := found.value;
      var live := key in state.pending && state.pending[key].generation == h.generation;
      if contended {
        if live { MarkOwner(key); added := [MarkDropped(key)]; }
      } else if live {
        var now := ReadClock();
        DropLive(key);
        added := [Tick(now), DropOwner(key)];
      } else {
        NotPending(cfg, trace, slot);
        ReleaseSlot(slot, true);
        added := [Release(slot, true)];
      }
    }

    method ReleaseSlot(slot: Slot, withStream: bool)
      requires Valid() && (withStream ==> slot.1 !in PendingGenerations(state.pending))
      modifies this`state, this`trace
      ensures Valid() && trace == old(trace) + [Release(slot, withStream)]
      ensures state == ApplyRelease(old(state), slot, withStream)
    {
      hide After, Wired, Enabled, Apply;
      ghost var s := state;
      ReleaseTerminal(slot);
      if withStream { state := state.(streams := state.streams - {slot}); }
      state := state.(history := state.history.(gone := state.history.gone + {slot.1}));
      ReleaseStep(cfg, s, slot, withStream);
      Record(s, Release(slot, withStream));
    }

    method MarkOwner(key: CorrelationKey)
      requires Valid() && key in state.pending
      modifies this`state, this`trace
      ensures Valid() && trace == old(trace) + [MarkDropped(key)]
    {
      hide After, Wired, Enabled, Apply;
      ghost var s := state;
      var o := state.pending[key];
      state := state.(pending := state.pending[key := o.(dropped := true)],
                      history := state.history.(gone := state.history.gone + {o.generation}));
      MarkStep(cfg, s, key);
      Record(s, MarkDropped(key));
    }

    /** The outcome of a dropped owner is retained and released again under the same lock. */
    method RetainAndRelease(slot: Slot, now: nat)
      modifies this`state
      ensures state == ApplyForget(old(state), slot, false)
    {
      hide TerminalExpiry;
      RetainTerminal(slot, TerminalRecord(Cancelled, CallerDropped, false, true, 0, true, true, true),
                     Failure(CANCELLED), now);
      ReleaseTerminal(slot);
      RetainedThenReleased(old(state), slot, TerminalRecord(Cancelled, CallerDropped, false, true, 0, true, true, true),
                           Failure(CANCELLED), TerminalExpiry(cfg, now));
    }

    /** The owner's place is taken by a tombstone, and the notice to the peer is put off. */
    method ForgetOwner(key: CorrelationKey)
      requires key in state.pending
      modifies this`state
      ensures state == ApplyDrop(cfg, old(state), key) && GivenUp(cfg, old(state), key, state)
    {
      hide ApplyDrop, ApplyForget, Fits, GivenUp;
      DropParts(cfg, state, key);
      DropGivesUp(cfg, state, key);
      var o, now := state.pending[key], state.clock;
      var fits := Fits(cfg, now, cfg.retention);
      var expiresAt := if fits then now + cfg.retention else now;
      RetainAndRelease(SlotOf(o), now);
      state := Replaced(state, key, o, expiresAt, fits, o.rpc != Initialize && cfg.encodable(o.id));
    }

    method DropLive(key: CorrelationKey)
      requires Valid() && key in state.pending
      modifies this`state, this`trace
      ensures Valid() && trace == old(trace) + [DropOwner(key)] && state == ApplyDrop(cfg, old(state), key)
      ensures GivenUp(cfg, old(state), key, state)
    {
      hide After, Wired, Enabled, Apply, ApplyDrop, GivenUp;
      ghost var s := state;
      ForgetOwner(key);
      DropStep(cfg, s, key);
      Record(s, DropOwner(key));
    }

    /** `take_stream_notifications` */
    method TakeStream(h: RequestExecution) returns (r: Result<seq<real>, Error>, ghost added: seq<Action>)
      requires Valid()
      modifies this`state, this`trace
      ensures Valid() && trace == old(trace) + added
      ensures if h.completed then r.Err? && added == []
              else r == Ok(StreamOf(old(state).streams, h.Slot())) && added == [ExecutorProtocol.TakeStream(h.Slot())]
                   && state == old(state).(streams := old(state).streams - {h.Slot()})
    {
      hide After, Wired, Enabled, Apply;
      if h.completed { return Err("Request execution result was already consumed"), []; }
      ghost var s := state;
      var slot := (h.id, h.generation);
      r := Ok(StreamOf(state.streams, slot));
      state := state.(streams := state.streams - {slot});
      TakeStreamStep(cfg, s, slot);
      Record(s, ExecutorProtocol.TakeStream(slot));
      added := [ExecutorProtocol.TakeStream(slot)];
    }

    // ----- The end of a connection -----

    /** `shutdown`: every owner is cancelled and every callback of the peer too. A cleanup that fails is reported, and
        only a clean one leaves the closing error behind. */
    method Shutdown(closes: bool) returns (r: Result<(), Error>, ghost added: seq<Action>, ghost sent: seq<Dispatch>)
      requires Valid()
      modifies this`state, this`trace, this`wire
      ensures Valid() && trace == old(trace) + added && wire == old(wire) + sent && state.shutdown
      ensures old(state).shutdown ==> r.Ok? && added == [] && sent == []
      ensures !old(state).shutdown ==>
                state.reverse.active == map[] && forall k | k in state.pending :: Stuck(cfg, state.pending[k])
      ensures !old(state).shutdown ==>
                (r.Ok? <==> closes && Clean(added, sent) && Free(cfg, old(state).pending, old(state).pending.Keys))
      ensures r.Ok? && !old(state).shutdown ==> state.pending == map[] && state.deferred == []
                                                && state.terminalError.Some?
      ensures Saved(old(state), state, added)
    {
      hide After, Wired, OnlyHousekeeping, IsFailAll, ActiveTokens, NobodyNew, Stuck, Housekeeping, Clean, Free, Saved;
      NothingLost(state, state, []);
      if state.shutdown { return Ok(()), [], []; }
      r, added, sent := ReleaseEveryone();
      ghost var s := state;
      if !closes {
        ghost var actions := FailAll("transport", ConnectionLost);
        SavedJoins(old(state), s, state, added, actions);
        return if r.Ok? then Err("transport") else r, added + actions, sent;
      }
      if r.Err? { return; }
      FinishShutdown();
      NothingLost(s, state, [EndShutdown(SHUT_DOWN)]);
      SavedJoins(old(state), s, state, added, [EndShutdown(SHUT_DOWN)]);
      CleanStep(added, sent, EndShutdown(SHUT_DOWN));
      added := added + [EndShutdown(SHUT_DOWN)];
    }

    /** Deferred notices are sent, owners cancelled and callbacks withdrawn; the first failure is reported. */
    method ReleaseEveryone() returns (r: Result<(), Error>, ghost added: seq<Action>, ghost sent: seq<Dispatch>)
      requires Valid()
      modifies this`state, this`trace, this`wire
      ensures Valid() && trace == old(trace) + added && wire == old(wire) + sent
      ensures state.shutdown && state.reverse.active == map[]
      ensures forall k | k in state.pending :: Stuck(cfg, state.pending[k])
      ensures r.Ok? <==> Clean(added, sent) && Free(cfg, old(state).pending, old(state).pending.Keys)
      ensures r.Ok? ==> state.pending == map[] && state.deferred == []
      ensures Saved(old(state), state, added) && NobodyNew(old(state).pending, state.pending)
    {
      hide After, Wired, OnlyHousekeeping, NobodyNew, Stuck, Clean, Free, Saved;
      r, added, sent := FlushDeferredCancellations();
      ghost var s := state;
      MarkShutdown();
      NothingLost(s, state, [BeginShutdown]);
      SavedJoins(old(state), s, state, added, [BeginShutdown]);
      CleanStep(added, sent, BeginShutdown);
      added := added + [BeginShutdown];
      var cancelled: Result<(), Error>;
      ghost var actions, results;
      s := state;
      cancelled, actions, results := CancelEveryone();
      SavedJoins(old(state), s, state, added, actions);
      NobodyNewYet(old(state).pending, s.pending, state.pending);
      CleanJoins(added, sent, actions, results);
      added, sent := added + actions, sent + results;
      if r.Ok? { r := cancelled; }
      s := state;
      CancelCallbacks();
      NothingLost(s, state, [Reverse(CancelAll)]);
      SavedJoins(old(state), s, state, added, [Reverse(CancelAll)]);
      CleanStep(added, sent, Reverse(CancelAll));
      added := added + [Reverse(CancelAll)];
    }

    method CancelForShutdown(key: CorrelationKey, o: Owner)
      returns (r: Result<(), Error>, ghost added: seq<Action>, ghost sent: seq<Dispatch>)
      requires Valid() && cfg.keyOf(o.id) == Some(key) && (key in state.pending ==> state.pending[key] == o)
      modifies this`state, this`trace, this`wire
      ensures Valid() && trace == old(trace) + added && wire == old(wire) + sent
      ensures state.shutdown == old(state).shutdown
      ensures NobodyNew(old(state).pending, state.pending) && (key in state.pending ==> Stuck(cfg, state.pending[key]))
      ensures r.Ok? <==> Clean(added, sent) && (key in old(state).pending ==> !Stuck(cfg, o))
      ensures r.Ok? ==> state.pending == old(state).pending - {key} && state.deferred == old(state).deferred
      ensures Saved(old(state), state, added) && OnlyHousekeeping(added)
    {
      hide After, Wired, Cancels, Clean, Saved, OnlyHousekeeping;
      r, added, sent := CancelPending(o.id, ShutdownReason, true);
      CancelsCleanly(cfg, old(state), o.id, ShutdownReason, true, added, sent, r);
      CancellingIsHousekeeping(cfg, old(state), o.id, ShutdownReason, true, added, sent, r);
    }

    method CancelEveryone() returns (r: Result<(), Error>, ghost added: seq<Action>, ghost sent: seq<Dispatch>)
      requires Valid()
      modifies this`state, this`trace, this`wire
      ensures Valid() && trace == old(trace) + added && wire == old(wire) + sent
      ensures state.shutdown == old(state).shutdown && NobodyNew(old(state).pending, state.pending)
      ensures forall k | k in state.pending :: Stuck(cfg, state.pending[k])
      ensures r.Ok? <==> Clean(added, sent) && Free(cfg, old(state).pending, old(state).pending.Keys)
      ensures r.Ok? ==> state.pending == map[] && state.deferred == old(state).deferred
      ensures Saved(old(state), state, added) && OnlyHousekeeping(added)
    {
      hide After, Wired, Stuck, Clean, NobodyNew, Saved, OnlyHousekeeping, Halfway, Free;
      OwnersCorrelate(cfg, trace);
      AtTheStart(cfg, state);
      var owners := state.pending;
      var left: set<CorrelationKey> := owners.Keys;
      r, added, sent := Ok(()), [], [];
      while left != {}
        invariant Valid() && trace == old(trace) + added && wire == old(wire) + sent && left <= owners.Keys
        invariant Halfway(cfg, owners, left, old(state), state, added, sent, r.Ok?)
      {
        var key :| key in left;
        ghost var more, results;
        var cancelled;
        ghost var s := state;
        HalfwayOwner(cfg, owners, left, old(state), s, added, sent, r.Ok?, key);
        cancelled, more, results := CancelForShutdown(key, owners[key]);
        OneMoreCancelled(cfg, owners, left, old(state), s, state, added, sent, r.Ok?, key, more, results,
                         cancelled.Ok?);
        added, sent := added + more, sent + results;
        if r.Ok? { r := cancelled; }
        left := left - {key};
      }
      AtTheEnd(cfg, owners, old(state), state, added, sent, r.Ok?);
    }

    method MarkShutdown()
      requires Valid()
      modifies this`state, this`trace
      ensures Valid() && trace == old(trace) + [BeginShutdown] && state == old(state).(shutdown := true)
    {
      hide After, Wired, Enabled, Apply;
      ghost var s := state;
      state := state.(shutdown := true);
      ShutdownStep(cfg, s);
      Record(s, BeginShutdown);
    }

    method CancelCallbacks()
      requires Valid()
      modifies this`state, this`trace
      ensures Valid() && trace == old(trace) + [Reverse(CancelAll)]
      ensures state == old(state).(reverse := state.reverse) && state.reverse.active == map[]
    {
      hide After, Wired, Enabled, Apply, ActiveTokens;
      ghost var s := state;
      CancelReverseRequests();
      ReverseStep(cfg, s, CancelAll);
      Record(s, Reverse(CancelAll));
    }

    method FinishShutdown()
      requires Valid() && state.shutdown
      requires state.pending == map[] && state.deferred == [] && state.reverse.active == map[]
      modifies this`state, this`trace
      ensures Valid() && trace == old(trace) + [EndShutdown(SHUT_DOWN)] && state.terminalError.Some?
      ensures state == old(state).(terminalError := state.terminalError)
      ensures old(state).terminalError.Some? ==> state.terminalError == old(state).terminalError
    {
      hide After, Wired, Enabled, Apply;
      ghost var s := state;
      if state.terminalError.None? { state := state.(terminalError := Some(SHUT_DOWN)); }
      EndShutdownStep(cfg, s, SHUT_DOWN);
      Record(s, EndShutdown(SHUT_DOWN));
    }

    // ----- The reader -----

    /** `drive` and `drive_frame`: housekeeping, then one message is routed in the state that it leaves. */
    method Drive(message: Inbound) returns (r: Result<(), Error>, ghost t: Turn)
      requires Valid()
      modifies this
      ensures Valid() && trace == old(trace) + t.before + t.routed && wire == old(wire) + t.sent + t.replies
      ensures After(cfg, old(trace) + t.before) == Some(t.mid)
      ensures t.room == Room(|old(uncorrelated)| < MAX_PEER_ACTIVITY, |old(notifications)| < MAX_PEER_ACTIVITY)
      ensures Drives(cfg, modern, old(state), message, t, r)
      ensures var routes := old(state).terminalError.None? && Polls(cfg, old(state), t.at, t.before, t.sent);
              && (uncorrelated == if routes && message.ResponseMessage? && KeepsDiagnostic(cfg, t.mid, message.id)
                                     && t.room.diagnostic
                                  then old(uncorrelated) + [message.payload] else old(uncorrelated))
              && (notifications == if routes && KeepsNotification(t.mid, message) && t.room.notification
                                   then old(notifications) + [message] else old(notifications))
    {
      hide After, Wired, OnlyHousekeeping, Polls, Routed, Dropped, Due, KeepsNotification;
      ghost var before, sent, at;
      var room := Room(|uncorrelated| < MAX_PEER_ACTIVITY, |notifications| < MAX_PEER_ACTIVITY);
      r, before, sent, at := PrepareDrive();
      t := Turn(before, sent, at, state, room, [], []);
      if r.Err? { return; }
      ghost var routed, replies;
      r, routed, replies := Route(message);
      t := t.(routed := routed, replies := replies);
    }

    /** `route_inbound_message_locked` */
    method Route(message: Inbound)
      returns (r: Result<(), Error>, ghost routed: seq<Action>, ghost replies: seq<Dispatch>)
      requires Valid() && state.terminalError.None?
      modifies this
      ensures Valid() && trace == old(trace) + routed && wire == old(wire) + replies
      ensures Routed(cfg, modern, old(state), message,
                     Room(|old(uncorrelated)| < MAX_PEER_ACTIVITY, |old(notifications)| < MAX_PEER_ACTIVITY),
                     routed, replies, r)
      ensures uncorrelated == if message.ResponseMessage? && KeepsDiagnostic(cfg, old(state), message.id)
                                 && |old(uncorrelated)| < MAX_PEER_ACTIVITY
                              then old(uncorrelated) + [message.payload] else old(uncorrelated)
      ensures notifications == if KeepsNotification(old(state), message) && |old(notifications)| < MAX_PEER_ACTIVITY
                               then old(notifications) + [message] else old(notifications)
    {
      hide After, Wired, OnlyHousekeeping, RoutesResponse, Ignores, Cancels, ReverseApply, ReverseEnabled, Rejects,
           Saved, CancelledAll;
      replies := [];
      match message
      case Broken(error, malformed) =>
        routed := FailAll(error, if malformed then PeerProtocol else ConnectionLost);
        r := Err(error);
      case ResponseMessage(id, payload, defect) =>
        r, routed := RouteResponse(id, payload, defect);
      case CancelledMessage(id, subscription) =>
        r, routed := RouteCancelled(id, subscription);
      case RequestMessage(id, admitted) =>
        if admitted { r, routed := RetainReverse(id); } else { r, routed, replies := RejectReverse(id); }
      case ProgressMessage(marker, value) =>
        r, routed := RouteNotification(message);
      case NotificationMessage(_) =>
        r, routed := RetainNotification(message);
    }

    /** Progress goes to its owner, or to the generic queue when it has none or does not increase. */
    method RouteNotification(message: Inbound) returns (r: Result<(), Error>, ghost routed: seq<Action>)
      requires Valid() && message.ProgressMessage?
      modifies this`state, this`trace, this`notifications
      ensures Valid() && trace == old(trace) + routed
      ensures var room := Room(true, |old(notifications)| < MAX_PEER_ACTIVITY); var s := old(state);
              if Ignores(s, message.marker, message.value) then Queues(s, room, routed, r)
              else exists p :: RoutesProgress(cfg, s, message.marker, message.value, routed, p) && (r.Ok? <==> p.Ok?)
      ensures notifications == if Ignores(old(state), message.marker, message.value)
                                  && |old(notifications)| < MAX_PEER_ACTIVITY
                               then old(notifications) + [message] else old(notifications)
    {
      hide After, Wired, Ignores, Fails;
      var handled;
      handled, routed := RouteProgress(message.marker, message.value);
      assert RoutesProgress(cfg, old(state), message.marker, message.value, routed, handled);
      if handled == Ok(false) {
        assert Ignores(old(state), message.marker, message.value) && trace == old(trace);
        ghost var more;
        r, more := RetainNotification(message);
        routed := more;
        return;
      }
      r := if handled.Ok? then Ok(()) else Err(handled.error);
    }

    /** `wait_for_terminal`: messages are routed for everybody until the outcome of this handle is there, or until the
        caller's context is cancelled, which it sees after the given messages at the latest. The lock is free between
        any two steps. */
    method WaitForTerminal(h: RequestExecution, messages: seq<Inbound>)
      returns (r: Result<(Outcome, seq<real>), Error>, ghost added: seq<Action>, ghost end: WaitEnd,
               ghost readings: seq<Reading>)
      requires Valid() && Issued(h)
      modifies this, h
      ensures Valid() && trace == old(trace) + added
      ensures if old(h.completed) then r.Err? && added == [] && h.completed
              else AllRead(cfg, modern, old(trace), messages, added, readings) && (h.completed <==> r.Ok?)
                   && WaitEnds(cfg, modern, old(trace), h.Slot(), messages[|readings|..], added, end, r)
    {
      hide After, Wired, Takes, Drives, WaitEnds, AllRead;
      added, end, readings := [], Delivered(false), [];
      if h.completed { return Err("Request execution result was already consumed"), [], Delivered(false), []; }
      NothingRead(cfg, modern, trace, messages);
      var k := 0;
      while true
        invariant Valid() && trace == old(trace) + added && !h.completed && k == |readings| <= |messages| && Issued(h)
        invariant AllRead(cfg, modern, old(trace), messages, added, readings)
        decreases |messages| - k
      {
        ghost var s, more, t;
        ghost var left := messages[k..];
        var taken, driven;
        taken, s, more, added := TakeWhenFree(h, old(trace), messages, added, readings);
        EndsAtTake(cfg, modern, old(trace), h.Slot(), left, false, added, s, more, taken);
        StillRead(cfg, modern, old(trace), messages, added, more, readings);
        if taken.Err? { return Err(taken.error), added + more, Stopped(added, s, more, NoOutcome), readings; }
        if taken.value.Some? { return Ok(taken.value.value), added + more, Delivered(false), readings; }
        added := added + more;
        if k == |messages| { // the caller's context is cancelled
          assert left == [];
          r, more, end := CancelAndTake(h);
          WaitGoesOn(cfg, modern, old(trace), added, h.Slot(), more, end, r);
          StillRead(cfg, modern, old(trace), messages, added, more, readings);
          return r, added + more, Following(added, end), readings;
        }
        driven, s, t, added := DriveWhenFree(h, messages[k], old(trace), messages, added, readings);
        more := t.before + t.routed;
        if driven.Err? {
          EndsAtDrive(cfg, modern, old(trace), h.Slot(), left, added, s, t, driven);
          StillRead(cfg, modern, old(trace), messages, added, more, readings);
          return Err(driven.error), added + more, Stopped(added, s, more, DriveStopped(t)), readings;
        }
        OnlyOneOk(driven);
        OneMoreRead(cfg, modern, old(trace), messages, added, readings, s, t);
        added, readings, k := added + more, readings + [(added, t)], k + 1;
      }
    }

    /** The lock is free, then the outcome is taken if it is there. */
    method TakeWhenFree(h: RequestExecution, ghost start: seq<Action>, ghost messages: seq<Inbound>,
                        ghost before: seq<Action>, ghost readings: seq<Reading>)
      returns (r: Result<Option<(Outcome, seq<real>)>, Error>, ghost s: State, ghost step: seq<Action>,
               ghost added: seq<Action>)
      requires Valid() && Issued(h) && !h.completed && trace == start + before
      requires AllRead(cfg, modern, start, messages, before, readings)
      modifies this, h
      ensures Valid() && Issued(h) && trace == start + (added + step)
      ensures After(cfg, start + added) == Some(s) && Takes(cfg, s, h.Slot(), step, r)
      ensures h.completed <==> r.Ok? && r.value.Some?
      ensures AllRead(cfg, modern, start, messages, added, readings)
    {
      hide After, Wired, Takes, AllRead;
      ghost var others := Yield();
      added, s := before + others, state;
      assert trace == start + added;
      StillRead(cfg, modern, start, messages, before, others, readings);
      r, step := TakeTerminalOutcome(h);
      assert trace == old(trace) + (others + step) == start + (added + step);
      StaysIssued(cfg, old(trace), others + step, (h.id, h.generation));
    }

    /** The lock is free, then one message is driven. */
    method DriveWhenFree(h: RequestExecution, message: Inbound, ghost start: seq<Action>, ghost messages: seq<Inbound>,
                         ghost before: seq<Action>, ghost readings: seq<Reading>)
      returns (r: Result<(), Error>, ghost s: State, ghost t: Turn, ghost added: seq<Action>)
      requires Valid() && Issued(h) && trace == start + before
      requires AllRead(cfg, modern, start, messages, before, readings)
      modifies this
      ensures Valid() && Issued(h) && trace == start + (added + (t.before + t.routed))
      ensures After(cfg, start + added) == Some(s) && Drives(cfg, modern, s, message, t, r)
      ensures AllRead(cfg, modern, start, messages, added, readings)
    {
      hide After, Wired, Drives, AllRead;
      ghost var others := Yield();
      added, s := before + others, state;
      assert trace == start + added;
      StillRead(cfg, modern, start, messages, before, others, readings);
      r, t := Drive(message);
      ghost var step := t.before + t.routed;
      assert trace == old(trace) + (others + step) == start + (added + step);
      StaysIssued(cfg, old(trace), others + step, (h.id, h.generation));
    }
  }
}
