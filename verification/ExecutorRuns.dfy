/** Safety of the correlation protocol over whole runs: any schedule, any clock, any peer. */
module ExecutorRuns {
  import opened Options
  import opened Correlation
  import opened ReverseProtocol
  import opened ExecutorProtocol
  import opened ExecutorInvariant

  ghost predicate IsRun(cfg: Config, trace: seq<Action>) { After(cfg, trace).Some? }

  lemma {:induction false} ReachableInv(cfg: Config, trace: seq<Action>)
    requires IsRun(cfg, trace)
    ensures Inv(cfg, After(cfg, trace).value)
    decreases |trace|
  {
    hide Inv, Enabled, Apply;
    if trace == [] { InitialInv(cfg); }
    else {
      var n := |trace| - 1;
      ReachableInv(cfg, trace[..n]);
      InvKept(cfg, After(cfg, trace[..n]).value, trace[n]);
    }
  }

  lemma {:induction false} PrefixIsRun(cfg: Config, trace: seq<Action>, i: nat)
    requires IsRun(cfg, trace) && i <= |trace|
    ensures IsRun(cfg, trace[..i])
    decreases |trace|
  {
    hide Enabled, Apply;
    if i == |trace| { assert trace[..i] == trace; }
    else {
      PrefixIsRun(cfg, trace[..|trace| - 1], i);
      assert trace[..|trace| - 1][..i] == trace[..i];
    }
  }

  /** The state before the `i`-th action of a run. */
  ghost function StateAt(cfg: Config, trace: seq<Action>, i: nat): State
    requires IsRun(cfg, trace) && i <= |trace|
  {
    hide Enabled, Apply;
    PrefixIsRun(cfg, trace, i);
    After(cfg, trace[..i]).value
  }

  lemma StateInv(cfg: Config, trace: seq<Action>, i: nat)
    requires IsRun(cfg, trace) && i <= |trace|
    ensures Inv(cfg, StateAt(cfg, trace, i))
  {
    hide Inv, Enabled, Apply;
    PrefixIsRun(cfg, trace, i);
    ReachableInv(cfg, trace[..i]);
  }

  lemma StepAt(cfg: Config, trace: seq<Action>, i: nat)
    requires IsRun(cfg, trace) && i < |trace|
    ensures Enabled(cfg, StateAt(cfg, trace, i), trace[i])
    ensures StateAt(cfg, trace, i + 1) == Apply(cfg, StateAt(cfg, trace, i), trace[i])
  {
    hide Inv, Enabled, Apply;
    PrefixIsRun(cfg, trace, i + 1);
    assert trace[..i + 1][..i] == trace[..i];
  }

  // ----- What only grows along a run -----

  /** How the owner of a generation can change while it stays pending. */
  ghost predicate SameOwner(o: Owner, o': Owner) {
    && o'.id == o.id && o'.rpc == o.rpc && o'.marker == o.marker
    && o'.absolute == o.absolute && o'.idleTimeout == o.idleTimeout && o'.resets == o.resets
    && (o'.idle == o.idle || o'.idle <= o'.absolute)
    && (o.lastProgress.Some? ==> o'.lastProgress.Some? && o.lastProgress.value <= o'.lastProgress.value)
    && (o.dropped ==> o'.dropped)
  }

  ghost predicate Later(s: State, s': State) {
    && Extends(s.history, s'.history)
    && s.clock <= s'.clock
    && s.nextGeneration <= s'.nextGeneration
    && (s.shutdown ==> s'.shutdown)
    && (s.terminalError.Some? ==> s'.terminalError == s.terminalError)
    && s.history.cancels <= s'.history.cancels && s.history.handed <= s'.history.handed
    && (forall k, k' | k in s.pending && k' in s'.pending && s.pending[k].generation == s'.pending[k'].generation ::
          SameOwner(s.pending[k], s'.pending[k']))
    && ReverseLater(s.reverse, s'.reverse)
  }

  lemma {:induction false} SameKey(cfg: Config, s: State, k: CorrelationKey, k': CorrelationKey)
    requires Ownership(cfg, s) && k in s.pending && k' in s.pending
    requires s.pending[k].generation == s.pending[k'].generation
    ensures k == k'
  {
  }

  /** Whoever is pending after a step was pending before it, or has just been admitted under a free key. */
  lemma PendingEvolves(cfg: Config, s: State, a: Action, k: CorrelationKey)
    requires Ownership(cfg, s) && Enabled(cfg, s, a) && k in Apply(cfg, s, a).pending
    ensures var o' := Apply(cfg, s, a).pending[k];
            if k in s.pending then o'.generation == s.pending[k].generation && SameOwner(s.pending[k], o')
            else o'.generation !in s.history.admitted
  {
    hide SameOwner, Enabled, Apply, Ownership;
    var s' := Apply(cfg, s, a);
    NextIsNew(cfg, s);
    if a.SendOwned? { Entered(cfg, s, a); }
    else if a.MarkDropped? || a.Progress? { Changed(cfg, s, a); }
    else { NobodyEnters(cfg, s, a); }
    SameOwnerSelf(s'.pending[k]);
  }

  lemma Entered(cfg: Config, s: State, a: Action)
    requires a.SendOwned? && Enabled(cfg, s, a)
    ensures var o := OwnerFor(a.order, s.nextGeneration + 1, a.at);
            Apply(cfg, s, a).pending == s.pending[a.key := o] && o.generation == s.nextGeneration + 1
    ensures a.key !in s.pending
  {
    hide CanAdmit, Lasts;
    KeyIsFree(cfg, s, a.key);
  }

  lemma Changed(cfg: Config, s: State, a: Action)
    requires (a.MarkDropped? || a.Progress?) && Enabled(cfg, s, a)
    ensures var s' := Apply(cfg, s, a);
            a.key in s.pending && a.key in s'.pending && s'.pending == s.pending[a.key := s'.pending[a.key]]
            && s'.pending[a.key].generation == s.pending[a.key].generation
            && SameOwner(s.pending[a.key], s'.pending[a.key])
  {
    hide SameOwner, IdleAfterProgress, UniqueMarker, Fits, StreamOf;
    if a.MarkDropped? { Touched(s.pending[a.key]); }
    else { ProgressTouches(cfg, s.clock, s.pending[a.key], a.value); }
  }

  lemma NobodyEnters(cfg: Config, s: State, a: Action)
    requires !a.SendOwned? && !a.MarkDropped? && !a.Progress? && Enabled(cfg, s, a)
    ensures forall k | k in Apply(cfg, s, a).pending :: k in s.pending && Apply(cfg, s, a).pending[k] == s.pending[k]
  {
    hide IdleAfterProgress, CanAdmit, UniqueMarker, FailuresOf, Fits, Expired, StreamOf, TerminalExpiry,
         OutcomeOf, RecordOf, ReasonOf, ReverseEnabled, ReverseApply;
  }

  lemma SameOwnerSelf(o: Owner)
    ensures SameOwner(o, o)
  {
  }

  lemma Touched(o: Owner)
    ensures SameOwner(o, o.(dropped := true))
  {
  }

  lemma ProgressTouches(cfg: Config, clock: nat, o: Owner, value: real)
    requires o.lastProgress.Some? ==> o.lastProgress.value < value
    ensures SameOwner(o, o.(lastProgress := Some(value), idle := IdleAfterProgress(cfg, clock, o)))
  {
  }

  lemma OwnersEvolve(cfg: Config, s: State, a: Action, k: CorrelationKey, k': CorrelationKey)
    requires Ownership(cfg, s) && Enabled(cfg, s, a) && k in s.pending && k' in Apply(cfg, s, a).pending
    requires s.pending[k].generation == Apply(cfg, s, a).pending[k'].generation
    ensures SameOwner(s.pending[k], Apply(cfg, s, a).pending[k'])
  {
    hide Ownership, Enabled, Apply, SameOwner;
    LiveUnretired(cfg, s);
    PendingEvolves(cfg, s, a, k');
    SameKey(cfg, s, k, k');
  }

  lemma CallbacksLater(cfg: Config, s: State, a: Action)
    requires Inv(cfg, s) && Enabled(cfg, s, a)
    ensures ReverseLater(s.reverse, Apply(cfg, s, a).reverse)
  {
    hide Inv, Enabled, Apply, ReverseInv, ReverseApply, ReverseEnabled;
    if a.Reverse? {
      InvCallbacks(cfg, s);
      ReverseStepDoes(cfg, s, a.step);
      ReverseStepLater(cfg.keyOf, s.reverse, a.step);
    } else {
      OtherActionsKeepCallbacks(cfg, s, a);
    }
  }

  lemma OtherActionsKeepCallbacks(cfg: Config, s: State, a: Action)
    requires Enabled(cfg, s, a) && !a.Reverse?
    ensures Apply(cfg, s, a).reverse == if a.FailAll? then CancelledAll(s.reverse) else s.reverse
  {
    hide CanAdmit, UniqueMarker, FailuresOf, Fits, Expired, StreamOf, TerminalExpiry, OutcomeOf, RecordOf, ReasonOf,
         CancelledAll, IdleAfterProgress, PendingSlots, PendingGenerations;
  }

  lemma CountersLater(cfg: Config, s: State, a: Action)
    requires Enabled(cfg, s, a)
    ensures var s' := Apply(cfg, s, a);
            s.clock <= s'.clock && s.nextGeneration <= s'.nextGeneration && (s.shutdown ==> s'.shutdown)
            && (s.terminalError.Some? ==> s'.terminalError == s.terminalError)
            && s.history.cancels <= s'.history.cancels && s.history.handed <= s'.history.handed
  {
    hide CanAdmit, ReverseEnabled, ReverseApply, FailuresOf, UniqueMarker, OutcomeOf, RecordOf, ReasonOf,
         TerminalExpiry, IdleAfterProgress, StreamOf, IsCancelReason, CancelledAll, Expired;
  }

  lemma StepLater(cfg: Config, s: State, a: Action)
    requires Inv(cfg, s) && Enabled(cfg, s, a)
    ensures Later(s, Apply(cfg, s, a))
  {
    hide Inv, Ownership, Extends, SameOwner, ReverseLater, Enabled, Apply;
    InvOwnership(cfg, s);
    CallbacksLater(cfg, s, a);
    HistoryExtends(cfg, s, a);
    CountersLater(cfg, s, a);
    var s' := Apply(cfg, s, a);
    forall k, k' | k in s.pending && k' in s'.pending && s.pending[k].generation == s'.pending[k'].generation
      ensures SameOwner(s.pending[k], s'.pending[k'])
    {
      OwnersEvolve(cfg, s, a, k, k');
    }
  }

  lemma InvOwnership(cfg: Config, s: State)
    requires Inv(cfg, s)
    ensures Ownership(cfg, s)
  {
    hide Ownership;
  }

  lemma LaterTransitive(cfg: Config, s: State, t: State, u: State)
    requires Inv(cfg, s) && Inv(cfg, t) && Inv(cfg, u) && Later(s, t) && Later(t, u)
    ensures Later(s, u)
  {
    hide Inv, Ownership, ReverseLater, SameOwner;
    InvOwnership(cfg, s);
    InvOwnership(cfg, t);
    InvOwnership(cfg, u);
    ReverseLaterTransitive(s.reverse, t.reverse, u.reverse);
    forall k, k' | k in s.pending && k' in u.pending && s.pending[k].generation == u.pending[k'].generation
      ensures SameOwner(s.pending[k], u.pending[k'])
    {
      var m := PendingBetween(cfg, s, t, u, k, k');
      SameOwnerTransitive(s.pending[k], t.pending[m], u.pending[k']);
    }
  }

  /** A generation that is pending now and later was pending in between. */
  lemma PendingBetween(cfg: Config, s: State, t: State, u: State, k: CorrelationKey, k': CorrelationKey)
    returns (m: CorrelationKey)
    requires Ownership(cfg, s) && Ownership(cfg, t) && Ownership(cfg, u)
    requires Extends(s.history, t.history) && Extends(t.history, u.history)
    requires k in s.pending && k' in u.pending && s.pending[k].generation == u.pending[k'].generation
    ensures m in t.pending && t.pending[m].generation == s.pending[k].generation
  {
    m := t.history.admitted[s.pending[k].generation].key;
  }

  lemma SameOwnerTransitive(o: Owner, o': Owner, o'': Owner)
    requires SameOwner(o, o') && SameOwner(o', o'')
    ensures SameOwner(o, o'')
  {
  }

  lemma ReverseLaterTransitive(r: ReverseState, r': ReverseState, r'': ReverseState)
    requires ReverseLater(r, r') && ReverseLater(r', r'')
    ensures ReverseLater(r, r'')
  {
  }

  lemma {:induction false} RunLater(cfg: Config, trace: seq<Action>, i: nat, j: nat)
    requires IsRun(cfg, trace) && i <= j <= |trace|
    ensures Later(StateAt(cfg, trace, i), StateAt(cfg, trace, j))
    decreases j - i
  {
    hide Inv, Enabled, Apply, StateAt, IsRun, Later;
    StateInv(cfg, trace, i);
    StateInv(cfg, trace, j);
    if i < j { StateInv(cfg, trace, j - 1); }
    if i == j {
      LaterReflexive(cfg, StateAt(cfg, trace, i));
    } else {
      RunLater(cfg, trace, i, j - 1);
      StepAt(cfg, trace, j - 1);
      StepLater(cfg, StateAt(cfg, trace, j - 1), trace[j - 1]);
      LaterTransitive(cfg, StateAt(cfg, trace, i), StateAt(cfg, trace, j - 1), StateAt(cfg, trace, j));
    }
  }

  /** Whatever an operation appends to the trace leads to a later state. */
  lemma GrownRun(cfg: Config, trace: seq<Action>, added: seq<Action>)
    requires IsRun(cfg, trace + added)
    ensures IsRun(cfg, trace) && Later(After(cfg, trace).value, After(cfg, trace + added).value)
  {
    hide Inv, Enabled, Apply, Later, After;
    var all := trace + added;
    assert all[..|trace|] == trace && all[..|all|] == all;
    PrefixIsRun(cfg, all, |trace|);
    RunLater(cfg, all, |trace|, |all|);
  }

  lemma LaterReflexive(cfg: Config, s: State)
    requires Inv(cfg, s)
    ensures Later(s, s)
  {
    hide Inv, Ownership;
    InvOwnership(cfg, s);
    forall k, k' | k in s.pending && k' in s.pending && s.pending[k].generation == s.pending[k'].generation
      ensures SameOwner(s.pending[k], s.pending[k'])
    {
      SameKey(cfg, s, k, k');
    }
  }

  // ----- Theorems about every run -----

  /** The executor still knows of the generation: it is pending, or it has been retired. */
  ghost predicate Remembered(s: State, g: nat) { g in PendingGenerations(s.pending) || g in s.history.retired }

  /** A request that the transport took is remembered, and so fenced, exactly when both its deadlines fit the clock at
      the reading after the send; one that it did not take never is. */
  lemma FencedExactlyWhenDeadlinesFit(cfg: Config, trace: seq<Action>, i: nat, g: nat)
    requires IsRun(cfg, trace) && i <= |trace| && 0 < g <= StateAt(cfg, trace, i).nextGeneration
    ensures var s := StateAt(cfg, trace, i);
            g in s.history.sent
            && (Remembered(s, g)
                <==> s.history.sent[g].taken && Lasts(cfg, s.history.sent[g].order, s.history.sent[g].at))
  {
    hide Terminals, Fences, Spacing, Wire, Bounds, Streams, Callbacks, StateAt, IsRun, Lasts, Kept;
    StateInv(cfg, trace, i);
    RememberedIffAdmitted(cfg, StateAt(cfg, trace, i), g);
  }

  lemma RememberedIffAdmitted(cfg: Config, s: State, g: nat)
    requires Ownership(cfg, s)
    ensures Remembered(s, g) <==> g in s.history.admitted
  {
    if g in PendingGenerations(s.pending) {
      var k :| k in s.pending && g == s.pending[k].generation;
    }
    if g in s.history.admitted && g !in s.history.retired {
      assert s.pending[s.history.admitted[g].key].generation == g;
    }
  }

  /** No cross-generation delivery. Whatever retires an owner retires the current owner of the key, whose key has no
      tombstone. Every other request that the transport took under that key is of an earlier generation; if its
      deadlines fitted, that generation is retired and its full retention has passed, so that a response written for it
      and delivered within the retention never reaches this owner. If they did not fit, nothing fences it. */
  lemma NoCrossGenerationDelivery(cfg: Config, trace: seq<Action>, i: nat, g: nat)
    requires IsRun(cfg, trace) && i < |trace| && trace[i].Retire?
    requires var h := StateAt(cfg, trace, i).history;
             g in h.sent && h.sent[g].key == trace[i].key && h.sent[g].taken
    ensures var s := StateAt(cfg, trace, i); var key := trace[i].key;
            key in s.pending && key !in s.tombstones
            && (g == s.pending[key].generation
                || (g < s.pending[key].generation
                    && if Lasts(cfg, s.history.sent[g].order, s.history.sent[g].at)
                       then g in s.history.retired && s.history.retired[g].at + cfg.retention <= s.clock
                       else !Remembered(s, g)))
  {
    hide Terminals, Wire, Bounds, Streams, Callbacks, StateAt, IsRun, Apply, Lasts, Remembered, Kept;
    StateInv(cfg, trace, i);
    StepAt(cfg, trace, i);
    var s := StateAt(cfg, trace, i);
    var g' := s.pending[trace[i].key].generation;
    RememberedIffAdmitted(cfg, s, g);
    if g in s.history.admitted { assert Spaced(cfg, s, g, g') && Spaced(cfg, s, g', g); }
  }

  /** Whoever cancels by id reaches the generation that owns the key now. For the holder of an earlier generation
      that is another one only when its own tombstone is gone. */
  lemma CancelReachesForeignGeneration(cfg: Config, trace: seq<Action>, i: nat, g: nat)
    requires IsRun(cfg, trace) && i <= |trace|
    requires var s := StateAt(cfg, trace, i);
             g in s.history.admitted && s.history.admitted[g].key in s.pending
             && s.pending[s.history.admitted[g].key].generation != g
    ensures var s := StateAt(cfg, trace, i);
            g in s.history.retired && g < s.pending[s.history.admitted[g].key].generation
            && s.history.admitted[g].key !in s.tombstones
            && (Fits(cfg, s.history.retired[g].at, cfg.retention) ==>
                  s.history.retired[g].at + cfg.retention <= s.clock)
  {
    hide Terminals, Wire, Bounds, Streams, Callbacks, StateAt, IsRun, Kept;
    StateInv(cfg, trace, i);
    var s := StateAt(cfg, trace, i);
    var g' := s.pending[s.history.admitted[g].key].generation;
    assert Spaced(cfg, s, g, g') && Spaced(cfg, s, g', g);
  }

  /** Exactly once: a generation that left `pending` has one retirement for ever and is never pending again. */
  lemma RetiredForEver(cfg: Config, trace: seq<Action>, i: nat, j: nat, g: nat)
    requires IsRun(cfg, trace) && i <= j <= |trace| && g in StateAt(cfg, trace, i).history.retired
    ensures var s := StateAt(cfg, trace, j);
            g in s.history.retired && s.history.retired[g] == StateAt(cfg, trace, i).history.retired[g]
            && g !in PendingGenerations(s.pending)
  {
    hide StateAt, IsRun, Terminals, Fences, Spacing, Wire, Bounds, Streams, Callbacks, Kept;
    StateInv(cfg, trace, j);
    RunLater(cfg, trace, i, j);
  }

  /** Exactly once: an outcome is taken at most once, only of a retired generation, and is gone afterwards. */
  lemma HandedOutOnce(cfg: Config, trace: seq<Action>, i: nat, j: nat)
    requires IsRun(cfg, trace) && i < j < |trace| && trace[i].HandOut? && trace[j].HandOut?
    ensures trace[i].slot.1 != trace[j].slot.1
    ensures trace[i].slot.1 in StateAt(cfg, trace, i).history.retired
  {
    hide StateAt, IsRun, Inv, Extends, Enabled, Apply;
    StateInv(cfg, trace, i);
    StateInv(cfg, trace, j);
    StepAt(cfg, trace, i);
    StepAt(cfg, trace, j);
    HandOutCounts(cfg, StateAt(cfg, trace, i), trace[i]);
    HandOutCounts(cfg, StateAt(cfg, trace, j), trace[j]);
    RunLater(cfg, trace, i + 1, j);
    var g := trace[i].slot.1;
    assert StateAt(cfg, trace, i + 1).history.handed[g] <= StateAt(cfg, trace, j).history.handed[g];
  }

  lemma HandOutCounts(cfg: Config, s: State, a: Action)
    requires a.HandOut? && Inv(cfg, s) && Enabled(cfg, s, a)
    ensures a.slot.1 in s.history.retired && s.history.handed[a.slot.1] == 0
    ensures s.history.retired[a.slot.1].outcome == Some(a.outcome) && a.stream == StreamOf(s.streams, a.slot)
    ensures a.slot.1 in s.history.admitted && s.history.admitted[a.slot.1].id == a.slot.0
    ensures Apply(cfg, s, a).history.handed[a.slot.1] == 1
  {
    hide Ownership, Fences, Spacing, Wire, Bounds, Streams, Callbacks, Sends, Kept;
  }

  /** The step of a run at which a generation was retired. */
  lemma {:induction false} RetiredBy(cfg: Config, trace: seq<Action>, i: nat, g: nat) returns (j: nat)
    requires IsRun(cfg, trace) && i <= |trace| && g in StateAt(cfg, trace, i).history.retired
    ensures j < i && g !in StateAt(cfg, trace, j).history.retired && g in StateAt(cfg, trace, j + 1).history.retired
    decreases i
  {
    hide Enabled, Apply, StateAt;
    StartState(cfg, trace);
    j := i - 1;
    if g in StateAt(cfg, trace, j).history.retired { j := RetiredBy(cfg, trace, j, g); }
  }

  lemma StartState(cfg: Config, trace: seq<Action>)
    requires IsRun(cfg, trace)
    ensures StateAt(cfg, trace, 0) == INITIAL
  {
    hide Enabled, Apply;
    assert trace[..0] == [];
  }

  /** Only an accepted response retires a generation with a payload. */
  lemma AnsweredHere(cfg: Config, s: State, a: Action, g: nat)
    requires Enabled(cfg, s, a) && g !in s.history.retired && g in Apply(cfg, s, a).history.retired
    requires var outcome := Apply(cfg, s, a).history.retired[g].outcome; outcome.Some? && outcome.value.Response?
    ensures a.Retire? && a.key in s.pending && s.pending[a.key].generation == g
            && a.cause == Answered(Apply(cfg, s, a).history.retired[g].outcome.value.payload)
  {
    hide CanAdmit, UniqueMarker, Fits, Expired, StreamOf, IdleAfterProgress, TerminalExpiry, RecordOf, ReasonOf,
         ReverseEnabled, ReverseApply, IsCancelReason, CancelledAll, PendingSlots, PendingGenerations;
  }

  /** Delivery: what a waiter is handed is what its generation was retired with. */
  lemma DeliveredAsRetired(cfg: Config, trace: seq<Action>, i: nat)
    requires IsRun(cfg, trace) && i < |trace| && trace[i].HandOut?
    ensures var h, g := StateAt(cfg, trace, i).history, trace[i].slot.1;
            g in h.retired && h.retired[g].outcome == Some(trace[i].outcome)
  {
    hide StateAt, IsRun, Inv, Enabled, Apply;
    StateInv(cfg, trace, i);
    StepAt(cfg, trace, i);
    HandOutCounts(cfg, StateAt(cfg, trace, i), trace[i]);
  }

  /** Delivery: a payload handed to a waiter is that of a response accepted earlier in the run for the very generation
      and id of the waiter's handle. */
  lemma DeliveredPayloadWasAnswered(cfg: Config, trace: seq<Action>, i: nat) returns (j: nat)
    requires IsRun(cfg, trace) && i < |trace| && trace[i].HandOut? && trace[i].outcome.Response?
    ensures j < i && trace[j].Retire? && trace[j].cause == Answered(trace[i].outcome.payload)
    ensures var s := StateAt(cfg, trace, j);
            trace[j].key in s.pending && SlotOf(s.pending[trace[j].key]) == trace[i].slot
  {
    hide StateAt, IsRun, Inv, Enabled, Apply, Ownership;
    StateInv(cfg, trace, i);
    StepAt(cfg, trace, i);
    HandOutCounts(cfg, StateAt(cfg, trace, i), trace[i]);
    j := RetiredBy(cfg, trace, i, trace[i].slot.1);
    StepAt(cfg, trace, j);
    RunLater(cfg, trace, j + 1, i);
    RunLater(cfg, trace, j, i);
    AnsweredHere(cfg, StateAt(cfg, trace, j), trace[j], trace[i].slot.1);
    StateInv(cfg, trace, j);
    InvOwnership(cfg, StateAt(cfg, trace, j));
    LiveUnretired(cfg, StateAt(cfg, trace, j));
  }

  /** A waiter can still get its outcome: in every reachable state the outcome of a retired generation is stored as it
      was recorded, unless it was handed out, its handle was dropped, or its retention has passed or left the clock. */
  lemma OutcomeIsKept(cfg: Config, trace: seq<Action>, i: nat, g: nat)
    requires IsRun(cfg, trace) && i <= |trace|
    requires var h := StateAt(cfg, trace, i).history; g in h.retired && h.retired[g].outcome.Some?
    ensures var s := StateAt(cfg, trace, i); var h := s.history;
            g in h.admitted
            && var slot := (h.admitted[g].id, g);
               (slot in s.completed && s.completed[slot] == h.retired[g].outcome.value)
               || h.handed[g] > 0 || g in h.gone
               || h.retired[g].at + TERMINAL_RETENTION <= s.clock || !Fits(cfg, s.clock, TERMINAL_RETENTION)
  {
    hide StateAt, IsRun, Ownership, Fences, Spacing, Wire, Bounds, Streams, Callbacks, Sends, Fits;
    StateInv(cfg, trace, i);
    assert KeptOrSpent(cfg, StateAt(cfg, trace, i), g);
  }

  /** The three terminal maps agree, so an outcome always has its record and its expiry. */
  lemma TerminalMapsAgree(cfg: Config, trace: seq<Action>, i: nat)
    requires IsRun(cfg, trace) && i <= |trace|
    ensures var s := StateAt(cfg, trace, i); s.completed.Keys == s.records.Keys == s.expirations.Keys
  {
    hide StateAt, IsRun, Ownership, Fences, Spacing, Wire, Bounds, Streams, Callbacks, Kept;
    StateInv(cfg, trace, i);
    TerminalKeys(StateAt(cfg, trace, i));
  }

  /** The correlation limits that hold in every reachable state. */
  lemma CorrelationBound(cfg: Config, trace: seq<Action>, i: nat)
    requires IsRun(cfg, trace) && i <= |trace|
    ensures var s := StateAt(cfg, trace, i);
            s.pending.Keys !! s.tombstones.Keys
            && |s.pending| <= cfg.maxInFlight
            && |s.pending| + |s.tombstones| <= cfg.maxCorrelations
            && |s.pending| + |s.completed| <= cfg.maxCorrelations
            && |s.pending| + |s.tombstones| + |s.completed| <= 2 * cfg.maxCorrelations
  {
    hide StateAt, IsRun, Ownership, Terminals, Spacing, Wire, Streams, Callbacks, Kept;
    StateInv(cfg, trace, i);
    var s := StateAt(cfg, trace, i);
    assert Bounds(cfg, s) && Fences(cfg, s);
  }

  /** At most one notice is due for a generation, none for `initialize`, none after a final response, a malformed
      response or a peer teardown. */
  lemma NoticesDue(cfg: Config, trace: seq<Action>, i: nat, g: nat)
    requires IsRun(cfg, trace) && i <= |trace|
    ensures var h := StateAt(cfg, trace, i).history;
            h.cancels[g] <= 1
            && (h.cancels[g] == 1 ==>
                  g in h.admitted && h.admitted[g].rpc != Initialize
                  && g in h.retired && IsCancelReason(h.retired[g].reason))
  {
    hide StateAt, IsRun, Ownership, Terminals, Fences, Spacing, Bounds, Streams, Callbacks, Kept;
    StateInv(cfg, trace, i);
    var s := StateAt(cfg, trace, i);
    assert Wire(s);
    if s.history.cancels[g] > 0 { assert MayCancel(s.history, g); }
  }

  /** A request goes out only when no deferred cancellation is waiting and its key is free. */
  lemma SendsAreClean(cfg: Config, trace: seq<Action>, i: nat)
    requires IsRun(cfg, trace) && i < |trace| && (trace[i].SendOwned? || trace[i].SendUnowned?)
    ensures var s := StateAt(cfg, trace, i);
            s.deferred == [] && s.terminalError.None? && !s.shutdown
            && trace[i].key !in s.pending && trace[i].key !in s.tombstones
  {
    hide StateAt, IsRun, Inv;
    StepAt(cfg, trace, i);
  }

  /** Failure: the first cause is kept for ever, no owner is left or admitted, and nothing more is sent. */
  lemma FailureIsFinal(cfg: Config, trace: seq<Action>, i: nat, j: nat)
    requires IsRun(cfg, trace) && i <= j <= |trace| && StateAt(cfg, trace, i).terminalError.Some?
    ensures var s := StateAt(cfg, trace, j);
            s.terminalError == StateAt(cfg, trace, i).terminalError && s.pending == map[] && s.deferred == []
            && s.reverse.active == map[]
    ensures j < |trace| ==> !trace[j].SendUnowned? && !trace[j].SendOwned? && !trace[j].FailAll?
                            && (trace[j].Reverse? ==> !trace[j].step.Receive? && !trace[j].step.Answer?)
  {
    hide StateAt, IsRun, Ownership, Terminals, Fences, Spacing, Wire, Streams, ReverseInv, ReverseLater, Extends;
    StateInv(cfg, trace, j);
    RunLater(cfg, trace, i, j);
    assert Bounds(cfg, StateAt(cfg, trace, j)) && Callbacks(cfg, StateAt(cfg, trace, j));
    if j < |trace| { StepAt(cfg, trace, j); }
  }

  /** After `fail_all` there is nothing left to correlate with, tombstones included, and there never will be. */
  lemma {:induction false} FailAllClears(cfg: Config, trace: seq<Action>, i: nat, j: nat)
    requires IsRun(cfg, trace) && i < j <= |trace| && trace[i].FailAll?
    ensures var s := StateAt(cfg, trace, j);
            s.terminalError == Some(trace[i].error) && s.pending == map[] && s.tombstones == map[]
            && s.reverse.active == map[]
    decreases j
  {
    hide StateAt, IsRun, Enabled, Apply, Inv;
    StepAt(cfg, trace, j - 1);
    var s, a := StateAt(cfg, trace, j - 1), trace[j - 1];
    if j == i + 1 {
      FailAllLeaves(cfg, s, a);
    } else {
      FailAllClears(cfg, trace, i, j - 1);
      FailureIsFinal(cfg, trace, j - 1, j);
      NoFenceWithoutOwner(cfg, s, a);
    }
  }

  lemma FailAllLeaves(cfg: Config, s: State, a: Action)
    requires a.FailAll? && Enabled(cfg, s, a)
    ensures var t := Apply(cfg, s, a);
            t.terminalError == Some(a.error) && t.pending == map[] && t.tombstones == map[] && t.reverse.active == map[]
  {
    hide FailuresOf;
  }

  lemma NoFenceWithoutOwner(cfg: Config, s: State, a: Action)
    requires Enabled(cfg, s, a) && s.pending == map[] && s.tombstones == map[]
    ensures Apply(cfg, s, a).tombstones == map[]
  {
    hide CanAdmit, UniqueMarker, FailuresOf, ReverseEnabled, ReverseApply, IdleAfterProgress, StreamOf, Expired,
         OutcomeOf, RecordOf, ReasonOf, TerminalExpiry, IsCancelReason;
  }

  /** Deadlines under progress: while a generation stays pending its absolute deadline does not move, its idle
      deadline moves only to at most the absolute one, and its accepted progress never falls. */
  lemma DeadlinesUnderProgress(cfg: Config, trace: seq<Action>, i: nat, j: nat, k: CorrelationKey)
    requires IsRun(cfg, trace) && i <= j <= |trace|
    requires var s, s' := StateAt(cfg, trace, i), StateAt(cfg, trace, j);
             k in s.pending && k in s'.pending && s.pending[k].generation == s'.pending[k].generation
    ensures var o, o' := StateAt(cfg, trace, i).pending[k], StateAt(cfg, trace, j).pending[k];
            o'.absolute == o.absolute && (o'.idle == o.idle || o'.idle <= o.absolute)
            && (o.lastProgress.Some? ==> o'.lastProgress.Some? && o.lastProgress.value <= o'.lastProgress.value)
  {
    hide StateAt, IsRun, Inv, Extends;
    RunLater(cfg, trace, i, j);
  }

  /** Accepted progress moves the idle deadline of an owner that resets it to the idle timeout from now, or to the
      absolute deadline if that comes first; every other owner is left alone. */
  lemma IdleDeadlineMoves(cfg: Config, trace: seq<Action>, i: nat)
    requires IsRun(cfg, trace) && i < |trace| && trace[i].Progress?
    ensures var s, s', k := StateAt(cfg, trace, i), StateAt(cfg, trace, i + 1), trace[i].key;
            k in s.pending && k in s'.pending && s'.pending == s.pending[k := s'.pending[k]]
            && (var o, o' := s.pending[k], s'.pending[k];
                && o' == o.(idle := o'.idle, lastProgress := Some(trace[i].value))
                && (if o.resets && s.clock + o.idleTimeout <= cfg.lastInstant
                    then (o'.idle == s.clock + o.idleTimeout || o'.idle == o.absolute)
                         && o'.idle <= s.clock + o.idleTimeout && o'.idle <= o.absolute
                    else o'.idle == o.idle))
  {
    hide StateAt, IsRun, UniqueMarker, StreamOf;
    StepAt(cfg, trace, i);
  }

  /** Two accepted progress notifications of one generation carry strictly increasing values. */
  lemma ProgressIncreases(cfg: Config, trace: seq<Action>, i: nat, j: nat)
    requires IsRun(cfg, trace) && i < j < |trace| && trace[i].Progress? && trace[j].Progress?
    requires trace[i].key in StateAt(cfg, trace, i).pending && trace[j].key in StateAt(cfg, trace, j).pending
    requires StateAt(cfg, trace, i).pending[trace[i].key].generation
             == StateAt(cfg, trace, j).pending[trace[j].key].generation
    ensures trace[i].value < trace[j].value
  {
    hide StateAt, IsRun, Inv, Extends;
    StepAt(cfg, trace, i);
    StepAt(cfg, trace, j);
    RunLater(cfg, trace, i + 1, j);
    var s1, s := StateAt(cfg, trace, i + 1), StateAt(cfg, trace, j);
    assert SameOwner(s1.pending[trace[i].key], s.pending[trace[j].key]);
  }

  /** A request of the peer is answered at most once, only while it is active and before it is cancelled, and the
      response carries the id that came with it. A capability that was used or cancelled answers nothing later, even
      when the peer reuses its id. */
  lemma ReverseAnsweredOnce(cfg: Config, trace: seq<Action>, i: nat, j: nat)
    requires IsRun(cfg, trace) && i < j < |trace| && trace[i].Reverse? && trace[j].Reverse? && trace[j].step.Answer?
    requires trace[i].step.Answer? || trace[i].step.CancelAll? || trace[i].step.PeerCancel?
    ensures var r := StateAt(cfg, trace, i).reverse; var t := trace[j].step.capability.token;
            match trace[i].step
            case Answer(c) => t != c.token
            case PeerCancel(id) => cfg.keyOf(id).None? || cfg.keyOf(id).value !in r.active
                                   || t != r.active[cfg.keyOf(id).value].token
            case _ => t !in ActiveTokens(r)
  {
    hide StateAt, IsRun, Inv, Extends, Enabled, Apply, ReverseInv;
    StateInv(cfg, trace, i);
    StepAt(cfg, trace, i);
    StepAt(cfg, trace, j);
    RunLater(cfg, trace, i + 1, j);
    InvCallbacks(cfg, StateAt(cfg, trace, i));
    ReverseStepDoes(cfg, StateAt(cfg, trace, i), trace[i].step);
    ReverseStepDoes(cfg, StateAt(cfg, trace, j), trace[j].step);
    ActiveAreOpen(cfg.keyOf, StateAt(cfg, trace, i).reverse);
  }

  /** A request of the peer that was answered is known, and was not cancelled. */
  lemma AnsweredAreOpen(cfg: Config, trace: seq<Action>)
    requires IsRun(cfg, trace)
    ensures var r := After(cfg, trace).value.reverse; r.sent <= r.received.Keys && r.sent !! r.cancelled
  {
    hide After, Inv;
    ReachableInv(cfg, trace);
    InvCallbacks(cfg, After(cfg, trace).value);
  }

  lemma InvCallbacks(cfg: Config, s: State)
    requires Inv(cfg, s)
    ensures ReverseInv(cfg.keyOf, s.reverse)
  {
    hide Ownership, Terminals, Fences, Spacing, Wire, Bounds, Streams, ReverseInv, Sends, Kept;
  }

  lemma ReverseStepDoes(cfg: Config, s: State, step: ReverseAction)
    requires Enabled(cfg, s, Reverse(step))
    ensures ReverseEnabled(cfg.keyOf, s.reverse, step)
    ensures Apply(cfg, s, Reverse(step)).reverse == ReverseApply(cfg.keyOf, s.reverse, step)
  {
    hide ReverseEnabled, ReverseApply;
  }

  lemma ActiveAreOpen(keyOf: KeyOf, r: ReverseState)
    requires ReverseInv(keyOf, r)
    ensures forall k | k in r.active :: IsOpen(r, r.active[k].token)
  {
  }

  ghost predicate DisposedBetween(cfg: Config, trace: seq<Action>, i: nat, j: nat, c: Capability)
    requires i <= j <= |trace|
  {
    exists m | i <= m < j :: DisposedBy(cfg, trace[m], c)
  }

  ghost predicate DisposedBy(cfg: Config, a: Action, c: Capability) {
    a.FailAll? || (a.Reverse? && Disposes(cfg.keyOf, a.step, c))
  }

  lemma QueueStep(cfg: Config, s: State, a: Action, c: Capability)
    requires Inv(cfg, s) && Enabled(cfg, s, a) && c.token < s.reverse.next
    ensures var r' := Apply(cfg, s, a).reverse;
            c.token < r'.next && (c in r'.queue <==> c in s.reverse.queue && !DisposedBy(cfg, a, c))
  {
    hide Inv, Enabled, Apply, ReverseInv, ReverseEnabled, ReverseApply, Disposes;
    InvCallbacks(cfg, s);
    if a.Reverse? {
      ReverseStepDoes(cfg, s, a.step);
      QueueAfter(cfg.keyOf, s.reverse, a.step, c);
      ReverseStepLater(cfg.keyOf, s.reverse, a.step);
    } else {
      OtherActionsKeepCallbacks(cfg, s, a);
    }
  }

  lemma {:induction false} QueueBetween(cfg: Config, trace: seq<Action>, i: nat, j: nat, c: Capability)
    requires IsRun(cfg, trace) && i <= j <= |trace|
    requires var r := StateAt(cfg, trace, i).reverse; c in r.queue && c.token < r.next
    ensures var r := StateAt(cfg, trace, j).reverse;
            c.token < r.next && (c in r.queue <==> !DisposedBetween(cfg, trace, i, j, c))
    decreases j
  {
    hide StateAt, IsRun, Inv, Enabled, Apply, DisposedBy;
    if i < j {
      var m := j - 1;
      QueueBetween(cfg, trace, i, m, c);
      StateInv(cfg, trace, m);
      StepAt(cfg, trace, m);
      QueueStep(cfg, StateAt(cfg, trace, m), trace[m], c);
      assert DisposedBetween(cfg, trace, i, j, c)
             <==> DisposedBetween(cfg, trace, i, m, c) || DisposedBy(cfg, trace[m], c);
    }
  }

  /** A request of the peer waits, exactly: from its arrival it is in the queue until the queue is taken, it is answered
      or withdrawn, or the connection fails. */
  lemma PeerRequestWaits(cfg: Config, trace: seq<Action>, i: nat, j: nat)
    requires IsRun(cfg, trace) && i < j <= |trace| && trace[i].Reverse? && trace[i].step.Receive?
    ensures var c := Capability(trace[i].step.id, StateAt(cfg, trace, i).reverse.next);
            c in StateAt(cfg, trace, j).reverse.queue <==> !DisposedBetween(cfg, trace, i + 1, j, c)
  {
    hide StateAt, IsRun, Inv, Enabled, Apply, ReverseInv, ReverseApply;
    StateInv(cfg, trace, i);
    StepAt(cfg, trace, i);
    InvCallbacks(cfg, StateAt(cfg, trace, i));
    ReverseStepDoes(cfg, StateAt(cfg, trace, i), trace[i].step);
    ReceivedIsQueued(cfg.keyOf, StateAt(cfg, trace, i).reverse, trace[i].step.id);
    QueueBetween(cfg, trace, i + 1, j, Capability(trace[i].step.id, StateAt(cfg, trace, i).reverse.next));
  }
}
