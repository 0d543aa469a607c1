/** What a waiter hears of the progress of its request: exactly what the peer reported for it and the executor kept. */
module ExecutorStreams {
  import opened Options
  import opened Correlation
  import opened ReverseProtocol
  import opened ExecutorProtocol
  import opened ExecutorInvariant
  import opened ExecutorRuns

  /** The progress value that one action keeps for `slot`. */
  ghost function HeardIn(s: State, a: Action, slot: Slot): seq<real> {
    if a.Progress? && a.kept && a.key in s.pending && SlotOf(s.pending[a.key]) == slot then [a.value] else []
  }

  /** The values kept for `slot` in a run since its stream was last taken. */
  ghost function Heard(cfg: Config, trace: seq<Action>, slot: Slot): seq<real>
    requires IsRun(cfg, trace)
    decreases |trace|
  {
    if trace == [] then []
    else
      var n := |trace| - 1;
      if trace[n] == TakeStream(slot) then []
      else Heard(cfg, trace[..n], slot) + HeardIn(After(cfg, trace[..n]).value, trace[n], slot)
  }

  /** The streams hold what was heard: for the pending, for the answered, and nothing for the failed. */
  ghost predicate Listened(cfg: Config, trace: seq<Action>, slot: Slot)
    requires IsRun(cfg, trace)
  {
    var s := After(cfg, trace).value;
    && (slot in PendingSlots(s.pending) ==> StreamOf(s.streams, slot) == Heard(cfg, trace, slot))
    && (slot in s.completed ==>
          StreamOf(s.streams, slot) == if s.completed[slot].Response? then Heard(cfg, trace, slot) else [])
    && (slot.1 !in s.history.admitted ==> Heard(cfg, trace, slot) == [])
  }

  // ----- One action -----

  lemma OutcomesAreNotPending(cfg: Config, s: State)
    requires Inv(cfg, s)
    ensures s.completed.Keys == s.expirations.Keys
    ensures forall x | x in s.completed :: x !in PendingSlots(s.pending) && x.1 in s.history.admitted
    ensures forall x | x in PendingSlots(s.pending) :: x.1 in s.history.admitted
  {
    hide Sends, Fences, Spacing, Wire, Bounds, Streams, Callbacks, Kept, Ownership, PendingSlots;
    PendingUnretired(cfg, s);
    OutcomesAreRetired(s);
  }

  lemma NewSlotIsSilent(cfg: Config, s: State, slot: Slot)
    requires Inv(cfg, s) && slot.1 !in s.history.admitted
    ensures StreamOf(s.streams, slot) == []
  {
    hide Sends, Ownership, Terminals, Fences, Spacing, Wire, Bounds, Callbacks, Kept;
  }

  /** A new owner has heard nothing, and nobody else is affected. */
  lemma OwnedHears(cfg: Config, s: State, a: Action, slot: Slot)
    requires Inv(cfg, s) && a.SendOwned? && Enabled(cfg, s, a)
    ensures var s' := Apply(cfg, s, a);
            s'.streams == s.streams && s'.completed == s.completed
            && (slot in PendingSlots(s'.pending) ==>
                  slot in PendingSlots(s.pending) || slot.1 == s.nextGeneration + 1)
  {
    hide Inv, CanAdmit, Lasts;
    var s' := Apply(cfg, s, a);
    if slot in PendingSlots(s'.pending) {
      var k :| k in s'.pending && slot == SlotOf(s'.pending[k]);
      if k != a.key { assert k in s.pending && SlotOf(s.pending[k]) == slot; }
    }
  }

  /** Kept progress is appended to the stream of its owner and of nobody else. */
  lemma ProgressHears(cfg: Config, s: State, a: Action, slot: Slot)
    requires Inv(cfg, s) && a.Progress? && Enabled(cfg, s, a)
    ensures var s' := Apply(cfg, s, a);
            s'.completed == s.completed && PendingSlots(s'.pending) == PendingSlots(s.pending)
            && StreamOf(s'.streams, slot) == StreamOf(s.streams, slot) + HeardIn(s, a, slot)
            && (HeardIn(s, a, slot) != [] ==> slot in PendingSlots(s.pending))
  {
    hide Inv, UniqueMarker, IdleAfterProgress, Fits;
    var s' := Apply(cfg, s, a);
    SameSlots(s.pending, s'.pending);
    if a.key in s.pending { SlotPending(s.pending, a.key); }
  }

  lemma SameSlots(pending: map<CorrelationKey, Owner>, pending': map<CorrelationKey, Owner>)
    requires pending'.Keys == pending.Keys
    requires forall k | k in pending :: SlotOf(pending'[k]) == SlotOf(pending[k])
    ensures PendingSlots(pending') == PendingSlots(pending)
  {
    assert forall k | k in pending :: k in pending';
    forall x | x in PendingSlots(pending) ensures x in PendingSlots(pending') {
      var k :| k in pending && x == SlotOf(pending[k]);
      assert x == SlotOf(pending'[k]);
    }
    forall x | x in PendingSlots(pending') ensures x in PendingSlots(pending) {
      var k :| k in pending' && x == SlotOf(pending'[k]);
      assert x == SlotOf(pending[k]);
    }
  }

  /** Nobody else's action touches the stream of a slot that stays pending. */
  lemma PendingHears(cfg: Config, s: State, a: Action, slot: Slot)
    requires Inv(cfg, s) && Enabled(cfg, s, a) && !a.SendOwned? && !a.Progress? && a != TakeStream(slot)
    requires slot in PendingSlots(Apply(cfg, s, a).pending)
    ensures slot in PendingSlots(s.pending) && StreamOf(Apply(cfg, s, a).streams, slot) == StreamOf(s.streams, slot)
  {
    hide Inv, Enabled, Apply;
    var k := StillPending(cfg, s, a, slot);
    OutcomesAreNotPending(cfg, s);
    InvOwnership(cfg, s);
    SlotPending(s.pending, k);
    if a.Retire? || a.DropOwner? { LeaversHear(cfg, s, a, k); } else { OthersHear(cfg, s, a, k); }
  }

  lemma StillPending(cfg: Config, s: State, a: Action, slot: Slot) returns (k: CorrelationKey)
    requires Enabled(cfg, s, a) && !a.SendOwned? && !a.Progress? && slot in PendingSlots(Apply(cfg, s, a).pending)
    ensures k in s.pending && SlotOf(s.pending[k]) == slot && k in Apply(cfg, s, a).pending
  {
    hide Enabled, Apply;
    StreamsShrink(cfg, s, a);
    k :| k in Apply(cfg, s, a).pending && slot == SlotOf(Apply(cfg, s, a).pending[k]);
  }

  lemma LeaversHear(cfg: Config, s: State, a: Action, k: CorrelationKey)
    requires Ownership(cfg, s) && Enabled(cfg, s, a) && (a.Retire? || a.DropOwner?)
    requires k in s.pending && k in Apply(cfg, s, a).pending
    ensures var slot := SlotOf(s.pending[k]); StreamOf(Apply(cfg, s, a).streams, slot) == StreamOf(s.streams, slot)
  {
    hide Ownership, RecordOf, OutcomeOf, ReasonOf, TerminalExpiry, IsCancelReason, Fits;
    SlotsDiffer(cfg, s, a.key);
  }

  lemma OthersHear(cfg: Config, s: State, a: Action, k: CorrelationKey)
    requires Enabled(cfg, s, a) && k in s.pending && k in Apply(cfg, s, a).pending
    requires !a.SendOwned? && !a.Progress? && !a.Retire? && !a.DropOwner? && a != TakeStream(SlotOf(s.pending[k]))
    requires s.completed.Keys == s.expirations.Keys && SlotOf(s.pending[k]) !in s.completed
    ensures var slot := SlotOf(s.pending[k]); StreamOf(Apply(cfg, s, a).streams, slot) == StreamOf(s.streams, slot)
  {
    hide Enabled, Apply, StreamOf;
    if a.FailAll? { FailAllAdds(cfg, s, a); }
    else if Sweeps(a) { SweepsHear(cfg, s, a, k); }
    else { RestHears(cfg, s, a, k); }
  }

  lemma SweepsHear(cfg: Config, s: State, a: Action, k: CorrelationKey)
    requires Enabled(cfg, s, a) && k in s.pending && k in Apply(cfg, s, a).pending && Sweeps(a)
    requires s.completed.Keys == s.expirations.Keys && SlotOf(s.pending[k]) !in s.completed
    ensures var slot := SlotOf(s.pending[k]); StreamOf(Apply(cfg, s, a).streams, slot) == StreamOf(s.streams, slot)
  {
    assert s.pending[k].generation in PendingGenerations(s.pending);
  }

  lemma RestHears(cfg: Config, s: State, a: Action, k: CorrelationKey)
    requires Enabled(cfg, s, a) && k in s.pending && k in Apply(cfg, s, a).pending && !Sweeps(a) && !a.FailAll?
    requires !a.SendOwned? && !a.Progress? && !a.Retire? && !a.DropOwner? && a != TakeStream(SlotOf(s.pending[k]))
    ensures var slot := SlotOf(s.pending[k]); StreamOf(Apply(cfg, s, a).streams, slot) == StreamOf(s.streams, slot)
  {
    hide CanAdmit, Lasts, Fits, MayReverse, ReverseApply;
  }

  /** An outcome comes with the stream of its owner when it is a response, without any when it is a failure, and keeps
      it. */
  lemma OutcomeHears(cfg: Config, s: State, a: Action, slot: Slot)
    requires Inv(cfg, s) && Enabled(cfg, s, a) && a != TakeStream(slot) && slot in Apply(cfg, s, a).completed
    ensures var s' := Apply(cfg, s, a); var now, was := StreamOf(s'.streams, slot), StreamOf(s.streams, slot);
            HeardIn(s, a, slot) == []
            && if slot in s.completed then s'.completed[slot] == s.completed[slot] && now == was
               else slot in PendingSlots(s.pending) && now == if s'.completed[slot].Response? then was else []
  {
    hide Inv, Enabled, Apply, PendingSlots, StreamOf;
    OutcomesAreNotPending(cfg, s);
    if a.SendOwned? { OwnedHears(cfg, s, a, slot); }
    else if a.Progress? { ProgressHears(cfg, s, a, slot); }
    else if a.Retire? { RetiredHears(cfg, s, a, slot); }
    else if a.FailAll? { FailedHears(cfg, s, a, slot); }
    else { KeptHears(cfg, s, a, slot); }
  }

  lemma RetiredHears(cfg: Config, s: State, a: Action, slot: Slot)
    requires Enabled(cfg, s, a) && a.Retire? && slot in Apply(cfg, s, a).completed
    requires forall x | x in s.completed :: x !in PendingSlots(s.pending)
    ensures var s' := Apply(cfg, s, a); var now, was := StreamOf(s'.streams, slot), StreamOf(s.streams, slot);
            if slot in s.completed then s'.completed[slot] == s.completed[slot] && now == was
            else slot in PendingSlots(s.pending) && now == if s'.completed[slot].Response? then was else []
  {
    hide RecordOf, ReasonOf, TerminalExpiry, IsCancelReason, PendingSlots;
    SlotPending(s.pending, a.key);
  }

  lemma FailedHears(cfg: Config, s: State, a: Action, slot: Slot)
    requires Enabled(cfg, s, a) && a.FailAll? && slot in Apply(cfg, s, a).completed
    requires forall x | x in s.completed :: x !in PendingSlots(s.pending)
    ensures var s' := Apply(cfg, s, a); var now, was := StreamOf(s'.streams, slot), StreamOf(s.streams, slot);
            if slot in s.completed then s'.completed[slot] == s.completed[slot] && now == was
            else slot in PendingSlots(s.pending) && now == if s'.completed[slot].Response? then was else []
  {
    hide PendingSlots, PendingGenerations, CancelledAll, ExpiriesWithin;
  }

  lemma KeptHears(cfg: Config, s: State, a: Action, slot: Slot)
    requires Enabled(cfg, s, a) && a != TakeStream(slot) && slot in Apply(cfg, s, a).completed
    requires !a.SendOwned? && !a.Progress? && !a.Retire? && !a.FailAll?
    requires s.completed.Keys == s.expirations.Keys
    requires forall x | x in s.completed :: x !in PendingSlots(s.pending)
    ensures var s' := Apply(cfg, s, a);
            slot in s.completed && s'.completed[slot] == s.completed[slot]
            && StreamOf(s'.streams, slot) == StreamOf(s.streams, slot)
  {
    hide Enabled, Apply, StreamOf, PendingSlots;
    if Sweeps(a) { SweptHears(cfg, s, a, slot); } else { StillHears(cfg, s, a, slot); }
  }

  lemma SweptHears(cfg: Config, s: State, a: Action, slot: Slot)
    requires Enabled(cfg, s, a) && slot in Apply(cfg, s, a).completed && Sweeps(a)
    requires s.completed.Keys == s.expirations.Keys
    ensures var s' := Apply(cfg, s, a);
            slot in s.completed && s'.completed[slot] == s.completed[slot]
            && StreamOf(s'.streams, slot) == StreamOf(s.streams, slot)
  {
    hide PendingGenerations;
  }

  lemma StillHears(cfg: Config, s: State, a: Action, slot: Slot)
    requires Enabled(cfg, s, a) && a != TakeStream(slot) && slot in Apply(cfg, s, a).completed && !Sweeps(a)
    requires !a.SendOwned? && !a.Progress? && !a.Retire? && !a.FailAll?
    requires forall x | x in s.completed :: x !in PendingSlots(s.pending)
    ensures var s' := Apply(cfg, s, a);
            slot in s.completed && s'.completed[slot] == s.completed[slot]
            && StreamOf(s'.streams, slot) == StreamOf(s.streams, slot)
  {
    hide CanAdmit, Lasts, Fits, MayReverse, ReverseApply, PendingSlots;
    if a.DropOwner? { SlotPending(s.pending, a.key); }
  }

  lemma StrangersHearNothing(cfg: Config, s: State, a: Action, slot: Slot)
    requires Inv(cfg, s) && slot.1 !in s.history.admitted
    ensures HeardIn(s, a, slot) == []
  {
    hide Inv, PendingSlots;
    OutcomesAreNotPending(cfg, s);
    if a.Progress? && a.key in s.pending { SlotPending(s.pending, a.key); }
  }

  // ----- Whole runs -----

  lemma {:induction false} AllListened(cfg: Config, trace: seq<Action>, slot: Slot)
    requires IsRun(cfg, trace)
    ensures Listened(cfg, trace, slot)
    decreases |trace|
  {
    hide Enabled, Apply, Inv, StreamOf, HeardIn;
    if trace == [] {
      StartsSilent(slot);
    } else {
      var n := |trace| - 1;
      AllListened(cfg, trace[..n], slot);
      ReachableInv(cfg, trace[..n]);
      ListenedStep(cfg, trace[..n], trace[n], slot);
      assert trace[..n] + [trace[n]] == trace;
    }
  }

  lemma StartsSilent(slot: Slot)
    ensures StreamOf(INITIAL.streams, slot) == [] && slot !in PendingSlots(INITIAL.pending)
  {
  }

  lemma ListenedStep(cfg: Config, trace: seq<Action>, a: Action, slot: Slot)
    requires IsRun(cfg, trace) && Listened(cfg, trace, slot) && Inv(cfg, After(cfg, trace).value)
    requires Enabled(cfg, After(cfg, trace).value, a)
    ensures IsRun(cfg, trace + [a]) && Listened(cfg, trace + [a], slot)
  {
    hide Enabled, Apply, Inv, PendingSlots, StreamOf, HeardIn, After, Heard;
    var s := After(cfg, trace).value;
    var s' := Apply(cfg, s, a);
    AfterStep(cfg, trace, a);
    HeardStep(cfg, trace, a, slot);
    AdmittedGrow(cfg, s, a);
    if slot.1 !in s.history.admitted { StrangersHearNothing(cfg, s, a, slot); }
    if a == TakeStream(slot) {
      TakenIsSilent(cfg, s, slot);
    } else {
      if slot in s'.completed { OutcomeHears(cfg, s, a, slot); }
      if slot in PendingSlots(s'.pending) { WaiterHears(cfg, s, a, slot); }
    }
  }

  lemma HeardStep(cfg: Config, trace: seq<Action>, a: Action, slot: Slot)
    requires IsRun(cfg, trace) && IsRun(cfg, trace + [a])
    ensures Heard(cfg, trace + [a], slot)
            == if a == TakeStream(slot) then []
               else Heard(cfg, trace, slot) + HeardIn(After(cfg, trace).value, a, slot)
  {
    hide After, HeardIn;
    assert (trace + [a])[..|trace|] == trace;
  }

  lemma AdmittedGrow(cfg: Config, s: State, a: Action)
    requires Inv(cfg, s) && Enabled(cfg, s, a)
    ensures s.history.admitted.Keys <= Apply(cfg, s, a).history.admitted.Keys
  {
    hide Inv, Enabled, Apply;
    InvOwnership(cfg, s);
    HistoryExtends(cfg, s, a);
  }

  lemma TakenIsSilent(cfg: Config, s: State, slot: Slot)
    requires Enabled(cfg, s, TakeStream(slot))
    ensures StreamOf(Apply(cfg, s, TakeStream(slot)).streams, slot) == []
  {
  }

  /** The stream of a slot that is pending after an action. */
  lemma WaiterHears(cfg: Config, s: State, a: Action, slot: Slot)
    requires Inv(cfg, s) && Enabled(cfg, s, a) && a != TakeStream(slot)
    requires slot in PendingSlots(Apply(cfg, s, a).pending)
    ensures slot in PendingSlots(s.pending) || slot.1 !in s.history.admitted
    ensures StreamOf(Apply(cfg, s, a).streams, slot) == StreamOf(s.streams, slot) + HeardIn(s, a, slot)
    ensures slot.1 !in s.history.admitted ==> StreamOf(s.streams, slot) == []
  {
    hide Inv, Enabled, Apply, PendingSlots, StreamOf;
    if slot.1 !in s.history.admitted { NewSlotIsSilent(cfg, s, slot); }
    if a.SendOwned? {
      OwnedHears(cfg, s, a, slot);
      InvOwnership(cfg, s);
      NextIsNew(cfg, s);
    } else if a.Progress? {
      ProgressHears(cfg, s, a, slot);
    } else {
      PendingHears(cfg, s, a, slot);
    }
  }

  /** Delivery of progress: the stream handed out with a response has exactly the values kept for that execution since
      its stream was last taken, in their order; a failure comes without any. */
  lemma DeliveredStreamWasHeard(cfg: Config, trace: seq<Action>, i: nat)
    requires IsRun(cfg, trace) && i < |trace| && trace[i].HandOut?
    ensures IsRun(cfg, trace[..i])
    ensures trace[i].stream == if trace[i].outcome.Response? then Heard(cfg, trace[..i], trace[i].slot) else []
  {
    hide Apply, Inv, After, Heard, StreamOf;
    PrefixIsRun(cfg, trace, i);
    AllListened(cfg, trace[..i], trace[i].slot);
    StepAt(cfg, trace, i);
  }

  /** The same for a stream that is taken before the execution ends. */
  lemma TakenStreamWasHeard(cfg: Config, trace: seq<Action>, slot: Slot)
    requires IsRun(cfg, trace) && slot in PendingSlots(After(cfg, trace).value.pending)
    ensures StreamOf(After(cfg, trace).value.streams, slot) == Heard(cfg, trace, slot)
  {
    hide After, Heard, StreamOf, PendingSlots;
    AllListened(cfg, trace, slot);
  }
}
