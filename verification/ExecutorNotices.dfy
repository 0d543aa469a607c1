/** The peer learns of every request that was given up: the lower bound that goes with the notices on the wire. */
module ExecutorNotices {
  import opened Options
  import opened Correlation
  import opened ReverseProtocol
  import opened ExecutorProtocol
  import opened ExecutorInvariant
  import opened ExecutorRuns
  import opened ExecutorWire

  /** `g` was cancelled, timed out, dropped or shut down, and its id can stand in a notice. */
  ghost predicate Owed(cfg: Config, h: History, g: nat) {
    && g in h.retired && IsCancelReason(h.retired[g].reason)
    && g in h.admitted && h.admitted[g].rpc != Initialize && cfg.encodable(h.admitted[g].id)
  }

  /** The notice was sent, it waits to be sent, or the connection has failed. */
  ghost predicate Told(s: State, g: nat) {
    || s.history.cancels[g] > 0
    || (g in s.history.admitted && (s.history.admitted[g].id, g) in s.deferred)
    || s.terminalError.Some?
  }

  /** The owner of generation `g` is lost: the clock has no room for its tombstone. */
  ghost predicate Loses(s: State, a: Action, g: nat) {
    a.Lose? && a.key in s.pending && s.pending[a.key].generation == g
  }

  ghost predicate LostBefore(cfg: Config, trace: seq<Action>, i: nat, g: nat)
    requires IsRun(cfg, trace) && i <= |trace|
  {
    exists m | 0 <= m < i :: Loses(StateAt(cfg, trace, m), trace[m], g)
  }

  // ----- Steps -----

  lemma LeavingDefers(cfg: Config, s: State, a: Action)
    requires Enabled(cfg, s, a) && (a.Retire? || a.DropOwner?)
    ensures s.deferred <= Apply(cfg, s, a).deferred
  {
    hide MayRetire, RecordOf, OutcomeOf, ReasonOf, TerminalExpiry, Fits;
  }

  lemma FlushingTells(cfg: Config, s: State, a: Action)
    requires Enabled(cfg, s, a) && a.FlushDeferred?
    ensures var s' := Apply(cfg, s, a);
            s'.deferred == s.deferred[1..] && s'.history.cancels[s.deferred[0].1] > 0
  {
  }

  lemma ToldStays(cfg: Config, s: State, a: Action, g: nat)
    requires Ownership(cfg, s) && Enabled(cfg, s, a) && Told(s, g)
    ensures Told(Apply(cfg, s, a), g)
  {
    hide Ownership, Enabled, Apply;
    CountersLater(cfg, s, a);
    HistoryExtends(cfg, s, a);
    if a.Retire? || a.DropOwner? { LeavingDefers(cfg, s, a); }
    else if a.FlushDeferred? { FlushingTells(cfg, s, a); }
    else if a.FailAll? { FailingIsKnown(cfg, s, a); }
    else { NoNotice(cfg, s, a); }
  }

  lemma FailingIsKnown(cfg: Config, s: State, a: Action)
    requires Enabled(cfg, s, a) && a.FailAll?
    ensures Apply(cfg, s, a).terminalError.Some?
  {
    hide FailuresOf, ExpiriesWithin, CancelledAll;
  }

  /** Whoever leaves for a reason that the peer should know is told about at once, or put off. */
  lemma LeavingTells(cfg: Config, s: State, a: Action, g: nat)
    requires Ownership(cfg, s) && Enabled(cfg, s, a) && (a.Retire? || a.DropOwner?)
    requires g !in s.history.retired && Owed(cfg, Apply(cfg, s, a).history, g)
    ensures Told(Apply(cfg, s, a), g)
  {
    hide Ownership, RecordOf, OutcomeOf, TerminalExpiry, Fits;
    LiveUnretired(cfg, s);
    var o, s' := s.pending[a.key], Apply(cfg, s, a);
    assert g == o.generation && s'.history.admitted[g].id == o.id;
    if a.DropOwner? { assert s'.deferred[|s.deferred|] == SlotOf(o); }
  }

  lemma OnlyLeaversRetire(cfg: Config, s: State, a: Action, g: nat)
    requires Enabled(cfg, s, a) && !a.Retire? && !a.DropOwner? && !a.FailAll?
    requires g !in s.history.retired && g in Apply(cfg, s, a).history.retired
    ensures Loses(s, a, g)
  {
    hide Enabled, Apply;
    if a.Lose? { LosesItsOwner(cfg, s, a); }
    else if a.SendOwned? { OwningRetiresNobody(cfg, s, a); }
    else { RestCounts(cfg, s, a); }
  }

  lemma LosesItsOwner(cfg: Config, s: State, a: Action)
    requires Enabled(cfg, s, a) && a.Lose?
    ensures a.key in s.pending
            && Apply(cfg, s, a).history.retired.Keys == s.history.retired.Keys + {s.pending[a.key].generation}
  {
    hide Fits;
  }

  lemma OwningRetiresNobody(cfg: Config, s: State, a: Action)
    requires Enabled(cfg, s, a) && a.SendOwned?
    ensures Apply(cfg, s, a).history.retired == s.history.retired
  {
    hide MaySend, Lasts, OwnerFor;
  }

  lemma OwedStays(cfg: Config, s: State, a: Action, g: nat)
    requires Ownership(cfg, s) && Enabled(cfg, s, a) && g in s.history.retired
    requires Owed(cfg, Apply(cfg, s, a).history, g)
    ensures Owed(cfg, s.history, g)
  {
    hide Enabled, Apply, IsCancelReason;
    HistoryExtends(cfg, s, a);
  }

  // ----- Runs -----

  lemma {:induction false} ToldAt(cfg: Config, trace: seq<Action>, i: nat, g: nat)
    requires IsRun(cfg, trace) && i <= |trace|
    requires Owed(cfg, StateAt(cfg, trace, i).history, g) && !LostBefore(cfg, trace, i, g)
    ensures Told(StateAt(cfg, trace, i), g)
    decreases i
  {
    hide StateAt, IsRun, Inv, Ownership, Enabled, Apply, Told, Loses;
    if i == 0 { StartState(cfg, trace); }
    else {
      var s, a := StateAt(cfg, trace, i - 1), trace[i - 1];
      StepAt(cfg, trace, i - 1);
      StateInv(cfg, trace, i - 1);
      InvOwnership(cfg, s);
      if g in s.history.retired {
        OwedStays(cfg, s, a, g);
        ToldAt(cfg, trace, i - 1, g);
        ToldStays(cfg, s, a, g);
      } else if a.Retire? || a.DropOwner? {
        LeavingTells(cfg, s, a, g);
      } else if a.FailAll? {
        FailingIsKnown(cfg, s, a);
        assert Told(StateAt(cfg, trace, i), g) by { hide *; Failed(StateAt(cfg, trace, i), g); }
      } else {
        OnlyLeaversRetire(cfg, s, a, g);
      }
    }
  }

  lemma Failed(s: State, g: nat)
    requires s.terminalError.Some?
    ensures Told(s, g)
  {
  }

  /** The peer is told: in every run a request other than `initialize` that was cancelled, timed out, dropped or shut
      down, and whose id can be encoded, has exactly one notice on the wire, or its notice waits to be sent, or the
      connection has failed since; the one exception is an owner that was lost because the clock had no room for its
      tombstone. */
  lemma PeerIsTold(cfg: Config, trace: seq<Action>, wire: seq<Dispatch>, g: nat)
    requires IsRun(cfg, trace) && Wired(cfg, trace, wire)
    requires var h := After(cfg, trace).value.history;
             && g in h.retired && IsCancelReason(h.retired[g].reason)
             && g in h.admitted && h.admitted[g].rpc != Initialize && cfg.encodable(h.admitted[g].id)
    requires !LostBefore(cfg, trace, |trace|, g)
    ensures var s := After(cfg, trace).value;
            Notices(wire, g) == 1 || (s.history.admitted[g].id, g) in s.deferred || s.terminalError.Some?
  {
    hide After, Wired, Notices, LostBefore, IsCancelReason;
    assert trace[..|trace|] == trace;
    ToldAt(cfg, trace, |trace|, g);
    NoticesCounted(cfg, trace, wire, g);
    CancellationNotices(cfg, trace, wire, g);
  }

  // ----- The exception -----

  /** No notice for `g` was sent and none waits. */
  ghost predicate Untold(s: State, g: nat) {
    g in s.history.retired && s.history.cancels[g] == 0 && forall x | x in s.deferred :: x.1 != g
  }

  lemma LosingTellsNobody(cfg: Config, s: State, a: Action, g: nat)
    requires Ownership(cfg, s) && Wire(s) && Enabled(cfg, s, a) && Loses(s, a, g)
    ensures Untold(Apply(cfg, s, a), g)
  {
    hide Ownership, Fits;
    LiveUnretired(cfg, s);
    assert !MayCancel(s.history, g);
  }

  lemma LeavingLeavesUntold(cfg: Config, s: State, a: Action, g: nat)
    requires Ownership(cfg, s) && Enabled(cfg, s, a) && Untold(s, g) && (a.Retire? || a.DropOwner?)
    ensures Untold(Apply(cfg, s, a), g)
  {
    hide Ownership, IsCancelReason, RecordOf, OutcomeOf, ReasonOf, TerminalExpiry, Fits;
    LiveUnretired(cfg, s);
  }

  lemma FlushLeavesUntold(cfg: Config, s: State, a: Action, g: nat)
    requires Enabled(cfg, s, a) && Untold(s, g) && a.FlushDeferred?
    ensures Untold(Apply(cfg, s, a), g)
  {
    assert s.deferred[0] in s.deferred;
  }

  lemma UntoldStays(cfg: Config, s: State, a: Action, g: nat)
    requires Ownership(cfg, s) && Enabled(cfg, s, a) && Untold(s, g)
    ensures Untold(Apply(cfg, s, a), g)
  {
    hide Ownership, Enabled, Apply;
    HistoryExtends(cfg, s, a);
    if a.Retire? || a.DropOwner? { LeavingLeavesUntold(cfg, s, a, g); }
    else if a.FlushDeferred? { FlushLeavesUntold(cfg, s, a, g); }
    else if a.FailAll? { FailAllAdds(cfg, s, a); }
    else { NoNotice(cfg, s, a); }
  }

  lemma {:induction false} UntoldAt(cfg: Config, trace: seq<Action>, i: nat, g: nat)
    requires IsRun(cfg, trace) && i <= |trace| && LostBefore(cfg, trace, i, g)
    ensures Untold(StateAt(cfg, trace, i), g)
    decreases i
  {
    hide StateAt, IsRun, Ownership, Terminals, Fences, Spacing, Wire, Bounds, Streams, Callbacks, Sends, Kept, Enabled,
         Apply, Untold, Loses;
    var s, a := StateAt(cfg, trace, i - 1), trace[i - 1];
    StepAt(cfg, trace, i - 1);
    StateInv(cfg, trace, i - 1);
    if Loses(s, a, g) { LosingTellsNobody(cfg, s, a, g); }
    else {
      var m :| 0 <= m < i && Loses(StateAt(cfg, trace, m), trace[m], g);
      assert m < i - 1;
      UntoldAt(cfg, trace, i - 1, g);
      UntoldStays(cfg, s, a, g);
    }
  }

  /** An owner that was lost because the clock had no room for its tombstone is the exception: the peer is never told. */
  lemma LostIsNeverTold(cfg: Config, trace: seq<Action>, wire: seq<Dispatch>, g: nat)
    requires IsRun(cfg, trace) && Wired(cfg, trace, wire) && LostBefore(cfg, trace, |trace|, g)
    ensures var s := After(cfg, trace).value; Notices(wire, g) == 0 && forall x | x in s.deferred :: x.1 != g
  {
    hide After, Wired, Notices, LostBefore;
    assert trace[..|trace|] == trace;
    UntoldAt(cfg, trace, |trace|, g);
    NoticesCounted(cfg, trace, wire, g);
  }
}
