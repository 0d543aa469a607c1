/** What is kept about a finished request says why it finished: the terminal records and the tombstones. */
module ExecutorRecords {
  import opened Options
  import opened Correlation
  import opened ReverseProtocol
  import opened ExecutorProtocol
  import opened ExecutorInvariant
  import opened ExecutorRuns

  /** A record of the retirement of `g`, whose peer was sent `notices`: its state, and everything else, follows from the
      reason. Only the failure of a connection leaves no tombstone behind. */
  ghost predicate Describes(r: TerminalRecord, was: Retirement, notices: nat) {
    var cancelled := IsCancelReason(was.reason) || was.reason == PeerSubscriptionTeardown;
    && r.reason == was.reason && was.outcome.Some?
    && (r.state == Responded <==> was.reason == FinalResponse) && (r.state == Cancelled <==> cancelled)
    && (was.outcome.value.Response? <==> r.state == Responded)
    && (r.finalDelivered <==> r.state == Responded)
    && (r.cancellationCommitted <==> cancelled) && (r.localEvent <==> cancelled) && r.cancellationAttempts == notices
    && r.waiterRelease && (!r.tombstone ==> IsFailureReason(r.reason)) && (r.reason == ConnectionLost ==> !r.tombstone)
  }

  /** A late response is worth keeping only when an earlier one has ended the request. */
  ghost predicate Remembers(t: Tombstone, was: Retirement) {
    t.keepsDiagnostic <==> was.reason == FinalResponse || was.reason == PeerProtocol
  }

  ghost predicate Recorded(s: State) {
    var h := s.history;
    && (forall x | x in s.records :: x.1 in h.retired && Describes(s.records[x], h.retired[x.1], h.cancels[x.1]))
    && (forall k | k in s.tombstones ::
          s.tombstones[k].generation in h.retired && Remembers(s.tombstones[k], h.retired[s.tombstones[k].generation]))
  }

  // ----- Steps -----

  lemma RecordedFrame(s: State, s': State)
    requires Recorded(s) && Extends(s.history, s'.history)
    requires forall x | x in s'.records ::
               x in s.records && s'.records[x] == s.records[x] && s'.history.cancels[x.1] == s.history.cancels[x.1]
    requires forall k | k in s'.tombstones :: k in s.tombstones && s'.tombstones[k] == s.tombstones[k]
    ensures Recorded(s')
  {
    hide Describes, Remembers;
  }

  lemma SweptRecords(cfg: Config, s: State, a: Action)
    requires Enabled(cfg, s, a) && Sweeps(a)
    ensures var s' := Apply(cfg, s, a);
            (!a.FlushDeferred? ==>
               s'.history.cancels == s.history.cancels
               && forall x | x in s'.records :: x in s.records && s'.records[x] == s.records[x])
            && s'.tombstones == s.tombstones
  {
    hide StreamOf, Expired, PendingGenerations;
  }

  lemma RestRecords(cfg: Config, s: State, a: Action)
    requires Enabled(cfg, s, a) && !Sweeps(a) && !a.Retire? && !a.DropOwner? && !a.FailAll?
    ensures var s' := Apply(cfg, s, a);
            s'.history.cancels == s.history.cancels && s'.records == s.records
            && forall k | k in s'.tombstones :: k in s.tombstones && s'.tombstones[k] == s.tombstones[k]
  {
    hide CanAdmit, UniqueMarker, MayReverse, ReverseApply, IdleAfterProgress, StreamOf, Fits, Lasts, OwnerFor;
  }

  /** A deferred notice is of a request without a record. */
  lemma FlushedRecords(cfg: Config, s: State, a: Action)
    requires Wire(s) && Terminals(s) && Enabled(cfg, s, a) && a.FlushDeferred?
    ensures var s' := Apply(cfg, s, a);
            s'.records == s.records && s'.tombstones == s.tombstones
            && forall x | x in s'.records :: s'.history.cancels[x.1] == s.history.cancels[x.1]
  {
    var slot := s.deferred[0];
    assert slot !in s.records;
    forall x | x in s.records ensures x.1 != slot.1 {
      assert x in s.completed;
    }
  }

  lemma DroppedRecords(cfg: Config, s: State, a: Action)
    requires Ownership(cfg, s) && Enabled(cfg, s, a) && a.DropOwner? && Recorded(s)
    ensures Recorded(Apply(cfg, s, a))
  {
    hide Ownership, Describes, IsCancelReason, Fits;
    LiveUnretired(cfg, s);
  }

  lemma RecordAdded(s: State, s': State, slot: Slot, key: CorrelationKey, was: Retirement)
    requires Recorded(s) && slot.1 !in s.history.retired
    requires s'.history.retired == s.history.retired[slot.1 := was]
    requires forall g | g != slot.1 :: s'.history.cancels[g] == s.history.cancels[g]
    requires slot in s'.records && s'.records == s.records[slot := s'.records[slot]]
    requires Describes(s'.records[slot], was, s'.history.cancels[slot.1])
    requires key in s'.tombstones && s'.tombstones == s.tombstones[key := s'.tombstones[key]]
    requires s'.tombstones[key].generation == slot.1 && Remembers(s'.tombstones[key], was)
    ensures Recorded(s')
  {
    hide Describes, Remembers;
  }

  lemma RetiredRecords(cfg: Config, s: State, a: Action)
    requires Ownership(cfg, s) && Wire(s) && Enabled(cfg, s, a) && a.Retire? && Recorded(s)
    ensures Recorded(Apply(cfg, s, a))
  {
    hide Ownership, Wire, Recorded, Describes, Remembers, RecordOf, OutcomeOf, ReasonOf, TerminalExpiry, IsCancelReason,
         Fits;
    LiveUnretired(cfg, s);
    var o := s.pending[a.key];
    Unnoticed(s, o.generation);
    NewRecord(o, a.cause, s.clock, s.clock + cfg.retention);
    RecordAdded(s, Apply(cfg, s, a), SlotOf(o), a.key,
                Retirement(ReasonOf(a.cause), s.clock, true, Some(OutcomeOf(a.cause))));
  }

  lemma Unnoticed(s: State, g: nat)
    requires Wire(s) && g !in s.history.retired
    ensures s.history.cancels[g] == 0
  {
    assert !MayCancel(s.history, g);
  }

  lemma NewRecord(o: Owner, cause: Cause, at: nat, expiresAt: nat)
    requires cause.Abandoned? ==> IsCancelReason(cause.reason) || cause.reason == PeerSubscriptionTeardown
    ensures Describes(RecordOf(cause), Retirement(ReasonOf(cause), at, true, Some(OutcomeOf(cause))),
                      if Notifies(cause) then 1 else 0)
    ensures Remembers(Tombstone(o.generation, expiresAt, !cause.Abandoned?),
                      Retirement(ReasonOf(cause), at, true, Some(OutcomeOf(cause))))
  {
  }

  /** Whoever was pending when the connection failed got its record and its retirement together. */
  lemma FailedOne(owners: map<CorrelationKey, Owner>, clock: nat, error: Error, reason: Reason, f: Failures, x: Slot)
    requires FailuresOf(owners, clock, error, reason, f) && x in f.records
    ensures exists k | k in owners :: SlotOf(owners[k]) == x
    ensures f.records[x] == FailRecord(reason) && x.1 in f.retired
            && f.retired[x.1] == Retirement(reason, clock, true, Some(Failure(error)))
  {
    hide FailRecord;
    var k :| k in owners && SlotOf(owners[k]) == x;
    assert owners[k].generation in PendingGenerations(owners);
  }

  lemma FailDescribes(reason: Reason, clock: nat, error: Error)
    requires IsFailureReason(reason)
    ensures Describes(FailRecord(reason), Retirement(reason, clock, true, Some(Failure(error))), 0)
  {
  }

  lemma FailedRecords(cfg: Config, s: State, a: Action)
    requires Ownership(cfg, s) && Wire(s) && Enabled(cfg, s, a) && a.FailAll? && Recorded(s)
    ensures Recorded(Apply(cfg, s, a))
  {
    hide Ownership, Wire, Describes, Remembers, FailuresOf, FailRecord, ExpiriesWithin, CancelledAll, Extends;
    LiveUnretired(cfg, s);
    HistoryExtends(cfg, s, a);
    var s', f := Apply(cfg, s, a), a.failures;
    FailDescribes(a.reason, s.clock, a.error);
    forall x | x in s'.records
      ensures x.1 in s'.history.retired && Describes(s'.records[x], s'.history.retired[x.1], s'.history.cancels[x.1])
    {
      if x in f.records {
        FailedOne(s.pending, s.clock, a.error, a.reason, f, x);
        Unnoticed(s, x.1);
      } else {
        StaysRetired(s.history, s'.history, x.1);
      }
    }
  }

  lemma StaysRetired(h: History, h': History, g: nat)
    requires Extends(h, h') && g in h.retired
    ensures g in h'.retired && h'.retired[g] == h.retired[g]
  {
  }

  lemma RecordedKept(cfg: Config, s: State, a: Action)
    requires Ownership(cfg, s) && Wire(s) && Terminals(s) && Enabled(cfg, s, a) && Recorded(s)
    ensures Recorded(Apply(cfg, s, a))
  {
    hide Ownership, Wire, Terminals, Recorded, Enabled, Apply;
    HistoryExtends(cfg, s, a);
    var s' := Apply(cfg, s, a);
    if a.Retire? { RetiredRecords(cfg, s, a); }
    else if a.DropOwner? { DroppedRecords(cfg, s, a); }
    else if a.FailAll? { FailedRecords(cfg, s, a); }
    else if a.FlushDeferred? {
      FlushedRecords(cfg, s, a);
      RecordedFrame(s, s');
    } else if Sweeps(a) {
      SweptRecords(cfg, s, a);
      RecordedFrame(s, s');
    } else {
      RestRecords(cfg, s, a);
      RecordedFrame(s, s');
    }
  }

  // ----- Runs -----

  lemma {:induction false} RecordedAt(cfg: Config, trace: seq<Action>, i: nat)
    requires IsRun(cfg, trace) && i <= |trace|
    ensures Recorded(StateAt(cfg, trace, i))
  {
    hide StateAt, IsRun, Enabled, Apply, Recorded, Ownership, Terminals, Fences, Spacing, Wire, Bounds, Streams,
         Callbacks, Sends, Kept;
    if i == 0 {
      StartState(cfg, trace);
      NothingRecorded();
    } else {
      RecordedAt(cfg, trace, i - 1);
      StateInv(cfg, trace, i - 1);
      StepAt(cfg, trace, i - 1);
      RecordedKept(cfg, StateAt(cfg, trace, i - 1), trace[i - 1]);
    }
  }

  lemma NothingRecorded()
    ensures Recorded(INITIAL)
  {
  }

  /** The terminal record of a request, in every reachable state: it names the reason of the retirement, its state and
      its flags are those of that reason, and it counts the notices sent. */
  lemma RecordTellsWhy(cfg: Config, trace: seq<Action>, i: nat, slot: Slot)
    requires IsRun(cfg, trace) && i <= |trace| && slot in StateAt(cfg, trace, i).records
    ensures var s := StateAt(cfg, trace, i);
            slot.1 in s.history.retired
            && Describes(s.records[slot], s.history.retired[slot.1], s.history.cancels[slot.1])
  {
    hide StateAt, IsRun, Describes, Remembers;
    RecordedAt(cfg, trace, i);
  }

  /** A late response to a finished request is kept as a diagnostic exactly when a response had finished it. */
  lemma TombstoneTellsWhy(cfg: Config, trace: seq<Action>, i: nat, k: CorrelationKey)
    requires IsRun(cfg, trace) && i <= |trace| && k in StateAt(cfg, trace, i).tombstones
    ensures var s := StateAt(cfg, trace, i); var t := s.tombstones[k];
            t.generation in s.history.retired
            && (t.keepsDiagnostic <==>
                  s.history.retired[t.generation].reason == FinalResponse
                  || s.history.retired[t.generation].reason == PeerProtocol)
  {
    hide StateAt, IsRun, Describes;
    RecordedAt(cfg, trace, i);
  }
}
