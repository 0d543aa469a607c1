/** What the executor sends. Every action says which frame goes out with it, if any, and a log of sends fits a run when
    it has exactly those frames in their order. The statements about the wire are about every such log. */
module ExecutorWire {
  import opened Options
  import opened Correlation
  import opened ReverseProtocol
  import opened ExecutorProtocol
  import opened ExecutorInvariant
  import opened ExecutorRuns

  /** What `Transport::send` reports. Backpressure and encoding failures leave the connection usable. */
  datatype SendResult = Sent | WouldBlock | CodecFailure | Fatal

  /** A frame names the generation or the capability that it is sent for. */
  datatype Frame =
    | RequestFrame(order: Order, generation: nat)
    | CancelFrame(id: RequestId, generation: nat)
    | ResponseFrame(id: RequestId, token: nat)
    | RejectionFrame(id: RequestId)

  datatype Dispatch = Dispatch(frame: Frame, result: SendResult)

  /** A frame that an action sends, and whether the transport took it where the action depends on that. */
  datatype Duty = Duty(frame: Frame, taken: Option<bool>)

  ghost function DutyOf(cfg: Config, s: State, a: Action): Option<Duty>
    requires Enabled(cfg, s, a)
  {
    match a
    case SendUnowned(_, order, taken, _) => Some(Duty(RequestFrame(order, s.nextGeneration + 1), Some(taken)))
    case SendOwned(_, order, _) => Some(Duty(RequestFrame(order, s.nextGeneration + 1), Some(true)))
    case Retire(key, cause, _) =>
      if Notifies(cause) then Some(Duty(CancelFrame(cause.notice.value, s.pending[key].generation), None)) else None
    case FlushDeferred => Some(Duty(CancelFrame(s.deferred[0].0, s.deferred[0].1), None))
    case Reverse(step) =>
      if step.Answer? then Some(Duty(AnswerFrame(cfg, s, step.capability), Some(true))) else None
    case Unanswered(c) => Some(Duty(AnswerFrame(cfg, s, c), Some(false)))
    case Reject(id) => Some(Duty(RejectionFrame(id), None))
    case _ => None
  }

  /** The response to a request of the peer goes out under the id that the request came with. */
  function AnswerFrame(cfg: Config, s: State, c: Capability): Frame
    requires cfg.keyOf(c.id).Some? && cfg.keyOf(c.id).value in s.reverse.active
  {
    ResponseFrame(s.reverse.active[cfg.keyOf(c.id).value].id, c.token)
  }

  predicate Meets(d: Duty, x: Dispatch) {
    x.frame == d.frame && (d.taken.Some? ==> (x.result.Sent? <==> d.taken.value))
  }

  /** The log has the frames of the run, one after the other. */
  ghost predicate Wired(cfg: Config, trace: seq<Action>, wire: seq<Dispatch>) {
    if trace == [] then wire == []
    else
      var n := |trace| - 1;
      var before := After(cfg, trace[..n]);
      before.Some? && Enabled(cfg, before.value, trace[n])
      && var duty := DutyOf(cfg, before.value, trace[n]);
         if duty.None? then Wired(cfg, trace[..n], wire)
         else wire != [] && Meets(duty.value, wire[|wire| - 1]) && Wired(cfg, trace[..n], wire[..|wire| - 1])
  }

  lemma WiredQuiet(cfg: Config, trace: seq<Action>, wire: seq<Dispatch>, s: State, a: Action)
    requires After(cfg, trace) == Some(s) && Wired(cfg, trace, wire) && Enabled(cfg, s, a) && DutyOf(cfg, s, a).None?
    ensures Wired(cfg, trace + [a], wire)
  {
    hide Enabled, DutyOf, After;
    assert (trace + [a])[..|trace|] == trace;
  }

  lemma WiredLoud(cfg: Config, trace: seq<Action>, wire: seq<Dispatch>, s: State, a: Action, x: Dispatch)
    requires After(cfg, trace) == Some(s) && Wired(cfg, trace, wire) && Enabled(cfg, s, a)
    requires DutyOf(cfg, s, a).Some? && Meets(DutyOf(cfg, s, a).value, x)
    ensures Wired(cfg, trace + [a], wire + [x])
  {
    hide Enabled, DutyOf, After, Meets;
    assert (trace + [a])[..|trace|] == trace && (wire + [x])[..|wire|] == wire;
  }

  /** Actions that send nothing. */
  predicate Quiet(a: Action) {
    !a.SendUnowned? && !a.SendOwned? && !a.FlushDeferred? && !a.Unanswered? && !a.Reject?
    && (a.Retire? ==> !Notifies(a.cause)) && (a.Reverse? ==> !a.step.Answer?)
  }

  lemma QuietHasNoDuty(cfg: Config, s: State, a: Action)
    requires Enabled(cfg, s, a) && Quiet(a)
    ensures DutyOf(cfg, s, a).None?
  {
    hide Enabled;
  }

  // ----- Counting frames -----

  function Notices(wire: seq<Dispatch>, g: nat): nat {
    if wire == [] then 0
    else
      var x := wire[|wire| - 1];
      Notices(wire[..|wire| - 1], g) + if x.frame.CancelFrame? && x.frame.generation == g then 1 else 0
  }

  function Requests(wire: seq<Dispatch>, g: nat): nat {
    if wire == [] then 0
    else
      var x := wire[|wire| - 1];
      Requests(wire[..|wire| - 1], g) + if x.frame.RequestFrame? && x.frame.generation == g then 1 else 0
  }

  /** Responses that the transport took. */
  function Responses(wire: seq<Dispatch>, token: nat): nat {
    if wire == [] then 0
    else
      var x := wire[|wire| - 1];
      Responses(wire[..|wire| - 1], token)
      + if x.frame.ResponseFrame? && x.frame.token == token && x.result.Sent? then 1 else 0
  }

  // ----- Cancellations -----

  /** The notices that one action adds for `g`. */
  ghost function NoticeOf(cfg: Config, s: State, a: Action, g: nat): nat
    requires Enabled(cfg, s, a)
  {
    var duty := DutyOf(cfg, s, a);
    if duty.Some? && duty.value.frame.CancelFrame? && duty.value.frame.generation == g then 1 else 0
  }

  lemma NoticesStep(cfg: Config, s: State, a: Action, g: nat)
    requires Enabled(cfg, s, a)
    ensures Apply(cfg, s, a).history.cancels[g] == s.history.cancels[g] + NoticeOf(cfg, s, a, g)
  {
    hide Enabled, Apply, NoticeOf;
    if a.Retire? || a.DropOwner? || a.FailAll? { LeavingNotices(cfg, s, a, g); }
    else if a.FlushDeferred? { FlushNotices(cfg, s, a, g); }
    else {
      NoNotice(cfg, s, a);
      OtherFrames(cfg, s, a, g);
    }
  }

  lemma LeavingNotices(cfg: Config, s: State, a: Action, g: nat)
    requires Enabled(cfg, s, a) && (a.Retire? || a.DropOwner? || a.FailAll?)
    ensures Apply(cfg, s, a).history.cancels[g] == s.history.cancels[g] + NoticeOf(cfg, s, a, g)
  {
    hide RecordOf, OutcomeOf, ReasonOf, TerminalExpiry, IsCancelReason, FailuresOf, ExpiriesWithin, CancelledAll, Fits;
  }

  lemma FlushNotices(cfg: Config, s: State, a: Action, g: nat)
    requires Enabled(cfg, s, a) && a.FlushDeferred?
    ensures Apply(cfg, s, a).history.cancels[g] == s.history.cancels[g] + NoticeOf(cfg, s, a, g)
  {
  }

  lemma OtherFrames(cfg: Config, s: State, a: Action, g: nat)
    requires Enabled(cfg, s, a) && !a.Retire? && !a.FlushDeferred?
    ensures NoticeOf(cfg, s, a, g) == 0
  {
    hide Enabled;
  }

  /** The log and the tally agree. */
  lemma {:induction false} NoticesCounted(cfg: Config, trace: seq<Action>, wire: seq<Dispatch>, g: nat)
    requires IsRun(cfg, trace) && Wired(cfg, trace, wire)
    ensures Notices(wire, g) == After(cfg, trace).value.history.cancels[g]
    decreases |trace|
  {
    hide Enabled, Apply, DutyOf;
    if trace != [] {
      var n := |trace| - 1;
      var s := After(cfg, trace[..n]).value;
      NoticesStep(cfg, s, trace[n], g);
      NoticesCounted(cfg, trace[..n], if DutyOf(cfg, s, trace[n]).None? then wire else wire[..|wire| - 1], g);
    }
  }

  /** Cancellation on the wire: at most one notice for a generation, and only for a request other than `initialize` that
      was cancelled, timed out, dropped or shut down, never after a final response, a malformed response or a peer
      teardown. */
  lemma CancellationNotices(cfg: Config, trace: seq<Action>, wire: seq<Dispatch>, g: nat)
    requires IsRun(cfg, trace) && Wired(cfg, trace, wire)
    ensures var h := After(cfg, trace).value.history;
            Notices(wire, g) <= 1
            && (Notices(wire, g) == 1 ==>
                  g in h.admitted && h.admitted[g].rpc != Initialize
                  && g in h.retired && IsCancelReason(h.retired[g].reason))
  {
    hide After, Wired, Notices;
    NoticesCounted(cfg, trace, wire, g);
    NoticesDue(cfg, trace, |trace|, g);
    assert trace[..|trace|] == trace;
  }

  // ----- Requests -----

  lemma RequestsStep(cfg: Config, s: State, a: Action)
    requires Enabled(cfg, s, a)
    ensures var duty := DutyOf(cfg, s, a);
            if duty.Some? && duty.value.frame.RequestFrame?
            then Apply(cfg, s, a).nextGeneration == s.nextGeneration + 1
                 && duty.value.frame.generation == s.nextGeneration + 1
            else Apply(cfg, s, a).nextGeneration == s.nextGeneration
  {
    hide Enabled, Apply;
    if a.SendOwned? || a.SendUnowned? { SendingCounts(cfg, s, a); } else { SentUntouched(cfg, s, a); }
  }

  lemma SendingCounts(cfg: Config, s: State, a: Action)
    requires Enabled(cfg, s, a) && (a.SendOwned? || a.SendUnowned?)
    ensures Apply(cfg, s, a).nextGeneration == s.nextGeneration + 1
  {
    hide CanAdmit, Lasts, OwnerFor;
  }

  /** Every generation used so far has exactly one request on the wire. */
  lemma {:induction false} RequestsCounted(cfg: Config, trace: seq<Action>, wire: seq<Dispatch>, g: nat)
    requires IsRun(cfg, trace) && Wired(cfg, trace, wire)
    ensures Requests(wire, g) == if 0 < g <= After(cfg, trace).value.nextGeneration then 1 else 0
    decreases |trace|
  {
    hide Enabled, Apply, DutyOf;
    if trace != [] {
      var n := |trace| - 1;
      var s := After(cfg, trace[..n]).value;
      RequestsStep(cfg, s, trace[n]);
      RequestsCounted(cfg, trace[..n], if DutyOf(cfg, s, trace[n]).None? then wire else wire[..|wire| - 1], g);
    }
  }

  /** Where in the run a frame was sent. */
  lemma {:induction false} FrameWasDue(cfg: Config, trace: seq<Action>, wire: seq<Dispatch>, j: nat) returns (i: nat)
    requires IsRun(cfg, trace) && Wired(cfg, trace, wire) && j < |wire|
    ensures i < |trace| && Wired(cfg, trace[..i], wire[..j])
    ensures var s := StateAt(cfg, trace, i);
            Enabled(cfg, s, trace[i])
            && DutyOf(cfg, s, trace[i]).Some? && Meets(DutyOf(cfg, s, trace[i]).value, wire[j])
    decreases |trace|
  {
    hide Enabled, Apply, DutyOf, Meets;
    var n := |trace| - 1;
    var s := After(cfg, trace[..n]).value;
    PrefixIsRun(cfg, trace, n);
    if DutyOf(cfg, s, trace[n]).Some? && j == |wire| - 1 {
      i := n;
    } else {
      var shorter := if DutyOf(cfg, s, trace[n]).None? then wire else wire[..|wire| - 1];
      i := FrameWasDue(cfg, trace[..n], shorter, j);
      assert trace[..n][..i] == trace[..i] && shorter[..j] == wire[..j];
    }
  }

  /** A request goes out only while nothing deferred is waiting, on a live connection, and under a free key; its result
      says whether the transport took it. */
  lemma RequestsAreClean(cfg: Config, trace: seq<Action>, wire: seq<Dispatch>, j: nat) returns (i: nat)
    requires IsRun(cfg, trace) && Wired(cfg, trace, wire) && j < |wire| && wire[j].frame.RequestFrame?
    ensures i < |trace| && Wired(cfg, trace[..i], wire[..j])
    ensures var s, key := StateAt(cfg, trace, i), cfg.keyOf(wire[j].frame.order.id);
            s.deferred == [] && s.terminalError.None? && !s.shutdown
            && key.Some? && key.value !in s.pending && key.value !in s.tombstones
            && wire[j].frame.generation == s.nextGeneration + 1
            && (wire[j].result.Sent? <==> trace[i].SendOwned? || (trace[i].SendUnowned? && trace[i].taken))
  {
    hide StateAt, Wired, IsRun;
    i := FrameWasDue(cfg, trace, wire, j);
    CleanSend(cfg, StateAt(cfg, trace, i), trace[i], wire[j]);
  }

  lemma CleanSend(cfg: Config, s: State, a: Action, x: Dispatch)
    requires Enabled(cfg, s, a) && DutyOf(cfg, s, a).Some? && Meets(DutyOf(cfg, s, a).value, x) && x.frame.RequestFrame?
    ensures var key := cfg.keyOf(x.frame.order.id);
            s.deferred == [] && s.terminalError.None? && !s.shutdown
            && key.Some? && key.value !in s.pending && key.value !in s.tombstones
            && x.frame.generation == s.nextGeneration + 1
            && (x.result.Sent? <==> a.SendOwned? || (a.SendUnowned? && a.taken))
  {
    hide Lasts, Fits;
  }

  /** A cancellation on the wire names the key of a request that the transport took earlier on the wire. */
  lemma NoticeFollowsRequest(cfg: Config, trace: seq<Action>, wire: seq<Dispatch>, j: nat) returns (i: nat)
    requires IsRun(cfg, trace) && Wired(cfg, trace, wire) && j < |wire| && wire[j].frame.CancelFrame?
    ensures i < j && wire[i].frame.RequestFrame? && wire[i].frame.generation == wire[j].frame.generation
    ensures wire[i].result.Sent? && cfg.keyOf(wire[i].frame.order.id) == cfg.keyOf(wire[j].frame.id)
  {
    hide StateAt, Wired, IsRun, After, Inv, Enabled, Apply, DutyOf, Meets;
    var at := FrameWasDue(cfg, trace, wire, j);
    StateInv(cfg, trace, at);
    var s := StateAt(cfg, trace, at);
    NoticeOfAdmitted(cfg, s, trace[at], wire[j]);
    PrefixIsRun(cfg, trace, at);
    StateIsAfter(cfg, trace, at);
    i := RequestOf(cfg, trace[..at], wire[..j], wire[j].frame.generation);
  }

  lemma StateIsAfter(cfg: Config, trace: seq<Action>, i: nat)
    requires IsRun(cfg, trace) && i <= |trace|
    ensures IsRun(cfg, trace[..i]) && After(cfg, trace[..i]).value == StateAt(cfg, trace, i)
  {
    hide After;
    PrefixIsRun(cfg, trace, i);
  }

  lemma NoticeOfAdmitted(cfg: Config, s: State, a: Action, x: Dispatch)
    requires Inv(cfg, s) && Enabled(cfg, s, a)
    requires DutyOf(cfg, s, a).Some? && Meets(DutyOf(cfg, s, a).value, x) && x.frame.CancelFrame?
    ensures var g := x.frame.generation;
            0 < g <= s.nextGeneration && g in s.history.sent && s.history.sent[g].taken
            && cfg.keyOf(s.history.sent[g].order.id) == cfg.keyOf(x.frame.id)
  {
    hide Inv;
    CancelledOwner(cfg, s, a, x);
    AdmittedWasTaken(cfg, s, x.frame.generation);
  }

  lemma CancelledOwner(cfg: Config, s: State, a: Action, x: Dispatch)
    requires Inv(cfg, s) && Enabled(cfg, s, a)
    requires DutyOf(cfg, s, a).Some? && Meets(DutyOf(cfg, s, a).value, x) && x.frame.CancelFrame?
    ensures var h, g := s.history, x.frame.generation;
            g in h.admitted && (cfg.keyOf(x.frame.id) == Some(h.admitted[g].key) || x.frame.id == h.admitted[g].id)
  {
    hide Sends, Terminals, Fences, Spacing, Bounds, Streams, Callbacks, Kept, Lasts, Fits, IsCancelReason, FailuresOf,
         ExpiriesWithin;
    if a.FlushDeferred? { assert MayCancel(s.history, s.deferred[0].1); }
  }

  lemma AdmittedWasTaken(cfg: Config, s: State, g: nat)
    requires Inv(cfg, s) && g in s.history.admitted
    ensures 0 < g <= s.nextGeneration && g in s.history.sent && s.history.sent[g].taken
    ensures s.history.admitted[g].id == s.history.sent[g].order.id
    ensures cfg.keyOf(s.history.sent[g].order.id) == Some(s.history.admitted[g].key)
  {
    hide Terminals, Fences, Spacing, Wire, Bounds, Streams, Callbacks, Kept, Lasts;
  }

  /** The request of a generation, as it was sent. */
  lemma {:induction false} RequestOf(cfg: Config, trace: seq<Action>, wire: seq<Dispatch>, g: nat) returns (i: nat)
    requires IsRun(cfg, trace) && Wired(cfg, trace, wire) && 0 < g <= After(cfg, trace).value.nextGeneration
    ensures i < |wire| && wire[i].frame.RequestFrame? && wire[i].frame.generation == g
    ensures var h := After(cfg, trace).value.history;
            g in h.sent && wire[i].frame.order == h.sent[g].order && (wire[i].result.Sent? <==> h.sent[g].taken)
    decreases |trace|
  {
    hide Enabled, Apply, DutyOf, Meets, Inv;
    var n := |trace| - 1;
    var s, a := After(cfg, trace[..n]).value, trace[n];
    ReachableInv(cfg, trace[..n]);
    SentStays(cfg, s, a);
    if DutyOf(cfg, s, a).Some? && (a.SendOwned? || a.SendUnowned?) && g == s.nextGeneration + 1 {
      i := |wire| - 1;
      SentAs(cfg, s, a, wire[i]);
    } else {
      RequestsStep(cfg, s, a);
      SendsHaveDuty(cfg, s, a);
      i := RequestOf(cfg, trace[..n], if DutyOf(cfg, s, a).None? then wire else wire[..|wire| - 1], g);
    }
  }

  lemma SendsHaveDuty(cfg: Config, s: State, a: Action)
    requires Enabled(cfg, s, a)
    ensures DutyOf(cfg, s, a).Some? && DutyOf(cfg, s, a).value.frame.RequestFrame? <==> a.SendOwned? || a.SendUnowned?
  {
    hide Enabled;
  }

  lemma SentStays(cfg: Config, s: State, a: Action)
    requires Inv(cfg, s) && Enabled(cfg, s, a)
    ensures forall g | g in s.history.sent ::
              g in Apply(cfg, s, a).history.sent && Apply(cfg, s, a).history.sent[g] == s.history.sent[g]
  {
    hide Inv, Enabled, Apply;
    InvOwnership(cfg, s);
    HistoryExtends(cfg, s, a);
  }

  lemma SentAs(cfg: Config, s: State, a: Action, x: Dispatch)
    requires Enabled(cfg, s, a) && (a.SendOwned? || a.SendUnowned?)
    requires DutyOf(cfg, s, a).Some? && Meets(DutyOf(cfg, s, a).value, x)
    ensures var h, g := Apply(cfg, s, a).history, s.nextGeneration + 1;
            x.frame.RequestFrame? && x.frame.generation == g && g in h.sent
            && x.frame.order == h.sent[g].order && (x.result.Sent? <==> h.sent[g].taken)
  {
    hide CanAdmit, Lasts, OwnerFor;
  }

  // ----- Responses to the peer -----

  lemma ResponsesStep(cfg: Config, s: State, a: Action, x: Dispatch, token: nat)
    requires Inv(cfg, s) && Enabled(cfg, s, a)
    requires DutyOf(cfg, s, a).Some? ==> Meets(DutyOf(cfg, s, a).value, x)
    ensures var r, r' := s.reverse, Apply(cfg, s, a).reverse;
            if DutyOf(cfg, s, a).Some? && x.frame.ResponseFrame? && x.frame.token == token && x.result.Sent?
            then token !in r.sent && token in r'.sent
            else token in r'.sent <==> token in r.sent
  {
    hide Enabled, Apply, DutyOf, Inv, Meets;
    if a.Reverse? {
      ReverseStepDoes(cfg, s, a.step);
      AnswerResponds(cfg, s, a, x);
      AnswerSends(cfg, s, a.step, token);
    } else {
      OtherActionsKeepCallbacks(cfg, s, a);
      OthersAnswerNothing(cfg, s, a, x);
    }
  }

  lemma AnswerResponds(cfg: Config, s: State, a: Action, x: Dispatch)
    requires Enabled(cfg, s, a) && a.Reverse?
    requires DutyOf(cfg, s, a).Some? ==> Meets(DutyOf(cfg, s, a).value, x)
    ensures DutyOf(cfg, s, a).Some? <==> a.step.Answer?
    ensures a.step.Answer? ==> x.frame.ResponseFrame? && x.frame.token == a.step.capability.token && x.result.Sent?
  {
    hide Enabled;
  }

  lemma AnswerSends(cfg: Config, s: State, step: ReverseAction, token: nat)
    requires Enabled(cfg, s, Reverse(step))
    ensures var r, r' := s.reverse, ReverseApply(cfg.keyOf, s.reverse, step);
            if step.Answer? && step.capability.token == token then token !in r.sent && token in r'.sent
            else token in r'.sent <==> token in r.sent
  {
  }

  lemma OthersAnswerNothing(cfg: Config, s: State, a: Action, x: Dispatch)
    requires Enabled(cfg, s, a) && !a.Reverse?
    requires DutyOf(cfg, s, a).Some? ==> Meets(DutyOf(cfg, s, a).value, x)
    ensures !(DutyOf(cfg, s, a).Some? && x.frame.ResponseFrame? && x.result.Sent?)
    ensures CancelledAll(s.reverse).sent == s.reverse.sent
  {
    hide Enabled;
  }

  lemma {:induction false} ResponsesCounted(cfg: Config, trace: seq<Action>, wire: seq<Dispatch>, token: nat)
    requires IsRun(cfg, trace) && Wired(cfg, trace, wire)
    ensures Responses(wire, token) == if token in After(cfg, trace).value.reverse.sent then 1 else 0
    decreases |trace|
  {
    hide Enabled, Apply, DutyOf, Inv, Meets;
    if trace != [] {
      var n := |trace| - 1;
      var s, a := After(cfg, trace[..n]).value, trace[n];
      ReachableInv(cfg, trace[..n]);
      if DutyOf(cfg, s, a).None? {
        ResponsesStep(cfg, s, a, Dispatch(RejectionFrame(NumberId(0)), Fatal), token);
        ResponsesCounted(cfg, trace[..n], wire, token);
      } else {
        ResponsesStep(cfg, s, a, wire[|wire| - 1], token);
        ResponsesCounted(cfg, trace[..n], wire[..|wire| - 1], token);
      }
    }
  }

  /** Responses on the wire: at most one that the transport takes for each request of the peer, and none for one that
      was cancelled. */
  lemma ReverseResponses(cfg: Config, trace: seq<Action>, wire: seq<Dispatch>, token: nat)
    requires IsRun(cfg, trace) && Wired(cfg, trace, wire)
    ensures var r := After(cfg, trace).value.reverse;
            Responses(wire, token) <= 1
            && (Responses(wire, token) == 1 ==> token in r.received && token !in r.cancelled)
  {
    hide After, Wired, Responses;
    ResponsesCounted(cfg, trace, wire, token);
    AnsweredAreOpen(cfg, trace);
  }

  /** A response, taken or not, goes out under the very id that came with the request of its capability. */
  lemma ResponsesNameTheirRequest(cfg: Config, trace: seq<Action>, wire: seq<Dispatch>, j: nat)
    requires IsRun(cfg, trace) && Wired(cfg, trace, wire) && j < |wire| && wire[j].frame.ResponseFrame?
    ensures var r := After(cfg, trace).value.reverse;
            wire[j].frame.token in r.received && r.received[wire[j].frame.token] == wire[j].frame.id
  {
    hide StateAt, Wired, IsRun, After, Inv, Enabled, Apply, DutyOf, Meets;
    var i := FrameWasDue(cfg, trace, wire, j);
    StateInv(cfg, trace, i);
    var s := StateAt(cfg, trace, i);
    InvCallbacks(cfg, s);
    ResponseNames(cfg, s, trace[i], wire[j]);
    RunLater(cfg, trace, i, |trace|);
    StateIsAfter(cfg, trace, |trace|);
    assert trace[..|trace|] == trace;
  }

  lemma ResponseNames(cfg: Config, s: State, a: Action, x: Dispatch)
    requires ReverseInv(cfg.keyOf, s.reverse) && Enabled(cfg, s, a)
    requires DutyOf(cfg, s, a).Some? && Meets(DutyOf(cfg, s, a).value, x) && x.frame.ResponseFrame?
    ensures x.frame.token in s.reverse.received && s.reverse.received[x.frame.token] == x.frame.id
  {
    hide CanAdmit, Lasts, FailuresOf;
  }

  // ----- After a failure -----

  lemma FailedIsSilent(cfg: Config, s: State, a: Action)
    requires Inv(cfg, s) && s.terminalError.Some? && Enabled(cfg, s, a)
    ensures DutyOf(cfg, s, a).None?
  {
    hide Sends, Ownership, Terminals, Fences, Spacing, Wire, Streams, Kept, ReverseInv, ReverseEnabled, AnswerFrame,
         Notifies;
  }

  /** Once the connection has failed, nothing more goes out. */
  lemma {:induction false} SilentOnceFailed(cfg: Config, trace: seq<Action>, i: nat, wire: seq<Dispatch>)
    requires IsRun(cfg, trace) && i <= |trace| && StateAt(cfg, trace, i).terminalError.Some?
    requires Wired(cfg, trace, wire)
    ensures Wired(cfg, trace[..i], wire)
    decreases |trace|
  {
    hide Enabled, Apply, DutyOf, Inv, StateAt;
    if i == |trace| {
      assert trace[..i] == trace;
    } else {
      var n := |trace| - 1;
      RunLater(cfg, trace, i, n);
      StateInv(cfg, trace, n);
      StepAt(cfg, trace, n);
      StateIsAfter(cfg, trace, n);
      StateIsAfter(cfg, trace, i);
      StateIsAfter(cfg, trace[..n], i);
      FailedIsSilent(cfg, StateAt(cfg, trace, n), trace[n]);
      assert trace[..n][..i] == trace[..i];
      SilentOnceFailed(cfg, trace[..n], i, wire);
    }
  }
}
