/** The Host side of the MCP Apps bridge: request correlation with rollback, and the replay of deferred frames.
    The View lifecycle is defined outside the client crate; here it is a phase that only moves forward. Operations are
    futures: a result of `None` means that the caller dropped one while it was waiting. */
module AppsHost {
  import opened Options

  const U64_MAX: nat := 0xFFFF_FFFF_FFFF_FFFF

  datatype Phase = New | Initializing | AwaitingInitialized | Active | Closing | Closed

  function Rank(p: Phase): nat {
    match p
    case New => 0
    case Initializing => 1
    case AwaitingInitialized => 2
    case Active => 3
    case Closing => 4
    case Closed => 5
  }

  datatype Kind = Teardown | Ordinary

  datatype HostError =
    | NotActive | TooManyInFlight | BadRequestId | RequestIdExhausted | LifecycleError | TransportError
    | UnknownResponse | DuplicateLiveRequest | UnsupportedVersion | PolicyError | BridgeError

  /** How a step ends that an operation waits for: the carrier's or the Host policy's. */
  datatype Await = Succeeds | Errs | Dropped

  /** Which requests of the View need an active phase, and whether the policy may refuse them. */
  datatype ViewRequest = InitializeView(supported: bool) | Application(forwarded: bool) | Ping

  datatype ViewNotification = Initialized | RequestTeardown | OtherNotification

  type Ended<T> = Option<Result<T, HostError>>

  /** What the client can observe of a Host, all of it updated in place. */
  datatype HostState = HostState(phase: Phase, nextId: nat, pending: map<nat, Kind>, live: set<nat>)

  class Host {
    const maxInFlight: nat
    const idOk: nat -> bool
    const mayClose: Phase -> bool
    var state: HostState
    ghost var abandoned: set<nat> // the View requests whose handling was dropped

    /** Pending ids are below the counter, at most one is a teardown, and one is exactly while the View is closing.
        Between calls a View request is live exactly when its handling was dropped. */
    ghost predicate Valid()
      reads this
    {
      && maxInFlight > 0 && (forall p: Phase | mayClose(p) :: Rank(p) < Rank(Closing))
      && state.nextId <= U64_MAX && |state.pending| <= maxInFlight && state.live == abandoned
      && (forall id | id in state.pending :: id < state.nextId)
      && (forall a, b | a in state.pending && b in state.pending
                        && state.pending[a] == Teardown && state.pending[b] == Teardown :: a == b)
      && (state.phase == Closing <==> exists id | id in state.pending :: state.pending[id] == Teardown)
    }

    constructor (maxInFlight: nat, idOk: nat -> bool, mayClose: Phase -> bool)
      requires maxInFlight > 0 && forall p: Phase | mayClose(p) :: Rank(p) < Rank(Closing)
      ensures Valid() && state == HostState(New, 1, map[], {}) && abandoned == {}
      ensures this.maxInFlight == maxInFlight && this.idOk == idOk && this.mayClose == mayClose
    {
      this.maxInFlight, this.idOk, this.mayClose := maxInFlight, idOk, mayClose;
      state, abandoned := HostState(New, 1, map[], {}), {};
    }

    /** The next id may be used for one more request. */
    predicate HasId()
      reads this
    {
      |state.pending| < maxInFlight && idOk(state.nextId) && state.nextId < U64_MAX
    }

    /** `send_host_request`: a failed send leaves no trace, a dropped one leaves its request pending. */
    method SendHostRequest(send: Await) returns (r: Ended<nat>)
      requires Valid()
      modifies this
      ensures Valid() && abandoned == old(abandoned)
      ensures r.Some? && r.value.Err? ==> state == old(state)
      ensures r.None? || r.value.Ok? ==>
                old(state).phase == Active && old(HasId()) && (r.None? <==> send == Dropped) && send != Errs
                && old(state).nextId !in old(state).pending
                && state == old(state).(nextId := old(state).nextId + 1,
                                        pending := old(state).pending[old(state).nextId := Ordinary])
      ensures old(state).phase == Active && old(HasId()) ==>
                r == if send == Dropped then None
                     else if send == Errs then Some(Err(TransportError)) else Some(Ok(old(state).nextId))
    {
      if state.phase != Active { return Some(Err(NotActive)); }
      if |state.pending| >= maxInFlight { return Some(Err(TooManyInFlight)); }
      var previous := state.nextId;
      if !idOk(previous) { return Some(Err(BadRequestId)); }
      if previous >= U64_MAX { return Some(Err(RequestIdExhausted)); }
      ghost var before := state.pending;
      state := state.(nextId := previous + 1, pending := state.pending[previous := Ordinary]);
      Added(before, previous, Ordinary);
      if send == Dropped { return None; }
      if send == Errs {
        state := state.(pending := state.pending - {previous});
        state := state.(nextId := previous);
        return Some(Err(TransportError));
      }
      return Some(Ok(previous));
    }

    /** `begin_teardown`: a failed send restores phase, counter and pending requests; a dropped one leaves the View
        closing with its teardown pending. */
    method BeginTeardown(reasonOk: bool, send: Await) returns (r: Ended<()>)
      requires Valid()
      modifies this
      ensures Valid() && abandoned == old(abandoned)
      ensures r.Some? && r.value.Err? ==> state == old(state)
      ensures r.None? || r.value.Ok? ==>
                reasonOk && mayClose(old(state).phase) && old(HasId()) && (r.None? <==> send == Dropped) && send != Errs
                && old(state).nextId !in old(state).pending
                && state == old(state).(phase := Closing, nextId := old(state).nextId + 1,
                                        pending := old(state).pending[old(state).nextId := Teardown])
      ensures reasonOk && mayClose(old(state).phase) && old(HasId()) ==>
                r == if send == Dropped then None else if send == Errs then Some(Err(TransportError)) else Some(Ok(()))
    {
      if |state.pending| >= maxInFlight { return Some(Err(TooManyInFlight)); }
      if !reasonOk { return Some(Err(BridgeError)); }
      var phase, previous := state.phase, state.nextId;
      if !idOk(previous) { return Some(Err(BadRequestId)); }
      if previous >= U64_MAX { return Some(Err(RequestIdExhausted)); }
      if !mayClose(phase) { return Some(Err(LifecycleError)); }
      ghost var before := state.pending;
      state := state.(phase := Closing);
      state := state.(nextId := previous + 1, pending := state.pending[previous := Teardown]);
      Added(before, previous, Teardown);
      if send == Dropped { return None; }
      if send == Errs {
        state := state.(pending := state.pending - {previous});
        state := state.(phase := phase, nextId := previous);
        return Some(Err(TransportError));
      }
      return Some(Ok(()));
    }

    /** `handle_response`: the answer to a teardown always finds the View closing. */
    method HandleResponse(id: nat) returns (r: Result<(), HostError>)
      requires Valid()
      modifies this
      ensures Valid() && abandoned == old(abandoned)
      ensures r.Ok? <==> id in old(state).pending
      ensures r.Err? ==> r.error == UnknownResponse && state == old(state)
      ensures r.Ok? ==> state == old(state).(pending := old(state).pending - {id},
                                             phase := if old(state).pending[id] == Teardown then Closed
                                                      else old(state).phase)
    {
      if id !in state.pending { return Err(UnknownResponse); }
      var kind := state.pending[id];
      ghost var before := state.pending;
      state := state.(pending := state.pending - {id});
      Removed(before, id);
      if kind == Teardown {
        assert state.phase == Closing;
        state := state.(phase := Closed);
      }
      return Ok(());
    }

    /** `handle_request`. A request of the View is refused before it is handled exactly when the handling of too many
        requests, or of one with its id, was dropped earlier. It leaves its id live exactly when its own handling is
        dropped, and only initialization moves the phase: to the end, or half way when it is dropped there. */
    method HandleRequest(id: nat, request: ViewRequest, policy: Await, send: Await) returns (r: Ended<()>)
      requires Valid()
      modifies this
      ensures Valid() && state.nextId == old(state).nextId && state.pending == old(state).pending
      ensures r == Some(Err(TooManyInFlight)) <==> |old(abandoned)| >= maxInFlight
      ensures r == Some(Err(DuplicateLiveRequest)) <==> |old(abandoned)| < maxInFlight && id in old(abandoned)
      ensures abandoned == if r.None? then old(abandoned) + {id} else old(abandoned)
      ensures |old(abandoned)| < maxInFlight && id !in old(abandoned) ==>
                if request == InitializeView(false) then r == Some(Err(UnsupportedVersion)) && state == old(state)
                else if request.InitializeView? && old(state).phase != New
                then r == Some(Err(LifecycleError)) && state == old(state)
                else if request.Application? && old(state).phase != Active
                then r == Some(Err(NotActive)) && state == old(state)
                else
                  (r.None? <==> (!request.Ping? && policy == Dropped) || (!Refused(request, policy) && send == Dropped))
                  && (r == Some(Err(PolicyError)) <==> Refused(request, policy))
                  && (r == Some(Ok(())) <==> (request.Ping? || policy != Dropped) && !Refused(request, policy)
                                             && send == Succeeds)
                  && state.phase == if !request.InitializeView? then old(state).phase
                                    else if policy == Dropped then Initializing else AwaitingInitialized
    {
      if |state.live| >= maxInFlight { return Some(Err(TooManyInFlight)); }
      if id in state.live { return Some(Err(DuplicateLiveRequest)); }
      ghost var before := state.live;
      state := state.(live := state.live + {id});
      assert state.live - {id} == before;
      var failure: Option<HostError> := None;
      match request {
        case InitializeView(supported) =>
          if !supported {
            failure := Some(UnsupportedVersion);
          } else if state.phase != New {
            failure := Some(LifecycleError);
          } else {
            state := state.(phase := Initializing);
            if policy == Dropped { abandoned := abandoned + {id}; return None; }
            state := state.(phase := AwaitingInitialized);
          }
        case Application(forwarded) =>
          if state.phase != Active {
            failure := Some(NotActive);
          } else {
            if policy == Dropped { abandoned := abandoned + {id}; return None; }
            if forwarded && policy == Errs { failure := Some(PolicyError); }
          }
        case Ping =>
      }
      if failure.Some? {
        state := state.(live := state.live - {id});
        return Some(Err(failure.value));
      }
      if send == Dropped { abandoned := abandoned + {id}; return None; }
      state := state.(live := state.live - {id});
      return Some(if send == Succeeds then Ok(()) else Err(TransportError));
    }

    /** `handle_notification`: the View reports that it is initialized, asks to be torn down, or says something that the
        phase does not depend on. `policy` is the Host's notification hook, which runs after the View has become active
        and before a teardown is considered. */
    method HandleNotification(n: ViewNotification, policy: Await, approval: Option<bool>, send: Await)
      returns (r: Ended<()>)
      requires Valid()
      modifies this
      ensures Valid() && abandoned == old(abandoned)
      ensures n == Initialized ==>
                if old(state).phase == AwaitingInitialized
                then r == Hooked(policy) && state == old(state).(phase := Active)
                else r == Some(Err(LifecycleError)) && state == old(state)
      ensures n != Initialized && old(state).phase != Active ==> r == Some(Ok(())) && state == old(state)
      ensures n == OtherNotification && old(state).phase == Active ==> r == Hooked(policy) && state == old(state)
      ensures n == RequestTeardown && old(state).phase == Active ==>
                if policy != Succeeds then r == Hooked(policy) && state == old(state)
                else if approval != Some(true)
                then r == (if approval.None? then None else Some(Ok(()))) && state == old(state)
                else (state == old(state) <==> r.Some? && r.value.Err?)
                     && (state != old(state) ==>
                           state == old(state).(phase := Closing, nextId := old(state).nextId + 1,
                                                pending := old(state).pending[old(state).nextId := Teardown]))
                     && (mayClose(Active) && old(HasId()) && send != Errs ==> state != old(state))
    {
      match n
      case Initialized =>
        if state.phase != AwaitingInitialized { return Some(Err(LifecycleError)); }
        state := state.(phase := Active);
        return Hooked(policy);
      case RequestTeardown =>
        if state.phase != Active { return Some(Ok(())); }
        if policy != Succeeds { return Hooked(policy); }
        if approval.None? { return None; }
        r := Some(Ok(()));
        if approval.value { r := BeginTeardown(true, send); }
      case OtherNotification => return if state.phase == Active then Hooked(policy) else Some(Ok(()));
    }
  }

  /** Only a forwarded request can be refused by the policy. */
  predicate Refused(request: ViewRequest, policy: Await) {
    request.Application? && request.forwarded && policy == Errs
  }

  /** The result of the policy's own hook. */
  function Hooked(policy: Await): (r: Ended<()>)
    ensures r.None? <==> policy == Dropped
    ensures r.Some? ==> r.value == if policy == Succeeds then Ok(()) else Err(PolicyError)
  {
    match policy
    case Succeeds => Some(Ok(()))
    case Errs => Some(Err(PolicyError))
    case Dropped => None
  }

  lemma Added(pending: map<nat, Kind>, id: nat, kind: Kind)
    requires id !in pending
    ensures pending[id := kind] - {id} == pending && |pending[id := kind]| == |pending| + 1
    ensures id in pending[id := kind] && pending[id := kind][id] == kind
    ensures forall k | k in pending :: k in pending[id := kind] && pending[id := kind][k] == pending[k]
  {
    assert pending[id := kind].Keys == pending.Keys + {id};
  }

  lemma Removed(pending: map<nat, Kind>, id: nat)
    requires id in pending
    ensures |pending - {id}| == |pending| - 1
    ensures forall k | k in pending && k != id :: k in pending - {id} && (pending - {id})[k] == pending[k]
  {
    assert (pending - {id}).Keys == pending.Keys - {id};
  }

  // ----- Deferred frames -----

  /** How the bridge reads a frame that arrives while a request of the View is handled: as the cancellation of that very
      request, with what committing it gives, as a malformed or unmatched control, or as something else. */
  datatype Control = Cancels(commit: Result<(), HostError>) | BadControl | NoControl

  /** What one round of waiting brings: the end of the handling, or something from the carrier. */
  datatype Round = Finishes(completion: Await) | Arrives(how: Await, frame: string, control: Control)

  datatype Admission = Rejects | IsRequest | IsOther(result: Ended<()>)

  /** What handling a request comes to, and which frames are deferred then. `late` says that a bad control came before;
      rounds that end before the handling mean that the caller dropped it. */
  function Handled(deferred: seq<string>, limit: nat, rounds: seq<Round>, late: bool): (Ended<()>, seq<string>)
    decreases |rounds|
  {
    if rounds == [] then (None, deferred)
    else
      match rounds[0]
      case Finishes(completion) =>
        (match completion
         case Succeeds => Some(if late then Err(BridgeError) else Ok(()))
         case Errs => Some(Err(TransportError))
         case Dropped => None, deferred)
      case Arrives(how, frame, control) =>
        if how == Errs then (Some(Err(TransportError)), deferred)
        else if how == Dropped then (None, deferred)
        else
          match control
          case Cancels(commit) => (Some(commit), deferred)
          case BadControl => Handled(deferred, limit, rounds[1..], true)
          case NoControl =>
            if |deferred| >= limit then (Some(Err(TooManyInFlight)), deferred)
            else Handled(deferred + [frame], limit, rounds[1..], late)
  }

  /** A round after which the handling goes on, as long as there is room. */
  predicate Passes(round: Round) { round.Arrives? && round.how == Succeeds && !round.control.Cancels? }

  /** The frames that the rounds leave to be deferred. */
  function Frames(rounds: seq<Round>): seq<string> {
    if rounds == [] then []
    else
      var last := rounds[|rounds| - 1];
      Frames(rounds[..|rounds| - 1]) + if last.Arrives? && last.control.NoControl? then [last.frame] else []
  }

  ghost predicate SpoiledBefore(rounds: seq<Round>, n: nat)
    requires n <= |rounds|
  {
    exists i | 0 <= i < n :: rounds[i].Arrives? && rounds[i].control.BadControl?
  }

  lemma {:induction false} RoundsPass(deferred: seq<string>, limit: nat, rounds: seq<Round>, n: nat)
    requires n <= |rounds| && (forall i | 0 <= i < n :: Passes(rounds[i]))
    requires |deferred| + |Frames(rounds[..n])| <= limit
    ensures Handled(deferred, limit, rounds, false)
            == Handled(deferred + Frames(rounds[..n]), limit, rounds[n..],
                       SpoiledBefore(rounds, n))
  {
    if n == 0 {
      assert deferred + Frames(rounds[..0]) == deferred && rounds[0..] == rounds;
    } else {
      var before, round := rounds[..n - 1], rounds[n - 1];
      assert rounds[..n][..n - 1] == before && rounds[..n][n - 1] == round;
      RoundsPass(deferred, limit, rounds, n - 1);
      assert SpoiledBefore(rounds, n) <==> SpoiledBefore(rounds, n - 1) || round.control.BadControl?;
      OneRound(deferred + Frames(before), limit, rounds[n - 1..], SpoiledBefore(rounds, n - 1));
      assert rounds[n - 1..][1..] == rounds[n..];
      var more := if round.control.NoControl? then [round.frame] else [];
      assert Frames(rounds[..n]) == Frames(before) + more;
      assert deferred + Frames(rounds[..n]) == deferred + Frames(before) + more;
    }
  }

  lemma OneRound(deferred: seq<string>, limit: nat, rounds: seq<Round>, late: bool)
    requires rounds != [] && Passes(rounds[0]) && (rounds[0].control.NoControl? ==> |deferred| < limit)
    ensures Handled(deferred, limit, rounds, late)
            == if rounds[0].control.NoControl? then Handled(deferred + [rounds[0].frame], limit, rounds[1..], late)
               else Handled(deferred + [], limit, rounds[1..], true)
  {
    assert deferred + [] == deferred;
  }

  /** How the handling of a request ends: at the first round that does not let it go on, or that finds the queue full.
      Frames that are no controls of this request are deferred as they came; a bad control spoils a success. */
  lemma HandledExactly(deferred: seq<string>, limit: nat, rounds: seq<Round>, n: nat)
    requires n <= |rounds| && (forall i | 0 <= i < n :: Passes(rounds[i]))
    requires |deferred| + |Frames(rounds[..n])| <= limit
    requires n < |rounds| && Passes(rounds[n]) ==>
               rounds[n].control.NoControl? && |deferred| + |Frames(rounds[..n])| == limit
    ensures var (r, queue) := Handled(deferred, limit, rounds, false);
            var bad := SpoiledBefore(rounds, n);
            queue == deferred + Frames(rounds[..n])
            && if n == |rounds| then r.None?
               else if rounds[n].Finishes?
               then r == match rounds[n].completion
                         case Succeeds => Some(if bad then Err(BridgeError) else Ok(()))
                         case Errs => Some(Err(TransportError))
                         case Dropped => None
               else if rounds[n].how != Succeeds
               then r == if rounds[n].how == Errs then Some(Err(TransportError)) else None
               else r == Some(if rounds[n].control.Cancels? then rounds[n].control.commit else Err(TooManyInFlight))
  {
    hide Frames;
    RoundsPass(deferred, limit, rounds, n);
    if n < |rounds| { assert rounds[n..][0] == rounds[n]; }
  }

  /** `frames` are the frames of `log` with the given numbers, in the order of their arrival. */
  ghost predicate Picks(frames: seq<string>, numbers: seq<nat>, log: seq<string>) {
    && |frames| == |numbers|
    && (forall i | 0 <= i < |numbers| :: numbers[i] < |log| && frames[i] == log[numbers[i]])
    && (forall i, j | 0 <= i < j < |numbers| :: numbers[i] < numbers[j])
  }

  lemma PickLast(frames: seq<string>, numbers: seq<nat>, log: seq<string>, frame: string)
    requires Picks(frames, numbers, log)
    ensures Picks(frames, numbers, log + [frame]) && Picks(frames + [frame], numbers + [|log|], log + [frame])
  {
  }

  /** The first `n` frames each have their number in one of the four collections, and only in one. */
  ghost predicate Covered(n: nat, numbers: seq<nat>, controls: set<nat>, lost: set<nat>) {
    && (forall i: nat | i < n :: i in numbers || i in controls || i in lost)
    && (forall i | i in controls :: i < n) && (forall i | i in lost :: i < n)
    && n == |numbers| + |controls| + |lost|
  }

  /** One more frame, and where it went. */
  lemma CoverOne(n: nat, numbers: seq<nat>, controls: set<nat>, lost: set<nat>)
    requires Covered(n, numbers, controls, lost)
    ensures Covered(n + 1, numbers + [n], controls, lost)
    ensures Covered(n + 1, numbers, controls + {n}, lost)
    ensures Covered(n + 1, numbers, controls, lost + {n})
  {
    assert (numbers + [n])[|numbers|] == n;
    forall i: nat | i < n + 1 ensures i in numbers + [n] || i in controls || i in lost {
      if i in numbers { var k :| 0 <= k < |numbers| && numbers[k] == i; assert (numbers + [n])[k] == i; }
    }
  }

  /** `log` has every frame that the carrier delivered and `offered` every frame that went through admission, both
      written where that happens. `admitted` and `waiting` number the offered and the deferred frames by arrival;
      `controls` numbers the controls of a request that was being handled, `lost` the frames that met a full queue. */
  datatype Traffic = Traffic(
    log: seq<string>, offered: seq<string>, admitted: seq<nat>, waiting: seq<nat>, controls: set<nat>, lost: set<nat>)

  /** The frames offered to admission, followed by those deferred, are a subsequence of those that arrived; every other
      frame was a control or met a full queue. */
  ghost predicate Traced(deferred: seq<string>, t: Traffic) {
    && |t.offered| == |t.admitted|
    && Picks(t.offered + deferred, t.admitted + t.waiting, t.log)
    && Covered(|t.log|, t.admitted + t.waiting, t.controls, t.lost)
  }

  /** The first deferred frame is offered. */
  lemma OfferFirst(deferred: seq<string>, t: Traffic)
    requires Traced(deferred, t) && deferred != []
    ensures t.waiting != []
    ensures Traced(deferred[1..], t.(offered := t.offered + [deferred[0]], admitted := t.admitted + [t.waiting[0]],
                                     waiting := t.waiting[1..]))
  {
    hide Covered;
    assert t.offered + [deferred[0]] + deferred[1..] == t.offered + deferred;
    assert t.admitted + [t.waiting[0]] + t.waiting[1..] == t.admitted + t.waiting;
  }

  /** A frame arrives, and is offered, deferred, taken as a control, or lost. */
  lemma OneMoreFrame(deferred: seq<string>, t: Traffic, frame: string)
    requires Traced(deferred, t)
    ensures var arrived, n := t.(log := t.log + [frame]), |t.log|;
            && (deferred == [] ==>
                  Traced([], arrived.(offered := t.offered + [frame], admitted := t.admitted + [n])))
            && Traced(deferred + [frame], arrived.(waiting := t.waiting + [n]))
            && Traced(deferred, arrived.(controls := t.controls + {n}))
            && Traced(deferred, arrived.(lost := t.lost + {n}))
  {
    hide Covered, Picks;
    SameLength(t.offered + deferred, t.admitted + t.waiting, t.log);
    PickLast(t.offered + deferred, t.admitted + t.waiting, t.log, frame);
    CoverOne(|t.log|, t.admitted + t.waiting, t.controls, t.lost);
    assert t.offered + (deferred + [frame]) == t.offered + deferred + [frame];
    assert t.admitted + (t.waiting + [|t.log|]) == t.admitted + t.waiting + [|t.log|];
    if deferred == [] {
      assert t.offered + [frame] + [] == t.offered + deferred + [frame];
      assert t.admitted + [|t.log|] + t.waiting == t.admitted + t.waiting + [|t.log|];
    }
  }

  lemma SameLength(frames: seq<string>, numbers: seq<nat>, log: seq<string>)
    requires Picks(frames, numbers, log)
    ensures |frames| == |numbers|
  {
  }

  class WireHost {
    const maxInFlight: nat
    var deferred: seq<string>
    ghost var traffic: Traffic

    ghost predicate Valid()
      reads this
    {
      |deferred| <= maxInFlight && Traced(deferred, traffic)
    }

    constructor (maxInFlight: nat)
      ensures Valid() && deferred == [] && traffic == Traffic([], [], [], [], {}, {}) && this.maxInFlight == maxInFlight
    {
      this.maxInFlight, deferred, traffic := maxInFlight, [], Traffic([], [], [], [], {}, {});
    }

    /** `receive_from_view` */
    method Receive(how: Await, frame: string)
      modifies this`traffic
      ensures traffic == if how == Succeeds then old(traffic).(log := old(traffic).log + [frame]) else old(traffic)
    {
      if how == Succeeds { traffic := traffic.(log := traffic.log + [frame]); }
    }

    /** `decode_and_admit` of the frame with the given number. */
    method Admit(frame: string, ghost number: nat)
      modifies this`traffic
      ensures traffic == old(traffic).(offered := old(traffic).offered + [frame],
                                       admitted := old(traffic).admitted + [number])
    {
      traffic := traffic.(offered := traffic.offered + [frame], admitted := traffic.admitted + [number]);
    }

    /** `process_next`: the frame offered to admission is the one that was deferred first, and a new one from the
        carrier only when none is deferred. A request is handled with the frames that arrive meanwhile; what the bridge
        refuses changes nothing more. */
    method ProcessNext(how: Await, received: string, verdict: Admission, rounds: seq<Round>) returns (r: Ended<()>)
      requires Valid()
      modifies this
      ensures Valid() && old(traffic).log <= traffic.log
      ensures old(deferred) == [] && how != Succeeds ==>
                traffic == old(traffic) && deferred == []
                && r == if how == Errs then Some(Err(TransportError)) else None
      ensures old(deferred) != [] || how == Succeeds ==>
                var next, rest := if old(deferred) != [] then old(deferred)[0] else received,
                                  if old(deferred) != [] then old(deferred)[1..] else [];
                && traffic.offered == old(traffic).offered + [next]
                && (r, deferred) == (match verdict
                                     case Rejects => (Some(Err(BridgeError)), rest)
                                     case IsRequest => Handled(rest, maxInFlight, rounds, false)
                                     case IsOther(result) => (result, rest))
    {
      hide Traced, Handled;
      if deferred == [] && how != Succeeds { return if how == Errs then Some(Err(TransportError)) else None; }
      OfferNext(how, received);
      match verdict
      case Rejects => return Some(Err(BridgeError));
      case IsRequest => r := HandleViewRequest(rounds);
      case IsOther(result) => return result;
    }

    method OfferNext(how: Await, received: string)
      requires Valid() && (deferred != [] || how == Succeeds)
      modifies this
      ensures Valid()
      ensures if old(deferred) != []
              then traffic.log == old(traffic).log && traffic.offered == old(traffic).offered + [old(deferred)[0]]
                   && deferred == old(deferred)[1..]
              else traffic.log == old(traffic).log + [received] && deferred == []
                   && traffic.offered == old(traffic).offered + [received]
    {
      hide Traced;
      if deferred != [] {
        OfferFirst(deferred, traffic);
        ghost var number := traffic.waiting[0];
        var frame := deferred[0];
        deferred, traffic := deferred[1..], traffic.(waiting := traffic.waiting[1..]);
        Admit(frame, number);
      } else {
        Receive(how, received);
        OneMoreFrame(deferred, old(traffic), received);
        Admit(received, |traffic.log| - 1);
      }
    }

    /** `handle_view_request`: frames that arrive meanwhile wait their turn in the order of arrival. None is left out,
        unless it is a control of this request or finds the queue full, which ends the request with an error. */
    method HandleViewRequest(rounds: seq<Round>) returns (r: Ended<()>)
      requires Valid()
      modifies this
      ensures Valid() && traffic.offered == old(traffic).offered && traffic.admitted == old(traffic).admitted
      ensures (r, deferred) == Handled(old(deferred), maxInFlight, rounds, false)
      ensures old(traffic).log <= traffic.log && old(deferred) <= deferred && old(traffic).waiting <= traffic.waiting
      ensures traffic.lost == old(traffic).lost
              || (|deferred| == maxInFlight && traffic.lost == old(traffic).lost + {|traffic.log| - 1}
                  && r == Some(Err(TooManyInFlight)))
    {
      hide Traced;
      var late := false;
      for k := 0 to |rounds|
        invariant Valid() && traffic.lost == old(traffic).lost
        invariant traffic.offered == old(traffic).offered && traffic.admitted == old(traffic).admitted
        invariant old(traffic).log <= traffic.log && old(deferred) <= deferred
        invariant old(traffic).waiting <= traffic.waiting
        invariant Handled(old(deferred), maxInFlight, rounds, false)
                  == Handled(deferred, maxInFlight, rounds[k..], late)
      {
        assert rounds[k..][0] == rounds[k] && rounds[k..][1..] == rounds[k + 1..];
        match rounds[k]
        case Finishes(completion) =>
          match completion {
            case Succeeds => return Some(if late then Err(BridgeError) else Ok(()));
            case Errs => return Some(Err(TransportError));
            case Dropped => return None;
          }
        case Arrives(how, frame, control) =>
          if how != Succeeds { return if how == Errs then Some(Err(TransportError)) else None; }
          var kept := Defer(frame, control);
          match control {
            case Cancels(commit) => return Some(commit);
            case BadControl => late := true;
            case NoControl => if !kept { return Some(Err(TooManyInFlight)); }
          }
      }
      return None;
    }

    /** One frame from the carrier while a request is handled: a control, or one more frame that waits its turn. */
    method Defer(frame: string, control: Control) returns (kept: bool)
      requires Valid()
      modifies this
      ensures Valid() && traffic.offered == old(traffic).offered && traffic.admitted == old(traffic).admitted
      ensures traffic.log == old(traffic).log + [frame]
      ensures kept <==> control == NoControl && |old(deferred)| < maxInFlight
      ensures if kept then deferred == old(deferred) + [frame]
                           && traffic.waiting == old(traffic).waiting + [|old(traffic).log|]
              else deferred == old(deferred) && traffic.waiting == old(traffic).waiting
      ensures traffic.lost == if control == NoControl && !kept
                              then old(traffic).lost + {|old(traffic).log|} else old(traffic).lost
    {
      hide Traced;
      Receive(Succeeds, frame);
      OneMoreFrame(deferred, old(traffic), frame);
      ghost var number := |traffic.log| - 1;
      kept := control == NoControl && |deferred| < maxInFlight;
      if kept {
        deferred, traffic := deferred + [frame], traffic.(waiting := traffic.waiting + [number]);
      } else if control == NoControl {
        traffic := traffic.(lost := traffic.lost + {number});
      } else {
        traffic := traffic.(controls := traffic.controls + {number});
      }
    }
  }
}
