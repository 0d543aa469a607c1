/** The correlation protocol behind the request executor, as a state machine.
    Every operation of the executor is a sequence of these actions under one lock. The environment
    chooses the clock readings, the results of sends and everything the peer writes. */
module ExecutorProtocol {
  import opened Options
  import opened Correlation
  import opened ReverseProtocol

  // ----- Names -----

  /** One execution: the exact id it was sent with, and its generation. */
  type Slot = (RequestId, nat)

  datatype Method = Initialize | SubscriptionsListen | ToolsCall | OtherMethod(name: string)

  type Marker = string
  type Payload = string
  type Error = string

  /** What does not change while a connection lives. `keyOf` and `encodable` stand for the codec. */
  datatype Config = Config(
    keyOf: RequestId -> Option<CorrelationKey>,
    encodable: RequestId -> bool,
    retention: nat,
    maxInFlight: nat,
    maxCorrelations: nat,
    lastInstant: nat
  )

  /** `Instant::checked_add` */
  predicate Fits(cfg: Config, at: nat, delay: nat) { at + delay <= cfg.lastInstant }

  /** `DEFAULT_TOMBSTONE_RETENTION`, ten minutes in nanoseconds. */
  const TERMINAL_RETENTION: nat := 600_000_000_000
  const MAX_GENERATION: nat := 0xFFFF_FFFF_FFFF_FFFF
  const MAX_PEER_ACTIVITY: nat := 1024

  // ----- State -----

  datatype Owner = Owner(
    id: RequestId, generation: nat, rpc: Method, marker: Option<Marker>,
    idle: nat, absolute: nat, idleTimeout: nat, resets: bool,
    lastProgress: Option<real>, dropped: bool)

  datatype Tombstone = Tombstone(generation: nat, expiresAt: nat, keepsDiagnostic: bool)

  datatype Reason =
    | FinalResponse | CallerCancelled | CallerDropped | PeerSubscriptionTeardown
    | IdleTimeout | AbsoluteTimeout | ConnectionLost | PeerProtocol | ShutdownReason

  datatype TerminalState = Responded | Failed | Cancelled

  datatype Outcome = Response(payload: Payload) | Failure(error: Error)

  datatype TerminalRecord = TerminalRecord(
    state: TerminalState, reason: Reason, finalDelivered: bool, cancellationCommitted: bool,
    cancellationAttempts: nat, localEvent: bool, waiterRelease: bool, tombstone: bool)

  /** A request with its timeout policy. */
  datatype Order = Order(
    id: RequestId, rpc: Method, marker: Option<Marker>, idle: nat, absolute: nat, resets: bool)

  /** What happened so far, kept only to state properties of whole runs. A sending says whether the transport took the
      request and which reading of the clock its deadlines count from; a retirement keeps the outcome it left; `gone`
      are the generations whose handle was dropped. */
  datatype Sending = Sending(key: CorrelationKey, order: Order, taken: bool, at: nat)
  datatype Admission = Admission(key: CorrelationKey, id: RequestId, rpc: Method, absolute: nat, at: nat)
  datatype Retirement = Retirement(reason: Reason, at: nat, fenced: bool, outcome: Option<Outcome>)
  datatype History = History(
    sent: map<nat, Sending>,
    admitted: map<nat, Admission>,
    retired: map<nat, Retirement>,
    cancels: multiset<nat>,
    handed: multiset<nat>,
    gone: set<nat>)

  datatype State = State(
    pending: map<CorrelationKey, Owner>,
    completed: map<Slot, Outcome>,
    records: map<Slot, TerminalRecord>,
    expirations: map<Slot, nat>,
    tombstones: map<CorrelationKey, Tombstone>,
    streams: map<Slot, seq<real>>,
    deferred: seq<Slot>,
    nextGeneration: nat,
    clock: nat,
    terminalError: Option<Error>,
    shutdown: bool,
    reverse: ReverseState,
    history: History)

  function SlotOf(o: Owner): Slot { (o.id, o.generation) }

  const INITIAL: State :=
    State(map[], map[], map[], map[], map[], map[], [], 0, 0, None, false, NO_REVERSE,
          History(map[], map[], map[], multiset{}, multiset{}, {}))

  // ----- Actions -----

  /** Why an owner leaves `pending` through the ordinary terminal transition. `notice` is the id that the notice to the
      peer names, when there is one. */
  datatype Cause =
    | Answered(payload: Payload)
    | Malformed(error: Error)
    | Abandoned(reason: Reason, notice: Option<RequestId>, error: Error)

  function ReasonOf(c: Cause): Reason {
    match c
    case Answered(_) => FinalResponse
    case Malformed(_) => PeerProtocol
    case Abandoned(reason, _, _) => reason
  }

  function OutcomeOf(c: Cause): Outcome {
    match c
    case Answered(payload) => Response(payload)
    case Malformed(error) => Failure(error)
    case Abandoned(_, _, error) => Failure(error)
  }

  function RecordOf(c: Cause): TerminalRecord {
    match c
    case Answered(_) => TerminalRecord(Responded, FinalResponse, true, false, 0, false, true, true)
    case Malformed(_) => TerminalRecord(Failed, PeerProtocol, false, false, 0, false, true, true)
    case Abandoned(reason, notice, _) =>
      TerminalRecord(Cancelled, reason, false, true, if notice.Some? then 1 else 0, true, true, true)
  }

  /** The peer is told. */
  predicate Notifies(c: Cause) { c.Abandoned? && c.notice.Some? }

  function FailRecord(reason: Reason): TerminalRecord {
    TerminalRecord(Failed, reason, false, false, 0, false, true, false)
  }

  predicate IsCancelReason(r: Reason) {
    r == CallerCancelled || r == CallerDropped || r == IdleTimeout || r == AbsoluteTimeout || r == ShutdownReason
  }

  /** Why a connection fails. */
  predicate IsFailureReason(r: Reason) { r == ConnectionLost || r == PeerProtocol }

  /** What a failed connection leaves for each owner: outcome, record and expiry, and its retirement. */
  datatype Failures = Failures(
    outcomes: map<Slot, Outcome>, records: map<Slot, TerminalRecord>, expiries: map<Slot, nat>,
    retired: map<nat, Retirement>)

  predicate FailuresOf(owners: map<CorrelationKey, Owner>, clock: nat, error: Error, reason: Reason, f: Failures) {
    && f.outcomes.Keys == f.records.Keys == f.expiries.Keys == PendingSlots(owners)
    && f.retired.Keys == PendingGenerations(owners)
    && (forall x | x in f.outcomes :: f.outcomes[x] == Failure(error))
    && (forall x | x in f.records :: f.records[x] == FailRecord(reason))
    && (forall g | g in f.retired :: f.retired[g] == Retirement(reason, clock, true, Some(Failure(error))))
  }

  /** Each outcome lasts from its own reading of the clock. */
  ghost predicate ExpiriesWithin(cfg: Config, from: nat, to: nat, expiries: map<Slot, nat>) {
    forall x | x in expiries :: ExpiryWithin(cfg, from, to, expiries[x])
  }

  ghost predicate ExpiryWithin(cfg: Config, from: nat, to: nat, expiry: nat) {
    exists at: nat | from <= at <= to :: expiry == TerminalExpiry(cfg, at)
  }

  datatype Action =
    | Tick(now: nat)                                             // one reading of the monotone clock
    | PruneTombstones
    | PruneTerminals
    | SendUnowned(key: CorrelationKey, order: Order, taken: bool, at: nat) // a generation is used up, nobody owns it
    | SendOwned(key: CorrelationKey, order: Order, at: nat)      // the transport took the request, it gets its owner
    | Retire(key: CorrelationKey, cause: Cause, recordedAt: nat) // owner to tombstone and terminal outcome
    | Lose(key: CorrelationKey, reason: Reason)                  // owner removed, tombstone expiry overflowed
    | DropOwner(key: CorrelationKey)                             // the handle of a live owner is dropped
    | MarkDropped(key: CorrelationKey)                           // ... while the lock was taken
    | FlushDeferred                                              // one deferred cancellation is sent
    | Forget(slot: Slot)                                         // the outcome of a dropped owner
    | Release(slot: Slot, withStream: bool)                      // the handle of no live owner is dropped
    | HandOut(slot: Slot, outcome: Outcome, stream: seq<real>)   // the waiter takes its outcome and its stream
    | TakeStream(slot: Slot)
    | FailAll(error: Error, reason: Reason, failures: Failures, recordedAt: nat)
    | Progress(key: CorrelationKey, value: real, kept: bool)     // a matching progress notification
    | Reverse(step: ReverseAction)                               // about a request of the peer
    | Unanswered(capability: Capability)                         // an answer that the transport did not take
    | Reject(id: RequestId)                                      // a request of the peer gets an error response
    | BeginShutdown
    | EndShutdown(error: Error)

  /** `execute` admits a key. */
  predicate CanAdmit(cfg: Config, s: State, key: CorrelationKey) {
    && !s.shutdown
    && s.terminalError.None?
    && key !in s.pending
    && key !in s.tombstones
    && |s.pending| < cfg.maxInFlight
    && |s.pending| + |s.tombstones| + |s.completed| < cfg.maxCorrelations
  }

  function PendingSlots(pending: map<CorrelationKey, Owner>): set<Slot> {
    set k | k in pending :: SlotOf(pending[k])
  }

  function PendingGenerations(pending: map<CorrelationKey, Owner>): set<nat> {
    set k | k in pending :: pending[k].generation
  }

  predicate MayRetire(cfg: Config, s: State, key: CorrelationKey, cause: Cause) {
    && key in s.pending
    && Fits(cfg, s.clock, cfg.retention)
    && (cause.Abandoned? ==>
          (IsCancelReason(cause.reason) || cause.reason == PeerSubscriptionTeardown)
          && (cause.notice.Some? <==> IsCancelReason(cause.reason) && s.pending[key].rpc != Initialize)
          && (cause.notice.Some? ==> cfg.keyOf(cause.notice.value) == Some(key)))
  }

  predicate MayProgress(cfg: Config, s: State, key: CorrelationKey, value: real, kept: bool) {
    && key in s.pending
    && UniqueMarker(s.pending, key)
    && (s.pending[key].lastProgress.Some? ==> s.pending[key].lastProgress.value < value)
    && (kept ==> |StreamOf(s.streams, SlotOf(s.pending[key]))| < MAX_PEER_ACTIVITY)
    && (kept && s.pending[key].resets ==> Fits(cfg, s.clock, s.pending[key].idleTimeout))
  }

  /** Both deadlines of the policy fit the clock. */
  predicate Lasts(cfg: Config, order: Order, at: nat) { Fits(cfg, at, order.idle) && Fits(cfg, at, order.absolute) }

  predicate MaySend(cfg: Config, s: State, key: CorrelationKey, order: Order, at: nat) {
    && CanAdmit(cfg, s, key)
    && s.deferred == []
    && s.nextGeneration < MAX_GENERATION
    && cfg.keyOf(order.id) == Some(key)
    && s.clock <= at
  }

  predicate MayReverse(cfg: Config, s: State, step: ReverseAction) {
    && ReverseEnabled(cfg.keyOf, s.reverse, step)
    && (step.Receive? ==> s.terminalError.None?)
    && (step.Answer? ==> s.terminalError.None? && !s.shutdown)
  }

  ghost predicate Enabled(cfg: Config, s: State, a: Action) {
    match a
    case Tick(now) => s.clock <= now
    case PruneTombstones => true
    case PruneTerminals => true
    case SendUnowned(key, order, taken, at) => MaySend(cfg, s, key, order, at) && !(taken && Lasts(cfg, order, at))
    case SendOwned(key, order, at) => MaySend(cfg, s, key, order, at) && Lasts(cfg, order, at)
    case Retire(key, cause, recordedAt) => MayRetire(cfg, s, key, cause) && s.clock <= recordedAt
    case Lose(key, reason) => key in s.pending && !Fits(cfg, s.clock, cfg.retention)
    case DropOwner(key) => key in s.pending
    case MarkDropped(key) => key in s.pending
    case FlushDeferred => s.deferred != []
    case Forget(slot) => slot.1 in s.history.gone
    case Release(slot, withStream) => withStream ==> slot.1 !in PendingGenerations(s.pending)
    case HandOut(slot, outcome, stream) => MayHandOut(s, slot, outcome, stream)
    case TakeStream(_) => true
    case FailAll(error, reason, failures, recordedAt) =>
      s.terminalError.None? && FailuresOf(s.pending, s.clock, error, reason, failures) && s.clock <= recordedAt
      && ExpiriesWithin(cfg, s.clock, recordedAt, failures.expiries) && IsFailureReason(reason)
    case Progress(key, value, kept) => MayProgress(cfg, s, key, value, kept)
    case Reverse(step) => MayReverse(cfg, s, step)
    case Unanswered(c) => MayReverse(cfg, s, Answer(c))
    case Reject(_) => s.terminalError.None?
    case BeginShutdown => true
    case EndShutdown(_) => s.shutdown && s.pending == map[] && s.deferred == [] && s.reverse.active == map[]
  }

  predicate MayHandOut(s: State, slot: Slot, outcome: Outcome, stream: seq<real>) {
    slot in s.completed && s.completed[slot] == outcome && StreamOf(s.streams, slot) == stream
  }

  /** The progress marker of `key` is set and no other owner advertised it. */
  predicate UniqueMarker(pending: map<CorrelationKey, Owner>, key: CorrelationKey)
    requires key in pending
  {
    pending[key].marker.Some? && forall k | k in pending && pending[k].marker == pending[key].marker :: k == key
  }

  function StreamOf(streams: map<Slot, seq<real>>, slot: Slot): seq<real> {
    if slot in streams then streams[slot] else []
  }

  // ----- What each action does -----

  function ApplyPruneTombstones(s: State): State {
    s.(tombstones := s.tombstones - set k | k in s.tombstones && s.tombstones[k].expiresAt <= s.clock)
  }

  function Expired(s: State): set<Slot> { set x | x in s.expirations && s.expirations[x] <= s.clock }

  function ApplyPruneTerminals(s: State): State {
    var gone := Expired(s);
    s.(completed := s.completed - gone, records := s.records - gone,
       expirations := s.expirations - gone, streams := s.streams - gone)
  }

  function OwnerFor(order: Order, generation: nat, at: nat): Owner {
    Owner(order.id, generation, order.rpc, order.marker, at + order.idle, at + order.absolute, order.idle, order.resets,
          None, false)
  }

  function ApplySend(s: State, key: CorrelationKey, order: Order, taken: bool, at: nat): State {
    var g := s.nextGeneration + 1;
    s.(nextGeneration := g, clock := at,
       history := s.history.(sent := s.history.sent[g := Sending(key, order, taken, at)]))
  }

  function ApplyOwn(s: State, key: CorrelationKey, order: Order, at: nat): State {
    var g := s.nextGeneration + 1;
    s.(pending := s.pending[key := OwnerFor(order, g, at)], nextGeneration := g, clock := at,
       history := s.history.(
         sent := s.history.sent[g := Sending(key, order, true, at)],
         admitted := s.history.admitted[g := Admission(key, order.id, order.rpc, at + order.absolute, at)]))
  }

  /** When a terminal outcome recorded at `at` is dropped. */
  function TerminalExpiry(cfg: Config, at: nat): nat {
    if Fits(cfg, at, TERMINAL_RETENTION) then at + TERMINAL_RETENTION else at
  }

  function ApplyRetire(cfg: Config, s: State, key: CorrelationKey, cause: Cause, recordedAt: nat): State
    requires key in s.pending
  {
    var o := s.pending[key];
    var slot := SlotOf(o);
    var g := o.generation;
    s.(pending := s.pending - {key},
       tombstones := s.tombstones[key := Tombstone(g, s.clock + cfg.retention, !cause.Abandoned?)],
       completed := s.completed[slot := OutcomeOf(cause)],
       records := s.records[slot := RecordOf(cause)],
       expirations := s.expirations[slot := TerminalExpiry(cfg, recordedAt)],
       streams := if cause.Answered? then s.streams else s.streams - {slot},
       clock := recordedAt,
       history := s.history.(
         retired := s.history.retired[g := Retirement(ReasonOf(cause), s.clock, true, Some(OutcomeOf(cause)))],
         cancels := if Notifies(cause) then s.history.cancels + multiset{g} else s.history.cancels))
  }

  function ApplyLose(s: State, key: CorrelationKey, reason: Reason): State
    requires key in s.pending
  {
    var g := s.pending[key].generation;
    s.(pending := s.pending - {key},
       history := s.history.(retired := s.history.retired[g := Retirement(reason, s.clock, false, None)]))
  }

  function ApplyDrop(cfg: Config, s: State, key: CorrelationKey): State
    requires key in s.pending
  {
    var o := s.pending[key];
    var slot := SlotOf(o);
    var g := o.generation;
    var fenced := Fits(cfg, s.clock, cfg.retention);
    s.(pending := s.pending - {key},
       tombstones := s.tombstones[key := Tombstone(g, if fenced then s.clock + cfg.retention else s.clock, false)],
       completed := s.completed - {slot}, records := s.records - {slot}, expirations := s.expirations - {slot},
       streams := s.streams - {slot},
       deferred := if o.rpc != Initialize && cfg.encodable(o.id) then s.deferred + [slot] else s.deferred,
       history := s.history.(
         retired := s.history.retired[g := Retirement(CallerDropped, s.clock, fenced, None)],
         gone := s.history.gone + {g}))
  }

  function ApplyFlush(s: State): State
    requires s.deferred != []
  {
    var slot := s.deferred[0];
    var attempts := if slot in s.records then s.records[slot].cancellationAttempts + 1 else 0;
    s.(deferred := s.deferred[1..],
       records := if slot in s.records then s.records[slot := s.records[slot].(cancellationAttempts := attempts)]
                  else s.records,
       history := s.history.(cancels := s.history.cancels + multiset{slot.1}))
  }

  function ApplyForget(s: State, slot: Slot, withStream: bool): State {
    s.(completed := s.completed - {slot}, records := s.records - {slot}, expirations := s.expirations - {slot},
       streams := if withStream then s.streams - {slot} else s.streams)
  }

  /** The handle of `slot` is gone, and with it what was kept for it. */
  function ApplyRelease(s: State, slot: Slot, withStream: bool): State {
    ApplyForget(s, slot, withStream).(history := s.history.(gone := s.history.gone + {slot.1}))
  }

  function ApplyMark(s: State, key: CorrelationKey): State
    requires key in s.pending
  {
    s.(pending := s.pending[key := s.pending[key].(dropped := true)],
       history := s.history.(gone := s.history.gone + {s.pending[key].generation}))
  }

  function ApplyFailAll(s: State, error: Error, f: Failures, recordedAt: nat): State {
    s.(terminalError := Some(error),
       tombstones := map[], deferred := [], pending := map[],
       completed := s.completed + f.outcomes,
       records := s.records + f.records,
       expirations := s.expirations + f.expiries,
       streams := s.streams - f.outcomes.Keys,
       clock := recordedAt,
       reverse := CancelledAll(s.reverse),
       history := s.history.(retired := s.history.retired + f.retired))
  }

  /** The idle deadline after matching progress: it may move, but never past the absolute one. */
  function IdleAfterProgress(cfg: Config, clock: nat, o: Owner): nat {
    if !o.resets || !Fits(cfg, clock, o.idleTimeout) then o.idle
    else if clock + o.idleTimeout < o.absolute then clock + o.idleTimeout else o.absolute
  }

  function ApplyProgress(cfg: Config, s: State, key: CorrelationKey, value: real, kept: bool): State
    requires key in s.pending
  {
    var o := s.pending[key];
    s.(pending := s.pending[key := o.(lastProgress := Some(value), idle := IdleAfterProgress(cfg, s.clock, o))],
       streams := if kept then s.streams[SlotOf(o) := StreamOf(s.streams, SlotOf(o)) + [value]] else s.streams)
  }

  ghost function Apply(cfg: Config, s: State, a: Action): State
    requires Enabled(cfg, s, a)
  {
    match a
    case Tick(now) => s.(clock := now)
    case PruneTombstones => ApplyPruneTombstones(s)
    case PruneTerminals => ApplyPruneTerminals(s)
    case SendUnowned(key, order, taken, at) => ApplySend(s, key, order, taken, at)
    case SendOwned(key, order, at) => ApplyOwn(s, key, order, at)
    case Retire(key, cause, recordedAt) => ApplyRetire(cfg, s, key, cause, recordedAt)
    case Lose(key, reason) => ApplyLose(s, key, reason)
    case DropOwner(key) => ApplyDrop(cfg, s, key)
    case MarkDropped(key) => ApplyMark(s, key)
    case FlushDeferred => ApplyFlush(s)
    case Forget(slot) => ApplyForget(s, slot, false)
    case Release(slot, withStream) => ApplyRelease(s, slot, withStream)
    case HandOut(slot, _, _) =>
      ApplyForget(s, slot, true).(history := s.history.(handed := s.history.handed + multiset{slot.1}))
    case TakeStream(slot) => s.(streams := s.streams - {slot})
    case FailAll(error, _, failures, recordedAt) => ApplyFailAll(s, error, failures, recordedAt)
    case Progress(key, value, kept) => ApplyProgress(cfg, s, key, value, kept)
    case Reverse(step) => s.(reverse := ReverseApply(cfg.keyOf, s.reverse, step))
    case Unanswered(_) => s
    case Reject(_) => s
    case BeginShutdown => s.(shutdown := true)
    case EndShutdown(error) => if s.terminalError.None? then s.(terminalError := Some(error)) else s
  }

  // One lemma for each action that the executor performs: when it is enabled, and what it does.

  lemma TickStep(cfg: Config, s: State, now: nat)
    requires s.clock <= now
    ensures Enabled(cfg, s, Tick(now)) && Apply(cfg, s, Tick(now)) == s.(clock := now)
  {
  }

  lemma SendStep(cfg: Config, s: State, key: CorrelationKey, order: Order, taken: bool, at: nat)
    requires MaySend(cfg, s, key, order, at) && !(taken && Lasts(cfg, order, at))
    ensures var a := SendUnowned(key, order, taken, at);
            Enabled(cfg, s, a) && Apply(cfg, s, a) == ApplySend(s, key, order, taken, at)
  {
    hide MaySend, ApplySend;
  }

  lemma OwnStep(cfg: Config, s: State, key: CorrelationKey, order: Order, at: nat)
    requires MaySend(cfg, s, key, order, at) && Lasts(cfg, order, at)
    ensures var a := SendOwned(key, order, at);
            Enabled(cfg, s, a) && Apply(cfg, s, a) == ApplyOwn(s, key, order, at)
  {
    hide MaySend, ApplyOwn;
  }

  lemma RetireStep(cfg: Config, s: State, key: CorrelationKey, cause: Cause, at: nat)
    requires MayRetire(cfg, s, key, cause) && s.clock <= at
    ensures Enabled(cfg, s, Retire(key, cause, at))
    ensures Apply(cfg, s, Retire(key, cause, at)) == ApplyRetire(cfg, s, key, cause, at)
  {
    hide ApplyRetire;
  }

  lemma LoseStep(cfg: Config, s: State, key: CorrelationKey, reason: Reason)
    requires key in s.pending && !Fits(cfg, s.clock, cfg.retention)
    ensures Enabled(cfg, s, Lose(key, reason)) && Apply(cfg, s, Lose(key, reason)) == ApplyLose(s, key, reason)
  {
    hide ApplyLose;
  }

  lemma DropStep(cfg: Config, s: State, key: CorrelationKey)
    requires key in s.pending
    ensures Enabled(cfg, s, DropOwner(key)) && Apply(cfg, s, DropOwner(key)) == ApplyDrop(cfg, s, key)
  {
    hide ApplyDrop;
  }

  lemma FlushStep(cfg: Config, s: State)
    requires s.deferred != []
    ensures Enabled(cfg, s, FlushDeferred) && Apply(cfg, s, FlushDeferred) == ApplyFlush(s)
  {
    hide ApplyFlush;
  }

  lemma FailAllStep(cfg: Config, s: State, error: Error, reason: Reason, f: Failures, at: nat)
    requires s.terminalError.None? && FailuresOf(s.pending, s.clock, error, reason, f) && s.clock <= at
    requires ExpiriesWithin(cfg, s.clock, at, f.expiries) && IsFailureReason(reason)
    ensures var a := FailAll(error, reason, f, at);
            Enabled(cfg, s, a) && Apply(cfg, s, a) == ApplyFailAll(s, error, f, at)
  {
    hide FailuresOf, ApplyFailAll, ExpiriesWithin;
  }

  lemma ForgetStep(cfg: Config, s: State, slot: Slot)
    requires slot.1 in s.history.gone
    ensures Enabled(cfg, s, Forget(slot)) && Apply(cfg, s, Forget(slot)) == ApplyForget(s, slot, false)
  {
    hide ApplyForget;
  }

  lemma ReleaseStep(cfg: Config, s: State, slot: Slot, withStream: bool)
    requires withStream ==> slot.1 !in PendingGenerations(s.pending)
    ensures Enabled(cfg, s, Release(slot, withStream))
    ensures Apply(cfg, s, Release(slot, withStream)) == ApplyRelease(s, slot, withStream)
  {
    hide ApplyRelease;
  }

  lemma SilentStep(cfg: Config, s: State, a: Action)
    requires if a.Unanswered? then MayReverse(cfg, s, Answer(a.capability)) else a.Reject? && s.terminalError.None?
    ensures Enabled(cfg, s, a) && Apply(cfg, s, a) == s
  {
    hide MayReverse;
  }

  lemma ReverseStep(cfg: Config, s: State, step: ReverseAction)
    requires MayReverse(cfg, s, step)
    ensures Enabled(cfg, s, Reverse(step))
    ensures Apply(cfg, s, Reverse(step)) == s.(reverse := ReverseApply(cfg.keyOf, s.reverse, step))
  {
    hide ReverseApply;
  }

  lemma HandOutStep(cfg: Config, s: State, slot: Slot, outcome: Outcome, stream: seq<real>)
    requires MayHandOut(s, slot, outcome, stream)
    ensures var a := HandOut(slot, outcome, stream);
            Enabled(cfg, s, a)
            && Apply(cfg, s, a)
               == ApplyForget(s, slot, true).(history := s.history.(handed := s.history.handed + multiset{slot.1}))
  {
    hide ApplyForget;
  }

  lemma MarkStep(cfg: Config, s: State, key: CorrelationKey)
    requires key in s.pending
    ensures Enabled(cfg, s, MarkDropped(key))
    ensures Apply(cfg, s, MarkDropped(key)) == ApplyMark(s, key)
  {
    hide ApplyMark;
  }

  lemma TakeStreamStep(cfg: Config, s: State, slot: Slot)
    ensures Enabled(cfg, s, TakeStream(slot))
    ensures Apply(cfg, s, TakeStream(slot)) == s.(streams := s.streams - {slot})
  {
  }

  lemma ShutdownStep(cfg: Config, s: State)
    ensures Enabled(cfg, s, BeginShutdown) && Apply(cfg, s, BeginShutdown) == s.(shutdown := true)
  {
  }

  lemma EndShutdownStep(cfg: Config, s: State, error: Error)
    requires s.shutdown && s.pending == map[] && s.deferred == [] && s.reverse.active == map[]
    ensures Enabled(cfg, s, EndShutdown(error))
    ensures Apply(cfg, s, EndShutdown(error))
            == if s.terminalError.None? then s.(terminalError := Some(error)) else s
  {
  }

  lemma ProgressStep(cfg: Config, s: State, key: CorrelationKey, value: real, kept: bool)
    requires MayProgress(cfg, s, key, value, kept)
    ensures Enabled(cfg, s, Progress(key, value, kept))
    ensures Apply(cfg, s, Progress(key, value, kept)) == ApplyProgress(cfg, s, key, value, kept)
  {
    hide ApplyProgress;
  }

  // ----- Runs -----

  /** State at the end of a run, or None when some action was not enabled. */
  ghost function After(cfg: Config, trace: seq<Action>): Option<State> {
    if trace == [] then Some(INITIAL)
    else
      var n := |trace| - 1;
      var before := After(cfg, trace[..n]);
      if before.Some? && Enabled(cfg, before.value, trace[n]) then Some(Apply(cfg, before.value, trace[n])) else None
  }

  lemma AfterStep(cfg: Config, trace: seq<Action>, a: Action)
    requires After(cfg, trace).Some? && Enabled(cfg, After(cfg, trace).value, a)
    ensures After(cfg, trace + [a]) == Some(Apply(cfg, After(cfg, trace).value, a))
  {
    hide Enabled, Apply;
    assert (trace + [a])[..|trace|] == trace;
  }
}
