/** What the operations of the request executor do, in terms of protocol actions, and small steps of their proofs. */
module ExecutorSpec {
  import opened Options
  import opened Correlation
  import opened ReverseProtocol
  import opened ExecutorProtocol
  import opened ExecutorInvariant
  import opened ExecutorRuns
  import opened ExecutorWire

  datatype Request = Request(id: Option<RequestId>, rpc: Method, marker: Option<Marker>)

  datatype TimeoutPolicy = TimeoutPolicy(idle: nat, absolute: nat, resets: bool)

  function OrderOf(id: RequestId, request: Request, policy: TimeoutPolicy): Order {
    Order(id, request.rpc, request.marker, policy.idle, policy.absolute, policy.resets)
  }

  const CLOCK_RANGE: Error := "Tombstone retention exceeds the clock range"
  const SHUT_DOWN: Error := "Client request executor is shut down"
  const CANCELLED: Error := "Request was cancelled"
  const IDLE_TIMEOUT: Error := "Request timed out without progress"
  const ABSOLUTE_TIMEOUT: Error := "Request timed out"

  /** The error of a cancelled request names the deadline when one was the cause. */
  function CancelError(reason: Reason): (error: Error)
    ensures error == CANCELLED <==> reason != IdleTimeout && reason != AbsoluteTimeout
  {
    match reason
    case IdleTimeout => IDLE_TIMEOUT
    case AbsoluteTimeout => ABSOLUTE_TIMEOUT
    case _ => CANCELLED
  }

  /** What one read of the transport gives: a failure, or a message that passed validation. */
  datatype Inbound =
    | Broken(error: Error, malformed: bool) // whether a frame came that does not hold together
    | ResponseMessage(id: Option<RequestId>, payload: Payload, defect: Option<Error>)
    | CancelledMessage(requestId: RequestId, subscription: Option<RequestId>)
    | RequestMessage(requestId: RequestId, admitted: bool) // whether the era admits it, with its parameters
    | ProgressMessage(marker: Marker, value: real)
    | NotificationMessage(name: string)

  /** Actions that admit nobody, accept no response and hand nothing out. */
  ghost predicate Housekeeping(a: Action) {
    a.Tick? || a.PruneTombstones? || a.PruneTerminals? || a.FlushDeferred? || a.Lose? || a.Forget? || a.FailAll?
    || (a.Retire? && a.cause.Abandoned?)
  }

  ghost predicate OnlyHousekeeping(added: seq<Action>) {
    forall i | 0 <= i < |added| :: Housekeeping(added[i])
  }

  lemma NothingToKeep()
    ensures OnlyHousekeeping([]) && OnlyHousekeeping([FlushDeferred])
  {
  }

  lemma FailingIsHousekeeping(a: Action)
    requires a.FailAll?
    ensures OnlyHousekeeping([a])
  {
  }

  lemma HousekeepingJoins(a: seq<Action>, b: seq<Action>)
    requires OnlyHousekeeping(a) && OnlyHousekeeping(b)
    ensures OnlyHousekeeping(a + b)
  {
    hide Housekeeping;
  }

  lemma CancellingIsHousekeeping(cfg: Config, s: State, id: RequestId, reason: Reason, wanted: bool,
                                 added: seq<Action>, sent: seq<Dispatch>, r: Result<(), Error>)
    requires Cancels(cfg, s, id, reason, wanted, added, sent, r)
    ensures OnlyHousekeeping(added)
  {
  }

  // ----- What keeps housekeeping from finishing -----

  /** Every send went out, and the clock had room for every tombstone. */
  ghost predicate Clean(added: seq<Action>, sent: seq<Dispatch>) {
    (forall i | 0 <= i < |sent| :: sent[i].result.Sent?) && (forall i | 0 <= i < |added| :: !added[i].Lose?)
  }

  lemma CleanJoins(a: seq<Action>, s: seq<Dispatch>, b: seq<Action>, t: seq<Dispatch>)
    ensures Clean(a + b, s + t) <==> Clean(a, s) && Clean(b, t)
  {
    if Clean(a + b, s + t) {
      forall i | 0 <= i < |s| ensures s[i].result.Sent? { assert s[i] == (s + t)[i]; }
      forall i | 0 <= i < |t| ensures t[i].result.Sent? { assert t[i] == (s + t)[|s| + i]; }
      forall i | 0 <= i < |a| ensures !a[i].Lose? { assert a[i] == (a + b)[i]; }
      forall i | 0 <= i < |b| ensures !b[i].Lose? { assert b[i] == (a + b)[|a| + i]; }
    }
  }

  lemma NothingUnclean()
    ensures Clean([], [])
  {
  }

  /** Nobody among `keys` is stuck. */
  ghost predicate Free(cfg: Config, pending: map<CorrelationKey, Owner>, keys: set<CorrelationKey>) {
    forall k | k in keys && k in pending :: !Stuck(cfg, pending[k])
  }

  /** Draining finishes. */
  ghost predicate Drains(cfg: Config, s: State, added: seq<Action>, sent: seq<Dispatch>) {
    Clean(added, sent) && Free(cfg, s.pending, Dropped(s.pending))
  }

  /** Expiring timeouts at `at` finishes. */
  ghost predicate Expires(cfg: Config, pending: map<CorrelationKey, Owner>, at: nat, added: seq<Action>,
                          sent: seq<Dispatch>) {
    Clean(added, sent) && Free(cfg, pending, Due(pending, at))
  }

  /** Draining and then expiring timeouts at `at` finishes. */
  ghost predicate Polls(cfg: Config, s: State, at: nat, added: seq<Action>, sent: seq<Dispatch>) {
    Drains(cfg, s, added, sent) && Expires(cfg, s.pending - Dropped(s.pending), at, added, sent)
  }

  lemma CleanStep(added: seq<Action>, sent: seq<Dispatch>, a: Action)
    requires !a.Lose?
    ensures Clean(added + [a], sent) <==> Clean(added, sent)
  {
    CleanJoins(added, sent, [a], []);
    assert sent + [] == sent && [a][0] == a;
  }

  lemma FlushedCleanly(added: seq<Action>, sent: seq<Dispatch>, x: Dispatch)
    ensures Clean(added + [FlushDeferred], sent + [x]) <==> Clean(added, sent) && x.result.Sent?
  {
    CleanJoins(added, sent, [FlushDeferred], [x]);
    assert [x][0] == x;
  }

  lemma PrunedCleanly(now: nat)
    ensures var pruned := [Tick(now), PruneTombstones, PruneTerminals]; Clean(pruned, []) && OnlyHousekeeping(pruned)
  {
  }

  lemma OnlyForgets(added: seq<Action>, sent: seq<Dispatch>, slot: Slot)
    requires OnlyHousekeeping(added)
    ensures OnlyHousekeeping(added + [Forget(slot)])
    ensures Clean(added + [Forget(slot)], sent) <==> Clean(added, sent)
  {
    hide Clean;
    CleanStep(added, sent, Forget(slot));
  }

  lemma OnlyATick(now: nat)
    ensures OnlyHousekeeping([Tick(now)]) && Clean([Tick(now)], [])
  {
  }

  lemma QuietCancel(cfg: Config, s: State, id: RequestId, reason: Reason, added: seq<Action>, sent: seq<Dispatch>,
                    r: Result<(), Error>)
    requires Cancels(cfg, s, id, reason, false, added, sent, r)
    ensures sent == []
  {
  }

  /** Cancelling succeeds exactly when the id has a key, its owner is not stuck and nothing goes wrong on the way. */
  lemma CancelsCleanly(cfg: Config, s: State, id: RequestId, reason: Reason, wanted: bool,
                       added: seq<Action>, sent: seq<Dispatch>, r: Result<(), Error>)
    requires Cancels(cfg, s, id, reason, wanted, added, sent, r)
    ensures r.Ok? <==>
              cfg.keyOf(id).Some? && Clean(added, sent)
              && (wanted && cfg.keyOf(id).value in s.pending && s.pending[cfg.keyOf(id).value].rpc != Initialize ==>
                    cfg.encodable(id))
  {
    hide Fits;
  }

  function Dropped(pending: map<CorrelationKey, Owner>): set<CorrelationKey> {
    set k | k in pending && pending[k].dropped
  }

  /** Of the owners exactly those whose handle was dropped are gone. */
  ghost predicate Drained(owners: map<CorrelationKey, Owner>, left: map<CorrelationKey, Owner>) {
    && left.Keys <= owners.Keys
    && (forall k | k in owners :: k in left <==> !owners[k].dropped) && (forall k | k in left :: left[k] == owners[k])
  }

  /** The owners whose idle or absolute deadline has come. */
  function Due(pending: map<CorrelationKey, Owner>, at: nat): set<CorrelationKey> {
    set k | k in pending && (pending[k].idle <= at || pending[k].absolute <= at)
  }

  /** The absolute deadline names the reason when both have come. */
  function TimeoutReason(o: Owner, at: nat): Reason {
    if at >= o.absolute then AbsoluteTimeout else IdleTimeout
  }

  /** The owner was retired for `reason`, and its waiter gets `error`. */
  ghost predicate RetiredWith(h: History, o: Owner, reason: Reason, error: Error) {
    o.generation in h.retired && h.retired[o.generation].reason == reason
    && h.retired[o.generation].outcome == Some(Failure(error))
  }

  ghost predicate RetiredFor(h: History, o: Owner, reason: Reason) { RetiredWith(h, o, reason, CancelError(reason)) }

  /** What a poll at `at` comes to for each of the owners: whoever has a deadline that has come is gone, for the
      absolute one if that has come and for the idle one otherwise, and everybody else stays as it was. */
  ghost predicate TimedOut(owners: map<CorrelationKey, Owner>, s: State, at: nat) {
    && s.pending.Keys <= owners.Keys
    && forall k | k in owners ::
         var o := owners[k];
         && (k in s.pending <==> at < o.idle && at < o.absolute)
         && (k in s.pending ==> s.pending[k] == o)
         && (RetiredWith(s.history, o, AbsoluteTimeout, ABSOLUTE_TIMEOUT) <==> o.absolute <= at)
         && (RetiredWith(s.history, o, IdleTimeout, IDLE_TIMEOUT) <==> o.idle <= at < o.absolute)
  }

  /** `r` is the earliest deadline of `pending`, if there is one. */
  ghost predicate IsNextDeadline(pending: map<CorrelationKey, Owner>, r: Option<nat>) {
    match r
    case None => pending == map[]
    case Some(d) => (exists k | k in pending :: pending[k].idle == d || pending[k].absolute == d)
                    && (forall k | k in pending :: d <= pending[k].idle && d <= pending[k].absolute)
  }

  lemma EarlierDeadline(pending: map<CorrelationKey, Owner>, r: Option<nat>, k: CorrelationKey, o: Owner)
    requires IsNextDeadline(pending, r) && k !in pending
    ensures var deadline := if o.idle < o.absolute then o.idle else o.absolute;
            IsNextDeadline(pending[k := o], if r.None? || deadline < r.value then Some(deadline) else r)
  {
    var more := pending[k := o];
    assert k in more && more[k] == o;
    if r.Some? {
      var j :| j in pending && (pending[j].idle == r.value || pending[j].absolute == r.value);
      assert j in more && (more[j].idle == r.value || more[j].absolute == r.value);
    }
  }

  /** A poll expires nothing exactly when it comes before the next deadline. */
  lemma NothingDueBeforeNextDeadline(pending: map<CorrelationKey, Owner>, next: Option<nat>, at: nat)
    requires IsNextDeadline(pending, next)
    ensures (forall k | k in pending :: at < pending[k].idle && at < pending[k].absolute)
            <==> next.None? || at < next.value
    ensures Due(pending, at) == {} <==> next.None? || at < next.value
  {
    if next.Some? && next.value <= at {
      var k :| k in pending && (pending[k].idle == next.value || pending[k].absolute == next.value);
      assert k in Due(pending, at);
    }
  }

  lemma PruningKeeps(s: State)
    ensures var t := ApplyPruneTerminals(ApplyPruneTombstones(s));
            t == s.(tombstones := t.tombstones, completed := t.completed, records := t.records,
                    expirations := t.expirations, streams := t.streams)
  {
  }

  /** Every pending owner sits under the key of its own id. */
  lemma OwnersCorrelate(cfg: Config, trace: seq<Action>)
    requires IsRun(cfg, trace)
    ensures var s := After(cfg, trace).value;
            forall k | k in s.pending ::
              cfg.keyOf(s.pending[k].id) == Some(k) && s.pending[k].generation !in s.history.retired
  {
    hide Terminals, Fences, Spacing, Wire, Streams, Callbacks, Bounds, Sends, Kept;
    ReachableInv(cfg, trace);
  }

  lemma TimedOutByReason(cfg: Config, trace: seq<Action>, s: State, owners: map<CorrelationKey, Owner>, at: nat)
    requires After(cfg, trace) == Some(s) && s.pending == owners - Due(owners, at)
    requires forall k | k in Due(owners, at) :: RetiredFor(s.history, owners[k], TimeoutReason(owners[k], at))
    ensures TimedOut(owners, s, at)
  {
    hide After;
    OwnersCorrelate(cfg, trace);
  }

  /** The one kind of owner that cancelling leaves alone: the peer would have to be told, and the notice cannot be
      encoded. */
  predicate Stuck(cfg: Config, o: Owner) { o.rpc != Initialize && !cfg.encodable(o.id) }

  /** Whoever is pending afterwards was pending before, unchanged. */
  ghost predicate NobodyNew(before: map<CorrelationKey, Owner>, after: map<CorrelationKey, Owner>) {
    forall k | k in after :: k in before && after[k] == before[k]
  }

  /** Whoever is pending outside `left` is stuck. */
  ghost predicate OnlyStuck(cfg: Config, pending: map<CorrelationKey, Owner>, left: set<CorrelationKey>) {
    forall k | k in pending && k !in left :: Stuck(cfg, pending[k])
  }

  lemma NobodyLeft(cfg: Config, pending: map<CorrelationKey, Owner>)
    ensures NobodyNew(pending, pending) && OnlyStuck(cfg, pending, pending.Keys)
  {
  }

  lemma NobodyNewer(cfg: Config, owners: map<CorrelationKey, Owner>, before: map<CorrelationKey, Owner>,
                    after: map<CorrelationKey, Owner>, left: set<CorrelationKey>, key: CorrelationKey)
    requires NobodyNew(owners, before) && NobodyNew(before, after)
    requires OnlyStuck(cfg, before, left) && (key in after ==> Stuck(cfg, after[key]))
    ensures NobodyNew(owners, after) && OnlyStuck(cfg, after, left - {key})
  {
    hide Stuck;
  }

  // ----- What waiters can still get -----

  /** No outcome is lost. */
  ghost predicate StillKept(s: State, s': State) {
    forall x | x in s.completed :: x in s'.completed && s'.completed[x] == s.completed[x]
  }

  ghost predicate LostIn(added: seq<Action>, k: CorrelationKey) {
    exists i | 0 <= i < |added| :: added[i].Lose? && added[i].key == k
  }

  /** No outcome is lost, and whoever left `pending` has one, unless the clock had no room for a tombstone. */
  ghost predicate Saved(s: State, s': State, added: seq<Action>) {
    StillKept(s, s')
    && forall k | k in s.pending && k !in s'.pending :: SlotOf(s.pending[k]) in s'.completed || LostIn(added, k)
  }

  lemma NothingLost(s: State, s': State, added: seq<Action>)
    requires s'.pending == s.pending && s'.completed == s.completed
    ensures Saved(s, s', added)
  {
  }

  lemma SavedJoins(s: State, t: State, u: State, a: seq<Action>, b: seq<Action>)
    requires Saved(s, t, a) && Saved(t, u, b) && NobodyNew(s.pending, t.pending)
    ensures Saved(s, u, a + b)
  {
    forall k | k in s.pending && k !in u.pending ensures SlotOf(s.pending[k]) in u.completed || LostIn(a + b, k) {
      if k in t.pending {
        if LostIn(b, k) {
          var i :| 0 <= i < |b| && b[i].Lose? && b[i].key == k;
          assert (a + b)[|a| + i] == b[i];
        }
      } else if LostIn(a, k) {
        var i :| 0 <= i < |a| && a[i].Lose? && a[i].key == k;
        assert (a + b)[i] == a[i];
      }
    }
  }

  lemma OneFewerPending(pending: map<CorrelationKey, Owner>, key: CorrelationKey)
    ensures NobodyNew(pending, pending - {key})
  {
  }

  lemma NobodyIsNobody(pending: map<CorrelationKey, Owner>)
    ensures NobodyNew(pending, map[])
  {
  }

  lemma NobodyNewYet(a: map<CorrelationKey, Owner>, b: map<CorrelationKey, Owner>, c: map<CorrelationKey, Owner>)
    requires NobodyNew(a, b) && NobodyNew(b, c)
    ensures NobodyNew(a, c)
  {
  }

  /** Without a loss, whoever left has its outcome. */
  lemma CleanlySaved(s: State, s': State, added: seq<Action>, sent: seq<Dispatch>)
    requires Saved(s, s', added) && Clean(added, sent)
    ensures forall k | k in s.pending && k !in s'.pending :: SlotOf(s.pending[k]) in s'.completed
  {
  }

  /** An issued handle that names no live owner. */
  lemma NotPending(cfg: Config, trace: seq<Action>, slot: Slot)
    requires IsRun(cfg, trace)
    requires var s := After(cfg, trace).value;
             slot.1 in s.history.admitted && s.history.admitted[slot.1].id == slot.0
             && cfg.keyOf(slot.0).Some?
             && !(cfg.keyOf(slot.0).value in s.pending && s.pending[cfg.keyOf(slot.0).value].generation == slot.1)
    ensures slot.1 !in PendingGenerations(After(cfg, trace).value.pending)
  {
    hide After, Terminals, Fences, Spacing, Wire, Streams, Callbacks, Bounds, Sends, Kept;
    ReachableInv(cfg, trace);
    var s := After(cfg, trace).value;
    forall k | k in s.pending ensures s.pending[k].generation != slot.1 {}
  }

  /** Some of `owners` were cancelled for good; those in `left` are still to come. */
  ghost predicate Halfway(cfg: Config, owners: map<CorrelationKey, Owner>, left: set<CorrelationKey>, start: State,
                          s: State, added: seq<Action>, sent: seq<Dispatch>, ok: bool) {
    && NobodyNew(owners, s.pending) && OnlyStuck(cfg, s.pending, left)
    && Saved(start, s, added) && OnlyHousekeeping(added) && s.shutdown == start.shutdown
    && (ok <==> Clean(added, sent) && Free(cfg, owners, owners.Keys - left))
    && (ok ==> s.pending == owners - (owners.Keys - left) && s.deferred == start.deferred)
  }

  lemma AtTheStart(cfg: Config, s: State)
    ensures Halfway(cfg, s.pending, s.pending.Keys, s, s, [], [], true)
  {
    hide Housekeeping;
    assert s.pending - (s.pending.Keys - s.pending.Keys) == s.pending;
  }

  lemma AtTheEnd(cfg: Config, owners: map<CorrelationKey, Owner>, start: State, s: State, added: seq<Action>,
                 sent: seq<Dispatch>, ok: bool)
    requires Halfway(cfg, owners, {}, start, s, added, sent, ok)
    ensures NobodyNew(owners, s.pending) && Saved(start, s, added) && OnlyHousekeeping(added)
    ensures s.shutdown == start.shutdown && forall k | k in s.pending :: Stuck(cfg, s.pending[k])
    ensures ok <==> Clean(added, sent) && Free(cfg, owners, owners.Keys)
    ensures ok ==> s.pending == map[] && s.deferred == start.deferred
  {
    hide Housekeeping, Stuck, Clean, Saved;
    assert owners.Keys - {} == owners.Keys && owners - owners.Keys == map[];
  }

  lemma HalfwayOwner(cfg: Config, owners: map<CorrelationKey, Owner>, left: set<CorrelationKey>, start: State,
                     s: State, added: seq<Action>, sent: seq<Dispatch>, ok: bool, key: CorrelationKey)
    requires Halfway(cfg, owners, left, start, s, added, sent, ok) && key in left
    ensures key in s.pending ==> key in owners && s.pending[key] == owners[key]
  {
    hide Stuck, Clean, Saved, OnlyHousekeeping;
  }

  lemma OneMoreCancelled(cfg: Config, owners: map<CorrelationKey, Owner>, left: set<CorrelationKey>, start: State,
                         s: State, s': State, added: seq<Action>, sent: seq<Dispatch>, ok: bool, key: CorrelationKey,
                         more: seq<Action>, results: seq<Dispatch>, done: bool)
    requires Halfway(cfg, owners, left, start, s, added, sent, ok) && start.pending == owners
    requires key in left && left <= owners.Keys && s'.shutdown == s.shutdown
    requires NobodyNew(s.pending, s'.pending) && (key in s'.pending ==> Stuck(cfg, s'.pending[key]))
    requires done <==> Clean(more, results) && (key in s.pending ==> !Stuck(cfg, owners[key]))
    requires done ==> s'.pending == s.pending - {key} && s'.deferred == s.deferred
    requires Saved(s, s', more) && OnlyHousekeeping(more)
    ensures Halfway(cfg, owners, left - {key}, start, s', added + more, sent + results, ok && done)
  {
    hide Stuck, Clean, Saved, OnlyHousekeeping, NobodyNew, OnlyStuck;
    CleanJoins(added, sent, more, results);
    NobodyNewer(cfg, owners, s.pending, s'.pending, left, key);
    SavedJoins(start, s, s', added, more);
    HousekeepingJoins(added, more);
    assert owners.Keys - (left - {key}) == owners.Keys - left + {key};
    if ok { assert key in owners - (owners.Keys - left); }
  }

  lemma OwnersHaveNoOutcome(cfg: Config, trace: seq<Action>)
    requires IsRun(cfg, trace)
    ensures var s := After(cfg, trace).value;
            forall x | x in s.completed :: x !in PendingSlots(s.pending) && x.1 in s.history.retired
  {
    hide After, Sends, Fences, Spacing, Wire, Bounds, Streams, Callbacks, Kept, Ownership, PendingSlots;
    ReachableInv(cfg, trace);
    PendingUnretired(cfg, After(cfg, trace).value);
    OutcomesAreRetired(After(cfg, trace).value);
  }

  lemma RetiringSaves(cfg: Config, s: State, key: CorrelationKey, cause: Cause, at: nat, added: seq<Action>)
    requires key in s.pending && forall x | x in s.completed :: x !in PendingSlots(s.pending)
    ensures Saved(s, ApplyRetire(cfg, s, key, cause, at), added)
  {
    hide PendingSlots, RecordOf, OutcomeOf, ReasonOf, TerminalExpiry;
    SlotPending(s.pending, key);
  }

  lemma LosingSaves(s: State, key: CorrelationKey, reason: Reason, added: seq<Action>)
    requires key in s.pending && Lose(key, reason) in added
    ensures Saved(s, ApplyLose(s, key, reason), added)
  {
  }

  lemma FailingSaves(s: State, error: Error, reason: Reason, f: Failures, at: nat, added: seq<Action>)
    requires FailuresOf(s.pending, s.clock, error, reason, f)
    requires forall x | x in s.completed :: x !in PendingSlots(s.pending)
    ensures Saved(s, ApplyFailAll(s, error, f, at), added)
  {
    hide PendingSlots, PendingGenerations, CancelledAll, FailRecord;
    forall k | k in s.pending ensures SlotOf(s.pending[k]) in PendingSlots(s.pending) { SlotPending(s.pending, k); }
  }

  /** Expired tombstones and outcomes were pruned at the given place of the log. */
  ghost predicate Prunes(added: seq<Action>, i: int) {
    0 <= i && i + 2 < |added| && added[i].Tick? && added[i + 1] == PruneTombstones && added[i + 2] == PruneTerminals
  }

  /** What cancelling by id does: nothing unless its key is pending and the notice can be encoded; then exactly one
      owner leaves, and a notice that cannot be sent fails the connection. `sent` are the results of its sends. */
  ghost predicate Cancels(cfg: Config, s: State, id: RequestId, reason: Reason, wanted: bool,
                          added: seq<Action>, sent: seq<Dispatch>, r: Result<(), Error>) {
    var found := cfg.keyOf(id);
    if found.None? then added == [] && sent == [] && r.Err?
    else if found.value !in s.pending then added == [] && sent == [] && r.Ok?
    else
      var notify := wanted && s.pending[found.value].rpc != Initialize;
      if notify && !cfg.encodable(id) then added == [] && sent == [] && r.Err?
      else Abandons(cfg, found.value, reason, if notify then Some(id) else None, added, sent, r)
  }

  ghost predicate Abandons(cfg: Config, key: CorrelationKey, reason: Reason, notice: Option<RequestId>,
                           added: seq<Action>, sent: seq<Dispatch>, r: Result<(), Error>) {
    && 2 <= |added| <= 3 && added[0].Tick?
    && if !Fits(cfg, added[0].now, cfg.retention)
       then added[1] == Lose(key, reason) && |added| == 2 && sent == [] && r.Err?
       else
         && added[1].Retire? && added[1].key == key && added[1].cause == Abandoned(reason, notice, CancelError(reason))
         && |sent| == (if notice.Some? then 1 else 0)
         && (r.Ok? <==> sent == [] || sent[0].result.Sent?)
         && (if r.Ok? then |added| == 2 else |added| == 3 && added[2].FailAll?)
  }

  lemma AbandonsLost(cfg: Config, key: CorrelationKey, reason: Reason, notice: Option<RequestId>, now: nat)
    requires !Fits(cfg, now, cfg.retention)
    ensures Abandons(cfg, key, reason, notice, [Tick(now)] + [Lose(key, reason)], [], Err(CLOCK_RANGE))
  {
  }

  lemma AbandonsRetired(cfg: Config, key: CorrelationKey, reason: Reason, notice: Option<RequestId>, now: nat,
                        more: seq<Action>, sent: seq<Dispatch>, r: Result<(), Error>)
    requires Fits(cfg, now, cfg.retention)
    requires |sent| == (if notice.Some? then 1 else 0) && (r.Ok? <==> sent == [] || sent[0].result.Sent?)
    requires |more| == (if r.Ok? then 1 else 2) && more[0].Retire? && more[0].key == key
             && more[0].cause == Abandoned(reason, notice, CancelError(reason))
    requires r.Err? ==> more[1].FailAll?
    ensures Abandons(cfg, key, reason, notice, [Tick(now)] + more, sent, r)
  {
  }

  lemma FailedIsEmpty(cfg: Config, trace: seq<Action>)
    requires IsRun(cfg, trace)
    ensures var s := After(cfg, trace).value; s.terminalError.Some? ==> s.pending == map[] && s.deferred == []
  {
    hide Ownership, Terminals, Fences, Spacing, Wire, Streams, Callbacks, Sends, Kept;
    ReachableInv(cfg, trace);
  }

  lemma RetireAllowed(cfg: Config, s: State, key: CorrelationKey, reason: Reason, notice: Option<RequestId>)
    requires key in s.pending && Fits(cfg, s.clock, cfg.retention)
    requires IsCancelReason(reason) || reason == PeerSubscriptionTeardown
    requires notice.Some? <==> IsCancelReason(reason) && s.pending[key].rpc != Initialize
    requires notice.Some? ==> cfg.keyOf(notice.value) == Some(key)
    ensures MayRetire(cfg, s, key, Abandoned(reason, notice, CancelError(reason)))
  {
  }

  /** The connection fails, unless it has failed before. */
  ghost predicate Fails(s: State, added: seq<Action>) {
    if s.terminalError.Some? then added == [] else |added| == 1 && added[0].FailAll?
  }

  /** Whether a response that no owner can take is kept as a diagnostic. */
  ghost predicate KeepsDiagnostic(cfg: Config, s: State, id: Option<RequestId>) {
    id.Some? && cfg.keyOf(id.value).Some?
    && var key := cfg.keyOf(id.value).value;
       if key in s.tombstones then s.tombstones[key].keepsDiagnostic else key !in s.pending
  }

  /** Where a response goes. A tombstone or an unknown key never completes anybody; a live owner is completed with
      exactly this payload or its defect, and stays when the clock has no room for its tombstone. */
  ghost predicate RoutesResponse(cfg: Config, s: State, id: Option<RequestId>, payload: Payload, defect: Option<Error>,
                                 room: bool, added: seq<Action>, r: Result<(), Error>) {
    if id.None? || cfg.keyOf(id.value).None? then Fails(s, added) && r.Ok?
    else
      var key := cfg.keyOf(id.value).value;
      if key in s.tombstones || key !in s.pending then
        r.Ok? && (if KeepsDiagnostic(cfg, s, id) && !room then Fails(s, added) else added == [])
      else
        |added| > 0 && added[0].Tick?
        && if Fits(cfg, added[0].now, cfg.retention)
           then r.Ok? && |added| == 2 && added[1].Retire? && added[1].key == key
                && added[1].cause == (if defect.Some? then Malformed(defect.value) else Answered(payload))
           else r.Err? && |added| == 1
  }

  /** Which of the executor's queues can take one more. */
  datatype Room = Room(diagnostic: bool, notification: bool)

  /** A notification that nobody owns joins the generic queue; a full queue fails the connection. */
  ghost predicate Queues(s: State, room: Room, added: seq<Action>, r: Result<(), Error>) {
    if room.notification then added == [] && r.Ok? else Fails(s, added) && r.Err?
  }

  /** An error response to the peer, by one send that decides. */
  ghost predicate Rejects(s: State, id: RequestId, added: seq<Action>, sent: seq<Dispatch>, r: Result<(), Error>) {
    && |sent| == 1 && |added| >= 1 && added[0] == Reject(id) && (r.Ok? <==> sent[0].result.Sent?)
    && if sent[0].result.Fatal? then Fails(s, added[1..]) else |added| == 1
  }

  /** What one message does to the executor. */
  ghost predicate Routed(cfg: Config, modern: bool, s: State, message: Inbound, room: Room, added: seq<Action>,
                         sent: seq<Dispatch>, r: Result<(), Error>) {
    if message.RequestMessage? && !message.admitted then Rejects(s, message.requestId, added, sent, r)
    else
      sent == []
      && match message {
        case Broken(error, malformed) =>
          s.terminalError.None? && r == Err(error)
          && |added| == 1 && IsFailAll(added[0], error, if malformed then PeerProtocol else ConnectionLost)
        case ResponseMessage(id, payload, defect) =>
          RoutesResponse(cfg, s, id, payload, defect, room.diagnostic, added, r)
        case CancelledMessage(id, subscription) =>
          if !modern then added == [Reverse(PeerCancel(id))] && r.Ok?
          else if SubscriptionEnds(cfg, s, id, subscription)
          then Cancels(cfg, s, s.pending[cfg.keyOf(id).value].id, PeerSubscriptionTeardown, false, added, [], r)
          else added == [] && r.Ok?
        case RequestMessage(id, _) =>
          if HasRoom(cfg, s.reverse, id) then added == [Reverse(Receive(id))] && r.Ok?
          else Fails(s, added) && r.Err?
        case ProgressMessage(marker, value) =>
          if Ignores(s, marker, value) then Queues(s, room, added, r)
          else exists p :: RoutesProgress(cfg, s, marker, value, added, p) && (r.Ok? <==> p.Ok?)
        case NotificationMessage(_) => Queues(s, room, added, r)
      }
  }

  /** Progress without a unique owner of its marker, or without an increase. */
  ghost predicate Ignores(s: State, marker: Marker, value: real) {
    forall k | k in s.pending && s.pending[k].marker == Some(marker) ::
      !UniqueMarker(s.pending, k) || (s.pending[k].lastProgress.Some? && value <= s.pending[k].lastProgress.value)
  }

  /** Whether a message is kept in the generic queue. */
  ghost predicate KeepsNotification(s: State, message: Inbound) {
    message.NotificationMessage? || (message.ProgressMessage? && Ignores(s, message.marker, message.value))
  }

  /** One turn of the reader: the housekeeping with what it sent, the reading of the clock that timeouts were measured
      against, the state it left, and what the message did and sent. */
  datatype Turn = Turn(
    before: seq<Action>, sent: seq<Dispatch>, at: nat, mid: State, room: Room, routed: seq<Action>,
    replies: seq<Dispatch>)

  ghost predicate Drives(cfg: Config, modern: bool, s: State, message: Inbound, t: Turn, r: Result<(), Error>) {
    OnlyHousekeeping(t.before)
    && if s.terminalError.Some? || !Polls(cfg, s, t.at, t.before, t.sent)
       then r.Err? && t.routed == [] && t.replies == []
       else Ready(t.mid, t.at) && Routed(cfg, modern, t.mid, message, t.room, t.routed, t.replies, r)
  }

  /** A state in which a message may be routed. */
  ghost predicate Ready(s: State, at: nat) {
    s.deferred == [] && s.terminalError.None?
    && forall k | k in s.pending :: !s.pending[k].dropped && at < s.pending[k].idle && at < s.pending[k].absolute
  }

  /** What progress does: nothing without a unique owner of its marker or without an increase; else one `Progress`
      action, kept for the owner's stream unless the clock or the stream is full. */
  ghost predicate RoutesProgress(cfg: Config, s: State, marker: Marker, value: real, added: seq<Action>,
                                 r: Result<bool, Error>) {
    if Ignores(s, marker, value) then added == [] && r == Ok(false)
    else
      exists k | k in s.pending && s.pending[k].marker == Some(marker) ::
        (forall j | j in s.pending && s.pending[j].marker == Some(marker) :: j == k)
        && AcceptsProgress(cfg, s, k, value, added, r)
  }

  ghost predicate AcceptsProgress(cfg: Config, s: State, k: CorrelationKey, value: real, added: seq<Action>,
                                  r: Result<bool, Error>)
    requires k in s.pending
  {
    var resets := s.pending[k].resets;
    && (if resets then |added| == 2 && added[0].Tick? else |added| == 1)
    && (var a := added[|added| - 1];
        && a == Progress(k, value, r.Ok?) && (r.Ok? ==> r.value)
        && (r.Ok? <==> |StreamOf(s.streams, SlotOf(s.pending[k]))| < MAX_PEER_ACTIVITY
                       && (resets ==> Fits(cfg, added[0].now, s.pending[k].idleTimeout))))
  }

  /** The owners that advertised `marker`. */
  function Matching(pending: map<CorrelationKey, Owner>, marker: Marker): set<CorrelationKey> {
    set k | k in pending && pending[k].marker == Some(marker)
  }

  lemma OneMatch(pending: map<CorrelationKey, Owner>, marker: Marker)
    ensures forall k | k in pending && pending[k].marker == Some(marker) ::
              UniqueMarker(pending, k) <==> |Matching(pending, marker)| == 1
    ensures |Matching(pending, marker)| == 1 ==>
              forall j, k | j in Matching(pending, marker) && k in pending && pending[k].marker == Some(marker) ::
                j == k
  {
    var matching := Matching(pending, marker);
    forall k | k in matching ensures UniqueMarker(pending, k) <==> |matching| == 1 {
      if |matching| == 1 {
        assert |matching - {k}| == 0;
        assert forall j | j in pending && pending[j].marker == pending[k].marker :: j in matching;
      }
      if UniqueMarker(pending, k) { assert matching == {k}; }
    }
  }

  lemma IgnoredUnlessOne(s: State, marker: Marker, value: real)
    ensures |Matching(s.pending, marker)| != 1 ==> Ignores(s, marker, value)
    ensures forall k | |Matching(s.pending, marker)| == 1 && k in Matching(s.pending, marker) ::
              UniqueMarker(s.pending, k)
              && (forall j | j in s.pending && s.pending[j].marker == Some(marker) :: j == k)
              && (Ignores(s, marker, value) <==>
                    s.pending[k].lastProgress.Some? && value <= s.pending[k].lastProgress.value)
  {
    hide UniqueMarker;
    OneMatch(s.pending, marker);
  }

  /** A modern cancellation names a live subscription, and its metadata, if any, names the same one. */
  predicate SubscriptionEnds(cfg: Config, s: State, id: RequestId, subscription: Option<RequestId>) {
    && cfg.keyOf(id).Some?
    && (subscription.Some? ==> cfg.keyOf(subscription.value) == cfg.keyOf(id))
    && cfg.keyOf(id).value in s.pending && s.pending[cfg.keyOf(id).value].rpc == SubscriptionsListen
  }

  lemma QueuedAreActive(cfg: Config, trace: seq<Action>)
    requires IsRun(cfg, trace)
    ensures var r := After(cfg, trace).value.reverse; forall c | c in r.queue :: Queued(cfg.keyOf, r, c)
  {
    hide Ownership, Terminals, Fences, Spacing, Wire, Streams, Bounds, Sends, Kept;
    ReachableInv(cfg, trace);
  }

  lemma RetireFacts(cfg: Config, s: State, key: CorrelationKey, cause: Cause)
    requires MayRetire(cfg, s, key, cause)
    ensures key in s.pending
  {
  }

  lemma RetireDuty(cfg: Config, s: State, key: CorrelationKey, cause: Cause, at: nat, result: SendResult)
    requires Enabled(cfg, s, Retire(key, cause, at)) && Notifies(cause) && key in s.pending
    ensures var a := Retire(key, cause, at);
            var x := Dispatch(CancelFrame(cause.notice.value, s.pending[key].generation), result);
            DutyOf(cfg, s, a).Some? && Meets(DutyOf(cfg, s, a).value, x)
  {
    hide Enabled;
  }

  lemma FlushDuty(cfg: Config, s: State, result: SendResult)
    requires s.deferred != [] && Enabled(cfg, s, FlushDeferred)
    ensures var x := Dispatch(CancelFrame(s.deferred[0].0, s.deferred[0].1), result);
            DutyOf(cfg, s, FlushDeferred).Some? && Meets(DutyOf(cfg, s, FlushDeferred).value, x)
  {
    hide Enabled;
  }

  lemma SendDuty(cfg: Config, s: State, a: Action, order: Order, result: SendResult)
    requires Enabled(cfg, s, a) && (a.SendUnowned? || a.SendOwned?) && a.order == order
    requires result.Sent? <==> a.SendOwned? || a.taken
    ensures var x := Dispatch(RequestFrame(order, s.nextGeneration + 1), result);
            DutyOf(cfg, s, a).Some? && Meets(DutyOf(cfg, s, a).value, x)
  {
    hide Enabled;
  }

  lemma AnswerDuty(cfg: Config, s: State, a: Action, c: Capability, result: SendResult)
    requires Enabled(cfg, s, a) && a == (if result.Sent? then Reverse(Answer(c)) else Unanswered(c))
    requires cfg.keyOf(c.id).Some? && cfg.keyOf(c.id).value in s.reverse.active
    ensures var x := Dispatch(ResponseFrame(s.reverse.active[cfg.keyOf(c.id).value].id, c.token), result);
            DutyOf(cfg, s, a).Some? && Meets(DutyOf(cfg, s, a).value, x)
  {
    hide Enabled;
  }

  lemma RejectDuty(cfg: Config, s: State, id: RequestId, result: SendResult)
    requires Enabled(cfg, s, Reject(id))
    ensures DutyOf(cfg, s, Reject(id)).Some?
            && Meets(DutyOf(cfg, s, Reject(id)).value, Dispatch(RejectionFrame(id), result))
  {
    hide Enabled;
  }

  lemma AnswerAllowed(cfg: Config, s: State, key: CorrelationKey, cause: Cause)
    requires key in s.pending && Fits(cfg, s.clock, cfg.retention) && !cause.Abandoned?
    ensures MayRetire(cfg, s, key, cause)
  {
  }

  /** An attempt to send `order` under `key`. It sends nothing unless the key is admitted and a generation is left; else
      it sends once and takes one generation. An owner is made exactly when the transport takes the request and both
      deadlines fit the clock; a broken transport fails the connection. */
  ghost predicate Attempts(cfg: Config, s: State, key: CorrelationKey, order: Order, added: seq<Action>,
                           sent: seq<Dispatch>, owned: bool) {
    if !CanAdmit(cfg, s, key) || s.nextGeneration >= MAX_GENERATION then added == [] && sent == [] && !owned
    else
      |sent| == 1 && |added| >= 1
      && match sent[0].result {
        case Sent =>
          |added| == 1
          && (if owned then added[0].SendOwned? else added[0].SendUnowned? && added[0].taken)
          && added[0].key == key && added[0].order == order
          && (owned <==> Fits(cfg, added[0].at, order.idle) && Fits(cfg, added[0].at, order.absolute))
        case Fatal => !owned && |added| == 2 && added[0] == SendUnowned(key, order, false, s.clock) && added[1].FailAll?
        case _ => !owned && added == [SendUnowned(key, order, false, s.clock)]
      }
  }

  lemma SentAnyway(cfg: Config, s: State, key: CorrelationKey, order: Order, taken: bool, at: nat)
    requires CanAdmit(cfg, s, key)
    ensures ApplySend(s, key, order, taken, at).terminalError.None?
  {
  }

  lemma OwnerIssued(s: State, key: CorrelationKey, order: Order, at: nat)
    ensures var t := ApplyOwn(s, key, order, at);
            t.nextGeneration == s.nextGeneration + 1 && t.nextGeneration in t.history.admitted
            && t.history.admitted[t.nextGeneration].id == order.id && t.clock == at
            && key in t.pending && t.pending[key] == OwnerFor(order, s.nextGeneration + 1, at)
  {
    hide OwnerFor;
  }

  /** The capability of a request of the peer that is neither answered nor withdrawn. */
  ghost predicate IsLive(cfg: Config, r: ReverseState, c: Capability) {
    var found := cfg.keyOf(c.id);
    found.Some? && found.value in r.active && r.active[found.value].token == c.token
    && c.token !in r.cancelled && c.token !in r.sent
  }

  /** There is room for a request of the peer, under a key of its own. */
  ghost predicate HasRoom(cfg: Config, r: ReverseState, id: RequestId) {
    cfg.keyOf(id).Some? && cfg.keyOf(id).value !in r.active && |r.queue| < 1024
  }

  /** Answering a request of the peer: refused without a live capability, else one send that decides. */
  ghost predicate Responds(cfg: Config, s: State, c: Capability, added: seq<Action>, sent: seq<Dispatch>,
                           r: Result<(), Error>) {
    if s.shutdown || s.terminalError.Some? || !IsLive(cfg, s.reverse, c) then r.Err? && added == [] && sent == []
    else
      |sent| == 1 && (r.Ok? <==> sent[0].result.Sent?)
      && match sent[0].result {
        case Sent => added == [Reverse(Answer(c))]
        case Fatal => |added| >= 1 && added[0] == Unanswered(c) && Fails(s, added[1..])
        case _ => added == [Unanswered(c)]
      }
  }

  lemma PruneStep(cfg: Config, s: State)
    ensures Enabled(cfg, s, PruneTerminals) && Quiet(PruneTerminals)
    ensures Apply(cfg, s, PruneTerminals) == WithoutSlots(s, Expired(s)) == ApplyPruneTerminals(s)
  {
  }

  lemma TerminalsAgree(cfg: Config, trace: seq<Action>)
    requires IsRun(cfg, trace)
    ensures var s := After(cfg, trace).value;
            |s.completed| == |s.records| && s.completed.Keys == s.records.Keys == s.expirations.Keys
  {
    hide Ownership, Fences, Spacing, Wire, Streams, Bounds, Callbacks, Sends, Kept;
    ReachableInv(cfg, trace);
    var s := After(cfg, trace).value;
    assert |s.completed| == |s.completed.Keys| && |s.records| == |s.records.Keys|;
  }

  // ----- Handles -----

  /** Taking an outcome: after the expired ones are pruned, either it is handed out as it was stored, or its owner is
      still pending, or it is gone. */
  ghost predicate Takes(cfg: Config, s: State, slot: Slot, added: seq<Action>,
                        r: Result<Option<(Outcome, seq<real>)>, Error>) {
    && |added| >= 2 && added[0].Tick? && added[1] == PruneTerminals
    && var found := cfg.keyOf(slot.0);
       if slot in s.completed && slot in s.expirations && s.expirations[slot] > added[0].now
       then r == Ok(Some((s.completed[slot], StreamOf(s.streams, slot)))) && |added| == 3
            && added[2] == HandOut(slot, s.completed[slot], StreamOf(s.streams, slot))
       else |added| == 2
            && if found.Some? && found.value in s.pending && s.pending[found.value].generation == slot.1
               then r == Ok(None) else r.Err?
  }

  lemma PrunedSlot(s: State, slot: Slot)
    requires s.completed.Keys == s.expirations.Keys
    ensures var t := ApplyPruneTerminals(s);
            t.pending == s.pending
            && (slot in t.completed <==> slot in s.completed && s.expirations[slot] > s.clock)
            && (slot in t.completed ==> t.completed[slot] == s.completed[slot]
                                        && StreamOf(t.streams, slot) == StreamOf(s.streams, slot))
  {
  }

  /** Whose wait for an outcome goes on: only an execution that is still pending. */
  lemma OnlyPendingWaits(cfg: Config, trace: seq<Action>, slot: Slot, added: seq<Action>,
                         r: Result<Option<(Outcome, seq<real>)>, Error>)
    requires IsRun(cfg, trace) && Takes(cfg, After(cfg, trace).value, slot, added, r)
    requires slot.1 in After(cfg, trace).value.history.retired
    ensures r != Ok(None)
  {
    hide After, IsRun;
    OwnersCorrelate(cfg, trace);
  }

  /** The expectation of `wait_for_terminal`, in every schedule: once a generation is retired, whatever everybody else
      does until the lock is taken again, taking its outcome never finds it pending. */
  lemma RetiredIsNeverAwaited(cfg: Config, trace: seq<Action>, i: nat, j: nat, slot: Slot, added: seq<Action>,
                              r: Result<Option<(Outcome, seq<real>)>, Error>)
    requires IsRun(cfg, trace) && i <= j <= |trace| && slot.1 in StateAt(cfg, trace, i).history.retired
    requires Takes(cfg, StateAt(cfg, trace, j), slot, added, r)
    ensures r != Ok(None)
  {
    hide Enabled, Apply;
    RetiredForEver(cfg, trace, i, j, slot.1);
    PrefixIsRun(cfg, trace, j);
    OnlyPendingWaits(cfg, trace[..j], slot, added, r);
  }

  /** An issued generation whose key is not pending has been retired. */
  lemma GoneIsRetired(cfg: Config, trace: seq<Action>, slot: Slot)
    requires IsRun(cfg, trace)
    requires var s := After(cfg, trace).value;
             slot.1 in s.history.admitted && s.history.admitted[slot.1].id == slot.0
             && cfg.keyOf(slot.0).Some? && cfg.keyOf(slot.0).value !in s.pending
    ensures slot.1 in After(cfg, trace).value.history.retired
  {
    hide After, Terminals, Fences, Spacing, Wire, Streams, Callbacks, Bounds, Sends, Kept;
    ReachableInv(cfg, trace);
  }

  /** How a wait ended: with its outcome, perhaps after its own cancel, or at the step that failed where it was. */
  datatype WaitEnd = Delivered(cancelled: bool) | Stopped(prefix: seq<Action>, s: State, step: seq<Action>, why: Why)
  datatype Why = NoOutcome | CancelRefused(sent: seq<Dispatch>) | DriveStopped(turn: Turn)

  /** A wait that began after the run `start`, performed `added`, everybody else's actions included, and left the given
      messages unread: it cancels only when it has read them all. */
  ghost predicate WaitEnds(cfg: Config, modern: bool, start: seq<Action>, slot: Slot, left: seq<Inbound>,
                           added: seq<Action>, end: WaitEnd, r: Result<(Outcome, seq<real>), Error>) {
    match end
    case Delivered(cancelled) =>
      r.Ok? && added != [] && added[|added| - 1] == HandOut(slot, r.value.0, r.value.1) && (cancelled ==> left == [])
    case Stopped(prefix, s, step, why) =>
      && r.Err? && added == prefix + step && After(cfg, start + prefix) == Some(s)
      && match why {
        case NoOutcome => Takes(cfg, s, slot, step, Err(r.error))
        case CancelRefused(sent) =>
          left == [] && Cancels(cfg, s, slot.0, CallerCancelled, true, step, sent, Err(r.error))
        case DriveStopped(t) =>
          left != [] && step == t.before + t.routed && Drives(cfg, modern, s, left[0], t, Err(r.error))
      }
  }

  /** A turn of the reader and what the run had grown by before it. */
  type Reading = (seq<Action>, Turn)

  function EndOf(x: Reading): seq<Action> { x.0 + (x.1.before + x.1.routed) }

  /** The message was driven successfully at that place of the run. */
  ghost predicate Reads(cfg: Config, modern: bool, start: seq<Action>, message: Inbound, added: seq<Action>,
                        x: Reading) {
    && EndOf(x) <= added && After(cfg, start + x.0).Some?
    && Drives(cfg, modern, After(cfg, start + x.0).value, message, x.1, Ok(()))
  }

  /** The first messages were driven one after the other. */
  ghost predicate AllRead(cfg: Config, modern: bool, start: seq<Action>, messages: seq<Inbound>, added: seq<Action>,
                          readings: seq<Reading>) {
    && |readings| <= |messages|
    && (forall i | 0 <= i < |readings| :: Reads(cfg, modern, start, messages[i], added, readings[i]))
    && (forall i, j | 0 <= i < j < |readings| :: EndOf(readings[i]) <= readings[j].0)
  }

  lemma OnlyOneOk(r: Result<(), Error>)
    requires r.Ok?
    ensures r == Ok(())
  {
    match r.value case () =>
  }

  lemma NothingRead(cfg: Config, modern: bool, start: seq<Action>, messages: seq<Inbound>)
    ensures AllRead(cfg, modern, start, messages, [], [])
  {
  }

  lemma StillRead(cfg: Config, modern: bool, start: seq<Action>, messages: seq<Inbound>, added: seq<Action>,
                  more: seq<Action>, readings: seq<Reading>)
    requires AllRead(cfg, modern, start, messages, added, readings)
    ensures AllRead(cfg, modern, start, messages, added + more, readings)
  {
    hide After, Drives, EndOf;
    forall i | 0 <= i < |readings| ensures Reads(cfg, modern, start, messages[i], added + more, readings[i]) {
      assert Reads(cfg, modern, start, messages[i], added, readings[i]);
    }
  }

  lemma OneMoreRead(cfg: Config, modern: bool, start: seq<Action>, messages: seq<Inbound>, added: seq<Action>,
                    readings: seq<Reading>, s: State, t: Turn)
    requires AllRead(cfg, modern, start, messages, added, readings) && |readings| < |messages|
    requires After(cfg, start + added) == Some(s) && Drives(cfg, modern, s, messages[|readings|], t, Ok(()))
    ensures AllRead(cfg, modern, start, messages, added + (t.before + t.routed), readings + [(added, t)])
  {
    hide After, Drives;
    StillRead(cfg, modern, start, messages, added, t.before + t.routed, readings);
    forall i | 0 <= i < |readings| ensures EndOf(readings[i]) <= added {
      assert Reads(cfg, modern, start, messages[i], added, readings[i]);
    }
    assert (added, t).0 == added && EndOf((added, t)) == added + (t.before + t.routed);
    assert Reads(cfg, modern, start, messages[|readings|], added + (t.before + t.routed), (added, t));
  }

  /** The end of a wait, seen from an earlier start. */
  function Following(earlier: seq<Action>, end: WaitEnd): WaitEnd {
    if end.Delivered? then end else end.(prefix := earlier + end.prefix)
  }

  lemma WaitGoesOn(cfg: Config, modern: bool, start: seq<Action>, earlier: seq<Action>, slot: Slot,
                   added: seq<Action>, end: WaitEnd, r: Result<(Outcome, seq<real>), Error>)
    requires WaitEnds(cfg, modern, start + earlier, slot, [], added, end, r)
    ensures WaitEnds(cfg, modern, start, slot, [], earlier + added, Following(earlier, end), r)
  {
    hide After, Takes, Cancels, Drives;
    if end.Stopped? {
      assert start + (earlier + end.prefix) == start + earlier + end.prefix;
      assert earlier + added == earlier + end.prefix + end.step;
    }
  }

  /** Taking the outcome ends a wait, unless its execution is still pending. */
  lemma EndsAtTake(cfg: Config, modern: bool, start: seq<Action>, slot: Slot, left: seq<Inbound>, cancelled: bool,
                   added: seq<Action>, s: State, step: seq<Action>, r: Result<Option<(Outcome, seq<real>)>, Error>)
    requires After(cfg, start + added) == Some(s) && Takes(cfg, s, slot, step, r) && (cancelled ==> left == [])
    ensures r.Err? ==>
              WaitEnds(cfg, modern, start, slot, left, added + step, Stopped(added, s, step, NoOutcome), Err(r.error))
    ensures r.Ok? && r.value.Some? ==>
              WaitEnds(cfg, modern, start, slot, left, added + step, Delivered(cancelled), Ok(r.value.value))
  {
    hide After, StreamOf;
  }

  lemma EndsAtDrive(cfg: Config, modern: bool, start: seq<Action>, slot: Slot, left: seq<Inbound>,
                    added: seq<Action>, s: State, t: Turn, r: Result<(), Error>)
    requires After(cfg, start + added) == Some(s) && left != [] && Drives(cfg, modern, s, left[0], t, r) && r.Err?
    ensures WaitEnds(cfg, modern, start, slot, left, added + (t.before + t.routed),
                     Stopped(added, s, t.before + t.routed, DriveStopped(t)), Err(r.error))
  {
    hide After, Drives;
    assert r == Err(r.error);
  }

  lemma StaysIssued(cfg: Config, start: seq<Action>, added: seq<Action>, slot: Slot)
    requires IsRun(cfg, start + added) && IsRun(cfg, start)
    requires var h := After(cfg, start).value.history; slot.1 in h.admitted && h.admitted[slot.1].id == slot.0
    ensures var h := After(cfg, start + added).value.history; slot.1 in h.admitted && h.admitted[slot.1].id == slot.0
  {
    hide After, IsRun;
    GrownRun(cfg, start, added);
  }

  /** An owner marked as dropped has lost its handle, for ever. */
  lemma DroppedStayGone(cfg: Config, start: seq<Action>, added: seq<Action>, key: CorrelationKey)
    requires IsRun(cfg, start + added) && IsRun(cfg, start)
    requires key in After(cfg, start).value.pending && After(cfg, start).value.pending[key].dropped
    ensures After(cfg, start).value.pending[key].generation in After(cfg, start + added).value.history.gone
  {
    hide After, Inv, Kept;
    ReachableInv(cfg, start);
    InvKeeps(cfg, After(cfg, start).value);
    DroppedAreGone(cfg, After(cfg, start).value);
    GrownRun(cfg, start, added);
  }

  lemma InvKeeps(cfg: Config, s: State)
    requires Inv(cfg, s)
    ensures Kept(cfg, s)
  {
    hide Kept, Sends, Ownership, Terminals, Fences, Spacing, Wire, Bounds, Streams, Callbacks;
  }

  lemma StaysRetired(cfg: Config, start: seq<Action>, added: seq<Action>, g: nat)
    requires IsRun(cfg, start + added) && IsRun(cfg, start) && g in After(cfg, start).value.history.retired
    ensures g in After(cfg, start + added).value.history.retired
  {
    hide After, IsRun;
    GrownRun(cfg, start, added);
  }

  /** Dropping a handle, by what it is and whether the lock was free. */
  ghost predicate Drops(cfg: Config, s: State, slot: Slot, completed: bool, contended: bool, added: seq<Action>) {
    var found := cfg.keyOf(slot.0);
    if completed then added == if contended then [] else [Release(slot, false)]
    else if found.None? then added == []
    else if found.value in s.pending && s.pending[found.value].generation == slot.1 then
      if contended then added == [MarkDropped(found.value)]
      else |added| == 2 && added[0].Tick? && added[1] == DropOwner(found.value)
    else added == if contended then [] else [Release(slot, true)]
  }

  lemma OwnersNamed(cfg: Config, trace: seq<Action>)
    requires IsRun(cfg, trace)
    ensures var s := After(cfg, trace).value;
            forall k | k in s.pending ::
              s.pending[k].generation in s.history.admitted
              && s.history.admitted[s.pending[k].generation].id == s.pending[k].id
  {
    hide Terminals, Fences, Spacing, Wire, Streams, Bounds, Callbacks, Sends, Kept;
    ReachableInv(cfg, trace);
  }

  /** A tombstone in the place of the owner, and the notice to the peer put off. */
  function Replaced(s: State, key: CorrelationKey, o: Owner, expiresAt: nat, fits: bool, notifies: bool): State {
    s.(pending := s.pending - {key}, streams := s.streams - {SlotOf(o)},
       tombstones := s.tombstones[key := Tombstone(o.generation, expiresAt, false)],
       deferred := if notifies then s.deferred + [SlotOf(o)] else s.deferred,
       history := s.history.(
         retired := s.history.retired[o.generation := Retirement(CallerDropped, s.clock, fits, None)],
         gone := s.history.gone + {o.generation}))
  }

  lemma DropParts(cfg: Config, s: State, key: CorrelationKey)
    requires key in s.pending
    ensures var o, fits := s.pending[key], Fits(cfg, s.clock, cfg.retention);
            ApplyDrop(cfg, s, key)
            == Replaced(ApplyForget(s, SlotOf(o), false), key, o,
                        if fits then s.clock + cfg.retention else s.clock, fits,
                        o.rpc != Initialize && cfg.encodable(o.id))
    ensures ApplyForget(s, SlotOf(s.pending[key]), false).clock == s.clock
  {
    hide Fits;
  }

  /** Dropping the handle of the owner of `key`: its place is fenced, nothing is kept for it, and the notice to the peer
      is put off when there is one to be sent. */
  ghost predicate GivenUp(cfg: Config, s: State, key: CorrelationKey, s': State) {
    && key in s.pending && s'.pending == s.pending - {key}
    && (var o := s.pending[key];
        && key in s'.tombstones && s'.tombstones[key].generation == o.generation
        && SlotOf(o) !in s'.completed && SlotOf(o) !in s'.streams
        && s'.deferred == s.deferred + if o.rpc != Initialize && cfg.encodable(o.id) then [SlotOf(o)] else [])
  }

  lemma DropGivesUp(cfg: Config, s: State, key: CorrelationKey)
    requires key in s.pending
    ensures GivenUp(cfg, s, key, ApplyDrop(cfg, s, key))
  {
    hide Fits;
  }

  lemma RetainedThenReleased(s: State, slot: Slot, record: TerminalRecord, outcome: Outcome, expiry: nat)
    ensures s.completed[slot := outcome] - {slot} == s.completed - {slot}
    ensures s.records[slot := record] - {slot} == s.records - {slot}
    ensures s.expirations[slot := expiry] - {slot} == s.expirations - {slot}
  {
  }

  /** The owner's place is taken by a tombstone that counts from `now`. */
  function Departed(cfg: Config, s: State, key: CorrelationKey, o: Owner, cause: Cause, now: nat, at: nat): State {
    var h := s.history;
    s.(pending := s.pending - {key},
       streams := if cause.Answered? then s.streams else s.streams - {SlotOf(o)},
       tombstones := s.tombstones[key := Tombstone(o.generation, now + cfg.retention, !cause.Abandoned?)],
       clock := at,
       history := h.(
         retired := h.retired[o.generation := Retirement(ReasonOf(cause), now, true, Some(OutcomeOf(cause)))],
         cancels := if Notifies(cause) then h.cancels + multiset{o.generation} else h.cancels))
  }

  lemma RetireParts(cfg: Config, s: State, key: CorrelationKey, cause: Cause, at: nat)
    requires key in s.pending
    ensures var o := s.pending[key];
            ApplyRetire(cfg, s, key, cause, at)
            == Departed(cfg, s.(records := s.records[SlotOf(o) := RecordOf(cause)],
                                completed := s.completed[SlotOf(o) := OutcomeOf(cause)],
                                expirations := s.expirations[SlotOf(o) := TerminalExpiry(cfg, at)]),
                        key, o, cause, s.clock, at)
    ensures ApplyRetire(cfg, s, key, cause, at).clock == at
  {
    hide RecordOf, OutcomeOf, ReasonOf, TerminalExpiry;
  }

  // ----- Callbacks of the peer -----

  /** The tokens of the active requests outside `left`. */
  ghost function TokensBut(r: ReverseState, left: set<CorrelationKey>): set<nat> {
    set k | k in r.active && k !in left :: r.active[k].token
  }

  lemma TokensAtEnds(r: ReverseState)
    ensures TokensBut(r, r.active.Keys) == {} && TokensBut(r, {}) == ActiveTokens(r)
  {
  }

  lemma OneTokenMore(r: ReverseState, left: set<CorrelationKey>, k: CorrelationKey)
    requires k in left && left <= r.active.Keys
    ensures TokensBut(r, left - {k}) == TokensBut(r, left) + {r.active[k].token}
  {
    var t := r.active[k].token;
    forall x | x in TokensBut(r, left) ensures x in TokensBut(r, left - {k}) {
      var j :| j in r.active && j !in left && x == r.active[j].token;
      assert j !in left - {k};
    }
  }

  // ----- Failing one owner after the other -----

  ghost predicate IsFailAll(a: Action, error: Error, reason: Reason) {
    a.FailAll? && a.error == error && a.reason == reason
  }

  const NO_FAILURES := Failures(map[], map[], map[], map[])

  lemma NoFailures(cfg: Config, s: State, error: Error, reason: Reason)
    ensures FailuresOf(map[], s.clock, error, reason, NO_FAILURES)
    ensures ExpiriesWithin(cfg, s.clock, s.clock, NO_FAILURES.expiries)
    ensures ApplyFailAll(s, error, NO_FAILURES, s.clock)
            == s.(terminalError := Some(error), tombstones := map[], deferred := [], pending := map[],
                  reverse := CancelledAll(s.reverse))
  {
    var t := ApplyFailAll(s, error, NO_FAILURES, s.clock);
    assert t.completed == s.completed && t.records == s.records && t.expirations == s.expirations;
    assert t.streams == s.streams && t.history.retired == s.history.retired;
  }

  ghost function FailOne(o: Owner, at: nat, error: Error, reason: Reason, f: Failures, expiry: nat): Failures {
    Failures(f.outcomes[SlotOf(o) := Failure(error)], f.records[SlotOf(o) := FailRecord(reason)],
             f.expiries[SlotOf(o) := expiry],
             f.retired[o.generation := Retirement(reason, at, true, Some(Failure(error)))])
  }

  lemma FailOneMore(done: map<CorrelationKey, Owner>, k: CorrelationKey, o: Owner, at: nat, error: Error,
                    reason: Reason, f: Failures, expiry: nat)
    requires k !in done && FailuresOf(done, at, error, reason, f)
    ensures FailuresOf(done[k := o], at, error, reason, FailOne(o, at, error, reason, f, expiry))
  {
    hide FailRecord, PendingSlots, PendingGenerations;
    SlotsGrow(done, k, o);
  }

  lemma OneMoreExpiry(cfg: Config, from: nat, to: nat, at: nat, f: Failures, o: Owner, clock: nat, error: Error,
                      reason: Reason)
    requires ExpiriesWithin(cfg, from, to, f.expiries) && from <= to <= at
    ensures ExpiriesWithin(cfg, from, at, FailOne(o, clock, error, reason, f, TerminalExpiry(cfg, at)).expiries)
  {
    hide TerminalExpiry;
    var more := FailOne(o, clock, error, reason, f, TerminalExpiry(cfg, at)).expiries;
    forall x | x in more ensures ExpiryWithin(cfg, from, at, more[x]) {
      if x != SlotOf(o) { assert ExpiryWithin(cfg, from, to, f.expiries[x]); }
    }
  }

  lemma SlotsGrow(done: map<CorrelationKey, Owner>, k: CorrelationKey, o: Owner)
    requires k !in done
    ensures PendingSlots(done[k := o]) == PendingSlots(done) + {SlotOf(o)}
    ensures PendingGenerations(done[k := o]) == PendingGenerations(done) + {o.generation}
  {
    var more := done[k := o];
    assert SlotOf(more[k]) == SlotOf(o);
    forall j | j in done ensures j in more && more[j] == done[j] {}
  }

  lemma MergeUpdate<K, V>(m: map<K, V>, n: map<K, V>, k: K, v: V)
    ensures m + n[k := v] == (m + n)[k := v]
  {
  }

  /** The state of a failed connection, by its parts. */
  ghost function FailedState(s: State, error: Error, completed: map<Slot, Outcome>, records: map<Slot, TerminalRecord>,
                             expirations: map<Slot, nat>, streams: map<Slot, seq<real>>, at: nat,
                             retired: map<nat, Retirement>): State {
    s.(terminalError := Some(error), tombstones := map[], deferred := [], pending := map[], completed := completed,
       records := records, expirations := expirations, streams := streams, clock := at,
       reverse := CancelledAll(s.reverse), history := s.history.(retired := retired))
  }

  lemma FailAllParts(s: State, error: Error, f: Failures, at: nat)
    ensures ApplyFailAll(s, error, f, at)
            == FailedState(s, error, s.completed + f.outcomes, s.records + f.records, s.expirations + f.expiries,
                           s.streams - f.outcomes.Keys, at, s.history.retired + f.retired)
  {
    hide CancelledAll;
  }

  lemma FailOneApplied(s: State, at: nat, o: Owner, error: Error, reason: Reason, f: Failures, expiry: nat, now: nat)
    ensures var t := ApplyFailAll(s, error, f, at);
            ApplyFailAll(s, error, FailOne(o, s.clock, error, reason, f, expiry), now)
            == t.(completed := t.completed[SlotOf(o) := Failure(error)],
                  records := t.records[SlotOf(o) := FailRecord(reason)],
                  expirations := t.expirations[SlotOf(o) := expiry], streams := t.streams - {SlotOf(o)}, clock := now,
                  history := t.history.(retired :=
                    t.history.retired[o.generation := Retirement(reason, s.clock, true, Some(Failure(error)))]))
  {
    hide ApplyFailAll, FailRecord, CancelledAll;
    var gone := Retirement(reason, s.clock, true, Some(Failure(error)));
    FailAllParts(s, error, f, at);
    FailAllParts(s, error, FailOne(o, s.clock, error, reason, f, expiry), now);
    MergeUpdate(s.completed, f.outcomes, SlotOf(o), Failure(error));
    MergeUpdate(s.records, f.records, SlotOf(o), FailRecord(reason));
    MergeUpdate(s.expirations, f.expiries, SlotOf(o), expiry);
    MergeUpdate(s.history.retired, f.retired, o.generation, gone);
    WithoutOne(s.streams, f.outcomes, SlotOf(o), Failure(error));
  }

  lemma WithoutOne<K, V, W>(m: map<K, V>, n: map<K, W>, k: K, w: W)
    ensures m - n[k := w].Keys == m - n.Keys - {k}
  {
  }

  lemma AppliedError(s: State, error: Error, f: Failures, at: nat)
    ensures var t := ApplyFailAll(s, error, f, at);
            t.terminalError == Some(error) && t.nextGeneration == s.nextGeneration
            && t.history.admitted == s.history.admitted && t.shutdown == s.shutdown
            && t.pending == map[] && t.reverse == CancelledAll(s.reverse)
  {
  }

  lemma AppliedOutcomes(s: State, error: Error, reason: Reason, f: Failures, at: nat)
    requires FailuresOf(s.pending, s.clock, error, reason, f)
    ensures var t := ApplyFailAll(s, error, f, at); AllFailed(s.pending, t, error)
  {
    forall k | k in s.pending ensures SlotOf(s.pending[k]) in f.outcomes {
      assert SlotOf(s.pending[k]) in PendingSlots(s.pending);
    }
  }

  /** Every owner gets the error. */
  ghost predicate AllFailed(owners: map<CorrelationKey, Owner>, t: State, error: Error) {
    forall k | k in owners ::
      SlotOf(owners[k]) in t.completed && t.completed[SlotOf(owners[k])] == Failure(error)
  }

  /** The terminal outcomes and streams of `slots` taken out. */
  ghost function WithoutSlots(s: State, slots: set<Slot>): State {
    s.(completed := s.completed - slots, records := s.records - slots,
       expirations := s.expirations - slots, streams := s.streams - slots)
  }

  lemma WithoutNobody(s: State)
    ensures WithoutSlots(s, {}) == s
  {
    assert s.completed - {} == s.completed && s.records - {} == s.records;
    assert s.expirations - {} == s.expirations && s.streams - {} == s.streams;
  }

  lemma WithoutOneMore(s: State, slots: set<Slot>, x: Slot)
    ensures WithoutSlots(s, slots + {x}) == WithoutSlots(WithoutSlots(s, slots), {x})
  {
    var t := WithoutSlots(s, slots);
    assert t.completed - {x} == s.completed - (slots + {x});
    assert t.records - {x} == s.records - (slots + {x});
    assert t.expirations - {x} == s.expirations - (slots + {x});
    assert t.streams - {x} == s.streams - (slots + {x});
  }
}
