/** Requests that the peer sends to the client. Each one gets a capability, named here by a fresh token that stands for
    the two shared cells of the source: whoever holds the capability may answer the request once. */
module ReverseProtocol {
  import opened Options
  import opened Correlation

  type KeyOf = RequestId -> Option<CorrelationKey>

  datatype Capability = Capability(id: RequestId, token: nat)

  /** `cancelled` and `sent` hold the tokens whose callback cell has left its open state. `received` and `answers` are
      only bookkeeping for the proofs: the id that came with each token, and the responses written, as token and id. */
  datatype ReverseState = ReverseState(
    active: map<CorrelationKey, Capability>,
    queue: seq<Capability>,
    next: nat,
    cancelled: set<nat>,
    sent: set<nat>,
    received: map<nat, RequestId>,
    answers: multiset<(nat, RequestId)>)

  const NO_REVERSE := ReverseState(map[], [], 0, {}, {}, map[], multiset{})

  const MAX_REVERSE_QUEUE: nat := 1024

  datatype ReverseAction =
    | Receive(id: RequestId)
    | TakeRequests
    | Answer(capability: Capability)
    | PeerCancel(id: RequestId)
    | CancelAll

  predicate IsOpen(r: ReverseState, token: nat) { token !in r.cancelled && token !in r.sent }

  predicate ReverseEnabled(keyOf: KeyOf, r: ReverseState, a: ReverseAction) {
    match a
    case Receive(id) =>
      keyOf(id).Some? && keyOf(id).value !in r.active && |r.queue| < MAX_REVERSE_QUEUE
    case TakeRequests => true
    case Answer(c) =>
      keyOf(c.id).Some? && keyOf(c.id).value in r.active
      && r.active[keyOf(c.id).value].token == c.token && IsOpen(r, c.token)
    case PeerCancel(_) => true
    case CancelAll => true
  }

  function ActiveTokens(r: ReverseState): set<nat> { set k | k in r.active :: r.active[k].token }

  /** The queue without the requests under `key`. */
  function WithoutKey(keyOf: KeyOf, queue: seq<Capability>, key: CorrelationKey): seq<Capability> {
    if queue == [] then []
    else (if keyOf(queue[0].id) == Some(key) then [] else [queue[0]]) + WithoutKey(keyOf, queue[1..], key)
  }

  /** The queue without the request of `token`. */
  function WithoutToken(queue: seq<Capability>, token: nat): seq<Capability> {
    if queue == [] then []
    else (if queue[0].token == token then [] else [queue[0]]) + WithoutToken(queue[1..], token)
  }

  function ReverseApply(keyOf: KeyOf, r: ReverseState, a: ReverseAction): ReverseState
    requires ReverseEnabled(keyOf, r, a)
  {
    match a
    case Receive(id) =>
      var c := Capability(id, r.next);
      r.(active := r.active[keyOf(id).value := c], queue := r.queue + [c], next := r.next + 1,
         received := r.received[r.next := id])
    case TakeRequests => r.(queue := [])
    case Answer(c) =>
      var key := keyOf(c.id).value;
      r.(active := r.active - {key}, queue := WithoutKey(keyOf, r.queue, key), sent := r.sent + {c.token},
         answers := r.answers + multiset{(c.token, r.active[key].id)})
    case PeerCancel(id) =>
      if keyOf(id).None? || keyOf(id).value !in r.active then r
      else
        var c := r.active[keyOf(id).value];
        r.(active := r.active - {keyOf(id).value}, queue := WithoutToken(r.queue, c.token),
           cancelled := if IsOpen(r, c.token) then r.cancelled + {c.token} else r.cancelled)
    case CancelAll => CancelledAll(r)
  }

  /** Every open active callback is cancelled and nothing is active any more. */
  function CancelledAll(r: ReverseState): ReverseState {
    r.(active := map[], queue := [], cancelled := r.cancelled + (ActiveTokens(r) - r.sent))
  }

  // ----- What every action keeps -----

  /** Active requests are open, sit under the key of their own id and have tokens of their own; whatever is queued is
      active. A token is never both cancelled and answered, and is answered at most once, with the id it came with. */
  ghost predicate ReverseInv(keyOf: KeyOf, r: ReverseState) {
    && (forall k | k in r.active :: keyOf(r.active[k].id) == Some(k) && IsOpen(r, r.active[k].token)
                                    && r.active[k].token in r.received
                                    && r.received[r.active[k].token] == r.active[k].id)
    && (forall k, k' | k in r.active && k' in r.active && r.active[k].token == r.active[k'].token :: k == k')
    && (forall c | c in r.queue :: Queued(keyOf, r, c))
    && |r.queue| <= MAX_REVERSE_QUEUE
    && (forall t | t in r.received :: t < r.next)
    && r.cancelled !! r.sent && r.cancelled + r.sent <= r.received.Keys
    && (forall x :: r.answers[x] <= 1)
    && (forall x | x in r.answers :: x.0 in r.sent && x.0 in r.received && r.received[x.0] == x.1)
  }

  ghost predicate Queued(keyOf: KeyOf, r: ReverseState, c: Capability) {
    keyOf(c.id).Some? && keyOf(c.id).value in r.active && r.active[keyOf(c.id).value] == c
  }

  lemma {:induction false} WithoutKeyKeeps(keyOf: KeyOf, queue: seq<Capability>, key: CorrelationKey, c: Capability)
    ensures c in WithoutKey(keyOf, queue, key) <==> c in queue && keyOf(c.id) != Some(key)
    ensures |WithoutKey(keyOf, queue, key)| <= |queue|
  {
    if queue != [] {
      WithoutKeyKeeps(keyOf, queue[1..], key, c);
      assert queue == [queue[0]] + queue[1..];
    }
  }

  lemma {:induction false} WithoutTokenKeeps(queue: seq<Capability>, token: nat, c: Capability)
    ensures c in WithoutToken(queue, token) <==> c in queue && c.token != token
    ensures |WithoutToken(queue, token)| <= |queue|
  {
    if queue != [] {
      WithoutTokenKeeps(queue[1..], token, c);
      assert queue == [queue[0]] + queue[1..];
    }
  }

  lemma ReceiveKeeps(keyOf: KeyOf, r: ReverseState, id: RequestId)
    requires ReverseInv(keyOf, r) && ReverseEnabled(keyOf, r, Receive(id))
    ensures ReverseInv(keyOf, ReverseApply(keyOf, r, Receive(id)))
  {
    var r' := ReverseApply(keyOf, r, Receive(id));
    forall c | c in r'.queue ensures Queued(keyOf, r', c) {
      if c in r.queue { assert Queued(keyOf, r, c); }
    }
  }

  lemma AnswerKeeps(keyOf: KeyOf, r: ReverseState, c: Capability)
    requires ReverseInv(keyOf, r) && ReverseEnabled(keyOf, r, Answer(c))
    ensures ReverseInv(keyOf, ReverseApply(keyOf, r, Answer(c)))
  {
    var r' := ReverseApply(keyOf, r, Answer(c));
    WithoutKeyKeeps(keyOf, r.queue, keyOf(c.id).value, c);
    forall d | d in r'.queue ensures Queued(keyOf, r', d) {
      WithoutKeyKeeps(keyOf, r.queue, keyOf(c.id).value, d);
      assert Queued(keyOf, r, d);
    }
    var id := r.active[keyOf(c.id).value].id;
    assert (c.token, id) !in r.answers;
  }

  lemma PeerCancelKeeps(keyOf: KeyOf, r: ReverseState, id: RequestId)
    requires ReverseInv(keyOf, r)
    ensures ReverseInv(keyOf, ReverseApply(keyOf, r, PeerCancel(id)))
  {
    var r' := ReverseApply(keyOf, r, PeerCancel(id));
    if keyOf(id).Some? && keyOf(id).value in r.active {
      var c := r.active[keyOf(id).value];
      WithoutTokenKeeps(r.queue, c.token, c);
      forall d | d in r'.queue ensures Queued(keyOf, r', d) {
        WithoutTokenKeeps(r.queue, c.token, d);
        assert Queued(keyOf, r, d);
      }
    }
  }

  lemma ReverseInvKept(keyOf: KeyOf, r: ReverseState, a: ReverseAction)
    requires ReverseInv(keyOf, r) && ReverseEnabled(keyOf, r, a)
    ensures ReverseInv(keyOf, ReverseApply(keyOf, r, a))
  {
    match a
    case Receive(id) => ReceiveKeeps(keyOf, r, id);
    case Answer(c) => AnswerKeeps(keyOf, r, c);
    case PeerCancel(id) => PeerCancelKeeps(keyOf, r, id);
    case _ =>
  }

  /** A callback that has left its open state never opens again, and keeps the end it got. */
  ghost predicate ReverseLater(r: ReverseState, r': ReverseState) {
    && r.cancelled <= r'.cancelled && r.sent <= r'.sent && r.next <= r'.next && r.answers <= r'.answers
    && (forall t | t in r.received :: t in r'.received && r'.received[t] == r.received[t])
  }

  lemma ReverseStepLater(keyOf: KeyOf, r: ReverseState, a: ReverseAction)
    requires ReverseInv(keyOf, r) && ReverseEnabled(keyOf, r, a)
    ensures ReverseLater(r, ReverseApply(keyOf, r, a))
  {
  }

  /** The queue an answer leaves behind is the old one without exactly the request that was answered. */
  lemma AnswerRemovesOnlyItsRequest(keyOf: KeyOf, r: ReverseState, c: Capability, d: Capability)
    requires ReverseInv(keyOf, r) && ReverseEnabled(keyOf, r, Answer(c))
    ensures d in ReverseApply(keyOf, r, Answer(c)).queue <==> d in r.queue && d.token != c.token
  {
    WithoutKeyKeeps(keyOf, r.queue, keyOf(c.id).value, d);
    if d in r.queue { assert Queued(keyOf, r, d); }
  }

  /** What takes a request of the peer out of the queue. */
  predicate Disposes(keyOf: KeyOf, a: ReverseAction, c: Capability) {
    || a.TakeRequests? || a.CancelAll?
    || (a.Answer? && a.capability.token == c.token)
    || (a.PeerCancel? && keyOf(a.id) == keyOf(c.id))
  }

  lemma QueueAfter(keyOf: KeyOf, r: ReverseState, a: ReverseAction, c: Capability)
    requires ReverseInv(keyOf, r) && ReverseEnabled(keyOf, r, a) && c.token < r.next
    ensures c in ReverseApply(keyOf, r, a).queue <==> c in r.queue && !Disposes(keyOf, a, c)
  {
    match a
    case Answer(d) => AnswerRemovesOnlyItsRequest(keyOf, r, d, c);
    case PeerCancel(id) =>
      if c in r.queue { assert Queued(keyOf, r, c); }
      if keyOf(id).Some? && keyOf(id).value in r.active {
        WithoutTokenKeeps(r.queue, r.active[keyOf(id).value].token, c);
      }
    case _ =>
  }

  /** A request joins the end of the queue under a token of its own. */
  lemma ReceivedIsQueued(keyOf: KeyOf, r: ReverseState, id: RequestId)
    requires ReverseInv(keyOf, r) && ReverseEnabled(keyOf, r, Receive(id))
    ensures var r', c := ReverseApply(keyOf, r, Receive(id)), Capability(id, r.next);
            r'.queue == r.queue + [c] && c in r'.queue && r'.active == r.active[keyOf(id).value := c]
            && c.token < r'.next && c.token !in r.received && IsOpen(r', c.token)
  {
    var r', c := ReverseApply(keyOf, r, Receive(id)), Capability(id, r.next);
    assert r'.queue[|r.queue|] == c;
  }
}
