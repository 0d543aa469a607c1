/** Bounded connection retries: the policy, the sliced wait and the attempt loop. Times count nanoseconds. */
module ConnectionRetry {
  import opened Options

  const MAX_ATTEMPTS: nat := 8
  const MAX_DELAY: nat := 30_000_000_000
  const MAX_ELAPSED: nat := 120_000_000_000
  const SLICE: nat := 25_000_000
  /** `Duration::MAX` in nanoseconds. */
  const DURATION_MAX: nat := 0xFFFF_FFFF_FFFF_FFFF * 1_000_000_000 + 999_999_999

  datatype RetryPolicy = RetryPolicy(maxAttempts: nat, delay: nat, elapsed: Option<nat>)

  datatype RetryError =
    InvalidParams | RequestCancelled | RetryElapsed | PolicyRefused | CleanupUnverified | ConnectFailed(attempt: nat)

  /** `ConnectionRetryPolicy::new` */
  function NewPolicy(maxAttempts: nat, delay: nat, elapsed: nat): Result<RetryPolicy, RetryError> {
    if maxAttempts == 0 || maxAttempts > MAX_ATTEMPTS || delay > MAX_DELAY then Err(InvalidParams)
    else if elapsed == 0 || elapsed > MAX_ELAPSED then Err(InvalidParams)
    else if delay * (maxAttempts - 1) > DURATION_MAX then Err(InvalidParams)
    else if delay * (maxAttempts - 1) > elapsed then Err(InvalidParams)
    else Ok(RetryPolicy(maxAttempts, delay, Some(elapsed)))
  }

  /** A policy is accepted exactly when it is within its limits and all its delays together fit the elapsed limit; the
      product of delay and retries never overflows. */
  lemma AcceptedPolicyFits(maxAttempts: nat, delay: nat, elapsed: nat)
    ensures NewPolicy(maxAttempts, delay, elapsed).Ok?
            <==> 1 <= maxAttempts <= MAX_ATTEMPTS && delay <= MAX_DELAY && 1 <= elapsed <= MAX_ELAPSED
                 && (maxAttempts - 1) * delay <= elapsed
    ensures NewPolicy(maxAttempts, delay, elapsed).Ok? ==>
              var policy := NewPolicy(maxAttempts, delay, elapsed).value;
              policy.maxAttempts == maxAttempts && policy.delay == delay && policy.elapsed == Some(elapsed)
    ensures 1 <= maxAttempts <= MAX_ATTEMPTS && delay <= MAX_DELAY ==> delay * (maxAttempts - 1) <= DURATION_MAX
  {
    if 1 <= maxAttempts <= MAX_ATTEMPTS && delay <= MAX_DELAY {
      Product(delay, MAX_DELAY, maxAttempts - 1, 7);
    }
  }

  lemma Product(a: nat, b: nat, c: nat, d: nat)
    requires a <= b && c <= d
    ensures a * c <= b * d
  {
    assert a * c <= b * c by { assert (b - a) * c >= 0; }
    assert b * c <= b * d by { assert b * (d - c) >= 0; }
  }

  /** What a session did that time or the caller's context can see. */
  datatype Event =
    | Reading(at: nat)
    | Slept(length: nat, until: nat)
    | Checked(live: bool)
    | Budget(left: Option<nat>)
    | Configured(ok: bool)    // the connected client took its timeout policy
    | Closed(verified: bool)  // a connected client was closed again

  predicate Timed(e: Event) { e.Reading? || e.Slept? }

  function TimeOf(e: Event): nat
    requires Timed(e)
  {
    if e.Reading? then e.at else e.until
  }

  /** A look at the caller's context since the `from`-th event said that it is cancelled. */
  ghost predicate Cancelled(log: seq<Event>, from: nat) {
    exists i | from <= i < |log| :: log[i] == Checked(false)
  }

  /** Since the `from`-th event the deadline has come or the budget was found empty. */
  ghost predicate OutOfTime(log: seq<Event>, from: nat, now: nat, deadline: Option<nat>) {
    (deadline.Some? && now >= deadline.value) || exists i | from <= i < |log| :: log[i] == Budget(Some(0))
  }

  /** Time never runs backwards, and a sleep takes at least its length. */
  ghost predicate Ordered(log: seq<Event>, now: nat) {
    && (forall i | 0 <= i < |log| && Timed(log[i]) :: TimeOf(log[i]) <= now)
    && (forall i, j | 0 <= i < j < |log| && Timed(log[i]) && Timed(log[j]) ::
          TimeOf(log[i]) + (if log[j].Slept? then log[j].length else 0) <= TimeOf(log[j]))
  }

  /** The `j`-th event is a reading of the clock, taken since the last sleep before the `i`-th event. */
  ghost predicate ReadSince(log: seq<Event>, j: nat, i: nat) {
    j < i <= |log| && log[j].Reading? && forall k | j < k < i :: !log[k].Slept?
  }

  /** A sleep of a wait that began with the `from`-th event: not empty, at most one slice, and counted from a reading
      taken since the last sleep it ends neither past the deadline nor past the delay. */
  ghost predicate Slice(log: seq<Event>, from: nat, i: nat, started: nat, delay: nat, deadline: Option<nat>)
    requires i < |log| && log[i].Slept?
  {
    && 0 < log[i].length <= SLICE
    && exists j | from <= j < i :: ReadSince(log, j, i) && InTime(log[j].at + log[i].length, started + delay, deadline)
  }

  predicate InTime(at: nat, latest: nat, deadline: Option<nat>) {
    at <= latest && (deadline.Some? ==> at <= deadline.value)
  }

  ghost predicate Slices(log: seq<Event>, from: nat, started: nat, delay: nat, deadline: Option<nat>) {
    forall i | from <= i < |log| && log[i].Slept? :: Slice(log, from, i, started, delay, deadline)
  }

  /** No sleep was added. */
  ghost predicate Awake(log: seq<Event>, log': seq<Event>) {
    log <= log' && forall i | |log| <= i < |log'| :: !log'[i].Slept?
  }

  lemma ReadBefore(log: seq<Event>, log': seq<Event>, j: nat, i: nat)
    requires log <= log' && ReadSince(log, j, i)
    ensures ReadSince(log', j, i) && log'[j] == log[j]
  {
    forall k | j < k < i ensures !log'[k].Slept? { assert log'[k] == log[k]; }
  }

  lemma SliceStays(log: seq<Event>, log': seq<Event>, from: nat, i: nat, started: nat, delay: nat,
                   deadline: Option<nat>)
    requires log <= log' && i < |log| && log[i].Slept? && Slice(log, from, i, started, delay, deadline)
    ensures Slice(log', from, i, started, delay, deadline)
  {
    hide InTime;
    var j :| from <= j < i && ReadSince(log, j, i) && InTime(log[j].at + log[i].length, started + delay, deadline);
    ReadBefore(log, log', j, i);
  }

  lemma StillSliced(log: seq<Event>, log': seq<Event>, from: nat, started: nat, delay: nat, deadline: Option<nat>)
    requires Slices(log, from, started, delay, deadline) && Awake(log, log')
    ensures Slices(log', from, started, delay, deadline)
  {
    hide Slice;
    forall i | from <= i < |log'| && log'[i].Slept? ensures Slice(log', from, i, started, delay, deadline) {
      SliceStays(log, log', from, i, started, delay, deadline);
    }
  }

  lemma OneMoreSlice(log: seq<Event>, e: Event, j: nat, from: nat, started: nat, delay: nat, deadline: Option<nat>)
    requires Slices(log, from, started, delay, deadline)
    requires e.Slept? && 0 < e.length <= SLICE && from <= j && ReadSince(log, j, |log|)
    requires InTime(log[j].at + e.length, started + delay, deadline)
    ensures Slices(log + [e], from, started, delay, deadline)
  {
    hide InTime, ReadSince;
    var log' := log + [e];
    ReadBefore(log, log', j, |log|);
    forall i | from <= i < |log| && log[i].Slept? ensures Slice(log', from, i, started, delay, deadline) {
      SliceStays(log, log', from, i, started, delay, deadline);
    }
  }

  lemma NoSleepYet(log: seq<Event>, started: nat, delay: nat, deadline: Option<nat>)
    ensures Slices(log, |log|, started, delay, deadline)
  {
  }

  /** An attempt to connect: when it began, when it ended and how. */
  datatype Try = Try(from: nat, until: nat, outcome: Outcome)
  datatype Outcome = Connected | Unverified | Failed

  /** Each attempt comes after failed ones only, a full delay after their end. */
  ghost predicate Spaced(tries: seq<Try>, delay: nat) {
    && (forall i | 0 <= i < |tries| :: tries[i].from <= tries[i].until)
    && (forall i, j | 0 <= i < j < |tries| ::
          tries[i].outcome == Failed && tries[i].until + delay <= tries[j].from)
  }

  lemma NoTryYet(delay: nat)
    ensures Spaced([], delay)
  {
  }

  lemma OneMoreTry(tries: seq<Try>, t: Try, delay: nat)
    requires Spaced(tries, delay) && t.from <= t.until
    requires tries != [] ==> tries[|tries| - 1].outcome == Failed && tries[|tries| - 1].until + delay <= t.from
    ensures Spaced(tries + [t], delay)
  {
    forall i | 0 <= i < |tries|
      ensures tries[i].outcome == Failed && tries[i].until + delay <= t.from
    {
      var last := tries[|tries| - 1];
      assert last.from <= last.until;
      if i < |tries| - 1 { assert tries[i].until + delay <= last.from; }
    }
  }

  lemma StillUncancelled(log: seq<Event>, log': seq<Event>, from: nat)
    requires log <= log' && from <= |log| && !Cancelled(log, from)
    ensures Cancelled(log', from) <==> Cancelled(log', |log|)
  {
    forall i | from <= i < |log| ensures log'[i] == log[i] {}
  }

  lemma LaterOutOfTime(log: seq<Event>, from: nat, later: nat, now: nat, deadline: Option<nat>)
    requires from <= later
    ensures OutOfTime(log, later, now, deadline) ==> OutOfTime(log, from, now, deadline)
  {
  }

  /** How long one round sleeps: the remaining delay, but at most one slice, the remaining deadline and the budget. */
  function Shortest(remaining: nat, reading: nat, deadline: Option<nat>, budget: Option<nat>): (length: nat)
    ensures length <= SLICE && length <= remaining
    ensures length > 0 && deadline.Some? ==> reading + length <= deadline.value
    ensures length == SLICE || length == remaining || Some(length) == budget
            || (deadline.Some? && length == if reading < deadline.value then deadline.value - reading else 0)
    ensures budget.Some? ==> length <= budget.value
    ensures remaining > 0 && length == 0 && (deadline.Some? ==> reading < deadline.value) ==> budget == Some(0)
  {
    var slice := if remaining < SLICE then remaining else SLICE;
    var left := if deadline.None? then slice else if deadline.value <= reading then 0 else deadline.value - reading;
    var timed := if left < slice then left else slice;
    if budget.Some? && budget.value < timed then budget.value else timed
  }

  /** What one round of the wait decides. */
  datatype Round = Done(result: Result<(), RetryError>) | SleepFor(length: nat)

  /** A monotone clock that a sleep advances by at least its length. `log` is written by every reading, sleep and look
      at the caller's context, `tries` by every attempt. */
  class Session {
    var now: nat
    ghost var log: seq<Event>
    ghost var tries: seq<Try>

    ghost predicate Valid()
      reads this
    {
      Ordered(log, now)
    }

    constructor ()
      ensures Valid() && log == [] && tries == []
    {
      now, log, tries := *, [], [];
    }

    method Read() returns (t: nat)
      requires Valid()
      modifies this`now, this`log
      ensures Valid() && t == now >= old(now) && log == old(log) + [Reading(t)]
    {
      var later: nat :| later >= now;
      now, log := later, log + [Reading(later)];
      return now;
    }

    method Sleep(length: nat)
      requires Valid()
      modifies this`now, this`log
      ensures Valid() && now >= old(now) + length && log == old(log) + [Slept(length, now)]
    {
      var later: nat :| later >= now + length;
      now, log := later, log + [Slept(length, later)];
    }

    /** Whether the caller's context is still live. */
    method Checkpoint() returns (live: bool)
      requires Valid()
      modifies this`log
      ensures Valid() && log == old(log) + [Checked(live)]
    {
      live := *;
      log := log + [Checked(live)];
    }

    /** What is left of the caller's budget. */
    method RemainingBudget() returns (left: Option<nat>)
      requires Valid()
      modifies this`log
      ensures Valid() && log == old(log) + [Budget(left)]
    {
      left := *;
      log := log + [Budget(left)];
    }

    /** `ConnectionRetryDeadline::expired` */
    method Expired(deadline: Option<nat>) returns (expired: bool)
      requires Valid()
      modifies this`now, this`log
      ensures Valid() && now >= old(now) && (expired <==> deadline.Some? && now >= deadline.value)
      ensures log == if deadline.None? then old(log) else old(log) + [Reading(now)]
    {
      if deadline.None? { return false; }
      var t := Read();
      expired := t >= deadline.value;
    }

    /** `wait_for_connection_retry`: it ends under every clock that its own sleeps advance. Counted from a reading of
        the clock taken since its last sleep, no sleep it asks for exceeds one slice, the remaining delay or the
        remaining deadline. It succeeds only after the whole delay, is cancelled exactly when a look at the context says
        so, and gives up only at the deadline or without budget. */
    method WaitForRetry(delay: nat, deadline: Option<nat>) returns (r: Result<(), RetryError>, ghost started: nat)
      requires Valid()
      modifies this`now, this`log
      ensures Valid() && old(now) <= started <= now && old(log) < log
      ensures Slices(log, |old(log)|, started, delay, deadline)
      ensures r.Ok? ==> now >= started + delay
      ensures r == Err(RequestCancelled) <==> Cancelled(log, |old(log)|)
      ensures r == Err(RequestCancelled) ==> log[|log| - 1] == Checked(false)
      ensures r == Err(RetryElapsed) ==> OutOfTime(log, |old(log)|, now, deadline)
      ensures r.Err? ==> r.error == RequestCancelled || r.error == RetryElapsed
    {
      hide Ordered, Slices;
      started := now;
      assert Slices(log, |log|, started, delay, deadline) by { NoSleepYet(log, started, delay, deadline); }
      var live := Checkpoint();
      StillSliced(old(log), log, |old(log)|, started, delay, deadline);
      assert log[|old(log)|] == Checked(live);
      if !live { return Err(RequestCancelled), now; }
      var first := Read();
      started := first;
      NoSleepYet(old(log), started, delay, deadline);
      StillSliced(old(log), log, |old(log)|, started, delay, deadline);
      while true
        invariant Valid() && started == first <= now && old(log) < log
        invariant Slices(log, |old(log)|, started, delay, deadline) && !Cancelled(log, |old(log)|)
        decreases if now - first >= delay then 0 else delay - (now - first)
      {
        ghost var before := log;
        var round;
        ghost var read;
        round, read := NextSlice(first, delay, deadline);
        StillSliced(before, log, |old(log)|, started, delay, deadline);
        if round.Done? { return round.result, started; }
        before := log;
        Sleep(round.length);
        OneMoreSlice(before, log[|before|], read, |old(log)|, started, delay, deadline);
      }
    }

    /** One round of the wait: it is over, or it goes to sleep for a while. */
    method NextSlice(first: nat, delay: nat, deadline: Option<nat>) returns (round: Round, ghost read: nat)
      requires Valid() && first <= now
      modifies this`now, this`log
      ensures Valid() && now >= old(now) && Awake(old(log), log) && |old(log)| < |log|
      ensures round.SleepFor? ==>
                |old(log)| <= read && ReadSince(log, read, |log|) && old(now) <= log[read].at
                && 0 < round.length <= SLICE && InTime(log[read].at + round.length, first + delay, deadline)
      ensures Cancelled(log, |old(log)|) <==> round == Done(Err(RequestCancelled))
      ensures round.Done? ==>
                var r := round.result;
                && (r.Ok? ==> now >= first + delay)
                && (r == Err(RequestCancelled) ==> log[|log| - 1] == Checked(false))
                && (r == Err(RetryElapsed) ==> OutOfTime(log, |old(log)|, now, deadline))
                && (r.Err? ==> r.error == RequestCancelled || r.error == RetryElapsed)
    {
      hide Ordered;
      var live := Checkpoint();
      read := |log|;
      assert log[|old(log)|] == Checked(live);
      if !live { return Done(Err(RequestCancelled)), read; }
      var reading := Read();
      var expired := Expired(deadline);
      if expired { return Done(Err(RetryElapsed)), read; }
      var remaining := if reading - first >= delay then 0 else delay - (reading - first);
      if remaining == 0 { return Done(Ok(())), read; }
      var budget := RemainingBudget();
      var length := Shortest(remaining, reading, deadline, budget);
      if length == 0 {
        live := Checkpoint();
        assert log[|log| - 2] == Budget(Some(0)) && log[|log| - 1] == Checked(live);
        return Done(Err(if live then RetryElapsed else RequestCancelled)), read;
      }
      return SleepFor(length), read;
    }

    /** The attempt loop of `connect_stdio_with_cx`: at most as many attempts as the policy allows, each later one a
        full delay after the end of a failed one. It succeeds only with the configured connection of the last attempt,
        is cancelled exactly when a look at the context says so and no cleanup fails, gives up only when it is out of
        time, and reports the failure of an attempt only when all of them have failed. A connection that it does not
        return was closed. */
    method Connect(policy: RetryPolicy, deadline: Option<nat>) returns (r: Result<(), RetryError>)
      requires Valid() && tries == []
      modifies this
      ensures Valid() && old(log) <= log && |tries| <= policy.maxAttempts && Spaced(tries, policy.delay)
      ensures r.Ok? ==> tries != [] && tries[|tries| - 1].outcome == Connected
                        && log != [] && log[|log| - 1] == Configured(true)
      ensures r.Err? && tries != [] && tries[|tries| - 1].outcome == Connected ==>
                log != [] && log[|log| - 1].Closed?
      ensures r == Err(RequestCancelled) <==> Cancelled(log, |old(log)|) && r != Err(CleanupUnverified)
      ensures r == Err(CleanupUnverified) <==>
                tries != []
                && (tries[|tries| - 1].outcome == Unverified
                    || (tries[|tries| - 1].outcome == Connected && log != [] && log[|log| - 1] == Closed(false)))
      ensures r == Err(RetryElapsed) ==> OutOfTime(log, |old(log)|, now, deadline)
      ensures r == Err(PolicyRefused) ==> |log| >= 2 && log[|log| - 2] == Configured(false)
      ensures r.Err? && r.error.ConnectFailed? && policy.maxAttempts > 0 ==>
                |tries| == policy.maxAttempts == r.error.attempt + 1 && tries[r.error.attempt].outcome == Failed
      ensures r != Err(InvalidParams)
    {
      hide Ordered, Slices, Spaced, TimeOf, Timed;
      NoTryYet(policy.delay);
      var last: Option<RetryError> := None;
      for attempt := 0 to policy.maxAttempts
        invariant Valid() && |tries| == attempt && Spaced(tries, policy.delay)
        invariant old(log) <= log && !Cancelled(log, |old(log)|)
        invariant attempt == 0 ==> last.None?
        invariant attempt > 0 ==> last == Some(ConnectFailed(attempt - 1)) && tries[attempt - 1].outcome == Failed
                                  && tries[attempt - 1].until <= now
      {
        var stop := BeforeAttempt(attempt > 0, policy.delay, deadline);
        if stop.Some? { return Err(stop.value); }
        var outcome;
        ghost var from, before := now, tries;
        outcome, from := Attempt();
        OneMoreTry(before, tries[attempt], policy.delay);
        match outcome {
          case Connected =>
            r := Admit(deadline);
            return;
          case Unverified => return Err(CleanupUnverified);
          case Failed =>
            last := Some(ConnectFailed(attempt));
            var expired := Expired(deadline);
            if expired { return Err(RetryElapsed); }
        }
      }
      return Err(if last.Some? then last.value else ConnectFailed(0));
    }

    /** What may end the loop before an attempt: the context, the deadline, or the wait after a failed attempt. */
    method BeforeAttempt(retries: bool, delay: nat, deadline: Option<nat>) returns (stop: Option<RetryError>)
      requires Valid()
      modifies this`now, this`log
      ensures Valid() && old(log) <= log && old(now) <= now
      ensures stop.Some? ==> stop.value == RequestCancelled || stop.value == RetryElapsed
      ensures stop == Some(RequestCancelled) <==> Cancelled(log, |old(log)|)
      ensures stop == Some(RetryElapsed) ==> OutOfTime(log, |old(log)|, now, deadline)
      ensures stop.None? && retries ==> now >= old(now) + delay
    {
      hide Ordered, Slices, TimeOf, Timed;
      var live := Checkpoint();
      assert log[|old(log)|] == Checked(live);
      if !live { return Some(RequestCancelled); }
      var expired := Expired(deadline);
      if expired { return Some(RetryElapsed); }
      ghost var before := log;
      if retries {
        var waited;
        ghost var started;
        waited, started := WaitForRetry(delay, deadline);
        StillUncancelled(before, log, |old(log)|);
        if waited.Err? {
          LaterOutOfTime(log, |old(log)|, |before|, now, deadline);
          return Some(waited.error);
        }
      }
      return None;
    }

    /** A connected client is returned when the context is live, time is left and the policy fits; else it is closed. */
    method Admit(deadline: Option<nat>) returns (r: Result<(), RetryError>)
      requires Valid()
      modifies this`now, this`log
      ensures Valid() && old(log) < log && old(now) <= now
      ensures if r.Ok? then log[|log| - 1] == Configured(true) else log[|log| - 1].Closed?
      ensures r == Err(CleanupUnverified) <==> log[|log| - 1] == Closed(false)
      ensures r == Err(RequestCancelled) <==> Cancelled(log, |old(log)|) && log[|log| - 1] != Closed(false)
      ensures r == Err(RetryElapsed) ==> deadline.Some? && now >= deadline.value
      ensures r == Err(PolicyRefused) ==> |log| >= 2 && log[|log| - 2] == Configured(false)
      ensures r.Err? ==> r.error in {RequestCancelled, RetryElapsed, PolicyRefused, CleanupUnverified}
    {
      hide Ordered;
      var failure: Option<RetryError> := None;
      var live := Checkpoint();
      if !live {
        failure := Some(RequestCancelled);
      } else {
        var expired := Expired(deadline);
        if expired {
          failure := Some(RetryElapsed);
        } else {
          var ok := Configure();
          if ok { return Ok(()); }
          failure := Some(PolicyRefused);
        }
      }
      var verified := Close();
      assert log[|old(log)|] == Checked(live);
      return Err(if verified then failure.value else CleanupUnverified);
    }

    /** `set_request_timeout_policy` */
    method Configure() returns (ok: bool)
      requires Valid()
      modifies this`log
      ensures Valid() && log == old(log) + [Configured(ok)]
    {
      ok := *;
      log := log + [Configured(ok)];
    }

    /** `close_with_cx`, and whether the cleanup could be verified. */
    method Close() returns (verified: bool)
      requires Valid()
      modifies this`log
      ensures Valid() && log == old(log) + [Closed(verified)]
    {
      verified := *;
      log := log + [Closed(verified)];
    }

    /** One attempt takes some time and connects or fails, perhaps without having cleaned up. */
    method Attempt() returns (outcome: Outcome, ghost from: nat)
      requires Valid()
      modifies this
      ensures Valid() && old(now) <= from <= now && tries == old(tries) + [Try(from, now, outcome)]
      ensures old(log) <= log && forall i | |old(log)| <= i < |log| :: log[i].Reading?
    {
      hide Ordered;
      outcome := *;
      var begun := Read();
      var until := Read();
      from, tries := begun, tries + [Try(begun, until, outcome)];
    }
  }
}
