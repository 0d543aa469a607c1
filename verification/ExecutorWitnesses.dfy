/** Runs that show where a stronger statement about the executor would be false. */
module ExecutorWitnesses {
  import opened Options
  import opened Correlation
  import opened ExecutorProtocol
  import opened ExecutorRuns

  const KEY := IntegerKey("1")
  const ID := NumberId(1)

  const MILLISECOND: nat := 1_000_000
  const SECOND: nat := 1_000 * MILLISECOND
  const LAST_INSTANT: nat := 10 * TERMINAL_RETENTION

  /** An executor with the retention and the in-flight limit of the source. */
  function ConfigFor(maxCorrelations: nat): Config {
    Config((id: RequestId) => if id == ID then Some(KEY) else None, (id: RequestId) => true, TERMINAL_RETENTION, 1_024,
           maxCorrelations, LAST_INSTANT)
  }

  /** `RequestTimeoutPolicy::new` accepts the policy. */
  predicate OrdinaryPolicy(o: Order) {
    MILLISECOND <= o.idle <= 300 * SECOND && MILLISECOND <= o.absolute <= 900 * SECOND
  }

  /** `from_application_timeout_ms` accepts the policy at the instant `at`. */
  predicate ApplicationPolicy(cfg: Config, o: Order, at: nat) {
    o.idle == o.absolute >= MILLISECOND && o.idle % MILLISECOND == 0 && !o.resets && Fits(cfg, at, o.idle)
  }

  /** A request with the default policy. */
  const DEFAULT_ORDER := Order(ID, ToolsCall, None, 30 * SECOND, 120 * SECOND, true)

  /** The first request of a connection, sent and owned. */
  const FIRST: seq<Action> := [SendOwned(KEY, DEFAULT_ORDER, 0)]

  lemma FirstRuns(cfg: Config)
    requires cfg.maxCorrelations > 0 && cfg == ConfigFor(cfg.maxCorrelations)
    ensures After(cfg, FIRST) == Some(ApplyOwn(INITIAL, KEY, DEFAULT_ORDER, 0))
  {
    AfterEmpty(cfg);
    AfterStep(cfg, [], FIRST[0]);
    assert [] + [FIRST[0]] == FIRST;
  }

  /** The sum that admission tests against the limit can exceed the limit afterwards. */
  lemma AdmissionSumCanExceedLimit() returns (cfg: Config, trace: seq<Action>, s: State)
    ensures After(cfg, trace) == Some(s)
    ensures |s.pending| + |s.tombstones| + |s.completed| > cfg.maxCorrelations
  {
    hide After;
    cfg := ConfigFor(1);
    FirstRuns(cfg);
    var s0 := After(cfg, FIRST).value;
    var a := Retire(KEY, Answered(""), 0);
    AfterStep(cfg, FIRST, a);
    trace, s := FIRST + [a], Apply(cfg, s0, a);
    assert s.tombstones.Keys == {KEY} && s.completed.Keys == {(ID, 1)};
    assert |s.tombstones| == |s.tombstones.Keys| && |s.completed| == |s.completed.Keys|;
  }

  /** A policy that fits the clock when it is made need not fit when the request goes out. Then the transport takes a
      request that gets no owner, so that its key stays open, and the next request under that key is completed at once
      by what may be the response to the first. */
  lemma OrphanedRequestLeavesKeyOpen() returns (cfg: Config, trace: seq<Action>)
    ensures cfg == ConfigFor(4_096) && IsRun(cfg, trace) && |trace| == 4
    ensures trace[0].Tick? && trace[1].SendUnowned? && trace[1].key == KEY && trace[1].taken
    ensures ApplicationPolicy(cfg, trace[1].order, 0) && !Fits(cfg, trace[1].at, trace[1].order.idle)
    ensures trace[2].SendOwned? && trace[2].key == KEY && OrdinaryPolicy(trace[2].order)
    ensures trace[3].Retire? && trace[3].key == KEY && trace[3].cause.Answered?
    ensures var s := StateAt(cfg, trace, 3); KEY in s.pending && s.pending[KEY].generation == 2 && !Remembered(s, 1)
  {
    hide After, Enabled, Apply, MaySend, MayRetire, ApplyOwn, ApplySend, Lasts, ApplyRetire;
    cfg := ConfigFor(4_096);
    var s := OrphanSent(cfg);
    OrphanReplaced(cfg, s);
    var a, b := SendOwned(KEY, DEFAULT_ORDER, SECOND), Retire(KEY, Answered(""), SECOND);
    trace := ORPHAN + [a, b];
    assert ORPHAN + [a] == trace[..3] && trace[..3] + [b] == trace;
    OwnStep(cfg, s, KEY, DEFAULT_ORDER, SECOND);
    AfterStep(cfg, ORPHAN, a);
    RetireStep(cfg, ApplyOwn(s, KEY, DEFAULT_ORDER, SECOND), KEY, Answered(""), SECOND);
    AfterStep(cfg, trace[..3], b);
  }

  lemma OrphanReplaced(cfg: Config, s: State)
    requires cfg == ConfigFor(4_096) && s == ApplySend(INITIAL.(clock := SECOND), KEY, LONG_ORDER, true, SECOND)
    ensures MaySend(cfg, s, KEY, DEFAULT_ORDER, SECOND) && Lasts(cfg, DEFAULT_ORDER, SECOND)
    ensures var t := ApplyOwn(s, KEY, DEFAULT_ORDER, SECOND);
            MayRetire(cfg, t, KEY, Answered("")) && t.clock == SECOND
            && KEY in t.pending && t.pending[KEY].generation == 2 && !Remembered(t, 1)
  {
  }

  const LONG_ORDER := Order(ID, ToolsCall, None, LAST_INSTANT, LAST_INSTANT, false)

  const ORPHAN: seq<Action> := [Tick(SECOND), SendUnowned(KEY, LONG_ORDER, true, SECOND)]

  lemma OrphanSent(cfg: Config) returns (s: State)
    requires cfg == ConfigFor(4_096)
    ensures After(cfg, ORPHAN) == Some(s) && s == ApplySend(INITIAL.(clock := SECOND), KEY, LONG_ORDER, true, SECOND)
  {
    hide After, Enabled, Apply;
    s := ApplySend(INITIAL.(clock := SECOND), KEY, LONG_ORDER, true, SECOND);
    AfterEmpty(cfg);
    assert [] + [ORPHAN[0]] == [ORPHAN[0]] && [ORPHAN[0]] + [ORPHAN[1]] == ORPHAN;
    TickStep(cfg, INITIAL, SECOND);
    AfterStep(cfg, [], ORPHAN[0]);
    SendStep(cfg, INITIAL.(clock := SECOND), KEY, LONG_ORDER, true, SECOND);
    AfterStep(cfg, [ORPHAN[0]], ORPHAN[1]);
  }

  lemma AfterEmpty(cfg: Config)
    ensures After(cfg, []) == Some(INITIAL)
  {
  }

  /** Generation 1 was cancelled, its tombstone has just expired, its outcome has not. */
  lemma TombstoneExpiresFirst() returns (cfg: Config, trace: seq<Action>, s: State)
    ensures cfg == ConfigFor(4_096) && After(cfg, trace) == Some(s)
    ensures s.tombstones == map[] && s.pending == map[] && s.completed.Keys == {(ID, 1)} && s.deferred == []
    ensures s.nextGeneration == 1 && s.clock == TERMINAL_RETENTION && s.terminalError.None? && !s.shutdown
  {
    hide After;
    cfg := ConfigFor(4_096);
    FirstRuns(cfg);
    var s0 := After(cfg, FIRST).value;
    var a1 := Retire(KEY, Abandoned(CallerCancelled, Some(ID), ""), 1);
    AfterStep(cfg, FIRST, a1);
    var s1, t1 := Apply(cfg, s0, a1), FIRST + [a1];
    var a2 := Tick(TERMINAL_RETENTION);
    AfterStep(cfg, t1, a2);
    var s2, t2 := Apply(cfg, s1, a2), t1 + [a2];
    AfterStep(cfg, t2, PruneTombstones);
    trace, s := t2 + [PruneTombstones], Apply(cfg, s2, PruneTombstones);
  }

  /** A handle of generation 1 that still waits for its outcome, while its id is owned by generation 2: cancelling
      through that handle, which looks up the id only, cancels generation 2. */
  lemma StaleHandleNamesLaterOwner() returns (cfg: Config, trace: seq<Action>, s: State)
    ensures After(cfg, trace) == Some(s)
    ensures (ID, 1) in s.completed
    ensures cfg.keyOf(ID) == Some(KEY) && KEY in s.pending && s.pending[KEY].generation == 2
  {
    hide After;
    var t0, s0;
    cfg, t0, s0 := TombstoneExpiresFirst();
    assert |s0.completed| == |s0.completed.Keys| == 1;
    var a := SendOwned(KEY, DEFAULT_ORDER, s0.clock);
    AfterStep(cfg, t0, a);
    trace, s := t0 + [a], Apply(cfg, s0, a);
  }
}
