/** Modern-first HTTP negotiation and the coordinator of its one legacy fallback. */
module HttpFallback {
  import opened Options

  // ----- Classification of one probe -----

  datatype Policy = LegacyOnly | ModernOnly | Auto

  datatype Body = Empty | RecognizedModernJsonRpc | Unrecognized | TransportFailure

  datatype Probe = Probe(status: nat, body: Body)

  datatype Decision = ModernSelected | LegacyFallbackAuthorized

  datatype ProbeError = ForbiddenForLegacyOnly | AlreadyDispatched | FailedTransport | Rejected(status: nat, body: Body)

  datatype Era = Modern2026 | Legacy2024

  /** `preflight_probe` */
  function Preflight(policy: Policy, probe: Probe): Result<Decision, ProbeError> {
    if policy == LegacyOnly then Err(ForbiddenForLegacyOnly)
    else if probe.body == RecognizedModernJsonRpc then Ok(ModernSelected)
    else if policy == Auto && probe.status in {400, 404, 405} && probe.body in {Empty, Unrecognized}
    then Ok(LegacyFallbackAuthorized)
    else if probe.body == TransportFailure then Err(FailedTransport)
    else Err(Rejected(probe.status, probe.body))
  }

  /** A status that a server without the modern endpoint answers with, and no body that says otherwise. */
  predicate Downgradable(probe: Probe) {
    (probe.status == 400 || probe.status == 404 || probe.status == 405)
    && (probe.body == Empty || probe.body == Unrecognized)
  }

  /** `ClientHttpNegotiation`: one probe for one attempt. */
  class Negotiation {
    const policy: Policy
    var dispatched: bool
    var selected: Option<Era>
    var fallbackAuthorized: bool

    ghost predicate Valid()
      reads this
    {
      && (selected.Some? ==> dispatched && selected == Some(Modern2026) && !fallbackAuthorized)
      && (fallbackAuthorized ==> dispatched && policy == Auto)
    }

    constructor (policy: Policy)
      ensures Valid() && this.policy == policy && !dispatched && selected.None? && !fallbackAuthorized
    {
      this.policy, dispatched, selected, fallbackAuthorized := policy, false, None, false;
    }

    /** `observe_modern_probe`: an authorization is never a selection of the legacy era, and a second probe changes
        nothing. */
    method ObserveModernProbe(probe: Probe) returns (r: Result<Decision, ProbeError>)
      requires Valid()
      modifies this
      ensures Valid() && dispatched
      ensures old(dispatched) ==> r == Err(AlreadyDispatched) && selected == old(selected)
                                  && fallbackAuthorized == old(fallbackAuthorized)
      ensures !old(dispatched) ==>
                match policy
                case LegacyOnly => r == Err(ForbiddenForLegacyOnly)
                case _ =>
                  match probe.body
                  case RecognizedModernJsonRpc => r == Ok(ModernSelected)
                  case TransportFailure => r == Err(FailedTransport)
                  case _ => r == if policy == Auto && Downgradable(probe) then Ok(LegacyFallbackAuthorized)
                                 else Err(Rejected(probe.status, probe.body))
      ensures !old(dispatched) ==> (selected == if r == Ok(ModernSelected) then Some(Modern2026) else None)
                                   && (fallbackAuthorized <==> r == Ok(LegacyFallbackAuthorized))
    {
      if dispatched { return Err(AlreadyDispatched); }
      dispatched := true;
      r := Preflight(policy, probe);
      if r.Err? { return; }
      match r.value
      case ModernSelected => selected := Some(Modern2026);
      case LegacyFallbackAuthorized => fallbackAuthorized := true;
    }
  }

  // ----- Admissible endpoint targets -----

  /** What `str::trim` removes. */
  predicate Space(c: char) {
    var n := c as int;
    9 <= n <= 13 || n == 32 || n == 0x85 || n == 0xA0 || n == 0x1680 || 0x2000 <= n <= 0x200A
    || n == 0x2028 || n == 0x2029 || n == 0x202F || n == 0x205F || n == 0x3000
  }

  function Trim(s: string): (r: string)
    ensures r != "" ==> !Space(r[0]) && !Space(r[|r| - 1])
    decreases |s|
  {
    if s != "" && Space(s[0]) then Trim(s[1..])
    else if s != "" && Space(s[|s| - 1]) then Trim(s[..|s| - 1])
    else s
  }

  /** What is left is a part of the text, and only white space is gone. */
  lemma {:induction false} TrimRemovesSpace(s: string) returns (i: nat, j: nat)
    ensures i <= j <= |s| && Trim(s) == s[i..j] && forall k | 0 <= k < |s| && !(i <= k < j) :: Space(s[k])
    decreases |s|
  {
    if s != "" && Space(s[0]) {
      i, j := TrimRemovesSpace(s[1..]);
      assert s[1..][i..j] == s[i + 1..j + 1];
      forall k | 0 <= k < |s| && !(i + 1 <= k < j + 1) ensures Space(s[k]) {
        if k > 0 { assert s[k] == s[1..][k - 1]; }
      }
      i, j := i + 1, j + 1;
    } else if s != "" && Space(s[|s| - 1]) {
      i, j := TrimRemovesSpace(s[..|s| - 1]);
      forall k | 0 <= k < |s| && !(i <= k < j) ensures Space(s[k]) {
        if k < |s| - 1 { assert s[k] == s[..|s| - 1][k]; }
      }
    } else {
      i, j := 0, |s|;
    }
  }

  /** Position of the first question mark. */
  function FirstQuery(s: string): (r: Option<nat>)
    ensures r.Some? ==> r.value < |s| && s[r.value] == '?' && '?' !in s[..r.value]
    ensures r.None? ==> '?' !in s
  {
    if s == "" then None
    else if s[0] == '?' then Some(0)
    else
      var rest := FirstQuery(s[1..]);
      if rest.None? then None else Some(rest.value + 1)
  }

  /** `advertised_target_is_admissible` */
  predicate Admissible(configured: string, advertised: string) {
    advertised == configured
    || (var q := FirstQuery(advertised);
        q.Some? && advertised[q.value + 1..] != "" && advertised[..q.value] == configured && '?' !in configured)
  }

  /** Scheme, authority and path never change: an admitted target is the configured one, or the configured one without
      a query extended by a non-empty query. */
  lemma AdmissibleExactly(configured: string, advertised: string)
    ensures Admissible(configured, advertised)
            <==> advertised == configured
                 || ('?' !in configured && exists query: string | query != "" :: advertised == configured + "?" + query)
  {
    if Admissible(configured, advertised) && advertised != configured {
      var q := FirstQuery(advertised).value;
      assert advertised == configured + "?" + advertised[q + 1..];
    }
    forall query: string | query != "" && advertised == configured + "?" + query && '?' !in configured
      ensures Admissible(configured, advertised)
    {
      QueryStarts(configured, query);
      assert advertised[..|configured|] == configured && advertised[|configured| + 1..] == query;
    }
  }

  lemma {:induction false} QueryStarts(base: string, query: string)
    requires '?' !in base
    ensures FirstQuery(base + "?" + query) == Some(|base|)
  {
    if base != "" {
      assert base[0] in base;
      QueryStarts(base[1..], query);
      assert (base + "?" + query)[1..] == base[1..] + "?" + query;
    }
  }

  // ----- The coordinator -----

  type BundleKey = string

  datatype Observation = Observation(bundle: BundleKey, target: string, attempt: nat, probe: Probe)

  datatype Permit = Permit(target: string, attempt: nat)

  datatype FallbackState = FallbackState(
    observations: nat, authorized: nat, gets: nat, endpoints: nat, era: Option<Era>)

  datatype FallbackError =
    | CrossBundle | TargetMismatch | Replayed(attempt: nat) | AlreadyAdmitted(attempt: nat) | Ineligible(probe: Probe)
    | AlreadyOpened | EndpointWithoutAuthorization | DuplicateEndpoint | EndpointMalformed | EndpointMismatch

  datatype Outcome = ModernRetained | GetAuthorized(permit: Permit)

  class Coordinator {
    const bundle: BundleKey
    const modernTarget: string
    const legacyTarget: string
    var state: FallbackState
    var settled: Option<nat>
    ghost var probe: Option<Probe>        // the admitted observation
    ghost var permits: multiset<Permit>   // issued here and not yet used
    ghost var foreign: bool               // the GET was opened with a permit that was not issued here

    /** Each stage happens at most once and only after the one before it. A GET is authorized exactly by a probe that
        allows the downgrade, and opened only when authorized or with a permit of another coordinator; the legacy era is
        selected exactly by an endpoint event. */
    ghost predicate Valid()
      reads this
    {
      && state.endpoints <= state.gets <= state.observations <= 1 && state.authorized <= state.observations
      && (state.era == if state.endpoints == 1 then Some(Legacy2024) else None)
      && (settled.Some? <==> state.observations == 1) && (probe.Some? <==> state.observations == 1)
      && (state.authorized == 1 <==> probe.Some? && Downgradable(probe.value))
      && (probe.Some? && !Downgradable(probe.value) ==> probe.value.body == RecognizedModernJsonRpc)
      && (foreign ==> state.gets == 1) && (state.gets == 1 ==> foreign || state.authorized == 1)
      && |permits| + (if state.gets == 1 && !foreign then 1 else 0) <= state.authorized
      && (forall p | p in permits :: settled == Some(p.attempt) && p.target == legacyTarget)
    }

    constructor (bundle: BundleKey, modernTarget: string, legacyTarget: string)
      ensures Valid() && state == FallbackState(0, 0, 0, 0, None) && settled.None? && probe.None?
      ensures permits == multiset{} && !foreign
      ensures this.bundle == bundle && this.modernTarget == modernTarget && this.legacyTarget == legacyTarget
    {
      this.bundle, this.modernTarget, this.legacyTarget := bundle, modernTarget, legacyTarget;
      state, settled := FallbackState(0, 0, 0, 0, None), None;
      probe, permits, foreign := None, multiset{}, false;
    }

    /** `observe`: only a settled decision of the classifier changes anything. */
    method Observe(o: Observation) returns (r: Result<Outcome, FallbackError>)
      requires Valid()
      modifies this
      ensures Valid() && foreign == old(foreign)
      ensures r.Ok? <==> o.bundle == bundle && o.target == modernTarget && old(settled).None?
                         && (Downgradable(o.probe) || o.probe.body == RecognizedModernJsonRpc)
      ensures r.Err? ==> state == old(state) && settled == old(settled) && probe == old(probe)
                         && permits == old(permits)
      ensures r.Ok? ==> settled == Some(o.attempt) && probe == Some(o.probe)
                        && (r.value.GetAuthorized? <==> Downgradable(o.probe))
                        && state == old(state).(observations := 1,
                                                authorized := if r.value.GetAuthorized? then 1 else 0)
                        && (r.value.GetAuthorized? ==> r.value.permit == Permit(legacyTarget, o.attempt))
                        && permits == if r.value.GetAuthorized? then multiset{r.value.permit} else multiset{}
    {
      if o.bundle != bundle { return Err(CrossBundle); }
      if o.target != modernTarget { return Err(TargetMismatch); }
      if settled.Some? {
        return Err(if settled.value == o.attempt then Replayed(o.attempt) else AlreadyAdmitted(settled.value));
      }
      var negotiation := new Negotiation(Auto);
      var decision := negotiation.ObserveModernProbe(o.probe);
      if decision.Err? { return Err(Ineligible(o.probe)); }
      assert permits == multiset{};
      settled, probe, state := Some(o.attempt), Some(o.probe), state.(observations := state.observations + 1);
      match decision.value
      case ModernSelected => r := Ok(ModernRetained);
      case LegacyFallbackAuthorized =>
        var permit := Permit(legacyTarget, o.attempt);
        state, permits := state.(authorized := state.authorized + 1), multiset{permit};
        r := Ok(GetAuthorized(permit));
    }

    /** `open_legacy_get`: the permit is consumed whatever happens. Any permit for the settled attempt opens the one
        GET, so that a GET without an authorization is opened exactly by a permit that another coordinator issued for an
        attempt with the same number, when this one has retained the modern era. */
    method OpenLegacyGet(permit: Permit) returns (r: Result<string, FallbackError>)
      requires Valid()
      modifies this
      ensures Valid() && settled == old(settled) && probe == old(probe) && permits == old(permits) - multiset{permit}
      ensures r.Ok? <==> old(state).gets == 0 && old(settled) == Some(permit.attempt)
      ensures r.Ok? ==> r.value == legacyTarget && state == old(state).(gets := 1)
                        && (foreign <==> permit !in old(permits))
      ensures r.Err? ==> state == old(state) && foreign == old(foreign)
      ensures permit in old(permits) && !old(foreign) ==> r.Ok?
      ensures old(state).gets <= old(state).authorized ==>
                (state.gets > state.authorized <==>
                   old(settled) == Some(permit.attempt) && old(state).gets == old(state).authorized == 0)
    {
      ghost var own := permit in permits;
      if own { OneFewer(permits, permit); }
      permits := permits - multiset{permit};
      if state.gets > 0 { return Err(AlreadyOpened); }
      if Some(permit.attempt) != settled { return Err(CrossBundle); }
      state, foreign := state.(gets := state.gets + 1), !own;
      return Ok(legacyTarget);
    }

    /** `admit_endpoint_event`: the only way to the legacy era, and with its own permits only after a probe that allows
        the downgrade. */
    method AdmitEndpointEvent(advertised: string) returns (r: Result<Era, FallbackError>)
      requires Valid()
      modifies this
      ensures Valid() && settled == old(settled) && probe == old(probe) && permits == old(permits)
      ensures foreign == old(foreign)
      ensures r.Ok? <==> old(state).gets == 1 && old(state).endpoints == 0 && Trim(advertised) != ""
                         && Admissible(legacyTarget, Trim(advertised))
      ensures r.Ok? ==> r.value == Legacy2024 && state == old(state).(endpoints := 1, era := Some(Legacy2024))
      ensures r.Ok? && !foreign ==> probe.Some? && Downgradable(probe.value)
      ensures r.Err? ==> state == old(state)
    {
      if state.gets == 0 { return Err(EndpointWithoutAuthorization); }
      if state.endpoints > 0 { return Err(DuplicateEndpoint); }
      var target := Trim(advertised);
      if target == "" { return Err(EndpointMalformed); }
      if !Admissible(legacyTarget, target) { return Err(EndpointMismatch); }
      state := state.(endpoints := state.endpoints + 1, era := Some(Legacy2024));
      return Ok(Legacy2024);
    }
  }

  lemma OneFewer(permits: multiset<Permit>, permit: Permit)
    requires permit in permits
    ensures |permits - multiset{permit}| == |permits| - 1
  {
  }

  /** Two coordinators that number their attempts alike: the permit of the one opens the GET of the other, which has
      authorized none. */
  method ForeignPermitOpensGet() returns (c: Coordinator)
    ensures fresh(c) && c.Valid() && c.foreign && c.state.gets == 1 && c.state.authorized == 0
  {
    assert Downgradable(Probe(404, Empty)) && !Downgradable(Probe(200, RecognizedModernJsonRpc));
    var other := new Coordinator("other", "modern", "legacy");
    var authorized := other.Observe(Observation("other", "modern", 7, Probe(404, Empty)));
    c := new Coordinator("this", "modern", "legacy");
    var retained := c.Observe(Observation("this", "modern", 7, Probe(200, RecognizedModernJsonRpc)));
    var get := c.OpenLegacyGet(authorized.value.permit);
  }
}
