/** From a configuration to a running gateway (`main`), and what the routes then claim and forward. */
module Wiring {
  import opened Prelude
  import opened OperationIds
  import opened Gateway
  import opened Config
  import opened BodyReader
  import opened Endpoint
  import Machine
  import Permits
  import Broker
  import Correlation
  import Safety

  /** How the start-up connections turn out.  A database or broker that cannot be reached disables its mode; the
      other failures stop the process. */
  datatype Outcomes = Outcomes(
    verifierBuilds: bool, databaseConnects: bool, mtlsLoads: bool, natsConnects: bool, httpBuilds: bool)

  /** The fields of `TransportGateway` that decide which mode works. */
  datatype Transports = Transports(
    direct: bool, http: bool, apiUrl: Option<string>, tcp: bool, jetstream: bool, attestationKey: Option<string>)

  datatype AppState = AppState(
    sharedAuth: Option<string>, gateway: Transports,
    directConnected: bool, httpConfigured: bool, mtlsConfigured: bool, jetstreamConfigured: bool)

  datatype Startup = Running(state: AppState) | Stopped

  /** The wiring of `main`. */
  function Wire(config: Config, o: Outcomes): Startup {
    var direct := config.database.Some? && o.databaseConnects;
    var jetstream := config.natsUrl.Some? && o.natsConnects;
    if config.sharedAuth.Some? && !o.verifierBuilds then Stopped
    else if config.mtls.Some? && !o.mtlsLoads then Stopped
    else if config.apiUrl.Some? && !o.httpBuilds then Stopped
    else
      Running(AppState(
        if config.sharedAuth.Some? then Some(config.sharedAuth.value.audience) else None,
        Transports(direct, config.apiUrl.Some?, config.apiUrl, config.mtls.Some?, jetstream, config.attestationKey),
        direct, config.apiUrl.Some?, config.mtls.Some?, jetstream))
  }

  /** What the transport crate fixes: the stage timeout, the header cap, and which operations it lets through. */
  datatype Limits = Limits(timeout: nat, headerCap: nat, encodes: AuthenticatedOperation -> bool)

  /** The machine this gateway runs as. */
  function SetupOf(gateway: Transports, limits: Limits): Machine.Setup {
    Machine.Setup(gateway.direct, gateway.apiUrl.Some?, gateway.tcp, gateway.jetstream, gateway.attestationKey,
                  limits.timeout, limits.headerCap, limits.encodes)
  }

  /** What `/ready` says of a mode. */
  predicate Ready(state: AppState, mode: Mode) {
    match mode
    case DirectReadOnlyDatabase => state.directConnected
    case StatelessHttp => state.httpConfigured
    case StatefulMtlsTcp => state.mtlsConfigured
    case JetStreamAsync => state.jetstreamConfigured
  }

  ghost predicate Started(env: Environment, lib: Parsers, o: Outcomes, state: AppState) {
    FromEnv(env, lib).Ok? && Wire(FromEnv(env, lib).value, o) == Running(state)
  }

  /** What starts, exactly.  The process runs unless a configured verifier, mTLS client or HTTP client cannot be
      built.  The database and the broker serve if they are configured and could be reached, the other two
      transports if they are configured; the API URL and the key go to the gateway as configured. */
  lemma StartupExact(env: Environment, lib: Parsers, o: Outcomes)
    requires FromEnv(env, lib).Ok?
    ensures var c, startup := FromEnv(env, lib).value, Wire(FromEnv(env, lib).value, o);
            && (startup.Running?
                <==> && (Has(env, "SHARED_AUTH_URL") ==> o.verifierBuilds)
                     && (Has(env, "ACT_API_MTLS_ADDR") ==> o.mtlsLoads) && (Has(env, "ACT_API_URL") ==> o.httpBuilds))
            && (startup.Running? ==>
                  var state := startup.state;
                  && state.sharedAuth == (if Has(env, "SHARED_AUTH_URL") then Some("act-api") else None)
                  && (state.gateway.direct <==> Has(env, "ACT_READONLY_DATABASE_ROLE") && o.databaseConnects)
                  && (state.gateway.jetstream <==> Has(env, "ACT_NATS_URL") && o.natsConnects)
                  && (state.gateway.tcp <==> Has(env, "ACT_API_MTLS_ADDR"))
                  && (state.gateway.http <==> Has(env, "ACT_API_URL"))
                  && state.gateway.apiUrl == c.apiUrl && state.gateway.attestationKey == c.attestationKey)
  {
    Presence(env, lib);
  }

  /** A mode can be used by the gateway exactly when `/ready` says so. */
  lemma ReadyIsConfigured(env: Environment, lib: Parsers, o: Outcomes, state: AppState,
                          limits: Limits, mode: Mode)
    requires Started(env, lib, o, state)
    ensures Machine.Configured(SetupOf(state.gateway, limits), mode) <==> Ready(state, mode)
  {
    AcceptedShape(env, lib);
  }

  /** Readiness is exact.  Take any accepted environment, any way the connections turn out, and any run in which
      a read got its permit.  Once it is over, it was refused as not configured if and only if `/ready` reports
      its mode false; and when it got the permit, that refusal could happen exactly then, and nothing else. */
  lemma ReadinessExact(env: Environment, lib: Parsers, o: Outcomes, state: AppState, limits: Limits,
                       s: Machine.State, x: nat, steps: seq<Machine.Step>)
    requires Started(env, lib, o, state) && Machine.Reachable(SetupOf(state.gateway, limits), s)
    requires x < |s.calls| && s.calls[x].request.Read? && s.calls[x].phase.Admitted?
    requires Machine.IsRun(SetupOf(state.gateway, limits), s, steps)
    ensures var call := s.calls[x];
            && (Machine.CanServe(SetupOf(state.gateway, limits), call, Machine.Refuse(NotConfigured))
                <==> !Ready(state, call.request.mode))
            && (!Ready(state, call.request.mode) ==>
                  forall serve :: Machine.CanServe(SetupOf(state.gateway, limits), call, serve) ==>
                    serve == Machine.Refuse(NotConfigured))
    ensures var s' := Machine.After(SetupOf(state.gateway, limits), s, steps);
            && x < |s'.calls|
            && (s'.calls[x].phase.Done? ==>
                  (Machine.OutcomeOf(s'.calls[x]) == Failed(NotConfigured) <==> !Ready(state, s.calls[x].request.mode)))
  {
    var p := SetupOf(state.gateway, limits);
    ReadyIsConfigured(env, lib, o, state, limits, s.calls[x].request.mode);
    Safety.PermittedOutcome(p, s, steps, x);
  }

  // ---------------------------------------------------------------- the status route

  /** `status`: `fetch` stands for a GET at an endpoint of the API, `parse` for the JSON parser. */
  function Status(gateway: Transports, id: string, fetch: Endpoint -> Exchange,
                  parse: seq<byte> -> Option<Json>): Result<Json, GatewayError>
  {
    if !ValidIdentifier(id, MAX_OPERATION_ID_BYTES) then Err(InvalidRequest)
    else if gateway.apiUrl.None? || !gateway.http then Err(NotConfigured)
    else GetOutcome(fetch(Resolve(Machine.StatusPath(id))), parse)
  }

  /** `status`, exactly: it refuses an invalid identifier, then a gateway without the API; otherwise it is the
      outcome of one GET. */
  lemma StatusExact(gateway: Transports, id: string, fetch: Endpoint -> Exchange, parse: seq<byte> -> Option<Json>)
    ensures var status := Status(gateway, id, fetch, parse);
            var get := GetOutcome(fetch(Resolve("v1/operations/" + id)), parse);
            && (status == Err(InvalidRequest) <==> !ValidIdentifier(id, 128))
            && (status == Err(NotConfigured) <==> ValidIdentifier(id, 128) && (gateway.apiUrl.None? || !gateway.http))
            && (ValidIdentifier(id, 128) && gateway.apiUrl.Some? && gateway.http ==> status == get)
  {
    GetErrors(fetch(Resolve(Machine.StatusPath(id))), parse);
  }

  predicate Polls(call: Machine.Call, id: string) {
    call.request.Poll? && call.request.operationId == id
  }

  /** Accepted implies pollable, end to end.  Start from any environment that is accepted, let the connections
      turn out in any way and the gateway run in any way: an identifier it returned as accepted passes the check
      of the status route, finds the API URL and its client, and is polled at its own resource, so a poll can
      fail only by timing out, upstream, or on an invalid response. */
  lemma AcceptedIsPollable(env: Environment, lib: Parsers, o: Outcomes, state: AppState,
                           limits: Limits, s: Machine.State, x: nat, id: string,
                           fetch: Endpoint -> Exchange, parse: seq<byte> -> Option<Json>)
    requires Started(env, lib, o, state) && Machine.Reachable(SetupOf(state.gateway, limits), s)
    requires x < |s.calls| && s.calls[x].phase == Machine.Done(Machine.Settled(Replied(Accepted(id))))
    ensures ValidIdentifier(id, 128) && state.gateway.apiUrl.Some? && state.gateway.http
    ensures Resolve(Machine.StatusPath(id)) == Own(id)
    ensures var status := Status(state.gateway, id, fetch, parse);
            status.Err? ==> status.error in {Timeout, Upstream, InvalidResponse}
    ensures var p := SetupOf(state.gateway, limits);
            forall header :: Machine.Admit(p, s.permits, Machine.Poll(id, header)) == Machine.Working
    ensures forall y :: 0 <= y < |s.calls| && Polls(s.calls[y], id) && s.calls[y].phase.Done? ==>
              var outcome := Machine.OutcomeOf(s.calls[y]);
              outcome.Failed? ==> outcome.error in {Timeout, Upstream, InvalidResponse}
  {
    AcceptedShape(env, lib);
    AcceptedFacts(SetupOf(state.gateway, limits), s, x, id);
    GetErrors(fetch(Resolve(Machine.StatusPath(id))), parse);
    PollErrors(SetupOf(state.gateway, limits), s, id);
  }

  lemma AcceptedFacts(p: Machine.Setup, s: Machine.State, x: nat, id: string)
    requires Machine.Reachable(p, s)
    requires x < |s.calls| && s.calls[x].phase == Machine.Done(Machine.Settled(Replied(Accepted(id))))
    ensures p.jetstream && Permits.FitInv(p, s)
    ensures ValidIdentifier(id, 128) && Resolve(Machine.StatusPath(id)) == Own(id)
  {
    Safety.Always(p, s);
    AcceptedId(p, s, x, id);
    AcceptedNeedsBroker(p, s, x, id);
  }

  /** An acceptance was possible only with the broker connected. */
  lemma AcceptedNeedsBroker(p: Machine.Setup, s: Machine.State, x: nat, id: string)
    requires Permits.FitInv(p, s)
    requires x < |s.calls| && s.calls[x].phase == Machine.Done(Machine.Settled(Replied(Accepted(id))))
    ensures p.jetstream
  {
    assert Permits.Fits(p, s.calls[x]);
  }

  /** Polls of a valid identifier, with the API configured, end well or with one of three errors. */
  lemma PollErrors(p: Machine.Setup, s: Machine.State, id: string)
    requires Permits.FitInv(p, s) && p.api && ValidIdentifier(id, 128)
    ensures forall y :: 0 <= y < |s.calls| && Polls(s.calls[y], id) && s.calls[y].phase.Done? ==>
              var outcome := Machine.OutcomeOf(s.calls[y]);
              outcome.Failed? ==> outcome.error in {Timeout, Upstream, InvalidResponse}
  {
    forall y | 0 <= y < |s.calls| && Polls(s.calls[y], id) && s.calls[y].phase.Done?
      ensures var outcome := Machine.OutcomeOf(s.calls[y]);
              outcome.Failed? ==> outcome.error in {Timeout, Upstream, InvalidResponse}
    {
      assert Permits.Fits(p, s.calls[y]);
    }
  }

  lemma GetErrors(exchange: Exchange, parse: seq<byte> -> Option<Json>)
    ensures GetOutcome(exchange, parse).Err? ==>
              GetOutcome(exchange, parse).error in {Timeout, Upstream, InvalidResponse}
  {
  }

  /** The identifier of an acceptance is the call's own minted one: valid, and with a resource of its own. */
  lemma AcceptedId(p: Machine.Setup, s: Machine.State, x: nat, id: string)
    requires Broker.BrokerInv(p, s) && Correlation.IdInv(s)
    requires x < |s.calls| && s.calls[x].phase == Machine.Done(Machine.Settled(Replied(Accepted(id))))
    ensures s.calls[x].operation.Some? && s.calls[x].operation.value.id == id
    ensures ValidIdentifier(id, 128) && Resolve(Machine.StatusPath(id)) == Own(id)
  {
    assert Broker.AcceptOk(s, x) by { assert Broker.Accepts(s.calls[x].phase); }
    var op := s.calls[x].operation.value;
    MintedIdIsValid(op.now, SequenceOf(op.ticket));
    MintedOwn(op.now, SequenceOf(op.ticket));
  }
}
