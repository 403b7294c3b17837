/** From a web request, through the gate and the handlers, to everything the gateway sends on its behalf. */
module Forwarding {
  import opened Prelude
  import opened Text
  import opened Authorization
  import opened Gateway
  import opened Peer
  import opened Machine
  import opened Connections
  import opened Correlation
  import opened Outbound
  import opened Broker
  import opened Safety

  /** The protected routes that reach the gateway. */
  datatype Route = Data(mode: Mode) | Status(operationId: string)

  /** The audience of the verifier, if there is one, and what introspection answers while the `x`-th call is at
      the gate. */
  datatype Gate = Gate(verifier: Option<string>, introspect: nat -> string -> Result<Claims, ClientError>)

  /** `read_data` and `operation_status` behind `require_auth`: what they ask of the gateway, or the status they
      refuse with. */
  function Handle(gate: Gate, x: nat, route: Route, headers: seq<Header>): Result<Request, nat> {
    match RequireAuth(gate.verifier, headers, gate.introspect(x))
    case Refused(status) => Err(status)
    case Handler(subject) =>
      match RawAuthorization(headers)
      case None => Err(401)
      case Some(header) =>
        match route
        case Data(mode) => Ok(Read(mode, subject, header))
        case Status(id) => Ok(Poll(id, header))
  }

  /** Introspection of the very token in this header vouched for the subject, while call `x` was at the gate. */
  predicate Vouched(gate: Gate, x: nat, header: string, subject: string) {
    && gate.verifier.Some? && ParseBearer(header).Ok? && Trim(subject) != ""
    && gate.introspect(x)(ParseBearer(header).value) == Ok(Claims(true, gate.verifier, Some(subject)))
  }

  /** A handler asks for exactly what its route says, with the raw header of the web request and, for a read, the
      subject that introspection of that header's token vouched for. */
  lemma HandleExact(gate: Gate, x: nat, route: Route, headers: seq<Header>, request: Request)
    ensures Handle(gate, x, route, headers) == Ok(request)
       <==> && RawAuthorization(headers) == Some(request.header)
            && match route
               case Data(mode) =>
                 request.Read? && request.mode == mode && Vouched(gate, x, request.header, request.subject)
               case Status(id) =>
                 && request.Poll? && request.operationId == id
                 && exists subject :: Vouched(gate, x, request.header, subject)
  {
    var admission := RequireAuth(gate.verifier, headers, gate.introspect(x));
    if admission.Handler? {
      GateExact(gate.verifier, headers, gate.introspect(x), admission.subject);
      var token := BearerToken(headers).value;
      assert gate.introspect(x)(token).value == Claims(true, gate.verifier, Some(admission.subject));
      assert Vouched(gate, x, RawAuthorization(headers).value, admission.subject);
    }
  }

  /** And it refuses exactly as the gate does: past the gate the header is always there. */
  lemma RefusedAtGate(gate: Gate, x: nat, route: Route, headers: seq<Header>)
    ensures var admission := RequireAuth(gate.verifier, headers, gate.introspect(x));
            match Handle(gate, x, route, headers)
            case Err(status) => admission == Refused(status)
            case Ok(_) => admission.Handler?
  {
  }

  /** The call came through a handler. */
  ghost predicate Came(gate: Gate, x: nat, request: Request) {
    exists route, headers :: Handle(gate, x, route, headers) == Ok(request)
  }

  /** Nobody reaches the gateway but through the handlers. */
  ghost predicate Gated(p: Setup, gate: Gate, s: State, steps: seq<Step>)
    requires IsRun(p, s, steps)
    decreases |steps|
  {
    steps != [] ==>
      && (steps[0].Arrive? ==> Came(gate, |s.calls|, steps[0].request))
      && Gated(p, gate, Apply(p, s, steps[0]), steps[1..])
  }

  ghost predicate AllCame(gate: Gate, s: State) {
    forall x :: 0 <= x < |s.calls| ==> Came(gate, x, s.calls[x].request)
  }

  lemma CameStep(p: Setup, gate: Gate, s: State, step: Step)
    requires AllCame(gate, s) && Enabled(p, s, step)
    requires step.Arrive? ==> Came(gate, |s.calls|, step.request)
    ensures AllCame(gate, Apply(p, s, step))
  {
    RequestsStay(p, s, step);
    CameKept(gate, s, Apply(p, s, step));
  }

  lemma RequestsStay(p: Setup, s: State, step: Step)
    requires Enabled(p, s, step)
    ensures var s' := Apply(p, s, step);
            && |s.calls| <= |s'.calls| && (forall x :: 0 <= x < |s.calls| ==> s'.calls[x].request == s.calls[x].request)
            && forall x :: |s.calls| <= x < |s'.calls| ==>
                 x == |s.calls| && step.Arrive? && s'.calls[x].request == step.request
  {
    TouchStep(p, s, step);
    ArrivalsOnly(p, s, step);
  }

  lemma CameKept(gate: Gate, s: State, s': State)
    requires AllCame(gate, s) && |s.calls| <= |s'.calls|
    requires forall x :: 0 <= x < |s.calls| ==> s'.calls[x].request == s.calls[x].request
    requires forall x :: |s.calls| <= x < |s'.calls| ==> Came(gate, x, s'.calls[x].request)
    ensures AllCame(gate, s')
  {
    forall x | 0 <= x < |s'.calls| ensures Came(gate, x, s'.calls[x].request) {
      if x < |s.calls| { assert Came(gate, x, s.calls[x].request); }
    }
  }

  lemma ArrivalsOnly(p: Setup, s: State, step: Step)
    requires Enabled(p, s, step)
    ensures var s' := Apply(p, s, step);
            if step.Arrive? then |s'.calls| == |s.calls| + 1 && s'.calls[|s.calls|].request == step.request
            else |s'.calls| == |s.calls|
  {
  }

  lemma {:induction false} CameRun(p: Setup, gate: Gate, s: State, steps: seq<Step>)
    requires AllCame(gate, s) && IsRun(p, s, steps) && Gated(p, gate, s, steps)
    ensures AllCame(gate, After(p, s, steps))
    decreases |steps|
  {
    if steps != [] {
      CameStep(p, gate, s, steps[0]);
      CameRun(p, gate, Apply(p, s, steps[0]), steps[1..]);
    }
  }

  /** What a call forwards was introspected: its header is one credential, and the service vouched for it. */
  lemma CameVouched(gate: Gate, x: nat, request: Request, cap: nat)
    requires Came(gate, x, request)
    ensures request.Read? ==> Vouched(gate, x, request.header, request.subject)
    ensures exists subject :: Vouched(gate, x, request.header, subject)
    ensures ValidAuthorization(request.header, cap) ==> request.header == "Bearer " + ParseBearer(request.header).value
  {
    var route, headers :| Handle(gate, x, route, headers) == Ok(request);
    HandleExact(gate, x, route, headers, request);
    ParsersAgree(request.header, cap);
    if ValidAuthorization(request.header, cap) { assert request.header == request.header[..7] + request.header[7..]; }
  }

  /** An operation on a connection carries its own call's header, as `Bearer` and the introspected token, and the
      subject the service vouched for. */
  ghost predicate DispatchVouched(gate: Gate, s: State, d: Dispatch) {
    && d.caller < |s.calls|
    && var request := s.calls[d.caller].request;
       && request.Read? && request.mode == StatefulMtlsTcp
       && d.operation.credential == BrowserBearer(request.header)
       && Vouched(gate, d.caller, request.header, d.operation.envelope.subject)
       && request.header == "Bearer " + ParseBearer(request.header).value
  }

  /** A query asks for the vouched subject; an HTTP request goes where its call wants it and carries its call's
      own header, introspected, on the read path as `Bearer` and the token. */
  ghost predicate InquiryVouched(gate: Gate, s: State, q: Inquiry) {
    && q.caller < |s.calls|
    && var request := s.calls[q.caller].request;
       match q
       case Query(x, subject) =>
         && request.Read? && request.mode == DirectReadOnlyDatabase
         && Vouched(gate, x, request.header, subject)
       case HttpGet(x, path, header) =>
         && header == request.header
         && (exists subject :: Vouched(gate, x, header, subject))
         && (request.Read? ==> && request.mode == StatelessHttp && path == "v1/youtube/status"
                               && header == "Bearer " + ParseBearer(header).value)
         && (request.Poll? ==> path == StatusPath(request.operationId))
  }

  /** A stored message names the vouched subject, and holds no bearer. */
  ghost predicate MessageVouched(gate: Gate, s: State, m: Message) {
    && m.caller < |s.calls|
    && var request := s.calls[m.caller].request;
       && request.Read? && request.mode == JetStreamAsync
       && m.payload.credential.Attestation?
       && Vouched(gate, m.caller, request.header, m.payload.envelope.subject)
  }

  lemma MessageForwarded(p: Setup, gate: Gate, s: State, i: nat)
    requires BrokerInv(p, s) && AllCame(gate, s) && i < |s.stored|
    ensures MessageVouched(gate, s, s.stored[i])
  {
    var x := s.stored[i].caller;
    assert AttemptOk(p, s, x);
    CameVouched(gate, x, s.calls[x].request, p.headerCap);
  }

  lemma DispatchForwarded(p: Setup, gate: Gate, s: State, c: nat, j: nat)
    requires WireInv(s) && OutboundInv(p, s) && AllCame(gate, s) && c < |s.conns| && j < |s.conns[c].sent|
    ensures DispatchVouched(gate, s, s.conns[c].sent[j])
  {
    var d := s.conns[c].sent[j];
    assert ConnOk(s.calls, s.conns[c]) && DispatchOk(s.calls, d);
    CameVouched(gate, d.caller, s.calls[d.caller].request, p.headerCap);
  }

  lemma InquiryForwarded(p: Setup, gate: Gate, s: State, i: nat)
    requires OutboundInv(p, s) && AllCame(gate, s) && i < |s.issued|
    ensures InquiryVouched(gate, s, s.issued[i])
  {
    assert InquiryOk(p, s, s.issued[i]);
    CameVouched(gate, s.issued[i].caller, s.calls[s.issued[i].caller].request, p.headerCap);
  }

  /** Everything that has left the process was vouched for. */
  ghost predicate AllVouched(gate: Gate, s: State) {
    && (forall c, j :: 0 <= c < |s.conns| && 0 <= j < |s.conns[c].sent| ==>
          DispatchVouched(gate, s, s.conns[c].sent[j]))
    && (forall i :: 0 <= i < |s.issued| ==> InquiryVouched(gate, s, s.issued[i]))
    && (forall i :: 0 <= i < |s.stored| ==> MessageVouched(gate, s, s.stored[i]))
  }

  lemma AllForwarded(p: Setup, gate: Gate, s: State)
    requires WireInv(s) && OutboundInv(p, s) && BrokerInv(p, s) && AllCame(gate, s)
    ensures AllVouched(gate, s)
  {
    forall c, j | 0 <= c < |s.conns| && 0 <= j < |s.conns[c].sent|
      ensures DispatchVouched(gate, s, s.conns[c].sent[j])
    {
      DispatchForwarded(p, gate, s, c, j);
    }
    forall i | 0 <= i < |s.issued| ensures InquiryVouched(gate, s, s.issued[i]) {
      InquiryForwarded(p, gate, s, i);
    }
    forall i | 0 <= i < |s.stored| ensures MessageVouched(gate, s, s.stored[i]) {
      MessageForwarded(p, gate, s, i);
    }
  }

  /** Over any run that nobody enters but through the gate, whatever leaves the process, on a connection, to the
      API, to the database or to the broker, speaks for a subject that introspection vouched for, and where a
      bearer goes along it is the call's own, with the token that was introspected. */
  lemma ForwardedIntrospected(p: Setup, gate: Gate, steps: seq<Step>)
    requires IsRun(p, Start(), steps) && Gated(p, gate, Start(), steps)
    ensures AllVouched(gate, After(p, Start(), steps))
  {
    var s := After(p, Start(), steps);
    assert Reachable(p, s);
    Always(p, s);
    CameRun(p, gate, Start(), steps);
    AllForwarded(p, gate, s);
  }
}
