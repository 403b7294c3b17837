/** Two runs that differ only in the bearers of the browsers. */
module TwoRuns {
  import opened Authorization
  import opened Gateway
  import opened Peer
  import opened Machine
  import opened Correlation
  import opened Outbound
  import Broker
  import Safety

  function BlindRequest(request: Request): Request {
    request.(header := "")
  }

  /** A call without its bearer. */
  function Blind(call: Call): Call {
    call.(request := BlindRequest(call.request))
  }

  /** The two requests differ at most in their bearers; for a read these are both valid or both not, and for a
      TCP read the operations built with them pass the checks and the frame cap alike. */
  ghost predicate Interchangeable(p: Setup, a: Request, b: Request) {
    && BlindRequest(a) == BlindRequest(b)
    && (a.Read? ==>
          && ValidAuthorization(a.header, p.headerCap) == ValidAuthorization(b.header, p.headerCap)
          && (a.mode == StatefulMtlsTcp ==>
                forall now, id :: p.encodes(BearerOperation(a.subject, a.header, StatefulMtlsTcp, now, id))
                               == p.encodes(BearerOperation(a.subject, b.header, StatefulMtlsTcp, now, id))))
  }

  ghost predicate AlikeCall(p: Setup, a: Call, b: Call) {
    Blind(a) == Blind(b) && Interchangeable(p, a.request, b.request)
  }

  /** A request on a connection without its bearer. */
  function BlindDispatch(d: Dispatch): Dispatch {
    match d.operation.credential
    case BrowserBearer(_) => d.(operation := d.operation.(credential := BrowserBearer("")))
    case Attestation(_, _) => d
  }

  /** A query or HTTP request without its bearer. */
  function BlindInquiry(q: Inquiry): Inquiry {
    match q
    case Query(_, _) => q
    case HttpGet(x, path, _) => HttpGet(x, path, "")
  }

  ghost predicate AlikeConn(a: Connection, b: Connection) {
    && a.log == b.log && a.received == b.received && a.open == b.open && |a.sent| == |b.sent|
    && forall j :: 0 <= j < |a.sent| ==> BlindDispatch(a.sent[j]) == BlindDispatch(b.sent[j])
  }

  /** The two states differ in nothing but bearers: those the callers brought, and where they went. */
  ghost predicate Alike(p: Setup, s: State, t: State) {
    && s.permits == t.permits && s.sequence == t.sequence && s.mints == t.mints && s.queue == t.queue
    && s.slot == t.slot && s.attempts == t.attempts && s.stored == t.stored && s.clock == t.clock
    && |s.calls| == |t.calls| && (forall x :: 0 <= x < |s.calls| ==> AlikeCall(p, s.calls[x], t.calls[x]))
    && |s.conns| == |t.conns| && (forall c :: 0 <= c < |s.conns| ==> AlikeConn(s.conns[c], t.conns[c]))
    && |s.issued| == |t.issued|
    && (forall i :: 0 <= i < |s.issued| ==> BlindInquiry(s.issued[i]) == BlindInquiry(t.issued[i]))
  }

  /** The same step, except that whoever arrives may bring another, interchangeable bearer. */
  ghost predicate SameStep(p: Setup, a: Step, b: Step) {
    if a.Arrive? && b.Arrive? then Interchangeable(p, a.request, b.request) else a == b
  }

  lemma AlikeArrive(p: Setup, s: State, t: State, a: Request, b: Request)
    requires Alike(p, s, t) && SameStep(p, Arrive(a), Arrive(b))
    ensures Alike(p, DoArrive(p, s, a), DoArrive(p, t, b))
  {
    assert a.Read? == b.Read? && (a.Read? ==> a.mode == b.mode) && (a.Poll? ==> a.operationId == b.operationId);
    assert Admit(p, s.permits, a) == Admit(p, t.permits, b);
  }

  lemma AlikeServe(p: Setup, s: State, t: State, x: nat, serve: Serve)
    requires Alike(p, s, t) && x < |s.calls| && CanServe(p, s.calls[x], serve)
    ensures CanServe(p, t.calls[x], serve) && Alike(p, DoServe(s, x, serve), DoServe(t, x, serve))
  {
    assert AlikeCall(p, s.calls[x], t.calls[x]);
    ServeBlind(p, s.calls[x], t.calls[x], serve);
    InquiryBlind(s.calls[x].request, t.calls[x].request, x);
  }

  /** Outside the header check nothing looks at the bearer. */
  lemma ServeBlind(p: Setup, a: Call, b: Call, serve: Serve)
    requires AlikeCall(p, a, b) && CanServe(p, a, serve)
    ensures CanServe(p, b, serve)
  {
    assert a.request.Read? ==> a.request.mode == b.request.mode && a.request.subject == b.request.subject;
    EncodableBlind(p, a, b);
  }

  /** What has been minted passes its checks with either bearer, or with neither. */
  lemma EncodableBlind(p: Setup, a: Call, b: Call)
    requires AlikeCall(p, a, b)
    ensures Encodable(p, a) == Encodable(p, b)
  {
    assert a.request.Read? == b.request.Read? && a.operation == b.operation;
    assert a.request.Read? ==> a.request.mode == b.request.mode && a.request.subject == b.request.subject;
  }

  lemma InquiryBlind(a: Request, b: Request, x: nat)
    requires BlindRequest(a) == BlindRequest(b)
    ensures BlindInquiry(InquiryOf(a, x)) == BlindInquiry(InquiryOf(b, x))
  {
    assert a.Read? == b.Read? && (a.Read? ==> a.mode == b.mode && a.subject == b.subject);
    assert a.Poll? ==> a.operationId == b.operationId;
  }

  lemma AlikeHold(p: Setup, s: State, t: State, x: nat, hold: Hold)
    requires Alike(p, s, t) && x < |s.calls| && CanHold(s, x, hold)
    ensures Encodable(p, s.calls[x]) == Encodable(p, t.calls[x])
    ensures CanHold(t, x, hold) && Alike(p, DoHold(s, x, hold), DoHold(t, x, hold))
  {
    assert AlikeCall(p, s.calls[x], t.calls[x]);
  }

  lemma AlikeTalk(p: Setup, s: State, t: State, x: nat, talk: Talk)
    requires Alike(p, s, t) && x < |s.calls| && CanTalk(s, x, talk)
    ensures CanTalk(t, x, talk) && Alike(p, DoTalk(s, x, talk), DoTalk(t, x, talk))
  {
    assert AlikeCall(p, s.calls[x], t.calls[x]);
  }

  lemma AlikeSubmit(p: Setup, s: State, t: State, x: nat, submit: Submit)
    requires Alike(p, s, t) && x < |s.calls| && CanSubmit(s, x, submit)
    ensures Encodable(p, s.calls[x]) == Encodable(p, t.calls[x])
    ensures CanSubmit(t, x, submit) && Alike(p, DoSubmit(s, x, submit), DoSubmit(t, x, submit))
  {
    assert AlikeCall(p, s.calls[x], t.calls[x]);
  }

  lemma AlikeAbandon(p: Setup, s: State, t: State, x: nat, end: End)
    requires Alike(p, s, t) && x < |s.calls|
    ensures Alike(p, Abandon(s, x, end), Abandon(t, x, end))
  {
    assert AlikeCall(p, s.calls[x], t.calls[x]);
  }

  /** The message a call publishes is made from its subject, clock reading and identifier alone. */
  lemma AlikeStore(p: Setup, s: State, t: State, x: nat)
    requires Alike(p, s, t) && x < |s.calls|
    ensures Alike(p, DoStore(p, s, x), DoStore(p, t, x))
  {
    assert AlikeCall(p, s.calls[x], t.calls[x]);
  }

  lemma AlikeTick(p: Setup, s: State, t: State)
    requires Alike(p, s, t) && CanTick(p, s)
    ensures CanTick(p, t)
  {
    forall x | 0 <= x < |t.calls|
      ensures !Urgent(t, x) && (Timed(t.calls[x].phase) ==> t.clock < t.calls[x].stageAt + p.timeout)
    {
      assert AlikeCall(p, s.calls[x], t.calls[x]) && !Urgent(s, x);
    }
  }

  lemma AlikeStep(p: Setup, s: State, t: State, a: Step, b: Step)
    requires Alike(p, s, t) && SameStep(p, a, b) && Enabled(p, s, a)
    ensures Enabled(p, t, b) && Alike(p, Apply(p, s, a), Apply(p, t, b))
  {
    match a
    case Arrive(request) => AlikeArrive(p, s, t, request, b.request);
    case Serve(x, serve) => AlikeServe(p, s, t, x, serve);
    case Hold(x, hold) => AlikeHold(p, s, t, x, hold);
    case Talk(x, talk) => AlikeTalk(p, s, t, x, talk);
    case Submit(x, submit) => AlikeSubmit(p, s, t, x, submit);
    case Fail(x, error) =>
      assert AlikeCall(p, s.calls[x], t.calls[x]);
      AlikeAbandon(p, s, t, x, Settled(Failed(error)));
    case Cancel(x) =>
      assert AlikeCall(p, s.calls[x], t.calls[x]);
      AlikeAbandon(p, s, t, x, Settled(Cancelled));
    case Emit(_, _) =>
    case Store(x) => AlikeStore(p, s, t, x);
    case Tick => AlikeTick(p, s, t);
  }

  ghost predicate SameSchedule(p: Setup, a: seq<Step>, b: seq<Step>) {
    |a| == |b| && forall i :: 0 <= i < |a| ==> SameStep(p, a[i], b[i])
  }

  lemma {:induction false} AlikeRun(p: Setup, s: State, t: State, a: seq<Step>, b: seq<Step>)
    requires Alike(p, s, t) && SameSchedule(p, a, b) && IsRun(p, s, a)
    ensures IsRun(p, t, b)
    ensures Alike(p, After(p, s, a), After(p, t, b))
    decreases |a|
  {
    if a != [] {
      AlikeStep(p, s, t, a[0], b[0]);
      AlikeRun(p, Apply(p, s, a[0]), Apply(p, t, b[0]), a[1..], b[1..]);
    }
  }

  /** Where the bearers are: a request on a connection carries its own call's, as does an HTTP request; a message
      carries none. */
  ghost predicate BearersOwn(s: State) {
    && (forall c, j :: 0 <= c < |s.conns| && 0 <= j < |s.conns[c].sent| ==>
          var d := s.conns[c].sent[j];
          d.caller < |s.calls| && d.operation.credential == BrowserBearer(s.calls[d.caller].request.header))
    && (forall i :: 0 <= i < |s.issued| && s.issued[i].HttpGet? ==>
          s.issued[i].caller < |s.calls| && s.issued[i].header == s.calls[s.issued[i].caller].request.header)
    && (forall i :: 0 <= i < |s.stored| ==> s.stored[i].payload.credential.Attestation?)
  }

  lemma AlwaysOwn(p: Setup, s: State)
    requires Reachable(p, s)
    ensures BearersOwn(s)
  {
    Safety.Always(p, s);
    forall c, j | 0 <= c < |s.conns| && 0 <= j < |s.conns[c].sent|
      ensures var d := s.conns[c].sent[j];
              d.caller < |s.calls| && d.operation.credential == BrowserBearer(s.calls[d.caller].request.header)
    {
      assert ConnOk(s.calls, s.conns[c]) && DispatchOk(s.calls, s.conns[c].sent[j]);
    }
    forall i | 0 <= i < |s.issued| && s.issued[i].HttpGet?
      ensures s.issued[i].caller < |s.calls| && s.issued[i].header == s.calls[s.issued[i].caller].request.header
    {
      assert InquiryOk(p, s, s.issued[i]);
    }
    forall i | 0 <= i < |s.stored| ensures s.stored[i].payload.credential.Attestation? {
      assert Broker.AttemptOk(p, s, s.stored[i].caller);
    }
  }

  /** Bearer noninterference.  Replace the bearers of a run by others of the same validity: the result is a run
      again.  At its end the stored messages, the identifiers and every outcome are the same, and so is what
      crossed each connection and went to the API but for the bearers, each of which is its own call's. */
  lemma BearersDoNotInterfere(p: Setup, a: seq<Step>, b: seq<Step>)
    requires SameSchedule(p, a, b) && IsRun(p, Start(), a)
    ensures IsRun(p, Start(), b)
    ensures var s, t := After(p, Start(), a), After(p, Start(), b);
            && Alike(p, s, t) && s.stored == t.stored
            && (forall x :: 0 <= x < |s.calls| ==> s.calls[x].operation == t.calls[x].operation)
            && (forall x :: 0 <= x < |s.calls| && s.calls[x].phase.Done? ==>
                  t.calls[x].phase.Done? && OutcomeOf(s.calls[x]) == OutcomeOf(t.calls[x]))
            && BearersOwn(s) && BearersOwn(t)
  {
    assert Alike(p, Start(), Start());
    AlikeRun(p, Start(), Start(), a, b);
    var s, t := After(p, Start(), a), After(p, Start(), b);
    assert Reachable(p, s) && Reachable(p, t);
    AlwaysOwn(p, s);
    AlwaysOwn(p, t);
    forall x | 0 <= x < |s.calls|
      ensures s.calls[x].operation == t.calls[x].operation && s.calls[x].phase == t.calls[x].phase
    {
      assert AlikeCall(p, s.calls[x], t.calls[x]);
    }
  }
}
