/** What leaves the process on behalf of a call: requests on connections, queries, HTTP requests, messages. */
module Outbound {
  import opened OperationIds
  import opened Authorization
  import opened Gateway
  import opened Machine
  import opened Connections
  import opened Correlation
  import opened Permits

  /** A call that got past the door: a read with a valid header in a configured mode, a poll of a valid identifier
      with the API configured. */
  predicate Entered(p: Setup, request: Request) {
    match request
    case Read(mode, _, header) => ValidAuthorization(header, p.headerCap) && Configured(p, mode)
    case Poll(id, _) => ValidIdentifier(id, 128) && p.api
  }

  /** Has the call made its query or HTTP request? */
  ghost predicate Asked(issued: seq<Inquiry>, x: nat) {
    exists i :: 0 <= i < |issued| && issued[i].caller == x
  }

  predicate Inquires(request: Request) {
    request.Poll? || request.mode == DirectReadOnlyDatabase || request.mode == StatelessHttp
  }

  ghost predicate InquiryOk(p: Setup, s: State, q: Inquiry) {
    && q.caller < |s.calls|
    && var call := s.calls[q.caller];
       && Inquires(call.request) && Entered(p, call.request) && q == InquiryOf(call.request, q.caller)
       && !call.phase.Admitted?
  }

  /** No call has its request on two connections, or twice on one. */
  ghost predicate SentOnce(conns: seq<Connection>) {
    forall c, j, d, k ::
      0 <= c < |conns| && 0 <= j < |conns[c].sent| && 0 <= d < |conns| && 0 <= k < |conns[d].sent| ==>
      conns[c].sent[j].caller == conns[d].sent[k].caller ==> c == d && j == k
  }

  predicate PollEntered(p: Setup, request: Request) {
    request.Poll? && Entered(p, request)
  }

  /** Everything sent was sent by a call that got past the door, passed its checks, and was sent once; a query or
      HTTP request is its own call's, and the only one that call makes; and every read or poll at work has made it. */
  ghost predicate OutboundInv(p: Setup, s: State) {
    && (forall i :: 0 <= i < |s.issued| ==> InquiryOk(p, s, s.issued[i]))
    && (forall i, j :: 0 <= i < j < |s.issued| ==> s.issued[i].caller != s.issued[j].caller)
    && (forall x :: 0 <= x < |s.calls| && (s.calls[x].phase.Working? || PollEntered(p, s.calls[x].request)) ==>
          Asked(s.issued, x))
    && SentOnce(s.conns)
    && (forall c, j :: 0 <= c < |s.conns| && 0 <= j < |s.conns[c].sent| ==>
          && p.encodes(s.conns[c].sent[j].operation)
          && var y := s.conns[c].sent[j].caller; y < |s.calls| && Entered(p, s.calls[y].request))
    && (forall x :: x in s.attempts ==>
          x < |s.calls| && Entered(p, s.calls[x].request) && Encodable(p, s.calls[x]))
  }

  /** Caller `x` moves on and sends nothing. */
  lemma OutboundKept(p: Setup, s: State, s': State, x: nat)
    requires OutboundInv(p, s) && Only(s, s', x) && s'.issued == s.issued && s'.attempts == s.attempts
    requires x in s.attempts ==> s'.calls[x].operation == s.calls[x].operation
    requires s'.calls[x].request == s.calls[x].request && (s'.calls[x].phase.Admitted? ==> s.calls[x].phase.Admitted?)
    requires s'.calls[x].phase.Working? ==> s.calls[x].phase.Working?
    requires |s'.conns| >= |s.conns|
    requires forall c :: 0 <= c < |s.conns| ==> s'.conns[c].sent == s.conns[c].sent
    requires forall c :: |s.conns| <= c < |s'.conns| ==> s'.conns[c].sent == []
    ensures OutboundInv(p, s')
  {
    forall i | 0 <= i < |s'.issued| ensures InquiryOk(p, s', s'.issued[i]) {
      assert InquiryOk(p, s, s.issued[i]);
    }
  }

  lemma AskedStays(issued: seq<Inquiry>, q: Inquiry)
    ensures forall x :: Asked(issued, x) || x == q.caller ==> Asked(issued + [q], x)
  {
    var more := issued + [q];
    assert more[|issued|] == q;
    forall x | Asked(issued, x) ensures Asked(more, x) {
      var i :| 0 <= i < |issued| && issued[i].caller == x;
      assert more[i].caller == x;
    }
  }

  lemma OutboundArrive(p: Setup, s: State, request: Request)
    requires OutboundInv(p, s)
    ensures OutboundInv(p, DoArrive(p, s, request))
  {
    var s' := DoArrive(p, s, request);
    assert s'.calls[|s.calls|].phase.Working? <==> PollEntered(p, request);
    OutboundJoined(p, s, s', request);
  }

  /** A call joins; a poll that enters has its HTTP request made. */
  lemma OutboundJoined(p: Setup, s: State, s': State, request: Request)
    requires OutboundInv(p, s) && s'.conns == s.conns && s'.attempts == s.attempts
    requires |s'.calls| == |s.calls| + 1 && forall y :: 0 <= y < |s.calls| ==> s'.calls[y] == s.calls[y]
    requires s'.calls[|s.calls|].request == request
    requires s'.calls[|s.calls|].phase.Working? <==> PollEntered(p, request)
    requires s'.issued == if PollEntered(p, request) then s.issued + [InquiryOf(request, |s.calls|)] else s.issued
    ensures OutboundInv(p, s')
  {
    assert forall i :: 0 <= i < |s.issued| ==> InquiryOk(p, s, s.issued[i]);
    forall i | 0 <= i < |s'.issued| ensures InquiryOk(p, s', s'.issued[i]) {
      if i < |s.issued| { assert InquiryOk(p, s, s.issued[i]); }
    }
    AskedStays(s.issued, InquiryOf(request, |s.calls|));
  }

  lemma OutboundServe(p: Setup, s: State, x: nat, serve: Serve)
    requires IdInv(s) && OutboundInv(p, s) && FitInv(p, s) && x < |s.calls| && CanServe(p, s.calls[x], serve)
    ensures OutboundInv(p, DoServe(s, x, serve))
  {
    if serve == Begin {
      OutboundBegin(p, s, x);
    } else {
      OutboundKept(p, s, DoServe(s, x, serve), x);
    }
  }

  lemma OutboundBegin(p: Setup, s: State, x: nat)
    requires OutboundInv(p, s) && FitInv(p, s) && x < |s.calls| && CanServe(p, s.calls[x], Begin)
    ensures OutboundInv(p, DoServe(s, x, Begin))
  {
    assert Fits(p, s.calls[x]);
    OutboundAsks(p, s, DoServe(s, x, Begin), x);
  }

  /** A caller that was just admitted makes its query or HTTP request. */
  lemma OutboundAsks(p: Setup, s: State, s': State, x: nat)
    requires OutboundInv(p, s) && Only(s, s', x) && s'.conns == s.conns && s'.attempts == s.attempts
    requires s.calls[x].phase.Admitted? && s'.calls[x] == s.calls[x].(phase := Working, stageAt := s'.calls[x].stageAt)
    requires Inquires(s.calls[x].request) && Entered(p, s.calls[x].request)
    requires s'.issued == s.issued + [InquiryOf(s.calls[x].request, x)]
    ensures OutboundInv(p, s')
  {
    AskedStays(s.issued, InquiryOf(s.calls[x].request, x));
    forall i | 0 <= i < |s.issued| ensures InquiryOk(p, s', s.issued[i]) && s.issued[i].caller != x {
      assert InquiryOk(p, s, s.issued[i]);
    }
  }

  lemma OutboundHold(p: Setup, s: State, x: nat, hold: Hold)
    requires OutboundInv(p, s) && x < |s.calls| && CanHold(s, x, hold)
    ensures OutboundInv(p, DoHold(s, x, hold))
  {
    OutboundKept(p, s, DoHold(s, x, hold), x);
  }

  /** Whoever is about to send has sent nothing before. */
  lemma TransmitOnce(s: State, x: nat)
    requires SentOnce(s.conns) && WireInv(s) && x < |s.calls| && CanTalk(s, x, Transmit)
    ensures SentOnce(DoTalk(s, x, Transmit).conns)
  {
    var conns, at := DoTalk(s, x, Transmit).conns, s.calls[x].phase.c;
    assert CallOk(s.conns, x, s.calls[x]);
    assert forall c, j :: 0 <= c < |conns| && 0 <= j < |conns[c].sent| && conns[c].sent[j].caller == x ==>
      c == at && j == |s.conns[at].sent|;
    assert forall c, j :: 0 <= c < |conns| && 0 <= j < |conns[c].sent| && conns[c].sent[j].caller != x ==>
      j < |s.conns[c].sent| && conns[c].sent[j] == s.conns[c].sent[j];
  }

  /** A caller on the connection got past the door long ago. */
  lemma OutboundTalk(p: Setup, s: State, x: nat, talk: Talk)
    requires OutboundInv(p, s) && FitInv(p, s) && DoorInv(p, s) && WireInv(s) && x < |s.calls| && CanTalk(s, x, talk)
    ensures OutboundInv(p, DoTalk(s, x, talk))
  {
    if talk == Transmit {
      OutboundTransmit(p, s, x);
    } else {
      OutboundKept(p, s, DoTalk(s, x, talk), x);
    }
  }

  lemma OutboundTransmit(p: Setup, s: State, x: nat)
    requires OutboundInv(p, s) && FitInv(p, s) && DoorInv(p, s) && WireInv(s)
    requires x < |s.calls| && CanTalk(s, x, Transmit)
    ensures OutboundInv(p, DoTalk(s, x, Transmit))
  {
    assert Door(p, s.calls[x]) && Fits(p, s.calls[x]);
    TransmitOnce(s, x);
    OutboundSends(p, s, DoTalk(s, x, Transmit), x, s.calls[x].phase.c);
  }

  /** A caller past the door writes its request, which passes its checks, to connection `c`. */
  lemma OutboundSends(p: Setup, s: State, s': State, x: nat, c: nat)
    requires OutboundInv(p, s) && Only(s, s', x) && s'.issued == s.issued && s'.attempts == s.attempts
    requires s'.calls[x] == s.calls[x].(phase := s'.calls[x].phase) && s'.calls[x].phase.Sending?
    requires Entered(p, s.calls[x].request) && Serves(p, s.calls[x], StatefulMtlsTcp) && s.calls[x].operation.Some?
    requires c < |s.conns| && SentOnce(s'.conns) && p.encodes(DispatchOf(s.calls[x], x).operation)
    requires s'.conns == s.conns[c := s.conns[c].(sent := s.conns[c].sent + [DispatchOf(s.calls[x], x)])]
    ensures OutboundInv(p, s')
  {
    forall i | 0 <= i < |s'.issued| ensures InquiryOk(p, s', s'.issued[i]) {
      assert InquiryOk(p, s, s.issued[i]);
    }
  }

  lemma OutboundSubmit(p: Setup, s: State, x: nat, submit: Submit)
    requires OutboundInv(p, s) && FitInv(p, s) && DoorInv(p, s) && x < |s.calls| && CanSubmit(s, x, submit)
    requires submit == Publish ==> Encodable(p, s.calls[x])
    ensures OutboundInv(p, DoSubmit(s, x, submit))
  {
    var s' := DoSubmit(s, x, submit);
    if submit == Publish {
      assert Only(s, s', x) && Door(p, s.calls[x]);
      forall i | 0 <= i < |s'.issued| ensures InquiryOk(p, s', s'.issued[i]) {
        assert InquiryOk(p, s, s.issued[i]);
      }
    } else {
      OutboundKept(p, s, s', x);
    }
  }

  lemma OutboundAbandon(p: Setup, s: State, x: nat, end: End)
    requires OutboundInv(p, s) && x < |s.calls|
    ensures OutboundInv(p, Abandon(s, x, end))
  {
    OutboundKept(p, s, Abandon(s, x, end), x);
  }

  /** Nobody moves and nothing is sent. */
  lemma OutboundSame(p: Setup, s: State, s': State)
    requires OutboundInv(p, s) && s'.calls == s.calls && s'.issued == s.issued && s'.attempts == s.attempts
    requires |s'.conns| == |s.conns| && forall c :: 0 <= c < |s.conns| ==> s'.conns[c].sent == s.conns[c].sent
    ensures OutboundInv(p, s')
  {
    forall i | 0 <= i < |s'.issued| ensures InquiryOk(p, s', s'.issued[i]) {
      assert InquiryOk(p, s, s.issued[i]);
    }
  }

  lemma OutboundStep(p: Setup, s: State, step: Step)
    requires IdInv(s) && OutboundInv(p, s) && FitInv(p, s) && DoorInv(p, s) && WireInv(s) && Enabled(p, s, step)
    ensures OutboundInv(p, Apply(p, s, step))
  {
    match step
    case Arrive(request) => OutboundArrive(p, s, request);
    case Serve(x, serve) => OutboundServe(p, s, x, serve);
    case Hold(x, hold) => OutboundHold(p, s, x, hold);
    case Talk(x, talk) => OutboundTalk(p, s, x, talk);
    case Submit(x, submit) => OutboundSubmit(p, s, x, submit);
    case Fail(x, error) => OutboundAbandon(p, s, x, Settled(Failed(error)));
    case Cancel(x) => OutboundAbandon(p, s, x, Settled(Cancelled));
    case Emit(c, e) => OutboundSame(p, s, DoEmit(s, c, e));
    case Store(x) => OutboundSame(p, s, DoStore(p, s, x));
    case Tick => OutboundSame(p, s, s.(clock := s.clock + 1));
  }
}
