/** Runs that exist: the theorems about all runs are about something. */
module Witness {
  import opened Prelude
  import opened OperationIds
  import opened Authorization
  import opened Gateway
  import opened Peer
  import opened Machine
  import opened Runs
  import Safety

  /** A read that can be minted, over a setup with the TCP transport. */
  ghost predicate Plain(p: Setup, request: Request, now: nat) {
    && p.tcp && request.Read? && request.mode == StatefulMtlsTcp
    && ValidAuthorization(request.header, p.headerCap) && ValidIdentifier(request.subject, MAX_SUBJECT_BYTES)
    && now + DEADLINE_MS < U64
    && forall id :: p.encodes(BearerOperation(request.subject, request.header, StatefulMtlsTcp, now, id))
  }

  /** Nobody holds or wants the lock, and a permit is free. */
  predicate Idle(s: State) {
    s.queue == [] && s.permits > 0
  }

  /** A read arrives and mints its operation. */
  lemma ArriveAndMint(p: Setup, s: State, request: Request, now: nat) returns (s': State)
    requires Reachable(p, s) && Idle(s) && Plain(p, request, now)
    ensures Reachable(p, s')
    ensures var x := |s.calls|;
            && |s'.calls| == x + 1 && s'.queue == s.queue && s'.slot == s.slot && s'.conns == s.conns
            && s'.permits + 1 == s.permits && s'.sequence == (s.sequence + 1) % U64 && s'.mints == s.mints + 1
            && s'.calls[x].request == request && s'.calls[x].phase == Minted
            && s'.calls[x].operation == Some(Operation(s.mints, now, OperationId(now, s.sequence)))
  {
    ExtendArrive(p, s, request);
    var s1 := DoArrive(p, s, request);
    ExtendServe(p, s1, |s.calls|, Mint(now));
    s' := DoServe(s1, |s.calls|, Mint(now));
  }

  lemma Queue(p: Setup, s: State, request: Request, now: nat) returns (s': State)
    requires Reachable(p, s) && Idle(s) && Plain(p, request, now)
    ensures Reachable(p, s')
    ensures var x := |s.calls|;
            && |s'.calls| == x + 1 && s'.queue == [x] && s'.slot == s.slot && s'.conns == s.conns
            && s'.permits + 1 == s.permits && s'.sequence == (s.sequence + 1) % U64 && s'.mints == s.mints + 1
            && s'.calls[x].request == request && s'.calls[x].phase == Queued
            && s'.calls[x].operation == Some(Operation(s.mints, now, OperationId(now, s.sequence)))
  {
    var x := |s.calls|;
    var s1 := ArriveAndMint(p, s, request, now);
    ExtendHold(p, s1, x, Enqueue);
    s' := DoHold(s1, x, Enqueue);
  }

  /** From the write on, the caller reads the frame at the connection's mark, parks and answers. */
  lemma ReadNext(p: Setup, s: State, x: nat, c: nat) returns (s': State)
    requires Reachable(p, s) && x < |s.calls| && s.queue == [x] && c < |s.conns|
    requires s.calls[x].phase == Sending(c, true) && s.calls[x].request.Read?
    requires s.conns[c].received < |s.conns[c].log| && s.conns[c].log[s.conns[c].received].frame.Decodable?
    ensures Reachable(p, s')
    ensures var j := s.conns[c].received;
            && |s'.calls| == |s.calls| && s'.queue == [] && s'.slot == Some(c) && s'.permits == s.permits + 1
            && s'.conns == s.conns[c := s.conns[c].(received := j + 1)]
            && s'.calls[x]
               == s.calls[x].(phase := Done(Answer(s.conns[c].log[j].frame.reply, c, j)), stageAt := s.clock)
            && s'.sequence == s.sequence && s'.mints == s.mints
  {
    var s1 := ReadFrame(p, s, x, c);
    s' := Finish(p, s1, x);
  }

  lemma ReadFrame(p: Setup, s: State, x: nat, c: nat) returns (s': State)
    requires Reachable(p, s) && x < |s.calls| && c < |s.conns| && s.calls[x].phase == Sending(c, true)
    requires s.conns[c].received < |s.conns[c].log| && s.conns[c].log[s.conns[c].received].frame.Decodable?
    ensures Reachable(p, s')
    ensures var j := s.conns[c].received;
            var end := Answer(s.conns[c].log[j].frame.reply, c, j);
            s' == s.(calls := s.calls[x := s.calls[x].(phase := Parking(c, end), stageAt := s.clock)],
                     conns := s.conns[c := s.conns[c].(received := j + 1)])
  {
    ExtendTalk(p, s, x, Sent);
    var s1 := DoTalk(s, x, Sent);
    ExtendTalk(p, s1, x, Receive);
    s' := DoTalk(s1, x, Receive);
    var end := Answer(s.conns[c].log[s.conns[c].received].frame.reply, c, s.conns[c].received);
    assert s'.calls == s.calls[x := s.calls[x].(phase := Parking(c, end), stageAt := s.clock)];
  }

  /** Park, unlock, return. */
  lemma Finish(p: Setup, s: State, x: nat) returns (s': State)
    requires Reachable(p, s) && x < |s.calls| && s.queue == [x] && s.calls[x].phase.Parking? && s.calls[x].request.Read?
    ensures Reachable(p, s')
    ensures && |s'.calls| == |s.calls| && s'.queue == [] && s'.slot == Some(s.calls[x].phase.c)
            && s'.permits == s.permits + 1
            && s'.conns == s.conns && s'.sequence == s.sequence && s'.mints == s.mints
            && s'.calls[x] == s.calls[x].(phase := Done(s.calls[x].phase.end), stageAt := s.clock)
  {
    ExtendHold(p, s, x, Park);
    var s1 := DoHold(s, x, Park);
    ExtendHold(p, s1, x, Unlock);
    var s2 := DoHold(s1, x, Unlock);
    ExtendServe(p, s2, x, Return);
    s' := DoServe(s2, x, Return);
  }

  /** The answer a conforming peer gives to the only request on a fresh connection. */
  function OwnAnswer(d: Dispatch, data: Json): Emission {
    Emission(Decodable(Reply(Some(Identifier(d)), None, Some(data))), false)
  }

  /** The request the first caller writes. */
  function FirstDispatch(request: Request, now: nat): Dispatch
    requires request.Read?
  {
    Dispatch(0, BearerOperation(request.subject, request.header, StatefulMtlsTcp, now, OperationId(now, 1)))
  }

  /** With the TCP transport configured, some run on which the peer conforms projects the data. */
  lemma ReadCanSucceed(p: Setup, request: Request, now: nat, data: Json) returns (s: State)
    requires Plain(p, request, now)
    ensures Reachable(p, s) && |s.calls| == 1 && s.calls[0].phase.Done?
    ensures s.queue == [] && s.slot == Some(0) && s.permits == 64
    ensures OutcomeOf(s.calls[0]) == Replied(Projection(StatefulMtlsTcp, data))
    ensures s.sequence == 2 && s.mints == 1
    ensures var d := FirstDispatch(request, now);
            && s.conns == [Connection([d], [OwnAnswer(d, data)], 1, true)]
            && Conforming([d], [OwnAnswer(d, data)])
  {
    StartReachable(p);
    var s1 := Queue(p, Start(), request, now);
    var s2 := OpenAndWrite(p, s1);
    s := AnswerFirst(p, s2, FirstDispatch(request, now), data);
    FirstConforms(FirstDispatch(request, now), data);
  }

  /** The peer answers the one request, and the caller reads it. */
  lemma AnswerFirst(p: Setup, s: State, d: Dispatch, data: Json) returns (s': State)
    requires Reachable(p, s) && |s.calls| == 1 && s.queue == [0] && s.conns == [Connection([d], [], 0, true)]
    requires s.calls[0].phase == Sending(0, true) && s.calls[0].request.Read?
    ensures Reachable(p, s') && |s'.calls| == 1 && s'.queue == [] && s'.slot == Some(0) && s'.permits == s.permits + 1
    ensures s'.conns == [Connection([d], [OwnAnswer(d, data)], 1, true)]
    ensures s'.calls[0] == s.calls[0].(phase := Done(Answer(OwnAnswer(d, data).frame.reply, 0, 0)), stageAt := s.clock)
    ensures s'.sequence == s.sequence && s'.mints == s.mints
  {
    var e := OwnAnswer(d, data);
    ExtendEmit(p, s, 0, e);
    var s1 := DoEmit(s, 0, e);
    assert s1.conns[0].log == [] + [e] == [e];
    s' := ReadNext(p, s1, 0, 0);
  }

  lemma FirstConforms(d: Dispatch, data: Json)
    ensures Conforming([d], [OwnAnswer(d, data)])
    ensures Answers([OwnAnswer(d, data)]) == 1
  {
    assert [OwnAnswer(d, data)][..0] == [];
  }

  /** With an empty slot the owner connects, shakes hands and writes. */
  lemma OpenAndWrite(p: Setup, s: State) returns (s': State)
    requires Reachable(p, s) && |s.calls| == 1 && s.queue == [0] && s.calls[0].phase == Queued
    requires s.slot.None? && s.conns == [] && s.calls[0].operation.Some? && Uses(s.calls[0], StatefulMtlsTcp)
    ensures Reachable(p, s') && |s'.calls| == 1 && s'.queue == [0] && s'.slot.None? && s'.permits == s.permits
    ensures s'.sequence == s.sequence && s'.mints == s.mints
    ensures s'.calls[0].phase == Sending(0, true)
    ensures s'.calls[0].request == s.calls[0].request && s'.calls[0].operation == s.calls[0].operation
    ensures s'.conns == [Connection([DispatchOf(s.calls[0], 0)], [], 0, true)]
  {
    var s1 := Open(p, s);
    ExtendTalk(p, s1, 0, Handshaken);
    var s2 := DoTalk(s1, 0, Handshaken);
    ExtendTalk(p, s2, 0, Transmit);
    s' := DoTalk(s2, 0, Transmit);
    var d := DispatchOf(s.calls[0], 0);
    assert s2.conns[0].sent + [d] == [d];
    assert s'.conns[0] == Connection([d], [], 0, true);
  }

  lemma Open(p: Setup, s: State) returns (s': State)
    requires Reachable(p, s) && |s.calls| == 1 && s.queue == [0] && s.calls[0].phase == Queued
    requires s.slot.None? && s.conns == []
    ensures Reachable(p, s') && |s'.calls| == 1 && s'.queue == [0] && s'.slot.None? && s'.permits == s.permits
    ensures s'.sequence == s.sequence && s'.mints == s.mints
    ensures s'.calls[0].phase == Handshaking(0)
    ensures s'.calls[0].request == s.calls[0].request && s'.calls[0].operation == s.calls[0].operation
    ensures s'.conns == [Connection([], [], 0, true)]
  {
    ExtendHold(p, s, 0, Take);
    var s1 := DoHold(s, 0, Take);
    ExtendTalk(p, s1, 0, Connected);
    s' := DoTalk(s1, 0, Connected);
  }

  /** And some run fails a read on one surplus reply, whatever else than the read itself that reply names: an
      operation answered long ago, another replica's, or nothing.  The connection is parked all the same. */
  lemma SurplusReplyCanFail(p: Setup, request: Request, now: nat, data: Json, reply: Reply) returns (s: State)
    requires Plain(p, request, now) && reply.operationId != Some(OperationId(now, 2))
    ensures Reachable(p, s) && |s.calls| == 2 && s.calls[1].phase.Done?
    ensures OutcomeOf(s.calls[1]) == Failed(InvalidResponse)
    ensures s.slot == Some(0) && |s.conns| == 1
    ensures Lagging(s.conns[0].sent, s.conns[0].log) && Lag(s.conns[0].log) == 1
  {
    var s1 := ReadCanSucceed(p, request, now, data);
    var surplus := Emission(Decodable(reply), true);
    ExtendEmit(p, s1, 0, surplus);
    var s2 := DoEmit(s1, 0, surplus);
    var s3 := Queue(p, s2, request, now);
    ExtendHold(p, s3, 1, Take);
    var s4 := DoHold(s3, 1, Take);
    ExtendTalk(p, s4, 1, Transmit);
    var s5 := DoTalk(s4, 1, Transmit);
    s := ReadNext(p, s5, 1, 0);
    SurplusLags(FirstDispatch(request, now), DispatchOf(s4.calls[1], 1), data, surplus);
    var log := s1.conns[0].log;
    assert s.conns[0].log == log + [surplus] && s.conns[0].sent == s1.conns[0].sent + [DispatchOf(s4.calls[1], 1)];
  }

  lemma SurplusLags(first: Dispatch, second: Dispatch, data: Json, surplus: Emission)
    requires surplus.surplus && surplus.frame.Decodable? && !Names(surplus, second)
    ensures var log := [OwnAnswer(first, data)] + [surplus];
            Lagging([first] + [second], log) && Lag(log) == 1
  {
    var log := [OwnAnswer(first, data)];
    FirstConforms(first, data);
    LaggingEmit([first], log, surplus);
    LaggingTransmit([first], log + [surplus], second);
    assert (log + [surplus])[..1] == log;
  }

  // ---------------------------------------------------------------- the other modes

  /** A read in a mode that asks the database or the API, and the data it could bring. */
  predicate PlainInquiry(p: Setup, request: Request) {
    match request
    case Read(DirectReadOnlyDatabase, _, header) => p.direct && ValidAuthorization(header, p.headerCap)
    case Read(StatelessHttp, _, header) => p.api && ValidAuthorization(header, p.headerCap)
    case Read(_, _, _) => false
    case Poll(id, _) => p.api && ValidIdentifier(id, 128)
  }

  function Success(request: Request, data: Json): GatewayReply {
    match request
    case Read(mode, _, _) => Projection(mode, data)
    case Poll(_, _) => StatusReport(data)
  }

  lemma StartInquiry(p: Setup, request: Request) returns (s: State)
    requires PlainInquiry(p, request)
    ensures Reachable(p, s) && |s.calls| == 1 && s.calls[0].request == request && s.calls[0].phase == Working
    ensures s.issued == [InquiryOf(request, 0)]
  {
    StartReachable(p);
    ExtendArrive(p, Start(), request);
    s := DoArrive(p, Start(), request);
    if request.Read? {
      ExtendServe(p, s, 0, Begin);
      s := DoServe(s, 0, Begin);
    }
  }

  predicate IsDirect(request: Request) {
    request.Read? && request.mode == DirectReadOnlyDatabase
  }

  /** What may come of a query or HTTP request: its data, or an error; only a query has no timeout of its own. */
  predicate May(request: Request, outcome: Outcome) {
    match outcome
    case Replied(reply) => (reply.Projection? || reply.StatusReport?) && reply == Success(request, reply.data)
    case Failed(error) =>
      error == Upstream || error == InvalidResponse || (error == Timeout && !IsDirect(request))
    case Cancelled => true
  }

  /** Where they are configured, direct reads, HTTP reads and polls can end in every such way. */
  lemma InquiryCanEnd(p: Setup, request: Request, outcome: Outcome) returns (s: State)
    requires PlainInquiry(p, request) && May(request, outcome)
    ensures Reachable(p, s) && |s.calls| == 1 && s.calls[0].phase.Done?
    ensures OutcomeOf(s.calls[0]) == outcome && s.issued == [InquiryOf(request, 0)]
  {
    var s1 := StartInquiry(p, request);
    var s2 := s1;
    if outcome == Cancelled {
      Extend(p, s1, Step.Cancel(0));
      s2 := Abandon(s1, 0, Settled(Cancelled));
    } else {
      ExtendServe(p, s1, 0, Serve.Finish(outcome));
      s2 := DoServe(s1, 0, Serve.Finish(outcome));
    }
    ExtendServe(p, s2, 0, Return);
    s := DoServe(s2, 0, Return);
  }

  /** A submission that can be minted, over a setup with the broker. */
  ghost predicate PlainSubmission(p: Setup, request: Request, now: nat) {
    && p.jetstream && p.key.Some? && request.Read? && request.mode == JetStreamAsync
    && ValidAuthorization(request.header, p.headerCap) && ValidIdentifier(request.subject, MAX_SUBJECT_BYTES)
    && now + DEADLINE_MS < U64
    && forall id :: p.encodes(AttestedOperation(request.subject, p.key.value, now, id))
  }

  lemma StartSubmission(p: Setup, request: Request, now: nat) returns (s: State)
    requires PlainSubmission(p, request, now)
    ensures Reachable(p, s) && |s.calls| == 1 && s.calls[0].request == request && s.calls[0].phase == Publishing
    ensures s.calls[0].operation == Some(Operation(0, now, OperationId(now, 1))) && s.attempts == {0}
    ensures |s.stored| == 1 && s.stored[0].dedupeId == DedupeId(OperationId(now, 1))
  {
    StartReachable(p);
    ExtendArrive(p, Start(), request);
    var s1 := DoArrive(p, Start(), request);
    ExtendServe(p, s1, 0, Mint(now));
    var s2 := DoServe(s1, 0, Mint(now));
    ExtendSubmit(p, s2, 0, Publish);
    var s3 := DoSubmit(s2, 0, Publish);
    ExtendStore(p, s3, 0);
    s := DoStore(p, s3, 0);
  }

  /** With the broker, a submission can be accepted under the identifier it minted. */
  lemma SubmissionCanBeAccepted(p: Setup, request: Request, now: nat) returns (s: State)
    requires PlainSubmission(p, request, now)
    ensures Reachable(p, s) && |s.calls| == 1 && |s.stored| == 1 && s.calls[0].phase.Done?
    ensures OutcomeOf(s.calls[0]) == Replied(Accepted(OperationId(now, 1)))
  {
    var s1 := StartSubmission(p, request, now);
    ExtendSubmit(p, s1, 0, Published);
    var s2 := DoSubmit(s1, 0, Published);
    assert Machine.Holds(s2.stored, DedupeId(OperationId(now, 1))) by { assert s2.stored[0] in s2.stored; }
    ExtendSubmit(p, s2, 0, Acknowledge);
    var s3 := DoSubmit(s2, 0, Acknowledge);
    ExtendServe(p, s3, 0, Return);
    s := DoServe(s3, 0, Return);
  }

  /** And one whose publish failed can be stored all the same. */
  lemma FailedSubmissionCanBeStored(p: Setup, request: Request, now: nat) returns (s: State)
    requires PlainSubmission(p, request, now)
    ensures Reachable(p, s) && |s.calls| == 1 && |s.stored| == 1 && s.calls[0].phase.Done?
    ensures OutcomeOf(s.calls[0]) == Failed(Upstream)
  {
    var s1 := StartSubmission(p, request, now);
    ExtendFail(p, s1, 0, Upstream);
    var s2 := Abandon(s1, 0, Settled(Failed(Upstream)));
    ExtendServe(p, s2, 0, Return);
    s := DoServe(s2, 0, Return);
  }

  // ---------------------------------------------------------------- awaits that do not deliver

  /** What can come of each place where the code awaits something: the caller can be dropped anywhere; a stage
      behind the operation timeout can fail upstream, and time out when its time is up; the handshake needs a
      server name, and the reply has to be framed. */
  predicate MayEnd(p: Setup, s: State, x: nat, outcome: Outcome)
    requires x < |s.calls|
  {
    var phase := s.calls[x].phase;
    var timed := || phase.Connecting? || phase.Handshaking? || phase.Sending? || phase.Receiving?
                 || phase.Publishing? || phase.AwaitingAck?;
    match outcome
    case Cancelled => timed || phase.Queued? || phase.Working?
    case Failed(Upstream) => timed
    case Failed(Timeout) => timed && s.calls[x].stageAt + p.timeout <= s.clock
    case Failed(InvalidRequest) => phase.Handshaking?
    case Failed(InvalidResponse) => phase.Receiving?
    case _ => false
  }

  lemma StartUnwinding(p: Setup, s: State, x: nat, outcome: Outcome)
    requires Reachable(p, s) && x < |s.calls| && MayEnd(p, s, x, outcome)
    ensures Reachable(p, Abandon(s, x, Settled(outcome)))
  {
    if outcome == Cancelled {
      Extend(p, s, Step.Cancel(x));
    } else {
      Extend(p, s, Step.Fail(x, outcome.error));
    }
  }

  /** Closing its connection, a caller comes to give the mutex up. */
  lemma CloseNext(p: Setup, s: State, x: nat) returns (s': State)
    requires Reachable(p, s) && x < |s.calls| && s.calls[x].phase.Closing?
    ensures Reachable(p, s') && x < |s'.calls| && s'.permits == s.permits
    ensures s'.calls[x].phase == Unlocking(s.calls[x].phase.end) && s'.calls[x].request == s.calls[x].request
    ensures var c := s.calls[x].phase.c; c < |s'.conns| && !s'.conns[c].open
  {
    Safety.ClosingSettled(p, s, x);
    ExtendHold(p, s, x, Close);
    s' := DoHold(s, x, Close);
  }

  lemma UnlockNext(p: Setup, s: State, x: nat) returns (s': State)
    requires Reachable(p, s) && x < |s.calls| && s.calls[x].phase.Unlocking?
    ensures Reachable(p, s') && x < |s'.calls| && s'.permits == s.permits && s'.conns == s.conns
    ensures s'.calls[x].phase == Returning(s.calls[x].phase.end) && s'.calls[x].request == s.calls[x].request
  {
    Safety.UnlockerIsOwner(p, s, x);
    ExtendHold(p, s, x, Unlock);
    s' := DoHold(s, x, Unlock);
  }

  lemma ReturnNext(p: Setup, s: State, x: nat) returns (s': State)
    requires Reachable(p, s) && x < |s.calls| && s.calls[x].phase.Returning?
    ensures Reachable(p, s') && x < |s'.calls| && s'.calls[x].phase == Done(s.calls[x].phase.end)
    ensures s'.permits == s.permits + (if s.calls[x].request.Read? then 1 else 0) && s'.conns == s.conns
    ensures x !in s'.queue
  {
    Safety.AlwaysLocked(p, s);
    ExtendServe(p, s, x, Return);
    s' := DoServe(s, x, Return);
  }

  /** In every reachable state every such end can come, and the caller's own steps then unwind everything: the
      connection it held is closed, it is out of the mutex's queue, and a read's permit is back. */
  lemma AwaitCanEnd(p: Setup, s: State, x: nat, outcome: Outcome) returns (s': State)
    requires Reachable(p, s) && x < |s.calls| && MayEnd(p, s, x, outcome)
    ensures Reachable(p, s') && x < |s'.calls| && s'.calls[x].phase == Done(Settled(outcome))
    ensures x !in s'.queue && s'.permits == s.permits + if s.calls[x].request.Read? then 1 else 0
    ensures var c := Owned(s.calls[x].phase); c.Some? ==> c.value < |s'.conns| && !s'.conns[c.value].open
  {
    StartUnwinding(p, s, x, outcome);
    var s1 := Abandon(s, x, Settled(outcome));
    if s1.calls[x].phase.Closing? {
      s1 := CloseNext(p, s1, x);
    }
    if s1.calls[x].phase.Unlocking? {
      s1 := UnlockNext(p, s1, x);
    }
    s' := ReturnNext(p, s1, x);
  }
}
