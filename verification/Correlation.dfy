/** Which reply answers which request: identifiers, positions on the wire, and the peer's side of it. */
module Correlation {
  import opened Prelude
  import opened OperationIds
  import opened Gateway
  import opened Peer
  import opened Machine
  import opened Connections

  // ---------------------------------------------------------------- identifiers

  ghost predicate IdInv(s: State) {
    && s.sequence == SequenceOf(s.mints)
    && (forall x :: 0 <= x < |s.calls| && s.calls[x].operation.Some? ==>
          var r, o := s.calls[x].request, s.calls[x].operation.value;
          && r.Read? && ValidIdentifier(r.subject, MAX_SUBJECT_BYTES)
          && o.ticket < s.mints && o.now + DEADLINE_MS < U64 && o.id == OperationId(o.now, SequenceOf(o.ticket)))
    && (forall x, y :: 0 <= x < y < |s.calls| && s.calls[x].operation.Some? && s.calls[y].operation.Some? ==>
          s.calls[x].operation.value.ticket != s.calls[y].operation.value.ticket)
    && (forall x :: 0 <= x < |s.calls| && s.calls[x].phase.Admitted? ==> s.calls[x].operation.None?)
  }

  /** Outside `Mint` no request, operation, counter or mint count changes, and nobody becomes `Admitted`. */
  ghost predicate IdsKept(s: State, s': State) {
    && |s'.calls| == |s.calls| && s'.sequence == s.sequence && s'.mints == s.mints
    && forall x :: 0 <= x < |s.calls| ==>
         && s'.calls[x].request == s.calls[x].request && s'.calls[x].operation == s.calls[x].operation
         && (s'.calls[x].phase.Admitted? ==> s.calls[x].phase.Admitted?)
  }

  lemma IdKept(s: State, s': State)
    requires IdInv(s) && IdsKept(s, s')
    ensures IdInv(s')
  {
  }

  lemma IdServe(p: Setup, s: State, x: nat, serve: Serve)
    requires IdInv(s) && x < |s.calls| && CanServe(p, s.calls[x], serve)
    ensures IdInv(DoServe(s, x, serve))
  {
    if !serve.Mint? { IdKept(s, DoServe(s, x, serve)); }
  }

  lemma IdArrive(p: Setup, s: State, request: Request)
    requires IdInv(s)
    ensures IdInv(DoArrive(p, s, request))
  {
  }

  lemma IdHold(s: State, x: nat, hold: Hold)
    requires IdInv(s) && x < |s.calls| && CanHold(s, x, hold)
    ensures IdInv(DoHold(s, x, hold))
  {
    IdKept(s, DoHold(s, x, hold));
  }

  lemma IdTalk(s: State, x: nat, talk: Talk)
    requires IdInv(s) && x < |s.calls| && CanTalk(s, x, talk)
    ensures IdInv(DoTalk(s, x, talk))
  {
    IdKept(s, DoTalk(s, x, talk));
  }

  lemma IdSubmit(s: State, x: nat, submit: Submit)
    requires IdInv(s) && x < |s.calls| && CanSubmit(s, x, submit)
    ensures IdInv(DoSubmit(s, x, submit))
  {
    IdKept(s, DoSubmit(s, x, submit));
  }

  lemma IdAbandon(s: State, x: nat, end: End)
    requires IdInv(s) && x < |s.calls|
    ensures IdInv(Abandon(s, x, end))
  {
    IdKept(s, Abandon(s, x, end));
  }

  lemma IdStep(p: Setup, s: State, step: Step)
    requires IdInv(s) && Enabled(p, s, step)
    ensures IdInv(Apply(p, s, step))
  {
    match step
    case Arrive(request) => IdArrive(p, s, request);
    case Serve(x, serve) => IdServe(p, s, x, serve);
    case Hold(x, hold) => IdHold(s, x, hold);
    case Talk(x, talk) => IdTalk(s, x, talk);
    case Submit(x, submit) => IdSubmit(s, x, submit);
    case Fail(x, error) => IdAbandon(s, x, Settled(Failed(error)));
    case Cancel(x) => IdAbandon(s, x, Settled(Cancelled));
    case Emit(_, _) =>
    case Store(_) =>
    case Tick =>
  }

  /** While fewer than 2^64 + 1 identifiers exist, no two calls share one. */
  lemma IdsUnique(s: State, x: nat, y: nat)
    requires IdInv(s) && s.mints <= U64 && x < |s.calls| && y < |s.calls| && x != y
    requires s.calls[x].operation.Some? && s.calls[y].operation.Some?
    ensures s.calls[x].operation.value.id != s.calls[y].operation.value.id
  {
    var a, b := s.calls[x].operation.value, s.calls[y].operation.value;
    assert a.ticket != b.ticket by { if x < y {} else {} }
    if a.ticket < b.ticket {
      MintsCollideExactly(a.now, a.ticket, b.now, b.ticket);
    } else {
      MintsCollideExactly(b.now, b.ticket, a.now, a.ticket);
    }
  }

  // ---------------------------------------------------------------- the wire

  /** Has the request of this call not been written yet? */
  predicate Unsent(phase: Phase) {
    || phase.Admitted? || phase.Minted? || phase.Queued? || phase.Connecting? || phase.Handshaking?
    || (phase.Sending? && !phase.delivered)
  }

  /** No connection carries a request of caller `x`. */
  ghost predicate Fresh(conns: seq<Connection>, x: nat) {
    forall c, j :: 0 <= c < |conns| && 0 <= j < |conns[c].sent| ==> conns[c].sent[j].caller != x
  }

  /** What was written is the request of the call that wrote it, credential and envelope included. */
  ghost predicate DispatchOk(calls: seq<Call>, d: Dispatch) {
    && d.caller < |calls| && Uses(calls[d.caller], StatefulMtlsTcp) && calls[d.caller].operation.Some?
    && d == DispatchOf(calls[d.caller], d.caller)
  }

  ghost predicate ConnOk(calls: seq<Call>, conn: Connection) {
    && conn.received <= |conn.sent| <= conn.received + 1
    && conn.received <= |conn.log|
    && (forall j :: 0 <= j < |conn.sent| ==> DispatchOk(calls, conn.sent[j]))
    && (forall i, j :: 0 <= i < j < |conn.sent| ==> conn.sent[i].caller != conn.sent[j].caller)
  }

  /** The reply stands at `index` among the frames of its connection, the request of caller `x` at the same
      place among the requests. */
  ghost predicate Witnessed(conns: seq<Connection>, x: nat, end: End) {
    end.Answer? ==>
      && end.on < |conns| && end.index < conns[end.on].received
      && end.index < |conns[end.on].sent| && conns[end.on].sent[end.index].caller == x
      && end.index < |conns[end.on].log| && conns[end.on].log[end.index].frame == Decodable(end.reply)
  }

  /** The last request on the connection is caller `x`'s, and the only one without a frame read for it. */
  ghost predicate Awaits(conn: Connection, x: nat) {
    |conn.sent| == conn.received + 1 && conn.sent[conn.received].caller == x
  }

  /** Where caller `x` stands in its exchange. */
  ghost predicate CallOk(conns: seq<Connection>, x: nat, call: Call) {
    && (Unsent(call.phase) && !call.phase.Admitted? ==> call.operation.Some?)
    && (Unsent(call.phase) ==> Fresh(conns, x))
    && (Owned(call.phase).Some? ==> Owned(call.phase).value < |conns|)
    && match call.phase
       case Handshaking(c) => conns[c].received == |conns[c].sent|
       case Sending(c, false) => conns[c].received == |conns[c].sent|
       case Sending(c, true) => Awaits(conns[c], x)
       case Receiving(c) => Awaits(conns[c], x)
       case Parking(c, end) =>
         end.Answer? && end.on == c && conns[c].received == |conns[c].sent| && Witnessed(conns, x, end)
       case Closing(c, end) => end.Settled?
       case Unlocking(end) => Witnessed(conns, x, end)
       case Returning(end) => Witnessed(conns, x, end)
       case Done(end) => Witnessed(conns, x, end)
       case _ => true
  }

  ghost predicate WireInv(s: State) {
    && (forall c :: 0 <= c < |s.conns| ==> ConnOk(s.calls, s.conns[c]))
    && (forall x :: 0 <= x < |s.calls| ==> CallOk(s.conns, x, s.calls[x]))
    && (s.slot.Some? ==> s.slot.value < |s.conns| && s.conns[s.slot.value].received == |s.conns[s.slot.value].sent|)
  }

  /** Calls keep their requests and, once minted, their operations. */
  ghost predicate Steady(calls: seq<Call>, calls': seq<Call>) {
    && |calls| <= |calls'|
    && forall x :: 0 <= x < |calls| ==>
         && calls'[x].request == calls[x].request
         && (calls[x].operation.Some? ==> calls'[x].operation == calls[x].operation)
  }

  lemma ConnKept(calls: seq<Call>, calls': seq<Call>, conn: Connection)
    requires ConnOk(calls, conn) && Steady(calls, calls')
    ensures ConnOk(calls', conn)
  {
    forall j | 0 <= j < |conn.sent| ensures DispatchOk(calls', conn.sent[j]) {
      assert DispatchOk(calls, conn.sent[j]);
    }
  }

  lemma ConnsKept(s: State, s': State)
    requires WireInv(s) && Steady(s.calls, s'.calls) && s'.conns == s.conns
    ensures forall c :: 0 <= c < |s'.conns| ==> ConnOk(s'.calls, s'.conns[c])
  {
    forall c | 0 <= c < |s'.conns| ensures ConnOk(s'.calls, s'.conns[c]) {
      ConnKept(s.calls, s'.calls, s.conns[c]);
    }
  }

  /** Connections only grow. */
  ghost predicate Later(conns: seq<Connection>, conns': seq<Connection>) {
    && |conns| <= |conns'|
    && forall c :: 0 <= c < |conns| ==>
         conns[c].sent <= conns'[c].sent && conns[c].log <= conns'[c].log && conns[c].received <= conns'[c].received
  }

  /** They grow, and those in `but` aside, carry the same requests and pointers. */
  ghost predicate Grown(conns: seq<Connection>, conns': seq<Connection>, but: set<nat>) {
    && Later(conns, conns')
    && forall c :: 0 <= c < |conns| && c !in but ==>
         conns'[c].sent == conns[c].sent && conns'[c].received == conns[c].received
  }

  /** A call that owns none of the connections in `but` keeps its place, if its own request stays unsent. */
  lemma CallKept(conns: seq<Connection>, conns': seq<Connection>, but: set<nat>, x: nat, call: Call)
    requires CallOk(conns, x, call) && Grown(conns, conns', but)
    requires Owned(call.phase).Some? ==> Owned(call.phase).value !in but
    requires Unsent(call.phase) ==> Fresh(conns', x)
    ensures CallOk(conns', x, call)
  {
    var end := match call.phase
               case Parking(_, e) => e
               case Unlocking(e) => e
               case Returning(e) => e
               case Done(e) => e
               case _ => Settled(Cancelled);
    WitnessKept(conns, conns', but, x, end);
  }

  lemma WitnessKept(conns: seq<Connection>, conns': seq<Connection>, but: set<nat>, x: nat, end: End)
    requires Grown(conns, conns', but)
    ensures Witnessed(conns, x, end) ==> Witnessed(conns', x, end)
  {
    if end.Answer? && Witnessed(conns, x, end) {
      assert conns[end.on].sent <= conns'[end.on].sent && conns[end.on].log <= conns'[end.on].log;
    }
  }

  lemma WireArrive(p: Setup, s: State, request: Request)
    requires WireInv(s)
    ensures WireInv(DoArrive(p, s, request))
  {
    var s' := DoArrive(p, s, request);
    assert forall y :: 0 <= y < |s.calls| ==> s'.calls[y] == s.calls[y];
    ConnsKept(s, s');
    forall c, j | 0 <= c < |s.conns| && 0 <= j < |s.conns[c].sent| ensures s.conns[c].sent[j].caller != |s.calls| {
      assert DispatchOk(s.calls, s.conns[c].sent[j]);
    }
    assert Fresh(s'.conns, |s.calls|);
  }

  lemma WireServe(p: Setup, s: State, x: nat, serve: Serve)
    requires IdInv(s) && WireInv(s) && x < |s.calls| && CanServe(p, s.calls[x], serve)
    ensures WireInv(DoServe(s, x, serve))
  {
    var s' := DoServe(s, x, serve);
    assert Only(s, s', x) && s'.conns == s.conns;
    ConnsKept(s, s');
    assert CallOk(s.conns, x, s.calls[x]);
    assert CallOk(s'.conns, x, s'.calls[x]);
  }

  /** Only caller `x` moves, and the others own none of the connections that change. */
  lemma WireOthers(s: State, s': State, x: nat, but: set<nat>)
    requires WireInv(s) && Only(s, s', x) && Grown(s.conns, s'.conns, but)
    requires forall y :: 0 <= y < |s.calls| && y != x && Owned(s.calls[y].phase).Some? ==>
               Owned(s.calls[y].phase).value !in but
    requires forall y :: 0 <= y < |s.calls| && y != x && Unsent(s.calls[y].phase) ==> Fresh(s'.conns, y)
    ensures forall y :: 0 <= y < |s.calls| && y != x ==> CallOk(s'.conns, y, s'.calls[y])
  {
    forall y | 0 <= y < |s.calls| && y != x ensures CallOk(s'.conns, y, s'.calls[y]) {
      CallKept(s.conns, s'.conns, but, y, s.calls[y]);
    }
  }

  lemma WireHold(s: State, x: nat, hold: Hold)
    requires WireInv(s) && x < |s.calls| && CanHold(s, x, hold)
    ensures WireInv(DoHold(s, x, hold))
  {
    var s' := DoHold(s, x, hold);
    assert CallOk(s.conns, x, s.calls[x]);
    if hold == Close {
      WireClose(s, x);
    } else {
      assert s'.conns == s.conns && Only(s, s', x);
      ConnsKept(s, s');
      assert CallOk(s.conns, x, s'.calls[x]);
    }
  }

  lemma WireClose(s: State, x: nat)
    requires WireInv(s) && x < |s.calls| && CanHold(s, x, Close)
    ensures WireInv(DoHold(s, x, Close))
  {
    var s' := DoHold(s, x, Close);
    assert CallOk(s.conns, x, s.calls[x]);
    WireOthers(s, s', x, {});
    assert CallOk(s'.conns, x, s'.calls[x]);
    forall c | 0 <= c < |s'.conns| ensures ConnOk(s'.calls, s'.conns[c]) {
      ConnKept(s.calls, s'.calls, s.conns[c]);
    }
  }

  lemma WireTalk(s: State, x: nat, talk: Talk)
    requires LockInv(s) && WireInv(s) && x < |s.calls| && CanTalk(s, x, talk)
    requires SlotInv(s)
    ensures WireInv(DoTalk(s, x, talk))
  {
    match talk
    case Connected => WireConnected(s, x);
    case Transmit => WireTransmit(s, x);
    case Receive => WireReceive(s, x);
    case _ =>
      assert Only(s, DoTalk(s, x, talk), x);
      ConnsKept(s, DoTalk(s, x, talk));
      assert CallOk(s.conns, x, s.calls[x]);
  }

  lemma WireConnected(s: State, x: nat)
    requires WireInv(s) && x < |s.calls| && CanTalk(s, x, Connected)
    ensures WireInv(DoTalk(s, x, Connected))
  {
    var s' := DoTalk(s, x, Connected);
    WireOthers(s, s', x, {});
    forall c | 0 <= c < |s.conns| ensures ConnOk(s'.calls, s'.conns[c]) {
      ConnKept(s.calls, s'.calls, s.conns[c]);
    }
    assert CallOk(s.conns, x, s.calls[x]);
    assert CallOk(s'.conns, x, s'.calls[x]);
  }

  /** While `x` has a connection in hand nobody else does, and none is parked. */
  lemma SoleOwner(s: State, x: nat)
    requires LockInv(s) && SlotInv(s) && x < |s.calls| && Took(s.calls[x].phase)
    ensures s.slot.None? && forall y :: 0 <= y < |s.calls| && y != x ==> Owned(s.calls[y].phase).None?
  {
    assert s.queue[0] == x;
  }

  lemma WireReceive(s: State, x: nat)
    requires LockInv(s) && SlotInv(s) && WireInv(s) && x < |s.calls| && CanTalk(s, x, Receive)
    ensures WireInv(DoTalk(s, x, Receive))
  {
    var s', c := DoTalk(s, x, Receive), s.calls[x].phase.c;
    SoleOwner(s, x);
    assert CallOk(s.conns, x, s.calls[x]);
    ReceiveConns(s, x);
    assert Grown(s.conns, s'.conns, {c});
    WireOthers(s, s', x, {c});
    assert CallOk(s'.conns, x, s'.calls[x]);
  }

  lemma ReceiveConns(s: State, x: nat)
    requires WireInv(s) && x < |s.calls| && CanTalk(s, x, Receive) && Awaits(s.conns[s.calls[x].phase.c], x)
    ensures var s' := DoTalk(s, x, Receive); forall c :: 0 <= c < |s'.conns| ==> ConnOk(s'.calls, s'.conns[c])
  {
    var s' := DoTalk(s, x, Receive);
    forall c | 0 <= c < |s'.conns| ensures ConnOk(s'.calls, s'.conns[c]) {
      ConnKept(s.calls, s'.calls, s.conns[c]);
    }
  }

  lemma WireTransmit(s: State, x: nat)
    requires LockInv(s) && SlotInv(s) && WireInv(s) && x < |s.calls| && CanTalk(s, x, Transmit)
    ensures WireInv(DoTalk(s, x, Transmit))
  {
    var s', c := DoTalk(s, x, Transmit), s.calls[x].phase.c;
    SoleOwner(s, x);
    assert CallOk(s.conns, x, s.calls[x]);
    TransmitConns(s, x);
    assert Grown(s.conns, s'.conns, {c});
    forall y | 0 <= y < |s.calls| && y != x && Unsent(s.calls[y].phase) ensures Fresh(s'.conns, y) {
      assert CallOk(s.conns, y, s.calls[y]);
    }
    WireOthers(s, s', x, {c});
    assert CallOk(s'.conns, x, s'.calls[x]);
  }

  lemma TransmitConns(s: State, x: nat)
    requires WireInv(s) && x < |s.calls| && CanTalk(s, x, Transmit) && Fresh(s.conns, x)
    requires var conn := s.conns[s.calls[x].phase.c]; conn.received == |conn.sent|
    ensures var s' := DoTalk(s, x, Transmit); forall c :: 0 <= c < |s'.conns| ==> ConnOk(s'.calls, s'.conns[c])
  {
    var s' := DoTalk(s, x, Transmit);
    forall c | 0 <= c < |s'.conns| ensures ConnOk(s'.calls, s'.conns[c]) {
      ConnKept(s.calls, s'.calls, s.conns[c]);
    }
  }

  lemma WireSubmit(s: State, x: nat, submit: Submit)
    requires WireInv(s) && x < |s.calls| && CanSubmit(s, x, submit)
    ensures WireInv(DoSubmit(s, x, submit))
  {
    assert Only(s, DoSubmit(s, x, submit), x);
    ConnsKept(s, DoSubmit(s, x, submit));
  }

  lemma WireAbandon(s: State, x: nat, outcome: Outcome)
    requires WireInv(s) && x < |s.calls|
    ensures WireInv(Abandon(s, x, Settled(outcome)))
  {
    assert Only(s, Abandon(s, x, Settled(outcome)), x);
    ConnsKept(s, Abandon(s, x, Settled(outcome)));
    assert CallOk(s.conns, x, s.calls[x]);
  }

  lemma WireEmit(s: State, c: nat, e: Emission)
    requires WireInv(s) && c < |s.conns|
    ensures WireInv(DoEmit(s, c, e))
  {
    var s' := DoEmit(s, c, e);
    forall y | 0 <= y < |s.calls| ensures CallOk(s'.conns, y, s'.calls[y]) {
      CallKept(s.conns, s'.conns, {}, y, s.calls[y]);
    }
    forall d | 0 <= d < |s'.conns| ensures ConnOk(s'.calls, s'.conns[d]) {
      ConnKept(s.calls, s'.calls, s.conns[d]);
    }
  }

  lemma WireStep(p: Setup, s: State, step: Step)
    requires LockInv(s) && SlotInv(s) && IdInv(s) && WireInv(s) && Enabled(p, s, step)
    ensures WireInv(Apply(p, s, step))
  {
    match step
    case Arrive(request) => WireArrive(p, s, request);
    case Serve(x, serve) => WireServe(p, s, x, serve);
    case Hold(x, hold) => WireHold(s, x, hold);
    case Talk(x, talk) => WireTalk(s, x, talk);
    case Submit(x, submit) => WireSubmit(s, x, submit);
    case Fail(x, error) => WireAbandon(s, x, Failed(error));
    case Cancel(x) => WireAbandon(s, x, Cancelled);
    case Emit(c, e) => WireEmit(s, c, e);
    case Store(_) =>
    case Tick =>
  }

  /** Whoever has a request on a connection is past sending it. */
  lemma SenderSent(s: State, c: nat, j: nat)
    requires WireInv(s) && c < |s.conns| && j < |s.conns[c].sent|
    ensures s.conns[c].sent[j].caller < |s.calls| && !Unsent(s.calls[s.conns[c].sent[j].caller].phase)
  {
    assert ConnOk(s.calls, s.conns[c]) && DispatchOk(s.calls, s.conns[c].sent[j]);
    assert CallOk(s.conns, s.conns[c].sent[j].caller, s.calls[s.conns[c].sent[j].caller]);
  }

  /** The requests on one connection have distinct identifiers while at most 2^64 were minted. */
  lemma SentDistinct(s: State, conn: Connection)
    requires IdInv(s) && s.mints <= U64 && ConnOk(s.calls, conn)
    ensures DistinctIdentifiers(conn.sent)
  {
    forall i, j | 0 <= i < j < |conn.sent| ensures Identifier(conn.sent[i]) != Identifier(conn.sent[j]) {
      assert DispatchOk(s.calls, conn.sent[i]) && DispatchOk(s.calls, conn.sent[j]);
      IdsUnique(s, conn.sent[i].caller, conn.sent[j].caller);
    }
  }

  // ---------------------------------------------------------------- what is parked

  /** On giving the lock up, a caller has put its connection back exactly if it decoded a reply from it. */
  ghost predicate ParkInv(s: State) {
    forall x :: 0 <= x < |s.calls| && s.calls[x].phase.Unlocking? ==>
      s.slot == if s.calls[x].phase.end.Answer? then Some(s.calls[x].phase.end.on) else None
  }

  lemma ParkHold(s: State, x: nat, hold: Hold)
    requires LockInv(s) && SlotInv(s) && WireInv(s) && ParkInv(s) && x < |s.calls| && CanHold(s, x, hold)
    ensures ParkInv(DoHold(s, x, hold))
  {
    assert CallOk(s.conns, x, s.calls[x]);
    var s' := DoHold(s, x, hold);
    assert Only(s, s', x);
    if hold != Enqueue {
      assert s.queue[0] == x;
      assert forall y :: 0 <= y < |s.calls| && y != x ==> !OwnsLock(s.calls[y].phase);
    }
  }

  lemma ParkServe(p: Setup, s: State, x: nat, serve: Serve)
    requires ParkInv(s) && x < |s.calls| && CanServe(p, s.calls[x], serve)
    ensures ParkInv(DoServe(s, x, serve))
  {
  }

  lemma ParkAbandon(s: State, x: nat, outcome: Outcome)
    requires SlotInv(s) && ParkInv(s) && x < |s.calls|
    ensures ParkInv(Abandon(s, x, Settled(outcome)))
  {
  }

  lemma ParkStep(p: Setup, s: State, step: Step)
    requires LockInv(s) && SlotInv(s) && WireInv(s) && ParkInv(s) && Enabled(p, s, step)
    ensures ParkInv(Apply(p, s, step))
  {
    match step
    case Arrive(request) =>
    case Serve(x, serve) => ParkServe(p, s, x, serve);
    case Hold(x, hold) => ParkHold(s, x, hold);
    case Talk(x, talk) => ParkTalk(s, x, talk);
    case Submit(x, submit) => ParkSubmit(s, x, submit);
    case Fail(x, error) => ParkAbandon(s, x, Failed(error));
    case Cancel(x) => ParkAbandon(s, x, Cancelled);
    case Emit(_, _) =>
    case Store(_) =>
    case Tick =>
  }

  lemma ParkTalk(s: State, x: nat, talk: Talk)
    requires ParkInv(s) && x < |s.calls| && CanTalk(s, x, talk)
    ensures ParkInv(DoTalk(s, x, talk))
  {
  }

  lemma ParkSubmit(s: State, x: nat, submit: Submit)
    requires ParkInv(s) && x < |s.calls| && CanSubmit(s, x, submit)
    ensures ParkInv(DoSubmit(s, x, submit))
  {
  }
}
