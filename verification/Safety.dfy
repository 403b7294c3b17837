/** What holds in every reachable state of the gateway, and the theorems that follow. */
module Safety {
  import opened Prelude
  import opened Authorization
  import opened OperationIds
  import opened Gateway
  import opened Peer
  import opened Machine
  import opened Connections
  import opened Correlation
  import opened Permits
  import opened Outbound
  import opened Reuse
  import opened Broker
  import opened Latency

  ghost predicate Inv(p: Setup, s: State) {
    && LockInv(s) && SlotInv(s) && IdInv(s) && WireInv(s) && ParkInv(s)
    && PermitInv(s) && FitInv(p, s) && DoorInv(p, s) && OutboundInv(p, s) && ReuseInv(s) && BrokerInv(p, s)
    && LatencyInv(p, s) && PatienceInv(p, s)
  }

  lemma InvStep(p: Setup, s: State, step: Step)
    requires Inv(p, s) && Enabled(p, s, step)
    ensures Inv(p, Apply(p, s, step))
  {
    LockStep(p, s, step);
    SlotStep(p, s, step);
    IdStep(p, s, step);
    WireStep(p, s, step);
    ParkStep(p, s, step);
    PermitStep(p, s, step);
    FitStep(p, s, step);
    DoorStep(p, s, step);
    OutboundStep(p, s, step);
    ReuseStep(p, s, step);
    BrokerStep(p, s, step);
    LatencyStep(p, s, step);
    PatienceStep(p, s, step);
  }

  lemma {:induction false} InvRun(p: Setup, s: State, steps: seq<Step>)
    requires Inv(p, s) && IsRun(p, s, steps)
    ensures Inv(p, After(p, s, steps))
    decreases |steps|
  {
    if steps != [] {
      InvStep(p, s, steps[0]);
      InvRun(p, Apply(p, s, steps[0]), steps[1..]);
    }
  }

  lemma InvStart(p: Setup)
    ensures Inv(p, Start())
  {
    StartWired();
    StartServed(p);
  }

  lemma StartWired()
    ensures LockInv(Start()) && SlotInv(Start()) && WireInv(Start()) && ParkInv(Start())
  {
  }

  lemma StartServed(p: Setup)
    ensures IdInv(Start()) && PermitInv(Start()) && FitInv(p, Start()) && DoorInv(p, Start())
    ensures OutboundInv(p, Start()) && ReuseInv(Start()) && BrokerInv(p, Start())
    ensures LatencyInv(p, Start()) && PatienceInv(p, Start())
  {
  }

  /** Every step keeps the invariant, so every reachable state has it. */
  lemma Always(p: Setup, s: State)
    requires Reachable(p, s)
    ensures Inv(p, s)
  {
    var steps :| IsRun(p, Start(), steps) && After(p, Start(), steps) == s;
    InvStart(p);
    InvRun(p, Start(), steps);
  }

  lemma AlwaysLocked(p: Setup, s: State)
    requires Reachable(p, s)
    ensures LockInv(s) && SlotInv(s)
  {
    Always(p, s);
  }

  // ---------------------------------------------------------------- connections and permits

  /** At most one connection is open; while a caller holds it, the slot is empty and that caller owns the lock. */
  lemma OneConnection(p: Setup, s: State)
    requires Reachable(p, s)
    ensures forall c, d :: 0 <= c < |s.conns| && 0 <= d < |s.conns| && s.conns[c].open && s.conns[d].open ==> c == d
    ensures forall x :: 0 <= x < |s.calls| && Owned(s.calls[x].phase).Some? ==>
              && s.slot.None? && s.queue != [] && s.queue[0] == x
              && Owned(s.calls[x].phase).value < |s.conns| && s.conns[Owned(s.calls[x].phase).value].open
    ensures s.slot.Some? ==> s.slot.value < |s.conns| && s.conns[s.slot.value].open
  {
    Always(p, s);
  }

  /** When a caller gives the lock up, its connection is back in the slot if and only if it decoded a reply from
      it; after any error, timeout or cancellation it is already closed, and nothing is open at all. */
  lemma ParkedExactly(p: Setup, s: State, x: nat)
    requires Reachable(p, s) && x < |s.calls| && s.calls[x].phase.Unlocking?
    ensures s.calls[x].phase.end.Answer? ==> s.slot == Some(s.calls[x].phase.end.on)
    ensures s.calls[x].phase.end.Settled? ==> s.slot == None && forall c :: 0 <= c < |s.conns| ==> !s.conns[c].open
  {
    Always(p, s);
    assert s.queue[0] == x && Owned(s.calls[x].phase).None?;
  }

  /** A connection about to be dropped never carries a reply along, and its owner heads the queue. */
  lemma ClosingSettled(p: Setup, s: State, x: nat)
    requires Reachable(p, s) && x < |s.calls| && s.calls[x].phase.Closing?
    ensures s.calls[x].phase.end.Settled? && s.calls[x].phase.c < |s.conns|
  {
    Always(p, s);
    assert CallOk(s.conns, x, s.calls[x]);
  }

  /** The caller that gives the lock up is its owner, and is in the queue no more. */
  lemma UnlockerIsOwner(p: Setup, s: State, x: nat)
    requires Reachable(p, s) && x < |s.calls| && s.calls[x].phase.Unlocking?
    ensures s.queue != [] && s.queue[0] == x && x !in s.queue[1..]
  {
    AlwaysLocked(p, s);
  }

  /** Whoever waits for the lock or owns it has arrived. */
  lemma QueueInRange(p: Setup, s: State)
    requires Reachable(p, s)
    ensures forall x :: x in s.queue ==> x < |s.calls|
  {
    AlwaysLocked(p, s);
  }

  /** A caller about to write has what it takes. */
  lemma SenderReady(p: Setup, s: State, x: nat)
    requires Reachable(p, s) && x < |s.calls| && s.calls[x].phase.Sending? && !s.calls[x].phase.delivered
    ensures CanTalk(s, x, Transmit)
  {
    Always(p, s);
    assert CallOk(s.conns, x, s.calls[x]) && Fits(p, s.calls[x]);
  }

  /** A caller that waits for its reply has its request on the connection, the last and the only one without a
      frame read for it. */
  lemma AwaitsReply(p: Setup, s: State, x: nat)
    requires Reachable(p, s) && x < |s.calls| && s.calls[x].phase.Receiving?
    ensures s.calls[x].phase.c < |s.conns|
    ensures var conn := s.conns[s.calls[x].phase.c]; Awaits(conn, x) && conn.received <= |conn.log|
  {
    Always(p, s);
    assert CallOk(s.conns, x, s.calls[x]);
    assert ConnOk(s.calls, s.conns[s.calls[x].phase.c]);
  }

  /** A read on its way out ends neither as unauthorized nor with backpressure. */
  lemma NotTurnedAway(p: Setup, s: State, x: nat)
    requires Reachable(p, s) && x < |s.calls| && s.calls[x].request.Read? && s.calls[x].phase.Returning?
    ensures Judge(s.calls[x], s.calls[x].phase.end) !in {Failed(Unauthorized), Failed(Backpressure)}
  {
    Always(p, s);
    assert Fits(p, s.calls[x]) && Door(p, s.calls[x]);
    ReturnNotTurned(p, s.calls[x]);
  }

  /** Free permits and reads in flight always make 64, however the reads end. */
  lemma PermitsConserved(p: Setup, s: State)
    requires Reachable(p, s)
    ensures s.permits + InFlight(s.calls) == 64
  {
    Always(p, s);
  }

  /** A read is refused for backpressure exactly when its header is valid and 64 reads are in flight; a status
      poll never is, and leaves the permits alone. */
  lemma BackpressureExactly(p: Setup, s: State, request: Request)
    requires Reachable(p, s)
    ensures var s' := DoArrive(p, s, request);
            && (s'.calls[|s.calls|].phase == Done(Settled(Failed(Backpressure)))
                <==> request.Read? && ValidAuthorization(request.header, p.headerCap) && InFlight(s.calls) == 64)
            && (request.Poll? ==> s'.permits == s.permits)
  {
    Always(p, s);
  }

  /** A read that got its permit ends in some other way than being turned away. */
  lemma {:induction false} PastDoor(p: Setup, s: State, steps: seq<Step>, x: nat)
    requires Inv(p, s) && IsRun(p, s, steps)
    requires x < |s.calls| && s.calls[x].request.Read? && !TurnedAway(s.calls[x])
    ensures var s' := After(p, s, steps);
            x < |s'.calls| && s'.calls[x].request == s.calls[x].request && !TurnedAway(s'.calls[x])
    decreases |steps|
  {
    if steps != [] {
      PastDoorStep(p, s, steps[0], x);
      InvStep(p, s, steps[0]);
      PastDoor(p, Apply(p, s, steps[0]), steps[1..], x);
    }
  }

  /** So a read that got its permit was, once it is over, refused as not configured exactly when its mode was not. */
  lemma PermittedOutcome(p: Setup, s: State, steps: seq<Step>, x: nat)
    requires Reachable(p, s) && IsRun(p, s, steps)
    requires x < |s.calls| && s.calls[x].request.Read? && s.calls[x].phase.Admitted?
    ensures var s' := After(p, s, steps);
            && x < |s'.calls|
            && (s'.calls[x].phase.Done? ==>
                  (OutcomeOf(s'.calls[x]) == Failed(NotConfigured) <==> !Configured(p, s.calls[x].request.mode)))
  {
    var s' := After(p, s, steps);
    Always(p, s);
    PastDoor(p, s, steps, x);
    InvRun(p, s, steps);
    if s'.calls[x].phase.Done? {
      assert Fits(p, s'.calls[x]) && Door(p, s'.calls[x]);
      RefusedExactly(p, s'.calls[x]);
    }
  }

  /** What the code of each mode can end with. */
  predicate EndsOf(request: Request, outcome: Outcome) {
    match outcome
    case Cancelled => true
    case Replied(reply) =>
      (match request
       case Read(mode, _, _) =>
         if mode == JetStreamAsync then reply.Accepted? else reply.Projection? && reply.mode == mode
       case Poll(_, _) => reply.StatusReport?)
    case Failed(error) =>
      match request
      case Read(DirectReadOnlyDatabase, _, _) =>
        error in {Unauthorized, Backpressure, NotConfigured, Upstream, InvalidResponse}
      case Read(StatelessHttp, _, _) =>
        error in {Unauthorized, Backpressure, NotConfigured, Timeout, Upstream, InvalidResponse}
      case Read(StatefulMtlsTcp, _, _) => true
      case Read(JetStreamAsync, _, _) =>
        error in {Unauthorized, Backpressure, NotConfigured, InvalidRequest, Timeout, Upstream}
      case Poll(_, _) => error in {InvalidRequest, NotConfigured, Timeout, Upstream, InvalidResponse}
  }

  lemma FitEnds(p: Setup, call: Call)
    requires Fits(p, call) && call.phase.Done?
    ensures EndsOf(call.request, OutcomeOf(call))
  {
  }

  /** Over whole runs each mode ends with a reply of its own kind, or an error of its own code. */
  lemma OutcomesByMode(p: Setup, s: State, x: nat)
    requires Reachable(p, s) && x < |s.calls| && s.calls[x].phase.Done?
    ensures EndsOf(s.calls[x].request, OutcomeOf(s.calls[x]))
  {
    Always(p, s);
    assert Fits(p, s.calls[x]);
    FitEnds(p, s.calls[x]);
  }

  lemma PollEnds(p: Setup, call: Call)
    requires Fits(p, call) && Door(p, call) && call.request.Poll? && call.phase.Done?
    ensures OutcomeOf(call) == Failed(InvalidRequest) <==> !ValidIdentifier(call.request.operationId, 128)
    ensures OutcomeOf(call) == Failed(NotConfigured) <==> ValidIdentifier(call.request.operationId, 128) && !p.api
  {
  }

  lemma AskedIfEntered(p: Setup, s: State, x: nat)
    requires OutboundInv(p, s) && x < |s.calls| && s.calls[x].request.Poll?
    ensures Asked(s.issued, x) <==> ValidIdentifier(s.calls[x].request.operationId, 128) && p.api
  {
    assert PollEntered(p, s.calls[x].request) ==> Asked(s.issued, x);
    if Asked(s.issued, x) {
      var i :| 0 <= i < |s.issued| && s.issued[i].caller == x;
      assert InquiryOk(p, s, s.issued[i]);
    }
  }

  /** A finished poll was refused as invalid exactly for an invalid identifier, and as not configured exactly
      without the API; then nothing was sent for it, and otherwise one HTTP request was. */
  lemma PollsExactly(p: Setup, s: State, x: nat)
    requires Reachable(p, s) && x < |s.calls| && s.calls[x].request.Poll? && s.calls[x].phase.Done?
    ensures var id := s.calls[x].request.operationId;
            && (OutcomeOf(s.calls[x]) == Failed(InvalidRequest) <==> !ValidIdentifier(id, 128))
            && (OutcomeOf(s.calls[x]) == Failed(NotConfigured) <==> ValidIdentifier(id, 128) && !p.api)
            && (Asked(s.issued, x) <==> ValidIdentifier(id, 128) && p.api)
  {
    Always(p, s);
    assert Fits(p, s.calls[x]) && Door(p, s.calls[x]);
    PollEnds(p, s.calls[x]);
    AskedIfEntered(p, s, x);
  }

  /** Nothing leaves the process for a poll of an invalid identifier, for a read with an invalid header, or in a
      mode that is not configured. */
  lemma SentIfEntered(p: Setup, s: State)
    requires Reachable(p, s)
    ensures forall i :: 0 <= i < |s.issued| ==>
              s.issued[i].caller < |s.calls| && Entered(p, s.calls[s.issued[i].caller].request)
    ensures forall c, j :: 0 <= c < |s.conns| && 0 <= j < |s.conns[c].sent| ==>
              var y := s.conns[c].sent[j].caller; y < |s.calls| && Entered(p, s.calls[y].request)
    ensures forall i :: 0 <= i < |s.stored| ==>
              s.stored[i].caller < |s.calls| && Entered(p, s.calls[s.stored[i].caller].request)
  {
    Always(p, s);
    forall i | 0 <= i < |s.issued|
      ensures s.issued[i].caller < |s.calls| && Entered(p, s.calls[s.issued[i].caller].request)
    {
      assert InquiryOk(p, s, s.issued[i]);
    }
  }

  // ---------------------------------------------------------------- envelopes

  /** An envelope as the source promises it, field by field: it names the call's own mint, expires ten seconds
      after the clock reading in that name, and speaks for a valid subject. */
  ghost predicate Stamped(call: Call, envelope: Envelope) {
    && call.request.Read? && call.operation.Some?
    && envelope.version == 1 && envelope.resource == "youtube_status"
    && envelope.subject == call.request.subject && ValidIdentifier(envelope.subject, 256)
    && 10_000 <= envelope.deadlineUnixMs < 0x1_0000_0000_0000_0000
    && envelope.operationId
       == OperationId(envelope.deadlineUnixMs - 10_000, (1 + call.operation.value.ticket) % 0x1_0000_0000_0000_0000)
  }

  /** On a connection: checked, with no dedupe key, and the call's own header. */
  ghost predicate DispatchStamped(p: Setup, s: State, d: Dispatch) {
    && d.caller < |s.calls| && Stamped(s.calls[d.caller], d.operation.envelope)
    && d.operation.envelope.dedupeKey == None
    && d.operation.credential == BrowserBearer(s.calls[d.caller].request.header)
    && p.encodes(d.operation)
  }

  /** In the stream: checked, with the identifier as dedupe key, and an attestation over this very envelope. */
  ghost predicate MessageStamped(p: Setup, s: State, m: Message) {
    && m.caller < |s.calls| && Stamped(s.calls[m.caller], m.payload.envelope)
    && m.payload.envelope.dedupeKey == Some(m.payload.envelope.operationId)
    && m.dedupeId == "act-operation:" + m.payload.envelope.operationId
    && p.key.Some? && m.payload.credential == Attestation(p.key.value, m.payload.envelope)
    && p.encodes(m.payload)
  }

  lemma DispatchIsStamped(p: Setup, s: State, c: nat, j: nat)
    requires IdInv(s) && WireInv(s) && OutboundInv(p, s) && c < |s.conns| && j < |s.conns[c].sent|
    ensures DispatchStamped(p, s, s.conns[c].sent[j])
  {
    assert ConnOk(s.calls, s.conns[c]) && DispatchOk(s.calls, s.conns[c].sent[j]);
  }

  lemma MessageIsStamped(p: Setup, s: State, i: nat)
    requires IdInv(s) && BrokerInv(p, s) && OutboundInv(p, s) && i < |s.stored|
    ensures MessageStamped(p, s, s.stored[i])
  {
    assert AttemptOk(p, s, s.stored[i].caller);
  }

  /** Every operation ever sent on a connection, and every message ever stored, is stamped as it should be. */
  lemma EnvelopesStamped(p: Setup, s: State)
    requires Reachable(p, s)
    ensures forall c, j :: 0 <= c < |s.conns| && 0 <= j < |s.conns[c].sent| ==>
              DispatchStamped(p, s, s.conns[c].sent[j])
    ensures forall i :: 0 <= i < |s.stored| ==> MessageStamped(p, s, s.stored[i])
  {
    Always(p, s);
    forall c, j | 0 <= c < |s.conns| && 0 <= j < |s.conns[c].sent| ensures DispatchStamped(p, s, s.conns[c].sent[j]) {
      DispatchIsStamped(p, s, c, j);
    }
    forall i | 0 <= i < |s.stored| ensures MessageStamped(p, s, s.stored[i]) {
      MessageIsStamped(p, s, i);
    }
  }

  /** A call that minted its operation and was refused as invalid before it had the lock, or without it, had an
      operation that fails its checks. */
  lemma RefusedIfUnfit(p: Setup, s: State, x: nat)
    requires Reachable(p, s) && x < |s.calls| && s.calls[x].phase.Done? && s.calls[x].operation.Some?
    requires s.calls[x].lockedAt.None? && OutcomeOf(s.calls[x]) == Failed(InvalidRequest)
    ensures !Encodable(p, s.calls[x])
  {
    Always(p, s);
    assert Patient(p, s.calls[x]);
  }

  // ---------------------------------------------------------------- identifiers

  /** Over any interleaving of at most 2^64 mints, and whatever the wall clock does, all identifiers differ. */
  lemma IdentifiersDistinct(p: Setup, s: State)
    requires Reachable(p, s) && s.mints <= U64
    ensures forall x, y | 0 <= x < |s.calls| && 0 <= y < |s.calls| && x != y &&
                          s.calls[x].operation.Some? && s.calls[y].operation.Some? ::
              s.calls[x].operation.value.id != s.calls[y].operation.value.id
  {
    Always(p, s);
    forall x, y | 0 <= x < |s.calls| && 0 <= y < |s.calls| && x != y &&
                  s.calls[x].operation.Some? && s.calls[y].operation.Some?
      ensures s.calls[x].operation.value.id != s.calls[y].operation.value.id
    {
      IdsUnique(s, x, y);
    }
  }

  // ---------------------------------------------------------------- which reply answers which call

  /** The call ended with this reply frame in hand. */
  predicate AnsweredBy(call: Call, end: End) {
    end.Answer? && call.phase == Done(end)
  }

  /** Some connection carries, at the place of this call's own request, an error-free reply frame that names
      this call's own operation and holds the data. */
  ghost predicate IsOwnReply(s: State, x: nat, data: Json)
    requires x < |s.calls|
  {
    exists c, j ::
      && 0 <= c < |s.conns| && 0 <= j < |s.conns[c].sent| && j < |s.conns[c].log|
      && s.conns[c].sent[j].caller == x
      && s.calls[x].operation.Some? && Identifier(s.conns[c].sent[j]) == s.calls[x].operation.value.id
      && s.conns[c].log[j].frame == Decodable(Reply(Some(Identifier(s.conns[c].sent[j])), None, Some(data)))
  }

  /** Whatever the peer does: a TCP projection is the content of the reply to this call's own request. */
  lemma ProjectionsAreOwn(p: Setup, s: State, x: nat, data: Json)
    requires Reachable(p, s) && x < |s.calls| && s.calls[x].phase.Done?
    requires OutcomeOf(s.calls[x]) == Replied(Projection(StatefulMtlsTcp, data))
    ensures IsOwnReply(s, x, data)
  {
    Always(p, s);
    OwnReply(p, s, x, data);
  }

  lemma OwnReply(p: Setup, s: State, x: nat, data: Json)
    requires WireInv(s) && x < |s.calls| && s.calls[x].phase.Done? && Fits(p, s.calls[x])
    requires OutcomeOf(s.calls[x]) == Replied(Projection(StatefulMtlsTcp, data))
    ensures IsOwnReply(s, x, data)
  {
    var end := s.calls[x].phase.end;
    assert CallOk(s.conns, x, s.calls[x]);
    assert ConnOk(s.calls, s.conns[end.on]) && DispatchOk(s.calls, s.conns[end.on].sent[end.index]);
    assert s.conns[end.on].log[end.index].frame == Decodable(end.reply);
  }

  /** No two calls can be satisfied by replies that name the same operation. */
  lemma RepliesNotShared(p: Setup, s: State, x: nat, y: nat, end: End, end': End)
    requires Reachable(p, s) && s.mints <= U64 && x < |s.calls| && y < |s.calls| && x != y
    requires AnsweredBy(s.calls[x], end) && OutcomeOf(s.calls[x]).Replied?
    requires AnsweredBy(s.calls[y], end') && OutcomeOf(s.calls[y]).Replied?
    ensures end.reply.operationId != end'.reply.operationId
  {
    Always(p, s);
    IdsUnique(s, x, y);
  }

  /** Nothing is sent twice: over a whole run a call has one request on one connection at most, and makes one
      query or HTTP request at most; no error, timeout or reconnection has it sent again. */
  lemma SentAtMostOnce(p: Setup, s: State)
    requires Reachable(p, s)
    ensures SentOnce(s.conns)
    ensures forall i, j :: 0 <= i < j < |s.issued| ==> s.issued[i].caller != s.issued[j].caller
  {
    Always(p, s);
  }

  /** The connection is reused: over a whole run, at most one more connection is opened than there were owners
      of the lock that ended without a decoded reply; and whoever never owned the lock never wrote. */
  lemma ConnectionReused(p: Setup, s: State)
    requires Reachable(p, s)
    ensures |s.conns| <= LostOwners(s.calls) + 1
    ensures (forall c :: 0 <= c < |s.conns| ==> !s.conns[c].open) ==> |s.conns| <= LostOwners(s.calls)
    ensures forall x :: 0 <= x < |s.calls| && s.calls[x].lockedAt.None? ==> Fresh(s.conns, x)
  {
    Always(p, s);
    OneConnection(p, s);
    AllButOne(s.conns);
  }

  // ---------------------------------------------------------------- latency

  /** Every TCP read is over within 64 * 4 stage timeouts of asking for the lock. */
  lemma LatencyBound(p: Setup, s: State, x: nat)
    requires Reachable(p, s) && x < |s.calls| && s.calls[x].queuedAt.Some?
    ensures if s.calls[x].phase.Done?
            then s.calls[x].stageAt - s.calls[x].queuedAt.value <= 64 * 4 * p.timeout
            else s.clock - s.calls[x].queuedAt.value <= 64 * 4 * p.timeout
  {
    Always(p, s);
    assert Left(p, s, s.calls[x]);
    if InQueue(s.calls[x].phase) {
      var at :| 0 <= at < |s.queue| && s.queue[at] == x;
      WaitedInTime(p, s, at);
    }
  }

  /** And no TCP read times out early: it had taken the lock at least one stage timeout before. */
  lemma NoEarlyTimeout(p: Setup, s: State, x: nat)
    requires Reachable(p, s) && x < |s.calls| && Uses(s.calls[x], StatefulMtlsTcp) && s.calls[x].phase.Done?
    requires OutcomeOf(s.calls[x]) == Failed(Timeout)
    ensures s.calls[x].lockedAt.Some? && p.timeout <= s.calls[x].stageAt - s.calls[x].lockedAt.value
  {
    Always(p, s);
    assert Patient(p, s.calls[x]);
  }

  /** What a finished TCP read can rely on. */
  lemma Finished(p: Setup, s: State, x: nat)
    requires Reachable(p, s) && x < |s.calls| && Uses(s.calls[x], StatefulMtlsTcp) && s.calls[x].phase.Done?
    ensures !TurnedAway(s.calls[x]) ==> (OutcomeOf(s.calls[x]) == Failed(NotConfigured) <==> !p.tcp)
    ensures forall data :: OutcomeOf(s.calls[x]) == Replied(Projection(StatefulMtlsTcp, data)) ==>
              IsOwnReply(s, x, data)
    ensures s.calls[x].lockedAt.None? ==> Fresh(s.conns, x)
    ensures s.calls[x].queuedAt.Some? ==> s.calls[x].stageAt - s.calls[x].queuedAt.value <= 64 * 4 * p.timeout
  {
    Always(p, s);
    assert Fits(p, s.calls[x]) && Door(p, s.calls[x]);
    if !TurnedAway(s.calls[x]) { RefusedExactly(p, s.calls[x]); }
    forall data | OutcomeOf(s.calls[x]) == Replied(Projection(StatefulMtlsTcp, data)) ensures IsOwnReply(s, x, data) {
      OwnReply(p, s, x, data);
    }
    if s.calls[x].queuedAt.Some? { LatencyBound(p, s, x); }
  }

  // ---------------------------------------------------------------- JetStream

  /** An accepted submission has exactly one stored message under its dedupe id: its own, with its subject,
      vouched for by an attestation over its own envelope. */
  lemma AcceptedStoredOnce(p: Setup, s: State, x: nat, id: string)
    requires Reachable(p, s) && s.mints <= U64 && x < |s.calls|
    requires s.calls[x].phase == Done(Settled(Replied(Accepted(id))))
    ensures exists i :: 0 <= i < |s.stored| && s.stored[i].dedupeId == DedupeId(id)
    ensures forall i :: 0 <= i < |s.stored| && s.stored[i].dedupeId == DedupeId(id) ==>
              && s.stored[i].caller == x
              && s.calls[x].request.Read? && p.key.Some?
              && s.stored[i].payload.envelope.operationId == id
              && s.stored[i].payload.envelope.dedupeKey == Some(id)
              && s.stored[i].payload.envelope.subject == s.calls[x].request.subject
              && s.stored[i].payload.credential == Attestation(p.key.value, s.stored[i].payload.envelope)
    ensures forall i, j :: 0 <= i < j < |s.stored| ==> s.stored[i].dedupeId != s.stored[j].dedupeId
  {
    Always(p, s);
    assert AcceptOk(s, x) by { assert Accepts(s.calls[x].phase); }
    forall i | 0 <= i < |s.stored| && s.stored[i].dedupeId == DedupeId(id) ensures s.stored[i].caller == x {
      StoredIsOwn(p, s, x, id, i);
    }
    assert AttemptOk(p, s, x);
  }

  lemma StoredIsOwn(p: Setup, s: State, x: nat, id: string, i: nat)
    requires IdInv(s) && BrokerInv(p, s) && s.mints <= U64 && x in s.attempts && x < |s.calls|
    requires s.calls[x].operation.Some? && s.calls[x].operation.value.id == id
    requires i < |s.stored| && s.stored[i].dedupeId == DedupeId(id)
    ensures s.stored[i].caller == x
  {
    var y := s.stored[i].caller;
    assert AttemptOk(p, s, y);
    DedupeInjective(s.calls[y].operation.value.id, id);
    if y != x { IdsUnique(s, x, y); }
  }

  lemma DedupeInjective(a: string, b: string)
    requires DedupeId(a) == DedupeId(b)
    ensures a == b
  {
    assert DedupeId(a)[14..] == a && DedupeId(b)[14..] == b;
  }

  function AcceptedCalls(s: State): set<nat> {
    set x | 0 <= x < |s.calls| && s.calls[x].phase.Done? && IsAccepted(s.calls[x].phase.end)
  }

  function StoredCallers(stored: seq<Message>): set<nat> {
    set i | 0 <= i < |stored| :: stored[i].caller
  }

  /** Over any run: accepted submissions <= stored messages <= publish attempts.  A publish that timed out may
      still be stored, but is never stored twice. */
  lemma AcceptedStoredAttempted(p: Setup, s: State)
    requires Reachable(p, s) && s.mints <= U64
    ensures AcceptedCalls(s) <= StoredCallers(s.stored) <= s.attempts
    ensures |AcceptedCalls(s)| <= |s.stored| <= |s.attempts|
  {
    Always(p, s);
    forall x | x in AcceptedCalls(s) ensures x in StoredCallers(s.stored) {
      assert AcceptOk(s, x) by { assert Accepts(s.calls[x].phase); }
      AcceptedStoredOnce(p, s, x, s.calls[x].operation.value.id);
      var i :| 0 <= i < |s.stored| && s.stored[i].dedupeId == DedupeId(s.calls[x].operation.value.id);
      assert s.stored[i].caller == x;
    }
    forall i, j | 0 <= i < j < |s.stored| ensures s.stored[i].caller != s.stored[j].caller {
      assert s.stored[i].dedupeId != s.stored[j].dedupeId;
    }
    CountCallers(s.stored);
    SubsetSize(AcceptedCalls(s), StoredCallers(s.stored));
    SubsetSize(StoredCallers(s.stored), s.attempts);
  }

  lemma {:induction false} CountCallers(stored: seq<Message>)
    requires forall i, j :: 0 <= i < j < |stored| ==> stored[i].caller != stored[j].caller
    ensures |StoredCallers(stored)| == |stored|
  {
    if stored != [] {
      var last := |stored| - 1;
      var init := stored[..last];
      CountCallers(init);
      assert StoredCallers(stored) == StoredCallers(init) + {stored[last].caller} by {
        forall y | y in StoredCallers(stored) ensures y in StoredCallers(init) + {stored[last].caller} {
          var i :| 0 <= i < |stored| && stored[i].caller == y;
          if i < last { assert init[i].caller == y; }
        }
        forall y | y in StoredCallers(init) ensures y in StoredCallers(stored) {
          var i :| 0 <= i < |init| && init[i].caller == y;
          assert stored[i].caller == y;
        }
      }
      assert stored[last].caller !in StoredCallers(init);
    }
  }

  lemma {:induction false} SubsetSize(a: set<nat>, b: set<nat>)
    requires a <= b
    ensures |a| <= |b|
  {
    if a != {} {
      var x :| x in a;
      SubsetSize(a - {x}, b - {x});
    }
  }
}
