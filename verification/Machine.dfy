/** The gateway as one concurrent machine.

    Any number of callers interleave.  A step is the code of one caller between two points where another may
    run: an await, or an access to state that is shared (the permits, the counter, the lock, the slot).  The
    network, the peer of each connection, the broker and time take steps of their own.  A caller may be dropped
    at every await; its locals then go in reverse order: the connection, the lock guard, the permit. */
module Machine {
  import opened Prelude
  import opened OperationIds
  import opened Authorization
  import opened Gateway
  import opened Peer

  /** What is fixed for a whole run: which transports exist, the attestation key, the stage timeout, the header
      cap, and which operations pass `validate` and encode within the frame cap. */
  datatype Setup = Setup(
    direct: bool, api: bool, tcp: bool, jetstream: bool, key: Option<string>, timeout: nat, headerCap: nat,
    encodes: AuthenticatedOperation -> bool)

  /** One framed connection, kept after it closes.  `received` counts the frames read so far. */
  datatype Connection = Connection(sent: seq<Dispatch>, log: seq<Emission>, received: nat, open: bool)

  datatype Request =
    | Read(mode: Mode, subject: string, header: string)
    | Poll(operationId: string, header: string)

  /** What a direct read, an HTTP read or a poll asks of the database or the API. */
  datatype Inquiry = Query(caller: nat, subject: string) | HttpGet(caller: nat, path: string, header: string)

  /** How a call ends: with a reply frame still to be judged (frame `index` of connection `on`), or settled. */
  datatype End = Answer(reply: Reply, on: nat, index: nat) | Settled(outcome: Outcome)

  datatype Phase =
    | Admitted                          // a read that holds its permit
    | Minted                            // its operation id exists
    | Queued                            // waits for the connection lock, or has just been given it
    | Connecting                        // owns the lock; opens a TCP socket
    | Handshaking(c: nat)               // owns socket `c`; the TLS handshake runs
    | Sending(c: nat, delivered: bool)  // `delivered`: the whole request is on the wire
    | Receiving(c: nat)
    | Parking(c: nat, end: End)         // decoded a reply; about to put `c` back into the slot
    | Closing(c: nat, end: End)         // about to drop `c`
    | Unlocking(end: End)               // about to release the lock
    | Publishing                        // JetStream: the message is on its way
    | AwaitingAck
    | Working                           // a direct or HTTP read, or a status poll, in progress
    | Returning(end: End)               // about to give the permit back
    | Done(end: End)

  /** `stageAt` is when the current phase began, `queuedAt` when the caller asked for the lock, and `lockedAt`
      when it took it, if it ever did. */
  datatype Call = Call(
    request: Request, operation: Option<Operation>, queuedAt: Option<nat>, lockedAt: Option<nat>, stageAt: nat,
    phase: Phase)

  datatype Message = Message(dedupeId: string, payload: AuthenticatedOperation, caller: nat)

  datatype State = State(
    permits: nat,            // free semaphore permits
    sequence: nat,           // the next value of the process counter
    mints: nat,              // how often the counter was bumped
    calls: seq<Call>,        // every call ever made, by arrival
    queue: seq<nat>,         // the lock: its owner, then its waiters in FIFO order
    slot: Option<nat>,       // the parked connection
    conns: seq<Connection>,  // every connection ever opened
    attempts: set<nat>,      // calls that handed a message to the broker client
    stored: seq<Message>,    // what the stream holds
    issued: seq<Inquiry>,   // every query and HTTP request ever made
    clock: nat)

  /** Steps of a caller outside the lock: from admission to the answer. */
  datatype Serve =
    | Refuse(error: GatewayError)     // not configured, or the request cannot be built
    | Mint(now: nat)                  // `operation_envelope`: read the wall clock, bump the counter
    | Begin                           // start a direct or HTTP read
    | Finish(outcome: Outcome)        // and end it
    | Return                          // give the permit back and answer

  /** Steps of a caller on the lock and the slot. */
  datatype Hold = Enqueue | Take | Park | Close | Unlock

  /** Steps of the lock owner on its connection. */
  datatype Talk = Connected | Handshaken | Transmit | Sent | Receive

  /** Steps of a JetStream caller. */
  datatype Submit = Publish | Published | Acknowledge

  datatype Step =
    | Arrive(request: Request)
    | Serve(x: nat, serve: Serve)
    | Hold(x: nat, hold: Hold)
    | Talk(x: nat, talk: Talk)
    | Submit(x: nat, submit: Submit)
    | Fail(x: nat, error: GatewayError)     // the awaited stage of `x` fails or times out
    | Cancel(x: nat)                        // the future of `x` is dropped
    | Emit(c: nat, emission: Emission)      // the peer of connection `c` sends a frame
    | Store(x: nat)                         // the broker receives the message of `x`
    | Tick

  /** The caller whose step it is. */
  function Mover(step: Step): Option<nat> {
    match step
    case Serve(x, _) => Some(x)
    case Hold(x, _) => Some(x)
    case Talk(x, _) => Some(x)
    case Submit(x, _) => Some(x)
    case Fail(x, _) => Some(x)
    case Cancel(x) => Some(x)
    case _ => None
  }

  function Start(): State {
    State(MAX_IN_FLIGHT_OPERATIONS, 1, 0, [], [], None, [], {}, [], [], 0)
  }

  // ---------------------------------------------------------------- what a phase implies

  predicate HoldsPermit(call: Call) {
    call.request.Read? && !call.phase.Done?
  }

  /** Is the caller in the lock's queue, as owner or waiter? */
  predicate InQueue(phase: Phase) {
    phase.Queued? || OwnsLock(phase)
  }

  predicate OwnsLock(phase: Phase) {
    || phase.Connecting? || phase.Handshaking? || phase.Sending? || phase.Receiving?
    || phase.Parking? || phase.Closing? || phase.Unlocking?
  }

  /** The connection a caller holds in a local variable. */
  function Owned(phase: Phase): Option<nat> {
    match phase
    case Handshaking(c) => Some(c)
    case Sending(c, _) => Some(c)
    case Receiving(c) => Some(c)
    case Parking(c, _) => Some(c)
    case Closing(c, _) => Some(c)
    case _ => None
  }

  /** The phases under a stage timeout. */
  predicate Timed(phase: Phase) {
    || phase.Connecting? || phase.Handshaking? || phase.Sending? || phase.Receiving?
    || phase.Publishing? || phase.AwaitingAck?
  }

  /** Must caller `x` run before time can pass?  Code between two awaits takes no time. */
  predicate Urgent(s: State, x: nat)
    requires x < |s.calls|
  {
    var phase := s.calls[x].phase;
    || phase.Parking? || phase.Closing? || phase.Unlocking? || phase.Returning?
    || (phase.Queued? && s.queue != [] && s.queue[0] == x)
  }

  // ---------------------------------------------------------------- parts of the code

  predicate Configured(p: Setup, mode: Mode) {
    match mode
    case DirectReadOnlyDatabase => p.direct
    case StatelessHttp => p.api
    case StatefulMtlsTcp => p.tcp
    case JetStreamAsync => p.jetstream && p.key.Some?
  }

  /** The head of `read` and of `status`: everything before the first await that shared state decides. */
  function Admit(p: Setup, free: nat, request: Request): Phase {
    match request
    case Read(_, _, header) =>
      if !ValidAuthorization(header, p.headerCap) then Done(Settled(Failed(Unauthorized)))
      else if free == 0 then Done(Settled(Failed(Backpressure)))
      else Admitted
    case Poll(id, _) =>
      if !ValidIdentifier(id, MAX_OPERATION_ID_BYTES) then Done(Settled(Failed(InvalidRequest)))
      else if !p.api then Done(Settled(Failed(NotConfigured)))
      else Working
  }

  /** The tail of `tcp_read`: the reply must name this operation, carry no error and carry a result. */
  function Judge(call: Call, end: End): Outcome {
    match end
    case Settled(outcome) => outcome
    case Answer(reply, _, _) =>
      if call.operation.None? || reply.operationId != Some(call.operation.value.id) then Failed(InvalidResponse)
      else if reply.error.Some? then Failed(Upstream)
      else if reply.result.None? then Failed(InvalidResponse)
      else Replied(Projection(StatefulMtlsTcp, reply.result.value))
  }

  /** What a direct or HTTP read or a poll can end with. */
  predicate Produces(request: Request, outcome: Outcome) {
    match outcome
    case Cancelled => false
    case Failed(error) =>
      || error == Upstream || error == InvalidResponse
      || (error == Timeout && (request.Poll? || request.mode == StatelessHttp))
    case Replied(reply) =>
      if request.Poll? then reply.StatusReport?
      else reply.Projection? && reply.mode == request.mode
  }

  /** The errors the awaited stage of a phase can report. */
  predicate StageError(phase: Phase, error: GatewayError) {
    match error
    case Timeout => Timed(phase)
    case Upstream => Timed(phase)
    case InvalidRequest => phase.Handshaking?     // the server name does not parse
    case InvalidResponse => phase.Receiving?      // the codec rejects the frame
    case _ => false
  }

  predicate Uses(call: Call, mode: Mode) {
    call.request.Read? && call.request.mode == mode
  }

  /** The request a TCP read writes to its connection. */
  function DispatchOf(call: Call, x: nat): Dispatch
    requires Uses(call, StatefulMtlsTcp) && call.operation.Some?
  {
    var o := call.operation.value;
    Dispatch(x, BearerOperation(call.request.subject, call.request.header, StatefulMtlsTcp, o.now, o.id))
  }

  /** The path of `status`, relative to the API URL. */
  function StatusPath(operationId: string): string {
    "v1/operations/" + operationId
  }

  /** The query or HTTP request a call makes. */
  function InquiryOf(request: Request, x: nat): Inquiry {
    match request
    case Read(mode, subject, header) =>
      if mode == DirectReadOnlyDatabase then Query(x, subject) else HttpGet(x, "v1/youtube/status", header)
    case Poll(id, header) => HttpGet(x, StatusPath(id), header)
  }

  /** The message a JetStream call publishes. */
  function MessageOf(p: Setup, call: Call, x: nat): Message
    requires call.request.Read? && call.operation.Some? && p.key.Some?
  {
    var o := call.operation.value;
    Message(DedupeId(o.id), AttestedOperation(call.request.subject, p.key.value, o.now, o.id), x)
  }

  predicate Holds(stored: seq<Message>, dedupeId: string) {
    exists m :: m in stored && m.dedupeId == dedupeId
  }

  /** The queue without waiter `x`; tokio drops a cancelled waiter wherever it stands. */
  function Without(queue: seq<nat>, x: nat): seq<nat> {
    if queue == [] then []
    else if queue[0] == x then queue[1..]
    else [queue[0]] + Without(queue[1..], x)
  }

  function Move(s: State, x: nat, phase: Phase): (s': State)
    requires x < |s.calls|
  {
    s.(calls := s.calls[x := s.calls[x].(phase := phase, stageAt := s.clock)])
  }

  // ---------------------------------------------------------------- when a step may happen

  /** Time passes only while nobody has code to run and no stage has reached its timeout. */
  predicate CanTick(p: Setup, s: State) {
    forall x :: 0 <= x < |s.calls| ==>
      !Urgent(s, x) && (Timed(s.calls[x].phase) ==> s.clock < s.calls[x].stageAt + p.timeout)
  }

  /** Does the operation this call has minted pass `validate`, and its encoding the cap? */
  predicate Encodable(p: Setup, call: Call) {
    && call.request.Read? && call.operation.Some?
    && var r, o := call.request, call.operation.value;
       match r.mode
       case StatefulMtlsTcp => p.encodes(BearerOperation(r.subject, r.header, StatefulMtlsTcp, o.now, o.id))
       case JetStreamAsync => p.key.Some? && p.encodes(AttestedOperation(r.subject, p.key.value, o.now, o.id))
       case _ => false
  }

  predicate CanRefuse(p: Setup, call: Call, error: GatewayError) {
    || (call.phase.Admitted? && call.request.Read? && error == NotConfigured && !Configured(p, call.request.mode))
    || (call.phase.Admitted? && call.request.Read? && error == InvalidRequest && Configured(p, call.request.mode)
        && (call.request.mode == StatefulMtlsTcp || call.request.mode == JetStreamAsync))
    || (call.phase.Minted? && error == InvalidRequest && !Encodable(p, call))
  }

  predicate CanMint(p: Setup, call: Call, now: nat) {
    && call.phase.Admitted? && call.request.Read?
    && (call.request.mode == StatefulMtlsTcp || call.request.mode == JetStreamAsync)
    && Configured(p, call.request.mode)
    && ValidIdentifier(call.request.subject, MAX_SUBJECT_BYTES)
    && now + DEADLINE_MS < U64
  }

  predicate Cancellable(phase: Phase) {
    || phase.Queued? || phase.Connecting? || phase.Handshaking? || phase.Sending? || phase.Receiving?
    || phase.Publishing? || phase.AwaitingAck? || phase.Working?
  }

  predicate CanServe(p: Setup, call: Call, serve: Serve) {
    match serve
    case Refuse(error) => CanRefuse(p, call, error)
    case Mint(now) => CanMint(p, call, now)
    case Begin => && call.phase.Admitted? && call.request.Read? && Configured(p, call.request.mode)
                  && (call.request.mode == DirectReadOnlyDatabase || call.request.mode == StatelessHttp)
    case Finish(outcome) => call.phase.Working? && Produces(call.request, outcome)
    case Return => call.phase.Returning?
  }

  predicate CanHold(s: State, x: nat, hold: Hold)
    requires x < |s.calls|
  {
    var call := s.calls[x];
    match hold
    case Enqueue => call.phase.Minted? && Uses(call, StatefulMtlsTcp)
    case Take => call.phase.Queued? && s.queue != [] && s.queue[0] == x
    case Park => call.phase.Parking?
    case Close => call.phase.Closing? && call.phase.c < |s.conns|
    case Unlock => call.phase.Unlocking? && s.queue != []
  }

  predicate CanTalk(s: State, x: nat, talk: Talk)
    requires x < |s.calls|
  {
    var call := s.calls[x];
    match talk
    case Connected => call.phase.Connecting?
    case Handshaken => call.phase.Handshaking?
    case Transmit => && call.phase.Sending? && !call.phase.delivered && call.phase.c < |s.conns|
                     && Uses(call, StatefulMtlsTcp) && call.operation.Some?
    case Sent => call.phase.Sending? && call.phase.delivered
    case Receive => && call.phase.Receiving? && call.phase.c < |s.conns|
                    && s.conns[call.phase.c].received < |s.conns[call.phase.c].log|
  }

  predicate CanSubmit(s: State, x: nat, submit: Submit)
    requires x < |s.calls|
  {
    var call := s.calls[x];
    match submit
    case Publish => call.phase.Minted? && Uses(call, JetStreamAsync)
    case Published => call.phase.Publishing?
    case Acknowledge => && call.phase.AwaitingAck? && call.operation.Some?
                        && Holds(s.stored, DedupeId(call.operation.value.id))
  }

  predicate CanFail(p: Setup, s: State, call: Call, error: GatewayError) {
    StageError(call.phase, error) && (error == Timeout ==> call.stageAt + p.timeout <= s.clock)
  }

  /** The peer of an open connection may send any frame at any time. */
  predicate CanEmit(s: State, c: nat) {
    c < |s.conns| && s.conns[c].open
  }

  predicate Enabled(p: Setup, s: State, step: Step) {
    match step
    case Arrive(_) => true
    case Serve(x, serve) => x < |s.calls| && CanServe(p, s.calls[x], serve)
    case Hold(x, hold) =>
      x < |s.calls| && CanHold(s, x, hold) && (hold == Enqueue ==> Encodable(p, s.calls[x]))
    case Talk(x, talk) => x < |s.calls| && CanTalk(s, x, talk)
    case Submit(x, submit) =>
      x < |s.calls| && CanSubmit(s, x, submit) && (submit == Publish ==> Encodable(p, s.calls[x]))
    case Fail(x, error) => x < |s.calls| && CanFail(p, s, s.calls[x], error)
    case Cancel(x) => x < |s.calls| && Cancellable(s.calls[x].phase)
    case Emit(c, _) => CanEmit(s, c)
    case Store(x) => x < |s.calls| && x in s.attempts
    case Tick => CanTick(p, s)
  }

  // ---------------------------------------------------------------- what a step does

  function DoArrive(p: Setup, s: State, request: Request): State {
    var phase := Admit(p, s.permits, request);
    s.(calls := s.calls + [Call(request, None, None, None, s.clock, phase)],
       permits := if phase.Admitted? && s.permits > 0 then s.permits - 1 else s.permits,
       issued := if phase.Working? then s.issued + [InquiryOf(request, |s.calls|)] else s.issued)
  }

  function DoServe(s: State, x: nat, serve: Serve): State
    requires x < |s.calls| && (serve.Return? ==> s.calls[x].phase.Returning?)
  {
    match serve
    case Refuse(error) => Move(s, x, Returning(Settled(Failed(error))))
    case Mint(now) =>
      var o := Operation(s.mints, now, OperationId(now, s.sequence));
      s.(calls := s.calls[x := s.calls[x].(phase := Minted, stageAt := s.clock, operation := Some(o))],
         sequence := (s.sequence + 1) % U64, mints := s.mints + 1)
    case Begin => Move(s, x, Working).(issued := s.issued + [InquiryOf(s.calls[x].request, x)])
    case Finish(outcome) => Move(s, x, Returning(Settled(outcome)))
    case Return =>
      Move(s, x, Done(s.calls[x].phase.end)).(permits := s.permits + if s.calls[x].request.Read? then 1 else 0)
  }

  function DoHold(s: State, x: nat, hold: Hold): State
    requires x < |s.calls| && CanHold(s, x, hold)
  {
    var phase := s.calls[x].phase;
    match hold
    case Enqueue =>
      s.(calls := s.calls[x := s.calls[x].(phase := Queued, stageAt := s.clock, queuedAt := Some(s.clock))],
         queue := s.queue + [x])
    case Take =>
      var next := if s.slot.Some? then Sending(s.slot.value, false) else Connecting;
      s.(calls := s.calls[x := s.calls[x].(phase := next, stageAt := s.clock, lockedAt := Some(s.clock))],
         slot := None)
    case Park => Move(s, x, Unlocking(phase.end)).(slot := Some(phase.c))
    case Close =>
      Move(s, x, Unlocking(phase.end)).(conns := s.conns[phase.c := s.conns[phase.c].(open := false)])
    case Unlock => Move(s, x, Returning(phase.end)).(queue := s.queue[1..])
  }

  function DoTalk(s: State, x: nat, talk: Talk): State
    requires x < |s.calls| && CanTalk(s, x, talk)
  {
    var phase := s.calls[x].phase;
    match talk
    case Connected =>
      Move(s, x, Handshaking(|s.conns|)).(conns := s.conns + [Connection([], [], 0, true)])
    case Handshaken => Move(s, x, Sending(phase.c, false))
    case Transmit =>
      var conn := s.conns[phase.c];
      s.(calls := s.calls[x := s.calls[x].(phase := Sending(phase.c, true))],
         conns := s.conns[phase.c := conn.(sent := conn.sent + [DispatchOf(s.calls[x], x)])])
    case Sent => Move(s, x, Receiving(phase.c))
    case Receive =>
      var conn := s.conns[phase.c];
      var frame := conn.log[conn.received].frame;
      Move(s, x, if frame.Decodable? then Parking(phase.c, Answer(frame.reply, phase.c, conn.received))
                 else Closing(phase.c, Settled(Failed(InvalidResponse))))
        .(conns := s.conns[phase.c := conn.(received := conn.received + 1)])
  }

  function DoSubmit(s: State, x: nat, submit: Submit): State
    requires x < |s.calls| && CanSubmit(s, x, submit)
  {
    match submit
    case Publish => Move(s, x, Publishing).(attempts := s.attempts + {x})
    case Published => Move(s, x, AwaitingAck)
    case Acknowledge => Move(s, x, Returning(Settled(Replied(Accepted(s.calls[x].operation.value.id)))))
  }

  function DoEmit(s: State, c: nat, e: Emission): State
    requires c < |s.conns|
  {
    s.(conns := s.conns[c := s.conns[c].(log := s.conns[c].log + [e])])
  }

  /** The stream keeps a message unless it already holds one with the same dedupe id. */
  function DoStore(p: Setup, s: State, x: nat): State
    requires x < |s.calls|
  {
    var call := s.calls[x];
    if call.request.Read? && call.operation.Some? && p.key.Some? && !Holds(s.stored, DedupeId(call.operation.value.id))
    then s.(stored := s.stored + [MessageOf(p, call, x)])
    else s
  }

  function Apply(p: Setup, s: State, step: Step): State
    requires Enabled(p, s, step)
  {
    match step
    case Arrive(request) => DoArrive(p, s, request)
    case Serve(x, serve) => DoServe(s, x, serve)
    case Hold(x, hold) => DoHold(s, x, hold)
    case Talk(x, talk) => DoTalk(s, x, talk)
    case Submit(x, submit) => DoSubmit(s, x, submit)
    case Fail(x, error) => Abandon(s, x, Settled(Failed(error)))
    case Cancel(x) => Abandon(s, x, Settled(Cancelled))
    case Emit(c, e) => DoEmit(s, c, e)
    case Store(x) => DoStore(p, s, x)
    case Tick => s.(clock := s.clock + 1)
  }

  /** A stage failed or the caller was dropped: unwind from wherever it stood. */
  function Abandon(s: State, x: nat, end: End): State
    requires x < |s.calls|
  {
    var phase := s.calls[x].phase;
    match Owned(phase)
    case Some(c) => Move(s, x, Closing(c, end))
    case None =>
      if phase.Queued? then Move(s, x, Returning(end)).(queue := Without(s.queue, x))
      else if phase.Connecting? then Move(s, x, Unlocking(end))
      else Move(s, x, Returning(end))
  }

  // ---------------------------------------------------------------- runs

  ghost predicate IsRun(p: Setup, s: State, steps: seq<Step>)
    decreases |steps|
  {
    steps == [] || (Enabled(p, s, steps[0]) && IsRun(p, Apply(p, s, steps[0]), steps[1..]))
  }

  function After(p: Setup, s: State, steps: seq<Step>): State
    requires IsRun(p, s, steps)
    decreases |steps|
  {
    if steps == [] then s else After(p, Apply(p, s, steps[0]), steps[1..])
  }

  ghost predicate Reachable(p: Setup, s: State) {
    exists steps :: IsRun(p, Start(), steps) && After(p, Start(), steps) == s
  }

  function OutcomeOf(call: Call): Outcome
    requires call.phase.Done?
  {
    Judge(call, call.phase.end)
  }
}
