/** The gateway object with its fields updated in place: `TransportGateway::read` in TCP mode, from the permit to
    the judged reply, with `PersistentMtlsClient::request` in the middle.

    At every await the rest of the world takes any steps it likes: other callers, the peers, the broker, time.
    The await then ends as the world decides, if it can end that way.  The object is the machine's state, so its
    fields are always in a reachable one. */
module Runtime {
  import opened Prelude
  import opened OperationIds
  import opened Authorization
  import opened Gateway
  import opened Peer
  import opened Machine
  import opened Connections
  import opened Correlation
  import opened Runs
  import Permits
  import Safety

  /** How an await ends: with what was awaited, with an error or a timeout, or because the future is dropped.
      What cannot happen at that moment turns into a drop. */
  datatype Fate = Ready | Fails(error: GatewayError) | Dropped

  /** One await: what everybody else does meanwhile, and how it ends. */
  datatype Await = Await(others: seq<Step>, fate: Fate)

  /** Everything one TCP read depends on besides its arguments: the wall clock and its awaits. */
  datatype World = World(
    now: nat, lock: Await, connect: Await, handshake: Await, write: Await, flush: Await, receive: Await)

  // ---------------------------------------------------------------- what an await does

  /** While caller `x` is suspended the others take their steps, as far as they can. */
  function Ran(p: Setup, s: State, x: nat, others: seq<Step>): State
    decreases |others|
  {
    if others == [] then s
    else if Mover(others[0]) != Some(x) && Enabled(p, s, others[0]) then Ran(p, Apply(p, s, others[0]), x, others[1..])
    else Ran(p, s, x, others[1..])
  }

  /** Every run of the others is one a suspension can bring. */
  lemma {:induction false} AnyRunRan(p: Setup, s: State, x: nat, steps: seq<Step>)
    requires IsRun(p, s, steps) && forall i :: 0 <= i < |steps| ==> Mover(steps[i]) != Some(x)
    ensures Ran(p, s, x, steps) == After(p, s, steps)
    decreases |steps|
  {
    if steps != [] {
      assert forall i :: 0 <= i < |steps[1..]| ==> steps[1..][i] == steps[i + 1];
      AnyRunRan(p, Apply(p, s, steps[0]), x, steps[1..]);
    }
  }

  /** Is what caller `x` waits for there? */
  predicate Arrived(s: State, x: nat)
    requires x < |s.calls|
  {
    match s.calls[x].phase
    case Queued => s.queue != [] && s.queue[0] == x
    case Receiving(c) => c < |s.conns| && s.conns[c].received < |s.conns[c].log|
    case _ => true
  }

  /** What an await that does not deliver ends with. */
  function EndOf(p: Setup, s: State, x: nat, fate: Fate): End
    requires x < |s.calls|
  {
    if fate.Fails? && CanFail(p, s, s.calls[x], fate.error) then Settled(Failed(fate.error)) else Settled(Cancelled)
  }

  // ---------------------------------------------------------------- what a TCP read does

  /** The awaits of an exchange, in order; a caller that finds the slot empty connects first. */
  function Stages(connects: bool, world: World): seq<Await> {
    (if connects then [world.connect, world.handshake] else []) + [world.write, world.flush, world.receive]
  }

  /** The fate of the first await that does not deliver. */
  function Decisive(stages: seq<Await>): Fate {
    if stages == [] then Ready
    else if !stages[0].fate.Ready? then stages[0].fate
    else Decisive(stages[1..])
  }

  /** The end is what this fate brings: an error it names, if that can be at the time, or else a drop.  An upstream
      error always can. */
  predicate Fated(end: End, fate: Fate) {
    match fate
    case Ready => false
    case Dropped => end == Settled(Cancelled)
    case Fails(error) => end == Settled(Failed(error)) || (error != Upstream && end == Settled(Cancelled))
  }

  /** The request of caller `x` stands on a connection, and the frame at its place, if there is one, is the end: a
      reply to be judged if it decodes, and an invalid response if it does not. */
  ghost predicate Exchanged(wires: seq<Connection>, x: nat, end: End) {
    exists c, j :: 0 <= c < |wires| && 0 <= j < |wires[c].sent| && wires[c].sent[j].caller == x
      && end == if j >= |wires[c].log| then Settled(Cancelled)
                else match wires[c].log[j].frame
                     case Decodable(reply) => Answer(reply, c, j)
                     case Undecodable => Settled(Failed(InvalidResponse))
  }

  /** How an exchange ends: where every await delivers, with the frame at the place of its request; otherwise as
      the first that does not says. */
  ghost predicate Explained(wires: seq<Connection>, x: nat, fate: Fate, end: End) {
    if fate.Ready? then Exchanged(wires, x, end) else Fated(end, fate)
  }

  /** Connections that carry the same requests and frames. */
  predicate SameTraffic(a: seq<Connection>, b: seq<Connection>) {
    |a| == |b| && forall c :: 0 <= c < |a| ==> a[c].sent == b[c].sent && a[c].log == b[c].log
  }

  lemma ExplainedStays(a: seq<Connection>, b: seq<Connection>, x: nat, fate: Fate, end: End)
    requires Explained(a, x, fate, end) && SameTraffic(a, b)
    ensures Explained(b, x, fate, end)
  {
    if fate.Ready? {
      var c, j :| 0 <= c < |a| && 0 <= j < |a[c].sent| && a[c].sent[j].caller == x
        && end == if j >= |a[c].log| then Settled(Cancelled)
                  else match a[c].log[j].frame
                       case Decodable(reply) => Answer(reply, c, j)
                       case Undecodable => Settled(Failed(InvalidResponse));
      assert b[c].sent[j].caller == x;
    }
  }

  /** What an owner of the mutex comes to when its await does not deliver. */
  ghost predicate Unwound(wires: seq<Connection>, x: nat, was: Phase, phase: Phase, fate: Fate) {
    match was
    case Connecting => phase.Unlocking? && Fated(phase.end, fate)
    case _ =>
      && phase.Closing? && Owned(was) == Some(phase.c) && phase.end.Settled?
      && if was.Receiving? && fate.Ready? then Exchanged(wires, x, phase.end) else Fated(phase.end, fate)
  }

  lemma AbandonUnwinds(p: Setup, s: State, x: nat, fate: Fate)
    requires Reachable(p, s) && x < |s.calls| && OwnsLock(s.calls[x].phase) && Cancellable(s.calls[x].phase)
    requires !fate.Ready? || !Arrived(s, x)
    ensures var s' := Abandon(s, x, EndOf(p, s, x, fate));
            && x < |s'.calls| && Same(s.calls[x], s'.calls[x])
            && Unwound(s'.conns, x, s.calls[x].phase, s'.calls[x].phase, fate)
  {
    if s.calls[x].phase.Receiving? {
      Safety.AwaitsReply(p, s, x);
      var conn := s.conns[s.calls[x].phase.c];
      assert conn.sent[conn.received].caller == x;
    }
  }

  /** Does a read that holds its permit get as far as the mutex? */
  predicate Passes(p: Setup, s: State, x: nat, now: nat)
    requires x < |s.calls| && s.calls[x].request.Read?
  {
    var r := s.calls[x].request;
    && p.tcp && ValidIdentifier(r.subject, 256)
    && p.encodes(BearerOperation(r.subject, r.header, StatefulMtlsTcp, now, OperationId(now, s.sequence)))
  }

  /** The state when its wait for the mutex ends. */
  function AtLock(p: Setup, s: State, x: nat, now: nat, others: seq<Step>): State
    requires x < |s.calls| && CanServe(p, s.calls[x], Mint(now)) && Uses(s.calls[x], StatefulMtlsTcp)
  {
    Ran(p, DoHold(DoServe(s, x, Mint(now)), x, Enqueue), x, others)
  }

  /** Does caller `x` get the mutex? */
  predicate HasTurn(s: State, x: nat, fate: Fate) {
    fate.Ready? && s.queue != [] && s.queue[0] == x
  }

  function Or(fate: Fate, next: Fate): Fate {
    if fate.Ready? then next else fate
  }

  lemma {:induction false} DecisiveAppend(first: seq<Await>, rest: seq<Await>)
    ensures Decisive(first + rest) == Or(Decisive(first), Decisive(rest))
  {
    if first == [] {
      assert first + rest == rest;
    } else {
      assert (first + rest)[1..] == first[1..] + rest;
      DecisiveAppend(first[1..], rest);
    }
  }

  lemma DecisiveOne(await: Await)
    ensures Decisive([await]) == await.fate
  {
    assert [await][1..] == [];
  }

  lemma StagesDecide(world: World)
    ensures Decisive([world.connect, world.handshake]) == Or(world.connect.fate, world.handshake.fate)
    ensures Decisive(Stages(false, world)) == Or(world.write.fate, Or(world.flush.fate, world.receive.fate))
    ensures Decisive(Stages(true, world))
         == Or(Or(world.connect.fate, world.handshake.fate), Decisive(Stages(false, world)))
  {
    var exchange := [world.write] + ([world.flush] + [world.receive]);
    DecisiveOne(world.connect);
    DecisiveOne(world.handshake);
    DecisiveOne(world.write);
    DecisiveOne(world.flush);
    DecisiveOne(world.receive);
    DecisiveAppend([world.connect], [world.handshake]);
    DecisiveAppend([world.flush], [world.receive]);
    DecisiveAppend([world.write], [world.flush] + [world.receive]);
    DecisiveAppend([world.connect] + [world.handshake], exchange);
    assert [world.connect, world.handshake] == [world.connect] + [world.handshake];
    assert Stages(false, world) == exchange;
    assert Stages(true, world) == [world.connect] + [world.handshake] + exchange;
  }

  /** A waiter that does not get the mutex is dropped, wherever it stands: its wait has no timeout of its own. */
  lemma WaiterLeaves(p: Setup, s: State, x: nat, fate: Fate)
    requires Reachable(p, s) && x < |s.calls| && s.calls[x].phase.Queued?
    ensures var s' := Abandon(s, x, EndOf(p, s, x, fate));
            && x < |s'.calls| && Same(s.calls[x], s'.calls[x])
            && s'.calls[x].phase == Returning(Settled(Cancelled)) && x !in s'.queue
  {
    Safety.AlwaysLocked(p, s);
    WithoutElements(s.queue, x);
  }

  /** The same caller, asking the same under the same name, with or without the mutex as before. */
  predicate Same(a: Call, b: Call) {
    b.request == a.request && b.operation == a.operation && b.lockedAt == a.lockedAt && b.queuedAt == a.queuedAt
  }

  class TransportGateway {
    const setup: Setup
    var permits: nat                // the semaphore
    var sequence: nat               // OPERATION_SEQUENCE
    var waiting: seq<nat>           // the mutex: its owner, then its waiters
    var connection: Option<nat>     // what the mutex guards
    var calls: seq<Call>            // the futures
    // The world around the object.
    var wires: seq<Connection>
    var mints: nat
    var attempts: set<nat>
    var stored: seq<Message>
    var issued: seq<Inquiry>
    var clock: nat

    function Model(): State
      reads this
    {
      State(permits, sequence, mints, calls, waiting, connection, wires, attempts, stored, issued, clock)
    }

    ghost predicate Valid()
      reads this
    {
      Reachable(setup, Model())
    }

    /** What an owner of the mutex that ends like this leaves in the slot: its connection exactly if a reply was
        decoded from it, and otherwise nothing, with nothing open at all. */
    ghost predicate LeftBehind(end: End)
      reads this
    {
      match end
      case Answer(_, c, _) => connection == Some(c)
      case Settled(_) => connection == None && forall c :: 0 <= c < |wires| ==> !wires[c].open
    }

    constructor (setup: Setup)
      ensures this.setup == setup && Model() == Start() && Valid()
    {
      this.setup := setup;
      permits, sequence, waiting, connection, calls, wires := MAX_IN_FLIGHT_OPERATIONS, 1, [], None, [], [];
      mints, attempts, stored, issued, clock := 0, {}, [], [], 0;
      new;
      StartReachable(setup);
    }

    // -------------------------------------------------------------- awaits

    /** Caller `x` is suspended and the others run: whatever they do, its future stays as it is. */
    method Suspend(x: nat, others: seq<Step>)
      requires Valid() && x < |calls|
      modifies this
      ensures Valid() && Model() == Ran(setup, old(Model()), x, others)
      ensures x < |calls| && calls[x] == old(calls[x])
    {
      for i := 0 to |others|
        invariant Valid() && x < |calls| && calls[x] == old(calls[x])
        invariant Ran(setup, Model(), x, others[i..]) == Ran(setup, old(Model()), x, others)
      {
        assert others[i..][0] == others[i] && others[i..][1..] == others[i + 1..];
        if Mover(others[i]) != Some(x) && Enabled(setup, Model(), others[i]) {
          TouchStep(setup, Model(), others[i]);
          Extend(setup, Model(), others[i]);
          Adopt(Apply(setup, Model(), others[i]));
        }
      }
    }

    method Adopt(s: State)
      modifies this
      ensures Model() == s
    {
      permits, sequence, mints, calls, waiting := s.permits, s.sequence, s.mints, s.calls, s.queue;
      connection, wires, attempts, stored, issued := s.slot, s.conns, s.attempts, s.stored, s.issued;
      clock := s.clock;
    }

    method Become(x: nat, phase: Phase)
      requires x < |calls|
      modifies this`calls
      ensures calls == old(calls)[x := old(calls)[x].(phase := phase, stageAt := clock)]
    {
      calls := calls[x := calls[x].(phase := phase, stageAt := clock)];
    }

    /** The await of caller `x` fails, times out or is dropped, and the locals go: a waiter leaves the queue of
        the mutex, an owner without a connection gives the mutex up next, one with a connection drops it first. */
    method Abort(x: nat, fate: Fate)
      requires Valid() && x < |calls| && Cancellable(calls[x].phase)
      modifies this
      ensures Valid() && Model() == Abandon(old(Model()), x, EndOf(setup, old(Model()), x, fate))
    {
      var end := Settled(Cancelled);
      if fate.Fails? && CanFail(setup, Model(), calls[x], fate.error) {
        end := Settled(Failed(fate.error));
        Extend(setup, Model(), Step.Fail(x, fate.error));
      } else {
        Extend(setup, Model(), Step.Cancel(x));
      }
      var phase := calls[x].phase;
      if Owned(phase).Some? {
        Become(x, Closing(Owned(phase).value, end));
      } else if phase.Queued? {
        waiting := Without(waiting, x);
        Become(x, Returning(end));
      } else if phase.Connecting? {
        Become(x, Unlocking(end));
      } else {
        Become(x, Returning(end));
      }
    }

    /** One await of an exchange: it delivers if that is its fate and what it waits for is there, and then the
        caller goes on as it was; otherwise the caller unwinds. */
    method Stage(x: nat, await: Await) returns (delivered: bool)
      requires Valid() && x < |calls| && Cancellable(calls[x].phase)
      modifies this
      ensures Valid()
      ensures var s := Ran(setup, old(Model()), x, await.others);
              && Reachable(setup, s) && x < |s.calls| && s.calls[x] == old(calls[x])
              && delivered == (await.fate.Ready? && Arrived(s, x))
              && Model() == if delivered then s else Abandon(s, x, EndOf(setup, s, x, await.fate))
    {
      Suspend(x, await.others);
      delivered := await.fate.Ready? && Arrived(Model(), x);
      if !delivered {
        Abort(x, await.fate);
      }
    }

    /** An await of the owner of the mutex. */
    method Deliver(x: nat, await: Await) returns (delivered: bool)
      requires Valid() && x < |calls| && OwnsLock(calls[x].phase) && Cancellable(calls[x].phase)
      modifies this
      ensures Valid() && x < |calls| && Same(old(calls[x]), calls[x])
      ensures delivered ==> await.fate.Ready? && calls[x] == old(calls[x]) && Arrived(Model(), x)
      ensures !delivered ==> Unwound(wires, x, old(calls[x].phase), calls[x].phase, await.fate)
    {
      delivered := Stage(x, await);
      if !delivered {
        AbandonUnwinds(setup, Ran(setup, old(Model()), x, await.others), x, await.fate);
      }
    }

    // -------------------------------------------------------------- the operation

    /** `operation_envelope`: take the next counter value and name the operation after it and the wall clock.
        No other call has that name while at most 2^64 names were minted. */
    method OperationEnvelope(x: nat, now: nat) returns (id: string)
      requires Valid() && x < |calls| && CanServe(setup, calls[x], Mint(now))
      modifies this
      ensures Valid() && Model() == DoServe(old(Model()), x, Mint(now))
      ensures id == OperationId(now, old(sequence)) && sequence == (old(sequence) + 1) % U64
      ensures calls[x].operation == Some(Operation(old(mints), now, id))
      ensures mints <= U64 ==>
                forall y :: 0 <= y < |calls| && y != x && calls[y].operation.Some? ==> calls[y].operation.value.id != id
    {
      ExtendServe(setup, Model(), x, Mint(now));
      var fetched := sequence;
      sequence := (fetched + 1) % U64;
      id := OperationId(now, fetched);
      calls := calls[x := calls[x].(phase := Minted, stageAt := clock, operation := Some(Operation(mints, now, id)))];
      mints := mints + 1;
      assert Model() == DoServe(old(Model()), x, Mint(now));
      if mints <= U64 { Safety.IdentifiersDistinct(setup, Model()); }
    }

    // -------------------------------------------------------------- the exchange

    /** `self.connection.lock()`: join the queue of the mutex. */
    method Lock(x: nat)
      requires Valid() && x < |calls| && CanHold(Model(), x, Enqueue) && Encodable(setup, calls[x])
      modifies this
      ensures Valid() && Model() == DoHold(old(Model()), x, Enqueue)
    {
      ExtendHold(setup, Model(), x, Enqueue);
      calls := calls[x := calls[x].(phase := Queued, stageAt := clock, queuedAt := Some(clock))];
      waiting := waiting + [x];
      assert Model() == DoHold(old(Model()), x, Enqueue);
    }

    /** `guard.take()`: the owner empties the slot, and goes to `connect` if it was empty already. */
    method TakeConnection(x: nat)
      requires Valid() && x < |calls| && CanHold(Model(), x, Take)
      modifies this
      ensures Valid() && x < |calls| && calls[x].lockedAt.Some?
      ensures Same(old(calls[x]).(lockedAt := calls[x].lockedAt), calls[x])
      ensures calls[x].phase == match old(connection) case Some(c) => Sending(c, false) case None => Connecting
    {
      ExtendHold(setup, Model(), x, Take);
      var next := Connecting;
      if connection.Some? {
        next := Sending(connection.value, false);
      }
      connection := None;
      calls := calls[x := calls[x].(phase := next, stageAt := clock, lockedAt := Some(clock))];
      assert Model() == DoHold(old(Model()), x, Take);
    }

    /** `connect`: a socket, then the handshake; on the way out a half-made connection is dropped. */
    method Connect(x: nat, world: World)
      requires Valid() && x < |calls| && calls[x].phase.Connecting?
      modifies this
      ensures Valid() && x < |calls| && Same(old(calls[x]), calls[x])
      ensures var fate := Or(world.connect.fate, world.handshake.fate);
              if fate.Ready? then calls[x].phase.Sending? && !calls[x].phase.delivered
              else
                && (calls[x].phase.Closing? || calls[x].phase.Unlocking?)
                && calls[x].phase.end.Settled? && Fated(calls[x].phase.end, fate)
    {
      var connected := Deliver(x, world.connect);
      if !connected {
        return;
      }
      Opened(x);
      var handshaken := Deliver(x, world.handshake);
      if !handshaken {
        return;
      }
      Ready(x);
    }

    /** The socket is there. */
    method Opened(x: nat)
      requires Valid() && x < |calls| && calls[x].phase.Connecting?
      modifies this
      ensures Valid() && x < |calls| && calls[x].phase.Handshaking? && Same(old(calls[x]), calls[x])
    {
      ExtendTalk(setup, Model(), x, Connected);
      Become(x, Handshaking(|wires|));
      wires := wires + [Connection([], [], 0, true)];
      assert Model() == DoTalk(old(Model()), x, Connected);
    }

    /** The connection is framed. */
    method Ready(x: nat)
      requires Valid() && x < |calls| && calls[x].phase.Handshaking?
      modifies this
      ensures Valid() && x < |calls| && calls[x].phase == Sending(old(calls[x].phase.c), false)
      ensures Same(old(calls[x]), calls[x])
    {
      ExtendTalk(setup, Model(), x, Handshaken);
      Become(x, Sending(calls[x].phase.c, false));
      assert Model() == DoTalk(old(Model()), x, Handshaken);
    }

    /** The inner block of `request`: send, receive one frame, decode it. */
    method Exchange(x: nat, world: World)
      requires Valid() && x < |calls| && calls[x].phase.Sending? && !calls[x].phase.delivered
      modifies this
      ensures Valid() && x < |calls| && Same(old(calls[x]), calls[x])
      ensures calls[x].phase.Parking? || calls[x].phase.Closing?
      ensures calls[x].phase.Parking? ==> calls[x].phase.end.Answer? && calls[x].phase.end.on == calls[x].phase.c
      ensures calls[x].phase.Closing? ==> calls[x].phase.end.Settled?
      ensures Explained(wires, x, Or(world.write.fate, Or(world.flush.fate, world.receive.fate)), calls[x].phase.end)
    {
      var open := Deliver(x, world.write);
      if !open {
        return;
      }
      Write(x);
      var flushed := Deliver(x, world.flush);
      if !flushed {
        return;
      }
      Flushed(x);
      AwaitReply(x, world.receive);
    }

    /** The request goes out, whole, with the caller's own header. */
    method Write(x: nat)
      requires Valid() && x < |calls| && calls[x].phase.Sending? && !calls[x].phase.delivered
      modifies this
      ensures Valid() && x < |calls| && Same(old(calls[x]), calls[x])
      ensures calls[x].phase == Sending(old(calls[x].phase.c), true)
    {
      Safety.SenderReady(setup, Model(), x);
      ExtendTalk(setup, Model(), x, Transmit);
      var c := calls[x].phase.c;
      var operation := BearerOperation(calls[x].request.subject, calls[x].request.header, StatefulMtlsTcp,
                                       calls[x].operation.value.now, calls[x].operation.value.id);
      wires := wires[c := wires[c].(sent := wires[c].sent + [Dispatch(x, operation)])];
      calls := calls[x := calls[x].(phase := Sending(c, true))];
      assert Model() == DoTalk(old(Model()), x, Transmit);
    }

    method Flushed(x: nat)
      requires Valid() && x < |calls| && calls[x].phase.Sending? && calls[x].phase.delivered
      modifies this
      ensures Valid() && x < |calls| && Same(old(calls[x]), calls[x])
      ensures calls[x].phase == Receiving(old(calls[x].phase.c))
    {
      ExtendTalk(setup, Model(), x, Talk.Sent);
      Become(x, Receiving(calls[x].phase.c));
      assert Model() == DoTalk(old(Model()), x, Talk.Sent);
    }

    /** The reply is awaited: if it comes, it is read. */
    method AwaitReply(x: nat, receive: Await)
      requires Valid() && x < |calls| && calls[x].phase.Receiving?
      modifies this
      ensures Valid() && x < |calls| && Same(old(calls[x]), calls[x])
      ensures calls[x].phase.Parking? || calls[x].phase.Closing?
      ensures calls[x].phase.Parking? ==> calls[x].phase.end.Answer? && calls[x].phase.end.on == calls[x].phase.c
      ensures calls[x].phase.Closing? ==> calls[x].phase.end.Settled?
      ensures Explained(wires, x, receive.fate, calls[x].phase.end)
    {
      var arrived := Deliver(x, receive);
      if arrived {
        Decode(x);
      }
    }

    /** The frame at the mark is read, and decodes or does not. */
    method Decode(x: nat)
      requires Valid() && x < |calls| && calls[x].phase.Receiving? && Arrived(Model(), x)
      modifies this
      ensures Valid() && x < |calls| && Same(old(calls[x]), calls[x])
      ensures calls[x].phase.Parking? || calls[x].phase.Closing?
      ensures calls[x].phase.Parking? ==> calls[x].phase.end.Answer? && calls[x].phase.end.on == calls[x].phase.c
      ensures calls[x].phase.Closing? ==> calls[x].phase.end.Settled?
      ensures Exchanged(wires, x, calls[x].phase.end)
    {
      Safety.AwaitsReply(setup, Model(), x);
      ExtendTalk(setup, Model(), x, Talk.Receive);
      var c := calls[x].phase.c;
      var mark := wires[c].received;
      wires := wires[c := wires[c].(received := mark + 1)];
      match wires[c].log[mark].frame {
        case Decodable(reply) => Become(x, Parking(c, Answer(reply, c, mark)));
        case Undecodable => Become(x, Closing(c, Settled(Failed(InvalidResponse))));
      }
      assert Model() == DoTalk(old(Model()), x, Talk.Receive);
      assert wires[c].sent[mark].caller == x;
    }

    /** `*guard = Some(connection)`: only the code path of a decoded reply comes here. */
    method ParkConnection(x: nat)
      requires Valid() && x < |calls| && calls[x].phase.Parking?
      modifies this
      ensures Valid() && x < |calls| && Same(old(calls[x]), calls[x]) && wires == old(wires)
      ensures calls[x].phase == Unlocking(old(calls[x].phase.end)) && connection == Some(old(calls[x].phase.c))
    {
      ExtendHold(setup, Model(), x, Park);
      connection := Some(calls[x].phase.c);
      Become(x, Unlocking(calls[x].phase.end));
      assert Model() == DoHold(old(Model()), x, Park);
    }

    /** The local `connection` goes out of scope on every other path: nothing is open any more. */
    method DropConnection(x: nat)
      requires Valid() && x < |calls| && calls[x].phase.Closing?
      modifies this
      ensures Valid() && x < |calls| && Same(old(calls[x]), calls[x]) && SameTraffic(old(wires), wires)
      ensures calls[x].phase == Unlocking(old(calls[x].phase.end))
      ensures forall c :: 0 <= c < |wires| ==> !wires[c].open
    {
      Safety.ClosingSettled(setup, Model(), x);
      ExtendHold(setup, Model(), x, Close);
      var c := calls[x].phase.c;
      wires := wires[c := wires[c].(open := false)];
      Become(x, Unlocking(calls[x].phase.end));
      assert Model() == DoHold(old(Model()), x, Close);
      Safety.ParkedExactly(setup, Model(), x);
    }

    /** The guard goes out of scope: the first waiter owns the mutex now, and finds a connection exactly if a
        reply was decoded from it. */
    method Unlock(x: nat)
      requires Valid() && x < |calls| && calls[x].phase.Unlocking?
      modifies this
      ensures Valid() && x < |calls| && Same(old(calls[x]), calls[x]) && wires == old(wires)
      ensures calls[x].phase == Returning(old(calls[x].phase.end))
      ensures x !in waiting && [x] + waiting == old(waiting)
      ensures LeftBehind(calls[x].phase.end)
    {
      Safety.UnlockerIsOwner(setup, Model(), x);
      Safety.ParkedExactly(setup, Model(), x);
      ExtendHold(setup, Model(), x, Hold.Unlock);
      var end := calls[x].phase.end;
      waiting := waiting[1..];
      Become(x, Returning(end));
      assert Model() == DoHold(old(Model()), x, Hold.Unlock);
    }

    /** The owner's part of `request`, from the take to the end of the guard. */
    method Own(x: nat, world: World)
      requires Valid() && x < |calls| && CanHold(Model(), x, Take)
      modifies this
      ensures Valid() && x < |calls| && calls[x].lockedAt.Some?
      ensures Same(old(calls[x]).(lockedAt := calls[x].lockedAt), calls[x])
      ensures calls[x].phase.Returning? && x !in waiting && LeftBehind(calls[x].phase.end)
      ensures Explained(wires, x, Decisive(Stages(old(connection).None?, world)), calls[x].phase.end)
    {
      StagesDecide(world);
      TakeConnection(x);
      if calls[x].phase.Connecting? {
        Connect(x, world);
      }
      if calls[x].phase.Sending? {
        Exchange(x, world);
      }
      Leave(x, Decisive(Stages(old(connection).None?, world)));
    }

    /** The end of `request`: park or drop, and give the mutex up. */
    method Leave(x: nat, ghost fate: Fate)
      requires Valid() && x < |calls|
      requires calls[x].phase.Parking? || calls[x].phase.Closing? || calls[x].phase.Unlocking?
      requires Explained(wires, x, fate, calls[x].phase.end)
      modifies this
      ensures Valid() && x < |calls| && Same(old(calls[x]), calls[x])
      ensures calls[x].phase == Returning(old(calls[x].phase.end)) && x !in waiting && LeftBehind(calls[x].phase.end)
      ensures Explained(wires, x, fate, calls[x].phase.end)
    {
      if calls[x].phase.Parking? {
        ParkConnection(x);
      } else if calls[x].phase.Closing? {
        DropConnection(x);
        ExplainedStays(old(wires), wires, x, fate, calls[x].phase.end);
      }
      Unlock(x);
    }

    /** `PersistentMtlsClient::request`.  Whether the caller gets the mutex is up to its wait, and without it the
        caller is dropped; with it the exchange ends as its awaits and the frame at the place of its request say,
        and leaves the slot full exactly when a reply was decoded.  The mutex is given up in any case. */
    method Request(x: nat, world: World)
      requires Valid() && x < |calls| && CanHold(Model(), x, Enqueue) && Encodable(setup, calls[x])
      requires calls[x].lockedAt.None?
      modifies this
      ensures Valid() && x < |calls| && calls[x].phase.Returning? && x !in waiting
      ensures calls[x].request == old(calls[x].request) && calls[x].operation == old(calls[x].operation)
      ensures calls[x].queuedAt.Some?
      ensures var s := Ran(setup, DoHold(old(Model()), x, Enqueue), x, world.lock.others);
              && (calls[x].lockedAt.Some? <==> HasTurn(s, x, world.lock.fate))
              && (if HasTurn(s, x, world.lock.fate)
                  then && LeftBehind(calls[x].phase.end)
                       && Explained(wires, x, Decisive(Stages(s.slot.None?, world)), calls[x].phase.end)
                  else calls[x].phase.end == Settled(Cancelled))
    {
      Lock(x);
      var locked := Stage(x, world.lock);
      if locked {
        Own(x, world);
      } else {
        WaiterLeaves(setup, Ran(setup, DoHold(old(Model()), x, Enqueue), x, world.lock.others), x, world.lock.fate);
      }
    }
  
    // -------------------------------------------------------------- the read

    /** The head of `read`: the header, then the permit. */
    method Enter(mode: Mode, subject: string, header: string) returns (x: nat)
      requires Valid()
      modifies this
      ensures Valid() && Model() == DoArrive(setup, old(Model()), Read(mode, subject, header))
      ensures x == old(|calls|) < |calls| && forall y :: y in waiting ==> y < x
      ensures calls[x].phase == if !ValidAuthorization(header, setup.headerCap) then Done(Settled(Failed(Unauthorized)))
                                else if old(permits) == 0 then Done(Settled(Failed(Backpressure)))
                                else Admitted
    {
      Safety.QueueInRange(setup, Model());
      ExtendArrive(setup, Model(), Read(mode, subject, header));
      var phase := Admitted;
      if !ValidAuthorization(header, setup.headerCap) {
        phase := Done(Settled(Failed(Unauthorized)));
      } else if permits == 0 {
        phase := Done(Settled(Failed(Backpressure)));
      } else {
        permits := permits - 1;
      }
      x := |calls|;
      calls := calls + [Call(Read(mode, subject, header), None, None, None, clock, phase)];
      assert Model() == DoArrive(setup, old(Model()), Read(mode, subject, header));
    }

    method Refuse(x: nat, error: GatewayError)
      requires Valid() && x < |calls| && CanRefuse(setup, calls[x], error)
      modifies this
      ensures Valid() && x < |calls| && Same(old(calls[x]), calls[x])
      ensures calls[x].phase == Returning(Settled(Failed(error))) && waiting == old(waiting)
    {
      ExtendServe(setup, Model(), x, Serve.Refuse(error));
      Become(x, Returning(Settled(Failed(error))));
      assert Model() == DoServe(old(Model()), x, Serve.Refuse(error));
    }

    /** The tail of `tcp_read` and of `read`: judge the reply, give the permit back, answer. */
    method Respond(x: nat) returns (outcome: Outcome)
      requires Valid() && x < |calls| && calls[x].phase.Returning? && calls[x].request.Read?
      modifies this
      ensures Valid() && x < |calls| && Same(old(calls[x]), calls[x])
      ensures calls[x].phase == Done(old(calls[x].phase.end)) && outcome == OutcomeOf(calls[x])
      ensures permits == old(permits) + 1
      ensures waiting == old(waiting) && connection == old(connection) && wires == old(wires)
    {
      ExtendServe(setup, Model(), x, Return);
      var call := calls[x];
      match call.phase.end {
        case Settled(settled) => outcome := settled;
        case Answer(reply, _, _) =>
          if call.operation.None? || reply.operationId != Some(call.operation.value.id) {
            outcome := Failed(InvalidResponse);
          } else if reply.error.Some? {
            outcome := Failed(Upstream);
          } else if reply.result.None? {
            outcome := Failed(InvalidResponse);
          } else {
            outcome := Replied(Projection(StatefulMtlsTcp, reply.result.value));
          }
      }
      permits := permits + 1;
      Become(x, Done(call.phase.end));
      assert Model() == DoServe(old(Model()), x, Return);
    }

    /** `tcp_read` up to its reply: the checks, the operation, the exchange. */
    method Operate(x: nat, world: World)
      requires Valid() && x < |calls| && calls[x].phase.Admitted? && Uses(calls[x], StatefulMtlsTcp)
      requires world.now + DEADLINE_MS < U64 && x !in waiting
      requires calls[x].operation.None? && calls[x].queuedAt.None? && calls[x].lockedAt.None?
      modifies this
      ensures Valid() && x < |calls| && calls[x].request == old(calls[x].request)
      ensures calls[x].phase.Returning? && x !in waiting
      ensures calls[x].queuedAt.Some? <==> Passes(setup, old(Model()), x, world.now)
      ensures !Passes(setup, old(Model()), x, world.now) ==>
                && calls[x].lockedAt.None?
                && calls[x].phase.end == Settled(Failed(if setup.tcp then InvalidRequest else NotConfigured))
      ensures Passes(setup, old(Model()), x, world.now) ==>
                var s := AtLock(setup, old(Model()), x, world.now, world.lock.others);
                && calls[x].operation
                   == Some(Operation(old(mints), world.now, OperationId(world.now, old(sequence))))
                && (calls[x].lockedAt.Some? <==> HasTurn(s, x, world.lock.fate))
                && (if HasTurn(s, x, world.lock.fate)
                    then && LeftBehind(calls[x].phase.end)
                         && Explained(wires, x, Decisive(Stages(s.slot.None?, world)), calls[x].phase.end)
                    else calls[x].phase.end == Settled(Cancelled))
    {
      if !setup.tcp {
        Refuse(x, NotConfigured);
      } else if !ValidIdentifier(calls[x].request.subject, MAX_SUBJECT_BYTES) {
        Refuse(x, InvalidRequest);
      } else {
        var _ := OperationEnvelope(x, world.now);
        if !Encodable(setup, calls[x]) {
          Refuse(x, InvalidRequest);
        } else {
          Request(x, world);
        }
      }
    }

    /** `read` in TCP mode, whatever the world does at its awaits.  It is turned away exactly for an invalid
        header or for want of a permit, not configured exactly without the transport, and invalid exactly for a
        subject or an operation that fails its checks.  If it gets the mutex, it ends as the first await that
        does not deliver says, and if all do, with the frame at the place of its request: the peer's data if that
        reply is its own, free of errors and holds any.  When it answers, its permit is back and the mutex given
        up; if it had the mutex, the slot is full exactly when a reply was decoded, with nothing open otherwise,
        and if it had not, nothing of it was ever sent; and not more than 64 * 4 stage timeouts passed since it
        asked for the mutex. */
    method TcpRead(subject: string, header: string, world: World) returns (x: nat, outcome: Outcome)
      requires Valid() && world.now + DEADLINE_MS < U64
      modifies this
      ensures Valid() && x == |old(calls)| < |calls|
      ensures calls[x].request == Read(StatefulMtlsTcp, subject, header)
      ensures calls[x].phase.Done? && outcome == OutcomeOf(calls[x])
      ensures var end := calls[x].phase.end;
              var s := DoArrive(setup, old(Model()), Read(StatefulMtlsTcp, subject, header));
              if !ValidAuthorization(header, setup.headerCap) then end == Settled(Failed(Unauthorized))
              else if old(permits) == 0 then end == Settled(Failed(Backpressure))
              else if !setup.tcp then end == Settled(Failed(NotConfigured))
              else if !Passes(setup, s, x, world.now) then end == Settled(Failed(InvalidRequest))
              else
                var t := AtLock(setup, s, x, world.now, world.lock.others);
                && (calls[x].lockedAt.Some? <==> HasTurn(t, x, world.lock.fate))
                && (if HasTurn(t, x, world.lock.fate)
                    then && LeftBehind(end)
                         && Explained(wires, x, Decisive(Stages(t.slot.None?, world)), end)
                    else end == Settled(Cancelled))
      ensures match calls[x].phase.end
              case Settled(settled) => outcome == settled
              case Answer(reply, _, _) =>
                outcome == if reply.operationId != Some(OperationId(world.now, old(sequence)))
                           then Failed(InvalidResponse)
                           else if reply.error.Some? then Failed(Upstream)
                           else if reply.result.None? then Failed(InvalidResponse)
                           else Replied(Projection(StatefulMtlsTcp, reply.result.value))
      ensures forall data :: outcome == Replied(Projection(StatefulMtlsTcp, data)) ==>
                Safety.IsOwnReply(Model(), x, data)
      ensures permits + Permits.InFlight(calls) == 64 && x !in waiting
      ensures calls[x].lockedAt.None? ==> Fresh(wires, x)
      ensures calls[x].queuedAt.Some? ==> calls[x].stageAt - calls[x].queuedAt.value <= 64 * 4 * setup.timeout
    {
      x := Enter(StatefulMtlsTcp, subject, header);
      if calls[x].phase.Admitted? {
        Operate(x, world);
        outcome := Respond(x);
      } else {
        outcome := OutcomeOf(calls[x]);
      }
      Safety.PermitsConserved(setup, Model());
      Safety.Finished(setup, Model(), x);
    }
  }
}
