/** The 64 permits, and which calls can be in which phase. */
module Permits {
  import opened Prelude
  import opened OperationIds
  import opened Authorization
  import opened Gateway
  import opened Machine
  import opened Connections

  /** How many of the calls hold a permit. */
  function InFlight(calls: seq<Call>): nat {
    if calls == [] then 0
    else InFlight(calls[..|calls| - 1]) + if HoldsPermit(calls[|calls| - 1]) then 1 else 0
  }

  ghost predicate PermitInv(s: State) {
    s.permits + InFlight(s.calls) == MAX_IN_FLIGHT_OPERATIONS
  }

  function Weight(call: Call): nat {
    if HoldsPermit(call) then 1 else 0
  }

  lemma {:induction false} InFlightUpdate(calls: seq<Call>, x: nat, call: Call)
    requires x < |calls|
    ensures InFlight(calls[x := call]) == InFlight(calls) - Weight(calls[x]) + Weight(call)
  {
    var last := |calls| - 1;
    if x == last {
      assert calls[x := call][..last] == calls[..last];
    } else {
      InFlightUpdate(calls[..last], x, call);
      assert calls[x := call][..last] == calls[..last][x := call];
    }
  }

  /** Callers listed once each, all holding permits, are no more than the permits out. */
  lemma {:induction false} HoldersBounded(calls: seq<Call>, q: seq<nat>)
    requires Distinct(q)
    requires forall x :: x in q ==> x < |calls| && HoldsPermit(calls[x])
    ensures |q| <= InFlight(calls)
  {
    assert q != [] ==> q[0] in q;
    if calls != [] {
      var last := |calls| - 1;
      var rest := Without(q, last);
      WithoutElements(q, last);
      WithoutLength(q, last);
      HoldersBounded(calls[..last], rest);
    }
  }

  lemma {:induction false} WithoutLength(q: seq<nat>, x: nat)
    ensures |Without(q, x)| == |q| - if x in q then 1 else 0
  {
    if q != [] && q[0] != x { WithoutLength(q[1..], x); }
  }

  lemma PermitServe(p: Setup, s: State, x: nat, serve: Serve)
    requires PermitInv(s) && x < |s.calls| && CanServe(p, s.calls[x], serve)
    ensures PermitInv(DoServe(s, x, serve))
  {
    InFlightUpdate(s.calls, x, DoServe(s, x, serve).calls[x]);
  }

  lemma PermitHold(s: State, x: nat, hold: Hold)
    requires PermitInv(s) && x < |s.calls| && CanHold(s, x, hold)
    ensures PermitInv(DoHold(s, x, hold))
  {
    InFlightUpdate(s.calls, x, DoHold(s, x, hold).calls[x]);
  }

  lemma PermitTalk(s: State, x: nat, talk: Talk)
    requires PermitInv(s) && x < |s.calls| && CanTalk(s, x, talk)
    ensures PermitInv(DoTalk(s, x, talk))
  {
    InFlightUpdate(s.calls, x, DoTalk(s, x, talk).calls[x]);
  }

  lemma PermitSubmit(s: State, x: nat, submit: Submit)
    requires PermitInv(s) && x < |s.calls| && CanSubmit(s, x, submit)
    ensures PermitInv(DoSubmit(s, x, submit))
  {
    InFlightUpdate(s.calls, x, DoSubmit(s, x, submit).calls[x]);
  }

  lemma PermitAbandon(s: State, x: nat, end: End)
    requires PermitInv(s) && x < |s.calls| && !s.calls[x].phase.Done?
    ensures PermitInv(Abandon(s, x, end))
  {
    InFlightUpdate(s.calls, x, Abandon(s, x, end).calls[x]);
  }

  lemma PermitStep(p: Setup, s: State, step: Step)
    requires PermitInv(s) && Enabled(p, s, step)
    ensures PermitInv(Apply(p, s, step))
  {
    match step
    case Arrive(request) =>
      var s' := DoArrive(p, s, request);
      assert s'.calls[..|s.calls|] == s.calls;
    case Serve(x, serve) => PermitServe(p, s, x, serve);
    case Hold(x, hold) => PermitHold(s, x, hold);
    case Talk(x, talk) => PermitTalk(s, x, talk);
    case Submit(x, submit) => PermitSubmit(s, x, submit);
    case Fail(x, error) => PermitAbandon(s, x, Settled(Failed(error)));
    case Cancel(x) => PermitAbandon(s, x, Settled(Cancelled));
    case Emit(_, _) =>
    case Store(_) =>
    case Tick =>
  }

  // ---------------------------------------------------------------- who may be where

  /** What a call of each kind can end with, and why. */
  predicate ProperEnd(p: Setup, call: Call, end: End) {
    match end
    case Answer(_, _, _) => Uses(call, StatefulMtlsTcp) && Configured(p, StatefulMtlsTcp)
    case Settled(Cancelled) => true
    case Settled(Replied(Projection(mode, _))) => mode != StatefulMtlsTcp && Uses(call, mode) && mode != JetStreamAsync
    case Settled(Replied(Accepted(_))) => Uses(call, JetStreamAsync) && Configured(p, JetStreamAsync)
    case Settled(Replied(StatusReport(_))) => call.request.Poll?
    case Settled(Failed(error)) => ProperError(p, call.request, error)
  }

  predicate ProperError(p: Setup, request: Request, error: GatewayError) {
    match request
    case Read(mode, _, header) =>
      (match error
       case Unauthorized => !ValidAuthorization(header, p.headerCap)
       case Backpressure => true
       case NotConfigured => !Configured(p, mode)
       case InvalidRequest => Configured(p, mode) && (mode == StatefulMtlsTcp || mode == JetStreamAsync)
       case Timeout => Configured(p, mode) && mode != DirectReadOnlyDatabase
       case Upstream => Configured(p, mode)
       case InvalidResponse => Configured(p, mode) && mode != JetStreamAsync)
    case Poll(id, _) =>
      match error
      case InvalidRequest => !ValidIdentifier(id, MAX_OPERATION_ID_BYTES)
      case NotConfigured => !p.api
      case Unauthorized => false
      case Backpressure => false
      case _ => true
  }

  predicate Serves(p: Setup, call: Call, mode: Mode) {
    Uses(call, mode) && Configured(p, mode)
  }

  /** The call is past the checks on its operation. */
  predicate Submits(p: Setup, call: Call, mode: Mode) {
    Serves(p, call, mode) && Encodable(p, call)
  }

  /** Each phase belongs to the modes whose code passes through it. */
  predicate Fits(p: Setup, call: Call) {
    match call.phase
    case Admitted => call.request.Read? && ValidAuthorization(call.request.header, p.headerCap)
    case Minted => (Serves(p, call, StatefulMtlsTcp) || Serves(p, call, JetStreamAsync)) && call.operation.Some?
    case Publishing => Submits(p, call, JetStreamAsync)
    case AwaitingAck => Submits(p, call, JetStreamAsync)
    case Working =>
      || (call.request.Poll? && p.api) || Serves(p, call, DirectReadOnlyDatabase) || Serves(p, call, StatelessHttp)
    case Returning(end) => ProperEnd(p, call, end)
    case Done(end) => ProperEnd(p, call, end)
    case Parking(_, end) => Serves(p, call, StatefulMtlsTcp) && ProperEnd(p, call, end)
    case Closing(_, end) => Serves(p, call, StatefulMtlsTcp) && ProperEnd(p, call, end)
    case Unlocking(end) => Serves(p, call, StatefulMtlsTcp) && ProperEnd(p, call, end)
    case _ => Submits(p, call, StatefulMtlsTcp)
  }

  ghost predicate FitInv(p: Setup, s: State) {
    forall x :: 0 <= x < |s.calls| ==> Fits(p, s.calls[x])
  }

  lemma FitStep(p: Setup, s: State, step: Step)
    requires FitInv(p, s) && Enabled(p, s, step)
    ensures FitInv(p, Apply(p, s, step))
  {
    match step
    case Arrive(_) =>
    case Serve(x, serve) => FitServe(p, s, x, serve);
    case Hold(x, hold) => FitHold(p, s, x, hold);
    case Talk(x, talk) => FitTalk(p, s, x, talk);
    case Submit(x, submit) => FitSubmit(p, s, x, submit);
    case Fail(x, error) =>
      assert Fits(p, s.calls[x]);
      FitAbandon(p, s, x, Settled(Failed(error)));
    case Cancel(x) => FitAbandon(p, s, x, Settled(Cancelled));
    case Emit(_, _) =>
    case Store(_) =>
    case Tick =>
  }

  lemma FitAbandon(p: Setup, s: State, x: nat, end: End)
    requires FitInv(p, s) && x < |s.calls| && ProperEnd(p, s.calls[x], end)
    ensures FitInv(p, Abandon(s, x, end))
  {
    assert Fits(p, s.calls[x]);
  }

  lemma FitServe(p: Setup, s: State, x: nat, serve: Serve)
    requires FitInv(p, s) && x < |s.calls| && CanServe(p, s.calls[x], serve)
    ensures FitInv(p, DoServe(s, x, serve))
  {
    assert Fits(p, s.calls[x]);
  }

  lemma FitHold(p: Setup, s: State, x: nat, hold: Hold)
    requires FitInv(p, s) && x < |s.calls| && CanHold(s, x, hold)
    requires hold == Enqueue ==> Encodable(p, s.calls[x])
    ensures FitInv(p, DoHold(s, x, hold))
  {
    assert Fits(p, s.calls[x]);
  }

  lemma FitTalk(p: Setup, s: State, x: nat, talk: Talk)
    requires FitInv(p, s) && x < |s.calls| && CanTalk(s, x, talk)
    ensures FitInv(p, DoTalk(s, x, talk))
  {
    assert Fits(p, s.calls[x]);
  }

  lemma FitSubmit(p: Setup, s: State, x: nat, submit: Submit)
    requires FitInv(p, s) && x < |s.calls| && CanSubmit(s, x, submit)
    requires submit == Publish ==> Encodable(p, s.calls[x])
    ensures FitInv(p, DoSubmit(s, x, submit))
  {
    assert Fits(p, s.calls[x]);
  }

  // ---------------------------------------------------------------- who is turned away

  /** What a call on its way out is going to end with. */
  function Ending(phase: Phase): Option<End> {
    match phase
    case Parking(_, end) => Some(end)
    case Closing(_, end) => Some(end)
    case Unlocking(end) => Some(end)
    case Returning(end) => Some(end)
    case _ => None
  }

  /** A read is turned away as unauthorized exactly when its header is invalid; past the door nobody meets
      backpressure; and a read in a mode that is not configured gets no further than that refusal.  A poll is
      turned away as invalid exactly when its identifier is, and as not configured exactly without the API. */
  predicate Door(p: Setup, call: Call) {
    match call.request
    case Read(mode, _, header) =>
      && Ending(call.phase) != Some(Settled(Failed(Backpressure)))
      && (call.phase == Done(Settled(Failed(Unauthorized))) <==> !ValidAuthorization(header, p.headerCap))
      && (!Configured(p, mode) ==>
            match call.phase
            case Admitted => true
            case Returning(end) => end == Settled(Failed(NotConfigured))
            case Done(end) => || end == Settled(Failed(NotConfigured)) || end == Settled(Failed(Unauthorized))
                              || end == Settled(Failed(Backpressure))
            case _ => false)
    case Poll(id, _) =>
      && (call.phase == Done(Settled(Failed(InvalidRequest))) <==> !ValidIdentifier(id, 128))
      && (call.phase == Done(Settled(Failed(NotConfigured))) <==> ValidIdentifier(id, 128) && !p.api)
  }

  ghost predicate DoorInv(p: Setup, s: State) {
    forall x :: 0 <= x < |s.calls| ==> Door(p, s.calls[x])
  }

  lemma DoorServe(p: Setup, s: State, x: nat, serve: Serve)
    requires FitInv(p, s) && DoorInv(p, s) && x < |s.calls| && CanServe(p, s.calls[x], serve)
    ensures DoorInv(p, DoServe(s, x, serve))
  {
    assert Fits(p, s.calls[x]) && Door(p, s.calls[x]);
  }

  lemma DoorHold(p: Setup, s: State, x: nat, hold: Hold)
    requires DoorInv(p, s) && x < |s.calls| && CanHold(s, x, hold)
    ensures DoorInv(p, DoHold(s, x, hold))
  {
    assert Door(p, s.calls[x]);
  }

  lemma DoorTalk(p: Setup, s: State, x: nat, talk: Talk)
    requires DoorInv(p, s) && x < |s.calls| && CanTalk(s, x, talk)
    ensures DoorInv(p, DoTalk(s, x, talk))
  {
    assert Door(p, s.calls[x]);
  }

  lemma DoorSubmit(p: Setup, s: State, x: nat, submit: Submit)
    requires DoorInv(p, s) && x < |s.calls| && CanSubmit(s, x, submit)
    ensures DoorInv(p, DoSubmit(s, x, submit))
  {
    assert Door(p, s.calls[x]);
  }

  lemma DoorAbandon(p: Setup, s: State, x: nat, end: End)
    requires DoorInv(p, s) && x < |s.calls| && (Cancellable(s.calls[x].phase) || Timed(s.calls[x].phase))
    requires FitInv(p, s) && end != Settled(Failed(Backpressure))
    ensures DoorInv(p, Abandon(s, x, end))
  {
    assert Door(p, s.calls[x]);
  }

  lemma DoorStep(p: Setup, s: State, step: Step)
    requires FitInv(p, s) && DoorInv(p, s) && Enabled(p, s, step)
    ensures DoorInv(p, Apply(p, s, step))
  {
    match step
    case Arrive(_) =>
    case Serve(x, serve) => DoorServe(p, s, x, serve);
    case Hold(x, hold) => DoorHold(p, s, x, hold);
    case Talk(x, talk) => DoorTalk(p, s, x, talk);
    case Submit(x, submit) => DoorSubmit(p, s, x, submit);
    case Fail(x, error) => DoorAbandon(p, s, x, Settled(Failed(error)));
    case Cancel(x) => DoorAbandon(p, s, x, Settled(Cancelled));
    case Emit(_, _) =>
    case Store(_) =>
    case Tick =>
  }

  /** A finished read that was not turned away was refused as not configured exactly when its mode was not. */
  lemma RefusedExactly(p: Setup, call: Call)
    requires Fits(p, call) && Door(p, call) && call.request.Read? && call.phase.Done? && !TurnedAway(call)
    ensures OutcomeOf(call) == Failed(NotConfigured) <==> !Configured(p, call.request.mode)
  {
  }

  /** Did the call end at the door, before it got a permit? */
  predicate TurnedAway(call: Call) {
    call.phase.Done? && OutcomeOf(call) in {Failed(Unauthorized), Failed(Backpressure)}
  }

  /** A read that is past the door is never turned away. */
  lemma PastDoorStep(p: Setup, s: State, step: Step, x: nat)
    requires FitInv(p, s) && DoorInv(p, s) && Enabled(p, s, step)
    requires x < |s.calls| && s.calls[x].request.Read? && !TurnedAway(s.calls[x])
    ensures var s' := Apply(p, s, step);
            x < |s'.calls| && s'.calls[x].request == s.calls[x].request && !TurnedAway(s'.calls[x])
  {
    TouchStep(p, s, step);
    if step == Step.Serve(x, Return) {
      assert Fits(p, s.calls[x]) && Door(p, s.calls[x]);
      ReturnNotTurned(p, s.calls[x]);
    }
  }

  lemma ReturnNotTurned(p: Setup, call: Call)
    requires Fits(p, call) && Door(p, call) && call.request.Read? && call.phase.Returning?
    ensures Judge(call, call.phase.end) !in {Failed(Unauthorized), Failed(Backpressure)}
  {
  }
}
