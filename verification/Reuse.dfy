/** How often the connection is opened: no more often than it had to be dropped. */
module Reuse {
  import opened Gateway
  import opened Machine
  import opened Connections
  import opened Correlation

  /** Did the call own the lock and end, or is it about to, without a decoded reply? */
  predicate Lost(call: Call) {
    call.lockedAt.Some? &&
    match call.phase
    case Unlocking(end) => end.Settled?
    case Returning(end) => end.Settled?
    case Done(end) => end.Settled?
    case _ => false
  }

  function LostOwners(calls: seq<Call>): nat {
    if calls == [] then 0
    else LostOwners(calls[..|calls| - 1]) + if Lost(calls[|calls| - 1]) then 1 else 0
  }

  function Dropped(conns: seq<Connection>): nat {
    if conns == [] then 0
    else Dropped(conns[..|conns| - 1]) + if conns[|conns| - 1].open then 0 else 1
  }

  /** Whoever owns the lock has taken it, and who never took it never wrote; every connection that was dropped
      was dropped by an owner that ended without a reply. */
  ghost predicate ReuseInv(s: State) {
    && (forall x :: 0 <= x < |s.calls| && OwnsLock(s.calls[x].phase) ==> s.calls[x].lockedAt.Some?)
    && (forall x :: 0 <= x < |s.calls| && s.calls[x].lockedAt.None? ==> Fresh(s.conns, x))
    && Dropped(s.conns) <= LostOwners(s.calls)
  }

  lemma {:induction false} LostUpdate(calls: seq<Call>, x: nat, call: Call)
    requires x < |calls|
    ensures LostOwners(calls[x := call]) + (if Lost(calls[x]) then 1 else 0)
         == LostOwners(calls) + if Lost(call) then 1 else 0
  {
    var last := |calls| - 1;
    if x == last {
      assert calls[x := call][..last] == calls[..last];
    } else {
      LostUpdate(calls[..last], x, call);
      assert calls[x := call][..last] == calls[..last][x := call];
    }
  }

  /** Connections that stay as open as they were count alike. */
  lemma {:induction false} DroppedSame(conns: seq<Connection>, conns': seq<Connection>)
    requires |conns'| == |conns| && forall c :: 0 <= c < |conns| ==> conns'[c].open == conns[c].open
    ensures Dropped(conns') == Dropped(conns)
  {
    if conns != [] { DroppedSame(conns[..|conns| - 1], conns'[..|conns| - 1]); }
  }

  lemma {:induction false} DroppedUpdate(conns: seq<Connection>, c: nat, conn: Connection)
    requires c < |conns|
    ensures Dropped(conns[c := conn]) <= Dropped(conns) + 1
  {
    var last := |conns| - 1;
    if c == last {
      assert conns[c := conn][..last] == conns[..last];
    } else {
      DroppedUpdate(conns[..last], c, conn);
      assert conns[c := conn][..last] == conns[..last][c := conn];
    }
  }

  /** At most one connection is open, so all but one were dropped. */
  lemma {:induction false} AllButOne(conns: seq<Connection>)
    requires forall c, d :: 0 <= c < |conns| && 0 <= d < |conns| && conns[c].open && conns[d].open ==> c == d
    ensures |conns| <= Dropped(conns) + 1
    ensures (forall c :: 0 <= c < |conns| ==> !conns[c].open) ==> |conns| == Dropped(conns)
  {
    if conns != [] {
      AllButOne(conns[..|conns| - 1]);
    }
  }

  /** Caller `x` moves on, sends nothing, opens or drops nothing, and a lost owner stays one. */
  lemma ReuseKept(s: State, s': State, x: nat)
    requires ReuseInv(s) && Only(s, s', x) && s'.calls == s.calls[x := s'.calls[x]]
    requires |s'.conns| == |s.conns|
    requires forall c :: 0 <= c < |s.conns| ==>
               s'.conns[c].open == s.conns[c].open && s'.conns[c].sent == s.conns[c].sent
    requires s'.calls[x].lockedAt == s.calls[x].lockedAt || s'.calls[x].lockedAt.Some?
    requires OwnsLock(s'.calls[x].phase) ==> s'.calls[x].lockedAt.Some?
    requires Lost(s.calls[x]) ==> Lost(s'.calls[x])
    ensures ReuseInv(s')
  {
    LostUpdate(s.calls, x, s'.calls[x]);
    DroppedSame(s.conns, s'.conns);
  }

  lemma ReuseArrive(p: Setup, s: State, request: Request)
    requires ReuseInv(s) && WireInv(s)
    ensures ReuseInv(DoArrive(p, s, request))
  {
    var s' := DoArrive(p, s, request);
    assert s'.calls[..|s.calls|] == s.calls;
    assert forall y :: 0 <= y < |s.calls| ==> s'.calls[y] == s.calls[y];
    forall c, j | 0 <= c < |s.conns| && 0 <= j < |s.conns[c].sent| ensures s.conns[c].sent[j].caller != |s.calls| {
      SenderSent(s, c, j);
    }
  }

  lemma ReuseServe(p: Setup, s: State, x: nat, serve: Serve)
    requires ReuseInv(s) && x < |s.calls| && CanServe(p, s.calls[x], serve)
    ensures ReuseInv(DoServe(s, x, serve))
  {
    ReuseKept(s, DoServe(s, x, serve), x);
  }

  lemma ReuseHold(s: State, x: nat, hold: Hold)
    requires ReuseInv(s) && WireInv(s) && x < |s.calls| && CanHold(s, x, hold)
    ensures ReuseInv(DoHold(s, x, hold))
  {
    if hold == Close {
      ReuseClose(s, x);
    } else {
      ReuseKept(s, DoHold(s, x, hold), x);
    }
  }

  /** Whoever drops a connection has no reply to show. */
  lemma ReuseClose(s: State, x: nat)
    requires ReuseInv(s) && WireInv(s) && x < |s.calls| && CanHold(s, x, Close)
    ensures ReuseInv(DoHold(s, x, Close))
  {
    var s', c := DoHold(s, x, Close), s.calls[x].phase.c;
    assert CallOk(s.conns, x, s.calls[x]);
    LostUpdate(s.calls, x, s'.calls[x]);
    DroppedUpdate(s.conns, c, s'.conns[c]);
    assert forall d :: 0 <= d < |s.conns| ==> s'.conns[d].sent == s.conns[d].sent;
  }

  lemma ReuseTalk(s: State, x: nat, talk: Talk)
    requires ReuseInv(s) && x < |s.calls| && CanTalk(s, x, talk)
    ensures ReuseInv(DoTalk(s, x, talk))
  {
    match talk
    case Connected => ReuseConnected(s, x);
    case Transmit => ReuseTransmit(s, x);
    case _ => ReuseKept(s, DoTalk(s, x, talk), x);
  }

  lemma ReuseConnected(s: State, x: nat)
    requires ReuseInv(s) && x < |s.calls| && CanTalk(s, x, Connected)
    ensures ReuseInv(DoTalk(s, x, Connected))
  {
    var s' := DoTalk(s, x, Connected);
    LostUpdate(s.calls, x, s'.calls[x]);
    assert s'.conns[..|s.conns|] == s.conns;
  }

  lemma ReuseTransmit(s: State, x: nat)
    requires ReuseInv(s) && x < |s.calls| && CanTalk(s, x, Transmit)
    ensures ReuseInv(DoTalk(s, x, Transmit))
  {
    var s' := DoTalk(s, x, Transmit);
    LostUpdate(s.calls, x, s'.calls[x]);
    DroppedSame(s.conns, s'.conns);
  }

  lemma ReuseSubmit(s: State, x: nat, submit: Submit)
    requires ReuseInv(s) && x < |s.calls| && CanSubmit(s, x, submit)
    ensures ReuseInv(DoSubmit(s, x, submit))
  {
    ReuseKept(s, DoSubmit(s, x, submit), x);
  }

  lemma ReuseAbandon(s: State, x: nat, outcome: Outcome)
    requires ReuseInv(s) && x < |s.calls| && (Cancellable(s.calls[x].phase) || Timed(s.calls[x].phase))
    ensures ReuseInv(Abandon(s, x, Settled(outcome)))
  {
    ReuseKept(s, Abandon(s, x, Settled(outcome)), x);
  }

  lemma ReuseStep(p: Setup, s: State, step: Step)
    requires ReuseInv(s) && WireInv(s) && Enabled(p, s, step)
    ensures ReuseInv(Apply(p, s, step))
  {
    match step
    case Arrive(request) => ReuseArrive(p, s, request);
    case Serve(x, serve) => ReuseServe(p, s, x, serve);
    case Hold(x, hold) => ReuseHold(s, x, hold);
    case Talk(x, talk) => ReuseTalk(s, x, talk);
    case Submit(x, submit) => ReuseSubmit(s, x, submit);
    case Fail(x, error) => ReuseAbandon(s, x, Failed(error));
    case Cancel(x) => ReuseAbandon(s, x, Cancelled);
    case Emit(c, e) => DroppedSame(s.conns, DoEmit(s, c, e).conns);
    case Store(_) =>
    case Tick =>
  }
}
