/** The lock and the connection slot: who may own a connection, and how many are open. */
module Connections {
  import opened Prelude
  import opened Gateway
  import opened Machine

  /** The queue lists each waiting or owning caller once, and only its head owns the lock. */
  ghost predicate LockInv(s: State) {
    && Distinct(s.queue)
    && (forall i :: 0 <= i < |s.queue| ==> s.queue[i] < |s.calls| && InQueue(s.calls[s.queue[i]].phase))
    && (forall x :: 0 <= x < |s.calls| && InQueue(s.calls[x].phase) ==> x in s.queue)
    && (forall x :: 0 <= x < |s.calls| && OwnsLock(s.calls[x].phase) ==> s.queue[0] == x)
  }

  /** The one connection that may be open: the parked one, or the one the lock owner holds. */
  function Live(s: State): Option<nat> {
    if s.slot.Some? then s.slot
    else if s.queue != [] && s.queue[0] < |s.calls| then Owned(s.calls[s.queue[0]].phase)
    else None
  }

  /** Between taking the slot and giving the lock up, the slot is empty. */
  predicate Took(phase: Phase) {
    OwnsLock(phase) && !phase.Unlocking?
  }

  ghost predicate SlotInv(s: State) {
    && (forall x :: 0 <= x < |s.calls| && Took(s.calls[x].phase) ==> s.slot.None?)
    && (forall c :: 0 <= c < |s.conns| ==> (s.conns[c].open <==> Live(s) == Some(c)))
    && (Live(s).Some? ==> Live(s).value < |s.conns|)
  }

  lemma {:induction false} WithoutElements(q: seq<nat>, x: nat)
    requires Distinct(q)
    ensures Distinct(Without(q, x))
    ensures forall y :: y in Without(q, x) <==> y in q && y != x
    ensures |Without(q, x)| <= |q|
    ensures q != [] && q[0] != x ==> Without(q, x) != [] && Without(q, x)[0] == q[0]
  {
    if q != [] && q[0] != x {
      var rest := Without(q[1..], x);
      assert q == [q[0]] + q[1..];
      assert q[0] !in q[1..];
      WithoutElements(q[1..], x);
      assert q[0] !in rest;
    }
  }

  /** Nobody but caller `x` is touched. */
  ghost predicate Only(s: State, s': State, x: nat) {
    && |s'.calls| == |s.calls| && x < |s.calls|
    && (forall y :: 0 <= y < |s.calls| && y != x ==> s'.calls[y] == s.calls[y])
  }

  /** Only caller `x` is touched; its request stays, and it is not over but by returning. */
  ghost predicate Touches(s: State, s': State, x: nat, over: bool) {
    Only(s, s', x) && s'.calls[x].request == s.calls[x].request && (s'.calls[x].phase.Done? ==> over)
  }

  lemma TouchServe(p: Setup, s: State, x: nat, serve: Serve)
    requires x < |s.calls| && CanServe(p, s.calls[x], serve)
    ensures Touches(s, DoServe(s, x, serve), x, serve == Return)
  {
  }

  lemma TouchHold(s: State, x: nat, hold: Hold)
    requires x < |s.calls| && CanHold(s, x, hold)
    ensures Touches(s, DoHold(s, x, hold), x, false)
  {
  }

  lemma TouchTalk(s: State, x: nat, talk: Talk)
    requires x < |s.calls| && CanTalk(s, x, talk)
    ensures Touches(s, DoTalk(s, x, talk), x, false)
  {
  }

  lemma TouchSubmit(s: State, x: nat, submit: Submit)
    requires x < |s.calls| && CanSubmit(s, x, submit)
    ensures Touches(s, DoSubmit(s, x, submit), x, false)
  {
  }

  /** A step touches its own caller alone, or nobody who is there. */
  lemma TouchStep(p: Setup, s: State, step: Step)
    requires Enabled(p, s, step)
    ensures var s' := Apply(p, s, step);
            match Mover(step)
            case Some(x) => Touches(s, s', x, step == Step.Serve(x, Return))
            case None => |s.calls| <= |s'.calls| && forall y :: 0 <= y < |s.calls| ==> s'.calls[y] == s.calls[y]
  {
    match step
    case Serve(x, serve) => TouchServe(p, s, x, serve);
    case Hold(x, hold) => TouchHold(s, x, hold);
    case Talk(x, talk) => TouchTalk(s, x, talk);
    case Submit(x, submit) => TouchSubmit(s, x, submit);
    case _ =>
  }

  /** Caller `x` moves on without joining or leaving the queue. */
  lemma LockKept(s: State, s': State, x: nat)
    requires LockInv(s) && Only(s, s', x) && s'.queue == s.queue
    requires InQueue(s'.calls[x].phase) == InQueue(s.calls[x].phase)
    requires OwnsLock(s'.calls[x].phase) ==> s.queue != [] && s.queue[0] == x
    ensures LockInv(s')
  {
  }

  lemma LockJoined(s: State, s': State, x: nat)
    requires LockInv(s) && Only(s, s', x) && s'.queue == s.queue + [x]
    requires !InQueue(s.calls[x].phase) && s'.calls[x].phase.Queued?
    ensures LockInv(s')
  {
    assert forall y :: y in s'.queue <==> y in s.queue || y == x;
    assert x !in s.queue;
  }

  lemma LockLeft(s: State, s': State, x: nat)
    requires LockInv(s) && Only(s, s', x) && s'.queue == Without(s.queue, x)
    requires !InQueue(s'.calls[x].phase)
    ensures LockInv(s')
  {
    WithoutElements(s.queue, x);
    forall i | 0 <= i < |s'.queue| ensures s'.queue[i] < |s'.calls| && InQueue(s'.calls[s'.queue[i]].phase) {
      assert s'.queue[i] in s'.queue;
    }
  }

  lemma LockArrive(p: Setup, s: State, request: Request)
    requires LockInv(s)
    ensures LockInv(DoArrive(p, s, request))
  {
    var s' := DoArrive(p, s, request);
    assert forall y :: 0 <= y < |s.calls| ==> s'.calls[y] == s.calls[y];
  }

  lemma LockServe(p: Setup, s: State, x: nat, serve: Serve)
    requires LockInv(s) && x < |s.calls| && CanServe(p, s.calls[x], serve)
    ensures LockInv(DoServe(s, x, serve))
  {
    TouchServe(p, s, x, serve);
    LockKept(s, DoServe(s, x, serve), x);
  }

  lemma LockHold(s: State, x: nat, hold: Hold)
    requires LockInv(s) && x < |s.calls| && CanHold(s, x, hold)
    ensures LockInv(DoHold(s, x, hold))
  {
    var s' := DoHold(s, x, hold);
    match hold
    case Enqueue => LockJoined(s, s', x);
    case Unlock => LockLeft(s, s', x);
    case _ => LockKept(s, s', x);
  }

  lemma LockTalk(s: State, x: nat, talk: Talk)
    requires LockInv(s) && x < |s.calls| && CanTalk(s, x, talk)
    ensures LockInv(DoTalk(s, x, talk))
  {
    LockKept(s, DoTalk(s, x, talk), x);
  }

  lemma LockSubmit(s: State, x: nat, submit: Submit)
    requires LockInv(s) && x < |s.calls| && CanSubmit(s, x, submit)
    ensures LockInv(DoSubmit(s, x, submit))
  {
    LockKept(s, DoSubmit(s, x, submit), x);
  }

  lemma LockAbandon(s: State, x: nat, end: End)
    requires LockInv(s) && x < |s.calls|
    requires Cancellable(s.calls[x].phase) || exists e :: StageError(s.calls[x].phase, e)
    ensures LockInv(Abandon(s, x, end))
  {
    var s' := Abandon(s, x, end);
    if s.calls[x].phase.Queued? { LockLeft(s, s', x); } else { LockKept(s, s', x); }
  }

  lemma LockStep(p: Setup, s: State, step: Step)
    requires LockInv(s) && Enabled(p, s, step)
    ensures LockInv(Apply(p, s, step))
  {
    match step
    case Arrive(request) => LockArrive(p, s, request);
    case Serve(x, serve) => LockServe(p, s, x, serve);
    case Hold(x, hold) => LockHold(s, x, hold);
    case Talk(x, talk) => LockTalk(s, x, talk);
    case Submit(x, submit) => LockSubmit(s, x, submit);
    case Fail(x, error) => LockAbandon(s, x, Settled(Failed(error)));
    case Cancel(x) => LockAbandon(s, x, Settled(Cancelled));
    case Emit(_, _) =>
    case Store(_) =>
    case Tick =>
  }

  // ---------------------------------------------------------------- the slot

  /** Caller `x` moves on with the same connection in hand and the queue head unchanged. */
  lemma SlotKept(s: State, s': State, x: nat)
    requires LockInv(s) && SlotInv(s) && LockInv(s') && Only(s, s', x) && s'.slot == s.slot
    requires |s'.conns| == |s.conns| && forall c :: 0 <= c < |s.conns| ==> s'.conns[c].open == s.conns[c].open
    requires Owned(s'.calls[x].phase) == Owned(s.calls[x].phase)
    requires Took(s'.calls[x].phase) ==> Took(s.calls[x].phase)
    requires (s'.queue == [] && s.queue == []) || (s'.queue != [] && s.queue != [] && s'.queue[0] == s.queue[0])
          || Live(s') == Live(s)
    ensures SlotInv(s')
  {
  }

  lemma SlotArrive(p: Setup, s: State, request: Request)
    requires LockInv(s) && SlotInv(s)
    ensures SlotInv(DoArrive(p, s, request))
  {
    LockArrive(p, s, request);
    assert Live(DoArrive(p, s, request)) == Live(s);
  }

  lemma SlotServe(p: Setup, s: State, x: nat, serve: Serve)
    requires LockInv(s) && SlotInv(s) && x < |s.calls| && CanServe(p, s.calls[x], serve)
    ensures SlotInv(DoServe(s, x, serve))
  {
    LockServe(p, s, x, serve);
    SlotKept(s, DoServe(s, x, serve), x);
  }

  lemma SlotHold(s: State, x: nat, hold: Hold)
    requires LockInv(s) && SlotInv(s) && x < |s.calls| && CanHold(s, x, hold)
    ensures SlotInv(DoHold(s, x, hold))
  {
    var s' := DoHold(s, x, hold);
    LockHold(s, x, hold);
    match hold
    case Enqueue => SlotKept(s, s', x);
    case Take =>
    case Park => assert s.queue[0] == x;
    case Close => assert s.queue[0] == x && Live(s) == Some(s.calls[x].phase.c);
    case Unlock => SlotUnlock(s, x);
  }

  /** The next owner has not taken the slot yet, so giving up the lock leaves the open connection where it is. */
  lemma SlotUnlock(s: State, x: nat)
    requires LockInv(s) && SlotInv(s) && x < |s.calls| && CanHold(s, x, Unlock)
    ensures SlotInv(DoHold(s, x, Unlock))
  {
    var s' := DoHold(s, x, Unlock);
    LockHold(s, x, Unlock);
    assert s.queue[0] == x;
    if s'.queue != [] {
      var y := s'.queue[0];
      assert y == s.queue[1] && y != x;
      assert s.calls[y].phase.Queued?;
    }
    SlotKept(s, s', x);
  }

  lemma SlotTalk(s: State, x: nat, talk: Talk)
    requires LockInv(s) && SlotInv(s) && x < |s.calls| && CanTalk(s, x, talk)
    ensures SlotInv(DoTalk(s, x, talk))
  {
    LockTalk(s, x, talk);
    if talk != Connected { SlotKept(s, DoTalk(s, x, talk), x); }
  }

  lemma SlotSubmit(s: State, x: nat, submit: Submit)
    requires LockInv(s) && SlotInv(s) && x < |s.calls| && CanSubmit(s, x, submit)
    ensures SlotInv(DoSubmit(s, x, submit))
  {
    LockSubmit(s, x, submit);
    SlotKept(s, DoSubmit(s, x, submit), x);
  }

  lemma SlotAbandon(s: State, x: nat, end: End)
    requires LockInv(s) && SlotInv(s) && x < |s.calls|
    requires Cancellable(s.calls[x].phase) || exists e :: StageError(s.calls[x].phase, e)
    ensures SlotInv(Abandon(s, x, end))
  {
    var s' := Abandon(s, x, end);
    LockAbandon(s, x, end);
    if s.calls[x].phase.Queued? {
      WithoutElements(s.queue, x);
      if s'.queue != [] {
        assert s'.queue[0] in s'.queue;
        if s.queue[0] == x { assert s'.queue[0] == s.queue[1] && s.calls[s.queue[1]].phase.Queued?; }
      }
    }
    SlotKept(s, s', x);
  }

  lemma SlotStep(p: Setup, s: State, step: Step)
    requires LockInv(s) && SlotInv(s) && Enabled(p, s, step)
    ensures SlotInv(Apply(p, s, step))
  {
    match step
    case Arrive(request) => SlotArrive(p, s, request);
    case Serve(x, serve) => SlotServe(p, s, x, serve);
    case Hold(x, hold) => SlotHold(s, x, hold);
    case Talk(x, talk) => SlotTalk(s, x, talk);
    case Submit(x, submit) => SlotSubmit(s, x, submit);
    case Fail(x, error) => SlotAbandon(s, x, Settled(Failed(error)));
    case Cancel(x) => SlotAbandon(s, x, Settled(Cancelled));
    case Emit(c, e) => assert Live(DoEmit(s, c, e)) == Live(s);
    case Store(_) =>
    case Tick =>
  }
}
