/** How long a TCP read can take once it has asked for the connection lock. */
module Latency {
  import opened Prelude
  import opened Gateway
  import opened Machine
  import opened Connections
  import opened Permits

  /** The time `i` lock tenures may take: two connect stages, one send and one receive each. */
  function Tenures(timeout: nat, i: nat): nat {
    if i == 0 then 0 else 4 * timeout + Tenures(timeout, i - 1)
  }

  lemma {:induction false} TenuresMonotone(timeout: nat, i: nat, j: nat)
    requires i <= j
    ensures Tenures(timeout, i) <= Tenures(timeout, j)
  {
    if i < j { TenuresMonotone(timeout, i, j - 1); }
  }

  lemma {:induction false} TenuresProduct(timeout: nat, i: nat)
    ensures Tenures(timeout, i) == i * (4 * timeout)
  {
    if i > 0 { TenuresProduct(timeout, i - 1); }
  }

  /** 64 callers, each holding the lock for at most four stages. */
  function Bound(p: Setup): nat {
    64 * 4 * p.timeout
  }

  /** The queue is never longer than the bound allows. */
  lemma TenuresBounded(p: Setup, i: nat)
    requires i <= MAX_IN_FLIGHT_OPERATIONS
    ensures Tenures(p.timeout, i) <= Bound(p)
  {
    TenuresMonotone(p.timeout, i, MAX_IN_FLIGHT_OPERATIONS);
    TenuresProduct(p.timeout, MAX_IN_FLIGHT_OPERATIONS);
  }

  /** The latest time at which the lock owner gives the lock up. */
  function Due(p: Setup, s: State): nat {
    if s.queue == [] || s.queue[0] >= |s.calls| then s.clock
    else
      var call := s.calls[s.queue[0]];
      match call.phase
      case Queued => s.clock + 4 * p.timeout
      case Connecting => call.stageAt + 4 * p.timeout
      case Handshaking(_) => call.stageAt + 3 * p.timeout
      case Sending(_, _) => call.stageAt + 2 * p.timeout
      case Receiving(_) => call.stageAt + p.timeout
      case _ => s.clock
  }

  /** No stage outlives its timeout. */
  ghost predicate StageInv(p: Setup, s: State) {
    forall x :: 0 <= x < |s.calls| ==>
      s.calls[x].stageAt <= s.clock && (Timed(s.calls[x].phase) ==> s.clock <= s.calls[x].stageAt + p.timeout)
  }

  /** The caller at place `i` of the queue gets through before its own bound. */
  ghost predicate InTime(p: Setup, s: State, i: nat)
    requires i < |s.queue| && s.queue[i] < |s.calls|
  {
    && s.calls[s.queue[i]].queuedAt.Some?
    && Due(p, s) + Tenures(p.timeout, i) <= s.calls[s.queue[i]].queuedAt.value + Bound(p)
  }

  /** After the lock, a caller that once queued returns within its bound. */
  ghost predicate Left(p: Setup, s: State, call: Call) {
    call.queuedAt.Some? ==>
      match call.phase
      case Returning(_) => s.clock <= call.queuedAt.value + Bound(p)
      case Done(_) => call.stageAt <= call.queuedAt.value + Bound(p)
      case _ => InQueue(call.phase)
  }

  ghost predicate LatencyInv(p: Setup, s: State) {
    && StageInv(p, s)
    && (forall i :: 0 <= i < |s.queue| && s.queue[i] < |s.calls| ==> InTime(p, s, i))
    && (forall x :: 0 <= x < |s.calls| ==> Left(p, s, s.calls[x]))
  }

  /** What the latency argument needs of the rest of the machine. */
  ghost predicate Base(p: Setup, s: State) {
    LockInv(s) && FitInv(p, s) && PermitInv(s)
  }

  lemma DueLater(p: Setup, s: State)
    requires LockInv(s) && StageInv(p, s)
    ensures s.clock <= Due(p, s) <= s.clock + 4 * p.timeout
  {
  }

  /** Callers in the queue hold permits, so at most 64 of them stand there. */
  lemma QueueBounded(p: Setup, s: State)
    requires Base(p, s)
    ensures |s.queue| <= MAX_IN_FLIGHT_OPERATIONS
  {
    forall x | x in s.queue ensures x < |s.calls| && HoldsPermit(s.calls[x]) {
      assert Fits(p, s.calls[x]);
    }
    HoldersBounded(s.calls, s.queue);
  }

  /** Caller `x` moves on in the same queue and the owner's deadline does not move back. */
  lemma LatencyKept(p: Setup, s: State, s': State, x: nat)
    requires LockInv(s) && LatencyInv(p, s) && Only(s, s', x) && s'.queue == s.queue && s'.clock == s.clock
    requires s'.calls[x].queuedAt == s.calls[x].queuedAt
    requires || s'.calls[x].stageAt == s.clock
             || (s'.calls[x].stageAt == s.calls[x].stageAt && s.calls[x].phase.Sending? && s'.calls[x].phase.Sending?)
    requires Due(p, s') <= Due(p, s)
    requires Left(p, s', s'.calls[x])
    ensures LatencyInv(p, s')
  {
    forall i | 0 <= i < |s'.queue| ensures InTime(p, s', i) {
      assert InTime(p, s, i);
    }
  }

  lemma LatencyArrive(p: Setup, s: State, request: Request)
    requires LockInv(s) && LatencyInv(p, s)
    ensures LatencyInv(p, DoArrive(p, s, request))
  {
    var s' := DoArrive(p, s, request);
    assert forall y :: 0 <= y < |s.calls| ==> s'.calls[y] == s.calls[y];
    forall i | 0 <= i < |s'.queue| ensures InTime(p, s', i) {
      assert InTime(p, s, i);
    }
  }

  lemma LatencyServe(p: Setup, s: State, x: nat, serve: Serve)
    requires LockInv(s) && LatencyInv(p, s) && x < |s.calls| && CanServe(p, s.calls[x], serve)
    ensures LatencyInv(p, DoServe(s, x, serve))
  {
    assert Left(p, s, s.calls[x]);
    LatencyKept(p, s, DoServe(s, x, serve), x);
  }

  lemma LatencyEnqueue(p: Setup, s: State, x: nat)
    requires Base(p, s) && LatencyInv(p, s) && x < |s.calls| && CanHold(s, x, Enqueue) && Encodable(p, s.calls[x])
    ensures LatencyInv(p, DoHold(s, x, Enqueue))
  {
    var s' := DoHold(s, x, Enqueue);
    LockHold(s, x, Enqueue);
    PermitHold(s, x, Enqueue);
    FitHold(p, s, x, Enqueue);
    QueueBounded(p, s');
    DueLater(p, s);
    LatencyJoin(p, s, s', x);
  }

  lemma LatencyJoin(p: Setup, s: State, s': State, x: nat)
    requires LockInv(s) && LatencyInv(p, s) && Only(s, s', x) && s'.queue == s.queue + [x] && s'.clock == s.clock
    requires !InQueue(s.calls[x].phase)
    requires s'.calls[x].phase.Queued? && s'.calls[x].queuedAt == Some(s.clock) && s'.calls[x].stageAt == s.clock
    requires Due(p, s) <= s.clock + 4 * p.timeout && |s'.queue| <= MAX_IN_FLIGHT_OPERATIONS
    ensures LatencyInv(p, s')
  {
    assert s.queue != [] ==> Due(p, s') == Due(p, s);
    forall i | 0 <= i < |s'.queue| ensures InTime(p, s', i) {
      if i < |s.queue| {
        assert InTime(p, s, i);
      } else {
        TenuresBounded(p, i + 1);
      }
    }
  }

  /** Whoever is next stands one place closer, and the tenure that just ended was paid for. */
  lemma LatencyUnlock(p: Setup, s: State, x: nat)
    requires LockInv(s) && LatencyInv(p, s) && x < |s.calls| && CanHold(s, x, Unlock)
    ensures LatencyInv(p, DoHold(s, x, Unlock))
  {
    var s' := DoHold(s, x, Unlock);
    assert s.queue[0] == x;
    WaitedInTime(p, s, 0);
    forall i | 0 <= i < |s'.queue| && s'.queue[i] < |s'.calls| ensures InTime(p, s', i) {
      InTimeAfterUnlock(p, s, s', x, i);
    }
  }

  lemma InTimeAfterUnlock(p: Setup, s: State, s': State, x: nat, i: nat)
    requires LockInv(s) && LatencyInv(p, s) && Only(s, s', x) && s'.clock == s.clock
    requires s.queue != [] && s.queue[0] == x && s.calls[x].phase.Unlocking? && s'.queue == s.queue[1..]
    requires i < |s'.queue|
    ensures s'.queue[i] < |s'.calls| && InTime(p, s', i)
  {
    assert InTime(p, s, i + 1) && s'.queue[i] == s.queue[i + 1] != x;
    assert s'.queue[0] == s.queue[1] && s.calls[s.queue[1]].phase.Queued?;
  }

  lemma LatencyHold(p: Setup, s: State, x: nat, hold: Hold)
    requires Base(p, s) && LatencyInv(p, s) && x < |s.calls| && CanHold(s, x, hold)
    requires hold == Enqueue ==> Encodable(p, s.calls[x])
    ensures LatencyInv(p, DoHold(s, x, hold))
  {
    match hold
    case Enqueue => LatencyEnqueue(p, s, x);
    case Unlock => LatencyUnlock(p, s, x);
    case _ =>
      assert Left(p, s, s.calls[x]) && s.queue[0] == x;
      LatencyKept(p, s, DoHold(s, x, hold), x);
  }

  lemma LatencyTalk(p: Setup, s: State, x: nat, talk: Talk)
    requires LockInv(s) && LatencyInv(p, s) && x < |s.calls| && CanTalk(s, x, talk)
    ensures LatencyInv(p, DoTalk(s, x, talk))
  {
    assert Left(p, s, s.calls[x]) && s.queue[0] == x;
    LatencyKept(p, s, DoTalk(s, x, talk), x);
  }

  lemma LatencySubmit(p: Setup, s: State, x: nat, submit: Submit)
    requires LockInv(s) && LatencyInv(p, s) && x < |s.calls| && CanSubmit(s, x, submit)
    ensures LatencyInv(p, DoSubmit(s, x, submit))
  {
    assert Left(p, s, s.calls[x]);
    LatencyKept(p, s, DoSubmit(s, x, submit), x);
  }

  /** A waiter drops out: those behind it move one place up. */
  lemma LatencyWithdraw(p: Setup, s: State, x: nat, end: End)
    requires LockInv(s) && LatencyInv(p, s) && x < |s.calls| && s.calls[x].phase.Queued?
    ensures LatencyInv(p, Abandon(s, x, end))
  {
    LatencyDrop(p, s, Abandon(s, x, end), x);
  }

  lemma LatencyDrop(p: Setup, s: State, s': State, x: nat)
    requires LockInv(s) && LatencyInv(p, s) && Only(s, s', x) && s'.clock == s.clock && s'.queue == Without(s.queue, x)
    requires s.calls[x].phase.Queued? && s'.calls[x].phase.Returning?
    requires s'.calls[x].queuedAt == s.calls[x].queuedAt && s'.calls[x].stageAt == s.clock
    ensures LatencyInv(p, s')
  {
    var at :| 0 <= at < |s.queue| && s.queue[at] == x;
    WithoutAt(s.queue, at);
    forall i | 0 <= i < |s'.queue| ensures s'.queue[i] < |s'.calls| && InTime(p, s', i) {
      InTimeAfterDrop(p, s, s', at, i);
    }
    WaitedInTime(p, s, at);
    LeftAfterDrop(p, s, s', x);
  }

  lemma LeftAfterDrop(p: Setup, s: State, s': State, x: nat)
    requires LatencyInv(p, s) && Only(s, s', x) && s'.clock == s.clock
    requires s'.calls[x].phase.Returning?
    requires s'.calls[x].queuedAt == s.calls[x].queuedAt && s'.calls[x].stageAt == s.clock
    requires s.calls[x].queuedAt.Some? && s.clock <= s.calls[x].queuedAt.value + Bound(p)
    ensures StageInv(p, s') && forall y :: 0 <= y < |s'.calls| ==> Left(p, s', s'.calls[y])
  {
    forall y | 0 <= y < |s'.calls| ensures Left(p, s', s'.calls[y]) {
      assert Left(p, s, s.calls[y]);
    }
  }

  /** Whoever stands in the queue is still within its bound. */
  lemma WaitedInTime(p: Setup, s: State, at: nat)
    requires LockInv(s) && LatencyInv(p, s) && at < |s.queue|
    ensures s.calls[s.queue[at]].queuedAt.Some? && s.clock <= s.calls[s.queue[at]].queuedAt.value + Bound(p)
  {
    DueLater(p, s);
    assert InTime(p, s, at);
  }

  lemma InTimeAfterDrop(p: Setup, s: State, s': State, at: nat, i: nat)
    requires LockInv(s) && LatencyInv(p, s) && at < |s.queue| && Only(s, s', s.queue[at]) && s'.clock == s.clock
    requires s.calls[s.queue[at]].phase.Queued? && |s'.queue| == |s.queue| - 1
    requires forall k :: 0 <= k < |s'.queue| ==> s'.queue[k] == s.queue[if k < at then k else k + 1]
    requires i < |s'.queue|
    ensures s'.queue[i] < |s'.calls| && InTime(p, s', i)
  {
    var k := if i < at then i else i + 1;
    DueDrop(p, s, s', at);
    TenuresMonotone(p.timeout, i, k);
    assert InTime(p, s, k) && s'.queue[i] == s.queue[k] != s.queue[at];
  }

  /** The next waiter starts no later than the one that dropped out would have been done. */
  lemma DueDrop(p: Setup, s: State, s': State, at: nat)
    requires LockInv(s) && StageInv(p, s) && at < |s.queue| && Only(s, s', s.queue[at]) && s'.clock == s.clock
    requires s.calls[s.queue[at]].phase.Queued? && |s'.queue| == |s.queue| - 1
    requires s'.queue != [] ==> s'.queue[0] == if at == 0 then s.queue[1] else s.queue[0]
    ensures Due(p, s') <= Due(p, s)
  {
    if at == 0 && s'.queue != [] { assert s.calls[s.queue[1]].phase.Queued?; }
  }

  lemma {:induction false} WithoutAt(q: seq<nat>, at: nat)
    requires Distinct(q) && at < |q|
    ensures |Without(q, q[at])| == |q| - 1
    ensures forall i :: 0 <= i < |q| - 1 ==> Without(q, q[at])[i] == q[if i < at then i else i + 1]
  {
    if at > 0 {
      assert q[0] != q[at] && q[1..][at - 1] == q[at];
      WithoutAt(q[1..], at - 1);
    }
  }

  lemma LatencyAbandon(p: Setup, s: State, x: nat, end: End)
    requires LockInv(s) && LatencyInv(p, s) && x < |s.calls|
    requires Cancellable(s.calls[x].phase) || Timed(s.calls[x].phase)
    ensures LatencyInv(p, Abandon(s, x, end))
  {
    if s.calls[x].phase.Queued? {
      LatencyWithdraw(p, s, x, end);
    } else {
      assert Left(p, s, s.calls[x]);
      LatencyKept(p, s, Abandon(s, x, end), x);
    }
  }

  /** Time never passes a deadline: the owner is in a timed stage that has not reached its timeout. */
  lemma LatencyTick(p: Setup, s: State)
    requires LockInv(s) && LatencyInv(p, s) && CanTick(p, s)
    ensures LatencyInv(p, s.(clock := s.clock + 1))
  {
    var s' := s.(clock := s.clock + 1);
    forall i | 0 <= i < |s'.queue| ensures InTime(p, s', i) {
      assert InTime(p, s, i);
      var head := s.queue[0];
      assert !Urgent(s, head) && InQueue(s.calls[head].phase);
      assert Due(p, s') == Due(p, s);
    }
    forall x | 0 <= x < |s'.calls| ensures Left(p, s', s'.calls[x]) {
      assert Left(p, s, s.calls[x]) && !Urgent(s, x);
    }
  }

  lemma LatencyStep(p: Setup, s: State, step: Step)
    requires Base(p, s) && LatencyInv(p, s) && Enabled(p, s, step)
    ensures LatencyInv(p, Apply(p, s, step))
  {
    match step
    case Arrive(request) => LatencyArrive(p, s, request);
    case Serve(x, serve) => LatencyServe(p, s, x, serve);
    case Hold(x, hold) => LatencyHold(p, s, x, hold);
    case Talk(x, talk) => LatencyTalk(p, s, x, talk);
    case Submit(x, submit) => LatencySubmit(p, s, x, submit);
    case Fail(x, error) => LatencyAbandon(p, s, x, Settled(Failed(error)));
    case Cancel(x) => LatencyAbandon(p, s, x, Settled(Cancelled));
    case Emit(c, e) => LatencySame(p, s, DoEmit(s, c, e));
    case Store(x) => LatencySame(p, s, DoStore(p, s, x));
    case Tick => LatencyTick(p, s);
  }

  lemma LatencySame(p: Setup, s: State, s': State)
    requires LatencyInv(p, s) && s'.calls == s.calls && s'.queue == s.queue && s'.clock == s.clock
    ensures LatencyInv(p, s')
  {
    forall i | 0 <= i < |s'.queue| && s'.queue[i] < |s'.calls| ensures InTime(p, s', i) { assert InTime(p, s, i); }
  }

  // ---------------------------------------------------------------- no timeout comes early

  predicate TimedOut(phase: Phase) {
    match phase
    case Done(end) => end == Settled(Failed(Timeout))
    case _ => Ending(phase) == Some(Settled(Failed(Timeout)))
  }

  /** The call was refused, or is about to be, as an invalid request before it owned the lock. */
  predicate RefusedInvalid(call: Call) {
    && call.lockedAt.None?
    && match call.phase
       case Done(end) => end == Settled(Failed(InvalidRequest))
       case _ => Ending(call.phase) == Some(Settled(Failed(InvalidRequest)))
  }

  /** A TCP read that timed out had taken the lock, a whole stage timeout before; and an operation refused before
      that is one that fails its checks. */
  predicate Patient(p: Setup, call: Call) {
    && (call.lockedAt.Some? ==> call.lockedAt.value <= call.stageAt)
    && (OwnsLock(call.phase) ==> call.lockedAt.Some?)
    && (Uses(call, StatefulMtlsTcp) && TimedOut(call.phase) ==>
          call.lockedAt.Some? && call.lockedAt.value + p.timeout <= call.stageAt)
    && (RefusedInvalid(call) && call.operation.Some? ==> !Encodable(p, call))
  }

  ghost predicate PatienceInv(p: Setup, s: State) {
    forall x :: 0 <= x < |s.calls| ==> Patient(p, s.calls[x])
  }

  lemma PatienceServe(p: Setup, s: State, x: nat, serve: Serve)
    requires StageInv(p, s) && FitInv(p, s) && PatienceInv(p, s) && x < |s.calls| && CanServe(p, s.calls[x], serve)
    requires s.calls[x].phase.Admitted? ==> s.calls[x].operation.None?
    ensures PatienceInv(p, DoServe(s, x, serve))
  {
    assert Patient(p, s.calls[x]) && Fits(p, s.calls[x]);
  }

  lemma PatienceHold(p: Setup, s: State, x: nat, hold: Hold)
    requires StageInv(p, s) && PatienceInv(p, s) && x < |s.calls| && CanHold(s, x, hold)
    ensures PatienceInv(p, DoHold(s, x, hold))
  {
    assert Patient(p, s.calls[x]);
  }

  lemma PatienceTalk(p: Setup, s: State, x: nat, talk: Talk)
    requires StageInv(p, s) && PatienceInv(p, s) && x < |s.calls| && CanTalk(s, x, talk)
    ensures PatienceInv(p, DoTalk(s, x, talk))
  {
    assert Patient(p, s.calls[x]);
  }

  lemma PatienceSubmit(p: Setup, s: State, x: nat, submit: Submit)
    requires StageInv(p, s) && PatienceInv(p, s) && x < |s.calls| && CanSubmit(s, x, submit)
    ensures PatienceInv(p, DoSubmit(s, x, submit))
  {
    assert Patient(p, s.calls[x]);
  }

  /** Only a stage of the lock owner, or of a submission, can time out, and only when its time is up. */
  lemma PatienceFail(p: Setup, s: State, x: nat, error: GatewayError)
    requires StageInv(p, s) && FitInv(p, s) && PatienceInv(p, s) && x < |s.calls| && CanFail(p, s, s.calls[x], error)
    ensures PatienceInv(p, Abandon(s, x, Settled(Failed(error))))
  {
    assert Patient(p, s.calls[x]) && Fits(p, s.calls[x]);
  }

  lemma PatienceCancel(p: Setup, s: State, x: nat)
    requires StageInv(p, s) && PatienceInv(p, s) && x < |s.calls| && Cancellable(s.calls[x].phase)
    ensures PatienceInv(p, Abandon(s, x, Settled(Cancelled)))
  {
    assert Patient(p, s.calls[x]);
  }

  lemma PatienceStep(p: Setup, s: State, step: Step)
    requires StageInv(p, s) && FitInv(p, s) && PatienceInv(p, s) && Enabled(p, s, step)
    requires forall x :: 0 <= x < |s.calls| && s.calls[x].phase.Admitted? ==> s.calls[x].operation.None?
    ensures PatienceInv(p, Apply(p, s, step))
  {
    match step
    case Arrive(_) =>
    case Serve(x, serve) => PatienceServe(p, s, x, serve);
    case Hold(x, hold) => PatienceHold(p, s, x, hold);
    case Talk(x, talk) => PatienceTalk(p, s, x, talk);
    case Submit(x, submit) => PatienceSubmit(p, s, x, submit);
    case Fail(x, error) => PatienceFail(p, s, x, error);
    case Cancel(x) => PatienceCancel(p, s, x);
    case Emit(_, _) =>
    case Store(_) =>
    case Tick =>
  }
}
