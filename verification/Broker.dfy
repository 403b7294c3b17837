/** JetStream submissions against a stream that deduplicates by message id. */
module Broker {
  import opened Gateway
  import opened Machine
  import opened Connections
  import opened Permits

  /** Has the call handed its message over? */
  predicate Submitted(phase: Phase) {
    phase.Publishing? || phase.AwaitingAck? || phase.Returning? || phase.Done?
  }

  predicate IsAccepted(end: End) {
    end.Settled? && end.outcome.Replied? && end.outcome.reply.Accepted?
  }

  /** Is the call answered, or about to be, with an acceptance? */
  predicate Accepts(phase: Phase) {
    match phase
    case Returning(end) => IsAccepted(end)
    case Done(end) => IsAccepted(end)
    case Parking(_, end) => IsAccepted(end)
    case Closing(_, end) => IsAccepted(end)
    case Unlocking(end) => IsAccepted(end)
    case _ => false
  }

  function EndOf(phase: Phase): End
    requires Accepts(phase)
  {
    phase.end
  }

  ghost predicate AttemptOk(p: Setup, s: State, x: nat) {
    && x < |s.calls| && Uses(s.calls[x], JetStreamAsync) && s.calls[x].operation.Some? && p.key.Some?
    && Submitted(s.calls[x].phase)
  }

  ghost predicate AcceptOk(s: State, x: nat)
    requires x < |s.calls| && Accepts(s.calls[x].phase)
  {
    && x in s.attempts && s.calls[x].operation.Some?
    && EndOf(s.calls[x].phase).outcome.reply == Accepted(s.calls[x].operation.value.id)
    && Holds(s.stored, DedupeId(s.calls[x].operation.value.id))
  }

  ghost predicate BrokerInv(p: Setup, s: State) {
    && (forall x :: x in s.attempts ==> AttemptOk(p, s, x))
    && (forall x :: 0 <= x < |s.calls| && (s.calls[x].phase.Publishing? || s.calls[x].phase.AwaitingAck?) ==>
          x in s.attempts)
    && (forall i :: 0 <= i < |s.stored| ==>
          var m := s.stored[i];
          m.caller in s.attempts && AttemptOk(p, s, m.caller) && m == MessageOf(p, s.calls[m.caller], m.caller))
    && (forall i, j :: 0 <= i < j < |s.stored| ==> s.stored[i].dedupeId != s.stored[j].dedupeId)
    && (forall x :: 0 <= x < |s.calls| && Accepts(s.calls[x].phase) ==> AcceptOk(s, x))
  }

  /** Caller `x` moves on; what it submitted, and whether it is accepted, stays. */
  lemma BrokerKept(p: Setup, s: State, s': State, x: nat)
    requires BrokerInv(p, s) && Only(s, s', x) && s'.attempts == s.attempts && s'.stored == s.stored
    requires s'.calls[x].request == s.calls[x].request
    requires x in s.attempts ==> s'.calls[x].operation == s.calls[x].operation
    requires Submitted(s.calls[x].phase) ==> Submitted(s'.calls[x].phase)
    requires s'.calls[x].phase.Publishing? || s'.calls[x].phase.AwaitingAck? ==> x in s.attempts
    requires Accepts(s'.calls[x].phase) ==> AcceptOk(s', x)
    ensures BrokerInv(p, s')
  {
    forall y | y in s'.attempts ensures AttemptOk(p, s', y) { assert AttemptOk(p, s, y); }
  }

  lemma BrokerServe(p: Setup, s: State, x: nat, serve: Serve)
    requires BrokerInv(p, s) && x < |s.calls| && CanServe(p, s.calls[x], serve)
    ensures BrokerInv(p, DoServe(s, x, serve))
  {
    var s' := DoServe(s, x, serve);
    assert x in s.attempts ==> AttemptOk(p, s, x);
    if serve == Return && Accepts(s.calls[x].phase) { assert AcceptOk(s, x); }
    BrokerKept(p, s, s', x);
  }

  lemma BrokerHold(p: Setup, s: State, x: nat, hold: Hold)
    requires BrokerInv(p, s) && x < |s.calls| && CanHold(s, x, hold)
    ensures BrokerInv(p, DoHold(s, x, hold))
  {
    var s' := DoHold(s, x, hold);
    assert x in s.attempts ==> AttemptOk(p, s, x);
    if Accepts(s'.calls[x].phase) { assert AcceptOk(s, x); }
    BrokerKept(p, s, s', x);
  }

  lemma BrokerTalk(p: Setup, s: State, x: nat, talk: Talk)
    requires BrokerInv(p, s) && x < |s.calls| && CanTalk(s, x, talk)
    ensures BrokerInv(p, DoTalk(s, x, talk))
  {
    assert x in s.attempts ==> AttemptOk(p, s, x);
    BrokerKept(p, s, DoTalk(s, x, talk), x);
  }

  lemma BrokerSubmit(p: Setup, s: State, x: nat, submit: Submit)
    requires BrokerInv(p, s) && FitInv(p, s) && x < |s.calls| && CanSubmit(s, x, submit)
    ensures BrokerInv(p, DoSubmit(s, x, submit))
  {
    if submit == Publish {
      BrokerPublish(p, s, x);
    } else {
      BrokerKept(p, s, DoSubmit(s, x, submit), x);
    }
  }

  lemma BrokerPublish(p: Setup, s: State, x: nat)
    requires BrokerInv(p, s) && FitInv(p, s) && x < |s.calls| && CanSubmit(s, x, Publish)
    ensures BrokerInv(p, DoSubmit(s, x, Publish))
  {
    var s' := DoSubmit(s, x, Publish);
    assert Only(s, s', x) && Fits(p, s.calls[x]);
    forall y | y in s'.attempts ensures AttemptOk(p, s', y) {
      if y != x { assert AttemptOk(p, s, y); }
    }
    forall y | 0 <= y < |s.calls| && Accepts(s'.calls[y].phase) ensures AcceptOk(s', y) {
      assert AcceptOk(s, y);
    }
  }

  lemma BrokerAbandon(p: Setup, s: State, x: nat, outcome: Outcome)
    requires BrokerInv(p, s) && x < |s.calls| && !outcome.Replied?
    requires Cancellable(s.calls[x].phase) || Timed(s.calls[x].phase)
    ensures BrokerInv(p, Abandon(s, x, Settled(outcome)))
  {
    assert x in s.attempts ==> AttemptOk(p, s, x);
    BrokerKept(p, s, Abandon(s, x, Settled(outcome)), x);
  }

  lemma BrokerStore(p: Setup, s: State, x: nat)
    requires BrokerInv(p, s) && x < |s.calls| && x in s.attempts
    ensures BrokerInv(p, DoStore(p, s, x))
  {
    var s' := DoStore(p, s, x);
    assert AttemptOk(p, s, x);
    assert s.stored <= s'.stored;
    forall y | 0 <= y < |s'.calls| && Accepts(s'.calls[y].phase) ensures AcceptOk(s', y) {
      assert AcceptOk(s, y);
      var d := DedupeId(s.calls[y].operation.value.id);
      var m :| m in s.stored && m.dedupeId == d;
      assert m in s'.stored;
    }
    forall y | y in s'.attempts ensures AttemptOk(p, s', y) { assert AttemptOk(p, s, y); }
  }

  lemma BrokerArrive(p: Setup, s: State, request: Request)
    requires BrokerInv(p, s)
    ensures BrokerInv(p, DoArrive(p, s, request))
  {
    BrokerJoined(p, s, DoArrive(p, s, request));
  }

  /** A call joins that has submitted nothing. */
  lemma BrokerJoined(p: Setup, s: State, s': State)
    requires BrokerInv(p, s) && s'.attempts == s.attempts && s'.stored == s.stored
    requires |s'.calls| == |s.calls| + 1 && forall y :: 0 <= y < |s.calls| ==> s'.calls[y] == s.calls[y]
    requires var phase := s'.calls[|s.calls|].phase; !phase.Publishing? && !phase.AwaitingAck? && !Accepts(phase)
    ensures BrokerInv(p, s')
  {
    forall y | y in s'.attempts ensures AttemptOk(p, s', y) { assert AttemptOk(p, s, y); }
    forall y | 0 <= y < |s'.calls| && Accepts(s'.calls[y].phase) ensures AcceptOk(s', y) { assert AcceptOk(s, y); }
  }

  lemma BrokerStep(p: Setup, s: State, step: Step)
    requires BrokerInv(p, s) && FitInv(p, s) && Enabled(p, s, step)
    ensures BrokerInv(p, Apply(p, s, step))
  {
    match step
    case Arrive(request) => BrokerArrive(p, s, request);
    case Serve(x, serve) => BrokerServe(p, s, x, serve);
    case Hold(x, hold) => BrokerHold(p, s, x, hold);
    case Talk(x, talk) => BrokerTalk(p, s, x, talk);
    case Submit(x, submit) => BrokerSubmit(p, s, x, submit);
    case Fail(x, error) => BrokerAbandon(p, s, x, Failed(error));
    case Cancel(x) => BrokerAbandon(p, s, x, Cancelled);
    case Emit(c, e) => BrokerSame(p, s, DoEmit(s, c, e));
    case Store(x) => BrokerStore(p, s, x);
    case Tick => BrokerSame(p, s, s.(clock := s.clock + 1));
  }

  lemma BrokerSame(p: Setup, s: State, s': State)
    requires BrokerInv(p, s) && s'.calls == s.calls && s'.attempts == s.attempts && s'.stored == s.stored
    ensures BrokerInv(p, s')
  {
    forall y | y in s'.attempts ensures AttemptOk(p, s', y) { assert AttemptOk(p, s, y); }
    assert forall y :: 0 <= y < |s'.calls| && Accepts(s'.calls[y].phase) ==> AcceptOk(s, y);
  }
}
