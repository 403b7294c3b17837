/** Reachable states whose peer answers in order: lagging connections, and conforming ones. */
module Lag {
  import opened Prelude
  import opened Gateway
  import opened Peer
  import opened Machine
  import opened Connections
  import opened Correlation
  import opened Safety
  import Runs

  /** How each call that ended on a reply frame stands to its connection. */
  lemma Answered(p: Setup, s: State, x: nat, end: End)
    requires Reachable(p, s) && s.mints <= U64 && x < |s.calls| && AnsweredBy(s.calls[x], end)
    ensures end.on < |s.conns| && s.calls[x].operation.Some?
    ensures var conn := s.conns[end.on];
            && DistinctIdentifiers(conn.sent) && end.index < |conn.sent| && end.index < |conn.log|
            && conn.sent[end.index].caller == x && Identifier(conn.sent[end.index]) == s.calls[x].operation.value.id
            && conn.log[end.index].frame == Decodable(end.reply)
  {
    Always(p, s);
    assert CallOk(s.conns, x, s.calls[x]);
    var conn := s.conns[end.on];
    assert ConnOk(s.calls, conn) && DispatchOk(s.calls, conn.sent[end.index]);
    SentDistinct(s, conn);
  }

  /** The reply-lag theorem.  On a lagging connection, a call that ended on frame `j` was given its own reply
      exactly when no surplus frame had come up to `j`; otherwise it failed as an invalid response. */
  lemma LagTheorem(p: Setup, s: State, x: nat, end: End)
    requires Reachable(p, s) && s.mints <= U64 && x < |s.calls| && AnsweredBy(s.calls[x], end)
    requires end.on < |s.conns| && Lagging(s.conns[end.on].sent, s.conns[end.on].log)
    ensures end.index < |s.conns[end.on].log| && s.calls[x].operation.Some?
    ensures end.reply.operationId == Some(s.calls[x].operation.value.id)
       <==> Clean(s.conns[end.on].log[..end.index + 1])
    ensures !Clean(s.conns[end.on].log[..end.index + 1]) ==> OutcomeOf(s.calls[x]) == Failed(InvalidResponse)
  {
    Answered(p, s, x, end);
    Correlates(s.conns[end.on].sent, s.conns[end.on].log, end.index);
  }

  lemma LaterStep(p: Setup, s: State, step: Step)
    requires Enabled(p, s, step)
    ensures Later(s.conns, Apply(p, s, step).conns)
  {
    match step
    case Hold(x, hold) => assert |DoHold(s, x, hold).conns| == |s.conns|;
    case Talk(x, talk) => LaterTalk(s, x, talk);
    case _ =>
  }

  lemma LaterTalk(s: State, x: nat, talk: Talk)
    requires x < |s.calls| && CanTalk(s, x, talk)
    ensures Later(s.conns, DoTalk(s, x, talk).conns)
  {
  }

  lemma {:induction false} LaterRun(p: Setup, s: State, steps: seq<Step>)
    requires IsRun(p, s, steps)
    ensures Later(s.conns, After(p, s, steps).conns)
    decreases |steps|
  {
    if steps != [] {
      var s1 := Apply(p, s, steps[0]);
      LaterStep(p, s, steps[0]);
      LaterRun(p, s1, steps[1..]);
      LaterTransitive(s.conns, s1.conns, After(p, s, steps).conns);
    }
  }

  lemma LaterTransitive(a: seq<Connection>, b: seq<Connection>, c: seq<Connection>)
    requires Later(a, b) && Later(b, c)
    ensures Later(a, c)
  {
    forall i | 0 <= i < |a|
      ensures a[i].sent <= c[i].sent && a[i].log <= c[i].log && a[i].received <= c[i].received
    {
      assert a[i].sent <= b[i].sent <= c[i].sent && a[i].log <= b[i].log <= c[i].log;
    }
  }

  /** A connection that was dropped is done with. */
  lemma DroppedStays(p: Setup, s: State, step: Step, c: nat)
    requires Reachable(p, s) && Enabled(p, s, step) && c < |s.conns| && !s.conns[c].open
    ensures c < |Apply(p, s, step).conns| && Apply(p, s, step).conns[c] == s.conns[c]
  {
    AlwaysLocked(p, s);
    match step
    case Hold(x, hold) => HeldIsOpen(s, x);
    case Talk(x, talk) => HeldIsOpen(s, x);
    case _ =>
  }

  lemma HeldIsOpen(s: State, x: nat)
    requires LockInv(s) && SlotInv(s) && x < |s.calls|
    ensures Owned(s.calls[x].phase).Some? ==>
              Owned(s.calls[x].phase).value < |s.conns| && s.conns[Owned(s.calls[x].phase).value].open
  {
    if Owned(s.calls[x].phase).Some? { assert Live(s) == Owned(s.calls[x].phase); }
  }

  lemma ReachableAfter(p: Setup, s: State, steps: seq<Step>)
    requires Reachable(p, s) && IsRun(p, s, steps)
    ensures Reachable(p, After(p, s, steps))
  {
    var before :| IsRun(p, Start(), before) && After(p, Start(), before) == s;
    Runs.RunAppend(p, Start(), before, steps);
  }

  /** Lag survives.  Park a connection that has fallen behind and let the gateway run on in any way: the lag
      never shrinks, and every read that sends its request from then on and is answered on this connection ends
      as an invalid response, never in a projection, until the connection is dropped. */
  lemma LagSurvives(p: Setup, s: State, c: nat, steps: seq<Step>, x: nat, end: End)
    requires Reachable(p, s) && s.slot == Some(c) && c < |s.conns|
    requires Lagging(s.conns[c].sent, s.conns[c].log) && Lag(s.conns[c].log) > 0
    requires IsRun(p, s, steps)
    requires var s' := After(p, s, steps);
             && s'.mints <= U64 && c < |s'.conns| && Lagging(s'.conns[c].sent, s'.conns[c].log)
             && x < |s'.calls| && AnsweredBy(s'.calls[x], end) && end.on == c
             && (x < |s.calls| ==> Unsent(s.calls[x].phase))
    ensures var s' := After(p, s, steps);
            && Lag(s.conns[c].log) <= Lag(s'.conns[c].log)
            && OutcomeOf(s'.calls[x]) == Failed(InvalidResponse)
  {
    var s' := After(p, s, steps);
    ReachableAfter(p, s, steps);
    LaterRun(p, s, steps);
    var was, now := s.conns[c], s'.conns[c];
    assert was.log == now.log[..|was.log|];
    AnswersMonotone(now.log, |was.log|);
    Answered(p, s', x, end);
    SentLater(p, s, c, now.sent, x, end.index);
    LagReaches(was.sent, was.log, now.log, end.index);
    LagTheorem(p, s', x, end);
  }

  /** A call that had not sent its request while `c` was parked stands behind all that had. */
  lemma SentLater(p: Setup, s: State, c: nat, sent: seq<Dispatch>, x: nat, j: nat)
    requires Reachable(p, s) && s.slot == Some(c) && c < |s.conns| && s.conns[c].sent <= sent
    requires x < |s.calls| ==> Unsent(s.calls[x].phase)
    requires j < |sent| && sent[j].caller == x
    ensures s.conns[c].received == |s.conns[c].sent| <= j
  {
    Always(p, s);
    if j < |s.conns[c].sent| {
      SenderSent(s, c, j);
    }
  }

  /** A parked connection owes and is owed exactly its lag: the frames unread plus the requests unanswered are
      the surplus frames the peer ever sent on it. */
  lemma ParkedLag(p: Setup, s: State, c: nat)
    requires Reachable(p, s) && s.slot == Some(c) && c < |s.conns| && InOrder(s.conns[c].sent, s.conns[c].log)
    ensures var conn := s.conns[c];
            && conn.received <= |conn.log| && Answers(conn.log) <= |conn.sent|
            && (|conn.log| - conn.received) + (|conn.sent| - Answers(conn.log)) == Lag(conn.log)
  {
    Always(p, s);
    assert ConnOk(s.calls, s.conns[c]);
    AnswersBounded(s.conns[c].sent, s.conns[c].log);
  }

  /** A parked connection whose peer conforms is quiescent, after any timeouts, errors and cancellations: no
      request is unanswered and no frame unread. */
  lemma ParkedQuiescent(p: Setup, s: State, c: nat)
    requires Reachable(p, s) && s.slot == Some(c) && c < |s.conns| && Conforming(s.conns[c].sent, s.conns[c].log)
    ensures var conn := s.conns[c]; conn.received == |conn.log| == |conn.sent| == Answers(conn.log)
  {
    ParkedLag(p, s, c);
    CleanAnswers(s.conns[c].log);
    Always(p, s);
  }

  /** On a connection whose peer conforms every decoded reply answers the request just sent: the mismatch branch
      of `tcp_read` never fires, and the reply's own error and result alone decide the outcome. */
  lemma MismatchNeverFires(p: Setup, s: State, x: nat, end: End)
    requires Reachable(p, s) && s.mints <= U64 && x < |s.calls| && AnsweredBy(s.calls[x], end)
    requires end.on < |s.conns| && Conforming(s.conns[end.on].sent, s.conns[end.on].log)
    ensures s.calls[x].operation.Some? && end.reply.operationId == Some(s.calls[x].operation.value.id)
    ensures OutcomeOf(s.calls[x]) == if end.reply.error.Some? then Failed(Upstream)
                                     else if end.reply.result.None? then Failed(InvalidResponse)
                                     else Replied(Projection(StatefulMtlsTcp, end.reply.result.value))
  {
    var conn := s.conns[end.on];
    ConformingLags(conn.sent, conn.log);
    LagTheorem(p, s, x, end);
    assert forall e :: e in conn.log[..end.index + 1] ==> e in conn.log;
  }
}
