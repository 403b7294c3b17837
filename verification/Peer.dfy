/** The two directions of one framed connection, and which exchange each frame answers. */
module Peer {
  import opened Prelude
  import opened Gateway

  /** A request written to a connection, with the call that wrote it. */
  datatype Dispatch = Dispatch(caller: nat, operation: AuthenticatedOperation)

  function Identifier(d: Dispatch): string {
    d.operation.envelope.operationId
  }

  datatype Reply = Reply(operationId: Option<string>, error: Option<string>, result: Option<string>)

  /** A length-delimited frame, split by whether it decodes as a reply. */
  datatype Frame = Decodable(reply: Reply) | Undecodable

  /** One frame of the peer; `surplus` marks a frame that no request asked for. */
  datatype Emission = Emission(frame: Frame, surplus: bool)

  function Answers(log: seq<Emission>): (n: nat)
    ensures n <= |log|
  {
    if log == [] then 0
    else Answers(log[..|log| - 1]) + if log[|log| - 1].surplus then 0 else 1
  }

  /** The number of surplus frames: by how many frames the connection runs behind. */
  function Lag(log: seq<Emission>): nat {
    |log| - Answers(log)
  }

  ghost predicate Clean(log: seq<Emission>) {
    forall e :: e in log ==> !e.surplus
  }

  /** Does the frame name this request? */
  predicate Names(e: Emission, d: Dispatch) {
    e.frame.Decodable? && e.frame.reply.operationId == Some(Identifier(d))
  }

  /** A peer that answers every request once and in order may send `e` next: an answer to the first request not
      answered yet, or a surplus reply, stale or foreign, with any name or none. */
  ghost predicate Lawful(sent: seq<Dispatch>, before: seq<Emission>, e: Emission) {
    && e.frame.Decodable?
    && (!e.surplus ==> Answers(before) < |sent| && Names(e, sent[Answers(before)]))
  }

  ghost predicate InOrder(sent: seq<Dispatch>, log: seq<Emission>) {
    forall k :: 0 <= k < |log| ==> Lawful(sent, log[..k], log[k])
  }

  /** A surplus frame that happens to name the very request at its own place. */
  predicate Imposter(sent: seq<Dispatch>, log: seq<Emission>, k: nat) {
    k < |log| && k < |sent| && log[k].surplus && Names(log[k], sent[k])
  }

  /** So far the peer has answered every request once and in order, but slipped in surplus replies; none of them
      passes for the answer of the exchange it spoils. */
  ghost predicate Lagging(sent: seq<Dispatch>, log: seq<Emission>) {
    InOrder(sent, log) && forall k :: 0 <= k < |log| ==> !Imposter(sent, log, k)
  }

  /** So far the peer has answered every request once and in order, and sent nothing else. */
  ghost predicate Conforming(sent: seq<Dispatch>, log: seq<Emission>) {
    InOrder(sent, log) && Clean(log)
  }

  ghost predicate DistinctIdentifiers(sent: seq<Dispatch>) {
    forall i, j :: 0 <= i < j < |sent| ==> Identifier(sent[i]) != Identifier(sent[j])
  }

  lemma ConformingLags(sent: seq<Dispatch>, log: seq<Emission>)
    requires Conforming(sent, log)
    ensures Lagging(sent, log)
  {
  }

  /** Lag, frame by frame: the peer of a lagging connection stays one by sending a lawful frame that is no
      imposter, and in no other way. */
  lemma LaggingEmit(sent: seq<Dispatch>, log: seq<Emission>, e: Emission)
    requires Lagging(sent, log)
    ensures Lagging(sent, log + [e]) <==> Lawful(sent, log, e) && !Imposter(sent, log + [e], |log|)
  {
    var log' := log + [e];
    assert log'[..|log|] == log && log'[|log|] == e;
    assert forall k :: 0 <= k < |log| ==> log'[..k] == log[..k] && log'[k] == log[k];
    assert forall k :: 0 <= k < |log| ==> (Imposter(sent, log', k) <==> Imposter(sent, log, k));
    if Lawful(sent, log, e) && !Imposter(sent, log', |log|) {
      forall k | 0 <= k < |log'| ensures Lawful(sent, log'[..k], log'[k]) && !Imposter(sent, log', k) {
        if k < |log| { assert Lawful(sent, log[..k], log[k]); }
      }
    } else if Lagging(sent, log') {
      assert Lawful(sent, log'[..|log|], log'[|log|]);
    }
  }

  /** And request by request: it stays one unless a frame that ran ahead already bears the new request's name. */
  lemma LaggingTransmit(sent: seq<Dispatch>, log: seq<Emission>, d: Dispatch)
    requires Lagging(sent, log)
    ensures Lagging(sent + [d], log) <==> !Imposter(sent + [d], log, |sent|)
  {
    var sent' := sent + [d];
    forall k | 0 <= k < |log| ensures Lawful(sent', log[..k], log[k]) {
      assert Lawful(sent, log[..k], log[k]);
    }
    forall k | 0 <= k < |log| && k != |sent| ensures !Imposter(sent', log, k) {
      assert !Imposter(sent, log, k);
    }
  }

  lemma {:induction false} CleanAnswers(log: seq<Emission>)
    ensures Clean(log) <==> Answers(log) == |log|
  {
    if log != [] {
      var init := log[..|log| - 1];
      CleanAnswers(init);
      assert log == init + [log[|log| - 1]];
      assert log[|log| - 1] in log;
    }
  }

  /** Frames that follow neither take an answer back nor make up for a surplus one. */
  lemma {:induction false} AnswersMonotone(log: seq<Emission>, k: nat)
    requires k <= |log|
    ensures Answers(log[..k]) <= Answers(log)
    ensures Lag(log[..k]) <= Lag(log)
  {
    if k < |log| {
      AnswersMonotone(log[..|log| - 1], k);
      assert log[..|log| - 1][..k] == log[..k];
    } else {
      assert log[..k] == log;
    }
  }

  /** A peer that answers in order answers no more requests than it received. */
  lemma {:induction false} AnswersBounded(sent: seq<Dispatch>, log: seq<Emission>)
    requires InOrder(sent, log)
    ensures Answers(log) <= |sent|
  {
    if log != [] {
      var last := |log| - 1;
      forall k | 0 <= k < last ensures Lawful(sent, log[..last][..k], log[..last][k]) {
        assert log[..last][..k] == log[..k];
      }
      AnswersBounded(sent, log[..last]);
      assert Lawful(sent, log[..last], log[last]);
    }
  }

  /** Where every request is answered or the peer lags behind, the surplus frame stands before the frame that
      the next request will read, or is that frame. */
  lemma LagReaches(sent: seq<Dispatch>, log: seq<Emission>, later: seq<Emission>, j: nat)
    requires InOrder(sent, log) && Lag(log) > 0 && log <= later && |sent| <= j < |later|
    ensures !Clean(later[..j + 1])
  {
    if |log| <= j + 1 {
      assert log == later[..j + 1][..|log|];
      LagShows(log, later[..j + 1]);
    } else {
      assert log == later[..|log|];
      assert later[..j + 1] == log[..j + 1];
      AnswersBounded(sent, log);
      AnswersMonotone(log, j + 1);
      CleanAnswers(log[..j + 1]);
    }
  }

  lemma LagShows(log: seq<Emission>, more: seq<Emission>)
    requires Lag(log) > 0 && |log| <= |more| && log == more[..|log|]
    ensures !Clean(more)
  {
    CleanAnswers(log);
    var e :| e in log && e.surplus;
    assert e in more;
  }

  /** The reply-lag law.  On a lagging connection, the `j`-th frame names the `j`-th request exactly when no
      surplus frame came up to it: one surplus frame spoils its own exchange and every later one. */
  lemma Correlates(sent: seq<Dispatch>, log: seq<Emission>, j: nat)
    requires DistinctIdentifiers(sent) && Lagging(sent, log) && j < |log| && j < |sent|
    ensures log[j].frame.Decodable?
    ensures Names(log[j], sent[j]) <==> Clean(log[..j + 1])
  {
    var before := log[..j];
    assert Lawful(sent, before, log[j]) && !Imposter(sent, log, j);
    CleanAnswers(before);
    CleanAnswers(log[..j + 1]);
    assert log[..j + 1][..j] == before;
    var i := Answers(before);
    if i < j { assert Identifier(sent[i]) != Identifier(sent[j]); }
  }

  /** The law holds of a peer that answers in order for no other surplus frames than these. */
  lemma LagLawExact(sent: seq<Dispatch>, log: seq<Emission>)
    requires DistinctIdentifiers(sent) && InOrder(sent, log)
    ensures (forall j :: 0 <= j < |log| && j < |sent| ==> (Names(log[j], sent[j]) <==> Clean(log[..j + 1])))
       <==> Lagging(sent, log)
  {
    if Lagging(sent, log) {
      forall j | 0 <= j < |log| && j < |sent| ensures Names(log[j], sent[j]) <==> Clean(log[..j + 1]) {
        Correlates(sent, log, j);
      }
    } else {
      var k :| 0 <= k < |log| && Imposter(sent, log, k);
      assert log[..k + 1][k] in log[..k + 1];
      assert !Clean(log[..k + 1]);
    }
  }
}
