/** Reachable states, extended step by step. */
module Runs {
  import opened Gateway
  import opened Peer
  import opened Machine

  lemma StartReachable(p: Setup)
    ensures Reachable(p, Start())
  {
    assert IsRun(p, Start(), []) && After(p, Start(), []) == Start();
  }

  lemma {:induction false} RunSnoc(p: Setup, s: State, steps: seq<Step>, step: Step)
    requires IsRun(p, s, steps) && Enabled(p, After(p, s, steps), step)
    ensures IsRun(p, s, steps + [step]) && After(p, s, steps + [step]) == Apply(p, After(p, s, steps), step)
    decreases |steps|
  {
    var more := steps + [step];
    if steps == [] {
      assert more[1..] == [];
    } else {
      assert more[0] == steps[0] && more[1..] == steps[1..] + [step];
      RunSnoc(p, Apply(p, s, steps[0]), steps[1..], step);
    }
  }

  lemma {:induction false} RunAppend(p: Setup, s: State, steps: seq<Step>, more: seq<Step>)
    requires IsRun(p, s, steps) && IsRun(p, After(p, s, steps), more)
    ensures IsRun(p, s, steps + more) && After(p, s, steps + more) == After(p, After(p, s, steps), more)
    decreases |steps|
  {
    if steps == [] {
      assert steps + more == more;
    } else {
      var all := steps + more;
      assert all[0] == steps[0] && all[1..] == steps[1..] + more;
      RunAppend(p, Apply(p, s, steps[0]), steps[1..], more);
    }
  }

  lemma Extend(p: Setup, s: State, step: Step)
    requires Reachable(p, s) && Enabled(p, s, step)
    ensures Reachable(p, Apply(p, s, step))
  {
    var steps :| IsRun(p, Start(), steps) && After(p, Start(), steps) == s;
    RunSnoc(p, Start(), steps, step);
  }

  lemma ExtendArrive(p: Setup, s: State, request: Request)
    requires Reachable(p, s)
    ensures Reachable(p, DoArrive(p, s, request))
  {
    Extend(p, s, Arrive(request));
  }

  lemma ExtendServe(p: Setup, s: State, x: nat, serve: Serve)
    requires Reachable(p, s) && x < |s.calls| && CanServe(p, s.calls[x], serve)
    ensures Reachable(p, DoServe(s, x, serve))
  {
    Extend(p, s, Step.Serve(x, serve));
  }

  lemma ExtendHold(p: Setup, s: State, x: nat, hold: Hold)
    requires Reachable(p, s) && x < |s.calls| && CanHold(s, x, hold)
    requires hold == Enqueue ==> Encodable(p, s.calls[x])
    ensures Reachable(p, DoHold(s, x, hold))
  {
    Extend(p, s, Step.Hold(x, hold));
  }

  lemma ExtendTalk(p: Setup, s: State, x: nat, talk: Talk)
    requires Reachable(p, s) && x < |s.calls| && CanTalk(s, x, talk)
    ensures Reachable(p, DoTalk(s, x, talk))
  {
    Extend(p, s, Step.Talk(x, talk));
  }

  lemma ExtendSubmit(p: Setup, s: State, x: nat, submit: Submit)
    requires Reachable(p, s) && x < |s.calls| && CanSubmit(s, x, submit)
    requires submit == Publish ==> Encodable(p, s.calls[x])
    ensures Reachable(p, DoSubmit(s, x, submit))
  {
    Extend(p, s, Step.Submit(x, submit));
  }

  lemma ExtendStore(p: Setup, s: State, x: nat)
    requires Reachable(p, s) && x < |s.calls| && x in s.attempts
    ensures Reachable(p, DoStore(p, s, x))
  {
    Extend(p, s, Step.Store(x));
  }

  lemma ExtendFail(p: Setup, s: State, x: nat, error: GatewayError)
    requires Reachable(p, s) && x < |s.calls| && CanFail(p, s, s.calls[x], error)
    ensures Reachable(p, Abandon(s, x, Settled(Failed(error))))
  {
    Extend(p, s, Step.Fail(x, error));
  }

  lemma ExtendEmit(p: Setup, s: State, c: nat, e: Emission)
    requires Reachable(p, s) && CanEmit(s, c)
    ensures Reachable(p, DoEmit(s, c, e))
  {
    Extend(p, s, Emit(c, e));
  }
}
