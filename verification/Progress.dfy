/** Time can always go on: a bound on what happens at one instant. */
module Progress {
  import opened Prelude
  import opened Gateway
  import opened Machine
  import opened Connections
  import Permits
  import Safety

  /** How many steps a caller may still take before time passes, none of them a new stage. */
  function Rank(phase: Phase): nat {
    match phase
    case Queued => 5
    case Parking(_, _) => 3
    case Closing(_, _) => 3
    case Unlocking(_) => 2
    case Returning(_) => 1
    case _ => if Timed(phase) then 4 else 0
  }

  function TotalRank(calls: seq<Call>): nat {
    if calls == [] then 0 else TotalRank(calls[..|calls| - 1]) + Rank(calls[|calls| - 1].phase)
  }

  lemma {:induction false} TotalRankUpdate(calls: seq<Call>, x: nat, call: Call)
    requires x < |calls|
    ensures TotalRank(calls[x := call]) == TotalRank(calls) - Rank(calls[x].phase) + Rank(call.phase)
  {
    var last := |calls| - 1;
    if x == last {
      assert calls[x := call][..last] == calls[..last];
    } else {
      TotalRankUpdate(calls[..last], x, call);
      assert calls[x := call][..last] == calls[..last][x := call];
    }
  }

  /** A step that finishes what one caller has begun: no arrival, and no passing of time. */
  predicate Settles(step: Step) {
    step.Hold? || (step.Serve? && step.serve == Return) || (step.Fail? && step.error == Timeout)
  }

  /** What an urgent caller does next. */
  function UrgentStep(s: State, x: nat): Step
    requires x < |s.calls| && Urgent(s, x)
  {
    match s.calls[x].phase
    case Parking(_, _) => Step.Hold(x, Park)
    case Closing(_, _) => Step.Hold(x, Close)
    case Unlocking(_) => Step.Hold(x, Unlock)
    case Returning(_) => Step.Serve(x, Return)
    case _ => Step.Hold(x, Take)
  }

  /** The step moves caller `x` alone, and down. */
  ghost predicate Lowers(s: State, s': State, x: nat) {
    x < |s.calls| && |s'.calls| == |s.calls| && s'.calls == s.calls[x := s'.calls[x]]
    && Rank(s'.calls[x].phase) < Rank(s.calls[x].phase)
  }

  lemma UrgentLowers(p: Setup, s: State, x: nat)
    requires LockInv(s) && SlotInv(s) && x < |s.calls| && Urgent(s, x)
    ensures Settles(UrgentStep(s, x)) && Enabled(p, s, UrgentStep(s, x))
    ensures Lowers(s, Apply(p, s, UrgentStep(s, x)), x)
  {
    assert s.calls[x].phase.Closing? ==> Owned(s.calls[x].phase) == Live(s);
  }

  lemma TimeoutLowers(p: Setup, s: State, x: nat)
    requires x < |s.calls| && CanFail(p, s, s.calls[x], Timeout)
    ensures Lowers(s, Abandon(s, x, Settled(Failed(Timeout))), x)
  {
  }

  /** When time must stand still, some caller can settle something and brings the total down. */
  lemma Standstill(p: Setup, s: State) returns (step: Step)
    requires LockInv(s) && SlotInv(s) && !CanTick(p, s)
    ensures Settles(step) && Enabled(p, s, step)
    ensures TotalRank(Apply(p, s, step).calls) < TotalRank(s.calls)
  {
    var x :| && 0 <= x < |s.calls|
             && !(!Urgent(s, x) && (Timed(s.calls[x].phase) ==> s.clock < s.calls[x].stageAt + p.timeout));
    if Urgent(s, x) {
      step := UrgentStep(s, x);
      UrgentLowers(p, s, x);
      TotalLowers(s, Apply(p, s, step), x);
    } else {
      step := Step.Fail(x, Timeout);
      TimeoutLowers(p, s, x);
      TotalLowers(s, Abandon(s, x, Settled(Failed(Timeout))), x);
    }
  }

  lemma TotalLowers(s: State, s': State, x: nat)
    requires Lowers(s, s', x)
    ensures TotalRank(s'.calls) < TotalRank(s.calls)
  {
    TotalRankUpdate(s.calls, x, s'.calls[x]);
  }

  lemma {:induction false} Settle(p: Setup, s: State) returns (steps: seq<Step>)
    requires LockInv(s) && SlotInv(s)
    ensures IsRun(p, s, steps) && forall i :: 0 <= i < |steps| ==> Settles(steps[i])
    ensures Enabled(p, After(p, s, steps), Tick)
    ensures |steps| <= TotalRank(s.calls)
    decreases TotalRank(s.calls)
  {
    if CanTick(p, s) {
      steps := [];
    } else {
      var step := Standstill(p, s);
      LockStep(p, s, step);
      SlotStep(p, s, step);
      var rest := Settle(p, Apply(p, s, step));
      steps := [step] + rest;
      assert steps[0] == step && steps[1..] == rest;
      assert After(p, s, steps) == After(p, Apply(p, s, step), rest);
    }
  }

  /** No time lock: from every reachable state a run without arrivals and without time passing, of at most five
      steps a caller, leads to a state where time can pass. */
  lemma NoTimelock(p: Setup, s: State)
    requires Reachable(p, s)
    ensures exists steps ::
              && IsRun(p, s, steps) && (forall i :: 0 <= i < |steps| ==> Settles(steps[i]))
              && Enabled(p, After(p, s, steps), Tick) && |steps| <= 5 * |s.calls|
  {
    Safety.AlwaysLocked(p, s);
    var steps := Settle(p, s);
    RankBounded(s.calls);
  }

  lemma {:induction false} RankBounded(calls: seq<Call>)
    ensures TotalRank(calls) <= 5 * |calls|
  {
    if calls != [] { RankBounded(calls[..|calls| - 1]); }
  }

  /** What a caller that has code to run, and is not in the middle of giving something up, can do next. */
  function NextServe(p: Setup, s: State, x: nat): Step
    requires x < |s.calls| && s.calls[x].request.Read?
  {
    var call := s.calls[x];
    if call.phase.Minted? then
      if !Encodable(p, call) then Step.Serve(x, Refuse(InvalidRequest))
      else if call.request.mode == StatefulMtlsTcp then Step.Hold(x, Enqueue)
      else Step.Submit(x, Publish)
    else if !Configured(p, call.request.mode) then Step.Serve(x, Refuse(NotConfigured))
    else if call.request.mode == DirectReadOnlyDatabase || call.request.mode == StatelessHttp then Step.Serve(x, Begin)
    else Step.Serve(x, Refuse(InvalidRequest))
  }

  /** No caller is ever stuck: until it is done, there is a step it can take. */
  lemma NoCallerStuck(p: Setup, s: State, x: nat)
    requires Reachable(p, s) && x < |s.calls| && !s.calls[x].phase.Done?
    ensures exists step :: Mover(step) == Some(x) && Enabled(p, s, step)
  {
    Safety.Always(p, s);
    assert Permits.Fits(p, s.calls[x]);
    if s.calls[x].phase.Admitted? || s.calls[x].phase.Minted? {
      NextServeEnabled(p, s, x);
    } else if Cancellable(s.calls[x].phase) {
      assert Enabled(p, s, Step.Cancel(x));
    } else {
      UrgentLowers(p, s, x);
    }
  }

  lemma NextServeEnabled(p: Setup, s: State, x: nat)
    requires x < |s.calls| && Permits.Fits(p, s.calls[x]) && (s.calls[x].phase.Admitted? || s.calls[x].phase.Minted?)
    ensures Mover(NextServe(p, s, x)) == Some(x) && Enabled(p, s, NextServe(p, s, x))
  {
  }
}
