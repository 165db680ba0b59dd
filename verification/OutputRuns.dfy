/**
 Runs that lead from one state to another, and how to put them together.
 */
module OutputRuns {
  import opened Common
  import opened OutputPipeline
  import opened OutputSafety

  /** What stays true all along a run: nothing in particular, a pending command, or an operation. */
  datatype Hold = Anything | Sent(i: nat, command: Command) | InOperation

  predicate Keeps(s: System, hold: Hold) {
    match hold
    case Anything => true
    case Sent(i, command) => i < |s.outs| && s.outs[i].command == command
    case InOperation => s.shared.player != Idle
  }

  ghost predicate Leads(s: System, e: System, hold: Hold, trace: seq<System>, actions: seq<Action>) {
    && IsRun(trace, actions) && trace[0] == s && trace[|actions|] == e
    && forall k :: 0 <= k < |trace| ==> Keeps(trace[k], hold)
  }

  ghost predicate Reaches(s: System, e: System, hold: Hold) {
    exists trace, actions :: Leads(s, e, hold, trace, actions)
  }

  lemma ReachesSelf(s: System, hold: Hold)
    requires Keeps(s, hold)
    ensures Reaches(s, s, hold)
  {
    assert Leads(s, s, hold, [s], []);
  }

  lemma ReachesMore(s: System, e: System, hold: Hold, a: Action)
    requires Reaches(s, e, hold) && Enabled(e, a) && Keeps(Apply(e, a), hold)
    ensures Reaches(s, Apply(e, a), hold)
  {
    hide Apply, Enabled;
    var trace, actions :| Leads(s, e, hold, trace, actions);
    assert Leads(s, Apply(e, a), hold, trace + [Apply(e, a)], actions + [a]);
  }

  /** A run may be followed by another one, if less has to stay true. */
  lemma ReachesOn(s: System, m: System, e: System, hold: Hold)
    requires Reaches(s, m, Anything) && Reaches(m, e, hold)
    ensures Reaches(s, e, Anything)
  {
    hide Apply, Enabled;
    var t1, a1 :| Leads(s, m, Anything, t1, a1);
    var t2, a2 :| Leads(m, e, hold, t2, a2);
    var trace, actions := t1[..|a1|] + t2, a1 + a2;
    forall k | 0 <= k < |actions|
      ensures Enabled(trace[k], actions[k]) && trace[k + 1] == Apply(trace[k], actions[k])
    {
      if k < |a1| {
        assert trace[k] == t1[k] && trace[k + 1] == t1[k + 1];
      } else {
        assert trace[k] == t2[k - |a1|] && trace[k + 1] == t2[k + 1 - |a1|];
      }
    }
    assert Leads(s, e, Anything, trace, actions);
  }

  /** The operation the player is in ends with the last step of a run. */
  ghost predicate NextIdle(s: System, e: System) {
    exists m, a :: EndsWith(s, m, a, e)
  }

  ghost predicate EndsWith(s: System, m: System, a: Action, e: System) {
    Reaches(s, m, InOperation) && Enabled(m, a) && e == Apply(m, a) && e.shared.player == Idle
  }

  lemma NextIdleIsReached(s: System, e: System)
    requires NextIdle(s, e)
    ensures Reaches(s, e, Anything)
  {
    hide Apply, Enabled;
    var m, a :| EndsWith(s, m, a, e);
    var trace, actions :| Leads(s, m, InOperation, trace, actions);
    assert Leads(s, m, Anything, trace, actions);
    ReachesMore(s, m, Anything, a);
  }

  // ---------------------------------------------------------------------------------------
  // The invariant along such runs

  /** Inside of an operation no output can be reopened. */
  lemma OperationIsDisciplined(s: System, a: Action)
    requires Enabled(s, a) && s.shared.player != Idle
    ensures Disciplined(s, a)
  {
  }

  lemma {:induction false} OperationInv(s: System, trace: seq<System>, actions: seq<Action>, k: nat)
    requires Inv(s) && IsRun(trace, actions) && trace[0] == s && k < |trace|
    requires forall j :: 0 <= j < |trace| ==> Keeps(trace[j], InOperation)
    ensures Inv(trace[k])
  {
    if k > 0 {
      OperationInv(s, trace, actions, k - 1);
      assert Keeps(trace[k - 1], InOperation);
      OperationIsDisciplined(trace[k - 1], actions[k - 1]);
      hide Inv, Apply, Enabled, Disciplined;
      StepKeepsInv(trace[k - 1], actions[k - 1]);
    }
  }

  lemma NextIdleInv(s: System, e: System)
    requires Inv(s) && NextIdle(s, e)
    ensures Inv(e)
  {
    hide Inv, Apply, Enabled;
    var m, a :| EndsWith(s, m, a, e);
    var trace, actions :| Leads(s, m, InOperation, trace, actions);
    OperationInv(s, trace, actions, |actions|);
    assert Keeps(trace[|actions|], InOperation);
    OperationIsDisciplined(m, a);
    StepKeepsInv(m, a);
  }

  // ---------------------------------------------------------------------------------------
  // Runs from the start

  /** A disciplined run leads from an initial state to `e`. */
  ghost predicate Reachable(s0: System, e: System) {
    exists trace, actions :: Visits(s0, e, trace, actions)
  }

  ghost predicate Visits(s0: System, e: System, trace: seq<System>, actions: seq<Action>) {
    Init(s0) && IsDisciplinedRun(trace, actions) && trace[0] == s0 && trace[|actions|] == e
  }

  lemma ReachableInit(s0: System)
    requires Init(s0)
    ensures Reachable(s0, s0)
  {
    assert Visits(s0, s0, [s0], []);
  }

  lemma ReachableMore(s0: System, e: System, a: Action) returns (e': System)
    requires Reachable(s0, e) && Enabled(e, a) && Disciplined(e, a)
    ensures e' == Apply(e, a) && Reachable(s0, e')
  {
    hide Apply, Enabled, Disciplined, Init;
    e' := Apply(e, a);
    var trace, actions :| Visits(s0, e, trace, actions);
    assert Visits(s0, e', trace + [e'], actions + [a]);
  }

  lemma ReachableInv(s0: System, e: System)
    requires Reachable(s0, e)
    ensures Inv(e) && Reaches(s0, e, Anything)
  {
    hide Inv, Apply, Enabled, Init;
    var trace, actions :| Visits(s0, e, trace, actions);
    RunKeepsInv(trace, actions, |actions|);
    assert Leads(s0, e, Anything, trace, actions);
  }
}
