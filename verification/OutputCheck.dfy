/**
 What MultipleOutputs::Check() gives back when no output thread interferes: exactly the chunks
 at the front of the pipe that no output needs any more.
 */
module OutputCheck {
  import opened Common
  import opened OutputPipeline
  import opened OutputSafety

  /** The player alone takes `n` steps. */
  function Steps(s: System, n: nat): System
    decreases n
  {
    if n == 0 then s else Steps(PlayerStep(s), n - 1)
  }

  lemma {:induction false} StepsAdd(s: System, m: nat, n: nat)
    ensures Steps(s, m + n) == Steps(Steps(s, m), n)
    decreases m
  {
    hide PlayerStep;
    if m > 0 {
      StepsAdd(PlayerStep(s), m - 1, n);
    }
  }

  lemma {:induction false} StepsInv(s: System, n: nat)
    requires Inv(s)
    ensures Inv(Steps(s, n))
    decreases n
  {
    hide PlayerStep, Inv;
    if n > 0 {
      PlayerStepInv(s);
      StepsInv(PlayerStep(s), n - 1);
    }
  }

  /** How many chunks at the front of the pipe the output does not need any more. */
  function Passed(o: Output, pipe: seq<Chunk>): (k: nat)
    ensures k <= |pipe|
  {
    if !o.open then |pipe|
    else if o.current == None || o.current.value !in pipe then 0
    else
      var k := IndexOf(pipe, o.current.value);
      if o.finished && k == |pipe| - 1 then |pipe| else k
  }

  function PassedByAll(outs: seq<Output>, pipe: seq<Chunk>): (k: nat)
    ensures k <= |pipe|
  {
    if outs == [] then |pipe|
    else
      var a, b := Passed(outs[0], pipe), PassedByAll(outs[1..], pipe);
      if a < b then a else b
  }

  lemma {:induction false} PassedByEach(outs: seq<Output>, pipe: seq<Chunk>, k: nat)
    requires k <= |pipe|
    ensures k <= PassedByAll(outs, pipe) <==> forall i :: 0 <= i < |outs| ==> k <= Passed(outs[i], pipe)
  {
    hide Passed;
    if outs != [] {
      PassedByEach(outs[1..], pipe, k);
      assert forall i :: 0 < i < |outs| ==> outs[i] == outs[1..][i - 1];
      assert forall i :: 0 <= i < |outs[1..]| ==> outs[1..][i] == outs[i + 1];
    }
  }

  lemma ConsumedIsPassed(o: Output, h: Shared)
    requires ValidShared(h) && Pointers(o, h) && h.pipe != []
    ensures Consumed(o, h.pipe) <==> Passed(o, h.pipe) >= 1
  {
  }

  lemma PassedNext(o: Output, h: Shared)
    requires ValidShared(h) && Pointers(o, h) && |h.pipe| > 1 && Consumed(o, h.pipe)
    ensures Passed(o, h.pipe[1..]) == Passed(o, h.pipe) - 1
  {
    if o.open {
      var k := IndexOf(h.pipe, o.current.value);
      assert h.pipe[1..][k - 1] == o.current.value;
      IndexIsUnique(h.pipe[1..], k - 1);
    }
  }

  lemma {:induction false} AllPassedNext(outs: seq<Output>, h: Shared)
    requires ValidShared(h) && |h.pipe| > 1
    requires forall i :: 0 <= i < |outs| ==> Pointers(outs[i], h) && Consumed(outs[i], h.pipe)
    ensures PassedByAll(outs, h.pipe[1..]) == PassedByAll(outs, h.pipe) - 1
  {
    hide Passed;
    if outs != [] {
      PassedNext(outs[0], h);
      AllPassedNext(outs[1..], h);
    }
  }

  /** The scan of the outputs from `i` on. */
  lemma {:induction false} ScanEnds(s: System, i: nat) returns (n: nat)
    requires s.shared.player == CheckScan(i) && s.shared.pipe != [] && i <= |s.outs|
    ensures Steps(s, n) ==
            SetPlayer(s, if forall j :: i <= j < |s.outs| ==> Consumed(s.outs[j], s.shared.pipe)
                         then CheckScan(|s.outs|) else Idle)
    decreases |s.outs| - i
  {
    hide Consumed;
    if i == |s.outs| {
      n := 0;
    } else if Consumed(s.outs[i], s.shared.pipe) {
      var s1 := PlayerStep(s);
      assert s1 == SetPlayer(s, CheckScan(i + 1));
      n := ScanEnds(s1, i + 1);
      n := n + 1;
    } else {
      assert Steps(PlayerStep(s), 0) == SetPlayer(s, Idle);
      n := 1;
    }
  }

  /** The last chunk is forgotten by every output, taken out and returned. */
  lemma {:induction false} TailIsReturned(s: System) returns (n: nat)
    requires s.shared.player.ClearTail? && |s.shared.pipe| == 1
    ensures Steps(s, n).shared.player == Idle && Steps(s, n).shared.pipe == []
    decreases |s.outs| - s.shared.player.next
  {
    var k := s.shared.player.next;
    var s1 := PlayerStep(s);
    if k < |s.outs| {
      n := TailIsReturned(s1);
    } else {
      n := UnlockEnds(s1);
    }
    n := n + 1;
  }

  lemma {:induction false} UnlockEnds(s: System) returns (n: nat)
    requires s.shared.player.Unlock? && s.shared.pipe == []
    ensures Steps(s, n).shared.player == Idle && Steps(s, n).shared.pipe == []
    decreases |s.outs| - s.shared.player.next
  {
    var s1 := PlayerStep(s);
    if s.shared.player.next < |s.outs| {
      n := UnlockEnds(s1);
      n := n + 1;
    } else {
      assert PlayerStep(s1).shared.player == Idle && PlayerStep(s1).shared.pipe == [];
      assert Steps(s, 2) == PlayerStep(s1) by { assert Steps(s1, 1) == PlayerStep(s1); }
      n := 2;
    }
  }

  /** The outputs' own invariants, for the lemmas above. */
  lemma OutputsPoint(s: System)
    requires Inv(s)
    ensures ValidShared(s.shared) && forall i :: 0 <= i < |s.outs| ==> Pointers(s.outs[i], s.shared)
  {
    forall i | 0 <= i < |s.outs|
      ensures Pointers(s.outs[i], s.shared)
    {
      assert OutputInv(s.outs[i], i, s.shared);
    }
  }

  lemma NothingPassed(s: System)
    requires Inv(s) && s.shared.pipe != []
    ensures PassedByAll(s.outs, s.shared.pipe) >= 1 <==>
            forall j :: 0 <= j < |s.outs| ==> Consumed(s.outs[j], s.shared.pipe)
  {
    OutputsPoint(s);
    hide Inv, Pointers, Passed, Consumed;
    PassedByEach(s.outs, s.shared.pipe, 1);
    forall j | 0 <= j < |s.outs|
      ensures Consumed(s.outs[j], s.shared.pipe) <==> Passed(s.outs[j], s.shared.pipe) >= 1
    {
      ConsumedIsPassed(s.outs[j], s.shared);
    }
  }

  /** A head that all outputs have passed is returned, and the scan begins again. */
  lemma HeadIsReturned(s: System) returns (n: nat)
    requires Inv(s) && s.shared.player == CheckScan(|s.outs|) && |s.shared.pipe| > 1
    ensures var e := Steps(s, n);
            e.outs == s.outs && e.shared.pipe == s.shared.pipe[1..] && e.shared.player == CheckScan(0)
  {
    hide Inv, Consumed;
    var s1 := PlayerStep(s);
    var s2 := PlayerStep(s1);
    assert Steps(s, 2) == Steps(s1, 1) == Steps(s2, 0) == s2;
    n := 2;
  }

  /**
   Check() returns exactly the chunks at the front that every output has passed, however many
   outputs and chunks there are, and leaves the others.
   */
  lemma {:induction false} CheckReturnsExactly(s: System) returns (n: nat)
    requires Inv(s) && s.shared.player == CheckScan(0) && s.shared.pipe != []
    ensures Steps(s, n).shared.player == Idle
    ensures Steps(s, n).shared.pipe == s.shared.pipe[PassedByAll(s.outs, s.shared.pipe)..]
    decreases |s.shared.pipe|
  {
    hide *;
    NothingPassed(s);
    var pipe := s.shared.pipe;
    if !(forall j :: 0 <= j < |s.outs| ==> Consumed(s.outs[j], pipe)) {
      n := ScanStops(s);
      assert pipe[0..] == pipe;
    } else if |pipe| == 1 {
      n := LastRound(s);
    } else {
      OutputsPoint(s);
      AllPassedNext(s.outs, s.shared);
      n := OneRound(s);
      var s1 := Steps(s, n);
      var m := CheckReturnsExactly(s1);
      StepsAdd(s, n, m);
      assert pipe[1..][PassedByAll(s.outs, pipe) - 1..] == pipe[PassedByAll(s.outs, pipe)..];
      n := n + m;
    }
  }

  /** Some output needs the head. */
  lemma ScanStops(s: System) returns (n: nat)
    requires s.shared.player == CheckScan(0) && s.shared.pipe != []
    requires !forall j :: 0 <= j < |s.outs| ==> Consumed(s.outs[j], s.shared.pipe)
    ensures Steps(s, n).shared.player == Idle && Steps(s, n).shared.pipe == s.shared.pipe
  {
    hide PlayerStep, Consumed, Steps;
    n := ScanEnds(s, 0);
  }

  /** All outputs have passed the head, and it is not the last one. */
  lemma OneRound(s: System) returns (n: nat)
    requires Inv(s) && s.shared.player == CheckScan(0) && |s.shared.pipe| > 1
    requires forall j :: 0 <= j < |s.outs| ==> Consumed(s.outs[j], s.shared.pipe)
    ensures var e := Steps(s, n);
            Inv(e) && e.outs == s.outs && e.shared.pipe == s.shared.pipe[1..] && e.shared.player == CheckScan(0)
  {
    hide Inv, PlayerStep, Consumed, Steps;
    n := ScanEnds(s, 0);
    StepsInv(s, n);
    var m := HeadIsReturned(Steps(s, n));
    StepsAdd(s, n, m);
    n := n + m;
    StepsInv(s, n);
  }

  lemma LastRound(s: System) returns (n: nat)
    requires s.shared.player == CheckScan(0) && |s.shared.pipe| == 1
    requires forall j :: 0 <= j < |s.outs| ==> Consumed(s.outs[j], s.shared.pipe)
    ensures Steps(s, n).shared.player == Idle && Steps(s, n).shared.pipe == []
  {
    hide PlayerStep, Consumed, Steps;
    n := ScanEnds(s, 0);
    var m := TailFrom(Steps(s, n));
    StepsAdd(s, n, m);
    n := n + m;
  }

  lemma TailFrom(s: System) returns (n: nat)
    requires s.shared.player == CheckScan(|s.outs|) && |s.shared.pipe| == 1
    ensures Steps(s, n).shared.player == Idle && Steps(s, n).shared.pipe == []
  {
    var s1 := PlayerStep(s);
    n := TailIsReturned(s1);
    n := n + 1;
  }
}
