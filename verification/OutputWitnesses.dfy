/**
 Concrete runs from the start that end in the three states in which an assertion of the source
 fails: one output, one chunk.
 */
module OutputWitnesses {
  import opened Common
  import opened OutputPipeline
  import opened OutputSafety
  import opened OutputRuns
  import opened OutputTheorems
  import opened OutputPending

  /** The only output is open and idle, and so is the player. */
  predicate JustOpened(e: System) {
    && e.shared.player == Idle && |e.outs| == 1
    && var o := e.outs[0];
       && o.open && o.allowPlay && !o.paused && !o.inLoop && !o.woken && o.command == NoCommand
       && o.hasPipe && o.current == None && o.run == [] && o.thread == Notifying(ToPlay)
  }

  lemma FirstOpen(s0: System) returns (e: System)
    requires Init(s0) && |s0.outs| == 1
    ensures Reachable(s0, e) && JustOpened(e) && e.shared.pipe == [] && e.pool == s0.pool
  {
    ReachableInit(s0);
    assert FreshOutput(s0.outs[0]);
    hide Reachable, PlayCheck, GetNextChunk, ThreadAsserts, PlayerAsserts, UpdateAsserts, Init;
    e := ReachableMore(s0, s0, UpdateOpen(0));
    e := ReachableMore(s0, e, ThreadRuns(0, true));
    assert e.outs[0].thread == InDevice(OpenIt);
    e := ReachableMore(s0, e, ThreadRuns(0, true));
    assert e.outs[0].open && e.outs[0].command == NoCommand;
    e := ReachableMore(s0, e, PlayerRuns);
  }

  /** The first chunk is being played. */
  lemma FirstPlay(s0: System, c: Chunk) returns (e: System)
    requires Init(s0) && |s0.outs| == 1 && c !in s0.pool
    ensures Reachable(s0, e) && e.shared.player == Idle && |e.outs| == 1
    ensures e.outs[0].open && e.outs[0].thread == Playing(c, false)
  {
    e := FirstOpen(s0);
    hide Reachable, ThreadAsserts, PlayerAsserts;
    e := ReachableMore(s0, e, Push(c));
    assert e.shared.pipe == [c];
    e := ReachableMore(s0, e, PlayerRuns);
    e := ReachableMore(s0, e, PlayerRuns);
    assert e.outs[0].thread == Notifying(ToPlay) && e.outs[0].current == None;
    e := ReachableMore(s0, e, ThreadRuns(0, true));
  }

  lemma FirstPauseSent(s0: System) returns (e: System)
    requires Init(s0) && |s0.outs| == 1
    ensures Reachable(s0, e) && e.shared.player == PauseWait(0) && e.shared.pipe == [] && |e.outs| == 1
    ensures var o := e.outs[0];
            o.open && !o.paused && o.current == None && o.command == Pause && o.thread == Notifying(ToPlay)
  {
    e := FirstOpen(s0);
    hide Reachable, ThreadAsserts, PlayerAsserts, ThreadStep;
    e := ReachableMore(s0, e, BeginPause);
    e := ReachableMore(s0, e, PlayerRuns);
    e := ReachableMore(s0, e, PlayerRuns);
  }

  lemma FirstPauseHandled(s0: System) returns (e: System)
    requires Init(s0) && |s0.outs| == 1
    ensures Reachable(s0, e) && e.shared.player == PauseWait(0) && e.shared.pipe == [] && |e.outs| == 1
    ensures e.outs[0].open && e.outs[0].paused && e.outs[0].command == NoCommand
    ensures e.outs[0].thread == Notifying(ToPause)
  {
    e := FirstPauseSent(s0);
    hide Reachable, ThreadAsserts, PlayerStep;
    e := ReachableMore(s0, e, ThreadRuns(0, true));
    assert e.outs[0].thread == InDevice(Pause);
    e := ReachableMore(s0, e, ThreadRuns(0, true));
  }

  /** The output is paused, with nothing to play. */
  lemma FirstPause(s0: System) returns (e: System)
    requires Init(s0) && |s0.outs| == 1
    ensures Reachable(s0, e) && e.shared.player == Idle && e.shared.pipe == [] && |e.outs| == 1
    ensures e.outs[0].open && e.outs[0].paused && MayFail(e.outs[0].thread)
  {
    e := FirstPauseHandled(s0);
    hide Reachable, PlayerAsserts, ThreadStep;
    e := ReachableMore(s0, e, PlayerRuns);
    e := ReachableMore(s0, e, PlayerRuns);
  }

  /** From the start, a run reaches the CLOSE case with a closed output (OutputThread.cxx:628). */
  lemma CloseAssertionFails(s0: System, c: Chunk)
    requires Init(s0) && |s0.outs| == 1 && c !in s0.pool
    ensures exists e :: Reaches(s0, e, Anything) && CloseMeetsClosed(e, 0)
  {
    var s := FirstPlay(s0, c);
    ReachableInv(s0, s);
    CloseFindsOutputOpenExactly(s, UpdateClose(0), 0);
    hide Reaches, Apply, Inv, CloseMeetsClosed;
    var e :| Reaches(Apply(s, UpdateClose(0)), e, Sent(0, CloseIt)) && CloseMeetsClosed(e, 0);
    ReachesMore(s0, s, Anything, UpdateClose(0));
    ReachesOn(s0, Apply(s, UpdateClose(0)), e, Sent(0, CloseIt));
  }

  lemma PauseIsDue(s0: System, c: Chunk) returns (e: System)
    requires Init(s0) && |s0.outs| == 1 && c !in s0.pool
    ensures Reachable(s0, e) && Sends(e, Pausing, 0) && MayFail(e.outs[0].thread) && Enabled(e, PlayerRuns)
  {
    hide Reachable;
    e := FirstPlay(s0, c);
    e := ReachableMore(s0, e, BeginPause);
  }

  /** From the start, a run reaches CommandAsync() with a pending PAUSE (OutputControl.cxx:52). */
  lemma AsyncAssertionFails(s0: System, c: Chunk)
    requires Init(s0) && |s0.outs| == 1 && c !in s0.pool
    ensures exists e :: Reaches(s0, e, Anything) && AsyncAssertFails(e, 0)
  {
    hide Reachable, Reaches, Apply, Enabled, Inv, NextIdle, Init;
    var s1 := PauseIsDue(s0, c);
    ReachableInv(s0, s1);
    CommandStaysPendingExactly(s1, Pausing, 0);
    var e :| NextIdle(Apply(s1, PlayerRuns), e) && AsyncAssertFails(e, 0);
    NextIdleIsReached(Apply(s1, PlayerRuns), e);
    ReachesMore(s0, s1, Anything, PlayerRuns);
    ReachesOn(s0, Apply(s1, PlayerRuns), e, Anything);
  }

  /** From the start, a run opens a device without a pipe (OutputThread.cxx:137). */
  lemma ReopenAssertionFails(s0: System)
    requires Init(s0) && |s0.outs| == 1
    ensures exists e :: Reaches(s0, e, Anything) && e.fault
  {
    var s := FirstPause(s0);
    ReachableInv(s0, s);
    ReopenFaultsExactly(s, 0);
    hide Reaches, Apply, Inv;
    var e :| Reaches(Apply(s, UpdateReopen(0)), e, InOperation) && e.fault;
    ReachesMore(s0, s, Anything, UpdateReopen(0));
    ReachesOn(s0, Apply(s, UpdateReopen(0)), e, InOperation);
  }
}
