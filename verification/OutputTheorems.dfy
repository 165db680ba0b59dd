/**
 The results about playback: what holds in every state of every run, and exactly when CLOSE
 meets an output that is closed already.
 */
module OutputTheorems {
  import opened Common
  import opened OutputPipeline
  import opened OutputSafety
  import opened OutputRuns

  /**
   No run reaches a bad pointer or a failed assertion among those of `ThreadAsserts`,
   `PlayerAsserts` and `UpdateAsserts`, and no output points to a chunk that has gone back to
   the pool.  The two assertions left out there are those that can fail (OutputThread.cxx:628
   and OutputControl.cxx:52).
   */
  lemma PlaybackIsSafe(trace: seq<System>, actions: seq<Action>, k: nat, i: nat)
    requires IsDisciplinedRun(trace, actions) && Init(trace[0]) && k < |trace|
    requires i < |trace[k].outs|
    ensures !trace[k].fault
    ensures var o := trace[k].outs[i];
            o.current.Some? ==> o.open && o.current.value in trace[k].shared.pipe && o.current.value !in trace[k].pool
  {
    RunKeepsInv(trace, actions, k);
    assert OutputInv(trace[k].outs[i], i, trace[k].shared);
  }

  /**
   The chunks an output has played since it was opened, cancelled or unpaused are a
   contiguous piece of the sequence of pushed chunks, whatever was removed from the pipe
   meanwhile.  The piece starts at `origin`, where the head of the pipe was when the output
   became ready to play (`OriginIsPipeHead`).  The chunk to play next is the one after the piece, or the head of
   the pipe if nothing was played yet.
   */
  lemma PlaybackIsContiguous(trace: seq<System>, actions: seq<Action>, k: nat, i: nat)
    requires IsDisciplinedRun(trace, actions) && Init(trace[0]) && k < |trace|
    requires i < |trace[k].outs|
    ensures var o := trace[k].outs[i]; var h := trace[k].shared;
            && o.start + |o.run| <= |h.log| && o.run == h.log[o.start..o.start + |o.run|]
            && (o.run != [] ==> o.start == o.origin)
            && (o.run == [] && o.open && o.allowPlay ==> o.origin == h.base)
            && (o.current.Some? ==> o.run != [] && o.current.value == o.run[|o.run| - 1])
            && (o.open && i !in Locked(h.player) ==>
                var next := if o.run == [] then h.base else o.start + |o.run|;
                GetNextChunk(o, h.pipe) == if next < |h.log| then Some(h.log[next]) else None)
  {
    RunKeepsInv(trace, actions, k);
    var o := trace[k].outs[i];
    assert OutputInv(o, i, trace[k].shared);
    if o.open && i !in Locked(trace[k].shared.player) {
      NextChunkFollowsRun(o, i, trace[k].shared);
    }
  }

  /**
   A thread that sleeps without a pending signal has no command, and if it is open and may
   play then every chunk about which LockPlay() has told it is played.
   */
  lemma NoLostPlayWakeup(trace: seq<System>, actions: seq<Action>, k: nat, i: nat)
    requires IsDisciplinedRun(trace, actions) && Init(trace[0]) && k < |trace|
    requires i < |trace[k].outs| && trace[k].outs[i].thread == Waiting(false)
    requires !(trace[k].shared.player.NotifyPlay? && trace[k].shared.player.next <= i)
    ensures trace[k].outs[i].command == NoCommand
    ensures trace[k].outs[i].open && trace[k].outs[i].allowPlay && i !in Locked(trace[k].shared.player) ==>
              GetNextChunk(trace[k].outs[i], trace[k].shared.pipe) == None
  {
    RunKeepsInv(trace, actions, k);
    assert OutputInv(trace[k].outs[i], i, trace[k].shared);
  }

  // ---------------------------------------------------------------------------------------
  // Assertions that can fail

  /**
   The discipline of `PlaybackIsSafe` is exact.  When the player reopens an output, a run can
   fault before the operation ends if and only if the device of the output is being paused:
   the pause may fail, Close() drops the pipe, and the pending REOPEN then opens the device
   without one (OutputThread.cxx:137).
   */
  lemma ReopenFaultsExactly(s: System, i: nat)
    requires Inv(s) && Enabled(s, UpdateReopen(i))
    ensures s.outs[i].paused && MayFail(s.outs[i].thread) <==>
            exists e :: Reaches(Apply(s, UpdateReopen(i)), e, InOperation) && e.fault
  {
    var s1 := Apply(s, UpdateReopen(i));
    if s.outs[i].paused && MayFail(s.outs[i].thread) {
      ReopenFaults(s, i);
    } else {
      StepKeepsInv(s, UpdateReopen(i));
      hide Inv, Apply, Enabled;
      forall e | Reaches(s1, e, InOperation) ensures !e.fault {
        var trace, actions :| Leads(s1, e, InOperation, trace, actions);
        OperationInv(s1, trace, actions, |actions|);
        NoFault(e);
      }
    }
  }

  lemma NoFault(e: System)
    requires Inv(e)
    ensures !e.fault
  {
  }

  lemma ReopenFaults(s: System, i: nat)
    requires Inv(s) && Enabled(s, UpdateReopen(i)) && s.outs[i].paused && MayFail(s.outs[i].thread)
    ensures exists e :: Reaches(Apply(s, UpdateReopen(i)), e, InOperation) && e.fault
  {
    assert Pointers(s.outs[i], s.shared) by { assert OutputInv(s.outs[i], i, s.shared); }
    var s1 := Apply(s, UpdateReopen(i));
    assert s1.outs[i].command == Reopen && s1.shared.player == Sync(i, SyncToIdle);
    assert s1.outs[i].thread == s.outs[i].thread;
    ReachesSelf(s1, InOperation);
    hide Inv, Reaches, PlayCheck, UpdateAsserts;
    if s.outs[i].thread == Notifying(ToPause) {
      ReachesMore(s1, s1, InOperation, ThreadRuns(i, true));
      ReopenAfterPauseFaults(s1, Apply(s1, ThreadRuns(i, true)), i);
    } else {
      ReopenAfterPauseFaults(s1, s1, i);
    }
  }

  lemma ReopenAfterPauseFaults(s: System, e: System, i: nat)
    requires Reaches(s, e, InOperation) && e.shared.player.Sync? && i < |e.outs|
    requires e.outs[i].thread == PauseLoop(false) && e.outs[i].command == Reopen
    ensures exists e' :: Reaches(s, e', InOperation) && e'.fault
  {
    hide Reaches, PlayCheck;
    ReachesMore(s, e, InOperation, ThreadRuns(i, false));
    var e1 := Apply(e, ThreadRuns(i, false));
    assert e1.outs[i].thread == ClosingDevice(AfterPause) && !e1.outs[i].hasPipe && !e1.outs[i].open;
    ReachesMore(s, e1, InOperation, ThreadRuns(i, true));
  }

  /** The next thing output `i` does is to handle CLOSE, and it is closed already. */
  predicate CloseMeetsClosed(s: System, i: nat) {
    i < |s.outs| && Dispatches(s.outs[i], s.shared.pipe, true) && !s.outs[i].open
  }

  /** The two places that send CLOSE to an open output: LockUpdate() and MultipleOutputs::Close(). */
  predicate SendsClose(s: System, a: Action, i: nat) {
    && i < |s.outs| && s.outs[i].open
    && (|| (a == UpdateClose(i) && s.shared.player == Idle)
        || (a == PlayerRuns && s.shared.player == CloseAll(i)))
  }

  /**
   `assert(open)` of the CLOSE case (OutputThread.cxx:628) is safe exactly when the output
   is in no device call that may fail, nor sure to make one, at the moment the command is sent.
   */
  lemma CloseFindsOutputOpenExactly(s: System, a: Action, i: nat)
    requires Inv(s) && Enabled(s, a) && SendsClose(s, a, i)
    ensures MayFail(s.outs[i].thread) <==>
            exists e :: Reaches(Apply(s, a), e, Sent(i, CloseIt)) && CloseMeetsClosed(e, i)
  {
    assert OutputInv(s.outs[i], i, s.shared);
    QuietThread(s.outs[i], i, s.shared);
    var s1 := Apply(s, a);
    assert s1.outs[i] == Send(s.outs[i], CloseIt) && s1.shared.player.Sync? && s1.shared.player.who == i;
    hide ThreadStep, OutputInv, Apply, IsRun;
    if MayFail(s.outs[i].thread) {
      CloseRace(s1, i);
    } else {
      forall e | Reaches(s1, e, Sent(i, CloseIt)) ensures !CloseMeetsClosed(e, i) {
        var trace, actions :| Leads(s1, e, Sent(i, CloseIt), trace, actions);
        CloseCommitted(trace, actions, i, |actions|);
      }
    }
  }

  lemma CloseRace(s: System, i: nat)
    requires i < |s.outs| && s.outs[i].open && s.outs[i].command == CloseIt && MayFail(s.outs[i].thread)
    requires s.shared.player.Sync?
    ensures exists e :: Reaches(s, e, Sent(i, CloseIt)) && CloseMeetsClosed(e, i)
  {
    ReachesSelf(s, Sent(i, CloseIt));
    hide Reaches, CloseMeetsClosed;
    if s.outs[i].thread.Playing? {
      CloseRacePlaying(s, i);
    } else if s.outs[i].thread.PauseLoop? {
      CloseRacePaused(s, s, i);
    } else {
      var s1 := CloseStep(s, s, i, true);
      CloseRacePaused(s, s1, i);
    }
  }

  lemma CloseRacePlaying(s: System, i: nat)
    requires i < |s.outs| && s.outs[i].command == CloseIt && s.outs[i].thread.Playing? && !s.outs[i].thread.delayed
    requires s.shared.player.Sync? && Reaches(s, s, Sent(i, CloseIt))
    ensures exists e :: Reaches(s, e, Sent(i, CloseIt)) && CloseMeetsClosed(e, i)
  {
    hide Reaches, LoopHead, PlayCheck;
    var s1 := CloseStep(s, s, i, false);
    var s2 := CloseStep(s, s1, i, true);
    assert CloseMeetsClosed(s2, i);
  }

  lemma CloseRacePaused(s: System, e: System, i: nat)
    requires i < |e.outs| && e.outs[i].command == CloseIt && e.outs[i].thread == PauseLoop(false)
    requires e.shared.player.Sync? && Reaches(s, e, Sent(i, CloseIt))
    ensures exists e' :: Reaches(s, e', Sent(i, CloseIt)) && CloseMeetsClosed(e', i)
  {
    hide Reaches, LoopHead, PlayCheck;
    var e' := CloseStep(s, e, i, false);
    assert CloseMeetsClosed(e', i);
  }

  lemma CloseStep(s: System, e: System, i: nat, ok: bool) returns (e': System)
    requires Reaches(s, e, Sent(i, CloseIt)) && i < |e.outs| && Locked(e.shared.player) == {}
    requires ThreadStep(e.outs[i], e.shared.pipe, e.shared.base, ok).command == CloseIt
    ensures Reaches(s, e', Sent(i, CloseIt)) && e'.shared == e.shared
    ensures e'.outs == e.outs[i := ThreadStep(e.outs[i], e.shared.pipe, e.shared.base, ok)]
  {
    e' := Apply(e, ThreadRuns(i, ok));
    ReachesMore(s, e, Sent(i, CloseIt), ThreadRuns(i, ok));
  }

  /** The next thing the thread does is to look at its command. */
  predicate Attentive(t: Thread) {
    || t.Waiting? || t == PlayReturn || t == Notifying(ToHead) || t == Notifying(ToPlay)
    || (t.Playing? && t.delayed) || t == PauseLoop(true)
  }

  /** The output is open and about to see CLOSE, or it is closing. */
  predicate Committed(o: Output) {
    o.command == CloseIt && ((o.open && Attentive(o.thread)) || o.thread == ClosingDevice(ForClose))
  }

  lemma QuietThread(o: Output, i: nat, h: Shared)
    requires OutputInv(o, i, h) && o.open && o.command == NoCommand
    ensures MayFail(o.thread) || Attentive(o.thread)
  {
    match o.thread {
      case InDevice(work) =>
        match work { case NoCommand => case Enable => case Disable => case OpenIt => case Reopen =>
                     case CloseIt => case Pause => case Drain => case Cancel => }
      case Notifying(next) =>
        match next { case ToHead => case ToPlay => case ToPause => }
      case _ =>
    }
  }

  lemma CloseIsDispatched(o: Output, pipe: seq<Chunk>, base: nat)
    requires o.command == CloseIt
    ensures Committed(LoopHead(o, pipe, base))
  {
    hide PlayCheck;
  }

  lemma CloseIsSeen(o: Output, pipe: seq<Chunk>, base: nat)
    requires o.command == CloseIt && o.open
    ensures Committed(PlayCheck(o, pipe, base))
  {
    hide GetNextChunk, StartChunk;
  }

  lemma CloseAfterDelay(o: Output, pipe: seq<Chunk>, base: nat)
    requires o.command == CloseIt && o.open && (o.thread.Playing? || o.thread.PauseLoop?)
    ensures Committed(DelayDone(o, pipe, base))
  {
    CloseIsDispatched(Back(o.(paused := false)), pipe, base);
    hide LoopHead;
  }

  lemma CommittedThread(o: Output, pipe: seq<Chunk>, base: nat, ok: bool)
    requires Committed(o)
    ensures Committed(ThreadStep(o, pipe, base, ok)) || ThreadStep(o, pipe, base, ok).command != CloseIt
  {
    CloseIsDispatched(Back(o), pipe, base);
    CloseIsDispatched(o, pipe, base);
    if o.open {
      CloseIsSeen(Back(o), pipe, base);
    }
    if o.thread.Playing? || o.thread.PauseLoop? {
      CloseAfterDelay(o, pipe, base);
    }
    hide LoopHead, PlayCheck, DeviceDone, PauseDone, ChunkDone, DelayDone;
  }

  /** The player waits for output `i`. */
  predicate WaitsFor(p: Player, i: nat) {
    p.Sync? && p.who == i
  }

  lemma CommittedStep(s: System, a: Action, i: nat)
    requires Enabled(s, a) && i < |s.outs| && Committed(s.outs[i]) && WaitsFor(s.shared.player, i)
    requires i < |Apply(s, a).outs| && Apply(s, a).outs[i].command == CloseIt
    ensures Committed(Apply(s, a).outs[i]) && WaitsFor(Apply(s, a).shared.player, i)
  {
    assert s.outs[i].command == CloseIt;
    hide ThreadStep, PlayerAsserts, ThreadAsserts, Committed;
    if a.ThreadRuns? && a.i == i {
      CommittedThread(s.outs[i], s.shared.pipe, s.shared.base, a.ok);
    }
  }

  lemma {:induction false} CloseCommitted(trace: seq<System>, actions: seq<Action>, i: nat, k: nat)
    requires IsRun(trace, actions) && k < |trace|
    requires forall j :: 0 <= j < |trace| ==> Keeps(trace[j], Sent(i, CloseIt))
    requires i < |trace[0].outs| && Committed(trace[0].outs[i]) && WaitsFor(trace[0].shared.player, i)
    ensures i < |trace[k].outs| && Committed(trace[k].outs[i]) && WaitsFor(trace[k].shared.player, i)
  {
    hide Apply, Enabled, Committed;
    assert Keeps(trace[k], Sent(i, CloseIt));
    if k > 0 {
      CloseCommitted(trace, actions, i, k - 1);
      assert trace[k] == Apply(trace[k - 1], actions[k - 1]);
      CommittedStep(trace[k - 1], actions[k - 1], i);
    }
  }
}
