/**
 What every interleaving of the player with the output threads keeps.
 */
module OutputSafety {
  import opened Common
  import opened OutputPipeline

  // ---------------------------------------------------------------------------------------
  // The invariant

  ghost predicate ValidShared(h: Shared) {
    && h.base <= |h.log| && h.pipe == h.log[h.base..] && Distinct(h.pipe)
  }

  /** The pointers and flags of one output. */
  ghost predicate Pointers(o: Output, h: Shared) {
    && (o.current.Some? ==> o.open && o.current.value in h.pipe)
    && (o.open ==> o.hasPipe)
    && (o.inLoop <==> o.thread.Playing? || o.thread == ClosingDevice(AfterFailure))
    && (o.thread.Playing? ==> o.current == Some(o.thread.chunk) && !o.finished)
    && (o.thread.ClosingDevice? ==> !o.open)
    && (o.paused ==> (o.thread == Notifying(ToPause) || o.thread.PauseLoop? || o.thread == ClosingDevice(AfterPause)))
    && ((o.thread == Notifying(ToPause) || o.thread.PauseLoop?) ==> o.paused && o.open)
    && (o.thread == ClosingDevice(AfterPause) ==> o.paused)
  }

  /** A command the player waits for. */
  predicate Synchronous(c: Command) {
    c.Enable? || c.Disable? || c.OpenIt? || c.Reopen? || c.CloseIt?
  }

  /** What a pending command says about the output. */
  ghost predicate Commanded(o: Output, i: nat, h: Shared) {
    && (Synchronous(o.command) ==> h.player.Sync? && h.player.who == i)
    && (o.command == OpenIt ==> !o.open && o.hasPipe)
    && (o.command == Reopen ==>
        && h.pipe == [] && (o.paused ==> o.thread == PauseLoop(true))
        && (|| o.open || o.thread == InDevice(OpenIt)
            || o.thread == ClosingDevice(ForReopen) || o.thread == ClosingDevice(ForClose)))
    && (o.command == Drain && o.open ==> h.pipe == [])
  }

  /** What the thread is doing matches its command. */
  ghost predicate Busy(o: Output) {
    && (o.thread == InDevice(OpenIt) ==> (o.command.OpenIt? || o.command.Reopen?) && !o.open && o.hasPipe)
    && (o.thread == InDevice(Disable) ==> o.command.Disable? && !o.open)
    && (o.thread == InDevice(Enable) ==> o.command.Enable?)
    && (o.thread == InDevice(Reopen) ==> o.command.Reopen? && o.open && o.fixedFormat)
    && (o.thread == InDevice(Pause) ==> o.command.Pause? && o.open)
    && (o.thread == InDevice(Drain) ==> o.command.Drain? && o.open)
    && (o.thread == InDevice(Cancel) ==> o.command.Cancel? && o.open && o.current == None && o.run == [])
    && (o.thread.InDevice? ==> !o.thread.work.NoCommand? && !o.thread.work.CloseIt?)
    && (o.thread == ClosingDevice(ForClose) ==> o.command.CloseIt? || o.command.Reopen?)
    && (o.thread == ClosingDevice(ForDisable) ==> o.command.Disable?)
    && (o.thread == ClosingDevice(ForReopen) ==> o.command.Reopen? && !o.fixedFormat)
  }

  ghost predicate Working(o: Output, i: nat, h: Shared) {
    Commanded(o, i, h) && Busy(o)
  }

  /** The chunks played so far are a contiguous piece of the log, and the next one follows it. */
  ghost predicate Contiguous(o: Output, i: nat, h: Shared) {
    && o.start + |o.run| <= |h.log|
    && o.run == h.log[o.start..o.start + |o.run|]
    && (o.current.Some? ==>
        && o.run != [] && h.base < o.start + |o.run|
        && o.current.value == h.log[o.start + |o.run| - 1])
    && (o.open && o.current == None && o.run != [] ==>
        o.start + |o.run| == if h.player.ClearTail? && i in h.player.locked then h.base + 1 else h.base)
  }

  /** The run starts where the head of the pipe was; before it, the head has not moved since. */
  ghost predicate Origin(o: Output, h: Shared) {
    && (o.run != [] ==> o.start == o.origin)
    && (o.open && o.allowPlay && o.run == [] ==> o.origin == h.base)
  }

  /** Is the player between pushing a chunk and telling output `i` about it? */
  predicate CallOutstanding(p: Player, i: nat) {
    || (p.NotifyPlay? && p.next <= i)
    || (p.ClearTail? && i in p.locked)
  }

  /** A sleeping thread has nothing to do. */
  ghost predicate Awake(o: Output, i: nat, h: Shared) {
    o.thread == Waiting(false) ==>
      && !o.woken && o.command == NoCommand
      && (o.open && o.allowPlay && !CallOutstanding(h.player, i) ==> GetNextChunk(o, h.pipe) == None)
  }

  ghost predicate Quiet(o: Output) {
    o.open ==> o.command == NoCommand
  }

  ghost predicate Cancelled(o: Output) {
    o.open ==> o.command == NoCommand && o.current == None && o.run == [] && !o.allowPlay
  }

  /** An open output is paused, or it is about to be. */
  ghost predicate Pausing(o: Output) {
    o.open ==> o.command == Pause || (o.command == NoCommand && o.paused)
  }

  /** What the player's position in an operation says about output `i`. */
  ghost predicate Position(o: Output, i: nat, h: Shared) {
    match h.player
    case Idle => Quiet(o) && o.allowPlay
    case NotifyPlay(_) => Quiet(o) && o.allowPlay
    case ReturnChunk(_) => Quiet(o) && o.allowPlay
    case Sync(k, resume) =>
      && o.allowPlay && (i != k ==> Quiet(o))
      && (o.open && i == k ==> !o.command.OpenIt? && !o.command.Pause? && !o.command.Drain?)
      && (resume == SyncToCloseAll ==>
          && (i < k ==> !o.open)
          && (i == k ==> (o.command.CloseIt? || o.command.NoCommand?) && (o.open ==> o.command == CloseIt)))
    case CheckScan(k) => Quiet(o) && o.allowPlay && h.pipe != [] && (i < k ==> Consumed(o, h.pipe))
    case ClearTail(k, locked) =>
      && Quiet(o) && o.allowPlay && |h.pipe| == 1 && (i in locked ==> i < k)
      && (i < k ==> if i in locked then o.open && o.current == None && o.run != [] else !o.open)
      && (k <= i ==> Consumed(o, h.pipe))
    case Unlock(_, k, locked) => Quiet(o) && o.allowPlay && h.pipe == [] && (i in locked ==> k <= i)
    case CancelSend(k) =>
      if i < k then o.open ==> !o.allowPlay && (o.command == Cancel || Cancelled(o))
      else Quiet(o) && o.allowPlay
    case CancelWait(k) =>
      && (o.open ==> !o.allowPlay && (o.command == Cancel || Cancelled(o)))
      && (i < k ==> Cancelled(o))
    case CancelClear => Cancelled(o)
    case AllowPlay(k) => h.pipe == [] && if i < k then Quiet(o) && o.allowPlay else Cancelled(o)
    case PauseSend(k) => o.allowPlay && if i < k then Pausing(o) else Quiet(o)
    case PauseWait(k) => o.allowPlay && Pausing(o) && (i < k ==> Quiet(o))
    case DrainSend(k) =>
      o.allowPlay && h.pipe == [] && if i < k then (o.command.NoCommand? || o.command.Drain?) || !o.open else Quiet(o)
    case DrainWait(k) =>
      o.allowPlay && h.pipe == [] && ((o.command.NoCommand? || o.command.Drain?) || !o.open) && (i < k ==> Quiet(o))
    case CloseAll(k) => Quiet(o) && o.allowPlay && (i < k ==> !o.open)
    case CloseClear => !o.open && o.allowPlay
  }

  ghost predicate Flags(o: Output, i: nat, h: Shared) {
    Pointers(o, h) && Working(o, i, h) && Awake(o, i, h) && Origin(o, h)
  }

  ghost predicate ThreadInv(o: Output, i: nat, h: Shared) {
    Flags(o, i, h) && Contiguous(o, i, h)
  }

  ghost predicate OutputInv(o: Output, i: nat, h: Shared) {
    ThreadInv(o, i, h) && Position(o, i, h)
  }

  /** What the player's position says about the pipe, and who owns the chunks. */
  ghost predicate Ownership(h: Shared, pool: set<Chunk>) {
    && (h.player.CheckScan? ==> h.pipe != [])
    && (h.player.ClearTail? ==> |h.pipe| == 1)
    && (h.player.DrainSend? || h.player.DrainWait? ==> h.pipe == [])
    && (h.player.AllowPlay? || h.player.Unlock? ==> h.pipe == [])
    && (forall c :: c in h.pipe ==> c !in pool)
    && (h.player.Unlock? || h.player.ReturnChunk? ==> h.player.chunk !in pool && h.player.chunk !in h.pipe)
  }

  ghost predicate Inv(s: System) {
    && ValidShared(s.shared) && Ownership(s.shared, s.pool) && !s.fault
    && forall i :: 0 <= i < |s.outs| ==> OutputInv(s.outs[i], i, s.shared)
  }

  lemma InitInv(s: System)
    requires Init(s)
    ensures Inv(s)
  {
  }

  // ---------------------------------------------------------------------------------------
  // Output threads

  lemma IndexIsUnique(pipe: seq<Chunk>, k: nat)
    requires Distinct(pipe) && k < |pipe|
    ensures IndexOf(pipe, pipe[k]) == k
  {
  }

  /** Where the next chunk of an output stands in the log. */
  lemma NextChunkFollowsRun(o: Output, i: nat, h: Shared)
    requires ValidShared(h) && Pointers(o, h) && Contiguous(o, i, h) && o.open
    requires i !in Locked(h.player)
    ensures var k := if o.run == [] then h.base else o.start + |o.run|;
            GetNextChunk(o, h.pipe) == if k < |h.log| then Some(h.log[k]) else None
    ensures GetNextChunk(o, h.pipe).Some? && o.current.Some? ==> GetNextChunk(o, h.pipe).value != h.pipe[0]
  {
    if o.current.Some? {
      IndexIsUnique(h.pipe, o.start + |o.run| - 1 - h.base);
    }
  }

  lemma StartChunkContiguous(o: Output, i: nat, h: Shared)
    requires ValidShared(h) && Pointers(o, h) && Contiguous(o, i, h) && i !in Locked(h.player)
    requires o.open && GetNextChunk(o, h.pipe).Some?
    ensures GetNextChunk(o, h.pipe).value in h.pipe
    ensures Contiguous(StartChunk(o, GetNextChunk(o, h.pipe).value, h.base), i, h)
  {
    NextChunkFollowsRun(o, i, h);
    hide GetNextChunk;
    var o' := StartChunk(o, GetNextChunk(o, h.pipe).value, h.base);
    LogGrows(h.log, o'.start, |o.run|);
    assert o.run == h.log[o'.start..o'.start + |o.run|];
  }

  lemma LogGrows(log: seq<Chunk>, a: nat, n: nat)
    requires a + n < |log|
    ensures log[a..a + n] + [log[a + n]] == log[a..a + n + 1]
  {
  }

  lemma StartChunkInv(o: Output, i: nat, h: Shared)
    requires ValidShared(h) && ThreadInv(o, i, h) && i !in Locked(h.player)
    requires o.open && o.command == NoCommand && !o.paused && GetNextChunk(o, h.pipe).Some?
    requires o.allowPlay || o.current.Some?
    ensures StepInv(o, StartChunk(o, GetNextChunk(o, h.pipe).value, h.base), i, h)
  {
    hide GetNextChunk, ValidShared;
    assert Flags(o, i, h) && Contiguous(o, i, h);
    NextChunkFollowsRun(o, i, h);
    StartChunkContiguous(o, i, h);
    hide Contiguous;
  }

  /** What a step of the thread may change, as the player sees it. */
  ghost predicate Advances(o: Output, o': Output, h: Shared) {
    && o'.allowPlay == o.allowPlay
    && (o'.command == o.command || o'.command.NoCommand?)
    && (o'.open && !o.open ==> (o.command.OpenIt? || o.command.Reopen?) && o'.command == NoCommand)
    && (h.pipe != [] && !o.command.OpenIt? && !o.command.Reopen? && !o.command.Cancel? && Consumed(o, h.pipe) ==>
        Consumed(o', h.pipe))
    && (o'.open && o.command == Cancel && o'.command == NoCommand ==> o'.current == None && o'.run == [])
    && (o.open && o.command == NoCommand && !o.allowPlay && o.current == None && o.run == [] && o'.open ==>
        o'.current == None && o'.run == [])
    && ((o.command == CloseIt || o.command == Disable) && o'.command == NoCommand ==> !o'.open)
    && (o'.open && o.command == Pause && o'.command == NoCommand ==> o'.paused)
    && (o'.open && o.open && o.paused && o.command == NoCommand ==> o'.paused)
    && (!o.paused && o.command != Pause ==> !o'.paused)
  }

  lemma AdvancesKeepsPosition(o: Output, o': Output, i: nat, h: Shared)
    requires Working(o, i, h) && Position(o, i, h) && Advances(o, o', h) && i !in Locked(h.player)
    ensures Position(o', i, h)
  {
  }

  ghost predicate StepInv(o: Output, o': Output, i: nat, h: Shared) {
    ThreadInv(o', i, h) && Advances(o, o', h)
  }

  /** A step that starts no chunk keeps the run, or forgets it together with the pointer. */
  lemma ContiguousFrame(o: Output, o': Output, i: nat, h: Shared)
    requires Contiguous(o, i, h) && o'.start == o.start
    requires o'.run == [] || (o'.run == o.run && (o'.open ==> o.open))
    requires o'.current == None || o'.current == o.current
    requires o'.open && o.current.Some? && o'.current == None ==> o'.run == []
    requires o'.current.Some? ==> o'.run == o.run
    ensures Contiguous(o', i, h)
  {
  }

  lemma BeginCloseInv(o: Output, reason: CloseReason, i: nat, h: Shared)
    requires ThreadInv(o, i, h)
    requires o.inLoop <==> reason.AfterFailure?
    requires o.paused <==> reason.AfterPause?
    requires !o.command.OpenIt?
    requires o.command.Reopen? ==> reason.ForReopen? || reason.ForClose?
    requires reason.ForClose? ==> o.command.CloseIt? || o.command.Reopen?
    requires reason.ForDisable? ==> o.command.Disable?
    requires reason.ForReopen? ==> o.command.Reopen? && !o.fixedFormat
    ensures StepInv(o, BeginDeviceClose(o, reason), i, h)
  {
    ContiguousFrame(o, BeginDeviceClose(o, reason), i, h);
    hide Contiguous;
  }

  lemma FinishInv(o: Output, next: AfterNotify, i: nat, h: Shared)
    requires ThreadInv(o, i, h) && !o.inLoop && (o.paused <==> next.ToPause?)
    requires next.ToPause? ==> o.open
    requires o.open && o.command.Cancel? ==> o.current == None && o.run == []
    requires o.command.CloseIt? || o.command.Disable? ==> !o.open
    requires o.open && o.command.Pause? ==> o.paused
    ensures StepInv(o, Finish(o, next), i, h)
  {
    ContiguousFrame(o, Finish(o, next), i, h);
    hide Contiguous;
  }

  lemma EnterDeviceInv(o: Output, i: nat, h: Shared, work: Command)
    requires ThreadInv(o, i, h) && !o.inLoop && !o.paused
    requires !o.command.NoCommand? && !o.command.CloseIt?
    requires if work.OpenIt? then (o.command.OpenIt? || o.command.Reopen?) && !o.open && o.hasPipe
             else o.command == work
    requires work.Disable? ==> !o.open
    requires work.Reopen? ==> o.fixedFormat
    requires work.Reopen? || work.Pause? || work.Drain? || work.Cancel? ==> o.open
    requires work.Cancel? ==> o.current == None && o.run == []
    ensures StepInv(o, o.(thread := InDevice(work)), i, h)
  {
    ContiguousFrame(o, o.(thread := InDevice(work)), i, h);
    hide Contiguous;
  }

  /** CANCEL forgets the current chunk and with it the run. */
  lemma ForgetInv(o: Output, i: nat, h: Shared)
    requires ThreadInv(o, i, h) && o.thread == PlayReturn && o.command.Cancel?
    ensures ThreadInv(o.(current := None, run := [], origin := h.base), i, h)
  {
    ContiguousFrame(o, o.(current := None, run := [], origin := h.base), i, h);
    hide Contiguous;
  }

  lemma RunCommandInv(o: Output, i: nat, h: Shared)
    requires ThreadInv(o, i, h) && o.thread == PlayReturn && o.command != NoCommand
    ensures StepInv(o, RunCommand(o, h.base), i, h)
  {
    assert Flags(o, i, h);
    hide ThreadInv, BeginDeviceClose, Finish;
    match o.command {
      case Enable => EnterDeviceInv(o, i, h, Enable);
      case Disable => if o.open { BeginCloseInv(o, ForDisable, i, h); } else { EnterDeviceInv(o, i, h, Disable); }
      case OpenIt => EnterDeviceInv(o, i, h, OpenIt);
      case Reopen =>
        if o.fixedFormat { EnterDeviceInv(o, i, h, Reopen); } else { BeginCloseInv(o, ForReopen, i, h); }
      case CloseIt => BeginCloseInv(o, ForClose, i, h);
      case Pause => if o.open { EnterDeviceInv(o, i, h, Pause); } else { FinishInv(o, ToPlay, i, h); }
      case Drain => if o.open { EnterDeviceInv(o, i, h, Drain); } else { FinishInv(o, ToHead, i, h); }
      case Cancel =>
        ForgetInv(o, i, h);
        var o' := o.(current := None, run := [], origin := h.base);
        if o.open { EnterDeviceInv(o', i, h, Cancel); } else { FinishInv(o', ToHead, i, h); }
    }
  }

  lemma EndPlayInv(o: Output, i: nat, h: Shared)
    requires ThreadInv(o, i, h) && !o.paused && (o.command.Reopen? ==> o.open)
    ensures StepInv(o, EndPlay(o), i, h)
  {
    ContiguousFrame(o, EndPlay(o), i, h);
    hide Contiguous;
  }

  lemma SleepInv(o: Output, i: nat, h: Shared)
    requires ThreadInv(o, i, h) && o.thread == PlayReturn && o.command == NoCommand
    requires o.open && o.allowPlay ==> GetNextChunk(o, h.pipe) == None
    ensures StepInv(o, o.(woken := false, thread := Waiting(false)), i, h)
  {
    ContiguousFrame(o, o.(woken := false, thread := Waiting(false)), i, h);
    hide Contiguous;
  }

  lemma PlayCheckInv(o: Output, i: nat, h: Shared)
    requires ValidShared(h) && ThreadInv(o, i, h) && i !in Locked(h.player) && o.thread == PlayReturn
    ensures StepInv(o, PlayCheck(o, h.pipe, h.base), i, h)
  {
    assert Flags(o, i, h);
    hide RunCommand, ThreadInv, StartChunk, EndPlay, GetNextChunk;
    if o.open && o.allowPlay && GetNextChunk(o, h.pipe).Some? {
      if o.command == NoCommand {
        StartChunkInv(o, i, h);
      } else {
        EndPlayInv(o, i, h);
      }
    } else if o.command == NoCommand {
      SleepInv(o, i, h);
    } else {
      RunCommandInv(o, i, h);
    }
  }

  lemma LoopHeadInv(o: Output, i: nat, h: Shared)
    requires ValidShared(h) && ThreadInv(o, i, h) && i !in Locked(h.player) && o.thread == PlayReturn
    ensures StepInv(o, LoopHead(o, h.pipe, h.base), i, h)
  {
    hide RunCommand, PlayCheck, StepInv;
    if o.command != NoCommand { RunCommandInv(o, i, h); } else { PlayCheckInv(o, i, h); }
  }

  lemma LeavesPause(o: Output, i: nat, h: Shared)
    requires ThreadInv(o, i, h) && (o.thread.PauseLoop? ==> o.command != NoCommand)
    requires o.thread != Notifying(ToPause)
    ensures !(o.open && o.paused && o.command == NoCommand)
  {
  }

  lemma AdvancesFromHead(o: Output, o': Output, h: Shared)
    requires Advances(Back(o.(paused := false)), o', h) && !(o.open && o.paused && o.command == NoCommand)
    ensures Advances(o, o', h)
  {
  }

  /** A thread that reaches the head of its loop may as well have come from Play(). */
  lemma AtHeadInv(o: Output, i: nat, h: Shared)
    requires ValidShared(h) && ThreadInv(o, i, h) && i !in Locked(h.player)
    requires o.thread.Waiting? || o.thread.PlayReturn? || o.thread == Notifying(ToHead) ||
             o.thread == Notifying(ToPlay) || o.thread.PauseLoop? || o.thread == ClosingDevice(AfterPause)
    requires o.thread.PauseLoop? ==> o.command != NoCommand
    ensures StepInv(o, LoopHead(Back(o.(paused := false)), h.pipe, h.base), i, h)
    ensures StepInv(o, PlayCheck(Back(o.(paused := false)), h.pipe, h.base), i, h)
  {
    hide LoopHead, PlayCheck;
    var head := Back(o.(paused := false));
    assert ThreadInv(head, i, h) by { ContiguousFrame(o, head, i, h); }
    LoopHeadInv(head, i, h);
    PlayCheckInv(head, i, h);
    LeavesPause(o, i, h);
    hide ThreadInv, Advances;
    AdvancesFromHead(o, LoopHead(head, h.pipe, h.base), h);
    AdvancesFromHead(o, PlayCheck(head, h.pipe, h.base), h);
  }

  lemma OpenedInv(o: Output, i: nat, h: Shared, ok: bool)
    requires ThreadInv(o, i, h) && o.thread == InDevice(OpenIt)
    ensures StepInv(o, DeviceDone(o, OpenIt, h.base, ok), i, h)
  {
    ContiguousFrame(o, DeviceDone(o, OpenIt, h.base, ok), i, h);
    hide Contiguous;
  }

  lemma PausedInv(o: Output, i: nat, h: Shared)
    requires ThreadInv(o, i, h) && o.thread == InDevice(Pause)
    ensures StepInv(o, Finish(o.(paused := true), ToPause), i, h)
  {
    ContiguousFrame(o, Finish(o.(paused := true), ToPause), i, h);
    hide Contiguous;
  }

  lemma DeviceDoneInv(o: Output, i: nat, h: Shared, ok: bool)
    requires ThreadInv(o, i, h) && o.thread.InDevice?
    ensures StepInv(o, DeviceDone(o, o.thread.work, h.base, ok), i, h)
  {
    assert Flags(o, i, h);
    hide ThreadInv, BeginDeviceClose, Finish;
    match o.thread.work {
      case Reopen => if ok { FinishInv(o, ToPlay, i, h); } else { BeginCloseInv(o, ForClose, i, h); }
      case Drain => FinishInv(o, ToHead, i, h);
      case Cancel => FinishInv(o, ToHead, i, h);
      case Enable => FinishInv(o, ToPlay, i, h);
      case Disable => FinishInv(o, ToPlay, i, h);
      case Pause => PausedInv(o, i, h);
      case OpenIt => OpenedInv(o, i, h, ok);
      case _ =>
    }
  }

  lemma CloseDoneInv(o: Output, i: nat, h: Shared)
    requires ValidShared(h) && ThreadInv(o, i, h) && i !in Locked(h.player) && o.thread.ClosingDevice?
    ensures StepInv(o, CloseDone(o, o.thread.reason, h.pipe, h.base), i, h)
  {
    assert Flags(o, i, h);
    hide LoopHead, Finish, EndPlay;
    match o.thread.reason {
      case AfterPause => AtHeadInv(o, i, h);
      case ForClose => FinishInv(o, ToPlay, i, h);
      case AfterFailure => EndPlayInv(o, i, h);
      case ForDisable => EnterDeviceInv(o, i, h, Disable);
      case ForReopen =>
        ContiguousFrame(o, CloseDone(o, ForReopen, h.pipe, h.base), i, h);
    }
    hide Contiguous;
  }

  lemma ChunkDoneInv(o: Output, i: nat, h: Shared, ok: bool)
    requires ValidShared(h) && ThreadInv(o, i, h) && i !in Locked(h.player) && o.thread.Playing? && !o.thread.delayed
    ensures StepInv(o, ChunkDone(o, o.thread.chunk, h.pipe, h.base, ok), i, h)
  {
    NextChunkFollowsRun(o, i, h);
    if ok && GetNextChunk(o, h.pipe).Some? && o.command == NoCommand {
      StartChunkInv(o, i, h);
    } else {
      ContiguousFrame(o, ChunkDone(o, o.thread.chunk, h.pipe, h.base, ok), i, h);
    }
  }

  lemma PauseDoneInv(o: Output, i: nat, h: Shared, ok: bool)
    requires ValidShared(h) && ThreadInv(o, i, h) && i !in Locked(h.player) && o.thread == PauseLoop(false)
    ensures StepInv(o, PauseDone(o, h.pipe, h.base, ok), i, h)
  {
    hide LoopHead, BeginDeviceClose;
    if !ok { BeginCloseInv(o, AfterPause, i, h); }
    else if o.command != NoCommand { AtHeadInv(o, i, h); }
  }

  lemma NotifyDoneInv(o: Output, i: nat, h: Shared)
    requires ValidShared(h) && ThreadInv(o, i, h) && i !in Locked(h.player) && o.thread.Notifying?
    ensures StepInv(o, NotifyDone(o, o.thread.next, h.pipe, h.base), i, h)
  {
    hide LoopHead, PlayCheck;
    if o.thread.next.ToPause? {
      ContiguousFrame(o, o.(thread := PauseLoop(false)), i, h);
    } else {
      AtHeadInv(o, i, h);
      assert o.(paused := false) == o;
    }
  }

  /** Beginning or ending a delay changes nothing but the state of the thread. */
  lemma PlayDelayInv(o: Output, i: nat, h: Shared, delayed: bool)
    requires ThreadInv(o, i, h) && o.thread.Playing?
    ensures StepInv(o, o.(thread := Playing(o.thread.chunk, delayed)), i, h)
  {
    ContiguousFrame(o, o.(thread := Playing(o.thread.chunk, delayed)), i, h);
    hide Contiguous;
  }

  lemma PauseDelayInv(o: Output, i: nat, h: Shared, delayed: bool)
    requires ThreadInv(o, i, h) && (o.thread.PauseLoop? || o.thread == Notifying(ToPause)) && o.command != Reopen
    ensures StepInv(o, o.(thread := PauseLoop(delayed)), i, h)
  {
    ContiguousFrame(o, o.(thread := PauseLoop(delayed)), i, h);
    hide Contiguous;
  }

  lemma DelayDoneInv(o: Output, i: nat, h: Shared)
    requires ValidShared(h) && ThreadInv(o, i, h) && i !in Locked(h.player)
    requires o.thread.Playing? || o.thread.PauseLoop?
    ensures StepInv(o, DelayDone(o, h.pipe, h.base), i, h)
  {
    assert Flags(o, i, h);
    hide LoopHead, EndPlay, ThreadInv;
    if o.thread.Playing? {
      PlayDelayInv(o, i, h, false);
      EndPlayInv(o, i, h);
    } else if o.command == NoCommand {
      PauseDelayInv(o, i, h, false);
    } else {
      AtHeadInv(o, i, h);
    }
  }

  lemma BeginDelayInv(o: Output, i: nat, h: Shared)
    requires OutputInv(o, i, h) && CanDelay(o) && i !in Locked(h.player)
    ensures OutputInv(BeginDelay(o), i, h)
  {
    assert Flags(o, i, h);
    hide ThreadInv;
    if o.thread.Playing? {
      PlayDelayInv(o, i, h, true);
    } else {
      PauseDelayInv(o, i, h, true);
    }
    AdvancesKeepsPosition(o, BeginDelay(o), i, h);
  }

  lemma ThreadStepInv(o: Output, i: nat, h: Shared, ok: bool)
    requires ValidShared(h) && OutputInv(o, i, h) && i !in Locked(h.player)
    ensures OutputInv(ThreadStep(o, h.pipe, h.base, ok), i, h)
  {
    hide DeviceDone, CloseDone, ChunkDone, PauseDone, NotifyDone, DelayDone, LoopHead;
    var o' := ThreadStep(o, h.pipe, h.base, ok);
    match o.thread {
      case Playing(_, delayed) => if delayed { DelayDoneInv(o, i, h); } else { ChunkDoneInv(o, i, h, ok); }
      case InDevice(_) => DeviceDoneInv(o, i, h, ok);
      case ClosingDevice(_) => CloseDoneInv(o, i, h);
      case PauseLoop(delayed) => if delayed { DelayDoneInv(o, i, h); } else { PauseDoneInv(o, i, h, ok); }
      case Notifying(_) => NotifyDoneInv(o, i, h);
      case _ =>
        AtHeadInv(o, i, h);
        assert o.(paused := false) == o;
    }
    AdvancesKeepsPosition(o, o', i, h);
  }

  lemma ThreadAssertsHold(o: Output, i: nat, h: Shared, ok: bool)
    requires ValidShared(h) && OutputInv(o, i, h) && i !in Locked(h.player)
    ensures ThreadAsserts(o, h.pipe, ok)
  {
  }

  // ---------------------------------------------------------------------------------------
  // Player steps

  /** The player may go to `p` as far as output `i` is concerned. */
  ghost predicate MayMove(o: Output, i: nat, h: Shared, p: Player) {
    && Position(o, i, h.(player := p))
    && (h.player.Sync? && h.player.who == i && !(p.Sync? && p.who == i) ==> o.command == NoCommand)
    && ((h.player.ClearTail? && i in h.player.locked) == (p.ClearTail? && i in p.locked))
    && (CallOutstanding(h.player, i) ==> CallOutstanding(p, i))
  }

  lemma MoveInv(o: Output, i: nat, h: Shared, p: Player)
    requires OutputInv(o, i, h) && MayMove(o, i, h, p)
    ensures OutputInv(o, i, h.(player := p))
  {
  }

  lemma MoveAll(s: System, p: Player)
    requires Inv(s) && Ownership(s.shared.(player := p), s.pool)
    requires forall i :: 0 <= i < |s.outs| ==> MayMove(s.outs[i], i, s.shared, p)
    ensures Inv(SetPlayer(s, p))
  {
    hide OutputInv, MayMove;
    forall i | 0 <= i < |s.outs| ensures OutputInv(s.outs[i], i, s.shared.(player := p)) {
      MoveInv(s.outs[i], i, s.shared, p);
    }
  }

  lemma SetOutAll(s: System, k: nat, o: Output, p: Player)
    requires Inv(s) && Ownership(s.shared.(player := p), s.pool) && k < |s.outs|
    requires OutputInv(o, k, s.shared.(player := p))
    requires forall i :: 0 <= i < |s.outs| && i != k ==> MayMove(s.outs[i], i, s.shared, p)
    ensures Inv(SetOut(s, k, o, p))
  {
    hide OutputInv, MayMove;
    forall i | 0 <= i < |s.outs| && i != k ensures OutputInv(s.outs[i], i, s.shared.(player := p)) {
      MoveInv(s.outs[i], i, s.shared, p);
    }
  }

  /** AudioOutput::Open(): the player clears the chunk pointer of a closed or idle output. */
  function Drop(o: Output, base: nat): Output {
    if o.open then o.(current := None, run := [], origin := base, hasPipe := true)
    else o.(current := None, hasPipe := true)
  }

  lemma DropInv(o: Output, k: nat, h: Shared)
    requires ThreadInv(o, k, h) && o.command != Reopen && !h.player.ClearTail?
    requires o.open ==> h.pipe == [] || o.paused
    requires o.thread != Waiting(false) || h.pipe == [] || !o.open
    ensures ThreadInv(Drop(o, h.base), k, h)
  {
    ContiguousFrame(o, Drop(o, h.base), k, h);
    hide Contiguous;
  }

  /** A command may be sent: the one before is finished, or the output is closed. */
  ghost predicate MaySend(o: Output, k: nat, h: Shared, cmd: Command, p: Player) {
    && ThreadInv(o, k, h) && Quiet(o) && !h.player.ClearTail? && !p.ClearTail?
    && !(h.player.Sync? && h.player.who == k) && !cmd.NoCommand?
    && (cmd.Enable? || cmd.Disable? || cmd.OpenIt? || cmd.Reopen? || cmd.CloseIt? ==> p.Sync? && p.who == k)
    && (cmd.OpenIt? ==> !o.open && o.hasPipe)
    && (cmd.Reopen? ==> o.open && h.pipe == [] && (o.paused ==> o.thread == PauseLoop(true)))
    && (cmd.Drain? ==> h.pipe == [])
  }

  /** An output that is free to take a command is in no plugin call for another one. */
  lemma NotInPlugin(o: Output, k: nat, h: Shared)
    requires Working(o, k, h) && Pointers(o, h) && Quiet(o) && !(h.player.Sync? && h.player.who == k)
    ensures !o.thread.InDevice?
    ensures o.thread.ClosingDevice? ==> o.thread.reason.AfterFailure? || o.thread.reason.AfterPause?
  {
    assert !Synchronous(o.command);
    match o.thread {
      case InDevice(work) =>
        match work {
          case NoCommand => case Enable => case Disable => case OpenIt => case Reopen =>
          case CloseIt => case Pause => case Drain => case Cancel =>
        }
      case ClosingDevice(reason) =>
      case _ =>
    }
  }

  lemma SendBusy(o: Output, k: nat, h: Shared, cmd: Command, p: Player)
    requires MaySend(o, k, h, cmd, p)
    ensures Busy(Send(o, cmd))
  {
    NotInPlugin(o, k, h);
    hide Flags, Contiguous;
  }

  lemma SendWorking(o: Output, k: nat, h: Shared, cmd: Command, p: Player)
    requires MaySend(o, k, h, cmd, p)
    ensures Working(Send(o, cmd), k, h.(player := p))
  {
    SendBusy(o, k, h, cmd, p);
    hide Pointers, Awake, Contiguous, Origin, Busy;
  }

  lemma SendFlags(o: Output, k: nat, h: Shared, cmd: Command, p: Player)
    requires MaySend(o, k, h, cmd, p)
    ensures Pointers(Send(o, cmd), h.(player := p)) && Origin(Send(o, cmd), h.(player := p))
    ensures Awake(Send(o, cmd), k, h.(player := p))
  {
    hide Working, Contiguous;
  }

  /** A command reaches an output that has finished the one before, or is closed. */
  lemma SendInv(o: Output, k: nat, h: Shared, cmd: Command, p: Player)
    requires MaySend(o, k, h, cmd, p)
    ensures ThreadInv(Send(o, cmd), k, h.(player := p))
  {
    SendWorking(o, k, h, cmd, p);
    SendFlags(o, k, h, cmd, p);
    ContiguousFrame(o, Send(o, cmd), k, h);
    hide Pointers, Working, Awake, Origin;
  }

  lemma UpdateThread(s: System, a: Action)
    requires Inv(s) && Enabled(s, a) && Disciplined(s, a)
    requires a.UpdateOpen? || a.UpdateReopen? || a.UpdateUnpause? || a.UpdateClose? || a.SetEnabled?
    ensures ThreadInv(Apply(s, a).outs[a.i], a.i, s.shared.(player := Sync(a.i, SyncToIdle)))
  {
    var o := s.outs[a.i];
    var h := s.shared;
    var p := Sync(a.i, SyncToIdle);
    assert OutputInv(o, a.i, h);
    hide Ownership, ValidShared;
    match a {
      case UpdateOpen(_) => DropInv(o, a.i, h); SendInv(Drop(o, h.base), a.i, h, OpenIt, p);
      case UpdateReopen(_) => DropInv(o, a.i, h); SendInv(Drop(o, h.base), a.i, h, Reopen, p);
      case UpdateUnpause(_) => DropInv(o, a.i, h); SendInv(Drop(o, h.base), a.i, h, Cancel, p);
      case UpdateClose(_) => SendInv(o, a.i, h, CloseIt, p);
      case SetEnabled(_, on) => SendInv(o, a.i, h, if on then Enable else Disable, p);
    }
  }

  lemma UpdatePosition(s: System, a: Action)
    requires Inv(s) && Enabled(s, a) && Disciplined(s, a)
    requires a.UpdateOpen? || a.UpdateReopen? || a.UpdateUnpause? || a.UpdateClose? || a.SetEnabled?
    ensures Position(Apply(s, a).outs[a.i], a.i, s.shared.(player := Sync(a.i, SyncToIdle)))
    ensures !Apply(s, a).fault
  {
    assert OutputInv(s.outs[a.i], a.i, s.shared);
    hide Ownership, ValidShared, Contiguous, Awake, Origin;
  }

  lemma UpdateInv(s: System, a: Action)
    requires Inv(s) && Enabled(s, a) && Disciplined(s, a)
    requires a.UpdateOpen? || a.UpdateReopen? || a.UpdateUnpause? || a.UpdateClose? || a.SetEnabled?
    ensures Inv(Apply(s, a))
  {
    UpdateThread(s, a);
    UpdatePosition(s, a);
    hide ThreadInv;
    SetOutAll(s, a.i, Apply(s, a).outs[a.i], Sync(a.i, SyncToIdle));
  }

  lemma PushInv(s: System, c: Chunk)
    requires Inv(s) && Enabled(s, Push(c))
    ensures Inv(Apply(s, Push(c)))
  {
    var h := s.shared;
    var h' := h.(pipe := h.pipe + [c], log := h.log + [c], player := NotifyPlay(0));
    forall i | 0 <= i < |s.outs| ensures OutputInv(s.outs[i], i, h') {
      var o := s.outs[i];
      assert h'.log[o.start..o.start + |o.run|] == h.log[o.start..o.start + |o.run|];
    }
  }

  lemma NotifyOne(o: Output, k: nat, h: Shared)
    requires OutputInv(o, k, h) && h.player == NotifyPlay(k)
    ensures OutputInv(LockPlay(o), k, h.(player := NotifyPlay(k + 1)))
  {
    var h' := h.(player := NotifyPlay(k + 1));
    NotifyFrame(o, k, h);
    assert Position(LockPlay(o), k, h') && Origin(LockPlay(o), h');
    hide Contiguous, Working, Pointers, Position, Origin;
  }

  lemma NotifyFrame(o: Output, k: nat, h: Shared)
    requires ThreadInv(o, k, h) && h.player == NotifyPlay(k)
    ensures var o', h' := LockPlay(o), h.(player := NotifyPlay(k + 1));
            Contiguous(o', k, h') && Working(o', k, h') && Pointers(o', h')
  {
    hide Awake, Origin;
  }

  lemma NotifyOneInv(s: System, k: nat)
    requires Inv(s) && s.shared.player == NotifyPlay(k) && k < |s.outs|
    ensures Inv(SetOut(s, k, LockPlay(s.outs[k]), NotifyPlay(k + 1)))
  {
    assert OutputInv(s.outs[k], k, s.shared);
    NotifyOne(s.outs[k], k, s.shared);
    hide ThreadInv, LockPlay;
    SetOutAll(s, k, LockPlay(s.outs[k]), NotifyPlay(k + 1));
  }

  lemma NotifyPlayInv(s: System)
    requires Inv(s) && s.shared.player.NotifyPlay?
    ensures Inv(PlayerStep(s)) && PlayerAsserts(s)
  {
    hide ThreadInv, LockPlay;
    var k := s.shared.player.next;
    if k < |s.outs| {
      NotifyOneInv(s, k);
    } else {
      MoveAll(s, Idle);
    }
  }

  /** The head may leave the pipe: output `i` does not point to it, and the player goes to `p`. */
  ghost predicate MayShift(o: Output, i: nat, h: Shared, p: Player) {
    && ValidShared(h) && h.pipe != [] && OutputInv(o, i, h)
    && o.current != Some(h.pipe[0])
    && (o.open && o.current == None ==>
        o.run == [] || (h.player.ClearTail? && i in h.player.locked))
    && (o.open && o.current == None && o.allowPlay ==> h.player.ClearTail? && |h.pipe| == 1 && o.run != [])
    && !h.player.Sync? && !p.Sync? && !h.player.NotifyPlay? && !p.ClearTail?
    && (o.open ==> o.command != Drain)
  }

  lemma ShiftPointers(o: Output, i: nat, h: Shared, p: Player)
    requires MayShift(o, i, h, p)
    ensures Pointers(o, Shift(h).(player := p)) && Contiguous(o, i, Shift(h).(player := p))
    ensures Origin(o, Shift(h).(player := p))
  {
    hide Working, Awake, Position;
  }

  lemma ShiftWorking(o: Output, i: nat, h: Shared, p: Player)
    requires MayShift(o, i, h, p)
    ensures Working(o, i, Shift(h).(player := p))
  {
    hide Pointers, Awake, Position, Contiguous;
  }

  lemma ShiftAwake(o: Output, i: nat, h: Shared, p: Player)
    requires MayShift(o, i, h, p)
    ensures Awake(o, i, Shift(h).(player := p))
  {
    hide Working;
    if o.current.Some? {
      var k := o.start + |o.run| - 1 - h.base;
      IndexIsUnique(h.pipe, k);
      IndexIsUnique(h.pipe[1..], k - 1);
    }
  }

  /** The head leaves the pipe; no output still points to it. */
  lemma ShiftInv(o: Output, i: nat, h: Shared, p: Player)
    requires MayShift(o, i, h, p) && Position(o, i, Shift(h).(player := p))
    ensures OutputInv(o, i, Shift(h).(player := p))
  {
    hide MayShift, Pointers, Working, Awake, Contiguous, Origin, Position;
    ShiftPointers(o, i, h, p);
    ShiftWorking(o, i, h, p);
    ShiftAwake(o, i, h, p);
  }

  lemma CheckScanInv(s: System)
    requires Inv(s) && s.shared.player.CheckScan?
    ensures Inv(PlayerStep(s)) && PlayerAsserts(s)
  {
    var h := s.shared;
    var k := h.player.next;
    if h.pipe == [] || (k < |s.outs| && !Consumed(s.outs[k], h.pipe)) {
      MoveAll(s, Idle);
    } else if k < |s.outs| {
      MoveAll(s, CheckScan(k + 1));
    } else if |h.pipe| == 1 {
      MoveAll(s, ClearTail(0, {}));
    } else {
      ShiftHeadInv(s);
    }
  }

  lemma ShiftHeadOne(o: Output, i: nat, h: Shared)
    requires ValidShared(h) && h.player.CheckScan? && i < h.player.next && |h.pipe| > 1 && OutputInv(o, i, h)
    ensures OutputInv(o, i, Shift(h).(player := ReturnChunk(h.pipe[0])))
  {
    assert MayShift(o, i, h, ReturnChunk(h.pipe[0]));
    hide MayShift;
    ShiftInv(o, i, h, ReturnChunk(h.pipe[0]));
  }

  lemma ShiftHeadInv(s: System)
    requires Inv(s) && s.shared.player.CheckScan? && s.shared.player.next >= |s.outs| && |s.shared.pipe| > 1
    ensures Inv(PlayerStep(s)) && PlayerAsserts(s)
  {
    var h := s.shared;
    forall i | 0 <= i < |s.outs|
      ensures OutputInv(s.outs[i], i, Shift(h).(player := ReturnChunk(h.pipe[0])))
    {
      ShiftHeadOne(s.outs[i], i, h);
    }
    hide OutputInv;
  }

  /** ClearTailChunk() for one open output, whose mutex stays locked. */
  lemma ClearTailOne(o: Output, k: nat, h: Shared)
    requires ValidShared(h) && OutputInv(o, k, h) && o.open
    requires h.player.ClearTail? && h.player.next == k
    ensures o.current == Some(h.pipe[0]) && o.finished
    ensures OutputInv(o.(current := None), k, h.(player := ClearTail(k + 1, h.player.locked + {k})))
  {
  }

  lemma ClearTailInv(s: System)
    requires Inv(s) && s.shared.player.ClearTail?
    ensures Inv(PlayerStep(s)) && PlayerAsserts(s)
  {
    var h := s.shared;
    var k := h.player.next;
    var locked := h.player.locked;
    if k < |s.outs| && s.outs[k].open {
      ClearTailOne(s.outs[k], k, h);
      SetOutAll(s, k, s.outs[k].(current := None), ClearTail(k + 1, locked + {k}));
    } else if k < |s.outs| {
      MoveAll(s, ClearTail(k + 1, locked));
    } else {
      ShiftTailInv(s);
    }
  }

  lemma ShiftTailOne(o: Output, i: nat, h: Shared)
    requires ValidShared(h) && h.player.ClearTail? && i < h.player.next && OutputInv(o, i, h)
    ensures OutputInv(o, i, Shift(h).(player := Unlock(h.pipe[0], 0, h.player.locked)))
  {
    assert MayShift(o, i, h, Unlock(h.pipe[0], 0, h.player.locked));
    hide MayShift;
    ShiftInv(o, i, h, Unlock(h.pipe[0], 0, h.player.locked));
  }

  lemma ShiftTailInv(s: System)
    requires Inv(s) && s.shared.player.ClearTail? && s.shared.player.next >= |s.outs|
    ensures Inv(PlayerStep(s)) && PlayerAsserts(s)
  {
    var h := s.shared;
    forall i | 0 <= i < |s.outs|
      ensures OutputInv(s.outs[i], i, Shift(h).(player := Unlock(h.pipe[0], 0, h.player.locked)))
    {
      ShiftTailOne(s.outs[i], i, h);
    }
    hide OutputInv;
  }

  lemma ReturnInv(s: System)
    requires Inv(s) && (s.shared.player.Unlock? || s.shared.player.ReturnChunk?)
    ensures Inv(PlayerStep(s))
  {
    var h := s.shared;
    match h.player {
      case Unlock(c, k, locked) =>
        MoveAll(s, if k < |s.outs| then Unlock(c, k + 1, locked - {k}) else ReturnChunk(c));
      case ReturnChunk(c) =>
        var s' := s.(pool := s.pool + {c});
        var p := if h.pipe == [] then Idle else CheckScan(0);
        MoveAll(s, p);
    }
  }

  /** One output gets a command that the player does not wait for at once. */
  lemma SendOneInv(s: System, k: nat, o: Output, cmd: Command, p: Player)
    requires Inv(s) && k < |s.outs| && s.outs[k].open && Quiet(s.outs[k])
    requires o == s.outs[k] || o == s.outs[k].(allowPlay := false)
    requires (s.shared.player == CancelSend(k) && cmd == Cancel && p == CancelSend(k + 1) && !o.allowPlay) ||
             (s.shared.player == PauseSend(k) && cmd == Pause && p == PauseSend(k + 1) && o.allowPlay) ||
             (s.shared.player == DrainSend(k) && cmd == Drain && p == DrainSend(k + 1) && o.allowPlay)
    ensures Inv(SetOut(s, k, Send(o, cmd), p))
  {
    assert ThreadInv(o, k, s.shared) by { hide Position; ContiguousFrame(s.outs[k], o, k, s.shared); }
    SendInv(o, k, s.shared, cmd, p);
    hide ThreadInv;
    SetOutAll(s, k, Send(o, cmd), p);
  }

  lemma SendAllInv(s: System)
    requires Inv(s)
    requires s.shared.player.CancelSend? || s.shared.player.PauseSend? || s.shared.player.DrainSend?
    ensures Inv(PlayerStep(s)) && PlayerAsserts(s)
  {
    hide ThreadInv, Send;
    var k := s.shared.player.next;
    if k >= |s.outs| || !s.outs[k].open {
      MoveAll(s, PlayerStep(s).shared.player);
    } else if s.shared.player.CancelSend? {
      SendOneInv(s, k, s.outs[k].(allowPlay := false), Cancel, CancelSend(k + 1));
    } else if s.shared.player.PauseSend? {
      SendOneInv(s, k, s.outs[k], Pause, PauseSend(k + 1));
    } else {
      SendOneInv(s, k, s.outs[k], Drain, DrainSend(k + 1));
    }
  }

  lemma WaitAllInv(s: System)
    requires Inv(s)
    requires s.shared.player.CancelWait? || s.shared.player.PauseWait? || s.shared.player.DrainWait?
    ensures Inv(PlayerStep(s))
  {
    MoveAll(s, PlayerStep(s).shared.player);
  }

  lemma ClearInv(s: System)
    requires Inv(s) && (s.shared.player.CancelClear? || s.shared.player.CloseClear?)
    ensures Inv(PlayerStep(s))
  {
    var h := s.shared;
    if h.pipe == [] {
      MoveAll(s, if h.player.CancelClear? then AllowPlay(0) else Idle);
    } else {
      ClearHeadInv(s);
    }
  }

  lemma ClearHeadInv(s: System)
    requires Inv(s) && (s.shared.player.CancelClear? || s.shared.player.CloseClear?) && s.shared.pipe != []
    ensures Inv(PlayerStep(s))
  {
    forall i | 0 <= i < |s.outs| ensures OutputInv(s.outs[i], i, Shift(s.shared)) {
      ClearOne(s.outs[i], i, s.shared);
    }
    hide OutputInv;
  }

  lemma ClearOne(o: Output, i: nat, h: Shared)
    requires ValidShared(h) && h.pipe != [] && OutputInv(o, i, h) && (h.player.CancelClear? || h.player.CloseClear?)
    ensures OutputInv(o, i, Shift(h))
  {
    assert MayShift(o, i, h, h.player);
    hide MayShift;
    ShiftInv(o, i, h, h.player);
  }

  lemma AllowOne(o: Output, k: nat, h: Shared)
    requires OutputInv(o, k, h) && h.player == AllowPlay(k)
    ensures OutputInv(LockAllowPlay(o, h.base), k, h.(player := AllowPlay(k + 1)))
  {
    var h' := h.(player := AllowPlay(k + 1));
    assert Contiguous(LockAllowPlay(o, h.base), k, h') && Working(LockAllowPlay(o, h.base), k, h');
    hide Contiguous, Working;
  }

  lemma AllowPlayInv(s: System)
    requires Inv(s) && s.shared.player.AllowPlay?
    ensures Inv(PlayerStep(s))
  {
    var k := s.shared.player.next;
    if k < |s.outs| {
      var o := LockAllowPlay(s.outs[k], s.shared.base);
      assert OutputInv(o, k, s.shared.(player := AllowPlay(k + 1))) by {
        AllowOne(s.outs[k], k, s.shared);
      }
      hide OutputInv;
      SetOutAll(s, k, o, AllowPlay(k + 1));
    } else {
      MoveAll(s, Idle);
    }
  }

  lemma CloseOneInv(s: System, k: nat)
    requires Inv(s) && s.shared.player == CloseAll(k) && k < |s.outs| && s.outs[k].open
    ensures Inv(SetOut(s, k, Send(s.outs[k], CloseIt), Sync(k, SyncToCloseAll)))
  {
    hide ThreadInv;
    SendInv(s.outs[k], k, s.shared, CloseIt, Sync(k, SyncToCloseAll));
    SetOutAll(s, k, Send(s.outs[k], CloseIt), Sync(k, SyncToCloseAll));
  }

  lemma CloseAllInv(s: System)
    requires Inv(s) && s.shared.player.CloseAll?
    ensures Inv(PlayerStep(s)) && PlayerAsserts(s)
  {
    hide ThreadInv, Send;
    var k := s.shared.player.next;
    if k < |s.outs| && s.outs[k].open {
      CloseOneInv(s, k);
    } else {
      MoveAll(s, if k < |s.outs| then CloseAll(k + 1) else CloseClear);
    }
  }

  lemma SyncInv(s: System)
    requires Inv(s) && s.shared.player.Sync?
    ensures Inv(PlayerStep(s))
  {
    hide ThreadInv;
    var k := s.shared.player.who;
    if k >= |s.outs| || s.outs[k].command == NoCommand {
      MoveAll(s, if s.shared.player.resume == SyncToIdle then Idle else CloseAll(k + 1));
    }
  }

  lemma PlayerStepInv(s: System)
    requires Inv(s)
    ensures Inv(PlayerStep(s)) && PlayerAsserts(s)
  {
    hide OutputInv;
    match s.shared.player {
      case Idle =>
      case Sync(_, _) => SyncInv(s);
      case NotifyPlay(_) => NotifyPlayInv(s);
      case CheckScan(_) => CheckScanInv(s);
      case ClearTail(_, _) => ClearTailInv(s);
      case Unlock(_, _, _) => ReturnInv(s);
      case ReturnChunk(_) => ReturnInv(s);
      case CancelSend(_) => SendAllInv(s);
      case PauseSend(_) => SendAllInv(s);
      case DrainSend(_) => SendAllInv(s);
      case CancelWait(_) => WaitAllInv(s);
      case PauseWait(_) => WaitAllInv(s);
      case DrainWait(_) => WaitAllInv(s);
      case CancelClear => ClearInv(s);
      case CloseClear => ClearInv(s);
      case AllowPlay(_) => AllowPlayInv(s);
      case CloseAll(_) => CloseAllInv(s);
    }
  }

  lemma BeginInv(s: System, a: Action)
    requires Inv(s) && Enabled(s, a)
    requires a.BeginCheck? || a.BeginCancel? || a.BeginPause? || a.BeginDrain? || a.BeginClose?
    ensures Inv(Apply(s, a))
  {
    MoveAll(s, Apply(s, a).shared.player);
  }

  lemma ThreadRunsInv(s: System, i: nat, ok: bool)
    requires Inv(s) && Enabled(s, ThreadRuns(i, ok))
    ensures Inv(Apply(s, ThreadRuns(i, ok)))
  {
    ThreadStepInv(s.outs[i], i, s.shared, ok);
    ThreadAssertsHold(s.outs[i], i, s.shared, ok);
    hide OutputInv, ThreadStep, ThreadAsserts;
  }

  lemma ThreadDelaysInv(s: System, i: nat)
    requires Inv(s) && Enabled(s, ThreadDelays(i))
    ensures Inv(Apply(s, ThreadDelays(i)))
  {
    BeginDelayInv(s.outs[i], i, s.shared);
    hide OutputInv, BeginDelay;
  }

  lemma StepKeepsInv(s: System, a: Action)
    requires Inv(s) && Enabled(s, a) && Disciplined(s, a)
    ensures Inv(Apply(s, a))
  {
    hide OutputInv, ThreadStep, PlayerStep, ThreadAsserts, PlayerAsserts;
    match a {
      case ThreadRuns(i, ok) => ThreadRunsInv(s, i, ok);
      case ThreadDelays(i) => ThreadDelaysInv(s, i);
      case Allocate(c) =>
      case Push(c) => PushInv(s, c);
      case PlayerRuns => PlayerStepInv(s);
      case BeginCheck => BeginInv(s, a);
      case BeginCancel => BeginInv(s, a);
      case BeginPause => BeginInv(s, a);
      case BeginDrain => BeginInv(s, a);
      case BeginClose => BeginInv(s, a);
      case _ => UpdateInv(s, a);
    }
  }

  lemma {:induction false} RunKeepsInv(trace: seq<System>, actions: seq<Action>, k: nat)
    requires IsDisciplinedRun(trace, actions) && Init(trace[0]) && k < |trace|
    ensures Inv(trace[k])
  {
    if k == 0 {
      InitInv(trace[0]);
    } else {
      RunKeepsInv(trace, actions, k - 1);
      hide Inv, Apply, Enabled, Disciplined;
      StepKeepsInv(trace[k - 1], actions[k - 1]);
    }
  }
}
