/**
 What the commands of the player to the outputs achieve, and where the chunks of the pipe go.
 */
module OutputCommands {
  import opened Common
  import opened OutputPipeline
  import opened OutputSafety
  import opened OutputRuns

  // ---------------------------------------------------------------------------------------
  // A finished command has been carried out

  /** What it means that the command of `o` is finished in `o'`: its call of the plugin has returned. */
  predicate Done(o: Output, o': Output, pipe: seq<Chunk>, ok: bool) {
    match o.command
    case Enable => o.thread == InDevice(Enable) && o'.open == o.open
    case CloseIt => !o'.open && o.thread == ClosingDevice(ForClose)
    case Disable => !o'.open && o.thread == InDevice(Disable)
    case OpenIt => o'.open == ok && o.thread == InDevice(OpenIt)
    case Reopen =>
      if o.thread == ClosingDevice(ForClose) then !o'.open
      else (o.thread == InDevice(if o.fixedFormat && o.open then Reopen else OpenIt)) && o'.open == ok
    case Pause => o'.open == o.open && (o'.open ==> o'.paused && o.thread == InDevice(Pause))
    case Cancel =>
      && !o'.paused && o'.open == o.open
      && (o'.open ==> o'.current == None && o'.run == [] && o.thread == InDevice(Cancel))
    case Drain => o'.open == o.open && (o'.open ==> o'.current == None && pipe == [] && o.thread == InDevice(Drain))
    case NoCommand => true
  }

  /** The command is still pending, or it was one that a closed output can finish at once. */
  predicate AtOnce(o: Output, o': Output) {
    o'.command == NoCommand ==>
      && !o.open && !o'.open && (o.command == Pause || o.command == Drain || o.command == Cancel)
      && o'.thread.Notifying? && o'.thread.next != ToPause
  }

  lemma RunCommandAtOnce(o: Output, base: nat)
    requires o.command != NoCommand
    ensures AtOnce(o, RunCommand(o, base))
  {
  }

  lemma HeadAtOnce(o: Output, pipe: seq<Chunk>, base: nat)
    requires o.command != NoCommand
    ensures AtOnce(o, LoopHead(o, pipe, base)) && AtOnce(o, PlayCheck(o, pipe, base))
  {
    RunCommandAtOnce(o, base);
    assert AtOnce(o, EndPlay(o));
    hide RunCommand, EndPlay, StartChunk, GetNextChunk, AtOnce;
  }

  lemma BackAtOnce(o: Output, pipe: seq<Chunk>, base: nat)
    requires o.command != NoCommand
    ensures AtOnce(o, LoopHead(Back(o), pipe, base)) && AtOnce(o, PlayCheck(Back(o), pipe, base))
    ensures AtOnce(o, LoopHead(Back(o.(paused := false)), pipe, base))
  {
    HeadAtOnce(Back(o), pipe, base);
    HeadAtOnce(Back(o.(paused := false)), pipe, base);
    hide LoopHead, PlayCheck;
  }

  lemma PlayingAtOnce(o: Output, c: Chunk, pipe: seq<Chunk>, base: nat, ok: bool)
    requires o.command != NoCommand
    ensures AtOnce(o, ChunkDone(o, c, pipe, base, ok)) && AtOnce(o, PauseDone(o, pipe, base, ok))
    ensures AtOnce(o, DelayDone(o, pipe, base))
  {
    BackAtOnce(o, pipe, base);
    assert AtOnce(o, EndPlay(o)) && forall reason :: AtOnce(o, BeginDeviceClose(o, reason));
    hide Successor, StartChunk, EndPlay, BeginDeviceClose, LoopHead, AtOnce, Back;
  }

  lemma DeviceDoneDone(o: Output, i: nat, h: Shared, ok: bool)
    requires ValidShared(h) && OutputInv(o, i, h) && o.thread.InDevice?
    ensures DeviceDone(o, o.thread.work, h.base, ok).command == NoCommand ==>
              Done(o, DeviceDone(o, o.thread.work, h.base, ok), h.pipe, ok)
  {
    assert Busy(o) && Pointers(o, h) && Commanded(o, i, h);
    hide Position, Contiguous, Awake, Origin;
    match o.thread.work {
      case NoCommand => case Enable => case Disable => case OpenIt => case Reopen => case CloseIt =>
      case Pause => case Drain => case Cancel =>
    }
  }

  lemma ClosingDone(o: Output, i: nat, h: Shared)
    requires OutputInv(o, i, h) && o.thread.ClosingDevice? && o.command != NoCommand
    ensures CloseDone(o, o.thread.reason, h.pipe, h.base).command == NoCommand ==>
              Done(o, CloseDone(o, o.thread.reason, h.pipe, h.base), h.pipe, true)
  {
    assert Busy(o) && Pointers(o, h);
    BackAtOnce(o, h.pipe, h.base);
    assert EndPlay(o).command == o.command && !Finish(o, ToPlay).open;
    hide OutputInv, LoopHead, EndPlay, Finish, Back;
  }

  lemma AtOnceIsDone(o: Output, o': Output, pipe: seq<Chunk>, ok: bool)
    requires AtOnce(o, o') && o'.command == NoCommand
    requires o'.thread.Notifying? && o'.thread.next != ToPause ==> !o'.paused
    ensures Done(o, o', pipe, ok)
  {
  }

  /**
   A command that an output thread reports as finished has been carried out: a closed or disabled
   output is closed, an open one is paused, cancelled or drained, and opening has succeeded
   exactly if the device says so.
   */
  lemma FinishedMeansDone(o: Output, i: nat, h: Shared, ok: bool)
    requires ValidShared(h) && OutputInv(o, i, h) && i !in Locked(h.player)
    requires o.command != NoCommand && ThreadStep(o, h.pipe, h.base, ok).command == NoCommand
    ensures Done(o, ThreadStep(o, h.pipe, h.base, ok), h.pipe, ok)
  {
    NotifiedIsNotPaused(o, i, h, ok);
    if o.thread.InDevice? {
      hide OutputInv, DeviceDone, Done;
      DeviceDoneDone(o, i, h, ok);
    } else if o.thread.ClosingDevice? {
      hide OutputInv, CloseDone, Done;
      ClosingDone(o, i, h);
      DoneAnyway(o, i, h, ok);
    } else {
      hide OutputInv, ThreadStep, Done, AtOnce;
      ThreadAtOnce(o, h.pipe, h.base, ok);
      AtOnceIsDone(o, ThreadStep(o, h.pipe, h.base, ok), h.pipe, ok);
    }
  }

  lemma ThreadAtOnce(o: Output, pipe: seq<Chunk>, base: nat, ok: bool)
    requires o.command != NoCommand && !o.thread.InDevice? && !o.thread.ClosingDevice?
    ensures AtOnce(o, ThreadStep(o, pipe, base, ok))
  {
    hide LoopHead, PlayCheck, ChunkDone, PauseDone, DelayDone, NotifyDone, DeviceDone, CloseDone, AtOnce, Back;
    HeadAtOnce(o, pipe, base);
    BackAtOnce(o, pipe, base);
    match o.thread {
      case PauseLoop(delayed) => PlayingAtOnce(o, 0, pipe, base, ok);
      case Playing(c, delayed) => PlayingAtOnce(o, c, pipe, base, ok);
      case Notifying(next) => NotifyAtOnce(o, next, pipe, base);
      case _ =>
    }
  }

  lemma NotifyAtOnce(o: Output, next: AfterNotify, pipe: seq<Chunk>, base: nat)
    requires o.command != NoCommand
    ensures AtOnce(o, NotifyDone(o, next, pipe, base))
  {
    BackAtOnce(o, pipe, base);
    hide LoopHead, PlayCheck, Back;
  }

  lemma NotifiedIsNotPaused(o: Output, i: nat, h: Shared, ok: bool)
    requires ValidShared(h) && OutputInv(o, i, h) && i !in Locked(h.player)
    ensures var o' := ThreadStep(o, h.pipe, h.base, ok);
            o'.thread.Notifying? && o'.thread.next != ToPause ==> !o'.paused
  {
    ThreadStepInv(o, i, h, ok);
    var o' := ThreadStep(o, h.pipe, h.base, ok);
    assert Pointers(o', h);
    hide ThreadStep, OutputInv;
  }

  /** The device that is being closed was not being opened. */
  lemma DoneAnyway(o: Output, i: nat, h: Shared, ok: bool)
    requires OutputInv(o, i, h) && o.thread.ClosingDevice?
    requires Done(o, CloseDone(o, o.thread.reason, h.pipe, h.base), h.pipe, true)
    requires CloseDone(o, o.thread.reason, h.pipe, h.base).command == NoCommand
    ensures Done(o, CloseDone(o, o.thread.reason, h.pipe, h.base), h.pipe, ok)
  {
    if o.command == OpenIt {
      OpeningDoesNotClose(o, i, h);
    }
    hide CloseDone, OutputInv;
  }

  lemma OpeningDoesNotClose(o: Output, i: nat, h: Shared)
    requires OutputInv(o, i, h) && o.thread.ClosingDevice? && o.command == OpenIt
    ensures CloseDone(o, o.thread.reason, h.pipe, h.base).command == OpenIt
  {
    assert Busy(o) && Commanded(o, i, h);
    var head := Back(o.(paused := false));
    assert RunCommand(head, h.base) == head.(thread := InDevice(OpenIt));
    hide OutputInv;
  }

  // ---------------------------------------------------------------------------------------
  // Operations of the player

  /** What holds when an operation of the player is over. */
  ghost predicate OperationDone(p: Player, e: System) {
    match p
    case PauseWait(_) => forall i :: 0 <= i < |e.outs| && e.outs[i].open ==> e.outs[i].paused
    case DrainWait(_) => e.shared.pipe == [] && forall i :: 0 <= i < |e.outs| && e.outs[i].open ==> Rested(e.outs[i])
    case AllowPlay(_) =>
      e.shared.pipe == [] && forall i :: 0 <= i < |e.outs| && e.outs[i].open ==> Rested(e.outs[i])
    case CloseClear => e.shared.pipe == [] && forall i :: 0 <= i < |e.outs| ==> !e.outs[i].open
    case NotifyPlay(_) => forall i :: 0 <= i < |e.outs| && e.outs[i].open ==> Told(e.outs[i], e.shared.pipe)
    case _ => true
  }

  /** No command is pending and no chunk is in the output's hands. */
  predicate Rested(o: Output) {
    o.command == NoCommand && o.current == None && o.allowPlay
  }

  /** The output does not sleep while there is something to play. */
  predicate Told(o: Output, pipe: seq<Chunk>) {
    o.thread == Waiting(false) ==> GetNextChunk(o, pipe) == None
  }

  /**
   When Pause() returns, every open output is paused; when Drain() or Cancel() does, the pipe is
   empty and no output has a chunk of it; when Close() does, moreover all are closed; and when
   Play() does, no output sleeps over the chunk.
   */
  lemma OperationsAchieve(s: System)
    requires Inv(s) && s.shared.player != Idle && PlayerStep(s).shared.player == Idle
    ensures OperationDone(s.shared.player, PlayerStep(s))
  {
    PlayerStepInv(s);
    var e := PlayerStep(s);
    forall i | 0 <= i < |e.outs|
      ensures OutputInv(e.outs[i], i, e.shared)
    {
    }
    forall i | 0 <= i < |s.outs|
      ensures OutputInv(s.outs[i], i, s.shared)
    {
    }
    hide Inv, Contiguous, Origin, Commanded, Busy;
    match s.shared.player {
      case PauseWait(k) =>
      case DrainWait(k) =>
      case AllowPlay(k) =>
      case CloseClear =>
      case NotifyPlay(k) =>
      case _ =>
    }
  }

  // ---------------------------------------------------------------------------------------
  // Updates

  /** What EnableDisable() and LockUpdate() send to an output. */
  function CommandFor(a: Action): Command {
    match a
    case UpdateOpen(_) => OpenIt
    case UpdateReopen(_) => Reopen
    case UpdateUnpause(_) => Cancel
    case UpdateClose(_) => CloseIt
    case SetEnabled(_, on) => if on then Enable else Disable
    case _ => NoCommand
  }

  /** What the call is for: the output is closed, or no longer paused. */
  predicate Achieved(o: Output, a: Action) {
    match a
    case UpdateClose(_) => !o.open
    case SetEnabled(_, on) => !on ==> !o.open
    case UpdateUnpause(_) => !o.paused
    case _ => true
  }

  predicate Pursues(o: Output, a: Action) {
    o.command == CommandFor(a) || (o.command == NoCommand && Achieved(o, a))
  }

  predicate Updates(a: Action, i: nat) {
    a == UpdateOpen(i) || a == UpdateReopen(i) || a == UpdateUnpause(i) || a == UpdateClose(i) ||
    a == SetEnabled(i, true) || a == SetEnabled(i, false)
  }

  lemma ThreadPursues(o: Output, i: nat, h: Shared, ok: bool, a: Action)
    requires ValidShared(h) && OutputInv(o, i, h) && i !in Locked(h.player) && Updates(a, i) && Pursues(o, a)
    ensures Pursues(ThreadStep(o, h.pipe, h.base, ok), a)
  {
    var o' := ThreadStep(o, h.pipe, h.base, ok);
    ThreadAdvances(o, i, h, ok);
    if o.command != NoCommand && o'.command == NoCommand {
      FinishedMeansDone(o, i, h, ok);
    }
    hide ThreadStep, OutputInv;
  }

  lemma ThreadAdvances(o: Output, i: nat, h: Shared, ok: bool)
    requires ValidShared(h) && OutputInv(o, i, h) && i !in Locked(h.player)
    ensures Advances(o, ThreadStep(o, h.pipe, h.base, ok), h)
  {
    hide DeviceDone, CloseDone, ChunkDone, PauseDone, NotifyDone, DelayDone, LoopHead;
    match o.thread {
      case Playing(_, delayed) => if delayed { DelayDoneInv(o, i, h); } else { ChunkDoneInv(o, i, h, ok); }
      case InDevice(_) => DeviceDoneInv(o, i, h, ok);
      case ClosingDevice(_) => CloseDoneInv(o, i, h);
      case PauseLoop(delayed) => if delayed { DelayDoneInv(o, i, h); } else { PauseDoneInv(o, i, h, ok); }
      case Notifying(_) => NotifyDoneInv(o, i, h);
      case _ =>
        AtHeadInv(o, i, h);
        assert o.(paused := false) == o;
    }
  }

  /** While the player waits for output `i`. */
  ghost predicate InUpdate(s: System, a: Action, i: nat) {
    Inv(s) && i < |s.outs| && s.shared.player == Sync(i, SyncToIdle) && Pursues(s.outs[i], a)
  }

  lemma UpdateStep(s: System, a: Action, i: nat, b: Action)
    requires InUpdate(s, a, i) && Updates(a, i) && Enabled(s, b)
    ensures InUpdate(Apply(s, b), a, i) ||
            (Apply(s, b).shared.player == Idle && i < |Apply(s, b).outs| && Achieved(Apply(s, b).outs[i], a))
  {
    assert Disciplined(s, b);
    StepKeepsInv(s, b);
    assert OutputInv(s.outs[i], i, s.shared) && ValidShared(s.shared);
    hide Inv, OutputInv, ThreadStep, ThreadAsserts, PlayerAsserts, Pursues, BeginDelay;
    match b {
      case ThreadRuns(j, ok) => if j == i { ThreadPursues(s.outs[i], i, s.shared, ok, a); }
      case ThreadDelays(j) => if j == i { DelayPursues(s.outs[i], a, i); }
      case PlayerRuns => SyncPursues(s, a, i);
      case _ =>
    }
  }

  lemma SyncPursues(s: System, a: Action, i: nat)
    requires i < |s.outs| && s.shared.player == Sync(i, SyncToIdle) && Pursues(s.outs[i], a) && Updates(a, i)
    ensures PlayerStep(s).outs == s.outs
    ensures PlayerStep(s).shared.player == Sync(i, SyncToIdle) ||
            (PlayerStep(s).shared.player == Idle && Achieved(s.outs[i], a))
  {
  }

  lemma DelayPursues(o: Output, a: Action, i: nat)
    requires Pursues(o, a) && Updates(a, i)
    ensures Pursues(BeginDelay(o), a)
  {
  }

  lemma {:induction false} UpdateRun(trace: seq<System>, actions: seq<Action>, a: Action, i: nat, k: nat)
    requires IsRun(trace, actions) && k < |trace| && Updates(a, i) && InUpdate(trace[0], a, i)
    requires forall j :: 0 <= j < |trace| ==> Keeps(trace[j], InOperation)
    ensures InUpdate(trace[k], a, i)
  {
    hide Apply, Enabled, InUpdate;
    if k > 0 {
      UpdateRun(trace, actions, a, i, k - 1);
      assert Keeps(trace[k], InOperation);
      UpdateStep(trace[k - 1], a, i, actions[k - 1]);
    }
  }

  lemma UpdateBegins(s: System, a: Action, i: nat)
    requires Inv(s) && Enabled(s, a) && Disciplined(s, a) && Updates(a, i)
    ensures InUpdate(Apply(s, a), a, i)
  {
    StepKeepsInv(s, a);
    hide Inv, UpdateAsserts;
  }

  /**
   When EnableDisable() or LockUpdate() returns, a disabled output and one that had to be closed
   are closed, and one that had to go on is not paused, whatever the other outputs do meanwhile.
   */
  lemma UpdatesAchieve(s: System, a: Action, i: nat, e: System)
    requires Inv(s) && Enabled(s, a) && Disciplined(s, a) && Updates(a, i) && NextIdle(Apply(s, a), e)
    ensures i < |e.outs| && Achieved(e.outs[i], a)
  {
    UpdateBegins(s, a, i);
    var s1 := Apply(s, a);
    hide Apply, Enabled, InUpdate, Inv;
    var m, b :| EndsWith(s1, m, b, e);
    var trace, actions :| Leads(s1, m, InOperation, trace, actions);
    UpdateRun(trace, actions, a, i, |actions|);
    UpdateStep(m, a, i, b);
    NotInUpdate(e, a, i);
  }

  lemma NotInUpdate(e: System, a: Action, i: nat)
    requires e.shared.player == Idle
    ensures !InUpdate(e, a, i)
  {
  }

  // ---------------------------------------------------------------------------------------
  // Playing

  /** The thread is about to look for a chunk, or a device call for one has succeeded. */
  predicate LooksNext(t: Thread) {
    t.Waiting? || t == PlayReturn || t == Notifying(ToHead) || t == Notifying(ToPlay) || (t.Playing? && !t.delayed)
  }

  /** `o'` plays the next chunk, or has found none. */
  predicate PlaysNext(o: Output, o': Output, next: Option<Chunk>) {
    && o'.open && o'.command == NoCommand
    && match next
       case Some(c) =>
         o'.thread == Playing(c, false) && o'.current == Some(c) && o'.run == o.run + [c] && !o'.finished
       case None =>
         && o'.run == o.run && o'.current == o.current
         && if o.thread.Playing? then o'.thread == PlayReturn && o'.finished else o'.thread == Waiting(false)
  }

  lemma HeadPlays(o: Output, pipe: seq<Chunk>, base: nat)
    requires o.open && o.allowPlay && o.command == NoCommand && !o.thread.Playing?
    ensures GetNextChunk(Back(o), pipe) == GetNextChunk(o, pipe)
    ensures PlaysNext(o, PlayCheck(Back(o), pipe, base), GetNextChunk(o, pipe))
    ensures LoopHead(Back(o), pipe, base) == PlayCheck(Back(o), pipe, base)
  {
    hide Successor;
  }

  lemma ChunkPlays(o: Output, c: Chunk, pipe: seq<Chunk>, base: nat)
    requires o.open && o.command == NoCommand && o.thread.Playing? && o.current == Some(c) && c in pipe
    ensures PlaysNext(o, ChunkDone(o, c, pipe, base, true), GetNextChunk(o, pipe))
  {
    hide Successor;
  }

  /**
   An output thread that is awake, open and allowed to play, and has no command, plays the next
   chunk of the pipe; without one it ends the playback loop, or sleeps.
   */
  lemma AwakeThreadPlays(o: Output, i: nat, h: Shared)
    requires ValidShared(h) && OutputInv(o, i, h) && i !in Locked(h.player)
    requires o.open && o.allowPlay && o.command == NoCommand && LooksNext(o.thread)
    ensures PlaysNext(o, ThreadStep(o, h.pipe, h.base, true), GetNextChunk(o, h.pipe))
  {
    assert Pointers(o, h);
    hide OutputInv, ChunkDone, LoopHead, PlayCheck, PlaysNext, GetNextChunk;
    match o.thread {
      case Playing(c, delayed) => ChunkPlays(o, c, h.pipe, h.base);
      case PlayReturn =>
        HeadPlays(o, h.pipe, h.base);
        assert Back(o) == o;
      case _ => HeadPlays(o, h.pipe, h.base);
    }
  }

  // ---------------------------------------------------------------------------------------
  // Conservation of chunks

  /** The chunk that Check() has taken out of the pipe and not returned yet. */
  function Hand(p: Player): set<Chunk> {
    match p
    case Unlock(c, _, _) => {c}
    case ReturnChunk(c) => {c}
    case _ => {}
  }

  /** The chunks that are in the pipe, in the player's hand or free. */
  ghost function Accounted(s: System): set<Chunk> {
    (set c | c in s.shared.pipe) + Hand(s.shared.player) + s.pool
  }

  /** What the decoder takes out of the pool is missing until it is pushed. */
  ghost function Ledger(pool: set<Chunk>, actions: seq<Action>): set<Chunk> {
    if actions == [] then pool
    else Entry(Ledger(pool, actions[..|actions| - 1]), actions[|actions| - 1])
  }

  function Entry(accounted: set<Chunk>, a: Action): set<Chunk> {
    match a
    case Allocate(c) => accounted - {c}
    case Push(c) => accounted + {c}
    case _ => accounted
  }

  lemma PlayerConserves(s: System)
    ensures Accounted(PlayerStep(s)) == Accounted(s)
  {
    hide Inv, Consumed, Unfinished, Send, LockPlay, LockAllowPlay, Accounted;
    match s.shared.player {
      case CheckScan(i) => ScanConserves(s);
      case ClearTail(i, locked) => TailConserves(s);
      case Unlock(c, i, locked) => HandConserves(s);
      case ReturnChunk(c) => HandConserves(s);
      case CancelClear => ClearConserves(s, AllowPlay(0));
      case CloseClear => ClearConserves(s, Idle);
      case _ => SamePipeConserves(s);
    }
  }

  lemma ScanConserves(s: System)
    requires s.shared.player.CheckScan?
    ensures Accounted(PlayerStep(s)) == Accounted(s)
  {
    hide Consumed;
    if s.shared.pipe != [] {
      HeadAndRest(s.shared.pipe);
    }
  }

  lemma TailConserves(s: System)
    requires s.shared.player.ClearTail?
    ensures Accounted(PlayerStep(s)) == Accounted(s)
  {
    if s.shared.pipe != [] {
      HeadAndRest(s.shared.pipe);
    }
  }

  lemma HandConserves(s: System)
    requires s.shared.player.Unlock? || s.shared.player.ReturnChunk?
    ensures Accounted(PlayerStep(s)) == Accounted(s)
  {
  }

  lemma ClearConserves(s: System, done: Player)
    requires Hand(s.shared.player) == {} && Hand(done) == {}
    ensures Accounted(ClearStep(s, done)) == Accounted(s)
  {
    if s.shared.pipe != [] {
      HeadAndRest(s.shared.pipe);
    }
  }

  lemma SamePipeConserves(s: System)
    requires match s.shared.player
             case CheckScan(_) => false case ClearTail(_, _) => false case Unlock(_, _, _) => false
             case ReturnChunk(_) => false case CancelClear => false case CloseClear => false case _ => true
    ensures Accounted(PlayerStep(s)) == Accounted(s)
  {
    var e := PlayerStep(s);
    assert e.shared.pipe == s.shared.pipe && e.pool == s.pool &&
           Hand(e.shared.player) == Hand(s.shared.player) == {} by {
      hide Accounted, Unfinished, Send, LockPlay, LockAllowPlay;
    }
  }

  lemma HeadAndRest(pipe: seq<Chunk>)
    requires pipe != []
    ensures (set c | c in pipe) == {pipe[0]} + (set c | c in pipe[1..])
  {
    assert pipe == [pipe[0]] + pipe[1..];
  }

  lemma StepConserves(s: System, a: Action)
    requires Inv(s) && Enabled(s, a)
    ensures Accounted(Apply(s, a)) == Entry(Accounted(s), a)
  {
    hide ThreadStep, PlayerStep, ThreadAsserts, PlayerAsserts, UpdateAsserts, Send;
    assert Ownership(s.shared, s.pool);
    match a {
      case PlayerRuns => PlayerConserves(s);
      case BeginCheck =>
      case Push(c) =>
      case Allocate(c) =>
      case _ =>
    }
  }

  /**
   No chunk is lost and none is doubled: in every state of every run each chunk is in the pipe
   once, in the player's hand, or in the pool, in exactly one of them, and they are all there
   except for those the decoder has.
   */
  lemma {:induction false} ChunksAreConserved(trace: seq<System>, actions: seq<Action>, k: nat)
    requires IsDisciplinedRun(trace, actions) && Init(trace[0]) && k < |trace|
    ensures Accounted(trace[k]) == Ledger(trace[0].pool, actions[..k])
    ensures var s := trace[k];
            && Distinct(s.shared.pipe) && Hand(s.shared.player) !! s.pool
            && (forall c :: c in s.shared.pipe ==> c !in s.pool && c !in Hand(s.shared.player))
  {
    RunKeepsInv(trace, actions, k);
    assert Ownership(trace[k].shared, trace[k].pool);
    if k == 0 {
      assert actions[..0] == [];
    } else {
      ChunksAreConserved(trace, actions, k - 1);
      RunKeepsInv(trace, actions, k - 1);
      StepConserves(trace[k - 1], actions[k - 1]);
      assert actions[..k] == actions[..k - 1] + [actions[k - 1]];
      assert actions[..k][..k - 1] == actions[..k - 1];
      hide Inv, Apply, Enabled, Accounted;
    }
  }
}
