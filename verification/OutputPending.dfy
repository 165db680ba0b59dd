/**
 When a command to an output can still be pending although the player has gone on: WaitAll()
 does not wait for outputs that are closed.
 */
module OutputPending {
  import opened Common
  import opened OutputPipeline
  import opened OutputSafety
  import opened OutputRuns
  import opened OutputTheorems

  /** The three operations that send a command to every open output and then wait for all. */
  datatype Operation = Pausing | Draining | Cancelling

  function SendAt(op: Operation, k: nat): Player {
    match op
    case Pausing => PauseSend(k)
    case Draining => DrainSend(k)
    case Cancelling => CancelSend(k)
  }

  function WaitAt(op: Operation, k: nat): Player {
    match op
    case Pausing => PauseWait(k)
    case Draining => DrainWait(k)
    case Cancelling => CancelWait(k)
  }

  function CommandOf(op: Operation): Command {
    match op
    case Pausing => Pause
    case Draining => Drain
    case Cancelling => Cancel
  }

  /** The player has sent the command to output `i` and the operation goes on. */
  predicate Behind(p: Player, op: Operation, i: nat) {
    match p
    case PauseSend(k) => op == Pausing && k > i
    case PauseWait(_) => op == Pausing
    case DrainSend(k) => op == Draining && k > i
    case DrainWait(_) => op == Draining
    case CancelSend(k) => op == Cancelling && k > i
    case CancelWait(_) => op == Cancelling
    case CancelClear => op == Cancelling
    case AllowPlay(_) => op == Cancelling
    case _ => false
  }

  // ---------------------------------------------------------------------------------------
  // An output that is in no call that may fail finishes before the player goes on

  /** The command is finished, or the output is open and on its way to it. */
  predicate Heeds(o: Output, op: Operation) {
    || o.command == NoCommand
    || (o.command == CommandOf(op) && o.open && (Attentive(o.thread) || o.thread == InDevice(CommandOf(op))))
  }

  lemma HeadHeeds(o: Output, op: Operation, pipe: seq<Chunk>, base: nat)
    requires o.command == CommandOf(op) && o.open
    ensures Heeds(LoopHead(o, pipe, base), op)
    ensures Heeds(PlayCheck(o, pipe, base), op)
  {
    assert Heeds(RunCommand(o, base), op) && Heeds(EndPlay(o), op);
    hide RunCommand, EndPlay, StartChunk, GetNextChunk, Heeds;
  }

  lemma DeviceHeeds(o: Output, op: Operation, base: nat, ok: bool)
    requires o.command == CommandOf(op)
    ensures Heeds(DeviceDone(o, CommandOf(op), base, ok), op)
  {
    assert forall o', next :: Finish(o', next).command == NoCommand;
    hide Finish, BeginDeviceClose;
  }

  lemma DelayHeeds(o: Output, op: Operation, pipe: seq<Chunk>, base: nat)
    requires o.command == CommandOf(op) && o.open && (o.thread.Playing? || o.thread.PauseLoop?)
    ensures Heeds(DelayDone(o, pipe, base), op)
  {
    assert Heeds(EndPlay(o), op);
    HeadHeeds(Back(o.(paused := false)), op, pipe, base);
    hide Heeds, EndPlay, LoopHead;
  }

  lemma BusyThreadHeeds(o: Output, op: Operation, pipe: seq<Chunk>, base: nat, ok: bool)
    requires o.command == CommandOf(op) && Heeds(o, op)
    ensures Heeds(ThreadStep(o, pipe, base, ok), op)
  {
    assert o.open && (Attentive(o.thread) || o.thread == InDevice(CommandOf(op)));
    assert o.thread == PlayReturn ==> Back(o) == o;
    HeadHeeds(Back(o), op, pipe, base);
    if o.thread.InDevice? {
      DeviceHeeds(o, op, base, ok);
    }
    if o.thread.Playing? || o.thread.PauseLoop? {
      DelayHeeds(o, op, pipe, base);
    }
    hide Heeds, Back, CommandOf, LoopHead, PlayCheck, DeviceDone, CloseDone, ChunkDone, PauseDone, DelayDone;
  }

  /** No step of a thread makes a command out of nothing. */
  lemma HeadSendsNothing(o: Output, pipe: seq<Chunk>, base: nat)
    requires o.command == NoCommand
    ensures LoopHead(o, pipe, base).command == NoCommand && PlayCheck(o, pipe, base).command == NoCommand
  {
    hide RunCommand, GetNextChunk;
  }

  lemma DeviceSendsNothing(o: Output, work: Command, base: nat, ok: bool)
    requires o.command == NoCommand
    ensures DeviceDone(o, work, base, ok).command == NoCommand
  {
    assert forall o', next :: Finish(o', next).command == NoCommand;
    assert forall reason :: BeginDeviceClose(o, reason).command == o.command;
    hide Finish, BeginDeviceClose;
  }

  lemma ChunkSendsNothing(o: Output, c: Chunk, pipe: seq<Chunk>, base: nat, ok: bool)
    requires o.command == NoCommand
    ensures ChunkDone(o, c, pipe, base, ok).command == NoCommand
  {
    assert forall reason :: BeginDeviceClose(o, reason).command == o.command;
    assert forall next :: StartChunk(o, next, base).command == o.command;
    assert EndPlay(o).command == o.command;
    hide Successor, StartChunk, EndPlay, BeginDeviceClose;
  }

  lemma PausedSendsNothing(o: Output, pipe: seq<Chunk>, base: nat, ok: bool)
    requires o.command == NoCommand
    ensures PauseDone(o, pipe, base, ok).command == NoCommand
  {
    assert BeginDeviceClose(o, AfterPause).command == o.command;
    hide LoopHead, BeginDeviceClose;
  }

  lemma DelaySendsNothing(o: Output, pipe: seq<Chunk>, base: nat)
    requires o.command == NoCommand
    ensures DelayDone(o, pipe, base).command == NoCommand
  {
    hide LoopHead, EndPlay;
  }

  lemma CloseSendsNothing(o: Output, reason: CloseReason, pipe: seq<Chunk>, base: nat)
    requires o.command == NoCommand
    ensures CloseDone(o, reason, pipe, base).command == NoCommand
  {
    HeadSendsNothing(Back(o.(paused := false)), pipe, base);
    assert EndPlay(o).command == o.command && Finish(o, ToPlay).command == NoCommand;
    hide LoopHead, EndPlay, Finish;
  }

  lemma NotifySendsNothing(o: Output, next: AfterNotify, pipe: seq<Chunk>, base: nat)
    requires o.command == NoCommand
    ensures NotifyDone(o, next, pipe, base).command == NoCommand
  {
    HeadSendsNothing(Back(o), pipe, base);
    hide LoopHead, PlayCheck;
  }

  lemma ThreadSendsNothing(o: Output, pipe: seq<Chunk>, base: nat, ok: bool)
    requires o.command == NoCommand
    ensures ThreadStep(o, pipe, base, ok).command == NoCommand
  {
    assert Back(o).command == NoCommand;
    hide LoopHead, PlayCheck, DeviceDone, ChunkDone, PauseDone, CloseDone, NotifyDone, DelayDone, Back;
    DelaySendsNothing(o, pipe, base);
    match o.thread {
      case Waiting(_) => HeadSendsNothing(Back(o), pipe, base);
      case PlayReturn => HeadSendsNothing(o, pipe, base);
      case Playing(c, _) => ChunkSendsNothing(o, c, pipe, base, ok);
      case InDevice(work) => DeviceSendsNothing(o, work, base, ok);
      case ClosingDevice(reason) => CloseSendsNothing(o, reason, pipe, base);
      case PauseLoop(_) => PausedSendsNothing(o, pipe, base, ok);
      case Notifying(next) => NotifySendsNothing(o, next, pipe, base);
    }
  }

  lemma ThreadHeeds(o: Output, op: Operation, pipe: seq<Chunk>, base: nat, ok: bool)
    requires Heeds(o, op)
    ensures Heeds(ThreadStep(o, pipe, base, ok), op)
  {
    hide ThreadStep;
    if o.command == NoCommand {
      ThreadSendsNothing(o, pipe, base, ok);
    } else {
      BusyThreadHeeds(o, op, pipe, base, ok);
    }
  }

  lemma ClearGoesOn(s: System)
    requires s.shared.player == CancelClear
    ensures var e := ClearStep(s, AllowPlay(0));
            e.outs == s.outs && (e.shared.player == CancelClear || e.shared.player == AllowPlay(0))
  {
  }

  lemma PlayerHeeds(s: System, op: Operation, i: nat)
    requires i < |s.outs| && Heeds(s.outs[i], op) && Behind(s.shared.player, op, i)
    ensures i < |PlayerStep(s).outs| && Heeds(PlayerStep(s).outs[i], op)
    ensures PlayerStep(s).shared.player == Idle || Behind(PlayerStep(s).shared.player, op, i)
  {
    hide Unfinished, ClearStep, Consumed;
    if s.shared.player == CancelClear {
      ClearGoesOn(s);
    }
    match s.shared.player {
      case AllowPlay(k) =>
      case CancelSend(k) =>
      case PauseSend(k) =>
      case DrainSend(k) =>
      case _ =>
    }
  }

  lemma DelayedHeeds(o: Output, op: Operation)
    requires Heeds(o, op) && CanDelay(o)
    ensures Heeds(BeginDelay(o), op)
  {
  }

  lemma StepHeeds(s: System, a: Action, op: Operation, i: nat)
    requires Enabled(s, a) && i < |s.outs| && Heeds(s.outs[i], op) && Behind(s.shared.player, op, i)
    ensures i < |Apply(s, a).outs| && Heeds(Apply(s, a).outs[i], op)
    ensures Apply(s, a).shared.player == Idle || Behind(Apply(s, a).shared.player, op, i)
  {
    if a.ThreadDelays? && a.i == i {
      DelayedHeeds(s.outs[i], op);
    }
    hide ThreadStep, PlayerStep, ThreadAsserts, PlayerAsserts, Heeds, BeginDelay;
    if a.ThreadRuns? {
      if a.i == i {
        ThreadHeeds(s.outs[i], op, s.shared.pipe, s.shared.base, a.ok);
      }
    } else if a.PlayerRuns? {
      PlayerHeeds(s, op, i);
    }
  }

  lemma {:induction false} RunHeeds(trace: seq<System>, actions: seq<Action>, op: Operation, i: nat, k: nat)
    requires IsRun(trace, actions) && k < |trace|
    requires forall j :: 0 <= j < |trace| ==> Keeps(trace[j], InOperation)
    requires i < |trace[0].outs| && Heeds(trace[0].outs[i], op) && Behind(trace[0].shared.player, op, i)
    ensures i < |trace[k].outs| && Heeds(trace[k].outs[i], op) && Behind(trace[k].shared.player, op, i)
  {
    hide Apply, Enabled, Heeds, Behind;
    assert Keeps(trace[k], InOperation);
    if k > 0 {
      RunHeeds(trace, actions, op, i, k - 1);
      assert trace[k] == Apply(trace[k - 1], actions[k - 1]);
      StepHeeds(trace[k - 1], actions[k - 1], op, i);
    }
  }

  lemma HeededAtIdle(s: System, e: System, op: Operation, i: nat)
    requires Inv(s) && NextIdle(s, e)
    requires i < |s.outs| && Heeds(s.outs[i], op) && Behind(s.shared.player, op, i)
    ensures i < |e.outs| && e.outs[i].command == NoCommand
  {
    NextIdleInv(s, e);
    hide Apply, Enabled, Behind;
    var m, a :| EndsWith(s, m, a, e);
    var trace, actions :| Leads(s, m, InOperation, trace, actions);
    RunHeeds(trace, actions, op, i, |actions|);
    StepHeeds(m, a, op, i);
    assert OutputInv(e.outs[i], i, e.shared);
  }

  // ---------------------------------------------------------------------------------------
  // An output that fails meanwhile stays behind with its command

  /** Output `i` is closed and its command pending, inside of the operation. */
  ghost predicate LeftBehind(s: System, e: System, op: Operation, i: nat) {
    && Reaches(s, e, InOperation) && Inv(e)
    && i < |e.outs| && !e.outs[i].open && e.outs[i].command == CommandOf(op)
  }

  /** One more step of the player. */
  lemma PlayerGoesOn(s: System, e: System) returns (e': System)
    requires Reaches(s, e, InOperation) && Inv(e) && PlayerStep(e).shared.player != Idle && e.shared.player != Idle
    ensures Reaches(s, e', InOperation) && Inv(e') && e'.outs == PlayerStep(e).outs && e'.shared == PlayerStep(e).shared
  {
    hide PlayerStep, Inv, Reaches;
    e' := Apply(e, PlayerRuns);
    StepKeepsInv(e, PlayerRuns);
    ReachesMore(s, e, InOperation, PlayerRuns);
  }

  /** One more step of an output thread. */
  lemma ThreadGoesOn(s: System, e: System, j: nat, ok: bool) returns (e': System)
    requires Reaches(s, e, InOperation) && Inv(e) && e.shared.player != Idle
    requires j < |e.outs| && Locked(e.shared.player) == {}
    ensures Reaches(s, e', InOperation) && Inv(e') && e'.shared == e.shared
    ensures e'.outs == e.outs[j := ThreadStep(e.outs[j], e.shared.pipe, e.shared.base, ok)]
  {
    hide ThreadStep, Inv, Reaches, ThreadAsserts;
    e' := Apply(e, ThreadRuns(j, ok));
    StepKeepsInv(e, ThreadRuns(j, ok));
    ReachesMore(s, e, InOperation, ThreadRuns(j, ok));
  }

  /** The failing call closes the output before it sees the command. */
  lemma FailureLeavesBehind(s: System, op: Operation, i: nat) returns (e: System)
    requires Inv(s) && i < |s.outs| && s.outs[i].command == CommandOf(op) && MayFail(s.outs[i].thread)
    requires s.shared.player == SendAt(op, i + 1)
    ensures LeftBehind(s, e, op, i) && e.shared.player == SendAt(op, i + 1)
  {
    ReachesSelf(s, InOperation);
    e := s;
    hide Inv, Reaches;
    if s.outs[i].thread == Notifying(ToPause) {
      e := ThreadGoesOn(s, e, i, true);
    }
    assert FailsNow(e.outs[i].thread);
    assert var o' := ThreadStep(e.outs[i], e.shared.pipe, e.shared.base, false);
           !o'.open && o'.command == CommandOf(op) by { FailureCloses(e.outs[i], e.shared.pipe, e.shared.base); }
    hide ThreadStep;
    e := ThreadGoesOn(s, e, i, false);
  }

  predicate FailsNow(t: Thread) {
    (t.Playing? && !t.delayed) || t == PauseLoop(false)
  }

  lemma FailureCloses(o: Output, pipe: seq<Chunk>, base: nat)
    requires FailsNow(o.thread)
    ensures !ThreadStep(o, pipe, base, false).open && ThreadStep(o, pipe, base, false).command == o.command
  {
    hide LoopHead, PlayCheck;
  }

  /** The player sends the command to the outputs behind `i`, too. */
  lemma {:induction false} SendRest(s: System, e: System, op: Operation, i: nat, k: nat) returns (e': System)
    requires LeftBehind(s, e, op, i) && e.shared.player == SendAt(op, k) && i < k
    ensures LeftBehind(s, e', op, i) && e'.shared.player == WaitAt(op, 0)
    decreases |e.outs| - k
  {
    hide Reaches, Inv, Send;
    var next := PlayerGoesOn(s, e);
    if k < |e.outs| {
      e' := SendRest(s, next, op, i, k + 1);
    } else {
      e' := next;
    }
  }

  // ---------------------------------------------------------------------------------------
  // Every other output can finish

  /** `e'` differs from `e` in output `j` only, which no longer holds up the player. */
  predicate Settled(e: System, e': System, j: nat) {
    && e'.shared == e.shared && |e'.outs| == |e.outs| && j < |e.outs| && !Unfinished(e'.outs[j])
    && forall k :: 0 <= k < |e.outs| && k != j ==> e'.outs[k] == e.outs[k]
  }

  lemma CommandIsTaken(o: Output, op: Operation, pipe: seq<Chunk>, base: nat)
    requires o.command == CommandOf(op) && o.open
    ensures var o' := LoopHead(o, pipe, base);
            o'.open && o'.command == CommandOf(op) && o'.thread == InDevice(CommandOf(op))
    ensures var o' := PlayCheck(o, pipe, base);
            o'.open && o'.command == CommandOf(op) && (o'.thread == InDevice(CommandOf(op)) || o'.thread == PlayReturn)
  {
    assert var o' := RunCommand(o, base);
           o'.open && o'.command == CommandOf(op) && o'.thread == InDevice(CommandOf(op));
    assert EndPlay(o).open && EndPlay(o).command == CommandOf(op) && EndPlay(o).thread == PlayReturn;
    hide RunCommand, EndPlay, StartChunk, GetNextChunk;
  }

  lemma FinishInDevice(s: System, e: System, op: Operation, i: nat, j: nat) returns (e': System)
    requires LeftBehind(s, e, op, i) && e.shared.player == WaitAt(op, 0) && j < |e.outs| && j != i
    requires e.outs[j].command == CommandOf(op) && e.outs[j].thread == InDevice(CommandOf(op))
    ensures LeftBehind(s, e', op, i) && Settled(e, e', j)
  {
    assert ThreadStep(e.outs[j], e.shared.pipe, e.shared.base, true).command == NoCommand by {
      DeviceFinishes(e.outs[j], op, e.shared.base);
    }
    hide Reaches, Inv, ThreadStep;
    e' := ThreadGoesOn(s, e, j, true);
  }

  lemma DeviceFinishes(o: Output, op: Operation, base: nat)
    ensures DeviceDone(o, CommandOf(op), base, true).command == NoCommand
  {
    assert forall o', next :: Finish(o', next).command == NoCommand;
    hide Finish, BeginDeviceClose;
  }

  /** The thread comes to the head of its loop next. */
  predicate AtHead(t: Thread) {
    t.Waiting? || t == PlayReturn || t == Notifying(ToHead) || t == PauseLoop(true)
  }

  lemma HeadAfterWait(o: Output, op: Operation, pipe: seq<Chunk>, base: nat)
    requires o.command == CommandOf(op) && o.open
    ensures var o' := LoopHead(Back(o), pipe, base);
            o'.open && o'.command == CommandOf(op) && o'.thread == InDevice(CommandOf(op))
  {
    CommandIsTaken(Back(o), op, pipe, base);
    hide LoopHead, PlayCheck;
  }

  lemma HeadAfterPause(o: Output, op: Operation, pipe: seq<Chunk>, base: nat)
    requires o.command == CommandOf(op) && o.open
    ensures var o' := LoopHead(Back(o.(paused := false)), pipe, base);
            o'.open && o'.command == CommandOf(op) && o'.thread == InDevice(CommandOf(op))
  {
    CommandIsTaken(Back(o.(paused := false)), op, pipe, base);
    hide LoopHead, PlayCheck;
  }

  lemma TakesCommand(o: Output, op: Operation, pipe: seq<Chunk>, base: nat)
    requires o.command == CommandOf(op) && o.open
    requires AtHead(o.thread)
    ensures var o' := ThreadStep(o, pipe, base, true);
            o'.open && o'.command == CommandOf(op) && o'.thread == InDevice(CommandOf(op))
  {
    hide LoopHead, PlayCheck, Back, ChunkDone, DeviceDone, CloseDone, PauseDone;
    match o.thread {
      case PlayReturn => CommandIsTaken(o, op, pipe, base);
      case PauseLoop(_) => HeadAfterPause(o, op, pipe, base);
      case _ => HeadAfterWait(o, op, pipe, base);
    }
  }

  lemma FinishAtHead(s: System, e: System, op: Operation, i: nat, j: nat) returns (e': System)
    requires LeftBehind(s, e, op, i) && e.shared.player == WaitAt(op, 0) && j < |e.outs| && j != i
    requires e.outs[j].command == CommandOf(op) && e.outs[j].open
    requires AtHead(e.outs[j].thread)
    ensures LeftBehind(s, e', op, i) && Settled(e, e', j)
  {
    hide Reaches, Inv, ThreadStep;
    TakesCommand(e.outs[j], op, e.shared.pipe, e.shared.base);
    var m := ThreadGoesOn(s, e, j, true);
    e' := FinishInDevice(s, m, op, i, j);
  }

  lemma FinishToPlay(s: System, e: System, op: Operation, i: nat, j: nat) returns (e': System)
    requires LeftBehind(s, e, op, i) && e.shared.player == WaitAt(op, 0) && j < |e.outs| && j != i
    requires e.outs[j].command == CommandOf(op) && e.outs[j].open && e.outs[j].thread == Notifying(ToPlay)
    ensures LeftBehind(s, e', op, i) && Settled(e, e', j)
  {
    var o := e.outs[j];
    CommandIsTaken(Back(o), op, e.shared.pipe, e.shared.base);
    hide Reaches, Inv, LoopHead, PlayCheck;
    var o' := ThreadStep(o, e.shared.pipe, e.shared.base, true);
    assert o' == PlayCheck(Back(o), e.shared.pipe, e.shared.base);
    hide ThreadStep;
    var m := ThreadGoesOn(s, e, j, true);
    if o'.thread == PlayReturn {
      e' := FinishAtHead(s, m, op, i, j);
    } else {
      e' := FinishInDevice(s, m, op, i, j);
    }
  }

  lemma FinishDelayed(s: System, e: System, op: Operation, i: nat, j: nat) returns (e': System)
    requires LeftBehind(s, e, op, i) && e.shared.player == WaitAt(op, 0) && j < |e.outs| && j != i
    requires e.outs[j].command == CommandOf(op) && e.outs[j].open
    requires e.outs[j].thread.Playing? && e.outs[j].thread.delayed
    ensures LeftBehind(s, e', op, i) && Settled(e, e', j)
  {
    assert ThreadStep(e.outs[j], e.shared.pipe, e.shared.base, true) == EndPlay(e.outs[j]);
    hide Reaches, Inv, ThreadStep;
    var m := ThreadGoesOn(s, e, j, true);
    e' := FinishAtHead(s, m, op, i, j);
  }

  lemma FinishByFailure(s: System, e: System, op: Operation, i: nat, j: nat) returns (e': System)
    requires LeftBehind(s, e, op, i) && e.shared.player == WaitAt(op, 0) && j < |e.outs| && j != i
    requires MayFail(e.outs[j].thread)
    ensures LeftBehind(s, e', op, i) && Settled(e, e', j)
  {
    hide Reaches, Inv;
    var m := e;
    if e.outs[j].thread == Notifying(ToPause) {
      m := ThreadGoesOn(s, e, j, true);
    }
    assert FailsNow(m.outs[j].thread);
    FailureCloses(m.outs[j], m.shared.pipe, m.shared.base);
    hide ThreadStep;
    e' := ThreadGoesOn(s, m, j, false);
  }

  /** What an open output with this command can be doing. */
  lemma BusyThread(o: Output, j: nat, h: Shared, op: Operation)
    requires OutputInv(o, j, h) && o.open && o.command == CommandOf(op)
    ensures MayFail(o.thread) || Attentive(o.thread) || o.thread == InDevice(CommandOf(op))
  {
    hide Position, Contiguous, Awake, Origin, Commanded;
    match o.thread {
      case InDevice(work) =>
        match work { case NoCommand => case Enable => case Disable => case OpenIt => case Reopen =>
                     case CloseIt => case Pause => case Drain => case Cancel => }
      case Notifying(next) =>
        match next { case ToHead => case ToPlay => case ToPause => }
      case _ =>
    }
  }

  lemma UnfinishedCommand(o: Output, j: nat, h: Shared, op: Operation)
    requires OutputInv(o, j, h) && Unfinished(o) && h.player == WaitAt(op, 0)
    ensures o.command == CommandOf(op)
  {
    hide ThreadInv;
  }

  lemma FinishOne(s: System, e: System, op: Operation, i: nat, j: nat) returns (e': System)
    requires LeftBehind(s, e, op, i) && e.shared.player == WaitAt(op, 0) && j < |e.outs| && Unfinished(e.outs[j])
    ensures LeftBehind(s, e', op, i) && Settled(e, e', j)
  {
    assert OutputInv(e.outs[j], j, e.shared);
    UnfinishedCommand(e.outs[j], j, e.shared, op);
    BusyThread(e.outs[j], j, e.shared, op);
    hide Reaches, Inv, OutputInv, Settled;
    if MayFail(e.outs[j].thread) {
      e' := FinishByFailure(s, e, op, i, j);
    } else if e.outs[j].thread.InDevice? {
      e' := FinishInDevice(s, e, op, i, j);
    } else if e.outs[j].thread == Notifying(ToPlay) {
      e' := FinishToPlay(s, e, op, i, j);
    } else if e.outs[j].thread.Playing? {
      e' := FinishDelayed(s, e, op, i, j);
    } else {
      e' := FinishAtHead(s, e, op, i, j);
    }
  }

  lemma {:induction false} FinishAll(s: System, e: System, op: Operation, i: nat, j: nat) returns (e': System)
    requires LeftBehind(s, e, op, i) && e.shared.player == WaitAt(op, 0) && j <= |e.outs|
    requires forall k :: 0 <= k < j ==> !Unfinished(e.outs[k])
    ensures LeftBehind(s, e', op, i) && e'.shared == e.shared
    ensures forall k :: 0 <= k < |e'.outs| ==> !Unfinished(e'.outs[k])
    decreases |e.outs| - j
  {
    hide LeftBehind, Unfinished;
    if j == |e.outs| {
      e' := e;
    } else {
      var m := e;
      if Unfinished(e.outs[j]) {
        m := FinishOne(s, e, op, i, j);
      }
      e' := FinishAll(s, m, op, i, j + 1);
    }
  }

  /** WaitAll() finds every output finished. */
  lemma {:induction false} WaitRest(s: System, e: System, op: Operation, i: nat, k: nat) returns (e': System)
    requires LeftBehind(s, e, op, i) && e.shared.player == WaitAt(op, k) && k <= |e.outs|
    requires forall j :: 0 <= j < |e.outs| ==> !Unfinished(e.outs[j])
    ensures LeftBehind(s, e', op, i) && e'.shared.player == WaitAt(op, |e'.outs|)
    decreases |e.outs| - k
  {
    hide Reaches, Inv, Unfinished;
    if k == |e.outs| {
      e' := e;
    } else {
      var m := PlayerGoesOn(s, e);
      e' := WaitRest(s, m, op, i, k + 1);
    }
  }

  /** Cancel() then empties the pipe ... */
  lemma {:induction false} ClearRest(s: System, e: System, i: nat) returns (e': System)
    requires LeftBehind(s, e, Cancelling, i) && e.shared.player == CancelClear
    ensures LeftBehind(s, e', Cancelling, i) && e'.shared.player == AllowPlay(0)
    decreases |e.shared.pipe|
  {
    hide Reaches, Inv;
    var m := PlayerGoesOn(s, e);
    if e.shared.pipe == [] {
      e' := m;
    } else {
      e' := ClearRest(s, m, i);
    }
  }

  /** ... and lets the outputs play again. */
  lemma {:induction false} AllowRest(s: System, e: System, i: nat, k: nat) returns (e': System)
    requires LeftBehind(s, e, Cancelling, i) && e.shared.player == AllowPlay(k) && k <= |e.outs|
    ensures LeftBehind(s, e', Cancelling, i) && e'.shared.player == AllowPlay(|e'.outs|)
    decreases |e.outs| - k
  {
    hide Reaches, Inv;
    if k == |e.outs| {
      e' := e;
    } else {
      var m := PlayerGoesOn(s, e);
      e' := AllowRest(s, m, i, k + 1);
    }
  }

  lemma EndOperation(s: System, e: System, op: Operation, i: nat) returns (e': System)
    requires LeftBehind(s, e, op, i) && PlayerStep(e).shared.player == Idle && PlayerStep(e).outs == e.outs
    ensures NextIdle(s, e') && i < |e'.outs| && e'.outs[i].command == CommandOf(op)
  {
    hide Reaches, Inv, PlayerStep;
    e' := Apply(e, PlayerRuns);
    assert EndsWith(s, e, PlayerRuns, e');
  }

  /** The whole operation, with output `i` failing in it. */
  lemma LeftBehindAtIdle(s: System, op: Operation, i: nat) returns (e: System)
    requires Inv(s) && i < |s.outs| && s.outs[i].command == CommandOf(op) && MayFail(s.outs[i].thread)
    requires s.shared.player == SendAt(op, i + 1)
    ensures NextIdle(s, e) && i < |e.outs| && e.outs[i].command == CommandOf(op)
  {
    hide LeftBehind, NextIdle, Unfinished, Inv;
    e := FailureLeavesBehind(s, op, i);
    e := SendRest(s, e, op, i, i + 1);
    e := FinishAll(s, e, op, i, 0);
    e := WaitRest(s, e, op, i, 0);
    if op == Cancelling {
      e := CancelRest(s, e, i);
    }
    e := EndOperation(s, e, op, i);
  }

  lemma CancelRest(s: System, e: System, i: nat) returns (e': System)
    requires LeftBehind(s, e, Cancelling, i) && e.shared.player == CancelWait(|e.outs|)
    ensures LeftBehind(s, e', Cancelling, i) && e'.shared.player == AllowPlay(|e'.outs|)
  {
    hide Reaches, Inv;
    e' := PlayerGoesOn(s, e);
    e' := ClearRest(s, e', i);
    e' := AllowRest(s, e', i, 0);
  }

  // ---------------------------------------------------------------------------------------
  // Results

  /** The player is about to send the command of an operation to output `i`, which is open. */
  predicate Sends(s: System, op: Operation, i: nat) {
    s.shared.player == SendAt(op, i) && i < |s.outs| && s.outs[i].open
  }

  /** CommandAsync() would be called for output `i` while a command is pending (OutputControl.cxx:52). */
  predicate AsyncAssertFails(s: System, i: nat) {
    Enabled(s, UpdateOpen(i)) && s.outs[i].command != NoCommand
  }

  lemma SentState(s: System, op: Operation, i: nat)
    requires Inv(s) && Sends(s, op, i)
    ensures Inv(Apply(s, PlayerRuns)) && i < |Apply(s, PlayerRuns).outs| && s.outs[i].command == NoCommand
    ensures Apply(s, PlayerRuns).shared.player == SendAt(op, i + 1)
    ensures var o := Apply(s, PlayerRuns).outs[i];
            o.open && o.command == CommandOf(op) && MayFail(o.thread) == MayFail(s.outs[i].thread) &&
            (Attentive(s.outs[i].thread) ==> Attentive(o.thread))
  {
    assert OutputInv(s.outs[i], i, s.shared);
    StepKeepsInv(s, PlayerRuns);
    hide Inv, ThreadInv, PlayerAsserts;
  }

  /**
   A command of Pause(), Drain() or Cancel() can outlive the operation exactly if the output is
   in a device call that may fail at the moment the command is sent; whatever the other outputs
   do.  In every such state the next LockUpdate() violates the assertion of CommandAsync().
   */
  lemma CommandStaysPendingExactly(s: System, op: Operation, i: nat)
    requires Inv(s) && Sends(s, op, i)
    ensures MayFail(s.outs[i].thread) <==>
            exists e :: NextIdle(Apply(s, PlayerRuns), e) && AsyncAssertFails(e, i)
  {
    SentState(s, op, i);
    assert OutputInv(s.outs[i], i, s.shared);
    QuietThread(s.outs[i], i, s.shared);
    var s1 := Apply(s, PlayerRuns);
    hide Apply, Inv, OutputInv, NextIdle;
    if MayFail(s.outs[i].thread) {
      var e := LeftBehindAtIdle(s1, op, i);
      NextIdleInv(s1, e);
      PendingIsClosed(e, i);
    } else {
      forall e | NextIdle(s1, e) ensures !AsyncAssertFails(e, i) {
        HeededAtIdle(s1, e, op, i);
      }
    }
  }

  lemma PendingIsClosed(e: System, i: nat)
    requires Inv(e) && e.shared.player == Idle && i < |e.outs| && e.outs[i].command != NoCommand
    ensures AsyncAssertFails(e, i)
  {
    assert OutputInv(e.outs[i], i, e.shared);
  }

  /**
   Between operations every open output has finished its command; a closed one may still owe
   an answer to PAUSE, DRAIN or CANCEL.
   */
  lemma PendingOnlyWhenClosed(trace: seq<System>, actions: seq<Action>, k: nat, i: nat)
    requires IsDisciplinedRun(trace, actions) && Init(trace[0]) && k < |trace|
    requires i < |trace[k].outs| && trace[k].shared.player == Idle && trace[k].outs[i].command != NoCommand
    ensures !trace[k].outs[i].open
    ensures trace[k].outs[i].command in {Pause, Drain, Cancel}
  {
    RunKeepsInv(trace, actions, k);
    assert OutputInv(trace[k].outs[i], i, trace[k].shared);
  }
}
