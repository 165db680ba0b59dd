/**
 The shared output pipe, the player thread that fills and empties it, and the output
 threads that walk it by raw `current_chunk->next` pointers.

 One action is one region between two releases of a mutex.  A thread that is inside a
 device call has released its output's mutex, so the player and the other outputs may act
 there.  A device call may succeed or fail; its result is the `ok` of the action.  Where the
 device asks for a delay, the thread waits in WaitForDelay() instead, which a command ends.

 A source assertion or a pointer dereference that fails sets `fault`.  Chunks are
 addresses: a chunk that was returned to the pool may be allocated and pushed again.
 */
module OutputPipeline {
  import opened Common

  type Chunk = nat

  datatype Command = NoCommand | Enable | Disable | OpenIt | Reopen | CloseIt | Pause | Drain | Cancel

  datatype CloseReason = AfterFailure | AfterPause | ForClose | ForDisable | ForReopen

  datatype AfterNotify = ToHead | ToPlay | ToPause

  /** Where an output thread has released its mutex. */
  datatype Thread =
    | Waiting(signalled: bool)       // Task(): cond.wait()
    | Playing(chunk: Chunk, delayed: bool) // PlayChunk(): device call, or WaitForDelay()
    | PlayReturn                     // Play(): signalling the player
    | ClosingDevice(reason: CloseReason)
    | InDevice(work: Command)        // the plugin call that a command needs
    | Notifying(next: AfterNotify)   // CommandFinished(): signalling the client
    | PauseLoop(delayed: bool)       // Pause(): device call, or WaitForDelay()

  /**
   The fields of an output.  The last three are history: `run` lists the chunks played since
   the output was last opened, cancelled or unpaused, `start` is the position of the first of
   them in the log of all pushed chunks, and `origin` is where the head of the pipe stood in
   the log when that happened (after CANCEL: when the output was allowed to play again).
   */
  datatype Output = Output(
    fixedFormat: bool, open: bool, paused: bool, allowPlay: bool, inLoop: bool, woken: bool,
    command: Command, hasPipe: bool, current: Option<Chunk>, finished: bool,
    thread: Thread, start: nat, run: seq<Chunk>, origin: nat)

  datatype AfterSync = SyncToIdle | SyncToCloseAll

  /** Where the player thread stands inside an operation of MultipleOutputs. */
  datatype Player =
    | Idle
    | Sync(who: nat, resume: AfterSync)
    | NotifyPlay(next: nat)
    | CheckScan(next: nat)
    | ClearTail(next: nat, locked: set<nat>)
    | Unlock(chunk: Chunk, next: nat, locked: set<nat>)
    | ReturnChunk(chunk: Chunk)
    | CancelSend(next: nat) | CancelWait(next: nat) | CancelClear | AllowPlay(next: nat)
    | PauseSend(next: nat) | PauseWait(next: nat)
    | DrainSend(next: nat) | DrainWait(next: nat)
    | CloseAll(next: nat) | CloseClear

  /** `log` holds every chunk ever pushed; the first `base` of them have left the pipe. */
  datatype Shared = Shared(pipe: seq<Chunk>, log: seq<Chunk>, base: nat, player: Player)

  datatype System = System(shared: Shared, outs: seq<Output>, pool: set<Chunk>, fault: bool)

  datatype Action =
    | ThreadRuns(i: nat, ok: bool) | ThreadDelays(i: nat)
    | Allocate(chunk: Chunk)
    | UpdateOpen(i: nat) | UpdateReopen(i: nat) | UpdateUnpause(i: nat) | UpdateClose(i: nat)
    | SetEnabled(i: nat, on: bool)
    | Push(chunk: Chunk)
    | BeginCheck | BeginCancel | BeginPause | BeginDrain | BeginClose
    | PlayerRuns

  // ---------------------------------------------------------------------------------------
  // The pipe

  function IndexOf(pipe: seq<Chunk>, c: Chunk): (k: nat)
    requires c in pipe
    ensures k < |pipe| && pipe[k] == c
    ensures forall j :: 0 <= j < k ==> pipe[j] != c
  {
    if pipe[0] == c then 0 else 1 + IndexOf(pipe[1..], c)
  }

  /** `c->next` for a chunk in the pipe. */
  function Successor(pipe: seq<Chunk>, c: Chunk): Option<Chunk>
    requires c in pipe
  {
    var k := IndexOf(pipe, c);
    if k + 1 < |pipe| then Some(pipe[k + 1]) else None
  }

  // ---------------------------------------------------------------------------------------
  // Output thread (src/output/OutputThread.cxx)

  /** Does GetNextChunk() follow a pointer that is neither null nor into the pipe? */
  predicate BadPointer(o: Output, pipe: seq<Chunk>) {
    if o.current.Some? then o.current.value !in pipe else !o.hasPipe
  }

  function GetNextChunk(o: Output, pipe: seq<Chunk>): Option<Chunk> {
    match o.current
    case Some(c) => if c in pipe then Successor(pipe, c) else None
    case None => if pipe != [] then Some(pipe[0]) else None
  }

  function Finish(o: Output, next: AfterNotify): Output {
    o.(command := NoCommand, thread := Notifying(next))
  }

  function BeginDeviceClose(o: Output, reason: CloseReason): Output {
    o.(hasPipe := false, current := None, open := false, thread := ClosingDevice(reason))
  }

  function StartChunk(o: Output, c: Chunk, base: nat): Output {
    o.(current := Some(c), finished := false, inLoop := true, thread := Playing(c, false),
       start := if o.run == [] then base else o.start, run := o.run + [c])
  }

  function EndPlay(o: Output): Output {
    o.(inLoop := false, finished := true, thread := PlayReturn)
  }

  function RunCommand(o: Output, base: nat): Output
    requires o.command != NoCommand
  {
    match o.command
    case Enable => o.(thread := InDevice(Enable))
    case Disable => if o.open then BeginDeviceClose(o, ForDisable) else o.(thread := InDevice(Disable))
    case OpenIt => o.(thread := InDevice(OpenIt))
    case Reopen =>
      if o.open && !o.fixedFormat then BeginDeviceClose(o, ForReopen)
      else if o.open then o.(thread := InDevice(Reopen))
      else o.(thread := InDevice(OpenIt))
    case CloseIt => BeginDeviceClose(o, ForClose)
    case Pause => if o.open then o.(thread := InDevice(Pause)) else Finish(o, ToPlay)
    case Drain => if o.open then o.(thread := InDevice(Drain)) else Finish(o, ToHead)
    case Cancel =>
      var o' := o.(current := None, run := [], origin := base);
      if o.open then o'.(thread := InDevice(Cancel)) else Finish(o', ToHead)
  }

  /** Task() after the switch: play, or sleep, or go back to a command that has arrived. */
  function PlayCheck(o: Output, pipe: seq<Chunk>, base: nat): Output {
    var next := GetNextChunk(o, pipe);
    if o.open && o.allowPlay && next.Some? then
      if o.command == NoCommand then StartChunk(o, next.value, base) else EndPlay(o)
    else if o.command == NoCommand then o.(woken := false, thread := Waiting(false))
    else RunCommand(o, base)
  }

  /** The thread holds its mutex and is back in the loop of Task(). */
  function Back(o: Output): Output {
    o.(thread := PlayReturn)
  }

  function LoopHead(o: Output, pipe: seq<Chunk>, base: nat): Output {
    if o.command == NoCommand then PlayCheck(o, pipe, base) else RunCommand(o, base)
  }

  /** The plugin call for a command has returned. */
  function DeviceDone(o: Output, work: Command, base: nat, ok: bool): Output {
    match work
    case OpenIt => Finish(if ok then o.(open := true, run := [], origin := base) else o, ToPlay)
    case Reopen => if ok then Finish(o, ToPlay) else BeginDeviceClose(o, ForClose)
    case Pause => Finish(o.(paused := true), ToPause)
    case Drain => Finish(o, ToHead)
    case Cancel => Finish(o, ToHead)
    case _ => Finish(o, ToPlay)
  }

  /** The device is closed; continue where Close() was called. */
  function CloseDone(o: Output, reason: CloseReason, pipe: seq<Chunk>, base: nat): Output {
    match reason
    case AfterFailure => EndPlay(o)
    case AfterPause => LoopHead(Back(o.(paused := false)), pipe, base)
    case ForClose => Finish(o, ToPlay)
    case ForDisable => o.(thread := InDevice(Disable))
    case ForReopen => o.(hasPipe := true, thread := InDevice(OpenIt))
  }

  /** PlayChunk() has returned. */
  function ChunkDone(o: Output, c: Chunk, pipe: seq<Chunk>, base: nat, ok: bool): Output {
    var next := if c in pipe then Successor(pipe, c) else None;
    if !ok then BeginDeviceClose(o, AfterFailure)
    else if next.Some? && o.command == NoCommand then StartChunk(o, next.value, base)
    else EndPlay(o)
  }

  function PauseDone(o: Output, pipe: seq<Chunk>, base: nat, ok: bool): Output {
    if !ok then BeginDeviceClose(o, AfterPause)
    else if o.command != NoCommand then LoopHead(Back(o.(paused := false)), pipe, base)
    else o
  }

  /** WaitForDelay() has returned: false if a command has arrived, else the device is ready. */
  function DelayDone(o: Output, pipe: seq<Chunk>, base: nat): Output {
    match o.thread
    case Playing(c, _) => if o.command == NoCommand then o.(thread := Playing(c, false)) else EndPlay(o)
    case _ =>
      if o.command == NoCommand then o.(thread := PauseLoop(false))
      else LoopHead(Back(o.(paused := false)), pipe, base)
  }

  /** WaitForDelay() is called, but not for more data of a chunk or a pause that has been interrupted. */
  predicate CanDelay(o: Output) {
    o.thread == Notifying(ToPause) || ((o.thread.Playing? || o.thread.PauseLoop?) && o.command == NoCommand)
  }

  /** The device is not ready: the thread waits in WaitForDelay(). */
  function BeginDelay(o: Output): Output {
    o.(thread := if o.thread.Playing? then Playing(o.thread.chunk, true) else PauseLoop(true))
  }

  /** A device call whose failure closes the output is under way or follows without a look at the command. */
  predicate MayFail(t: Thread) {
    (t.Playing? && !t.delayed) || t == PauseLoop(false) || t == Notifying(ToPause)
  }

  function NotifyDone(o: Output, next: AfterNotify, pipe: seq<Chunk>, base: nat): Output {
    match next
    case ToHead => LoopHead(Back(o), pipe, base)
    case ToPlay => PlayCheck(Back(o), pipe, base)
    case ToPause => o.(thread := PauseLoop(false))
  }

  /** A thread takes its mutex and runs until it releases it again. */
  function ThreadStep(o: Output, pipe: seq<Chunk>, base: nat, ok: bool): Output {
    match o.thread
    case Waiting(_) => LoopHead(Back(o), pipe, base)
    case Playing(c, delayed) => if delayed then DelayDone(o, pipe, base) else ChunkDone(o, c, pipe, base, ok)
    case PlayReturn => LoopHead(o, pipe, base)
    case ClosingDevice(reason) => CloseDone(o, reason, pipe, base)
    case InDevice(work) => DeviceDone(o, work, base, ok)
    case Notifying(next) => NotifyDone(o, next, pipe, base)
    case PauseLoop(delayed) => if delayed then DelayDone(o, pipe, base) else PauseDone(o, pipe, base, ok)
  }

  /** Does the step reach PlayCheck() with an output that may play? */
  predicate WillLook(o: Output) {
    && o.open && o.allowPlay
    && match o.thread
       case Waiting(_) => o.command == NoCommand
       case PlayReturn => o.command == NoCommand
       case Notifying(next) => next == ToPlay || (next == ToHead && o.command == NoCommand)
       case _ => false
  }

  /** Does the step reach the command switch with a command? */
  predicate Dispatches(o: Output, pipe: seq<Chunk>, ok: bool) {
    && o.command != NoCommand
    && match o.thread
       case Waiting(_) => true
       case PlayReturn => true
       case Notifying(next) =>
         next == ToHead || (next == ToPlay && !(o.open && o.allowPlay && GetNextChunk(o, pipe).Some?))
       case ClosingDevice(reason) => reason == AfterPause
       case PauseLoop(delayed) => ok || delayed
       case _ => false
  }

  /** Does the step call Close() from outside of the CLOSE case? */
  predicate ClosesItself(o: Output, pipe: seq<Chunk>, ok: bool) {
    || (!ok && o.thread.Playing? && !o.thread.delayed)
    || (!ok && (o.thread == PauseLoop(false) || o.thread == InDevice(Reopen)))
    || (Dispatches(o, pipe, ok) && o.open && (o.command == Disable || (o.command == Reopen && !o.fixedFormat)))
  }

  /**
   The assertions and dereferences of an output thread's region: Play():515, :524, :528, :533,
   :537 and :541, GetNextChunk():505-509, CommandFinished():49, Open():136-138 and 186,
   Close():240, line 629 of the CLOSE case and the DRAIN case 654-655.  Line 628 of the CLOSE
   case is not among them, because it can fail; see `CloseFindsOutputOpenExactly`.
   */
  predicate ThreadAsserts(o: Output, pipe: seq<Chunk>, ok: bool) {
    && (WillLook(o) ==> o.hasPipe && !BadPointer(o, pipe) && !o.inLoop)
    && (o.thread.Playing? ==> o.thread.chunk in pipe && o.current == Some(o.thread.chunk) && !o.finished)
    && (o.thread.Playing? || o.thread == ClosingDevice(AfterFailure) ==> o.inLoop)
    && (o.thread == ClosingDevice(AfterFailure) ==> o.current == None)
    && (o.thread.InDevice? || o.thread == ClosingDevice(ForClose) ==> o.command != NoCommand)
    && (o.thread == InDevice(OpenIt) ==> !o.open)
    && (ClosesItself(o, pipe, ok) ==> o.open)
    && (Dispatches(o, pipe, ok) ==>
        && (o.command == OpenIt || (o.command == Reopen && !o.open) ==> !o.open && o.hasPipe && o.current == None)
        && (o.command == CloseIt && o.open ==> o.hasPipe)
        && (o.command == Drain && o.open ==> o.current == None && o.hasPipe && pipe == []))
  }

  // ---------------------------------------------------------------------------------------
  // Player thread (src/output/MultipleOutputs.cxx, src/output/OutputControl.cxx)

  function Signal(o: Output): Output {
    if o.thread.Waiting? then o.(thread := Waiting(true)) else o
  }

  function Send(o: Output, cmd: Command): Output {
    Signal(o.(command := cmd))
  }

  function LockPlay(o: Output): Output {
    if o.open && !o.inLoop && !o.woken then Signal(o.(woken := true)) else o
  }

  function LockAllowPlay(o: Output, base: nat): Output {
    var o' := o.(allowPlay := true);
    if o.open then Signal(o'.(origin := base)) else o'
  }

  /** chunk_is_consumed_in() for the head of the pipe */
  predicate Consumed(o: Output, pipe: seq<Chunk>)
    requires pipe != []
  {
    || !o.open
    || (&& o.current.Some?
        && (o.current.value != pipe[0] || (o.finished && |pipe| == 1)))
  }

  function Locked(p: Player): set<nat> {
    match p
    case ClearTail(_, locked) => locked
    case Unlock(_, _, locked) => locked
    case _ => {}
  }

  function SetPlayer(s: System, p: Player): System {
    s.(shared := s.shared.(player := p))
  }

  function SetOut(s: System, i: nat, o: Output, p: Player): System
    requires i < |s.outs|
  {
    s.(outs := s.outs[i := o], shared := s.shared.(player := p))
  }

  /** Take the head off the pipe. */
  function Shift(h: Shared): Shared
    requires h.pipe != []
  {
    h.(pipe := h.pipe[1..], base := h.base + 1)
  }

  /** pipe->Clear(): one chunk goes back to the pool, or the pipe is empty. */
  function ClearStep(s: System, done: Player): System {
    if s.shared.pipe == [] then SetPlayer(s, done)
    else s.(shared := Shift(s.shared), pool := s.pool + {s.shared.pipe[0]})
  }

  /** One region of the operation the player is in. */
  function PlayerStep(s: System): System {
    var n := |s.outs|;
    var pipe := s.shared.pipe;
    match s.shared.player
    case Idle => s
    case Sync(i, resume) =>
      if i < n && s.outs[i].command != NoCommand then s
      else SetPlayer(s, if resume == SyncToIdle then Idle else CloseAll(i + 1))
    case NotifyPlay(i) =>
      if i < n then SetOut(s, i, LockPlay(s.outs[i]), NotifyPlay(i + 1)) else SetPlayer(s, Idle)
    case CheckScan(i) =>
      if pipe == [] then SetPlayer(s, Idle)
      else if i < n then
        SetPlayer(s, if Consumed(s.outs[i], pipe) then CheckScan(i + 1) else Idle)
      else if |pipe| == 1 then SetPlayer(s, ClearTail(0, {}))
      else s.(shared := Shift(s.shared).(player := ReturnChunk(pipe[0])))
    case ClearTail(i, locked) =>
      if i < n then
        if s.outs[i].open then
          SetOut(s, i, s.outs[i].(current := None), ClearTail(i + 1, locked + {i}))
        else SetPlayer(s, ClearTail(i + 1, locked))
      else if pipe == [] then SetPlayer(s, Idle)
      else s.(shared := Shift(s.shared).(player := Unlock(pipe[0], 0, locked)))
    case Unlock(c, i, locked) =>
      SetPlayer(s, if i < n then Unlock(c, i + 1, locked - {i}) else ReturnChunk(c))
    case ReturnChunk(c) =>
      SetPlayer(s.(pool := s.pool + {c}), if pipe == [] then Idle else CheckScan(0))
    case CancelSend(i) =>
      if i >= n then SetPlayer(s, CancelWait(0))
      else if s.outs[i].open then SetOut(s, i, Send(s.outs[i].(allowPlay := false), Cancel), CancelSend(i + 1))
      else SetPlayer(s, CancelSend(i + 1))
    case CancelWait(i) =>
      SetPlayer(s, if i >= n then CancelClear else if Unfinished(s.outs[i]) then CancelWait(0) else CancelWait(i + 1))
    case CancelClear => ClearStep(s, AllowPlay(0))
    case AllowPlay(i) =>
      if i < n then SetOut(s, i, LockAllowPlay(s.outs[i], s.shared.base), AllowPlay(i + 1)) else SetPlayer(s, Idle)
    case PauseSend(i) =>
      if i >= n then SetPlayer(s, PauseWait(0))
      else if s.outs[i].open then SetOut(s, i, Send(s.outs[i], Pause), PauseSend(i + 1))
      else SetPlayer(s, PauseSend(i + 1))
    case PauseWait(i) =>
      SetPlayer(s, if i >= n then Idle else if Unfinished(s.outs[i]) then PauseWait(0) else PauseWait(i + 1))
    case DrainSend(i) =>
      if i >= n then SetPlayer(s, DrainWait(0))
      else if s.outs[i].open then SetOut(s, i, Send(s.outs[i], Drain), DrainSend(i + 1))
      else SetPlayer(s, DrainSend(i + 1))
    case DrainWait(i) =>
      SetPlayer(s, if i >= n then Idle else if Unfinished(s.outs[i]) then DrainWait(0) else DrainWait(i + 1))
    case CloseAll(i) =>
      if i >= n then SetPlayer(s, CloseClear)
      else if s.outs[i].open then SetOut(s, i, Send(s.outs[i], CloseIt), Sync(i, SyncToCloseAll))
      else SetPlayer(s, CloseAll(i + 1))
    case CloseClear => ClearStep(s, Idle)
  }

  /** AllFinished(): a closed output counts as finished whatever its command is. */
  predicate Unfinished(o: Output) {
    o.open && o.command != NoCommand
  }

  /**
   The assertions of the player's regions: MultipleOutputs.cxx:269-273, 296 and 312-313, and
   `allow_play` in LockPlay(), LockPauseAsync(), LockDrainAsync() and CloseWait().  Line 52 of
   OutputControl.cxx (no command is pending) is not among them, because it can fail; see
   `CommandStaysPendingExactly`.
   */
  predicate PlayerAsserts(s: System) {
    var pipe := s.shared.pipe;
    match s.shared.player
    case CheckScan(i) =>
      && pipe != []
      && (i < |s.outs| && s.outs[i].open && s.outs[i].current.Some? ==>
          && s.outs[i].current.value in pipe
          && (s.outs[i].current.value != pipe[0] ==> |pipe| > 1))
    case ClearTail(i, _) =>
      && |pipe| == 1
      && (i < |s.outs| && s.outs[i].open ==> s.outs[i].current == Some(pipe[0]) && s.outs[i].finished)
    case NotifyPlay(i) => i < |s.outs| ==> s.outs[i].allowPlay
    case PauseSend(i) => i < |s.outs| ==> s.outs[i].allowPlay
    case DrainSend(i) => i < |s.outs| ==> s.outs[i].allowPlay
    case CloseAll(i) => i < |s.outs| ==> s.outs[i].allowPlay
    case _ => true
  }

  /** The assertions of AudioOutput::Open() and CloseWait() (OutputControl.cxx:110, 116, 162). */
  predicate UpdateAsserts(s: System, i: nat) {
    i < |s.outs| ==> s.outs[i].allowPlay && (s.outs[i].open ==> s.outs[i].hasPipe)
  }

  // ---------------------------------------------------------------------------------------
  // The system

  predicate Enabled(s: System, a: Action) {
    var idle := s.shared.player == Idle;
    match a
    case ThreadRuns(i, _) => i < |s.outs| && i !in Locked(s.shared.player)
    case ThreadDelays(i) => i < |s.outs| && i !in Locked(s.shared.player) && CanDelay(s.outs[i])
    case Allocate(c) => c in s.pool
    case UpdateOpen(i) => idle && i < |s.outs| && !s.outs[i].open
    // a format change is only made with an empty pipe (MultipleOutputs.cxx:226)
    case UpdateReopen(i) => idle && i < |s.outs| && s.outs[i].open && s.shared.pipe == []
    case UpdateUnpause(i) => idle && i < |s.outs| && s.outs[i].open && s.outs[i].paused
    case UpdateClose(i) => idle && i < |s.outs| && s.outs[i].open
    case SetEnabled(i, _) => idle && i < |s.outs|
    case Push(c) => idle && c !in s.pool && c !in s.shared.pipe
    // the player drains when Check() has returned zero (PlayerThread.cxx:1044-1069)
    case BeginDrain => idle && s.shared.pipe == []
    case PlayerRuns => true
    case _ => idle
  }

  /** LockUpdate() has sent a command to output `i`, and waits for it. */
  function Update(s: System, i: nat, o: Output): System
    requires i < |s.outs|
  {
    SetOut(s, i, o, Sync(i, SyncToIdle)).(fault := s.fault || !UpdateAsserts(s, i))
  }

  function Apply(s: System, a: Action): System
    requires Enabled(s, a)
  {
    var h := s.shared;
    match a
    case ThreadRuns(i, ok) =>
      s.(outs := s.outs[i := ThreadStep(s.outs[i], h.pipe, h.base, ok)],
         fault := s.fault || !ThreadAsserts(s.outs[i], h.pipe, ok))
    case ThreadDelays(i) => s.(outs := s.outs[i := BeginDelay(s.outs[i])])
    case Allocate(c) => s.(pool := s.pool - {c})
    case UpdateOpen(i) =>
      Update(s, i, Send(s.outs[i].(current := None, hasPipe := true), OpenIt))
    case UpdateReopen(i) =>
      Update(s, i, Send(s.outs[i].(current := None, run := [], origin := h.base, hasPipe := true), Reopen))
    case UpdateUnpause(i) =>
      Update(s, i, Send(s.outs[i].(current := None, run := [], origin := h.base, hasPipe := true), Cancel))
    case UpdateClose(i) => Update(s, i, Send(s.outs[i], CloseIt))
    case SetEnabled(i, on) =>
      SetOut(s, i, Send(s.outs[i], if on then Enable else Disable), Sync(i, SyncToIdle))
    case Push(c) =>
      s.(shared := h.(pipe := h.pipe + [c], log := h.log + [c], player := NotifyPlay(0)))
    case BeginCheck => SetPlayer(s, if h.pipe == [] then Idle else CheckScan(0))
    case BeginCancel => SetPlayer(s, CancelSend(0))
    case BeginPause => SetPlayer(s, PauseSend(0))
    case BeginDrain => SetPlayer(s, DrainSend(0))
    case BeginClose => SetPlayer(s, CloseAll(0))
    case PlayerRuns => PlayerStep(s).(fault := s.fault || !PlayerAsserts(s))
  }

  ghost predicate IsRun(trace: seq<System>, actions: seq<Action>) {
    && |trace| == |actions| + 1
    && forall k :: 0 <= k < |actions| ==>
         Enabled(trace[k], actions[k]) && trace[k + 1] == Apply(trace[k], actions[k])
  }

  ghost predicate FreshOutput(o: Output) {
    && !o.open && !o.paused && o.allowPlay && !o.inLoop && !o.woken && o.command == NoCommand
    && o.current == None && o.thread == Waiting(false) && o.run == [] && o.start == 0
  }

  ghost predicate Init(s: System) {
    && s.shared == Shared([], [], 0, Idle) && !s.fault
    && forall i :: 0 <= i < |s.outs| ==> FreshOutput(s.outs[i])
  }

  /**
   The format of an output is not changed while its device is being paused.  With such a change
   a run can reach a null pipe, and only then (`ReopenFaultsExactly`).
   */
  predicate Disciplined(s: System, a: Action) {
    a.UpdateReopen? && a.i < |s.outs| ==> !(s.outs[a.i].paused && MayFail(s.outs[a.i].thread))
  }

  ghost predicate IsDisciplinedRun(trace: seq<System>, actions: seq<Action>) {
    IsRun(trace, actions) && forall k :: 0 <= k < |actions| ==> Disciplined(trace[k], actions[k])
  }
}
