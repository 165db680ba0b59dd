/**
 Where the run of an output starts: `origin` is the head of the pipe at the moment the output
 opens or forgets its run.
 */
module OutputOrigin {
  import opened Common
  import opened OutputPipeline
  import opened OutputSafety

  /** `origin` stays or becomes `base`; it does so if the output opens or forgets its run. */
  predicate OriginStep(o: Output, o': Output, base: nat) {
    && (o'.origin == o.origin || (o'.origin == base && o'.run == []))
    && ((!o.open && o'.open) || (o.run != [] && o'.run == []) ==> o'.origin == base)
  }

  lemma PrimitiveOrigins(o: Output, base: nat)
    ensures forall next :: OriginStep(o, Finish(o, next), base)
    ensures forall reason :: OriginStep(o, BeginDeviceClose(o, reason), base)
    ensures OriginStep(o, EndPlay(o), base)
  {
  }

  lemma ForgetOrigin(o: Output, next: AfterNotify, base: nat)
    ensures OriginStep(o, Finish(o.(current := None, run := [], origin := base), next), base)
    ensures OriginStep(o, Finish(o.(open := true, run := [], origin := base), next), base)
    ensures OriginStep(o, o.(current := None, run := [], origin := base, thread := InDevice(Cancel)), base)
  {
  }

  lemma RunCommandOrigin(o: Output, base: nat)
    requires o.command != NoCommand
    ensures OriginStep(o, RunCommand(o, base), base)
  {
    PrimitiveOrigins(o, base);
    ForgetOrigin(o, ToHead, base);
    assert forall work :: OriginStep(o, o.(thread := InDevice(work)), base);
    hide OriginStep, Finish, BeginDeviceClose;
    match o.command {
      case Enable => case Disable => case OpenIt => case Reopen => case CloseIt =>
      case Pause => case Drain => case Cancel =>
    }
  }

  lemma PlayCheckOrigin(o: Output, pipe: seq<Chunk>, base: nat)
    ensures OriginStep(o, PlayCheck(o, pipe, base), base)
  {
    hide GetNextChunk, RunCommand;
    if o.command != NoCommand {
      RunCommandOrigin(o, base);
    }
  }

  lemma LoopHeadOrigin(o: Output, pipe: seq<Chunk>, base: nat)
    ensures OriginStep(o, LoopHead(o, pipe, base), base)
  {
    hide PlayCheck, RunCommand, OriginStep;
    if o.command != NoCommand {
      RunCommandOrigin(o, base);
    } else {
      PlayCheckOrigin(o, pipe, base);
    }
  }

  lemma BackOrigin(o: Output, o': Output, base: nat)
    requires OriginStep(Back(o), o', base)
    ensures OriginStep(o, o', base)
  {
  }

  lemma ChunkOrigin(o: Output, c: Chunk, pipe: seq<Chunk>, base: nat, ok: bool)
    ensures OriginStep(o, ChunkDone(o, c, pipe, base, ok), base)
  {
    PrimitiveOrigins(o, base);
    assert forall next :: OriginStep(o, StartChunk(o, next, base), base);
    hide OriginStep, StartChunk, EndPlay, BeginDeviceClose, Successor;
  }

  lemma DeviceOrigin(o: Output, work: Command, base: nat, ok: bool)
    ensures OriginStep(o, DeviceDone(o, work, base, ok), base)
  {
    PrimitiveOrigins(o, base);
    ForgetOrigin(o, ToPlay, base);
    assert OriginStep(o, Finish(o.(paused := true), ToPause), base);
    hide OriginStep, Finish, BeginDeviceClose;
    match work {
      case NoCommand => case Enable => case Disable => case OpenIt => case Reopen => case CloseIt =>
      case Pause => case Drain => case Cancel =>
    }
  }

  lemma CloseOrigin(o: Output, reason: CloseReason, pipe: seq<Chunk>, base: nat)
    ensures OriginStep(o, CloseDone(o, reason, pipe, base), base)
  {
    PrimitiveOrigins(o, base);
    assert OriginStep(o, o.(thread := InDevice(Disable)), base);
    assert OriginStep(o, o.(hasPipe := true, thread := InDevice(OpenIt)), base);
    PausedHeadOrigin(o, pipe, base);
    hide OriginStep, Finish, EndPlay, LoopHead;
  }

  lemma PausedHeadOrigin(o: Output, pipe: seq<Chunk>, base: nat)
    ensures OriginStep(o, LoopHead(Back(o.(paused := false)), pipe, base), base)
  {
    LoopHeadOrigin(Back(o.(paused := false)), pipe, base);
    hide LoopHead;
  }

  lemma PauseOrigin(o: Output, pipe: seq<Chunk>, base: nat, ok: bool)
    ensures OriginStep(o, PauseDone(o, pipe, base, ok), base) && OriginStep(o, o.(thread := PauseLoop(false)), base)
  {
    PrimitiveOrigins(o, base);
    PausedHeadOrigin(o, pipe, base);
    assert OriginStep(o, o, base);
    hide LoopHead, BeginDeviceClose;
  }

  lemma DelayOrigin(o: Output, pipe: seq<Chunk>, base: nat)
    ensures OriginStep(o, BeginDelay(o), base)
    ensures OriginStep(o, DelayDone(o, pipe, base), base)
  {
    PrimitiveOrigins(o, base);
    PausedHeadOrigin(o, pipe, base);
    assert forall thread :: OriginStep(o, o.(thread := thread), base);
    hide LoopHead, EndPlay, OriginStep;
  }

  lemma ThreadOrigin(o: Output, pipe: seq<Chunk>, base: nat, ok: bool)
    ensures OriginStep(o, ThreadStep(o, pipe, base, ok), base)
  {
    hide OriginStep, LoopHead, PlayCheck, ChunkDone, DeviceDone, CloseDone, PauseDone, DelayDone;
    LoopHeadOrigin(Back(o), pipe, base);
    BackOrigin(o, LoopHead(Back(o), pipe, base), base);
    PlayCheckOrigin(Back(o), pipe, base);
    BackOrigin(o, PlayCheck(Back(o), pipe, base), base);
    PauseOrigin(o, pipe, base, ok);
    DelayOrigin(o, pipe, base);
    match o.thread {
      case Playing(c, _) => ChunkOrigin(o, c, pipe, base, ok);
      case InDevice(work) => DeviceOrigin(o, work, base, ok);
      case ClosingDevice(reason) => CloseOrigin(o, reason, pipe, base);
      case PlayReturn => LoopHeadOrigin(o, pipe, base);
      case _ =>
    }
  }

  lemma AllowOrigin(s: System, i: nat)
    requires i < |s.outs| && OutputInv(s.outs[i], i, s.shared) && s.shared.player.AllowPlay?
    ensures i < |PlayerStep(s).outs| && OriginStep(s.outs[i], PlayerStep(s).outs[i], s.shared.base)
  {
    hide ThreadInv;
  }

  predicate SameHistory(o: Output, o': Output) {
    o'.origin == o.origin && o'.open == o.open && o'.run == o.run
  }

  lemma PlayerOrigin(s: System, i: nat)
    requires i < |s.outs| && !s.shared.player.AllowPlay?
    ensures i < |PlayerStep(s).outs| && SameHistory(s.outs[i], PlayerStep(s).outs[i])
  {
    ClearKeepsOutputs(s);
    hide Consumed, ClearStep, LockAllowPlay, Shift, Unfinished;
    match s.shared.player {
      case CancelSend(k) =>
      case PauseSend(k) =>
      case DrainSend(k) =>
      case CloseAll(k) =>
      case NotifyPlay(k) =>
      case ClearTail(k, locked) =>
      case _ =>
    }
  }

  lemma ClearKeepsOutputs(s: System)
    ensures ClearStep(s, Idle).outs == s.outs && ClearStep(s, AllowPlay(0)).outs == s.outs
  {
  }

  lemma OtherOrigin(s: System, a: Action, i: nat)
    requires Enabled(s, a) && i < |s.outs| && !a.ThreadRuns? && !a.ThreadDelays? && !a.PlayerRuns?
    ensures i < |Apply(s, a).outs| && OriginStep(s.outs[i], Apply(s, a).outs[i], s.shared.base)
  {
    hide UpdateAsserts, Locked, CanDelay;
    assert OriginStep(s.outs[i], s.outs[i], s.shared.base);
    assert forall cmd :: OriginStep(s.outs[i], Send(s.outs[i], cmd), s.shared.base);
    hide Send, OriginStep;
    match a {
      case UpdateOpen(k) => SentOrigin(s.outs[i], OpenIt, s.shared.base);
      case UpdateReopen(k) => SentOrigin(s.outs[i], Reopen, s.shared.base);
      case UpdateUnpause(k) => SentOrigin(s.outs[i], Cancel, s.shared.base);
      case _ =>
    }
  }

  lemma SentOrigin(o: Output, cmd: Command, base: nat)
    ensures OriginStep(o, Send(o.(current := None, hasPipe := true), cmd), base)
    ensures OriginStep(o, Send(o.(current := None, run := [], origin := base, hasPipe := true), cmd), base)
  {
  }

  /**
   `origin` only ever becomes the present head of the pipe, with an empty run, and it does so
   whenever the output opens or its run is forgotten.
   */
  lemma OriginIsPipeHead(s: System, a: Action, i: nat)
    requires Inv(s) && Enabled(s, a) && i < |s.outs|
    ensures i < |Apply(s, a).outs| && OriginStep(s.outs[i], Apply(s, a).outs[i], s.shared.base)
  {
    assert OutputInv(s.outs[i], i, s.shared);
    hide ThreadStep, PlayerStep, OutputInv, ThreadAsserts, PlayerAsserts;
    if a.ThreadRuns? {
      ThreadOrigin(s.outs[a.i], s.shared.pipe, s.shared.base, a.ok);
    } else if a.ThreadDelays? {
      DelayOrigin(s.outs[a.i], s.shared.pipe, s.shared.base);
    } else if !a.PlayerRuns? {
      OtherOrigin(s, a, i);
    } else if s.shared.player.AllowPlay? {
      AllowOrigin(s, i);
    } else {
      PlayerOrigin(s, i);
    }
  }
}
