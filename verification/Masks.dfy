/**
 Event bits that several threads OR into a mask and a deferred callback takes out again:
 MaskMonitor, and the two-level chain idle_add / GlobalEvents::Emit of version 0.19.  Both
 run on top of the event loop of module EventLoop.
 */
module Masks {
  import E = EventLoop

  /** An `unsigned` bit mask is the set of the positions of its bits. */
  type Bits = set<nat>

  /** Bits were OR-ed into the mask, taken out of it, or given to a callback. */
  datatype Event = Ored(bits: Bits) | Took(bits: Bits) | Delivered(bits: Bits)

  /** The bits that were OR-ed and that no later callback has delivered. */
  function Owed(log: seq<Event>): Bits {
    if log == [] then {} else AfterEvent(Owed(log[..|log| - 1]), log[|log| - 1])
  }

  function AfterEvent(owed: Bits, e: Event): Bits {
    match e
    case Ored(bits) => owed + bits
    case Took(_) => owed
    case Delivered(bits) => owed - bits
  }

  lemma OwedExtends(log: seq<Event>, e: Event)
    ensures Owed(log + [e]) == AfterEvent(Owed(log), e)
  {
    assert (log + [e])[..|log|] == log;
  }

  /** The bits OR-ed since the mask was last taken. */
  function Gathered(log: seq<Event>): Bits {
    if log == [] then {} else Gather(Gathered(log[..|log| - 1]), log[|log| - 1])
  }

  function Gather(gathered: Bits, e: Event): Bits {
    match e
    case Ored(bits) => gathered + bits
    case Took(_) => {}
    case Delivered(_) => gathered
  }

  /** What was taken and not delivered yet. */
  function Held(log: seq<Event>): Bits {
    if log == [] then {} else Hold(Held(log[..|log| - 1]), log[|log| - 1])
  }

  function Hold(held: Bits, e: Event): Bits {
    match e
    case Ored(_) => held
    case Took(bits) => bits
    case Delivered(_) => {}
  }

  /** Every callback was given exactly what was OR-ed between two takings, and each taking once. */
  ghost predicate Exact(log: seq<Event>) {
    forall k :: 0 <= k < |log| ==> ExactAt(log[..k], log[k])
  }

  predicate ExactAt(before: seq<Event>, e: Event) {
    match e
    case Ored(_) => true
    case Took(bits) => bits == Gathered(before) && Held(before) == {}
    case Delivered(bits) => bits == Held(before) != {}
  }

  lemma LogExtends(log: seq<Event>, e: Event)
    requires Exact(log) && ExactAt(log, e)
    ensures Exact(log + [e])
    ensures Gathered(log + [e]) == Gather(Gathered(log), e) && Held(log + [e]) == Hold(Held(log), e)
  {
    hide ExactAt;
    var log' := log + [e];
    assert log'[..|log|] == log;
    forall k | 0 <= k < |log'|
      ensures ExactAt(log'[..k], log'[k])
    {
      if k < |log| {
        assert log'[..k] == log[..k];
      }
    }
  }

  /** What the callbacks were given, in order. */
  function Deliveries(log: seq<Event>): seq<Bits> {
    if log == [] then []
    else
      var last := log[|log| - 1];
      Deliveries(log[..|log| - 1]) + (if last.Delivered? then [last.bits] else [])
  }

  lemma DeliveriesExtend(log: seq<Event>, e: Event)
    ensures Deliveries(log + [e]) == Deliveries(log) + (if e.Delivered? then [e.bits] else [])
  {
    assert (log + [e])[..|log|] == log;
  }

  /** Does this action of the loop thread pop the monitor and call its RunDeferred()? */
  predicate Pops(loop: E.State, me: E.Monitor, a: E.Action) {
    a.LoopRuns? && loop.pc.Deferred? && loop.deferred != [] && !loop.quit && loop.deferred[0] == me
  }

  predicate ForeignAction(me: E.Monitor, a: E.Action) {
    a != E.AddDeferred(me) && a != E.RemoveDeferred(me)
  }

  /** Only the monitor's own calls and a pop change whether it is scheduled. */
  lemma PendingFrame(loop: E.State, me: E.Monitor, a: E.Action)
    requires E.Inv(loop) && E.Enabled(loop, a) && ForeignAction(me, a)
    ensures me in E.Apply(loop, a).pending <==> me in loop.pending && !Pops(loop, me, a)
    ensures Pops(loop, me, a) ==> E.Apply(loop, a).pc.Callback?
    ensures !a.LoopRuns? ==> E.Apply(loop, a).pc == loop.pc
  {
    if a.LoopRuns? && loop.pc.Deferred? && loop.deferred != [] {
      assert loop.deferred[0] in loop.pending;
    }
  }

  // ---------------------------------------------------------------------------------------
  // MaskMonitor (src/event/MaskMonitor.cxx)

  datatype Phase = Away | Entered | Got(mask: Bits)

  /** `schedulers`: threads whose fetch_or() returned 0 and that have not called Schedule() yet. */
  datatype Mask = Mask(loop: E.State, me: E.Monitor, mask: Bits, schedulers: nat, phase: Phase, log: seq<Event>)

  datatype MaskAction = Loop(a: E.Action) | Or(bits: Bits) | Schedule | Exchange | Deliver | Cancel

  predicate MaskEnabled(s: Mask, a: MaskAction) {
    match a
    case Loop(x) => E.Enabled(s.loop, x) && ForeignAction(s.me, x) && (x.LoopRuns? ==> s.phase == Away)
    case Or(_) => true
    case Schedule => s.schedulers > 0
    case Exchange => s.phase == Entered
    case Deliver => s.phase.Got?
    case Cancel => true
  }

  function MaskApply(s: Mask, a: MaskAction): Mask
    requires MaskEnabled(s, a)
  {
    match a
    case Loop(x) => s.(loop := E.Apply(s.loop, x), phase := if Pops(s.loop, s.me, x) then Entered else s.phase)
    case Or(bits) =>
      s.(mask := s.mask + bits, log := s.log + [Ored(bits)],
         schedulers := if s.mask == {} then s.schedulers + 1 else s.schedulers)
    case Schedule => s.(schedulers := s.schedulers - 1, loop := E.Apply(s.loop, E.AddDeferred(s.me)))
    case Exchange =>
      s.(mask := {}, phase := if s.mask != {} then Got(s.mask) else Away, log := s.log + [Took(s.mask)])
    case Deliver => s.(phase := Away, log := s.log + [Delivered(s.phase.mask)])
    case Cancel => s.(loop := E.Apply(s.loop, E.RemoveDeferred(s.me)))
  }

  ghost predicate MaskInit(s: Mask) {
    E.Init(s.loop) && s.mask == {} && s.schedulers == 0 && s.phase == Away && s.log == []
  }

  ghost predicate IsMaskRun(trace: seq<Mask>, actions: seq<MaskAction>) {
    && |trace| == |actions| + 1
    && forall k :: 0 <= k < |actions| ==>
         MaskEnabled(trace[k], actions[k]) && trace[k + 1] == MaskApply(trace[k], actions[k])
  }

  /** A non-zero mask is scheduled, about to be scheduled, or about to be taken. */
  ghost predicate Backed(s: Mask) {
    s.mask != {} ==> s.me in s.loop.pending || s.phase == Entered || s.schedulers > 0
  }

  /** The bits a running callback has taken and is about to deliver. */
  function Taken(p: Phase): Bits {
    if p.Got? then p.mask else {}
  }

  /** What holds whether or not the monitor is ever cancelled. */
  ghost predicate MaskBase(s: Mask) {
    && E.Inv(s.loop)
    && (s.phase != Away ==> s.loop.pc.Callback?)
    && Owed(s.log) <= s.mask + Taken(s.phase)
    && Exact(s.log) && s.mask == Gathered(s.log) && Taken(s.phase) == Held(s.log)
    && (s.phase.Got? ==> s.phase.mask != {})
  }

  lemma MaskStepBase(s: Mask, a: MaskAction)
    requires MaskBase(s) && MaskEnabled(s, a)
    ensures MaskBase(MaskApply(s, a))
  {
    hide E.Inv, E.Apply, Exact;
    match a {
      case Loop(x) => E.StepKeepsInv(s.loop, x); PendingFrame(s.loop, s.me, x);
      case Or(bits) => OwedExtends(s.log, Ored(bits)); LogExtends(s.log, Ored(bits));
      case Exchange => OwedExtends(s.log, Took(s.mask)); LogExtends(s.log, Took(s.mask));
      case Schedule => E.StepKeepsInv(s.loop, E.AddDeferred(s.me)); OwnCalls(s.loop, s.me);
      case Deliver => OwedExtends(s.log, Delivered(s.phase.mask)); LogExtends(s.log, Delivered(s.phase.mask));
      case Cancel => E.StepKeepsInv(s.loop, E.RemoveDeferred(s.me)); OwnCalls(s.loop, s.me);
    }
  }

  lemma OwnCalls(loop: E.State, me: E.Monitor)
    requires E.Inv(loop)
    ensures me in E.Apply(loop, E.AddDeferred(me)).pending && E.Apply(loop, E.AddDeferred(me)).pc == loop.pc
    ensures me !in E.Apply(loop, E.RemoveDeferred(me)).pending && E.Apply(loop, E.RemoveDeferred(me)).pc == loop.pc
  {
  }

  lemma MaskStepBacked(s: Mask, a: MaskAction)
    requires MaskBase(s) && Backed(s) && MaskEnabled(s, a) && a != Cancel
    ensures Backed(MaskApply(s, a))
  {
    hide E.Inv, E.Apply;
    match a {
      case Loop(x) => PendingFrame(s.loop, s.me, x);
      case Schedule => OwnCalls(s.loop, s.me);
      case _ =>
    }
  }

  lemma {:induction false} MaskRunInv(trace: seq<Mask>, actions: seq<MaskAction>, k: nat)
    requires IsMaskRun(trace, actions) && MaskInit(trace[0]) && k < |trace|
    ensures MaskBase(trace[k])
    ensures Cancel !in actions[..k] ==> Backed(trace[k])
  {
    hide MaskApply, MaskEnabled, E.Inv;
    if k > 0 {
      MaskRunInv(trace, actions, k - 1);
      assert actions[..k] == actions[..k - 1] + [actions[k - 1]];
      MaskStepBase(trace[k - 1], actions[k - 1]);
      if Cancel !in actions[..k] {
        MaskStepBacked(trace[k - 1], actions[k - 1]);
      }
    } else {
      MaskStarts(trace[0]);
    }
  }

  lemma MaskStarts(s: Mask)
    requires MaskInit(s)
    ensures MaskBase(s) && Backed(s)
  {
    E.RunKeepsInv([s.loop], [], 0);
    hide E.Inv;
  }

  /**
   No event bit is lost while the monitor is not cancelled: every OR-ed bit that no callback
   has delivered since is in the mask or in a callback that runs, and a loop that is blocked
   in poll() with a non-zero mask has been, or is about to be, woken up.
   */
  lemma NoLostEventBit(trace: seq<Mask>, actions: seq<MaskAction>, k: nat)
    requires IsMaskRun(trace, actions) && MaskInit(trace[0]) && k < |trace| && Cancel !in actions[..k]
    ensures var s := trace[k];
            && Backed(s)
            && Owed(s.log) <= s.mask + Taken(s.phase)
            && (s.loop.pc == E.Polling && Owed(s.log) != {} ==>
                s.schedulers > 0 || s.loop.wake || s.loop.writers > 0)
  {
    MaskRunInv(trace, actions, k);
    var s := trace[k];
    if s.loop.pc == E.Polling && Owed(s.log) != {} {
      assert s.mask != {};
      if s.schedulers == 0 {
        assert s.me in s.loop.deferred;
      }
    }
  }

  /**
   With or without Cancel(), every callback gets exactly the bits that were OR-ed since the mask
   was taken before, never none, and none twice; the mask holds those OR-ed since.
   */
  lemma DeliversExactly(trace: seq<Mask>, actions: seq<MaskAction>, k: nat)
    requires IsMaskRun(trace, actions) && MaskInit(trace[0]) && k < |trace|
    ensures Exact(trace[k].log) && trace[k].mask == Gathered(trace[k].log)
    ensures Taken(trace[k].phase) == Held(trace[k].log)
  {
    MaskRunInv(trace, actions, k);
  }

  /** A mask that nobody will look at. */
  predicate Stuck(s: Mask) {
    s.mask != {} && s.me !in s.loop.pending && s.phase != Entered && s.schedulers == 0
  }

  /** From `s` on nothing was delivered but what a callback had taken by then. */
  predicate NothingNew(s: Mask, e: Mask) {
    || (e.phase == s.phase && Deliveries(e.log) == Deliveries(s.log))
    || (s.phase.Got? && e.phase == Away && Deliveries(e.log) == Deliveries(s.log) + [s.phase.mask])
  }

  lemma StuckStep(s: Mask, a: MaskAction)
    requires MaskBase(s) && MaskEnabled(s, a) && Stuck(s)
    ensures Stuck(MaskApply(s, a)) && s.mask <= MaskApply(s, a).mask && NothingNew(s, MaskApply(s, a))
  {
    hide E.Inv, E.Apply;
    match a {
      case Loop(x) =>
        PendingFrame(s.loop, s.me, x);
        if Pops(s.loop, s.me, x) { PopNeedsPending(s.loop, s.me, x); }
      case Or(bits) => DeliveriesExtend(s.log, Ored(bits));
      case Deliver => DeliveriesExtend(s.log, Delivered(s.phase.mask));
      case Cancel => OwnCalls(s.loop, s.me);
      case _ =>
    }
  }

  lemma NothingNewTransitive(s: Mask, m: Mask, e: Mask)
    requires NothingNew(s, m) && NothingNew(m, e)
    ensures NothingNew(s, e)
  {
  }

  /**
   A stuck mask keeps its bits for good, whatever happens, and is never delivered: OrMask() no
   longer schedules.
   */
  lemma {:induction false} StuckForever(trace: seq<Mask>, actions: seq<MaskAction>, j: nat, k: nat)
    requires IsMaskRun(trace, actions) && MaskInit(trace[0]) && j <= k < |trace| && Stuck(trace[j])
    ensures Stuck(trace[k]) && trace[j].mask <= trace[k].mask && NothingNew(trace[j], trace[k])
    ensures trace[j].phase == Away ==> Deliveries(trace[k].log) == Deliveries(trace[j].log)
  {
    hide MaskApply, MaskEnabled, MaskBase, Stuck, MaskInit;
    if j < k {
      StuckForever(trace, actions, j, k - 1);
      MaskRunInv(trace, actions, k - 1);
      StuckStep(trace[k - 1], actions[k - 1]);
      NothingNewTransitive(trace[j], trace[k - 1], trace[k]);
    }
  }

  /** Bits are in the mask, and only the list of the loop still knows of them. */
  predicate OnlyScheduled(s: Mask) {
    s.mask != {} && s.phase != Entered && s.schedulers == 0
  }

  lemma {:induction false} BackedAgain(trace: seq<Mask>, actions: seq<MaskAction>, j: nat, k: nat)
    requires IsMaskRun(trace, actions) && MaskInit(trace[0]) && j <= k < |trace| && Backed(trace[j])
    requires Cancel !in actions[j..k]
    ensures Backed(trace[k])
  {
    hide MaskApply, MaskEnabled, MaskBase, Backed, MaskInit;
    if j < k {
      assert actions[j..k] == actions[j..k - 1] + [actions[k - 1]];
      BackedAgain(trace, actions, j, k - 1);
      MaskRunInv(trace, actions, k - 1);
      MaskStepBacked(trace[k - 1], actions[k - 1]);
    }
  }

  /**
   One Cancel() in a run destroys the guarantee of `NoLostEventBit` exactly if bits are in the
   mask that only the loop's list knows of; then it does so for good, and none of these bits
   is delivered any more.
   */
  lemma CancelLosesExactly(trace: seq<Mask>, actions: seq<MaskAction>, j: nat, k: nat)
    requires IsMaskRun(trace, actions) && MaskInit(trace[0]) && j < k < |trace|
    requires actions[j] == Cancel && Cancel !in actions[..j] && Cancel !in actions[j + 1..k]
    ensures OnlyScheduled(trace[j]) <==> !Backed(trace[k])
    ensures OnlyScheduled(trace[j]) ==> trace[j].mask <= trace[k].mask && NothingNew(trace[j], trace[k])
  {
    MaskRunInv(trace, actions, j);
    OwnCalls(trace[j].loop, trace[j].me);
    assert trace[j + 1] == MaskApply(trace[j], Cancel);
    if OnlyScheduled(trace[j]) {
      StuckForever(trace, actions, j + 1, k);
    } else {
      BackedAgain(trace, actions, j + 1, k);
    }
  }

  /** Three actions from the start lose a bit. */
  lemma CancelLosesBit(s0: Mask, bit: nat) returns (trace: seq<Mask>, actions: seq<MaskAction>)
    requires MaskInit(s0)
    ensures IsMaskRun(trace, actions) && trace[0] == s0
    ensures Stuck(trace[|actions|]) && bit in Owed(trace[|actions|].log)
  {
    actions := [Or({bit}), Schedule, Cancel];
    var s1 := MaskApply(s0, actions[0]);
    var s2 := MaskApply(s1, actions[1]);
    var s3 := MaskApply(s2, actions[2]);
    trace := [s0, s1, s2, s3];
    E.RunKeepsInv([s0.loop], [], 0);
    OwnCalls(s0.loop, s0.me);
    E.StepKeepsInv(s0.loop, E.AddDeferred(s0.me));
    OwnCalls(s2.loop, s0.me);
    OwedExtends([], Ored({bit}));
  }

  lemma PopNeedsPending(loop: E.State, me: E.Monitor, a: E.Action)
    requires E.Inv(loop) && Pops(loop, me, a)
    ensures me in loop.pending
  {
  }

  // ---------------------------------------------------------------------------------------
  // idle_add() and GlobalEvents (version 0.19)

  const IDLE: nat := 0
  const MAX: nat := 3

  datatype ChainPhase = Outside | Inside | Handling(f: Bits, next: nat)

  /**
   `emitters`: threads in idle_add() that are about to call Emit(IDLE);
   `schedulers`: threads in Emit() that are about to call Schedule();
   `due`: the events that were emitted and whose handlers were not called since.
   */
  datatype Chain = Chain(
    loop: E.State, me: E.Monitor, idle: Bits, flags: Bits, emitters: nat, schedulers: nat,
    phase: ChainPhase, log: seq<Event>, due: Bits)

  datatype ChainAction =
    | ChainLoop(a: E.Action)
    | IdleAdd(bits: Bits)
    | EmitIdle
    | EmitOther(mask: Bits)
    | ChainSchedule
    | TakeFlags
    | InvokeNext

  predicate ChainEnabled(s: Chain, a: ChainAction) {
    match a
    case ChainLoop(x) => E.Enabled(s.loop, x) && ForeignAction(s.me, x) && (x.LoopRuns? ==> s.phase == Outside)
    case IdleAdd(bits) => bits != {}
    case EmitIdle => s.emitters > 0
    case EmitOther(mask) => mask == {1} || mask == {2}
    case ChainSchedule => s.schedulers > 0
    case TakeFlags => s.phase == Inside
    case InvokeNext => s.phase.Handling?
  }

  function Emit(s: Chain, mask: Bits): Chain {
    s.(flags := s.flags + mask, schedulers := if s.flags == {} then s.schedulers + 1 else s.schedulers,
       due := s.due + mask)
  }

  /** The handler of IDLE: idle_get(), then the clients are told. */
  function IdleHandler(s: Chain): Chain {
    s.(idle := {}, log := s.log + [Took(s.idle)] + (if s.idle != {} then [Delivered(s.idle)] else []))
  }

  /** InvokeGlobalEvent() */
  function Invoke(s: Chain, event: nat): Chain {
    var s' := s.(due := s.due - {event});
    if event == IDLE then IdleHandler(s') else s'
  }

  function ChainApply(s: Chain, a: ChainAction): Chain
    requires ChainEnabled(s, a)
  {
    match a
    case ChainLoop(x) => s.(loop := E.Apply(s.loop, x), phase := if Pops(s.loop, s.me, x) then Inside else s.phase)
    case IdleAdd(bits) =>
      s.(idle := s.idle + bits, log := s.log + [Ored(bits)],
         emitters := if !(bits <= s.idle) then s.emitters + 1 else s.emitters)
    case EmitIdle => Emit(s.(emitters := s.emitters - 1), {IDLE})
    case EmitOther(mask) => Emit(s, mask)
    case ChainSchedule => s.(schedulers := s.schedulers - 1, loop := E.Apply(s.loop, E.AddDeferred(s.me)))
    case TakeFlags => s.(flags := {}, phase := Handling(s.flags, 0))
    case InvokeNext =>
      if s.phase.next >= MAX then s.(phase := Outside)
      else
        var s1 := s.(phase := Handling(s.phase.f, s.phase.next + 1));
        if s.phase.next !in s.phase.f then s1 else Invoke(s1, s.phase.next)
  }

  ghost predicate ChainInit(s: Chain) {
    && E.Init(s.loop) && s.idle == {} && s.flags == {} && s.emitters == 0 && s.schedulers == 0
    && s.phase == Outside && s.log == [] && s.due == {}
  }

  /** The events whose handlers the running callback still has to call. */
  function Ahead(p: ChainPhase): Bits {
    if p.Handling? then set e | e in p.f && p.next <= e else {}
  }

  ghost predicate IsChainRun(trace: seq<Chain>, actions: seq<ChainAction>) {
    && |trace| == |actions| + 1
    && forall k :: 0 <= k < |actions| ==>
         ChainEnabled(trace[k], actions[k]) && trace[k + 1] == ChainApply(trace[k], actions[k])
  }

  /** Both levels are backed: idle bits by the IDLE flag, flags by the monitor. */
  ghost predicate ChainBacked(s: Chain) {
    && (s.idle != {} ==>
        IDLE in s.flags || s.emitters > 0 || (s.phase.Handling? && s.phase.next == 0 && IDLE in s.phase.f))
    && (s.flags != {} ==> s.me in s.loop.pending || s.phase == Inside || s.schedulers > 0)
  }

  ghost predicate ChainInv(s: Chain) {
    && E.Inv(s.loop) && ChainBacked(s)
    && (s.phase != Outside ==> s.loop.pc.Callback?)
    && Owed(s.log) <= s.idle
    && Exact(s.log) && s.idle == Gathered(s.log) && Held(s.log) == {}
    && s.due <= s.flags + Ahead(s.phase) && (forall e :: e in s.flags + Ahead(s.phase) ==> e < MAX)
  }

  lemma ChainLoopInv(s: Chain, x: E.Action)
    requires ChainInv(s) && ChainEnabled(s, ChainLoop(x))
    ensures ChainInv(ChainApply(s, ChainLoop(x)))
  {
    hide E.Inv, E.Apply, Owed, Exact;
    E.StepKeepsInv(s.loop, x);
    PendingFrame(s.loop, s.me, x);
  }

  lemma ChainIdleAddInv(s: Chain, bits: Bits)
    requires ChainInv(s) && bits != {}
    ensures ChainInv(ChainApply(s, IdleAdd(bits)))
  {
    hide E.Inv, E.Apply, Owed, Exact;
    OwedExtends(s.log, Ored(bits));
    LogExtends(s.log, Ored(bits));
    if bits <= s.idle {
      assert s.idle + bits == s.idle;
    }
  }

  lemma ChainEmitInv(s: Chain, a: ChainAction)
    requires ChainInv(s) && ChainEnabled(s, a) && (a.EmitIdle? || a.EmitOther? || a.TakeFlags?)
    ensures ChainInv(ChainApply(s, a))
  {
    hide E.Inv, E.Apply, Owed, Exact;
  }

  lemma ChainScheduleInv(s: Chain)
    requires ChainInv(s) && s.schedulers > 0
    ensures ChainInv(ChainApply(s, ChainSchedule))
  {
    E.StepKeepsInv(s.loop, E.AddDeferred(s.me));
    OwnCalls(s.loop, s.me);
    hide E.Inv, E.Apply, Owed, Exact;
  }

  lemma AheadStep(f: Bits, next: nat)
    ensures Ahead(Handling(f, next)) == Ahead(Handling(f, next + 1)) + (if next in f then {next} else {})
    ensures next >= MAX && (forall e :: e in Ahead(Handling(f, next)) ==> e < MAX) ==> Ahead(Handling(f, next)) == {}
    ensures Ahead(Outside) == {}
  {
  }

  lemma ChainInvokeInv(s: Chain)
    requires ChainInv(s) && s.phase.Handling?
    ensures ChainInv(ChainApply(s, InvokeNext))
  {
    hide E.Inv, E.Apply, Owed, Exact;
    AheadStep(s.phase.f, s.phase.next);
    hide Ahead;
    OwedExtends(s.log, Took(s.idle));
    LogExtends(s.log, Took(s.idle));
    if s.idle != {} {
      OwedExtends(s.log + [Took(s.idle)], Delivered(s.idle));
      LogExtends(s.log + [Took(s.idle)], Delivered(s.idle));
    }
    assert s.log + [Took(s.idle)] + [] == s.log + [Took(s.idle)];
  }

  lemma ChainStepInv(s: Chain, a: ChainAction)
    requires ChainInv(s) && ChainEnabled(s, a)
    ensures ChainInv(ChainApply(s, a))
  {
    hide ChainInv, ChainApply, E.Enabled;
    match a {
      case ChainLoop(x) => ChainLoopInv(s, x);
      case IdleAdd(bits) => ChainIdleAddInv(s, bits);
      case ChainSchedule => ChainScheduleInv(s);
      case InvokeNext => ChainInvokeInv(s);
      case _ => ChainEmitInv(s, a);
    }
  }

  lemma {:induction false} ChainRunInv(trace: seq<Chain>, actions: seq<ChainAction>, k: nat)
    requires IsChainRun(trace, actions) && ChainInit(trace[0]) && k < |trace|
    ensures ChainInv(trace[k])
  {
    if k > 0 {
      ChainRunInv(trace, actions, k - 1);
      ChainStepInv(trace[k - 1], actions[k - 1]);
    }
  }

  /**
   No idle flag is lost on its way through both levels: what was added and not delivered is
   still in `idle_flags`, and a loop blocked in poll() with such a flag has a thread on its
   way to it, or is being woken up.
   */
  lemma NoLostIdleFlag(trace: seq<Chain>, actions: seq<ChainAction>, k: nat)
    requires IsChainRun(trace, actions) && ChainInit(trace[0]) && k < |trace|
    ensures var s := trace[k];
            && Owed(s.log) <= s.idle && Exact(s.log) && s.idle == Gathered(s.log)
            && s.due <= s.flags + Ahead(s.phase)
            && (s.loop.pc == E.Polling && Owed(s.log) != {} ==>
                s.emitters > 0 || s.schedulers > 0 || s.loop.wake || s.loop.writers > 0)
  {
    ChainRunInv(trace, actions, k);
    var s := trace[k];
    if s.loop.pc == E.Polling && Owed(s.log) != {} && s.emitters == 0 && s.schedulers == 0 {
      assert s.idle != {} && s.flags != {};
      assert s.me in s.loop.deferred;
    }
  }
}
