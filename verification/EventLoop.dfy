/**
 The event loop: deferred calls from any thread, the `busy`/wake-fd shortcut, timers and
 the poll timeout.

 An action is one critical section, one atomic access or one piece of the loop thread's
 code between two points at which another thread can interfere.  `clock` is the real
 monotonic time in milliseconds, without bound; the loop only sees it modulo 2^32.
 */
module EventLoop {
  import opened Common

  type Monitor = nat
  type Timer = nat

  const WRAP: nat := 0x1_0000_0000
  const HALF: nat := 0x8000_0000

  /** `due` is what the source stores; `deadline` is the time that was meant. */
  datatype TimerRecord = TimerRecord(timer: Timer, due: nat, deadline: nat)

  /** Which call of HandleDeferred(): the one in Run() or the one in OnSocketReady(). */
  datatype Site = InRun | InSocket

  datatype Resume = ToTimers | ToIdle | ToDeferred(site: Site) | ToDispatch(wakeSeen: bool)

  datatype Kind = DeferredCall | IdleCall

  /** A call was asked for, withdrawn, or made. */
  datatype Call = Added(kind: Kind, id: nat) | Dropped(kind: Kind, id: nat) | Called(kind: Kind, id: nat)

  /** Where the loop thread stands. */
  datatype Pc =
    | Virgin                    // Run() has not been called
    | Top
    | Timers
    | Idle
    | Deferred(site: Site)      // at the loop test of HandleDeferred(), mutex held
    | Callback(resume: Resume)  // inside a callback, mutex not held
    | Polling
    | Polled(wakeSeen: bool)
    | Dispatch(wakeSeen: bool)
    | Returned                  // `if (quit) return`
    | Exited                    // past `while (!quit)`, before assert(busy)

  datatype State = State(
    deferred: seq<Monitor>, pending: set<Monitor>,
    busy: bool, again: bool, quit: bool,
    wake: bool,                 // the wake fd is readable
    writers: nat,               // threads that are about to write it
    idle: seq<nat>,
    timers: seq<TimerRecord>, active: set<Timer>,
    clock: nat, now: nat,
    limit: Option<TimerRecord>, // the record the poll timeout was computed from
    pc: Pc,
    log: seq<Call>)             // what has become of deferred and idle calls

  datatype Action =
    | Tick(ms: nat)
    | AddDeferred(m: Monitor) | RemoveDeferred(m: Monitor)
    | Break | WriteWake
    | Schedule(t: Timer, ms: nat) | CancelTimer(t: Timer)
    | AddIdle(i: nat) | RemoveIdle(i: nat)
    | LoopRuns(socket: bool)    // `socket`: another socket is ready

  // ---------------------------------------------------------------------------------------
  // Timers

  /** std::multiset::insert(): behind the records that are not greater. */
  function Insert(timers: seq<TimerRecord>, r: TimerRecord): seq<TimerRecord> {
    if timers == [] || r.due < timers[0].due then [r] + timers
    else [timers[0]] + Insert(timers[1..], r)
  }

  /** CancelTimer(): erase the first record of the timer. */
  function Erase(timers: seq<TimerRecord>, t: Timer): seq<TimerRecord> {
    if timers == [] then []
    else if timers[0].timer == t then timers[1..]
    else [timers[0]] + Erase(timers[1..], t)
  }

  /** `int timeout_ms = due_ms - now_ms` with 32-bit operands */
  function Timeout(due: nat, now: nat): (ms: int)
    ensures -(HALF as int) <= ms < HALF
  {
    var d := (due + WRAP - now % WRAP) % WRAP;
    if d < HALF then d else d - WRAP
  }

  /** TimeoutMonitor::Cancel() */
  function CancelOne(s: State, t: Timer): State {
    if t in s.active then s.(active := s.active - {t}, timers := Erase(s.timers, t)) else s
  }

  /** TimeoutMonitor::Schedule() */
  function ScheduleOne(s: State, t: Timer, ms: nat): State {
    var s1 := CancelOne(s, t);
    s1.(active := s1.active + {t}, again := true,
        timers := Insert(s1.timers, TimerRecord(t, (s1.now + ms) % WRAP, s1.now + ms)))
  }

  // ---------------------------------------------------------------------------------------
  // Deferred calls

  function Remove(q: seq<Monitor>, m: Monitor): seq<Monitor> {
    if q == [] then [] else if q[0] == m then q[1..] else [q[0]] + Remove(q[1..], m)
  }

  function AddDeferredOne(s: State, m: Monitor): State {
    if m in s.pending then s
    else
      var mustWake := !s.busy && s.deferred == [];
      s.(pending := s.pending + {m}, deferred := s.deferred + [m], again := true,
         log := s.log + [Added(DeferredCall, m)],
         writers := if mustWake then s.writers + 1 else s.writers)
  }

  function RemoveDeferredOne(s: State, m: Monitor): State {
    if m in s.pending then
      s.(pending := s.pending - {m}, deferred := Remove(s.deferred, m), log := s.log + [Dropped(DeferredCall, m)])
    else s
  }

  // ---------------------------------------------------------------------------------------
  // The loop thread

  function WhileNotQuit(s: State): State {
    s.(pc := if s.quit then Exited else Top)
  }

  function HandleDeferred(s: State, site: Site): State {
    if s.deferred != [] && !s.quit then
      s.(deferred := s.deferred[1..], pending := s.pending - {s.deferred[0]}, pc := Callback(ToDeferred(site)),
         log := s.log + [Called(DeferredCall, s.deferred[0])])
    else if site == InSocket then s.(pc := Dispatch(false))
    else
      var s1 := s.(busy := false);
      if s.again then WhileNotQuit(s1) else s1.(pc := Polling)
  }

  function LoopStep(s: State, socket: bool): State {
    match s.pc
    case Virgin => s.(pc := Top)
    case Top => s.(now := s.clock, again := false, pc := Timers)
    case Timers =>
      if s.timers == [] then s.(limit := None, pc := Idle)
      else if Timeout(s.timers[0].due, s.now) > 0 then s.(limit := Some(s.timers[0]), pc := Idle)
      else s.(timers := s.timers[1..], active := s.active - {s.timers[0].timer}, pc := Callback(ToTimers))
    case Idle =>
      if s.idle == [] then s.(pc := Deferred(InRun))
      else s.(idle := s.idle[1..], pc := Callback(ToIdle), log := s.log + [Called(IdleCall, s.idle[0])])
    case Deferred(site) => HandleDeferred(s, site)
    case Callback(resume) =>
      s.(pc := match resume
               case ToTimers => if s.quit then Returned else Timers
               case ToIdle => if s.quit then Returned else Idle
               case ToDeferred(site) => Deferred(site)
               case ToDispatch(wakeSeen) => Dispatch(wakeSeen))
    case Polling => s.(now := s.clock, pc := Polled(s.wake))
    case Polled(wakeSeen) => s.(busy := true, pc := Dispatch(wakeSeen))
    case Dispatch(wakeSeen) =>
      if s.quit then WhileNotQuit(s)
      else if socket then s.(pc := Callback(ToDispatch(wakeSeen)))
      else if wakeSeen then s.(wake := false, pc := Deferred(InSocket))
      else WhileNotQuit(s)
    case Returned => s
    case Exited => s
  }

  // ---------------------------------------------------------------------------------------
  // The system

  predicate OnLoopThread(s: State) {
    s.pc.Callback? || s.pc == Virgin
  }

  predicate Enabled(s: State, a: Action) {
    match a
    case WriteWake => s.writers > 0
    case Schedule(_, ms) => OnLoopThread(s) && ms < WRAP
    case CancelTimer(_) => OnLoopThread(s)
    case AddIdle(i) => OnLoopThread(s) && i !in s.idle
    case RemoveIdle(i) => OnLoopThread(s) && i in s.idle
    case _ => true
  }

  function Apply(s: State, a: Action): State
    requires Enabled(s, a)
  {
    match a
    case Tick(ms) => s.(clock := s.clock + ms)
    case AddDeferred(m) => AddDeferredOne(s, m)
    case RemoveDeferred(m) => RemoveDeferredOne(s, m)
    case Break => s.(quit := true, writers := s.writers + 1)
    case WriteWake => s.(writers := s.writers - 1, wake := true)
    case Schedule(t, ms) => ScheduleOne(s, t, ms)
    case CancelTimer(t) => CancelOne(s, t)
    case AddIdle(i) => s.(idle := s.idle + [i], again := true, log := s.log + [Added(IdleCall, i)])
    case RemoveIdle(i) => s.(idle := Remove(s.idle, i), log := s.log + [Dropped(IdleCall, i)])
    case LoopRuns(socket) => LoopStep(s, socket)
  }

  ghost predicate Init(s: State) {
    && s.deferred == [] && s.pending == {} && s.busy && !s.quit && !s.wake && s.writers == 0
    && s.idle == [] && s.timers == [] && s.active == {} && s.now == s.clock && s.pc == Virgin && s.log == []
  }

  ghost predicate IsRun(trace: seq<State>, actions: seq<Action>) {
    && |trace| == |actions| + 1
    && forall k :: 0 <= k < |actions| ==>
         Enabled(trace[k], actions[k]) && trace[k + 1] == Apply(trace[k], actions[k])
  }

  // ---------------------------------------------------------------------------------------
  // The invariant

  /** A monitor is pending exactly when it is in the list, and it is there once. */
  ghost predicate DeferredInv(s: State) {
    && Distinct(s.deferred)
    && forall m :: m in s.pending <==> m in s.deferred
  }

  /** While the loop is not busy, a non-empty list is backed by a wake-up. */
  ghost predicate WakeInv(s: State) {
    && ((!s.busy && s.deferred != []) || s.quit ==> s.wake || s.writers > 0)
    && (s.pc == Polling || s.pc.Polled? ==> !s.busy)
    && (Dispatching(s.pc) ==> s.busy)
  }

  /** The loop thread is between poll() and the end of the loop body. */
  predicate Dispatching(pc: Pc) {
    match pc
    case Dispatch(_) => true
    case Deferred(site) => site == InSocket
    case Callback(resume) => resume == ToDeferred(InSocket) || resume.ToDispatch?
    case _ => false
  }

  ghost predicate Sorted(timers: seq<TimerRecord>) {
    forall a, b :: 0 <= a < b < |timers| ==> timers[a].due <= timers[b].due
  }

  function Count(timers: seq<TimerRecord>, t: Timer): nat {
    if timers == [] then 0 else (if timers[0].timer == t then 1 else 0) + Count(timers[1..], t)
  }

  ghost predicate ValidRecord(r: TimerRecord, now: nat) {
    r.due == r.deadline % WRAP && r.deadline < now + WRAP
  }

  ghost predicate TimerInv(s: State) {
    && Sorted(s.timers) && s.now <= s.clock
    && (forall k :: 0 <= k < |s.timers| ==> ValidRecord(s.timers[k], s.now))
    && (forall t :: Count(s.timers, t) == if t in s.active then 1 else 0)
  }

  /** The poll timeout was computed from a record that is not after any armed one. */
  ghost predicate Bounded(s: State) {
    match s.limit
    case None => s.timers == []
    case Some(h) =>
      && ValidRecord(h, s.now) && Timeout(h.due, s.now) > 0
      && forall k :: 0 <= k < |s.timers| ==> h.due <= s.timers[k].due
  }

  /** From computing the timeout to poll(): it still fits, or `again` says that it may not. */
  ghost predicate TimeoutInv(s: State) {
    && (s.pc == Deferred(InRun) || s.pc == Callback(ToDeferred(InRun)) ==> s.again || s.idle == [])
    && (s.pc == Polling ==> s.idle == [])
    && (s.pc == Idle || s.pc == Callback(ToIdle) || s.pc == Deferred(InRun) || s.pc == Callback(ToDeferred(InRun))
        ==> s.again || Bounded(s))
    && (s.pc == Polling ==> Bounded(s))
  }

  ghost predicate Inv(s: State) {
    DeferredInv(s) && WakeInv(s) && TimerInv(s) && TimeoutInv(s)
  }

  lemma {:induction false} RemoveKeepsDistinct(q: seq<Monitor>, m: Monitor)
    requires Distinct(q)
    ensures Distinct(Remove(q, m))
    ensures forall x :: x in Remove(q, m) <==> x in q && x != m
  {
    if q != [] && q[0] != m {
      RemoveKeepsDistinct(q[1..], m);
      var r := Remove(q[1..], m);
      assert Remove(q, m) == [q[0]] + r;
      assert q == [q[0]] + q[1..];
      assert q[0] !in r;
    } else if q != [] {
      assert q == [q[0]] + q[1..];
    }
  }

  lemma {:induction false} InsertInv(timers: seq<TimerRecord>, r: TimerRecord, now: nat)
    requires Sorted(timers) && ValidRecord(r, now)
    requires forall k :: 0 <= k < |timers| ==> ValidRecord(timers[k], now)
    ensures Sorted(Insert(timers, r))
    ensures forall k :: 0 <= k < |Insert(timers, r)| ==> ValidRecord(Insert(timers, r)[k], now)
    ensures forall k :: 0 <= k < |Insert(timers, r)| ==> Insert(timers, r)[k] in timers + [r]
    ensures forall t :: Count(Insert(timers, r), t) == Count(timers, t) + (if t == r.timer then 1 else 0)
  {
    if timers == [] || r.due < timers[0].due {
      assert Insert(timers, r)[1..] == timers;
    } else {
      InsertInv(timers[1..], r, now);
      assert Insert(timers, r)[1..] == Insert(timers[1..], r);
    }
  }

  lemma {:induction false} EraseInv(timers: seq<TimerRecord>, t: Timer, now: nat)
    requires Sorted(timers)
    requires forall k :: 0 <= k < |timers| ==> ValidRecord(timers[k], now)
    ensures Sorted(Erase(timers, t))
    ensures forall k :: 0 <= k < |Erase(timers, t)| ==>
              ValidRecord(Erase(timers, t)[k], now) && Erase(timers, t)[k] in timers
    ensures forall x :: Count(Erase(timers, t), x) ==
                        if x == t && Count(timers, t) > 0 then Count(timers, t) - 1 else Count(timers, x)
  {
    if timers != [] && timers[0].timer != t {
      EraseInv(timers[1..], t, now);
      assert Erase(timers, t)[1..] == Erase(timers[1..], t);
    }
  }

  lemma CancelInv(s: State, t: Timer)
    requires Inv(s)
    ensures Inv(CancelOne(s, t))
  {
    EraseInv(s.timers, t, s.now);
    hide ValidRecord, Timeout;
  }

  lemma ScheduledRecord(now: nat, t: Timer, ms: nat)
    requires ms < WRAP
    ensures ValidRecord(TimerRecord(t, (now + ms) % WRAP, now + ms), now)
  {
  }

  lemma ScheduleInv(s: State, t: Timer, ms: nat)
    requires Inv(s) && ms < WRAP && OnLoopThread(s)
    ensures Inv(ScheduleOne(s, t, ms))
  {
    hide ValidRecord, Timeout, Insert, Sorted, Count, Erase;
    CancelInv(s, t);
    ScheduledRecord(s.now, t, ms);
    var s1 := CancelOne(s, t);
    EraseInv(s.timers, t, s.now);
    InsertInv(s1.timers, TimerRecord(t, (s1.now + ms) % WRAP, s1.now + ms), s1.now);
  }

  lemma PopDeferred(s: State)
    requires DeferredInv(s) && s.deferred != []
    ensures DeferredInv(s.(deferred := s.deferred[1..], pending := s.pending - {s.deferred[0]}))
  {
    assert s.deferred == [s.deferred[0]] + s.deferred[1..];
  }

  lemma PopTimer(s: State)
    requires TimerInv(s) && s.timers != []
    ensures TimerInv(s.(timers := s.timers[1..], active := s.active - {s.timers[0].timer}))
  {
    hide ValidRecord;
    var rest := s.timers[1..];
    forall t ensures Count(rest, t) == Count(s.timers, t) - (if s.timers[0].timer == t then 1 else 0) {
    }
  }

  /** Time only moves forward, so a record stays less than the range of the stamps ahead. */
  lemma ClockInv(s: State)
    requires TimerInv(s)
    ensures TimerInv(s.(now := s.clock))
  {
  }

  lemma TimersStepInv(s: State)
    requires Inv(s) && s.pc == Timers
    ensures Inv(LoopStep(s, false))
  {
    hide ValidRecord, Timeout, Count, Distinct;
    if s.timers != [] { PopTimer(s); }
  }

  lemma HandleDeferredInv(s: State)
    requires Inv(s) && s.pc.Deferred?
    ensures Inv(HandleDeferred(s, s.pc.site))
  {
    if s.deferred != [] { PopDeferred(s); }
    hide ValidRecord, Timeout, Count, Sorted, DeferredInv, Bounded;
  }

  lemma CallbackInv(s: State)
    requires Inv(s) && s.pc.Callback?
    ensures Inv(LoopStep(s, false))
  {
    hide ValidRecord, Timeout, Count, Sorted, Distinct;
  }

  lemma ClockStepInv(s: State)
    requires Inv(s) && (s.pc == Top || s.pc == Polling)
    ensures Inv(LoopStep(s, false))
  {
    ClockInv(s);
    hide ValidRecord, Timeout, Count, Sorted, Distinct, Bounded;
  }

  lemma DispatchInv(s: State, socket: bool)
    requires Inv(s) && (s.pc.Polled? || s.pc.Dispatch?)
    ensures Inv(LoopStep(s, socket))
  {
    hide ValidRecord, Timeout, Count, Sorted, Distinct, Bounded;
  }

  lemma PlainStepInv(s: State)
    requires Inv(s) && (s.pc == Virgin || s.pc == Idle || s.pc == Returned || s.pc == Exited)
    ensures Inv(LoopStep(s, false))
  {
    hide ValidRecord, Timeout, Count, Sorted, Distinct, HandleDeferred;
  }

  lemma LoopInv(s: State, socket: bool)
    requires Inv(s)
    ensures Inv(LoopStep(s, socket))
  {
    hide Inv, Timeout, HandleDeferred;
    match s.pc {
      case Timers => TimersStepInv(s);
      case Deferred(_) => HandleDeferredInv(s);
      case Callback(_) => CallbackInv(s);
      case Top => ClockStepInv(s);
      case Polling => ClockStepInv(s);
      case Polled(_) => DispatchInv(s, socket);
      case Dispatch(_) => DispatchInv(s, socket);
      case _ => PlainStepInv(s);
    }
  }

  lemma StepKeepsInv(s: State, a: Action)
    requires Inv(s) && Enabled(s, a)
    ensures Inv(Apply(s, a))
  {
    match a {
      case RemoveDeferred(m) => RemoveKeepsDistinct(s.deferred, m);
      case Schedule(t, ms) => ScheduleInv(s, t, ms);
      case CancelTimer(t) => CancelInv(s, t);
      case LoopRuns(socket) => LoopInv(s, socket);
      case _ =>
    }
    hide ValidRecord, Timeout, Count, Sorted, LoopStep, ScheduleOne, CancelOne;
  }

  lemma {:induction false} RunKeepsInv(trace: seq<State>, actions: seq<Action>, k: nat)
    requires IsRun(trace, actions) && Init(trace[0]) && k < |trace|
    ensures Inv(trace[k])
  {
    if k > 0 {
      RunKeepsInv(trace, actions, k - 1);
      StepKeepsInv(trace[k - 1], actions[k - 1]);
    }
  }

  // ---------------------------------------------------------------------------------------
  // Results

  /**
   No deferred call is lost: when the loop is blocked in poll() with a call in its list,
   the wake fd is readable or some thread is about to write it.
   A monitor is pending exactly when it stands in the list, once.
   */
  lemma NoLostDeferredCall(trace: seq<State>, actions: seq<Action>, k: nat)
    requires IsRun(trace, actions) && Init(trace[0]) && k < |trace|
    ensures var s := trace[k];
            && (s.pc == Polling && s.deferred != [] ==> s.wake || s.writers > 0)
            && (forall m :: m in s.pending <==> m in s.deferred)
            && Distinct(s.deferred)
  {
    RunKeepsInv(trace, actions, k);
  }

  /**
   Break() is not lost either: a blocked loop that shall quit has been woken or is about to be,
   and it leaves in the turn in which poll() returns; it never leaves otherwise.
   */
  lemma BreakIsNotLost(trace: seq<State>, actions: seq<Action>, k: nat)
    requires IsRun(trace, actions) && Init(trace[0]) && k < |trace|
    ensures Break in actions[..k] && trace[k].pc == Polling ==>
              && (trace[k].wake || trace[k].writers > 0)
              && LoopStep(LoopStep(LoopStep(trace[k], false), false), false).pc == Exited
    ensures trace[k].pc == Exited || trace[k].pc == Returned ==> Break in actions[..k]
  {
    RunKeepsInv(trace, actions, k);
    QuitIffBreak(trace, actions, k);
    LeavesOnQuit(trace, actions, k);
    hide Inv, Timeout, HandleDeferred;
    assert WakeInv(trace[k]) by { WakeOf(trace[k]); }
  }

  lemma WakeOf(s: State)
    requires Inv(s)
    ensures WakeInv(s)
  {
  }

  lemma {:induction false} LeavesOnQuit(trace: seq<State>, actions: seq<Action>, k: nat)
    requires IsRun(trace, actions) && Init(trace[0]) && k < |trace|
    ensures trace[k].pc == Exited || trace[k].pc == Returned ==> trace[k].quit
  {
    if k > 0 {
      LeavesOnQuit(trace, actions, k - 1);
      var s, a := trace[k - 1], actions[k - 1];
      hide LoopStep, Insert, Erase, Remove;
      if a.LoopRuns? {
        LoopStepLeaves(s, a.socket);
      }
    }
  }

  lemma LoopStepLeaves(s: State, socket: bool)
    requires s.pc == Exited || s.pc == Returned ==> s.quit
    ensures var s' := LoopStep(s, socket); s'.pc == Exited || s'.pc == Returned ==> s'.quit
  {
    hide Timeout;
    match s.pc {
      case Timers =>
      case Deferred(site) =>
      case Callback(resume) =>
      case Dispatch(wakeSeen) =>
      case _ =>
    }
  }

  /** How many steps the loop thread has left at most once it shall quit. */
  function StepsLeft(pc: Pc): nat {
    match pc
    case Exited => 0
    case Returned => 0
    case Dispatch(_) => 1
    case Polled(_) => 2
    case Polling => 3
    case Idle => 5
    case Timers => 6
    case Top => 7
    case Virgin => 8
    case Deferred(site) => if site == InSocket then 2 else 4
    case Callback(resume) =>
      match resume
      case ToTimers => 1
      case ToIdle => 1
      case ToDispatch(_) => 2
      case ToDeferred(site) => if site == InSocket then 3 else 5
  }

  lemma StepsLeftZero(pc: Pc)
    ensures StepsLeft(pc) <= 8 && (StepsLeft(pc) == 0 ==> pc == Exited || pc == Returned)
  {
  }

  lemma QuitStep(s: State, socket: bool)
    requires s.quit
    ensures StepsLeft(LoopStep(s, socket).pc) < StepsLeft(s.pc) || StepsLeft(s.pc) == 0
    ensures LoopStep(s, socket).pc.Callback? ==> s.pc == Timers || s.pc == Idle
    ensures StepsLeft(s.pc) == 0 ==> LoopStep(s, socket).pc == s.pc
  {
    hide Timeout;
    match s.pc {
      case Timers =>
      case Deferred(site) =>
      case Callback(resume) =>
      case Dispatch(wakeSeen) =>
      case _ =>
    }
  }

  /** How many of the actions are steps of the loop thread. */
  function LoopSteps(actions: seq<Action>): nat {
    if actions == [] then 0
    else LoopSteps(actions[..|actions| - 1]) + (if actions[|actions| - 1].LoopRuns? then 1 else 0)
  }

  /** How many callbacks are entered from state `j` to state `k`. */
  ghost function Entered(trace: seq<State>, j: nat, k: nat): nat
    requires j <= k < |trace|
  {
    if j == k then 0
    else Entered(trace, j, k - 1) + (if trace[k].pc.Callback? && !trace[k - 1].pc.Callback? then 1 else 0)
  }

  /**
   Break() ends the loop soon: whatever the other threads do, after eight more steps of its own
   the loop thread has left, and until then it enters at most one more callback.
   */
  lemma {:induction false} QuitsSoon(trace: seq<State>, actions: seq<Action>, j: nat, k: nat)
    requires IsRun(trace, actions) && j <= k < |trace| && trace[j].quit
    ensures trace[k].quit
    ensures StepsLeft(trace[k].pc) == 0 ||
            StepsLeft(trace[k].pc) + LoopSteps(actions[j..k]) <= StepsLeft(trace[j].pc) <= 8
    ensures LoopSteps(actions[j..k]) >= 8 ==> trace[k].pc == Exited || trace[k].pc == Returned
    ensures Entered(trace, j, k) <= 1
    ensures Entered(trace, j, k) == 1 ==> StepsLeft(trace[k].pc) <= 1
  {
    hide Apply, Enabled, StepsLeft;
    if j < k {
      QuitsSoon(trace, actions, j, k - 1);
      assert actions[j..k] == actions[j..k - 1] + [actions[k - 1]];
      QuitAction(trace[k - 1], actions[k - 1]);
    }
    assert actions[k..k] == [];
    StepsLeftZero(trace[j].pc);
    StepsLeftZero(trace[k].pc);
  }

  lemma QuitAction(s: State, a: Action)
    requires Enabled(s, a) && s.quit
    ensures var s' := Apply(s, a);
            && s'.quit && (!a.LoopRuns? ==> s'.pc == s.pc)
            && (a.LoopRuns? && StepsLeft(s.pc) > 0 ==> StepsLeft(s'.pc) < StepsLeft(s.pc))
            && (StepsLeft(s.pc) == 0 ==> s'.pc == s.pc)
            && (s'.pc.Callback? && !s.pc.Callback? ==> StepsLeft(s.pc) > 1 && StepsLeft(s'.pc) <= 1)
  {
    hide LoopStep, Insert, Erase, Remove;
    if a.LoopRuns? {
      QuitStep(s, a.socket);
      LoopStepFacts(s, a.socket);
      QuitEnters(s, a.socket);
    }
  }

  lemma QuitEnters(s: State, socket: bool)
    requires s.quit
    ensures LoopStep(s, socket).pc.Callback? ==> StepsLeft(s.pc) > 1 && StepsLeft(LoopStep(s, socket).pc) <= 1
  {
    hide Timeout;
    match s.pc {
      case Timers =>
      case Deferred(site) =>
      case Callback(resume) =>
      case Dispatch(wakeSeen) =>
      case _ =>
    }
  }

  /** A loop that was woken makes the first of the deferred calls before anything else. */
  lemma WokenLoopCalls(s: State)
    requires s.pc == Polling && s.wake && !s.quit && s.deferred != []
    ensures var s' := LoopStep(LoopStep(LoopStep(LoopStep(s, false), false), false), false);
            && s'.pc == Callback(ToDeferred(InSocket)) && s'.now == s.clock && s'.busy && !s'.wake
            && s'.log == s.log + [Called(DeferredCall, s.deferred[0])] && s'.deferred == s.deferred[1..]
  {
    hide Timeout;
  }

  /** A call is recorded exactly when the loop thread enters the callback. */
  lemma CallsAreEntered(s: State, socket: bool)
    ensures var s' := LoopStep(s, socket);
            && (s'.log == s.log || (|s'.log| == |s.log| + 1 && s'.log[..|s.log|] == s.log && s'.log[|s.log|].Called?))
            && (s'.log != s.log <==> s'.pc == Callback(ToIdle) || (s'.pc.Callback? && s'.pc.resume.ToDeferred?))
  {
    hide Timeout;
    match s.pc {
      case Timers =>
      case Deferred(site) =>
      case Callback(resume) =>
      case Dispatch(wakeSeen) =>
      case _ =>
    }
  }

  /** The loop never blocks while an idle call is waiting. */
  lemma NoIdleCallWaits(trace: seq<State>, actions: seq<Action>, k: nat)
    requires IsRun(trace, actions) && Init(trace[0]) && k < |trace| && trace[k].pc == Polling
    ensures trace[k].idle == []
  {
    RunKeepsInv(trace, actions, k);
  }

  /** The queue of one kind that follows from the log; none if a call was made out of turn. */
  function Replay(log: seq<Call>, kind: Kind): Option<seq<nat>> {
    if log == [] then Some([]) else ReplayOne(Replay(log[..|log| - 1], kind), log[|log| - 1], kind)
  }

  function ReplayOne(queue: Option<seq<nat>>, c: Call, kind: Kind): Option<seq<nat>> {
    if queue == None || c.kind != kind then queue
    else
      match c
      case Added(_, id) => if id in queue.value then None else Some(queue.value + [id])
      case Dropped(_, id) => if id in queue.value then Some(Remove(queue.value, id)) else None
      case Called(_, id) => if queue.value != [] && queue.value[0] == id then Some(queue.value[1..]) else None
  }

  ghost predicate Replayed(s: State) {
    Replay(s.log, DeferredCall) == Some(s.deferred) && Replay(s.log, IdleCall) == Some(s.idle)
  }

  lemma ReplayMore(log: seq<Call>, c: Call)
    ensures Replay(log + [c], DeferredCall) == ReplayOne(Replay(log, DeferredCall), c, DeferredCall)
    ensures Replay(log + [c], IdleCall) == ReplayOne(Replay(log, IdleCall), c, IdleCall)
  {
    assert (log + [c])[..|log|] == log;
  }

  lemma DeferredReplayed(s: State, m: Monitor)
    requires DeferredInv(s) && Replayed(s)
    ensures Replayed(AddDeferredOne(s, m)) && Replayed(RemoveDeferredOne(s, m))
  {
    hide Replay;
    ReplayMore(s.log, Added(DeferredCall, m));
    ReplayMore(s.log, Dropped(DeferredCall, m));
  }

  lemma IdleReplayed(s: State, i: nat)
    requires Replayed(s)
    ensures i !in s.idle ==> Replayed(Apply(s.(pc := Virgin), AddIdle(i)))
    ensures i in s.idle ==> Replayed(Apply(s.(pc := Virgin), RemoveIdle(i)))
  {
    hide Replay;
    ReplayMore(s.log, Added(IdleCall, i));
    ReplayMore(s.log, Dropped(IdleCall, i));
  }

  lemma LoopReplayed(s: State, socket: bool)
    requires Replayed(s)
    ensures Replayed(LoopStep(s, socket))
  {
    hide Replay, Timeout;
    match s.pc {
      case Timers =>
      case Idle => if s.idle != [] { ReplayMore(s.log, Called(IdleCall, s.idle[0])); }
      case Deferred(site) => if s.deferred != [] { ReplayMore(s.log, Called(DeferredCall, s.deferred[0])); }
      case Callback(resume) =>
      case Dispatch(wakeSeen) =>
      case _ =>
    }
  }

  lemma StepKeepsReplayed(s: State, a: Action)
    requires Inv(s) && Replayed(s) && Enabled(s, a)
    ensures Replayed(Apply(s, a))
  {
    assert DeferredInv(s);
    hide Inv, Replay, LoopStep, Insert, Erase, Remove, AddDeferredOne, RemoveDeferredOne;
    match a {
      case AddDeferred(m) => DeferredReplayed(s, m);
      case RemoveDeferred(m) => DeferredReplayed(s, m);
      case AddIdle(i) => IdleReplayed(s, i);
      case RemoveIdle(i) => IdleReplayed(s, i);
      case LoopRuns(socket) => LoopReplayed(s, socket);
      case _ =>
    }
  }

  /**
   Deferred calls and idle calls are made in the order in which they were asked for, each once:
   replaying the log on two plain queues never fails, and ends with the queues of the loop.
   */
  lemma {:induction false} CallsAreInOrder(trace: seq<State>, actions: seq<Action>, k: nat)
    requires IsRun(trace, actions) && Init(trace[0]) && k < |trace|
    ensures Replayed(trace[k])
  {
    if k > 0 {
      CallsAreInOrder(trace, actions, k - 1);
      RunKeepsInv(trace, actions, k - 1);
      hide Inv, Apply, Enabled, Replayed;
      StepKeepsReplayed(trace[k - 1], actions[k - 1]);
    }
  }

  /** When each timer is armed for. */
  function Armed(timers: seq<TimerRecord>): map<Timer, nat> {
    if timers == [] then map[] else Armed(timers[1..])[timers[0].timer := timers[0].deadline]
  }

  lemma {:induction false} ArmedIffCounted(timers: seq<TimerRecord>, t: Timer)
    ensures t in Armed(timers) <==> Count(timers, t) > 0
  {
    if timers != [] {
      ArmedIffCounted(timers[1..], t);
    }
  }

  lemma {:induction false} InsertArms(timers: seq<TimerRecord>, r: TimerRecord)
    requires Count(timers, r.timer) == 0
    ensures Armed(Insert(timers, r)) == Armed(timers)[r.timer := r.deadline]
  {
    if timers == [] || r.due < timers[0].due {
      assert Insert(timers, r)[1..] == timers;
    } else {
      InsertArms(timers[1..], r);
      assert Insert(timers, r)[1..] == Insert(timers[1..], r);
    }
  }

  lemma {:induction false} EraseDisarms(timers: seq<TimerRecord>, t: Timer)
    requires Count(timers, t) <= 1
    ensures Armed(Erase(timers, t)) == Armed(timers) - {t}
  {
    if timers == [] {
      assert Armed(timers) - {t} == map[];
    } else if timers[0].timer == t {
      ArmedIffCounted(timers[1..], t);
      assert Armed(timers) - {t} == Armed(timers[1..]);
    } else {
      EraseDisarms(timers[1..], t);
      assert Erase(timers, t)[1..] == Erase(timers[1..], t);
    }
  }

  /** What an action does to the armed timers: the loop takes out the first of the list only. */
  ghost predicate Rearmed(s: State, a: Action)
    requires Enabled(s, a)
  {
    var before, after := Armed(s.timers), Armed(Apply(s, a).timers);
    match a
    case Schedule(t, ms) => after == before[t := s.now + ms]
    case CancelTimer(t) => after == before - {t}
    case LoopRuns(_) =>
      if Apply(s, a).pc == Callback(ToTimers) && s.pc == Timers
      then s.timers != [] && after == before - {s.timers[0].timer}
      else after == before
    case _ => after == before
  }

  lemma CancelDisarms(s: State, t: Timer)
    requires TimerInv(s)
    ensures Armed(CancelOne(s, t).timers) == Armed(s.timers) - {t} && Count(CancelOne(s, t).timers, t) == 0
  {
    assert Count(s.timers, t) == if t in s.active then 1 else 0;
    EraseDisarms(s.timers, t);
    EraseInv(s.timers, t, s.now);
    ArmedIffCounted(s.timers, t);
    hide TimerInv, Armed, Erase, Count;
    assert t !in Armed(s.timers) ==> Armed(s.timers) - {t} == Armed(s.timers);
  }

  lemma ScheduleArms(s: State, t: Timer, ms: nat)
    requires TimerInv(s)
    ensures Armed(ScheduleOne(s, t, ms).timers) == Armed(s.timers)[t := s.now + ms]
  {
    CancelDisarms(s, t);
    hide TimerInv, Armed, Count, CancelOne;
    var s1 := CancelOne(s, t);
    InsertArms(s1.timers, TimerRecord(t, (s1.now + ms) % WRAP, s1.now + ms));
    CancelKeepsClock(s, t);
    assert (Armed(s.timers) - {t})[t := s.now + ms] == Armed(s.timers)[t := s.now + ms];
  }

  lemma CancelKeepsClock(s: State, t: Timer)
    ensures CancelOne(s, t).now == s.now
  {
  }

  /** The timers are a map from the armed ones to their deadlines. */
  lemma TimersAreAMap(trace: seq<State>, actions: seq<Action>, k: nat)
    requires IsRun(trace, actions) && Init(trace[0]) && k < |actions|
    ensures Enabled(trace[k], actions[k]) && Rearmed(trace[k], actions[k])
    ensures Armed(trace[k].timers).Keys == trace[k].active
  {
    RunKeepsInv(trace, actions, k);
    var s, a := trace[k], actions[k];
    assert TimerInv(s);
    forall t ensures t in Armed(s.timers) <==> t in s.active {
      ArmedIffCounted(s.timers, t);
    }
    hide Inv, TimerInv, ScheduleOne, CancelOne, LoopStep, Armed;
    match a {
      case Schedule(t, ms) => ScheduleArms(s, t, ms);
      case CancelTimer(t) => CancelDisarms(s, t);
      case LoopRuns(socket) => LoopRearms(s, socket);
      case _ =>
    }
  }

  lemma LoopRearms(s: State, socket: bool)
    requires TimerInv(s)
    ensures var s' := LoopStep(s, socket);
            if s'.pc == Callback(ToTimers) && s.pc == Timers
            then s.timers != [] && Armed(s'.timers) == Armed(s.timers) - {s.timers[0].timer}
            else s'.timers == s.timers
  {
    if s.timers != [] {
      EraseDisarms(s.timers, s.timers[0].timer);
    }
    hide Timeout, Armed, TimerInv;
    match s.pc {
      case Timers =>
      case Deferred(site) =>
      case Callback(resume) =>
      case Dispatch(wakeSeen) =>
      case _ =>
    }
  }

  /** A timer that is first in the list and due when a turn of the loop begins is run in that turn. */
  lemma DueTimerIsRun(s: State)
    requires Inv(s) && s.pc == Top && s.timers != []
    requires s.clock < s.timers[0].deadline + HALF && s.timers[0].deadline <= s.clock
    ensures var s' := LoopStep(LoopStep(s, false), false);
            && s'.pc == Callback(ToTimers) && s'.timers == s.timers[1..] && s.timers[0].timer !in s'.active
            && s'.now == s.clock
  {
    ClockInv(s);
    TimeoutExact(s.timers[0], s.clock);
    hide Timeout, Inv;
  }

  /** A timer is active exactly when one record of it is armed. */
  lemma ActiveIffOneRecord(trace: seq<State>, actions: seq<Action>, k: nat, t: Timer)
    requires IsRun(trace, actions) && Init(trace[0]) && k < |trace|
    ensures Count(trace[k].timers, t) == if t in trace[k].active then 1 else 0
  {
    RunKeepsInv(trace, actions, k);
  }

  /**
   A timer that is popped is run before the time that was meant exactly if that lies half the
   range of the stamps ahead or more: the difference is then negative as an `int`.
   */
  lemma TimerRunsEarlyExactly(trace: seq<State>, actions: seq<Action>, k: nat)
    requires IsRun(trace, actions) && Init(trace[0]) && k < |actions|
    requires actions[k].LoopRuns? && trace[k].pc == Timers && trace[k + 1].pc == Callback(ToTimers)
    ensures trace[k].timers != [] && trace[k + 1].timers == trace[k].timers[1..]
    ensures trace[k].timers[0].deadline > trace[k].now <==> trace[k].timers[0].deadline >= trace[k].now + HALF
    ensures trace[k].now <= trace[k].clock
  {
    RunKeepsInv(trace, actions, k);
    var r := trace[k].timers[0];
    if trace[k].now < r.deadline < trace[k].now + HALF {
      TimeoutExact(r, trace[k].now);
    }
  }

  /** No timer is armed for half the range of the stamps or more. */
  ghost predicate Near(s: State) {
    forall k :: 0 <= k < |s.timers| ==> s.timers[k].deadline < s.now + HALF
  }

  predicate ShortTimeout(a: Action) {
    a.Schedule? ==> a.ms < HALF
  }

  /** What the loop thread does to timers, clock and flags. */
  lemma LoopStepFacts(s: State, socket: bool)
    ensures var s' := LoopStep(s, socket);
            && (s'.timers == s.timers || (s.timers != [] && s'.timers == s.timers[1..]))
            && (s'.now == s.now || s'.now == s.clock) && s'.quit == s.quit && s'.pc != Virgin
  {
    hide Timeout;
    match s.pc {
      case Timers =>
      case Deferred(site) =>
      case Callback(resume) =>
      case Dispatch(wakeSeen) =>
      case _ =>
    }
  }

  lemma ScheduleKeepsNear(s: State, t: Timer, ms: nat)
    requires Inv(s) && Near(s) && ms < HALF
    ensures Near(ScheduleOne(s, t, ms)) && Near(CancelOne(s, t))
  {
    hide Insert, Erase, Count, Sorted, DeferredInv, WakeInv, TimeoutInv, ValidRecord;
    EraseInv(s.timers, t, s.now);
    var s1 := CancelOne(s, t);
    ScheduledRecord(s.now, t, ms);
    InsertInv(s1.timers, TimerRecord(t, (s1.now + ms) % WRAP, s1.now + ms), s1.now);
  }

  lemma StepKeepsNear(s: State, a: Action)
    requires Inv(s) && Near(s) && Enabled(s, a) && ShortTimeout(a)
    ensures Near(Apply(s, a))
  {
    assert s.now <= s.clock;
    hide Inv, LoopStep, ScheduleOne, CancelOne;
    match a {
      case Schedule(t, ms) => ScheduleKeepsNear(s, t, ms);
      case CancelTimer(t) => ScheduleKeepsNear(s, t, 0);
      case LoopRuns(socket) => LoopStepFacts(s, socket);
      case _ =>
    }
  }

  lemma {:induction false} RunKeepsNear(trace: seq<State>, actions: seq<Action>, k: nat)
    requires IsRun(trace, actions) && Init(trace[0]) && k < |trace|
    requires forall j :: 0 <= j < k ==> ShortTimeout(actions[j])
    ensures Near(trace[k])
  {
    if k > 0 {
      RunKeepsNear(trace, actions, k - 1);
      RunKeepsInv(trace, actions, k - 1);
      StepKeepsNear(trace[k - 1], actions[k - 1]);
    }
  }

  /** As long as every timeout is shorter than 2^31 ms, no timer runs early, 32-bit wrap or not. */
  lemma NoTimerRunsEarly(trace: seq<State>, actions: seq<Action>, k: nat)
    requires IsRun(trace, actions) && Init(trace[0]) && k < |actions|
    requires forall j :: 0 <= j < k ==> ShortTimeout(actions[j])
    requires actions[k].LoopRuns? && trace[k].pc == Timers && trace[k + 1].pc == Callback(ToTimers)
    ensures trace[k].timers != [] && trace[k].timers[0].deadline <= trace[k].now <= trace[k].clock
  {
    RunKeepsNear(trace, actions, k);
    TimerRunsEarlyExactly(trace, actions, k);
  }

  /** Any longer timeout runs at once if it is the only one, whatever the time is. */
  lemma LongTimeoutRunsAtOnce(s0: State, t: Timer, ms: nat) returns (trace: seq<State>, actions: seq<Action>)
    requires Init(s0) && HALF <= ms < WRAP
    ensures IsRun(trace, actions) && trace[0] == s0 && |actions| == 4 && actions[0] == Schedule(t, ms)
    ensures trace[3].pc == Timers && trace[4].pc == Callback(ToTimers) && trace[4].clock == s0.clock
    ensures trace[3].timers == [TimerRecord(t, (s0.clock + ms) % WRAP, s0.clock + ms)] && trace[4].timers == []
  {
    actions := [Schedule(t, ms), LoopRuns(false), LoopRuns(false), LoopRuns(false)];
    var r := TimerRecord(t, (s0.clock + ms) % WRAP, s0.clock + ms);
    var s1 := s0.(timers := [r], active := {t}, again := true);
    var s2 := s1.(pc := Top);
    var s3 := s2.(again := false, pc := Timers);
    var s4 := s3.(timers := [], active := {}, pc := Callback(ToTimers));
    trace := [s0, s1, s2, s3, s4];
    TimeoutTurnsNegative(r, s0.clock);
  }

  /** The 32-bit difference is the real one for a record less than half the range away. */
  lemma TimeoutExact(r: TimerRecord, now: nat)
    requires ValidRecord(r, now) && r.deadline < now + HALF && now < r.deadline + HALF
    ensures Timeout(r.due, now) == r.deadline - now
  {
    var d := (r.due + WRAP - now % WRAP) % WRAP;
    var q := now / WRAP - r.deadline / WRAP + 1;
    assert r.due + WRAP - now % WRAP == (r.deadline - now) + q * WRAP;
    if r.deadline >= now {
      ModUnique((r.deadline - now) + q * WRAP, q, r.deadline - now);
    } else {
      ModUnique((r.deadline - now) + q * WRAP, q - 1, r.deadline - now + WRAP);
    }
  }

  /** A record further ahead looks overdue. */
  lemma TimeoutTurnsNegative(r: TimerRecord, now: nat)
    requires ValidRecord(r, now) && now + HALF <= r.deadline
    ensures Timeout(r.due, now) == r.deadline - now - WRAP < 0
  {
    var d := (r.due + WRAP - now % WRAP) % WRAP;
    var q := now / WRAP - r.deadline / WRAP + 1;
    assert r.due + WRAP - now % WRAP == (r.deadline - now) + q * WRAP;
    ModUnique((r.deadline - now) + q * WRAP, q, r.deadline - now);
  }

  lemma ModUnique(x: int, q: int, r: int)
    requires x == q * WRAP + r && 0 <= r < WRAP
    ensures x % WRAP == r
  {
  }

  /** When poll() returns at the latest. */
  function EndOfSleep(s: State): int
    requires s.limit.Some?
  {
    s.now + Timeout(s.limit.value.due, s.now)
  }

  /** Every armed timer is due no earlier than the end of the sleep. */
  ghost predicate SleepsInTime(s: State) {
    match s.limit
    case None => s.timers == []
    case Some(_) => forall k :: 0 <= k < |s.timers| ==> s.timers[k].deadline >= EndOfSleep(s)
  }

  /** No armed timer belongs to an earlier turn of the 32-bit clock than the end of the sleep. */
  ghost predicate SameTurn(s: State) {
    s.limit.Some? ==> forall k :: 0 <= k < |s.timers| ==> s.timers[k].deadline / WRAP >= EndOfSleep(s) / WRAP
  }

  /** The end of the sleep has the 32-bit stamp of the record it was computed from. */
  lemma SleepEndsOnStamp(s: State)
    requires s.limit.Some? && s.limit.value.due < WRAP
    ensures EndOfSleep(s) % WRAP == s.limit.value.due
  {
    var due, now := s.limit.value.due, s.now;
    var d := (due + WRAP - now % WRAP) % WRAP;
    var t := Timeout(due, now);
    assert t == d || t == d - WRAP;
    var k := (now + t - due) / WRAP;
    assert now + t - due == k * WRAP;
    ModUnique(now + t, k, due);
  }

  /** It is that record's deadline, unless that is overdue by half the range of the stamps. */
  lemma SleepEndsAtDeadline(trace: seq<State>, actions: seq<Action>, k: nat)
    requires IsRun(trace, actions) && Init(trace[0]) && k < |trace| && trace[k].pc == Polling
    requires trace[k].limit.Some? && trace[k].now < trace[k].limit.value.deadline + HALF
    ensures EndOfSleep(trace[k]) == trace[k].limit.value.deadline
  {
    RunKeepsInv(trace, actions, k);
    var r, now := trace[k].limit.value, trace[k].now;
    if now + HALF <= r.deadline {
      TimeoutTurnsNegative(r, now);
      assert false;
    }
    TimeoutExact(r, now);
  }

  /**
   When the loop blocks it does not sleep past a timer, exactly as long as no timer of an
   earlier turn of the millisecond clock is armed: `due_ms` is compared as an unsigned number,
   so a deadline behind the wrap sorts before one in front of it.
   */
  lemma SleepsInTimeExactly(trace: seq<State>, actions: seq<Action>, k: nat)
    requires IsRun(trace, actions) && Init(trace[0]) && k < |trace| && trace[k].pc == Polling
    ensures SleepsInTime(trace[k]) <==> SameTurn(trace[k])
  {
    RunKeepsInv(trace, actions, k);
    var s := trace[k];
    if s.limit.Some? {
      var end := EndOfSleep(s);
      SleepEndsOnStamp(s);
      hide Timeout;
      forall j | 0 <= j < |s.timers|
        ensures s.timers[j].deadline >= end <==> s.timers[j].deadline / WRAP >= end / WRAP
      {
        var r := s.timers[j];
        assert r.deadline == (r.deadline / WRAP) * WRAP + r.due;
        assert end == (end / WRAP) * WRAP + s.limit.value.due;
        assert s.limit.value.due <= r.due < WRAP;
      }
    }
  }

  /** The list is ordered by the stamps, so the later of two timers across the wrap comes first. */
  lemma TwoTimers(s0: State)
    requires Init(s0) && s0.clock == WRAP - 100
    ensures var first, second := TimerRecord(0, WRAP - 50, WRAP - 50), TimerRecord(1, 100, WRAP + 100);
            var s1 := s0.(timers := [first], active := {0}, again := true);
            ScheduleOne(s0, 0, 50) == s1 &&
            ScheduleOne(s1, 1, 200) == s1.(timers := [second, first], active := {0, 1})
  {
    assert Insert([TimerRecord(0, WRAP - 50, WRAP - 50)], TimerRecord(1, 100, WRAP + 100)) ==
           [TimerRecord(1, 100, WRAP + 100), TimerRecord(0, WRAP - 50, WRAP - 50)];
  }

  /** A timer in front of the wrap and a later one behind it: the loop sleeps past the first. */
  lemma SleepsPastTimer(s0: State) returns (trace: seq<State>, actions: seq<Action>)
    requires Init(s0) && s0.clock == WRAP - 100
    ensures IsRun(trace, actions) && trace[0] == s0
    ensures trace[|actions|].pc == Polling && !SleepsInTime(trace[|actions|])
  {
    actions := [Schedule(0, 50), Schedule(1, 200),
                LoopRuns(false), LoopRuns(false), LoopRuns(false), LoopRuns(false), LoopRuns(false)];
    var first := TimerRecord(0, WRAP - 50, WRAP - 50);
    var second := TimerRecord(1, 100, WRAP + 100);
    var s1 := s0.(timers := [first], active := {0}, again := true);
    var s2 := s1.(timers := [second, first], active := {0, 1});
    var s3 := s2.(pc := Top);
    var s4 := s3.(again := false, pc := Timers);
    var s5 := s4.(limit := Some(second), pc := Idle);
    var s6 := s5.(pc := Deferred(InRun));
    var s7 := s6.(busy := false, pc := Polling);
    trace := [s0, s1, s2, s3, s4, s5, s6, s7];
    TwoTimers(s0);
    hide ScheduleOne;
    assert Timeout(second.due, s0.clock) == 200;
    assert s7.timers[1] == first;
  }

  /**
   So it never sleeps past a timer while all deadlines lie in one turn of the clock, and the
   one the timeout was computed from is not overdue by half the range of the stamps.
   */
  lemma SleepsInTimeWithinTurn(trace: seq<State>, actions: seq<Action>, k: nat, turn: nat)
    requires IsRun(trace, actions) && Init(trace[0]) && k < |trace| && trace[k].pc == Polling
    requires trace[k].limit.Some? ==>
               trace[k].limit.value.deadline / WRAP == turn && trace[k].now < trace[k].limit.value.deadline + HALF
    requires forall j :: 0 <= j < |trace[k].timers| ==> trace[k].timers[j].deadline / WRAP == turn
    ensures SleepsInTime(trace[k])
  {
    SleepsInTimeExactly(trace, actions, k);
    if trace[k].limit.Some? {
      SleepEndsAtDeadline(trace, actions, k);
    }
  }

  /**
   assert(!quit) at the start of Run() (Loop.cxx:136) fails exactly if Break() has come first;
   assert(busy) behind it always holds.
   */
  lemma StartAssertionsExactly(trace: seq<State>, actions: seq<Action>, k: nat)
    requires IsRun(trace, actions) && Init(trace[0]) && k < |trace| && trace[k].pc == Virgin
    ensures trace[k].quit <==> Break in actions[..k]
    ensures trace[k].busy
  {
    QuitIffBreak(trace, actions, k);
    VirginIsBusy(trace, actions, k);
  }

  lemma {:induction false} QuitIffBreak(trace: seq<State>, actions: seq<Action>, k: nat)
    requires IsRun(trace, actions) && Init(trace[0]) && k < |trace|
    ensures trace[k].quit <==> Break in actions[..k]
  {
    hide LoopStep, Insert, Erase, Remove;
    if k > 0 {
      QuitIffBreak(trace, actions, k - 1);
      if actions[k - 1].LoopRuns? {
        LoopStepFacts(trace[k - 1], actions[k - 1].socket);
      }
      assert actions[..k] == actions[..k - 1] + [actions[k - 1]];
    }
  }

  lemma {:induction false} VirginIsBusy(trace: seq<State>, actions: seq<Action>, k: nat)
    requires IsRun(trace, actions) && Init(trace[0]) && k < |trace| && trace[k].pc == Virgin
    ensures trace[k].busy
  {
    hide LoopStep, Insert, Erase, Remove;
    if k > 0 {
      if actions[k - 1].LoopRuns? {
        LoopStepFacts(trace[k - 1], actions[k - 1].socket);
      }
      VirginIsBusy(trace, actions, k - 1);
    }
  }

  /**
   assert(busy) behind the loop (Loop.cxx:218) holds exactly when the loop is left after
   the sockets were dispatched.  When `quit` is seen after the `_again` shortcut, it fails.
   */
  lemma ExitAssertionExactly(trace: seq<State>, actions: seq<Action>, k: nat)
    requires IsRun(trace, actions) && Init(trace[0]) && k < |actions|
    requires trace[k].pc != Exited && trace[k + 1].pc == Exited
    ensures trace[k + 1].busy <==> trace[k].pc.Dispatch?
    ensures !trace[k + 1].busy <==> trace[k].pc == Deferred(InRun) && trace[k].again && trace[k].quit
  {
    RunKeepsInv(trace, actions, k);
    hide Inv, Apply, Enabled, Init;
    ExitStep(trace[k], actions[k]);
  }

  lemma ExitStep(s: State, a: Action)
    requires Inv(s) && Enabled(s, a) && s.pc != Exited && Apply(s, a).pc == Exited
    ensures Apply(s, a).busy <==> s.pc.Dispatch?
    ensures !Apply(s, a).busy <==> s.pc == Deferred(InRun) && s.again && s.quit
  {
    hide DeferredInv, TimerInv, TimeoutInv, Timeout, Remove, Insert, Erase;
    if a.LoopRuns? {
      match s.pc {
        case Deferred(site) =>
        case Dispatch(wakeSeen) =>
        case Callback(resume) =>
        case _ =>
      }
    }
  }

  /** The failing case is reached by a deferred call and Break() just before the loop looks. */
  lemma ExitAssertionFails(s0: State) returns (trace: seq<State>, actions: seq<Action>)
    requires Init(s0)
    ensures IsRun(trace, actions) && trace[0] == s0
    ensures trace[|actions|].pc == Exited && !trace[|actions|].busy
  {
    actions := [LoopRuns(false), LoopRuns(false), LoopRuns(false), LoopRuns(false),
                AddDeferred(0), Break, LoopRuns(false)];
    var s1 := LoopStep(s0, false);
    var s2 := LoopStep(s1, false);
    var s3 := LoopStep(s2, false);
    var s4 := LoopStep(s3, false);
    var s5 := AddDeferredOne(s4, 0);
    var s6 := Apply(s5, Break);
    var s7 := LoopStep(s6, false);
    trace := [s0, s1, s2, s3, s4, s5, s6, s7];
  }
}
