/**
 The request and idle protocol of one client connection: src/client/ClientProcess.cxx,
 src/client/ClientIdle.cxx, src/client/ClientRead.cxx and src/client/ClientExpire.cxx.

 What a command handler does is an input (`Outcome`); any write may find the output buffer
 full, which expires the client. The lines of a response body are left out, since they are
 neither an answer nor part of the framing.
 */
module Client {
  import opened Common

  // ---------------------------------------------------------------------------------------
  // Requests and replies

  datatype Reply = Ok | Ack(index: nat) | ListOk | Changed(flag: nat)

  /** What a command handler did; FINISH may or may not come with an error message. */
  datatype Outcome = Succeed | Fail | Finish(ack: bool) | Hangup | Shutdown | Idle(flags: set<nat>)

  datatype Result = ResultOk | ResultIdle | ResultError | ResultKill | ResultFinish | ResultClose

  datatype Mode = Disabled | Enabled | OkMode

  const LIST_BEGIN := "command_list_begin"
  const LIST_OK_BEGIN := "command_list_ok_begin"
  const LIST_END := "command_list_end"
  const NOIDLE := "noidle"

  /** The number of named idle flags. */
  const NAMES: nat := 13

  function Answers(rs: seq<Reply>): nat {
    if rs == [] then 0
    else Answers(rs[..|rs| - 1]) + (if rs[|rs| - 1].Ok? || rs[|rs| - 1].Ack? then 1 else 0)
  }

  /** Whether a command list is open, and how many requests are complete. */
  datatype Framing = Framing(mode: Mode, requests: nat)

  /** The framing of the lines, as the protocol defines it: a list is one request. */
  function FramingOf(lines: seq<string>): Framing {
    if lines == [] then Framing(Disabled, 0)
    else NextFraming(FramingOf(lines[..|lines| - 1]), lines[|lines| - 1])
  }

  function NextFraming(f: Framing, line: string): Framing {
    if line == NOIDLE then f
    else if f.mode != Disabled then
      if line == LIST_END then Framing(Disabled, f.requests + 1) else f
    else if line == LIST_BEGIN then f.(mode := Enabled)
    else if line == LIST_OK_BEGIN then f.(mode := OkMode)
    else f.(requests := f.requests + 1)
  }

  function ListSize(list: seq<string>): nat {
    if list == [] then 0 else ListSize(list[..|list| - 1]) + |list[|list| - 1]| + 1
  }

  lemma {:induction false} AnswersAppend(a: seq<Reply>, b: seq<Reply>)
    ensures Answers(a + b) == Answers(a) + Answers(b)
  {
    if b == [] {
      assert a + b == a;
    } else {
      assert (a + b)[..|a + b| - 1] == a + b[..|b| - 1];
      AnswersAppend(a, b[..|b| - 1]);
    }
  }

  // ---------------------------------------------------------------------------------------
  // Command lists

  function OutcomeAt(outcomes: seq<Outcome>, k: nat): Outcome {
    if k < |outcomes| then outcomes[k] else Succeed
  }

  /** How many of the first `n` commands succeed before one does not. */
  function Successes(outcomes: seq<Outcome>, n: nat): nat {
    if n == 0 then 0
    else var k := Successes(outcomes, n - 1);
         if k == n - 1 && OutcomeAt(outcomes, k) == Succeed then n else k
  }

  lemma {:induction false} SuccessesAreFirst(outcomes: seq<Outcome>, n: nat)
    ensures Successes(outcomes, n) <= n
    ensures forall k :: 0 <= k < Successes(outcomes, n) ==> OutcomeAt(outcomes, k) == Succeed
    ensures Successes(outcomes, n) < n ==> OutcomeAt(outcomes, Successes(outcomes, n)) != Succeed
  {
    if n > 0 {
      SuccessesAreFirst(outcomes, n - 1);
    }
  }

  lemma SuccessesUnique(outcomes: seq<Outcome>, n: nat, k: nat)
    requires k <= n && (forall j :: 0 <= j < k ==> OutcomeAt(outcomes, j) == Succeed)
    requires k < n ==> OutcomeAt(outcomes, k) != Succeed
    ensures Successes(outcomes, n) == k
  {
    SuccessesAreFirst(outcomes, n);
  }

  function Repeated(r: Reply, n: nat): (s: seq<Reply>)
    ensures |s| == n && forall i :: 0 <= i < n ==> s[i] == r
  {
    seq(n, _ => r)
  }

  function ResultOf(o: Outcome): Result {
    match o
    case Succeed => ResultOk
    case Fail => ResultError
    case Finish(_) => ResultFinish
    case Hangup => ResultClose
    case Shutdown => ResultKill
    case Idle(_) => ResultIdle
  }

  // ---------------------------------------------------------------------------------------
  // Idle history

  /** Flags that were raised, and notifications with what was subscribed and reported. */
  datatype IdleEvent = Raised(flags: set<nat>) | Notified(subscribed: set<nat>, reported: set<nat>)

  /** The flags raised since the last notification. */
  function Outstanding(history: seq<IdleEvent>): set<nat> {
    if history == [] then {}
    else
      var last := history[|history| - 1];
      if last.Notified? then {} else Outstanding(history[..|history| - 1]) + last.flags
  }

  /** Every notification reported exactly the subscribed ones of them, and something. */
  ghost predicate Faithful(history: seq<IdleEvent>) {
    forall k :: 0 <= k < |history| && history[k].Notified? ==>
      history[k].reported == Outstanding(history[..k]) * history[k].subscribed != {}
  }

  ghost predicate Named(flags: set<nat>) {
    forall f :: f in flags ==> f < NAMES
  }

  /** The lines of a notification. */
  function Changes(flags: set<nat>, n: nat): seq<Reply> {
    if n == 0 then [] else Changes(flags, n - 1) + (if n - 1 in flags then [Changed(n - 1)] else [])
  }

  lemma {:induction false} ChangesAreNoAnswers(flags: set<nat>, n: nat)
    ensures Answers(Changes(flags, n)) == 0
  {
    if n > 0 {
      ChangesAreNoAnswers(flags, n - 1);
      AnswersAppend(Changes(flags, n - 1), if n - 1 in flags then [Changed(n - 1)] else []);
    }
  }

  /** They name each flag exactly once, in order. */
  lemma {:induction false} ChangesNameFlags(flags: set<nat>, n: nat)
    ensures forall f: nat :: Changed(f) in Changes(flags, n) <==> f in flags && f < n
    ensures forall i, j :: 0 <= i < j < |Changes(flags, n)| ==> Ascend(Changes(flags, n)[i], Changes(flags, n)[j])
    ensures forall r :: r in Changes(flags, n) ==> r.Changed? && r.flag < n
  {
    if n > 0 {
      ChangesNameFlags(flags, n - 1);
    }
  }

  predicate Ascend(a: Reply, b: Reply) {
    a.Changed? && b.Changed? && a.flag < b.flag
  }

  lemma RaiseKeeps(history: seq<IdleEvent>, flags: set<nat>)
    requires Faithful(history)
    ensures Faithful(history + [Raised(flags)])
    ensures Outstanding(history + [Raised(flags)]) == Outstanding(history) + flags
  {
    assert (history + [Raised(flags)])[..|history|] == history;
    PrefixesKept(history, Raised(flags));
  }

  lemma NotifyKeeps(history: seq<IdleEvent>, subscribed: set<nat>)
    requires Faithful(history) && Outstanding(history) * subscribed != {}
    ensures Faithful(history + [Notified(subscribed, Outstanding(history) * subscribed)])
    ensures Outstanding(history + [Notified(subscribed, Outstanding(history) * subscribed)]) == {}
  {
    PrefixesKept(history, Notified(subscribed, Outstanding(history) * subscribed));
  }

  lemma PrefixesKept(history: seq<IdleEvent>, e: IdleEvent)
    ensures forall k :: 0 <= k <= |history| ==> (history + [e])[..k] == history[..k]
    ensures history[..|history|] == history
  {
  }

  // ---------------------------------------------------------------------------------------
  // The client

  datatype Execution = Execution(index: nat, command: string)

  /** The first `m` commands of a list, with their places. */
  function Executed(cmds: seq<string>, m: nat): (s: seq<Execution>)
    requires m <= |cmds|
    ensures |s| == m && forall i :: 0 <= i < m ==> s[i] == Execution(i, cmds[i])
  {
    seq(m, i requires 0 <= i < m => Execution(i, cmds[i]))
  }

  // ---------------------------------------------------------------------------------------
  // The protocol, as seen from outside

  /** What a client whose connection holds can observe, and what was run for it. */
  datatype Session = Session(
    mode: Mode, list: seq<string>, waiting: bool, flags: set<nat>, subscribed: set<nat>,
    replies: seq<Reply>, ran: seq<Execution>)

  /** The idle command: answered at once if something is outstanding. */
  function AfterIdle(s: Session, subscribed: set<nat>): Session {
    Notify(s.(waiting := true, subscribed := subscribed))
  }

  /** A waiting client is told the outstanding flags it has subscribed to; then all are forgotten. */
  function Notify(s: Session): Session {
    var reported := s.flags * s.subscribed;
    if s.waiting && reported != {} then
      s.(waiting := false, flags := {}, replies := s.replies + Changes(reported, NAMES) + [Ok])
    else s
  }

  function AfterRaise(s: Session, flags: set<nat>): Session {
    Notify(s.(flags := s.flags + flags))
  }

  /** One command; an OK is the business of its caller. */
  function AfterCommand(s: Session, num: nat, cmd: string, o: Outcome): Session {
    var s' := s.(ran := s.ran + [Execution(num, cmd)]);
    if o.Fail? || (o.Finish? && o.ack) then s'.(replies := s'.replies + [Ack(num)])
    else if o.Idle? then AfterIdle(s', o.flags)
    else s'
  }

  lemma SuccessOnlyRuns(s: Session, num: nat, cmd: string)
    ensures AfterCommand(s, num, cmd, Succeed) == s.(ran := s.ran + [Execution(num, cmd)])
  {
  }

  /** The first `k` commands of a list have succeeded. */
  function Underway(s: Session, listOk: bool, cmds: seq<string>, k: nat): Session
    requires k <= |cmds|
  {
    s.(ran := s.ran + Executed(cmds, k), replies := s.replies + ListOks(listOk, k))
  }

  lemma UnderwayStarts(s: Session, listOk: bool, cmds: seq<string>)
    ensures Underway(s, listOk, cmds, 0) == s
  {
  }

  lemma UnderwayGoesOn(s: Session, listOk: bool, cmds: seq<string>, k: nat)
    requires k < |cmds|
    ensures s.ran + Executed(cmds, k + 1) == s.ran + Executed(cmds, k) + [Execution(k, cmds[k])]
    ensures Underway(s, listOk, cmds, k + 1) ==
            Underway(s, listOk, cmds, k).(ran := s.ran + Executed(cmds, k + 1),
                                          replies := s.replies + ListOks(listOk, k + 1))
  {
  }

  /** A list runs up to its first command that does not succeed. */
  function AfterList(s: Session, listOk: bool, cmds: seq<string>, outcomes: seq<Outcome>): Session
    requires Successes(outcomes, |cmds|) <= |cmds|
  {
    var k := Successes(outcomes, |cmds|);
    var s' := Underway(s, listOk, cmds, k);
    if k == |cmds| then s' else AfterCommand(s', k, cmds[k], OutcomeAt(outcomes, k))
  }

  function Answered(s: Session, r: Result): Session {
    if r == ResultOk then s.(replies := s.replies + [Ok]) else s
  }

  function AfterLine(s: Session, line: string, outcomes: seq<Outcome>): Session {
    SuccessesAreFirst(outcomes, |s.list|);
    if line == NOIDLE then if s.waiting then Answered(s.(waiting := false), ResultOk) else s
    else if s.mode != Disabled then
      if line == LIST_END then
        Answered(AfterList(s, s.mode == OkMode, s.list, outcomes), ListResult(|s.list|, outcomes))
        .(mode := Disabled, list := [])
      else s.(list := s.list + [line])
    else if line == LIST_BEGIN then s.(mode := Enabled)
    else if line == LIST_OK_BEGIN then s.(mode := OkMode)
    else Answered(AfterCommand(s, 0, line, OutcomeAt(outcomes, 0)), ResultOf(OutcomeAt(outcomes, 0)))
  }

  /** What a line leads to, unless it makes a list too large. */
  function LineResult(s: Session, line: string, outcomes: seq<Outcome>): Result {
    if line == NOIDLE then ResultOk
    else if s.waiting then ResultClose
    else if s.mode != Disabled then if line == LIST_END then ListResult(|s.list|, outcomes) else ResultOk
    else if line == LIST_BEGIN || line == LIST_OK_BEGIN then ResultOk
    else ResultOf(OutcomeAt(outcomes, 0))
  }

  /** The line is added to the open list. */
  predicate Collects(s: Session, line: string) {
    !s.waiting && s.mode != Disabled && line != LIST_END && line != NOIDLE
  }

  /** The first line of the input. */
  function FirstLine(data: string): string
    requires '\n' in data
  {
    if data[0] == '\n' then [] else [data[0]] + FirstLine(data[1..])
  }

  lemma {:induction false} FirstLineIs(data: string, n: nat)
    requires n < |data| && data[n] == '\n' && '\n' !in data[..n]
    ensures FirstLine(data) == data[..n]
  {
    if n == 0 {
      assert data[..0] == [];
    } else {
      assert data[..n] == [data[0]] + data[1..][..n - 1];
      assert data[..n][0] == data[0];
      FirstLineIs(data[1..], n - 1);
    }
  }

  /** What the events make of a client that survives them; while it does, timeouts are off. */
  function AfterEvents(s: Session, events: seq<Event>): Session {
    if events == [] then s
    else AfterEvent(AfterEvents(s, events[..|events| - 1]), events[|events| - 1])
  }

  function AfterEvent(s: Session, e: Event): Session {
    match e
    case Input(data, outcomes) => if '\n' in data then AfterLine(s, StripRight(FirstLine(data)), outcomes) else s
    case Raise(flags) => AfterRaise(s, flags)
    case _ => s
  }

  class Client {
    const maxListSize: nat

    /** No write fails; without it any may. */
    const reliable: bool

    var closed: bool
    var expired: bool
    var timerArmed: bool
    var idleWaiting: bool
    var idleFlags: set<nat>
    var idleSubscriptions: set<nat>
    var mode: Mode
    var list: seq<string>
    var size: nat
    var replies: seq<Reply>

    // what happened so far
    ghost var lines: seq<string>
    ghost var history: seq<IdleEvent>
    ghost var ran: seq<Execution>

    ghost function Now(): Session
      reads this`mode, this`list, this`idleWaiting, this`idleFlags, this`idleSubscriptions, this`replies, this`ran
    {
      Session(mode, list, idleWaiting, idleFlags, idleSubscriptions, replies, ran)
    }

    predicate Live()
      reads this`closed, this`expired
    {
      !closed && !expired
    }

    function Waiting(): nat
      reads this`idleWaiting
    {
      if idleWaiting then 1 else 0
    }

    /** The timeout is off exactly while a live client waits. */
    ghost predicate TimerOk()
      reads this`closed, this`expired, this`timerArmed, this`idleWaiting
    {
      !closed ==> timerArmed == (expired || !idleWaiting)
    }

    /** Nothing a waiting client has subscribed to is outstanding. */
    ghost predicate IdleOk()
      reads this`history, this`idleFlags, this`idleSubscriptions, this`idleWaiting
    {
      && Faithful(history) && Named(idleFlags) && idleFlags == Outstanding(history)
      && (idleWaiting ==> idleFlags * idleSubscriptions == {})
    }

    ghost predicate ListValid()
      reads this`mode, this`list, this`size, this`idleWaiting
    {
      && (mode == Disabled ==> list == [])
      && (mode != Disabled ==> size == ListSize(list) <= maxListSize && !idleWaiting)
    }

    /** One answer per request, except for one that waits. */
    ghost predicate FramingOk()
      reads this`lines, this`mode, this`replies, this`idleWaiting
    {
      FramingOf(lines) == Framing(mode, Answers(replies) + Waiting())
    }

    ghost predicate Valid()
      reads this
    {
      TimerOk() && IdleOk() && (Live() ==> ListValid() && FramingOk())
    }

    constructor (maxListSize: nat, reliable: bool)
      ensures Valid() && Live() && lines == [] && replies == [] && history == []
      ensures this.maxListSize == maxListSize && this.reliable == reliable
      ensures Now() == Session(Disabled, [], false, {}, {}, [], [])
    {
      this.maxListSize, this.reliable := maxListSize, reliable;
      closed, expired, timerArmed, idleWaiting := false, false, true, false;
      idleFlags, idleSubscriptions := {}, {};
      mode, list, size, replies := Disabled, [], 0, [];
      lines, history, ran := [], [], [];
    }

    method SetExpired()
      requires !closed
      modifies this`expired, this`timerArmed
      ensures expired && timerArmed == (!old(expired) || old(timerArmed))
    {
      if !expired {
        expired, timerArmed := true, true;
      }
    }

    method Close()
      modifies this`closed, this`expired, this`timerArmed
      ensures closed && expired
    {
      closed, expired, timerArmed := true, true, false;
    }

    /** Writes a line, unless the client is expired; the write may expire it. */
    method Puts(r: Reply)
      requires !closed
      modifies this`replies, this`expired, this`timerArmed
      ensures !expired ==> replies == old(replies) + [r] && timerArmed == old(timerArmed)
      ensures expired ==> replies == old(replies)
      ensures old(expired) ==> expired
      ensures expired ==> timerArmed == (!old(expired) || old(timerArmed))
      ensures reliable ==> expired == old(expired)
    {
      if !expired {
        var fails: bool := *;
        if fails && !reliable {
          SetExpired();
        } else {
          replies := replies + [r];
        }
      }
    }

    // -------------------------------------------------------------------------------------
    // Idle

    /** Reports the outstanding flags the client has subscribed to, and forgets the others. */
    method IdleNotify()
      requires !closed && idleWaiting && idleFlags * idleSubscriptions != {}
      requires Faithful(history) && Named(idleFlags) && idleFlags == Outstanding(history)
      modifies this`replies, this`expired, this`timerArmed, this`idleFlags, this`idleWaiting, this`history
      ensures IdleOk() && TimerOk() && !idleWaiting && idleFlags == {}
      ensures history == old(history) + [Notified(idleSubscriptions, old(idleFlags) * idleSubscriptions)]
      ensures !expired ==> replies == old(replies) + Changes(old(idleFlags) * idleSubscriptions, NAMES) + [Ok]
      ensures old(replies) <= replies && (old(expired) ==> expired && replies == old(replies))
      ensures reliable ==> expired == old(expired)
    {
      var flags := idleFlags;
      ghost var before := replies;
      NotifyKeeps(history, idleSubscriptions);
      history := history + [Notified(idleSubscriptions, flags * idleSubscriptions)];
      idleFlags, idleWaiting := {}, false;
      var i := 0;
      while i < NAMES
        invariant i <= NAMES && before <= replies && (old(expired) ==> expired && replies == before)
        invariant reliable ==> expired == old(expired)
        invariant !expired ==> replies == before + Changes(flags * idleSubscriptions, i)
        modifies this`replies, this`expired, this`timerArmed
      {
        if i in flags && i in idleSubscriptions {
          Puts(Changed(i));
        }
        i := i + 1;
      }
      Puts(Ok);
      timerArmed := true;
    }

    method IdleAdd(flags: set<nat>)
      requires Valid() && !closed && Named(flags)
      modifies this`replies, this`expired, this`timerArmed, this`idleFlags, this`idleWaiting, this`history
      ensures Valid() && !closed && (reliable ==> expired == old(expired))
      ensures old(expired) ==> unchanged(this)
      ensures !old(expired) ==> old(history) + [Raised(flags)] <= history
      ensures Live() && old(idleWaiting) ==> (idleWaiting <==> flags * idleSubscriptions == {})
      ensures Live() ==> Now() == AfterRaise(old(Now()), flags)
    {
      hide Faithful, Outstanding, Answers, Changes, FramingOf, ListSize;
      if expired {
        return;
      }
      RaiseKeeps(history, flags);
      history := history + [Raised(flags)];
      idleFlags := idleFlags + flags;
      ghost var before := replies;
      if idleWaiting && idleFlags * idleSubscriptions != {} {
        ghost var reported := idleFlags * idleSubscriptions;
        IdleNotify();
        NotificationIsOneAnswer(before, reported);
      }
    }

    /**
     Enters idle mode, or answers at once if something is outstanding. A command list may get
     here with a client that has expired meanwhile; such a client is closed right after.
     */
    method IdleWait(flags: set<nat>) returns (notified: bool)
      requires !closed && !idleWaiting && IdleOk() && (!expired ==> timerArmed)
      modifies this`replies, this`expired, this`timerArmed, this`idleFlags, this`idleWaiting, this`history
      modifies this`idleSubscriptions
      ensures IdleOk() && idleSubscriptions == flags && (!expired ==> TimerOk())
      ensures old(replies) <= replies && (old(expired) ==> expired && replies == old(replies))
      ensures reliable ==> expired == old(expired)
      ensures notified == (old(idleFlags) * flags != {}) == !idleWaiting
      ensures !notified ==> replies == old(replies) && expired == old(expired)
      ensures !expired ==> Answers(replies) + Waiting() == Answers(old(replies)) + 1
      ensures !expired ==> Now() == AfterIdle(old(Now()), flags)
    {
      hide Faithful, Outstanding, Named, Answers, Changes;
      idleWaiting, idleSubscriptions := true, flags;
      ghost var before := replies;
      if idleFlags * idleSubscriptions != {} {
        ghost var reported := idleFlags * idleSubscriptions;
        IdleNotify();
        NotificationIsOneAnswer(before, reported);
        return true;
      }
      timerArmed := false;
      notified := false;
    }

    // -------------------------------------------------------------------------------------
    // Commands

    /** Runs one command: a failed one prints an ACK with its place. */
    method CommandProcess(num: nat, cmd: string, o: Outcome) returns (result: Result)
      requires !closed && !idleWaiting && IdleOk() && (!expired ==> timerArmed)
      modifies this`replies, this`expired, this`timerArmed, this`idleFlags, this`idleWaiting, this`history
      modifies this`idleSubscriptions, this`ran
      ensures IdleOk() && (!expired ==> TimerOk()) && result == ResultOf(o)
      ensures old(replies) <= replies && (old(expired) ==> expired && replies == old(replies))
      ensures reliable ==> expired == old(expired)
      ensures ran == old(ran) + [Execution(num, cmd)]
      ensures idleWaiting ==> o.Idle?
      ensures !expired && o == Fail ==> replies == old(replies) + [Ack(num)]
      ensures !expired && o == Succeed ==> replies == old(replies)
      ensures !expired ==> Answers(replies) + Waiting() == Answers(old(replies)) + AnswersOf(o)
      ensures !expired ==> Now() == AfterCommand(old(Now()), num, cmd, o)
    {
      ran := ran + [Execution(num, cmd)];
      if o.Fail? || (o.Finish? && o.ack) {
        AnswersAppend(replies, [Ack(num)]);
        Puts(Ack(num));
      } else if o.Idle? {
        var _ := IdleWait(o.flags);
      } else {
        var fails: bool := *;
        if fails && !reliable {
          SetExpired();
        }
      }
      result := ResultOf(o);
    }

    /** A successful list command: `list_OK` is printed if the list asks for it. */
    method Acknowledge(listOk: bool, ghost before: seq<Reply>, ghost num: nat)
      requires !closed && (!expired ==> timerArmed && replies == before + ListOks(listOk, num))
      modifies this`replies, this`expired, this`timerArmed
      ensures old(expired) ==> expired
      ensures reliable ==> expired == old(expired)
      ensures expired && !old(expired) ==> listOk && replies == before + ListOks(true, num)
      ensures !expired ==> timerArmed && replies == before + ListOks(listOk, num + 1)
    {
      if listOk {
        assert before + ListOks(true, num + 1) == before + ListOks(true, num) + [ListOk];
        Puts(ListOk);
      }
    }

    /**
     Runs a command list: it stops at the first command that does not succeed, which answers
     with the number of those before it. If the client expires while command m - 1 is run, it
     stops there. If it expires while the list_OK of command `lost` is written, so that this
     list_OK is missing, the next command is run all the same, and no other.
     */
    method ProcessList(listOk: bool, cmds: seq<string>, outcomes: seq<Outcome>)
        returns (ret: Result, ghost m: nat, ghost lost: Option<nat>)
      requires Live() && !idleWaiting && IdleOk() && timerArmed
      modifies this`replies, this`expired, this`timerArmed, this`idleFlags, this`idleWaiting, this`history
      modifies this`idleSubscriptions, this`ran
      ensures IdleOk() && (!expired ==> TimerOk()) && (idleWaiting ==> ret == ResultIdle) && (reliable ==> !expired)
      ensures m <= |cmds| && m <= Successes(outcomes, |cmds|) + 1 && ran == old(ran) + Executed(cmds, m)
      ensures lost.Some? ==> listOk && expired && m == (if lost.value + 1 < |cmds| then lost.value + 2 else |cmds|)
      ensures lost.Some? ==> replies == old(replies) + ListOks(true, lost.value)
      ensures expired && lost == None ==> m > 0 && old(replies) + ListOks(listOk, m - 1) <= replies
      ensures !expired ==> m == (if ret == ResultOk then |cmds| else Successes(outcomes, |cmds|) + 1)
      ensures !expired ==> ret == ListResult(|cmds|, outcomes)
      ensures Successes(outcomes, |cmds|) <= |cmds|
      ensures !expired ==> Now() == AfterList(old(Now()), listOk, cmds, outcomes)
      ensures !expired && ret == ResultOk ==> replies == old(replies) + ListOks(listOk, |cmds|)
      ensures !expired && ret == ResultError ==>
                var k := Successes(outcomes, |cmds|); replies == old(replies) + ListOks(listOk, k) + [Ack(k)]
      ensures !expired ==> Answers(replies) + Waiting() == Answers(old(replies)) + ListAnswers(|cmds|, outcomes)
    {
      hide Answers, Outstanding, Faithful, Named, Successes, AfterCommand, ListOks, Executed;
      SuccessesAreFirst(outcomes, |cmds|);
      ghost var before, ranBefore, was := replies, ran, Now();
      ret := ResultOk;
      var num := 0;
      m, lost := 0, None;
      UnderwayStarts(was, listOk, cmds);
      while num < |cmds|
        invariant num <= |cmds| && m == num && ret == ResultOk
        invariant IdleOk() && !idleWaiting && !closed && (reliable ==> !expired)
        invariant !expired ==> timerArmed && Now() == Underway(was, listOk, cmds, num)
        invariant forall k :: 0 <= k < num ==> OutcomeAt(outcomes, k) == Succeed
        invariant ran == ranBefore + Executed(cmds, num)
        invariant if expired then num > 0 && listOk && lost == Some(num - 1) else lost == None
        invariant expired ==> replies == before + ListOks(true, num - 1)
      {
        ListOksAreNoAnswers(before, listOk, num);
        SuccessOnlyRuns(Now(), num, cmds[num]);
        ret := CommandProcess(num, cmds[num], OutcomeAt(outcomes, num));
        m := num + 1;
        UnderwayGoesOn(was, listOk, cmds, num);
        if ret != ResultOk || expired {
          SuccessesAtLeast(outcomes, |cmds|, num);
          return;
        }
        Acknowledge(listOk, before, num);
        lost := if expired then Some(num) else None;
        num := num + 1;
      }
      SuccessesUnique(outcomes, |cmds|, |cmds|);
      ListOksAreNoAnswers(before, listOk, |cmds|);
    }

    // -------------------------------------------------------------------------------------
    // Lines

    /** The end of a command list: it is run, and answered as one request. */
    method EndList(outcomes: seq<Outcome>) returns (ret: Result)
      requires Live() && timerArmed && IdleOk() && ListValid() && mode != Disabled
      modifies this
      ensures IdleOk() && lines == old(lines) && !closed && (reliable ==> !expired)
      ensures Keeps(ret) && !expired ==> Now() == AfterLine(old(Now()), LIST_END, outcomes)
      ensures !expired ==> ret == ListResult(|old(list)|, outcomes)
      ensures Keeps(ret) && !expired ==> TimerOk() && ListValid() && mode == Disabled &&
                                         Answers(replies) + Waiting() == Answers(old(replies)) + 1
    {
      hide Faithful, Named, Outstanding, Successes, ListOks, Answers, AfterList;
      OkIsAnAnswer();
      ghost var before, n, listOk := replies, |list|, mode == OkMode;
      ghost var executed, lost;
      ret, executed, lost := ProcessList(mode == OkMode, list, outcomes);
      if ret == ResultClose || expired {
        return ResultClose;
      }
      if ret == ResultOk {
        ListOksAreNoAnswers(before, listOk, n);
        AnswersAppend(replies, [Ok]);
        Puts(Ok);
      }
      list, mode := [], Disabled;
    }

    /** A command of its own. */
    method SingleCommand(line: string, outcomes: seq<Outcome>) returns (ret: Result)
      requires Live() && timerArmed && IdleOk() && !idleWaiting
      modifies this`replies, this`expired, this`timerArmed, this`idleFlags, this`idleWaiting, this`history
      modifies this`idleSubscriptions, this`ran
      ensures IdleOk() && (reliable ==> !expired)
      ensures !expired ==> ret == ResultOf(OutcomeAt(outcomes, 0))
      ensures Keeps(ret) && !expired ==>
                Now() == Answered(AfterCommand(old(Now()), 0, line, OutcomeAt(outcomes, 0)), ret)
      ensures Keeps(ret) && !expired ==> TimerOk() && Answers(replies) + Waiting() == Answers(old(replies)) + 1
    {
      hide Faithful, Named, Outstanding, Answers, AfterCommand;
      OkIsAnAnswer();
      ret := CommandProcess(0, line, OutcomeAt(outcomes, 0));
      if ret == ResultClose || expired {
        return ResultClose;
      }
      if ret == ResultOk {
        AnswersAppend(replies, [Ok]);
        Puts(Ok);
      }
    }

    /** Adds a line to the command list unless that makes it too large. */
    method AddToList(line: string) returns (ok: bool)
      requires ListValid() && mode != Disabled
      modifies this`list, this`size
      ensures ok <==> ListSize(old(list) + [line]) <= maxListSize
      ensures ok ==> ListValid() && list == old(list) + [line]
    {
      assert (list + [line])[..|list|] == list;
      size := size + |line| + 1;
      if size > maxListSize {
        return false;
      }
      list := list + [line];
      ok := true;
    }

    /** One line from the client. */
    method ProcessLine(line: string, outcomes: seq<Outcome>) returns (ret: Result)
      requires Live() && timerArmed && IdleOk() && ListValid() && FramingOk()
      modifies this
      ensures IdleOk() && lines == old(lines) + [line] && !closed && (reliable ==> !expired)
      ensures Keeps(ret) && !expired ==> Valid() && Live()
      ensures Keeps(ret) && !expired ==> Now() == AfterLine(old(Now()), line, outcomes)
      ensures !expired ==>
                ret == if Collects(old(Now()), line) && ListSize(old(list) + [line]) > maxListSize then ResultClose
                       else LineResult(old(Now()), line, outcomes)
      ensures old(idleWaiting) && line != NOIDLE ==> ret == ResultClose && replies == old(replies)
      ensures !old(idleWaiting) && line == NOIDLE ==> ret == ResultOk && replies == old(replies)
    {
      hide Faithful, Named, Outstanding, ListSize, Answers, FramingOf, AfterList, AfterCommand;
      FramingAppend(lines, line);
      lines := lines + [line];
      if line == NOIDLE {
        if idleWaiting {
          idleWaiting := false;
          AnswersAppend(replies, [Ok]);
          OkIsAnAnswer();
          Puts(Ok);
        }
        return ResultOk;
      } else if idleWaiting {
        return ResultClose;
      }
      if mode != Disabled {
        if line == LIST_END {
          ret := EndList(outcomes);
        } else {
          var ok := AddToList(line);
          ret := if ok then ResultOk else ResultClose;
        }
      } else if line == LIST_BEGIN || line == LIST_OK_BEGIN {
        BeginList(line == LIST_OK_BEGIN);
        ret := ResultOk;
      } else {
        ret := SingleCommand(line, outcomes);
      }
    }

    method BeginList(ok: bool)
      requires ListValid() && mode == Disabled && !idleWaiting
      modifies this`mode, this`size
      ensures ListValid() && mode == if ok then OkMode else Enabled
    {
      assert list == [];
      mode, size := if ok then OkMode else Enabled, 0;
    }

    /**
     Input from the socket: without a newline it waits for more, otherwise the timeout is
     started again and the line is dispatched. In the end the client is closed or valid.
     */
    method OnSocketInput(data: string, outcomes: seq<Outcome>) returns (consumed: nat)
      requires Valid() && Live()
      modifies this
      ensures Valid()
      ensures '\n' !in data ==> consumed == 0 && unchanged(this)
      ensures '\n' in data ==> 0 < consumed <= |data| && data[consumed - 1] == '\n' && '\n' !in data[..consumed - 1]
      ensures '\n' in data ==> lines == old(lines) + [StripRight(FirstLine(data))]
      ensures Live() ==> Now() == AfterEvent(old(Now()), Input(data, outcomes))
      ensures reliable && !Live() ==> closed
      ensures reliable && '\n' in data ==>
                var line := StripRight(FirstLine(data));
                (Live() <==>
                 && Keeps(LineResult(old(Now()), line, outcomes))
                 && (Collects(old(Now()), line) ==> ListSize(old(list) + [line]) <= maxListSize))
    {
      hide Faithful, Named, Outstanding, ListSize, Answers, FramingOf, StripRight, AfterLine, LineResult, FirstLine;
      consumed := FindNewline(data);
      if consumed == 0 {
        return;
      }
      FirstLineIs(data, consumed - 1);
      timerArmed := true;
      var result := ProcessLine(StripRight(data[..consumed - 1]), outcomes);
      if result == ResultFinish && !expired {
        var fails: bool := *;
        if fails && !reliable {
          SetExpired();
        } else {
          Close();
        }
      } else if !Keeps(result) || expired {
        Close();
      }
    }

    /** The timeout: a live client is never waiting then. */
    method OnTimeout()
      requires Valid() && !closed && timerArmed
      modifies this`closed, this`expired, this`timerArmed
      ensures Valid() && closed && (old(Live()) ==> !idleWaiting)
    {
      timerArmed := false;
      Close();
    }

    /** An error on the socket, or its end. */
    method OnSocketError()
      requires Valid() && !closed
      modifies this`expired, this`timerArmed
      ensures Valid() && !Live()
    {
      SetExpired();
    }

    /** Every script of events, until the client is gone. */
    method Run(events: seq<Event>)
      requires Valid() && forall e :: e in events && e.Raise? ==> Named(e.flags)
      modifies this
      ensures Valid()
      ensures Live() ==> Now() == AfterEvents(old(Now()), events)
    {
      hide Faithful, Outstanding, ListSize, Answers, FramingOf, AfterLine, AfterRaise;
      assert events[..0] == [];
      for i := 0 to |events|
        invariant Valid()
        invariant Live() ==> Now() == AfterEvents(old(Now()), events[..i])
      {
        assert events[..i + 1] == events[..i] + [events[i]];
        var e := events[i];
        if closed {
          return;
        } else if e.Raise? {
          IdleAdd(e.flags);
        } else if e.Input? && Live() {
          var _ := OnSocketInput(e.data, e.outcomes);
        } else if e.Timeout? && timerArmed {
          OnTimeout();
        } else if e.Broken? {
          OnSocketError();
        }
      }
      assert events[..|events|] == events;
    }
  }

  datatype Event = Input(data: string, outcomes: seq<Outcome>) | Raise(flags: set<nat>) | Timeout | Broken

  predicate Keeps(r: Result) {
    r.ResultOk? || r.ResultIdle? || r.ResultError?
  }

  /** Without the white space and control characters at the end. */
  function StripRight(s: string): (r: string)
    ensures r <= s && (r != [] ==> r[|r| - 1] > ' ')
    ensures forall i :: |r| <= i < |s| ==> s[i] <= ' '
  {
    if s != [] && s[|s| - 1] <= ' ' then StripRight(s[..|s| - 1]) else s
  }

  /** The length of the first line with its newline, or 0. */
  method FindNewline(data: string) returns (n: nat)
    ensures n == 0 <==> '\n' !in data
    ensures n > 0 ==> n <= |data| && data[n - 1] == '\n' && '\n' !in data[..n - 1]
  {
    n := 0;
    while n < |data|
      invariant n <= |data| && '\n' !in data[..n]
    {
      n := n + 1;
      if data[n - 1] == '\n' {
        return;
      }
    }
    n := 0;
  }

  lemma FramingAppend(lines: seq<string>, line: string)
    ensures FramingOf(lines + [line]) == NextFraming(FramingOf(lines), line)
  {
    assert (lines + [line])[..|lines|] == lines;
  }

  lemma OkIsAnAnswer()
    ensures Answers([Ok]) == 1
  {
  }

  /** How many answers a command gives by itself, if idle mode counts as one. */
  function AnswersOf(o: Outcome): nat {
    if o.Fail? || o.Idle? || (o.Finish? && o.ack) then 1 else 0
  }

  function ListOks(listOk: bool, n: nat): seq<Reply> {
    if listOk then Repeated(ListOk, n) else []
  }

  /** What a list of `n` commands returns: the result of the first that does not succeed. */
  function ListResult(n: nat, outcomes: seq<Outcome>): Result {
    var k := Successes(outcomes, n);
    if k == n then ResultOk else ResultOf(OutcomeAt(outcomes, k))
  }

  function ListAnswers(n: nat, outcomes: seq<Outcome>): nat {
    var k := Successes(outcomes, n);
    if k == n then 0 else AnswersOf(OutcomeAt(outcomes, k))
  }

  lemma {:induction false} ListOksAreNoAnswers(before: seq<Reply>, listOk: bool, n: nat)
    ensures Answers(before + ListOks(listOk, n)) == Answers(before)
  {
    if listOk && n > 0 {
      ListOksAreNoAnswers(before, listOk, n - 1);
      assert ListOks(true, n) == ListOks(true, n - 1) + [ListOk];
      assert before + ListOks(true, n) == before + ListOks(true, n - 1) + [ListOk];
      AnswersAppend(before + ListOks(true, n - 1), [ListOk]);
    } else {
      assert before + ListOks(listOk, n) == before;
    }
  }

  lemma SuccessesAtLeast(outcomes: seq<Outcome>, n: nat, k: nat)
    requires k < n && (forall j :: 0 <= j < k ==> OutcomeAt(outcomes, j) == Succeed)
    ensures k <= Successes(outcomes, n)
    ensures OutcomeAt(outcomes, k) != Succeed ==> Successes(outcomes, n) == k
  {
    SuccessesAreFirst(outcomes, n);
  }

  lemma NotificationIsOneAnswer(before: seq<Reply>, flags: set<nat>)
    ensures Answers(before + Changes(flags, NAMES) + [Ok]) == Answers(before) + 1
  {
    ChangesAreNoAnswers(flags, NAMES);
    AnswersAppend(before, Changes(flags, NAMES));
    AnswersAppend(before + Changes(flags, NAMES), [Ok]);
  }
}
