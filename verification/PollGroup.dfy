/**
 The poll groups of the event loop: src/event/PollGroupPoll.cxx (one slot per descriptor) and
 src/event/PollGroupWinSelect.cxx (two bounded socket sets). Both keep a map from descriptors
 to slots beside the slots themselves and repair it after a swap-remove; both refine a plain
 map from descriptors to registrations.

 Event masks are sets of bit numbers; the registered object is an opaque number.
 */
module PollGroup {

  type Mask = set<nat>

  /** What a caller registered for a descriptor. */
  datatype Registration = Registration(events: Mask, obj: nat)

  // ---------------------------------------------------------------------------------------
  // poll()

  datatype PollFd = PollFd(fd: int, events: Mask, revents: Mask)

  datatype Item = Item(index: nat, obj: nat)

  datatype Event = Event(events: Mask, obj: nat)

  /** The outcome of poll(): an error, or the bits it found per descriptor. */
  datatype Outcome = Failed | Ready(bits: map<int, Mask>)

  function Bits(bits: map<int, Mask>, fd: int): Mask {
    if fd in bits then bits[fd] else {}
  }

  function Filled(slots: seq<PollFd>, bits: map<int, Mask>): (r: seq<PollFd>)
    ensures |r| == |slots|
    ensures forall i :: 0 <= i < |slots| ==> r[i] == slots[i].(revents := Bits(bits, slots[i].fd))
  {
    seq(|slots|, i requires 0 <= i < |slots| => slots[i].(revents := Bits(bits, slots[i].fd)))
  }

  /** The number of slots with something to report. */
  function Reporting(slots: seq<PollFd>): nat {
    if slots == [] then 0 else (if slots[0].revents != {} then 1 else 0) + Reporting(slots[1..])
  }

  ghost predicate PollCoherent(slots: seq<PollFd>, items: map<int, Item>) {
    && (forall fd :: fd in items ==> items[fd].index < |slots| && slots[items[fd].index].fd == fd)
    && (forall i :: 0 <= i < |slots| ==> slots[i].fd in items && items[slots[i].fd].index == i)
  }

  ghost function PollView(slots: seq<PollFd>, items: map<int, Item>): map<int, Registration>
    requires PollCoherent(slots, items)
  {
    map fd | fd in items :: Registration(slots[items[fd].index].events, items[fd].obj)
  }

  lemma AddKeeps(slots: seq<PollFd>, items: map<int, Item>, fd: int, events: Mask, obj: nat)
    requires PollCoherent(slots, items) && fd !in items
    ensures var slots', items' := slots + [PollFd(fd, events, {})], items[fd := Item(|slots|, obj)];
            && PollCoherent(slots', items')
            && PollView(slots', items') == PollView(slots, items)[fd := Registration(events, obj)]
  {
    var slots', items' := slots + [PollFd(fd, events, {})], items[fd := Item(|slots|, obj)];
    assert PollCoherent(slots', items');
    assert forall k :: k in items' && k != fd ==> PollView(slots', items')[k] == PollView(slots, items)[k];
  }

  lemma ModifyKeeps(slots: seq<PollFd>, items: map<int, Item>, fd: int, events: Mask, obj: nat)
    requires PollCoherent(slots, items) && fd in items
    ensures var index := items[fd].index;
            var e := slots[index].(events := events, revents := slots[index].revents * events);
            var slots', items' := slots[index := e], items[fd := Item(index, obj)];
            && PollCoherent(slots', items')
            && PollView(slots', items') == PollView(slots, items)[fd := Registration(events, obj)]
  {
    var index := items[fd].index;
    var e := slots[index].(events := events, revents := slots[index].revents * events);
    var slots', items' := slots[index := e], items[fd := Item(index, obj)];
    assert PollCoherent(slots', items');
    assert forall k :: k in items' && k != fd ==> PollView(slots', items')[k] == PollView(slots, items)[k];
  }

  lemma RemoveKeeps(slots: seq<PollFd>, items: map<int, Item>, fd: int)
    requires PollCoherent(slots, items) && fd in items
    ensures |slots| > 0 && slots[|slots| - 1].fd in items
    ensures PollCoherent(WithoutSlot(slots, items[fd].index), WithoutItem(slots, items, fd))
    ensures PollView(WithoutSlot(slots, items[fd].index), WithoutItem(slots, items, fd)) ==
            PollView(slots, items) - {fd}
  {
    var slots', items' := WithoutSlot(slots, items[fd].index), WithoutItem(slots, items, fd);
    assert PollCoherent(slots', items');
    assert forall k :: k in items' ==> PollView(slots', items')[k] == PollView(slots, items)[k];
  }

  /** Without the slot `index`, the last one moved into it. */
  function WithoutSlot(slots: seq<PollFd>, index: nat): seq<PollFd>
    requires index < |slots|
  {
    slots[index := slots[|slots| - 1]][..|slots| - 1]
  }

  function WithoutItem(slots: seq<PollFd>, items: map<int, Item>, fd: int): map<int, Item>
    requires fd in items && |slots| > 0 && slots[|slots| - 1].fd in items
  {
    var last := slots[|slots| - 1].fd;
    items[last := items[last].(index := items[fd].index)] - {fd}
  }

  /** The event is the result for a registered descriptor, with the object registered for it. */
  ghost predicate Reports(items: map<int, Item>, bits: map<int, Mask>, fd: int, e: Event) {
    fd in items && e.events == Bits(bits, fd) != {} && e.obj == items[fd].obj
  }

  class PollGroupPoll {
    var slots: seq<PollFd>
    var items: map<int, Item>

    ghost predicate Valid()
      reads this
    {
      PollCoherent(slots, items)
    }

    ghost function View(): map<int, Registration>
      requires Valid()
      reads this
    {
      PollView(slots, items)
    }

    constructor ()
      ensures Valid() && View() == map[]
    {
      slots, items := [], map[];
    }

    method Add(fd: int, events: Mask, obj: nat)
      requires Valid() && fd !in items
      modifies this
      ensures Valid() && View() == old(View())[fd := Registration(events, obj)]
    {
      AddKeeps(slots, items, fd, events, obj);
      items := items[fd := Item(|slots|, obj)];
      slots := slots + [PollFd(fd, events, {})];
    }

    method Modify(fd: int, events: Mask, obj: nat)
      requires Valid() && fd in items
      modifies this
      ensures Valid() && View() == old(View())[fd := Registration(events, obj)]
      ensures forall i :: 0 <= i < |slots| && slots[i].fd == fd ==>
                i < |old(slots)| && slots[i].revents == old(slots)[i].revents * events
    {
      ModifyKeeps(slots, items, fd, events, obj);
      var item := items[fd].(obj := obj);
      items := items[fd := item];
      var e := slots[item.index];
      slots := slots[item.index := e.(events := events, revents := e.revents * events)];
    }

    method Remove(fd: int)
      requires Valid() && fd in items
      modifies this
      ensures Valid() && View() == old(View()) - {fd}
    {
      RemoveKeeps(slots, items, fd);
      ghost var slots', items' := WithoutSlot(slots, items[fd].index), WithoutItem(slots, items, fd);
      var index := items[fd].index;
      var last := |slots| - 1;
      if index != last {
        slots := slots[index := slots[last]][last := slots[index]];
        var moved := slots[index].fd;
        items := items[moved := items[moved].(index := index)];
      }
      slots := slots[..last];
      items := items - {fd};
      assert slots == slots' && items == items';
    }

    /**
     The scan stops when as many slots as poll() announced have been seen; it still reports
     every descriptor with a result exactly once, with the object registered for it.
     */
    method ReadEvents(outcome: Outcome) returns (result: seq<Event>, ghost fds: seq<int>)
      requires Valid()
      modifies this`slots
      ensures Valid() && View() == old(View())
      ensures outcome.Failed? ==> result == []
      ensures |fds| == |result| && forall j, k :: 0 <= j < k < |fds| ==> fds[j] != fds[k]
      ensures forall k :: 0 <= k < |fds| ==>
                outcome.Ready? && Reports(items, outcome.bits, fds[k], result[k])
      ensures outcome.Ready? ==> forall fd :: fd in items && Bits(outcome.bits, fd) != {} ==> fd in fds
    {
      result, fds := [], [];
      if outcome.Failed? {
        return;
      }
      FillKeeps(slots, items, outcome.bits);
      slots := Filled(slots, outcome.bits);
      result, fds := Scan(outcome.bits);
    }

    method Scan(bits: map<int, Mask>) returns (result: seq<Event>, ghost fds: seq<int>)
      requires Valid() && forall i :: 0 <= i < |slots| ==> slots[i].revents == Bits(bits, slots[i].fd)
      ensures |fds| == |result| && forall j, k :: 0 <= j < k < |fds| ==> fds[j] != fds[k]
      ensures forall k :: 0 <= k < |fds| ==> Reports(items, bits, fds[k], result[k])
      ensures forall fd :: fd in items && Bits(bits, fd) != {} ==> fd in fds
    {
      result, fds := [], [];
      var n := Reporting(slots);
      var i := 0;
      assert slots[0..] == slots;
      while n > 0 && i < |slots|
        invariant 0 <= i <= |slots| && n == Reporting(slots[i..]) && |fds| == |result|
        invariant forall k :: 0 <= k < |fds| ==>
                    Reports(items, bits, fds[k], result[k]) && items[fds[k]].index < i
        invariant forall j, k :: 0 <= j < k < |fds| ==> fds[j] != fds[k]
        invariant forall j :: 0 <= j < i && slots[j].revents != {} ==> slots[j].fd in fds
      {
        var e := slots[i];
        assert slots[i..][1..] == slots[i + 1..];
        if e.revents != {} {
          result := result + [Event(e.revents, items[e.fd].obj)];
          fds := fds + [e.fd];
          n := n - 1;
        }
        i := i + 1;
      }
      NothingLeft(slots, i);
      assert forall fd :: fd in items && Bits(bits, fd) != {} ==> slots[items[fd].index].fd in fds;
    }
  }

  lemma FillKeeps(slots: seq<PollFd>, items: map<int, Item>, bits: map<int, Mask>)
    requires PollCoherent(slots, items)
    ensures PollCoherent(Filled(slots, bits), items)
    ensures PollView(Filled(slots, bits), items) == PollView(slots, items)
  {
    assert forall k :: k in items ==> PollView(Filled(slots, bits), items)[k] == PollView(slots, items)[k];
  }

  lemma {:induction false} NothingLeft(slots: seq<PollFd>, i: nat)
    requires i <= |slots| && Reporting(slots[i..]) == 0
    ensures forall k :: i <= k < |slots| ==> slots[k].revents == {}
    decreases |slots| - i
  {
    if i < |slots| {
      assert slots[i..][1..] == slots[i + 1..];
      NothingLeft(slots, i + 1);
    }
  }

  // ---------------------------------------------------------------------------------------
  // select()

  const FD_SETSIZE: nat := 64
  const READ: nat := 0
  const WRITE: nat := 1

  /** One slot per event, -1 for none. */
  datatype SelectItem = SelectItem(read: int, write: int, obj: nat) {
    function Index(e: nat): int {
      if e == READ then read else write
    }

    function With(e: nat, index: int): SelectItem {
      if e == READ then this.(read := index) else this.(write := index)
    }
  }

  /** The socket set of one event and the map are inverse to each other. */
  ghost predicate SetCoherent(s: seq<int>, items: map<int, SelectItem>, e: nat) {
    && |s| <= FD_SETSIZE
    && (forall fd :: fd in items ==> -1 <= items[fd].Index(e) < |s| &&
                                     (items[fd].Index(e) >= 0 ==> s[items[fd].Index(e)] == fd))
    && (forall i :: 0 <= i < |s| ==> s[i] in items && items[s[i]].Index(e) == i)
  }

  function Registered(item: SelectItem): Mask {
    (if item.read >= 0 then {READ} else {}) + (if item.write >= 0 then {WRITE} else {})
  }

  ghost function SelectView(items: map<int, SelectItem>): map<int, Registration> {
    map fd | fd in items :: Registration(Registered(items[fd]), items[fd].obj)
  }

  /** There is room for the events that are not registered yet. */
  predicate CanModify(item: SelectItem, s: seq<int>, events: Mask, e: nat) {
    if item.Index(e) < 0 && e in events then |s| != FD_SETSIZE else true
  }

  /** The items differ at most in whether `fd` is registered for `e`, and it is as `on` says. */
  ghost predicate Differ(before: map<int, SelectItem>, after: map<int, SelectItem>, fd: int, e: nat, on: bool) {
    && before.Keys == after.Keys && fd in after && (after[fd].Index(e) >= 0) == on
    && (forall k :: k in after ==> after[k].obj == before[k].obj && SameElsewhere(before[k], after[k], k == fd, e))
  }

  predicate SameElsewhere(before: SelectItem, after: SelectItem, own: bool, e: nat) {
    && ((own && e == READ) || (before.read >= 0) == (after.read >= 0))
    && ((own && e == WRITE) || (before.write >= 0) == (after.write >= 0))
  }

  function Entered(s: seq<int>, items: map<int, SelectItem>, fd: int, e: nat): map<int, SelectItem>
    requires fd in items
  {
    items[fd := items[fd].With(e, |s|)]
  }

  /** Without the slot `index`, the last one moved into it. */
  function Shrunk(s: seq<int>, index: nat): seq<int>
    requires index < |s|
  {
    s[index := s[|s| - 1]][..|s| - 1]
  }

  function Left(s: seq<int>, items: map<int, SelectItem>, fd: int, e: nat): map<int, SelectItem>
    requires fd in items && 0 <= items[fd].Index(e) < |s| && s[|s| - 1] in items
  {
    var last := s[|s| - 1];
    items[last := items[last].With(e, items[fd].Index(e))][fd := items[fd].With(e, -1)]
  }

  lemma EnterKeeps(s: seq<int>, other: seq<int>, items: map<int, SelectItem>, fd: int, e: nat)
    requires e <= 1 && SetCoherent(s, items, e) && SetCoherent(other, items, 1 - e)
    requires fd in items && items[fd].Index(e) < 0 && |s| < FD_SETSIZE
    ensures SetCoherent(s + [fd], Entered(s, items, fd, e), e)
    ensures SetCoherent(other, Entered(s, items, fd, e), 1 - e)
    ensures Differ(items, Entered(s, items, fd, e), fd, e, true)
  {
    OthersKept(other, items, Entered(s, items, fd, e), 1 - e);
  }

  lemma LeaveDiffers(s: seq<int>, items: map<int, SelectItem>, fd: int, e: nat)
    requires e <= 1 && SetCoherent(s, items, e) && fd in items && items[fd].Index(e) >= 0
    ensures Differ(items, Left(s, items, fd, e), fd, e, false)
    ensures forall k :: k in items ==> Left(s, items, fd, e)[k].Index(1 - e) == items[k].Index(1 - e)
  {
  }

  /** The swap, step by step. */
  lemma LeaveSteps(s: seq<int>, items: map<int, SelectItem>, fd: int, e: nat)
    requires e <= 1 && SetCoherent(s, items, e) && fd in items && items[fd].Index(e) >= 0
    ensures var index, last := items[fd].Index(e), |s| - 1;
            if index == last then
              s[..last] == Shrunk(s, index) && items[fd := items[fd].With(e, -1)] == Left(s, items, fd, e)
            else
              var swapped := s[index := s[last]][last := s[index]];
              var moved := swapped[index];
              var items' := items[moved := items[moved].With(e, index)];
              && moved in items && moved != fd && swapped[..last] == Shrunk(s, index)
              && items'[fd := items'[fd].With(e, -1)] == Left(s, items, fd, e)
  {
  }

  lemma LeaveCoherent(s: seq<int>, items: map<int, SelectItem>, fd: int, e: nat)
    requires e <= 1 && SetCoherent(s, items, e) && fd in items && items[fd].Index(e) >= 0
    ensures SetCoherent(Shrunk(s, items[fd].Index(e)), Left(s, items, fd, e), e)
  {
    var index, last := items[fd].Index(e), s[|s| - 1];
    var s', items' := Shrunk(s, index), Left(s, items, fd, e);
    forall k | k in items'
      ensures -1 <= items'[k].Index(e) < |s'| && (items'[k].Index(e) >= 0 ==> s'[items'[k].Index(e)] == k)
    {
      assert k in items;
      if k != fd && k != last {
        assert items'[k] == items[k];
      }
    }
    forall i | 0 <= i < |s'|
      ensures s'[i] in items' && items'[s'[i]].Index(e) == i
    {
      if i != index {
        assert s'[i] == s[i] && items[s[i]].Index(e) == i;
      }
    }
  }

  lemma LeaveKeeps(s: seq<int>, other: seq<int>, items: map<int, SelectItem>, fd: int, e: nat)
    requires e <= 1 && SetCoherent(s, items, e) && SetCoherent(other, items, 1 - e)
    requires fd in items && items[fd].Index(e) >= 0
    ensures SetCoherent(Shrunk(s, items[fd].Index(e)), Left(s, items, fd, e), e)
    ensures SetCoherent(other, Left(s, items, fd, e), 1 - e)
    ensures Differ(items, Left(s, items, fd, e), fd, e, false)
  {
    LeaveDiffers(s, items, fd, e);
    LeaveCoherent(s, items, fd, e);
    assert Left(s, items, fd, e).Keys == items.Keys;
    assert s[|s| - 1] in items && items[fd].Index(e) < |s|;
    hide SetCoherent, Differ, Left;
    OthersKept(other, items, Left(s, items, fd, e), 1 - e);
  }

  /** A set is unaffected by changes in the indices of the other one. */
  lemma OthersKept(s: seq<int>, before: map<int, SelectItem>, after: map<int, SelectItem>, e: nat)
    requires SetCoherent(s, before, e) && before.Keys == after.Keys
    requires forall k :: k in after ==> after[k].Index(e) == before[k].Index(e)
    ensures SetCoherent(s, after, e)
  {
    assert forall k :: k in after ==> k in before.Keys;
    assert forall k :: k in before ==> k in after.Keys;
  }

  /** One change per event together set the registration of one descriptor. */
  lemma BothEvents(before: map<int, SelectItem>, mid: map<int, SelectItem>, after: map<int, SelectItem>,
                   fd: int, events: Mask)
    requires Differ(before, mid, fd, READ, READ in events) && Differ(mid, after, fd, WRITE, WRITE in events)
    ensures after.Keys == before.Keys && fd in before
    ensures SelectView(after) == SelectView(before)[fd := Registration(events * {READ, WRITE}, before[fd].obj)]
  {
    assert forall k :: k in after ==> k in mid.Keys && k in before.Keys;
    assert Registered(after[fd]) == events * {READ, WRITE};
    assert forall k :: k in after && k != fd ==> Registered(after[k]) == Registered(before[k]);
    var view := SelectView(before)[fd := Registration(events * {READ, WRITE}, before[fd].obj)];
    assert SelectView(after).Keys == after.Keys && view.Keys == before.Keys;
    assert forall k :: k in after ==> SelectView(after)[k] == view[k];
  }

  /** Erasing a descriptor leaves the registrations of all others. */
  lemma ViewWithout(before: map<int, SelectItem>, after: map<int, SelectItem>, fd: int, r: Registration)
    requires fd in before && after.Keys == before.Keys
    requires SelectView(after) == SelectView(before)[fd := r]
    ensures SelectView(after - {fd}) == SelectView(before) - {fd}
  {
    var left := SelectView(after - {fd});
    assert left.Keys == after.Keys - {fd} == (SelectView(before) - {fd}).Keys;
    forall k | k in left
      ensures left[k] == (SelectView(before) - {fd})[k]
    {
      assert left[k] == SelectView(after)[k];
    }
  }

  lemma SameWrite(before: map<int, SelectItem>, after: map<int, SelectItem>, fd: int, on: bool)
    requires fd in before && Differ(before, after, fd, READ, on)
    ensures (before[fd].write >= 0) == (after[fd].write >= 0) && (after[fd].read >= 0) == on
  {
  }

  lemma NoEvents(mid: map<int, SelectItem>, after: map<int, SelectItem>, fd: int, events: Mask)
    requires fd in mid && (mid[fd].read >= 0) == (READ in events) && Differ(mid, after, fd, WRITE, WRITE in events)
    ensures fd in after && (events == {} ==> after[fd].read < 0 && after[fd].write < 0)
  {
  }

  /** A descriptor without events is in no set. */
  lemma NewItem(items: map<int, SelectItem>, r: seq<int>, w: seq<int>, fd: int, item: SelectItem,
                g: Registration)
    requires SetCoherent(r, items, READ) && SetCoherent(w, items, WRITE) && fd !in items
    requires item.read == -1 && item.write == -1
    ensures SetCoherent(r, items[fd := item], READ) && SetCoherent(w, items[fd := item], WRITE)
    ensures SelectView(items[fd := item])[fd := g] == SelectView(items)[fd := g]
  {
    SameView(items, items[fd := item], fd, g);
  }

  lemma SameView(before: map<int, SelectItem>, after: map<int, SelectItem>, fd: int, g: Registration)
    requires after.Keys == before.Keys + {fd} && forall k :: k in before && k != fd ==> after[k] == before[k]
    ensures SelectView(after)[fd := g] == SelectView(before)[fd := g]
  {
    var a, b := SelectView(after)[fd := g], SelectView(before)[fd := g];
    assert a.Keys == b.Keys;
    forall k | k in a
      ensures a[k] == b[k]
    {
      if k != fd {
        assert k in before.Keys;
      }
    }
  }

  lemma NewObject(items: map<int, SelectItem>, r: seq<int>, w: seq<int>, fd: int, obj: nat,
                  g: Registration)
    requires SetCoherent(r, items, READ) && SetCoherent(w, items, WRITE) && fd in items
    ensures var items' := items[fd := items[fd].(obj := obj)];
            && SetCoherent(r, items', READ) && SetCoherent(w, items', WRITE)
            && SelectView(items')[fd := g] == SelectView(items)[fd := g]
  {
    var items' := items[fd := items[fd].(obj := obj)];
    OthersKept(r, items, items', READ);
    OthersKept(w, items, items', WRITE);
    SameView(items, items', fd, g);
  }

  lemma GoneItem(items: map<int, SelectItem>, r: seq<int>, w: seq<int>, fd: int)
    requires SetCoherent(r, items, READ) && SetCoherent(w, items, WRITE)
    requires fd in items && items[fd].read < 0 && items[fd].write < 0
    ensures SetCoherent(r, items - {fd}, READ) && SetCoherent(w, items - {fd}, WRITE)
  {
  }

  class PollGroupWinSelect {
    var readSet: seq<int>
    var writeSet: seq<int>
    var items: map<int, SelectItem>

    ghost predicate Valid()
      reads this
    {
      SetCoherent(readSet, items, READ) && SetCoherent(writeSet, items, WRITE)
    }

    ghost function View(): map<int, Registration>
      reads this
    {
      SelectView(items)
    }

    constructor ()
      ensures Valid() && View() == map[]
    {
      readSet, writeSet, items := [], [], map[];
    }

    function SetOf(e: nat): seq<int>
      reads this
    {
      if e == READ then readSet else writeSet
    }

    method Store(e: nat, s: seq<int>)
      modifies this`readSet, this`writeSet
      ensures readSet == (if e == READ then s else old(readSet))
      ensures writeSet == (if e == READ then old(writeSet) else s)
    {
      if e == READ { readSet := s; } else { writeSet := s; }
    }

    method EnterEvent(fd: int, e: nat)
      requires Valid() && fd in items && e <= 1 && items[fd].Index(e) < 0 && |SetOf(e)| != FD_SETSIZE
      modifies this
      ensures Valid() && Differ(old(items), items, fd, e, true) && (e == READ ==> writeSet == old(writeSet))
    {
      var s := SetOf(e);
      EnterKeeps(s, SetOf(1 - e), items, fd, e);
      hide Differ;
      items := items[fd := items[fd].With(e, |s|)];
      Store(e, s + [fd]);
    }

    method LeaveEvent(fd: int, e: nat)
      requires Valid() && fd in items && e <= 1 && items[fd].Index(e) >= 0
      modifies this
      ensures Valid() && Differ(old(items), items, fd, e, false) && (e == READ ==> writeSet == old(writeSet))
    {
      var index := items[fd].Index(e);
      var s := SetOf(e);
      LeaveKeeps(s, SetOf(1 - e), items, fd, e);
      LeaveSteps(s, items, fd, e);
      ghost var after, shrunk := Left(s, items, fd, e), Shrunk(s, index);
      assert 0 <= index < |s| && s[|s| - 1] in items;
      hide Differ, SetCoherent, Left, Shrunk;
      if index != |s| - 1 {
        s := s[index := s[|s| - 1]][|s| - 1 := s[index]];
        var moved := s[index];
        items := items[moved := items[moved].With(e, index)];
      }
      s := s[..|s| - 1];
      items := items[fd := items[fd].With(e, -1)];
      assert s == shrunk && items == after;
      Store(e, s);
    }

    /** Brings one event of one descriptor into the wanted state. */
    method ModifyEvent(fd: int, events: Mask, e: nat)
      requires Valid() && fd in items && e <= 1 && CanModify(items[fd], SetOf(e), events, e)
      modifies this
      ensures Valid() && Differ(old(items), items, fd, e, e in events)
      ensures e == READ ==> writeSet == old(writeSet)
    {
      if items[fd].Index(e) < 0 && e in events {
        EnterEvent(fd, e);
      } else if items[fd].Index(e) >= 0 && e !in events {
        LeaveEvent(fd, e);
      }
    }

    /** Brings a descriptor into the wanted state. */
    method SetEvents(fd: int, events: Mask)
      requires Valid() && fd in items
      requires CanModify(items[fd], readSet, events, READ) && CanModify(items[fd], writeSet, events, WRITE)
      modifies this
      ensures Valid() && items.Keys == old(items).Keys
      ensures View() == old(View())[fd := Registration(events * {READ, WRITE}, old(items)[fd].obj)]
      ensures events == {} ==> items[fd].read < 0 && items[fd].write < 0
    {
      ModifyEvent(fd, events, READ);
      ghost var mid := items;
      SameWrite(old(items), mid, fd, READ in events);
      hide SetCoherent;
      ModifyEvent(fd, events, WRITE);
      BothEvents(old(items), mid, items, fd, events);
      NoEvents(mid, items, fd, events);
    }

    /** Refused exactly when a set that would have to grow is full; then nothing changes. */
    method Add(fd: int, events: Mask, obj: nat) returns (ok: bool)
      requires Valid() && fd !in items
      modifies this
      ensures Valid()
      ensures ok == !((READ in events && |old(readSet)| == FD_SETSIZE) ||
                      (WRITE in events && |old(writeSet)| == FD_SETSIZE))
      ensures ok ==> View() == old(View())[fd := Registration(events * {READ, WRITE}, obj)]
      ensures !ok ==> items == old(items) && readSet == old(readSet) && writeSet == old(writeSet)
    {
      var item := SelectItem(-1, -1, obj);
      items := items[fd := item];
      if !CanModify(item, readSet, events, READ) || !CanModify(item, writeSet, events, WRITE) {
        items := items - {fd};
        assert items == old(items);
        return false;
      }
      NewItem(old(items), readSet, writeSet, fd, item, Registration(events * {READ, WRITE}, obj));
      hide SetCoherent, SelectView;
      SetEvents(fd, events);
      ok := true;
    }

    method Modify(fd: int, events: Mask, obj: nat) returns (ok: bool)
      requires Valid() && fd in items
      modifies this
      ensures Valid()
      ensures ok == !((READ in events && old(items)[fd].read < 0 && |old(readSet)| == FD_SETSIZE) ||
                      (WRITE in events && old(items)[fd].write < 0 && |old(writeSet)| == FD_SETSIZE))
      ensures ok ==> View() == old(View())[fd := Registration(events * {READ, WRITE}, obj)]
      ensures !ok ==> items == old(items) && readSet == old(readSet) && writeSet == old(writeSet)
    {
      if !CanModify(items[fd], readSet, events, READ) || !CanModify(items[fd], writeSet, events, WRITE) {
        return false;
      }
      items := items[fd := items[fd].(obj := obj)];
      NewObject(old(items), readSet, writeSet, fd, obj, Registration(events * {READ, WRITE}, obj));
      hide SetCoherent, SelectView;
      SetEvents(fd, events);
      ok := true;
    }

    method Remove(fd: int)
      requires Valid() && fd in items
      modifies this
      ensures Valid() && View() == old(View()) - {fd}
    {
      SetEvents(fd, {});
      ViewWithout(old(items), items, fd, Registration({} * {READ, WRITE}, old(items)[fd].obj));
      GoneItem(items, readSet, writeSet, fd);
      hide SetCoherent, SelectView;
      items := items - {fd};
    }
  }
}
