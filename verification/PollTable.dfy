/** PollPoller.cpp as a table machine: the pollfd vector, the descriptor-to-channel map and
    the index each channel keeps, against the plain map of interests they stand for. */
module PollTables {
  import opened Common
  import opened Channels

  datatype PollFd = PollFd(fd: int, events: Interest, revents: Revents)

  /**
   * `slots` is pollfds_. `index` and `wanted` hold, for every descriptor in channels_, the
   * index_ and events_ of the channel it maps to.
   */
  datatype Table = Table(slots: seq<PollFd>, index: map<int, int>, wanted: map<int, Interest>)

  const EMPTY := Table([], map[], map[])

  /** Requests of the poller. Register is updateChannel on a channel whose index is negative,
      Modify on one that has an index, Erase is removeChannel. */
  datatype Op = Register(fd: int, events: Interest) | Modify(fd: int, events: Interest) | Erase(fd: int)

  function EraseAt<T>(s: seq<T>, k: nat): seq<T>
    requires k < |s|
  {
    s[..k] + s[k + 1..]
  }

  /** None when an assert of the source fails or a vector is accessed out of range. */
  function Step(t: Table, op: Op): Option<Table> {
    match op
    case Register(fd, events) =>
      if fd in t.index then None
      else Some(Table(t.slots + [PollFd(fd, events, NO_EVENTS)], t.index[fd := |t.slots|], t.wanted[fd := events]))
    case Modify(fd, events) =>
      if fd !in t.index || !(0 <= t.index[fd] < |t.slots|) then None
      else
        var idx := t.index[fd];
        if t.slots[idx].fd != fd && t.slots[idx].fd != -1 then None
        else
          var slotFd := if events == NO_INTEREST then -1 else t.slots[idx].fd;
          Some(t.(slots := t.slots[idx := PollFd(slotFd, events, NO_EVENTS)], wanted := t.wanted[fd := events]))
    case Erase(fd) =>
      if fd !in t.index || !(0 <= t.index[fd] < |t.slots|) then None
      else Some(Table(EraseAt(t.slots, t.index[fd]), t.index - {fd}, t.wanted - {fd}))
  }

  function Run(t: Table, ops: seq<Op>): Option<Table>
  {
    if ops == [] then Some(t)
    else match Run(t, ops[..|ops| - 1])
      case None => None
      case Some(t1) => Step(t1, ops[|ops| - 1])
  }

  /** The vector, the map and the stored indices agree. */
  ghost predicate Inv(t: Table) {
    Sized(t) && Placed(t) && Injective(t) && Owned(t)
  }

  ghost predicate Sized(t: Table) {
    t.index.Keys == t.wanted.Keys && |t.index| == |t.slots|
  }

  ghost predicate Placed(t: Table) {
    forall fd | fd in t.index :: HasPlace(t, fd)
  }

  /** The channel's index is that of a slot of its own, ignored or not. */
  ghost predicate HasPlace(t: Table, fd: int)
    requires fd in t.index
  {
    fd >= 0 && 0 <= t.index[fd] < |t.slots| && fd in t.wanted && SlotOf(t, fd, t.index[fd])
  }

  ghost predicate SlotOf(t: Table, fd: int, i: int)
    requires fd in t.wanted && 0 <= i < |t.slots|
  {
    (t.slots[i].fd == fd || t.slots[i].fd == -1) && t.slots[i].events == t.wanted[fd]
  }

  ghost predicate Injective(t: Table) {
    forall fd, fd' | fd in t.index && fd' in t.index && fd != fd' :: t.index[fd] != t.index[fd']
  }

  ghost predicate Owned(t: Table) {
    forall i | 0 <= i < |t.slots| :: HasOwner(t, i)
  }

  ghost predicate HasOwner(t: Table, i: int) {
    exists fd :: fd in t.index && t.index[fd] == i
  }

  lemma OwnerOf(t: Table, i: int) returns (fd: int)
    requires Owned(t) && 0 <= i < |t.slots|
    ensures fd in t.index && t.index[fd] == i
  {
    assert HasOwner(t, i);
    fd :| fd in t.index && t.index[fd] == i;
  }

  /** What the caller owes the poller: a fresh, real descriptor to register, a registered one
      otherwise. Removals are of the channel in the last slot. */
  predicate Admissible(t: Table, op: Op) {
    match op
    case Register(fd, _) => fd >= 0 && fd !in t.index
    case Modify(fd, _) => fd in t.index
    case Erase(fd) => fd in t.index && t.index[fd] == |t.slots| - 1
  }

  predicate RunAdmissible(t: Table, ops: seq<Op>)
  {
    ops == [] || (
      && RunAdmissible(t, ops[..|ops| - 1])
      && Run(t, ops[..|ops| - 1]).Some?
      && Admissible(Run(t, ops[..|ops| - 1]).value, ops[|ops| - 1])
    )
  }

  lemma RegisterKeeps(t: Table, fd: int, events: Interest)
    requires Inv(t) && Admissible(t, Register(fd, events))
    ensures Step(t, Register(fd, events)).Some? && Inv(Step(t, Register(fd, events)).value)
  {
    var t1 := Step(t, Register(fd, events)).value;
    assert Sized(t1) by { assert t1.index.Keys == t.index.Keys + {fd}; }
    assert Placed(t1) by {
      forall f | f in t1.index
        ensures HasPlace(t1, f)
      {
        assert f != fd ==> HasPlace(t, f);
      }
    }
    assert Owned(t1) by {
      forall i | 0 <= i < |t1.slots|
        ensures HasOwner(t1, i)
      {
        var f := fd;
        if i < |t.slots| { f := OwnerOf(t, i); }
        assert t1.index[f] == i;
      }
    }
    assert Injective(t1) by {
      assert forall f | f in t.index :: HasPlace(t, f);
    }
  }

  lemma ModifyKeeps(t: Table, fd: int, events: Interest)
    requires Inv(t) && Admissible(t, Modify(fd, events))
    ensures Step(t, Modify(fd, events)).Some? && Inv(Step(t, Modify(fd, events)).value)
  {
    assert HasPlace(t, fd);
    var t1 := Step(t, Modify(fd, events)).value;
    assert t1.wanted.Keys == t.wanted.Keys;
    assert Placed(t1) by {
      forall f | f in t1.index
        ensures HasPlace(t1, f)
      {
        assert HasPlace(t, f);
      }
    }
    assert Owned(t1) by {
      forall i | 0 <= i < |t1.slots|
        ensures HasOwner(t1, i)
      {
        var f := OwnerOf(t, i);
        assert t1.index[f] == i;
      }
    }
  }

  /** An update rewrites the channel's own slot, which reports nothing until the next poll, and
      touches no other. */
  lemma ModifyRewrites(t: Table, fd: int, events: Interest)
    requires Inv(t) && fd in t.index
    ensures var t1, i := Step(t, Modify(fd, events)), t.index[fd];
            && t1.Some? && 0 <= i < |t.slots| == |t1.value.slots|
            && t1.value.slots[i].events == events && t1.value.slots[i].revents == NO_EVENTS
            && t1.value.slots[i].fd == (if events == NO_INTEREST || t.slots[i].fd == -1 then -1 else fd)
            && t1.value.index == t.index && t1.value.wanted == t.wanted[fd := events]
            && forall j | 0 <= j < |t.slots| && j != i :: t1.value.slots[j] == t.slots[j]
  {
    assert HasPlace(t, fd);
  }

  /** Where channel `f` belongs once slot k is gone; its stored index says otherwise above k. */
  function RightIndex(t: Table, k: int, f: int): int
    requires f in t.index
  {
    if t.index[f] > k then t.index[f] - 1 else t.index[f]
  }

  /** Channel `f` kept its index and its slot, which sits where it belongs. */
  ghost predicate Shifted(t: Table, t1: Table, k: int, f: int)
    requires f in t.index && f in t1.index
  {
    var right := RightIndex(t, k, f);
    && t1.index[f] == t.index[f] < |t.slots|
    && f in t1.wanted
    && 0 <= right < |t1.slots| && SlotOf(t1, f, right) && t1.slots[right] == t.slots[t.index[f]]
  }

  /** What removeChannel leaves, when its index is in range. */
  function Erased(t: Table, fd: int): Table
    requires fd in t.index && 0 <= t.index[fd] < |t.slots|
  {
    Table(EraseAt(t.slots, t.index[fd]), t.index - {fd}, t.wanted - {fd})
  }

  lemma ErasedSized(t: Table, fd: int)
    requires Sized(t) && fd in t.index && 0 <= t.index[fd] < |t.slots|
    ensures Sized(Erased(t, fd)) && Erased(t, fd).index.Keys == t.index.Keys - {fd}
    ensures |Erased(t, fd).slots| == |t.slots| - 1
  {
    var t1 := Erased(t, fd);
    assert t1.index.Keys == t.index.Keys - {fd} && t1.wanted.Keys == t.wanted.Keys - {fd};
    assert |t.index.Keys - {fd}| == |t.index.Keys| - 1;
  }

  lemma ErasedShifts(t: Table, fd: int, f: int)
    requires Placed(t) && Injective(t) && fd in t.index && f in t.index && f != fd
    requires 0 <= t.index[fd] < |t.slots|
    ensures f in Erased(t, fd).index && Shifted(t, Erased(t, fd), t.index[fd], f)
  {
    assert HasPlace(t, f);
    assert t.index[f] != t.index[fd];
  }

  /** Removing a channel never fails on a consistent table; it leaves exactly the channels
      that sat above the removed slot with an index one too large. */
  lemma EraseShifts(t: Table, fd: int)
    requires Inv(t) && fd in t.index
    ensures 0 <= t.index[fd] < |t.slots| && Step(t, Erase(fd)) == Some(Erased(t, fd))
    ensures var t1 := Erased(t, fd);
            && |t1.slots| == |t.slots| - 1 && |t1.index| == |t1.slots|
            && t1.index.Keys == t1.wanted.Keys == t.index.Keys - {fd}
            && forall f | f in t1.index :: Shifted(t, t1, t.index[fd], f)
  {
    assert HasPlace(t, fd);
    var t1 := Erased(t, fd);
    ErasedSized(t, fd);
    forall f | f in t1.index
      ensures Shifted(t, t1, t.index[fd], f)
    {
      ErasedShifts(t, fd, f);
    }
  }

  lemma ErasedLastKeeps(t: Table, fd: int)
    requires Inv(t) && fd in t.index && t.index[fd] == |t.slots| - 1
    ensures Inv(Erased(t, fd))
  {
    var t1 := Erased(t, fd);
    ErasedSized(t, fd);
    assert Placed(t1) by {
      forall f | f in t1.index
        ensures HasPlace(t1, f)
      {
        assert HasPlace(t, f);
        ErasedShifts(t, fd, f);
      }
    }
    assert Owned(t1) by {
      forall i | 0 <= i < |t1.slots|
        ensures HasOwner(t1, i)
      {
        var f := OwnerOf(t, i);
        assert f in t1.index && t1.index[f] == i;
      }
    }
  }

  /** The removal as written keeps the table consistent if and only if the slot is the last. */
  lemma EraseKeepsIff(t: Table, fd: int)
    requires Inv(t) && fd in t.index
    ensures Step(t, Erase(fd)).Some?
    ensures Inv(Step(t, Erase(fd)).value) <==> t.index[fd] == |t.slots| - 1
  {
    assert HasPlace(t, fd);
    if t.index[fd] == |t.slots| - 1 {
      ErasedLastKeeps(t, fd);
    } else {
      var t1 := Erased(t, fd);
      var top := OwnerOf(t, |t.slots| - 1);
      assert top in t1.index && t1.index[top] == |t1.slots|;
      assert !HasPlace(t1, top);
    }
  }

  /** It happens: two channels are registered and the first is removed. */
  lemma FirstOfTwoErased(events: Interest)
    ensures var t := Run(EMPTY, [Register(3, events), Register(4, events)]);
            && t.Some? && Inv(t.value)
            && Step(t.value, Erase(3)).Some? && !Inv(Step(t.value, Erase(3)).value)
  {
    TwoRegistered(3, 4, events);
    EraseKeepsIff(Run(EMPTY, [Register(3, events), Register(4, events)]).value, 3);
  }

  lemma TwoRegistered(a: int, b: int, events: Interest)
    requires a >= 0 && b >= 0 && a != b
    ensures var t := Run(EMPTY, [Register(a, events), Register(b, events)]);
            && t == Some(Table([PollFd(a, events, NO_EVENTS), PollFd(b, events, NO_EVENTS)],
                               map[a := 0, b := 1], map[a := events, b := events]))
            && Inv(t.value)
  {
    var t1 := Step(EMPTY, Register(a, events)).value;
    RunHead(EMPTY, Register(a, events));
    RunSnoc(EMPTY, [Register(a, events)], Register(b, events));
    assert [Register(a, events)] + [Register(b, events)] == [Register(a, events), Register(b, events)];
    assert t1.index[b := 1] == map[a := 0, b := 1] && t1.wanted[b := events] == map[a := events, b := events];
    assert t1.slots + [PollFd(b, events, NO_EVENTS)] == [PollFd(a, events, NO_EVENTS), PollFd(b, events, NO_EVENTS)];
    RegisterKeeps(EMPTY, a, events);
    RegisterKeeps(t1, b, events);
  }

  lemma RunHead(t: Table, op: Op)
    ensures Run(t, [op]) == Step(t, op)
    ensures RunAdmissible(t, [op]) <==> Admissible(t, op)
  {
    assert [op][..0] == [];
    assert Run(t, []) == Some(t) && RunAdmissible(t, []);
  }

  lemma RunSnoc(t: Table, ops: seq<Op>, op: Op)
    ensures Run(t, ops + [op]) == match Run(t, ops) case None => None case Some(t1) => Step(t1, op)
    ensures RunAdmissible(t, ops + [op]) <==> RunAdmissible(t, ops) && Run(t, ops).Some? && Admissible(Run(t, ops).value, op)
  {
    assert (ops + [op])[..|ops|] == ops;
  }

  /** The missing step: every channel above slot k moves down by one. */
  function Reindex(t: Table, k: int): Table {
    t.(index := map fd | fd in t.index :: if t.index[fd] > k then t.index[fd] - 1 else t.index[fd])
  }

  lemma ReindexedPlaced(t: Table, fd: int)
    requires Inv(t) && fd in t.index && 0 <= t.index[fd] < |t.slots|
    ensures Placed(Reindex(Erased(t, fd), t.index[fd]))
  {
    var t2 := Reindex(Erased(t, fd), t.index[fd]);
    forall f | f in t2.index
      ensures HasPlace(t2, f)
    {
      assert HasPlace(t, f);
      ErasedShifts(t, fd, f);
    }
  }

  lemma ReindexedInjective(t: Table, fd: int)
    requires Injective(t) && fd in t.index && 0 <= t.index[fd] < |t.slots|
    ensures Injective(Reindex(Erased(t, fd), t.index[fd]))
  {
    var k := t.index[fd];
    var t2 := Reindex(Erased(t, fd), k);
    forall f, g | f in t2.index && g in t2.index && f != g
      ensures t2.index[f] != t2.index[g]
    {
      assert t.index[f] != t.index[g] && t.index[f] != k && t.index[g] != k;
    }
  }

  lemma ReindexedOwned(t: Table, fd: int)
    requires Owned(t) && fd in t.index && 0 <= t.index[fd] < |t.slots|
    ensures Owned(Reindex(Erased(t, fd), t.index[fd]))
  {
    var k := t.index[fd];
    var t2 := Reindex(Erased(t, fd), k);
    forall i | 0 <= i < |t2.slots|
      ensures HasOwner(t2, i)
    {
      var f := OwnerOf(t, if i >= k then i + 1 else i);
      assert f in t2.index && t2.index[f] == i;
    }
  }

  lemma ReindexedSized(t: Table, k: int)
    requires Sized(t)
    ensures Sized(Reindex(t, k))
  {
    assert Reindex(t, k).index.Keys == t.index.Keys;
    assert |Reindex(t, k).index| == |Reindex(t, k).index.Keys| == |t.index.Keys| == |t.index|;
  }

  /** Re-indexing after any removal restores the invariant. */
  lemma EraseThenReindexKeeps(t: Table, fd: int)
    requires Inv(t) && fd in t.index
    ensures Step(t, Erase(fd)).Some? && Inv(Reindex(Step(t, Erase(fd)).value, t.index[fd]))
  {
    assert HasPlace(t, fd);
    ErasedSized(t, fd);
    ReindexedSized(Erased(t, fd), t.index[fd]);
    ReindexedPlaced(t, fd);
    ReindexedInjective(t, fd);
    ReindexedOwned(t, fd);
  }

  /** What a broken index points at: past the end, or at the slot of the next channel up. */
  lemma StaleSlot(t: Table, fd: int, f: int) returns (g: int)
    requires Inv(t) && fd in t.index && f in t.index && t.index[f] > t.index[fd]
    ensures 0 <= t.index[fd] < |t.slots|
    ensures var t1 := Erased(t, fd);
            && f in t1.index && t1.index[f] == t.index[f]
            && |t1.slots| == |t.slots| - 1
            && (t.index[f] < |t1.slots| ==>
                  && g in t.index && t.index[g] == t.index[f] + 1
                  && t1.slots[t.index[f]] == t.slots[t.index[g]]
                  && (t.slots[t.index[g]].fd == g || t.slots[t.index[g]].fd == -1)
                  && f >= 0)
  {
    assert HasPlace(t, fd) && HasPlace(t, f);
    g := f;
    if t.index[f] < |t.slots| - 1 {
      g := OwnerOf(t, t.index[f] + 1);
      assert HasPlace(t, g);
      ErasedShifts(t, fd, g);
    }
  }

  /** So the channel above the hole aborts at its next update, unless it happens to hit an
      ignored slot, whose interest it then overwrites. */
  lemma UpdateAfterMiddleErase(t: Table, fd: int, f: int, events: Interest)
    requires Inv(t) && fd in t.index && f in t.index && t.index[f] > t.index[fd]
    ensures Step(t, Erase(fd)).Some?
    ensures var t1 := Step(t, Erase(fd)).value;
            && f in t1.index
            && (Step(t1, Modify(f, events)).Some? <==> t1.index[f] < |t1.slots| && t1.slots[t1.index[f]].fd == -1)
  {
    var g := StaleSlot(t, fd, f);
  }

  /** And its own removal passes unless it sat last, but it erases the slot of the next channel
      up, and leaves its own behind. */
  lemma EraseAfterMiddleErase(t: Table, fd: int, f: int)
    requires Inv(t) && fd in t.index && f in t.index && t.index[f] > t.index[fd]
    ensures Step(t, Erase(fd)).Some?
    ensures var t1 := Step(t, Erase(fd)).value;
            && (Step(t1, Erase(f)).Some? <==> t.index[f] != |t.slots| - 1)
            && (t.index[f] != |t.slots| - 1 ==>
                  exists g | g in t.index && t.index[g] == t.index[f] + 1 ::
                    Step(t1, Erase(f)).value.slots ==
                    t.slots[..t.index[fd]] + t.slots[t.index[fd] + 1..t.index[g]] + t.slots[t.index[g] + 1..])
  {
    var g := StaleSlot(t, fd, f);
    if t.index[f] != |t.slots| - 1 {
      ErasedTwice(t.slots, t.index[fd], t.index[f]);
    }
  }

  /** Two channels that keep their discipline, the one below the other, which sits last: once the
      lower one has been switched off and removed, switching off the upper one fails an assert. */
  lemma CloseAboveFails(ops: seq<Op>, a: int, b: int)
    requires RunAdmissible(EMPTY, ops) && Run(EMPTY, ops).Some?
    requires var t := Run(EMPTY, ops).value;
             a in t.index && b in t.index && t.index[a] < t.index[b] == |t.slots| - 1
    ensures Run(EMPTY, ops + [Modify(a, NO_INTEREST)] + [Erase(a)]).Some?
    ensures Run(EMPTY, ops + [Modify(a, NO_INTEREST)] + [Erase(a)] + [Modify(b, NO_INTEREST)]) == None
  {
    RunKeeps(ops);
    var t := Run(EMPTY, ops).value;
    ModifyKeeps(t, a, NO_INTEREST);
    var t1 := Step(t, Modify(a, NO_INTEREST)).value;
    UpdateAfterMiddleErase(t1, a, b, NO_INTEREST);
    ErasedSized(t1, a);
    RunSnoc(EMPTY, ops, Modify(a, NO_INTEREST));
    RunSnoc(EMPTY, ops + [Modify(a, NO_INTEREST)], Erase(a));
    RunSnoc(EMPTY, ops + [Modify(a, NO_INTEREST)] + [Erase(a)], Modify(b, NO_INTEREST));
  }

  lemma ErasedTwice<T>(s: seq<T>, k: nat, i: nat)
    requires k < i < |s| - 1
    ensures EraseAt(EraseAt(s, k), i) == s[..k] + s[k + 1..i + 1] + s[i + 2..]
  {
  }

  /** Over every run of updates and last-slot removals the table stays consistent and no
      assert of the poller fails. */
  lemma {:induction false} RunKeeps(ops: seq<Op>)
    requires RunAdmissible(EMPTY, ops)
    ensures Run(EMPTY, ops).Some? && Inv(Run(EMPTY, ops).value)
  {
    if ops != [] {
      RunKeeps(ops[..|ops| - 1]);
      StepKeeps(Run(EMPTY, ops[..|ops| - 1]).value, ops[|ops| - 1]);
    }
  }

  lemma StepKeeps(t: Table, op: Op)
    requires Inv(t) && Admissible(t, op)
    ensures Step(t, op).Some? && Inv(Step(t, op).value)
  {
    match op {
      case Register(fd, events) => RegisterKeeps(t, fd, events);
      case Modify(fd, events) => ModifyKeeps(t, fd, events);
      case Erase(fd) => EraseKeepsIff(t, fd);
    }
  }

  // ----- The interest map the table stands for -----

  /** What poll() is asked to watch: the slots it does not ignore. */
  ghost function Watched(t: Table): set<(int, Interest)> {
    set i | 0 <= i < |t.slots| && t.slots[i].fd != -1 && t.slots[i].events != NO_INTEREST ::
      (t.slots[i].fd, t.slots[i].events)
  }

  /** What the channels ask for. */
  ghost function Interests(t: Table): set<(int, Interest)> {
    set fd | fd in t.wanted && t.wanted[fd] != NO_INTEREST :: (fd, t.wanted[fd])
  }

  /** Whether the requests leave a channel's slot switched off: it was updated to no interest
      since it was registered. A registration without interest does not switch it off. */
  predicate Parked(ops: seq<Op>, fd: int) {
    if ops == [] then false
    else
      var before := ops[..|ops| - 1];
      var op := ops[|ops| - 1];
      if op.fd != fd then Parked(before, fd)
      else op.Modify? && (op.events == NO_INTEREST || Parked(before, fd))
  }

  /** A slot once switched off stays off until its channel is removed, whatever is asked. */
  lemma {:induction false} ParkedIffOff(ops: seq<Op>, fd: int)
    requires RunAdmissible(EMPTY, ops)
    requires Run(EMPTY, ops).Some? && fd in Run(EMPTY, ops).value.index
    requires Inv(Run(EMPTY, ops).value)
    ensures var t := Run(EMPTY, ops).value; t.slots[t.index[fd]].fd == -1 <==> Parked(ops, fd)
  {
    var before := ops[..|ops| - 1];
    var op := ops[|ops| - 1];
    RunKeeps(before);
    var t0 := Run(EMPTY, before).value;
    if op.fd != fd {
      OthersSlotStays(t0, op, fd);
      ParkedIffOff(before, fd);
    } else if op.Modify? {
      assert HasPlace(t0, fd);
      ParkedIffOff(before, fd);
    }
  }

  /** A request for another channel leaves this one's slot ignored, or not, as it was. */
  lemma OthersSlotStays(t: Table, op: Op, fd: int)
    requires Inv(t) && Admissible(t, op) && op.fd != fd
    requires Step(t, op).Some? && fd in Step(t, op).value.index
    ensures fd in t.index && Step(t, op).value.index[fd] == t.index[fd] < |t.slots|
    ensures t.index[fd] < |Step(t, op).value.slots|
    ensures Step(t, op).value.slots[t.index[fd]] == t.slots[t.index[fd]]
  {
    assert fd in t.index;
    assert HasPlace(t, fd);
    assert op.fd in t.index ==> t.index[op.fd] != t.index[fd];
  }

  /** The poller watches exactly what the channels ask for if and only if no channel whose
      slot was switched off has been given an interest again. */
  lemma RefinesIff(ops: seq<Op>)
    requires RunAdmissible(EMPTY, ops)
    ensures Run(EMPTY, ops).Some?
    ensures var t := Run(EMPTY, ops).value;
            Watched(t) == Interests(t) <==>
              forall fd | fd in t.wanted && Parked(ops, fd) :: t.wanted[fd] == NO_INTEREST
  {
    RunKeeps(ops);
    var t := Run(EMPTY, ops).value;
    forall fd | fd in t.wanted
      ensures (fd, t.wanted[fd]) in Watched(t) <==> !Parked(ops, fd) && t.wanted[fd] != NO_INTEREST
    {
      ParkedIffOff(ops, fd);
      assert HasPlace(t, fd);
      WatchedIff(t, fd);
    }
    WatchedAreWanted(t);
    if forall fd | fd in t.wanted && Parked(ops, fd) :: t.wanted[fd] == NO_INTEREST {
      assert Watched(t) == Interests(t);
    } else {
      var fd :| fd in t.wanted && Parked(ops, fd) && t.wanted[fd] != NO_INTEREST;
      assert (fd, t.wanted[fd]) in Interests(t);
    }
  }

  lemma WatchedAreWanted(t: Table)
    requires Inv(t)
    ensures forall w | w in Watched(t) :: w.0 in t.wanted && w.1 == t.wanted[w.0] && w.1 != NO_INTEREST
  {
    forall w | w in Watched(t)
      ensures w.0 in t.wanted && w.1 == t.wanted[w.0] && w.1 != NO_INTEREST
    {
      var i :| 0 <= i < |t.slots| && t.slots[i].fd != -1 && w == (t.slots[i].fd, t.slots[i].events) && t.slots[i].events != NO_INTEREST;
      var fd := OwnerOf(t, i);
      assert HasPlace(t, fd);
    }
  }

  /** It happens: a channel is registered, switched off and switched on again. */
  lemma SwitchedOnUnwatched(fd: int, events: Interest)
    requires fd >= 0 && events != NO_INTEREST
    ensures var ops := [Register(fd, events), Modify(fd, NO_INTEREST), Modify(fd, events)];
            && RunAdmissible(EMPTY, ops) && Run(EMPTY, ops).Some?
            && (fd, events) in Interests(Run(EMPTY, ops).value) && Watched(Run(EMPTY, ops).value) == {}
  {
    var register, off, on := Register(fd, events), Modify(fd, NO_INTEREST), Modify(fd, events);
    RunHead(EMPTY, register);
    RunSnoc(EMPTY, [register], off);
    assert [register] + [off] == [register, off];
    RunSnoc(EMPTY, [register, off], on);
    assert [register, off] + [on] == [register, off, on];
    var t := Run(EMPTY, [register, off, on]).value;
    assert t.slots == [PollFd(-1, events, NO_EVENTS)] && t.wanted == map[fd := events];
    assert fd in t.wanted && t.wanted[fd] != NO_INTEREST && (fd, t.wanted[fd]) == (fd, events);
  }

  lemma WatchedIff(t: Table, fd: int)
    requires Inv(t) && fd in t.index
    ensures (fd, t.wanted[fd]) in Watched(t) <==> t.slots[t.index[fd]].fd == fd && t.wanted[fd] != NO_INTEREST
  {
    assert HasPlace(t, fd);
    if (fd, t.wanted[fd]) in Watched(t) {
      var i :| 0 <= i < |t.slots| && t.slots[i].fd == fd && t.slots[i].events == t.wanted[fd];
      var g := OwnerOf(t, i);
      assert HasPlace(t, g);
    }
  }
}
