/** Why the poller watches what the connections ask for: no channel of a connection is given
    an interest again after it lost it, so the weakness proved in PollTables is never met. */
module PollDiscipline {
  import opened Common
  import opened Channels
  import opened PollTables
  import C = Connections
  import K = ConnectionClose

  /** One life of a channel: after an update to no interest only its removal follows. */
  ghost predicate Disciplined(calls: seq<PollCall>) {
    && (calls != [] ==> calls[0].UpdateCall?)
    && (forall i | 0 <= i < |calls| - 1 :: calls[i] != RemoveCall)
    && (forall i, j | 0 <= i < j < |calls| && calls[i] == UpdateCall(NO_INTEREST) :: calls[j] == RemoveCall)
  }

  lemma KeptIsDisciplined(c: C.Conn)
    requires K.Discipline(c)
    ensures Disciplined(c.calls)
  {
    var n := |c.calls| - 1;
    if c.state == C.Disconnected {
      if K.Closing(c.calls) {
        ClosingIsDisciplined(c.calls);
      } else {
        ClosingIsDisciplined(c.calls[..n]);
        assert forall i | 0 <= i < n :: c.calls[..n][i] == c.calls[i];
      }
    }
  }

  lemma ClosingIsDisciplined(calls: seq<PollCall>)
    requires K.Closing(calls)
    ensures Disciplined(calls) && forall i | 0 <= i < |calls| :: calls[i].UpdateCall?
  {
    var n := |calls| - 1;
    assert forall i | 0 <= i < n :: calls[..n][i] == calls[i];
  }

  /** In every run of its loop's thread and any others that meets its steps' demands, a connection's
      channel, once without interest, is only removed. */
  lemma ConnectionIsDisciplined(ops: seq<C.Op>)
    requires K.RunServed(C.FRESH, ops)
    ensures Disciplined(C.Run(C.FRESH, ops).calls)
  {
    K.RunKept(C.FRESH, ops);
    KeptIsDisciplined(C.Run(C.FRESH, ops));
  }

  /** Whatever follows the close, no assert fails and the channel is at most removed. */
  ghost predicate StaysDisciplined(c: C.Conn) {
    forall ops: seq<C.Op> | K.NoHandshake(ops) :: !C.Run(c, ops).broken && Disciplined(C.Run(c, ops).calls)
  }

  /** Closed connections keep the discipline exactly when no functor of another thread still has
      bytes to send. */
  lemma ClosedIsDisciplinedIff(c: C.Conn)
    requires K.Sound(c) && c.state == C.Disconnected
    ensures StaysDisciplined(c) <==> K.NoBytesQueued(c)
  {
    if K.NoBytesQueued(c) {
      forall ops: seq<C.Op> | K.NoHandshake(ops)
        ensures !C.Run(c, ops).broken && Disciplined(C.Run(c, ops).calls)
      {
        K.RunStaysClosed(c, ops);
        KeptIsDisciplined(C.Run(c, ops));
      }
    } else {
      var ops := K.Reopened(c);
      ReopenedIsUndisciplined(c, C.Run(c, ops));
      assert C.Run(c, ops).broken || !Disciplined(C.Run(c, ops).calls);
    }
  }

  lemma ReopenedIsUndisciplined(c: C.Conn, d: C.Conn)
    requires K.Discipline(c) && c.state == C.Disconnected
    ensures d.calls == c.calls + [UpdateCall(d.events)] ==> !Disciplined(d.calls)
  {
    var n := |c.calls| - 1;
    if d.calls == c.calls + [UpdateCall(d.events)] && K.Closing(c.calls) {
      assert d.calls[n] == UpdateCall(NO_INTEREST) && d.calls[n + 1].UpdateCall?;
    } else if d.calls == c.calls + [UpdateCall(d.events)] {
      assert d.calls[n] == RemoveCall;
    }
  }

  /** The poller requests that one life of a channel on `fd` turns into. */
  function Trace(fd: int, calls: seq<PollCall>): seq<Op> {
    seq(|calls|, i requires 0 <= i < |calls| =>
      match calls[i]
      case RemoveCall => Erase(fd)
      case UpdateCall(events) => if i == 0 then Register(fd, events) else Modify(fd, events))
  }

  /** Descriptors are reused: the lives that `fd` has had, one after another. */
  function History(fd: int, lives: seq<seq<PollCall>>): seq<Op> {
    if lives == [] then [] else History(fd, lives[..|lives| - 1]) + Trace(fd, lives[|lives| - 1])
  }

  /** The requests that concern `fd`. */
  function Project(ops: seq<Op>, fd: int): seq<Op> {
    if ops == [] then []
    else
      var rest := Project(ops[..|ops| - 1], fd);
      if ops[|ops| - 1].fd == fd then rest + [ops[|ops| - 1]] else rest
  }

  ghost predicate NeverReenables(ops: seq<Op>, fd: int) {
    forall i | 0 <= i < |ops| && ops[i].fd == fd && ops[i].Modify? && ops[i].events != NO_INTEREST :: !Parked(ops[..i], fd)
  }

  lemma {:induction false} ParkedAfterRegister(before: seq<Op>, life: seq<Op>, fd: int)
    requires life != [] && life[0].Register? && life[0].fd == fd
    ensures Parked(before + life, fd) == Parked(life, fd)
  {
    var n := |life| - 1;
    assert (before + life)[..|before + life| - 1] == before + life[..n];
    if n > 0 {
      ParkedAfterRegister(before, life[..n], fd);
    }
  }

  lemma {:induction false} NotParkedWhileWanted(life: seq<Op>, fd: int)
    requires forall i | 0 <= i < |life| :: !life[i].Erase? && life[i].events != NO_INTEREST
    ensures !Parked(life, fd)
  {
    if life != [] {
      NotParkedWhileWanted(life[..|life| - 1], fd);
    }
  }

  lemma {:induction false} HistoryNeverReenables(fd: int, lives: seq<seq<PollCall>>)
    requires forall k | 0 <= k < |lives| :: Disciplined(lives[k])
    ensures NeverReenables(History(fd, lives), fd)
  {
    if lives != [] {
      var n := |lives| - 1;
      var before, life := History(fd, lives[..n]), Trace(fd, lives[n]);
      HistoryNeverReenables(fd, lives[..n]);
      var ops := History(fd, lives);
      forall i | 0 <= i < |ops| && ops[i].fd == fd && ops[i].Modify? && ops[i].events != NO_INTEREST
        ensures !Parked(ops[..i], fd)
      {
        if i < |before| {
          assert ops[..i] == before[..i];
        } else {
          var j := i - |before|;
          assert ops[..i] == before + life[..j];
          assert ops[i] == life[j];
          ParkedAfterRegister(before, life[..j], fd);
          NotParkedWhileWanted(life[..j], fd);
        }
      }
    }
  }

  lemma {:induction false} ProjectionDecidesParked(ops: seq<Op>, fd: int)
    ensures Parked(ops, fd) == Parked(Project(ops, fd), fd)
  {
    if ops != [] {
      ProjectionDecidesParked(ops[..|ops| - 1], fd);
      var p := Project(ops, fd);
      if ops[|ops| - 1].fd == fd {
        assert p[..|p| - 1] == Project(ops[..|ops| - 1], fd);
      }
    }
  }

  /** The last request on `fd` decides what is wanted of it. */
  lemma {:induction false} ParkedMeansUnwanted(ops: seq<Op>, fd: int)
    requires RunAdmissible(EMPTY, ops)
    requires NeverReenables(Project(ops, fd), fd)
    ensures Run(EMPTY, ops).Some?
    ensures var t := Run(EMPTY, ops).value; fd in t.wanted && Parked(ops, fd) ==> t.wanted[fd] == NO_INTEREST
  {
    RunKeeps(ops);
    if ops != [] {
      var before, op := ops[..|ops| - 1], ops[|ops| - 1];
      var p, p0 := Project(ops, fd), Project(before, fd);
      if op.fd == fd {
        assert p == p0 + [op] && p[..|p0|] == p0;
        forall i | 0 <= i < |p0| && p0[i].fd == fd && p0[i].Modify? && p0[i].events != NO_INTEREST
          ensures !Parked(p0[..i], fd)
        {
          assert p0[i] == p[i] && p[..i] == p0[..i];
        }
        if op.Modify? && op.events != NO_INTEREST {
          assert p[|p0|] == op;
          ProjectionDecidesParked(before, fd);
        }
      }
      ParkedMeansUnwanted(before, fd);
    }
  }

  /** The refinement: over every admissible run in which each descriptor's requests come from
      disciplined channels, one life after another and interleaved at will with those of other
      descriptors, poll() is asked for exactly the interests the channels have. */
  lemma PollerWatchesInterests(ops: seq<Op>, lives: map<int, seq<seq<PollCall>>>)
    requires RunAdmissible(EMPTY, ops)
    requires forall fd | fd in lives, k | 0 <= k < |lives[fd]| :: Disciplined(lives[fd][k])
    requires forall i | 0 <= i < |ops| :: ops[i].fd in lives
    requires forall fd | fd in lives :: Project(ops, fd) <= History(fd, lives[fd])
    ensures Run(EMPTY, ops).Some?
    ensures Watched(Run(EMPTY, ops).value) == Interests(Run(EMPTY, ops).value)
  {
    RefinesIff(ops);
    var t := Run(EMPTY, ops).value;
    forall fd | fd in t.wanted && Parked(ops, fd)
      ensures t.wanted[fd] == NO_INTEREST
    {
      MentionedWhenParked(ops, fd);
      HistoryNeverReenables(fd, lives[fd]);
      var p, h := Project(ops, fd), History(fd, lives[fd]);
      forall i | 0 <= i < |p| && p[i].fd == fd && p[i].Modify? && p[i].events != NO_INTEREST
        ensures !Parked(p[..i], fd)
      {
        assert p[i] == h[i] && p[..i] == h[..i];
      }
      ParkedMeansUnwanted(ops, fd);
    }
  }

  lemma {:induction false} MentionedWhenParked(ops: seq<Op>, fd: int)
    requires Parked(ops, fd)
    ensures exists i :: 0 <= i < |ops| && ops[i].fd == fd
  {
    if ops[|ops| - 1].fd != fd {
      MentionedWhenParked(ops[..|ops| - 1], fd);
      var i :| 0 <= i < |ops| - 1 && ops[..|ops| - 1][i].fd == fd;
      assert ops[i].fd == fd;
    }
  }

  // ----- Admissible by discipline -----

  predicate InTable(requests: seq<Op>) {
    requests != [] && !requests[|requests| - 1].Erase?
  }

  /** A descriptor is registered exactly when it is new or was just removed. */
  predicate Alternates(requests: seq<Op>) {
    requests == [] ||
      var before, op := requests[..|requests| - 1], requests[|requests| - 1];
      Alternates(before) && (op.Register? <==> !InTable(before))
  }

  /** Every removal is of the channel in the last slot. */
  predicate ErasesLast(ops: seq<Op>) {
    ops == [] ||
      var before, op := ops[..|ops| - 1], ops[|ops| - 1];
      && ErasesLast(before)
      && (op.Erase? && Run(EMPTY, before).Some? && op.fd in Run(EMPTY, before).value.index ==>
            var t := Run(EMPTY, before).value; t.index[op.fd] == |t.slots| - 1)
  }

  lemma {:induction false} DisciplinedAlternates(fd: int, calls: seq<PollCall>)
    requires Disciplined(calls)
    ensures Alternates(Trace(fd, calls))
  {
    if calls != [] {
      var n := |calls| - 1;
      DisciplinedAlternates(fd, calls[..n]);
      assert Trace(fd, calls)[..n] == Trace(fd, calls[..n]);
    }
  }

  ghost predicate AllAlternate(ops: seq<Op>) {
    forall fd :: Alternates(Project(ops, fd))
  }

  /** The table holds exactly the descriptors whose last request was no removal. */
  ghost predicate HoldsLast(ops: seq<Op>) {
    Run(EMPTY, ops).Some? && forall fd :: fd in Run(EMPTY, ops).value.index <==> InTable(Project(ops, fd))
  }

  /** Channels that alternate, and last-slot removals, are all the poller asks for. */
  lemma {:induction false} AlternatingIsAdmissible(ops: seq<Op>)
    requires ErasesLast(ops) && AllAlternate(ops)
    requires forall i | 0 <= i < |ops| :: ops[i].fd >= 0
    ensures RunAdmissible(EMPTY, ops) && HoldsLast(ops)
  {
    if ops != [] {
      var n := |ops| - 1;
      var before, op := ops[..n], ops[n];
      assert ops == before + [op];
      assert AllAlternate(before) by {
        forall fd ensures Alternates(Project(before, fd)) { AlternatesBefore(before, op, fd); }
      }
      AlternatingIsAdmissible(before);
      AlternatesBefore(before, op, op.fd);
      RunSnoc(EMPTY, before, op);
      RunKeeps(before);
      StepKeeps(Run(EMPTY, before).value, op);
      forall fd
        ensures fd in Run(EMPTY, ops).value.index <==> InTable(Project(ops, fd))
      {
        ProjectSnoc(before, op, fd);
      }
    }
  }

  lemma ProjectSnoc(ops: seq<Op>, op: Op, fd: int)
    ensures Project(ops + [op], fd) == if op.fd == fd then Project(ops, fd) + [op] else Project(ops, fd)
  {
    assert (ops + [op])[..|ops|] == ops;
  }

  lemma AlternatesBefore(before: seq<Op>, op: Op, fd: int)
    requires Alternates(Project(before + [op], fd))
    ensures Alternates(Project(before, fd))
    ensures op.fd == fd ==> (op.Register? <==> !InTable(Project(before, fd)))
  {
    ProjectSnoc(before, op, fd);
    var p := Project(before, fd);
    assert (p + [op])[..|p|] == p;
  }

  /** No assert of the poller has failed, and after every request vector, map and indices agreed. */
  ghost predicate ConsistentThroughout(ops: seq<Op>) {
    && (ops == [] || ConsistentThroughout(ops[..|ops| - 1]))
    && Run(EMPTY, ops).Some? && Inv(Run(EMPTY, ops).value)
  }

  /** So for channels that alternate, a removal of any but the last slot is the one thing that can
      go wrong, and always does. */
  lemma {:induction false} ConsistentIff(ops: seq<Op>)
    requires AllAlternate(ops) && forall i | 0 <= i < |ops| :: ops[i].fd >= 0
    ensures ConsistentThroughout(ops) <==> ErasesLast(ops)
  {
    if ops != [] {
      var before, op := ops[..|ops| - 1], ops[|ops| - 1];
      assert ops == before + [op];
      assert AllAlternate(before) by {
        forall fd ensures Alternates(Project(before, fd)) { AlternatesBefore(before, op, fd); }
      }
      ConsistentIff(before);
      if ErasesLast(ops) {
        AlternatingIsAdmissible(ops);
        RunKeeps(ops);
      } else if ConsistentThroughout(ops) {
        RunSnoc(EMPTY, before, op);
        EraseKeepsIff(Run(EMPTY, before).value, op.fd);
      }
    }
  }

  /** What is wanted of a descriptor is what its last request said. */
  lemma {:induction false} WantedIsLast(ops: seq<Op>, fd: int)
    requires RunAdmissible(EMPTY, ops) && Run(EMPTY, ops).Some? && fd in Run(EMPTY, ops).value.wanted
    ensures var p := Project(ops, fd); InTable(p) && Run(EMPTY, ops).value.wanted[fd] == p[|p| - 1].events
  {
    var before, op := ops[..|ops| - 1], ops[|ops| - 1];
    if op.fd != fd { WantedIsLast(before, fd); }
  }

  lemma InterestIsLast(ops: seq<Op>, fd: int, events: Interest)
    requires RunAdmissible(EMPTY, ops) && HoldsLast(ops) && Run(EMPTY, ops).value.index.Keys == Run(EMPTY, ops).value.wanted.Keys
    ensures (fd, events) in Interests(Run(EMPTY, ops).value) <==>
            var p := Project(ops, fd); InTable(p) && p[|p| - 1].events == events && events != NO_INTEREST
  {
    var t := Run(EMPTY, ops).value;
    assert fd in t.wanted <==> InTable(Project(ops, fd));
    if fd in t.wanted { WantedIsLast(ops, fd); }
    InterestsIff(t, fd, events);
  }

  lemma InterestsIff(t: Table, fd: int, events: Interest)
    ensures (fd, events) in Interests(t) <==> fd in t.wanted && t.wanted[fd] == events && events != NO_INTEREST
  {
  }

  lemma TraceLast(fd: int, calls: seq<PollCall>, events: Interest)
    ensures var p := Trace(fd, calls);
            InTable(p) && p[|p| - 1].events == events <==> calls != [] && calls[|calls| - 1] == UpdateCall(events)
  {
  }
}
