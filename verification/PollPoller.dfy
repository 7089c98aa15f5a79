/** The PollPoller object: updateChannel and removeChannel take it where PollTables says, and
    the scan with its early exit lists exactly the channels that poll() reported. */
module PollPollers {
  import opened Common
  import opened Channels
  import T = PollTables

  class PollPoller {
    var pollfds: seq<T.PollFd>
    var channels: map<int, Channel>

    constructor ()
      ensures View() == T.EMPTY && Valid()
    {
      pollfds := [];
      channels := map[];
    }

    /** Channels are filed under their own descriptor. */
    ghost predicate Valid()
      reads this
    {
      forall fd | fd in channels :: channels[fd].fd == fd
    }

    ghost function View(): T.Table
      reads this, channels.Values
    {
      T.Table(
        pollfds,
        map fd | fd in channels :: channels[fd].index,
        map fd | fd in channels :: channels[fd].events)
    }

    predicate HasChannel(channel: Channel)
      reads this
    {
      channel.fd in channels
    }

    /** The request that updateChannel makes, by the sign of the channel's index. */
    ghost function Request(channel: Channel): T.Op
      reads channel
    {
      if channel.index < 0 then T.Register(channel.fd, channel.events) else T.Modify(channel.fd, channel.events)
    }

    /** The channel's events_ have just changed, so View already shows them; the table's own
        step overwrites that entry anyway. */
    method UpdateChannel(channel: Channel)
      requires Valid()
      requires channel.index < 0 ==> channel !in channels.Values
      requires channel.index >= 0 ==> channel.fd in channels && channels[channel.fd] == channel
      // The asserts of the source.
      requires T.Step(View(), Request(channel)).Some?
      modifies this, channel`index
      ensures Valid()
      ensures View() == T.Step(old(View()), old(Request(channel))).value
      ensures channel.index >= 0 && channel.fd in channels && channels[channel.fd] == channel
    {
      if channel.index < 0 {
        pollfds := pollfds + [T.PollFd(channel.fd, channel.events, NO_EVENTS)];
        channel.index := |pollfds| - 1;
        channels := channels[channel.fd := channel];
        assert forall fd | fd in old(channels) :: old(channels)[fd] in old(channels).Values;
        assert View().index == old(View()).index[channel.fd := |old(pollfds)|];
      } else {
        var idx := channel.index;
        pollfds := pollfds[idx := T.PollFd(pollfds[idx].fd, channel.events, NO_EVENTS)];
        if channel.IsNoneEvent() {
          pollfds := pollfds[idx := pollfds[idx].(fd := -1)];
        }
        assert View().index == old(View()).index;
      }
      assert View().wanted == old(View()).wanted[channel.fd := channel.events];
    }

    method RemoveChannel(channel: Channel)
      requires Valid()
      requires HasChannel(channel) && channels[channel.fd] == channel
      requires T.Step(View(), T.Erase(channel.fd)).Some?
      modifies this, channel`index
      ensures Valid()
      ensures View() == T.Step(old(View()), T.Erase(channel.fd)).value
      ensures channel.index == -1 && !HasChannel(channel)
    {
      var idx := channels[channel.fd].index;
      pollfds := pollfds[..idx] + pollfds[idx + 1..];
      channels := channels - {channel.fd};
      channel.index := -1;
      assert forall fd | fd in channels :: channels[fd] == old(channels)[fd] && channels[fd] != channel;
      assert View().index == old(View()).index - {channel.fd};
      assert View().wanted == old(View()).wanted - {channel.fd};
    }

    /** poll(): the kernel fills in `revents`, none for an ignored slot, and returns how many
        slots it found something on, or an error. On a consistent table the channels listed are
        then exactly those whose slots were reported, in slot order, with their own revents. */
    method Poll(revents: seq<Revents>, failed: bool) returns (active: seq<Channel>)
      requires Valid() && T.Inv(View())
      requires |revents| == |pollfds|
      requires forall i | 0 <= i < |pollfds| && pollfds[i].fd < 0 :: !revents[i].Any()
      modifies this`pollfds, channels.Values`revents
      ensures Valid() && channels == old(channels)
      ensures failed ==> active == [] && pollfds == old(pollfds)
      ensures |pollfds| == |old(pollfds)|
      ensures !failed ==> forall i | 0 <= i < |pollfds| :: pollfds[i] == old(pollfds)[i].(revents := revents[i])
      ensures !failed ==> |active| == |Active(pollfds)|
      ensures !failed ==> forall k | 0 <= k < |active| ::
                active[k].fd == Active(pollfds)[k].fd && active[k].revents == Active(pollfds)[k].revents
      ensures !failed ==> forall i | 0 <= i < |pollfds| && revents[i].Any() ::
                pollfds[i].fd in channels && channels[pollfds[i].fd] in active
    {
      active := [];
      if !failed {
        ghost var t := View();
        var before := pollfds;
        pollfds := seq(|before|, i requires 0 <= i < |before| => before[i].(revents := revents[i]));
        ConsistentTableScans(t, pollfds);
        var numEvents := |Active(pollfds)|;
        if numEvents > 0 {
          active := FillActiveChannels(numEvents);
        } else {
          NothingActive(pollfds);
        }
      }
    }

    /** The scan stops as soon as it has met `numEvents` active slots. For any count it lists
        the first that many active slots in order, each channel given its slot's revents;
        with the count poll() returns, that is all of them. */
    method FillActiveChannels(numEvents: int) returns (active: seq<Channel>)
      requires Valid()
      requires forall i | 0 <= i < |pollfds| && pollfds[i].revents.Any() :: pollfds[i].fd in channels
      requires DistinctFds(pollfds)
      modifies channels.Values`revents
      ensures |active| == if numEvents <= 0 then 0 else Min(numEvents, |Active(pollfds)|)
      ensures forall k | 0 <= k < |active| ::
                && active[k].fd == Active(pollfds)[k].fd
                && active[k].fd in channels
                && active[k] == channels[active[k].fd]
                && active[k].revents == Active(pollfds)[k].revents
      ensures forall c | c in channels.Values && c !in active :: c.revents == old(c.revents)
      ensures numEvents == |Active(pollfds)| ==>
                forall i | 0 <= i < |pollfds| && pollfds[i].revents.Any() :: channels[pollfds[i].fd] in active
    {
      active := [];
      var left := numEvents;
      var i := 0;
      while left > 0 && i < |pollfds|
        invariant 0 <= i <= |pollfds|
        invariant |active| == |Active(pollfds[..i])|
        invariant left == numEvents - |active|
        invariant numEvents > 0 ==> left >= 0
        invariant numEvents <= 0 ==> active == []
        invariant forall k | 0 <= k < |active| ::
                    && active[k].fd == Active(pollfds[..i])[k].fd
                    && active[k].fd in channels
                    && active[k] == channels[active[k].fd]
                    && active[k].revents == Active(pollfds[..i])[k].revents
        invariant forall c | c in channels.Values && c !in active :: c.revents == old(c.revents)
      {
        ActiveSnoc(pollfds, i);
        if pollfds[i].revents.Any() {
          left := left - 1;
          var channel := channels[pollfds[i].fd];
          forall k | 0 <= k < |active|
            ensures active[k] != channel
          {
            ActiveEarlier(pollfds, i, k);
          }
          channel.revents := pollfds[i].revents;
          active := active + [channel];
        }
        i := i + 1;
      }
      ActivePrefix(pollfds, i);
      if i == |pollfds| {
        assert pollfds[..i] == pollfds;
      }
      if numEvents == |Active(pollfds)| {
        forall j | 0 <= j < |pollfds| && pollfds[j].revents.Any()
          ensures channels[pollfds[j].fd] in active
        {
          var k := ActiveHas(pollfds, j);
          assert active[k].fd == pollfds[j].fd;
        }
      }
    }
  }

  /** Slots that poll() found something on, in order: the full scan. */
  function Active(slots: seq<T.PollFd>): seq<T.PollFd> {
    if slots == [] then []
    else
      var n := |slots| - 1;
      if slots[n].revents.Any() then Active(slots[..n]) + [slots[n]] else Active(slots[..n])
  }

  /** No two slots poll() reports on share a descriptor. */
  ghost predicate DistinctFds(slots: seq<T.PollFd>) {
    forall i, j | 0 <= i < j < |slots| && slots[i].revents.Any() && slots[j].revents.Any() :: slots[i].fd != slots[j].fd
  }

  lemma ActiveSnoc(slots: seq<T.PollFd>, i: nat)
    requires i < |slots|
    ensures Active(slots[..i + 1]) ==
            if slots[i].revents.Any() then Active(slots[..i]) + [slots[i]] else Active(slots[..i])
  {
    assert slots[..i + 1][..i] == slots[..i];
  }

  lemma {:induction false} ActiveEarlier(slots: seq<T.PollFd>, i: nat, k: nat)
    requires i <= |slots| && k < |Active(slots[..i])|
    ensures exists j :: 0 <= j < i && slots[j] == Active(slots[..i])[k] && slots[j].revents.Any()
  {
    ActiveSnoc(slots, i - 1);
    if k < |Active(slots[..i - 1])| {
      ActiveEarlier(slots, i - 1, k);
    } else {
      assert slots[i - 1] == Active(slots[..i])[k];
    }
  }

  lemma {:induction false} ActivePrefix(slots: seq<T.PollFd>, i: nat)
    requires i <= |slots|
    ensures Active(slots[..i]) <= Active(slots)
    decreases |slots| - i
  {
    if i == |slots| {
      assert slots[..i] == slots;
    } else {
      ActiveSnoc(slots, i);
      ActivePrefix(slots, i + 1);
    }
  }

  lemma NothingActive(slots: seq<T.PollFd>)
    requires Active(slots) == []
    ensures forall i | 0 <= i < |slots| :: !slots[i].revents.Any()
  {
    forall i | 0 <= i < |slots|
      ensures !slots[i].revents.Any()
    {
      if slots[i].revents.Any() {
        var k := ActiveHas(slots, i);
      }
    }
  }

  lemma ActiveHas(slots: seq<T.PollFd>, j: nat) returns (k: nat)
    requires j < |slots| && slots[j].revents.Any()
    ensures k < |Active(slots)| && Active(slots)[k] == slots[j]
  {
    ActiveSnoc(slots, j);
    ActivePrefix(slots, j + 1);
    k := |Active(slots[..j])|;
  }

  /** On a consistent table whose ignored slots report nothing, every lookup of the scan
      succeeds and no descriptor is met twice. */
  lemma ConsistentTableScans(t: T.Table, slots: seq<T.PollFd>)
    requires T.Inv(t) && |slots| == |t.slots|
    // poll() changes nothing but the revents, and reports none for a negative descriptor.
    requires forall i | 0 <= i < |slots| :: slots[i].fd == t.slots[i].fd && slots[i].events == t.slots[i].events
    requires forall i | 0 <= i < |slots| && slots[i].fd < 0 :: !slots[i].revents.Any()
    ensures forall i | 0 <= i < |slots| && slots[i].revents.Any() :: slots[i].fd in t.index && t.index[slots[i].fd] == i
    ensures DistinctFds(slots)
  {
    forall i | 0 <= i < |slots| && slots[i].revents.Any()
      ensures slots[i].fd in t.index && t.index[slots[i].fd] == i
    {
      assert T.HasOwner(t, i);
      var fd :| fd in t.index && t.index[fd] == i;
      assert T.SlotOf(t, fd, i);
    }
  }
}
