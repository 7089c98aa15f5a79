/** Channel.h and Channel.cpp: a descriptor and the events its user cares about. */
module Channels {
  import opened Common

  /** `events_`: only the read bits (POLLIN | POLLPRI) and POLLOUT are ever switched. */
  datatype Interest = Interest(read: bool, write: bool)

  const NO_INTEREST := Interest(false, false)

  /** `revents_` as poll() reports it. */
  datatype Revents = Revents(pollin: bool, pri: bool, pollout: bool, err: bool, hup: bool, nval: bool)
  {
    predicate Any() {
      pollin || pri || pollout || err || hup || nval
    }
  }

  const NO_EVENTS := Revents(false, false, false, false, false, false)

  /** The requests a channel makes of its loop's poller. */
  datatype PollCall = UpdateCall(events: Interest) | RemoveCall

  class Channel {
    const fd: int
    var events: Interest
    var revents: Revents
    var index: int
    var addedToLoop: bool
    // Every request made of the poller so far.
    ghost var calls: seq<PollCall>

    constructor (fd: int)
      ensures this.fd == fd && events == NO_INTEREST && revents == NO_EVENTS
      ensures index == -1 && !addedToLoop && calls == []
    {
      this.fd := fd;
      events := NO_INTEREST;
      revents := NO_EVENTS;
      index := -1;
      addedToLoop := false;
      calls := [];
    }

    predicate IsNoneEvent()
      reads this
    {
      events == NO_INTEREST
    }

    predicate IsWriting()
      reads this
    {
      events.write
    }

    method Update()
      modifies this`calls, this`addedToLoop
      ensures calls == old(calls) + [UpdateCall(events)] && addedToLoop
    {
      calls := calls + [UpdateCall(events)];
      addedToLoop := true;
    }

    method EnableReading()
      modifies this`events, this`calls, this`addedToLoop
      ensures events == old(events).(read := true)
      ensures calls == old(calls) + [UpdateCall(events)] && addedToLoop
    {
      events := events.(read := true);
      Update();
    }

    method EnableWriting()
      modifies this`events, this`calls, this`addedToLoop
      ensures events == old(events).(write := true)
      ensures calls == old(calls) + [UpdateCall(events)] && addedToLoop
    {
      events := events.(write := true);
      Update();
    }

    method DisableWriting()
      modifies this`events, this`calls, this`addedToLoop
      ensures events == old(events).(write := false)
      ensures calls == old(calls) + [UpdateCall(events)] && addedToLoop
    {
      events := events.(write := false);
      Update();
    }

    method DisableAll()
      modifies this`events, this`calls, this`addedToLoop
      ensures events == NO_INTEREST
      ensures calls == old(calls) + [UpdateCall(events)] && addedToLoop
    {
      events := NO_INTEREST;
      Update();
    }

    method Remove()
      requires IsNoneEvent()
      modifies this`calls, this`addedToLoop
      ensures calls == old(calls) + [RemoveCall] && !addedToLoop
    {
      addedToLoop := false;
      calls := calls + [RemoveCall];
    }
  }
}
