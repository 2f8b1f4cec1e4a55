/**
 What the loop asks of a poller, muduo-cpp11/net/channel.h: every registered channel has an interest mask.
 This map is the reference against which both pollers are measured.
 */
module Interests {
  type Fd = nat

  /** kReadEvent and kWriteEvent, or neither (kNoneEvent). */
  datatype Mask = Mask(read: bool, write: bool)
  {
    predicate Empty() { !read && !write }
  }

  const NONE := Mask(false, false)

  /** The masks of the registered channels. */
  type Interest = map<Fd, Mask>

  /** What the kernel should watch: the descriptors with a non-empty interest. */
  function Wanted(interest: Interest): Interest {
    map fd | fd in interest && !interest[fd].Empty() :: interest[fd]
  }

  datatype Event = Update(fd: Fd, mask: Mask) | Remove(fd: Fd)

  /** Channel::Remove demands a registered channel whose interest is empty. */
  predicate Possible(interest: Interest, e: Event) {
    e.Remove? ==> e.fd in interest && interest[e.fd].Empty()
  }

  function Next(interest: Interest, e: Event): Interest {
    match e
    case Update(fd, mask) => interest[fd := mask]
    case Remove(fd) => interest - {fd}
  }

  predicate WellFormed(interest: Interest, es: seq<Event>)
    decreases |es|
  {
    es != [] ==> Possible(interest, es[0]) && WellFormed(Next(interest, es[0]), es[1..])
  }

  class Channel {
    const fd: Fd
    var events: Mask
    var index: int

    constructor (fd: Fd)
      ensures this.fd == fd && events == NONE && index == -1
    {
      this.fd, events, index := fd, NONE, -1;
    }

    predicate IsNoneEvent()
      reads this
      ensures IsNoneEvent() <==> events == NONE
    {
      events.Empty()
    }

    predicate IsWriting()
      reads this
    {
      events.write
    }

    /** The mask changes of EnableWriting and DisableAll; the update of the poller follows them. */
    method EnableWriting()
      modifies this`events
      ensures events == old(events).(write := true)
    {
      events := events.(write := true);
    }

    method DisableAll()
      modifies this`events
      ensures events == NONE
    {
      events := NONE;
    }
  }
}
