/**
 The epoll(4) back end, muduo-cpp11/net/poller/epoll_poller.cpp: each channel carries a tag, and the interest set
 lives in the kernel.
 */
module EPollPollers {
  import opened Interests

  const K_NEW := -1
  const K_ADDED := 1
  const K_DELETED := 2

  /** The tag of a registered channel. */
  datatype Tag = Added | Deleted

  datatype Ctl = CtlAdd | CtlMod | CtlDel

  /** fatal records a refused ADD or MOD, the branch that aborts the process; logged a refused DEL. */
  datatype State = State(tags: map<Fd, Tag>, kernel: Interest, fatal: bool, logged: bool)

  function Init(): State { State(map[], map[], false, false) }

  /** epoll_ctl: ADD is for absent descriptors, MOD and DEL for present ones. */
  function EpollCtl(s: State, op: Ctl, fd: Fd, mask: Mask): State {
    match op
    case CtlAdd => if fd in s.kernel then s.(fatal := true) else s.(kernel := s.kernel[fd := mask])
    case CtlMod => if fd in s.kernel then s.(kernel := s.kernel[fd := mask]) else s.(fatal := true)
    case CtlDel => if fd in s.kernel then s.(kernel := s.kernel - {fd}) else s.(logged := true)
  }

  function UpdateStep(s: State, fd: Fd, mask: Mask): State {
    if fd !in s.tags || s.tags[fd].Deleted? then
      EpollCtl(s.(tags := s.tags[fd := Added]), CtlAdd, fd, mask)
    else if mask.Empty() then
      EpollCtl(s, CtlDel, fd, mask).(tags := s.tags[fd := Deleted])
    else
      EpollCtl(s, CtlMod, fd, mask)
  }

  function RemoveStep(s: State, fd: Fd): State
    requires fd in s.tags
  {
    var t := s.(tags := s.tags - {fd});
    if s.tags[fd].Added? then EpollCtl(t, CtlDel, fd, NONE) else t
  }

  function Step(s: State, e: Event): State
    requires e.Remove? ==> e.fd in s.tags
  {
    match e
    case Update(fd, mask) => UpdateStep(s, fd, mask)
    case Remove(fd) => RemoveStep(s, fd)
  }

  /** The tag tells exactly whether the kernel has the descriptor, and then with the channel's mask. */
  predicate Inv(s: State, interest: Interest) {
    && !s.fatal && !s.logged
    && s.tags.Keys == interest.Keys
    && (forall fd :: fd in s.kernel ==> fd in s.tags && s.tags[fd].Added? && s.kernel[fd] == interest[fd])
    && (forall fd :: fd in s.tags && s.tags[fd].Added? ==> fd in s.kernel)
    && (forall fd :: fd in s.tags && s.tags[fd].Deleted? ==> interest[fd].Empty())
  }

  lemma UpdateKeepsInv(s: State, interest: Interest, fd: Fd, mask: Mask)
    requires Inv(s, interest)
    ensures Inv(UpdateStep(s, fd, mask), interest[fd := mask])
  {
  }

  lemma RemoveKeepsInv(s: State, interest: Interest, fd: Fd)
    requires Inv(s, interest) && fd in interest
    ensures Inv(RemoveStep(s, fd), interest - {fd})
  {
  }

  lemma StepKeepsInv(s: State, interest: Interest, e: Event)
    requires Inv(s, interest) && Possible(interest, e)
    ensures Inv(Step(s, e), Next(interest, e))
  {
    match e
    case Update(fd, mask) => UpdateKeepsInv(s, interest, fd, mask);
    case Remove(fd) => RemoveKeepsInv(s, interest, fd);
  }

  /** No control operation of the run is refused: ADD is only for absent, MOD and DEL only for present descriptors. */
  predicate LegalRun(s: State, interest: Interest, es: seq<Event>)
    requires WellFormed(interest, es)
    decreases |es|
  {
    && !s.fatal && !s.logged
    && (es != [] ==>
          && (es[0].Remove? ==> es[0].fd in s.tags)
          && LegalRun(Step(s, es[0]), Next(interest, es[0]), es[1..]))
  }

  lemma {:induction false} RunIsLegal(s: State, interest: Interest, es: seq<Event>)
    requires Inv(s, interest) && WellFormed(interest, es)
    ensures LegalRun(s, interest, es)
    decreases |es|
  {
    if es == [] {
    } else {
      StepKeepsInv(s, interest, es[0]);
      RunIsLegal(Step(s, es[0]), Next(interest, es[0]), es[1..]);
    }
  }

  /** The fatal branch, and the branch that logs a refused DEL, are unreachable in every run, disciplined or not. */
  lemma FatalIsUnreachable(es: seq<Event>)
    requires WellFormed(map[], es)
    ensures LegalRun(Init(), map[], es)
  {
    RunIsLegal(Init(), map[], es);
  }

  /** What keeps epoll right: an empty mask only for a channel that has something to give up. */
  predicate Guard(interest: Interest, e: Event) {
    e.Update? && e.mask.Empty() ==> e.fd in interest && !interest[e.fd].Empty()
  }

  lemma StepExposesIff(s: State, interest: Interest, e: Event)
    requires Inv(s, interest) && Possible(interest, e) && s.kernel == Wanted(interest)
    ensures Step(s, e).kernel == Wanted(Next(interest, e)) <==> Guard(interest, e)
  {
    var t, want := Step(s, e), Wanted(Next(interest, e));
    assert forall d :: d in s.kernel <==> d in Wanted(interest);
    assert forall d :: d != e.fd ==> (d in t.kernel <==> d in want);
    if e.Update? && e.mask.Empty() {
      assert e.fd !in want;
      assert e.fd in t.kernel <==> e.fd !in s.kernel;
      if e.fd !in t.kernel {
        assert t.kernel == want;
      }
    } else {
      assert t.kernel == want;
    }
  }

  /** In every state of the run, the kernel watches exactly what is wanted. */
  predicate Correct(s: State, interest: Interest, es: seq<Event>)
    requires Inv(s, interest) && WellFormed(interest, es)
    decreases |es|
  {
    && s.kernel == Wanted(interest)
    && (es != [] ==>
          (StepKeepsInv(s, interest, es[0]); Correct(Step(s, es[0]), Next(interest, es[0]), es[1..])))
  }

  predicate Guarded(interest: Interest, es: seq<Event>)
    decreases |es|
  {
    es != [] ==> Guard(interest, es[0]) && Guarded(Next(interest, es[0]), es[1..])
  }

  lemma {:induction false} CorrectIffGuarded(s: State, interest: Interest, es: seq<Event>)
    requires Inv(s, interest) && WellFormed(interest, es) && s.kernel == Wanted(interest)
    ensures Correct(s, interest, es) <==> Guarded(interest, es)
    decreases |es|
  {
    if es == [] {
    } else {
      StepKeepsInv(s, interest, es[0]);
      StepExposesIff(s, interest, es[0]);
      if Guard(interest, es[0]) {
        CorrectIffGuarded(Step(s, es[0]), Next(interest, es[0]), es[1..]);
      }
    }
  }

  ghost function RunTo(s: State, interest: Interest, es: seq<Event>): State
    requires Inv(s, interest) && WellFormed(interest, es)
    decreases |es|
  {
    if es == [] then s
    else StepKeepsInv(s, interest, es[0]); RunTo(Step(s, es[0]), Next(interest, es[0]), es[1..])
  }

  /** Over every run: the kernel watches exactly the non-empty interests throughout if and only if every step is guarded. */
  lemma EPollAgreesIff(es: seq<Event>)
    requires WellFormed(map[], es)
    ensures Correct(Init(), map[], es) <==> Guarded(map[], es)
  {
    CorrectIffGuarded(Init(), map[], es);
  }

  // ---------------------------------------------------------------- the poller object

  class EPollPoller {
    var channels: map<Fd, Channel>
    var kernel: Interest
    var fatal: bool
    var logged: bool

    ghost predicate Valid()
      reads this, channels.Values
    {
      forall fd :: fd in channels ==>
        channels[fd].fd == fd && (channels[fd].index == K_ADDED || channels[fd].index == K_DELETED)
    }

    ghost function View(): State
      reads this, channels.Values
      requires Valid()
    {
      State(map fd | fd in channels :: (if channels[fd].index == K_ADDED then Added else Deleted),
            kernel, fatal, logged)
    }

    predicate Registered(ch: Channel)
      reads this
    {
      ch.fd in channels && channels[ch.fd] == ch
    }

    constructor ()
      ensures Valid() && View() == Init() && channels == map[]
    {
      channels, kernel, fatal, logged := map[], map[], false, false;
    }

    method Control(op: Ctl, ch: Channel)
      requires Valid()
      modifies this`kernel, this`fatal, this`logged
      ensures Valid() && View() == EpollCtl(old(View()), op, ch.fd, ch.events)
    {
      match op
      case CtlAdd =>
        if ch.fd in kernel {
          fatal := true;
        } else {
          kernel := kernel[ch.fd := ch.events];
        }
      case CtlMod =>
        if ch.fd in kernel {
          kernel := kernel[ch.fd := ch.events];
        } else {
          fatal := true;
        }
      case CtlDel =>
        if ch.fd in kernel {
          kernel := kernel - {ch.fd};
        } else {
          logged := true;
        }
    }

    /** A new or emptied channel goes into the kernel set. */
    method AddToKernel(ch: Channel)
      requires Valid()
      requires if ch.index == K_NEW then ch.fd !in channels else ch.index == K_DELETED && Registered(ch)
      modifies this, ch`index
      ensures Valid() && Registered(ch)
      ensures View() == UpdateStep(old(View()), ch.fd, ch.events)
      ensures channels == old(channels)[ch.fd := ch]
    {
      ghost var before := View();
      if ch.index == K_NEW {
        channels := channels[ch.fd := ch];
      }
      ch.index := K_ADDED;
      assert View() == before.(tags := before.tags[ch.fd := Added]);
      Control(CtlAdd, ch);
    }

    /** A channel in the kernel set changes its mask there, or leaves it. */
    method ChangeInKernel(ch: Channel)
      requires Valid() && Registered(ch) && ch.index == K_ADDED
      modifies this`kernel, this`fatal, this`logged, ch`index
      ensures Valid() && View() == UpdateStep(old(View()), ch.fd, ch.events)
    {
      assert View().tags[ch.fd] == Added;
      if ch.IsNoneEvent() {
        Control(CtlDel, ch);
        SetDeleted(ch);
      } else {
        Control(CtlMod, ch);
      }
    }

    method SetDeleted(ch: Channel)
      requires Valid() && Registered(ch)
      modifies ch`index
      ensures Valid() && View() == old(View()).(tags := old(View()).tags[ch.fd := Deleted])
    {
      ch.index := K_DELETED;
      assert View().tags == old(View()).tags[ch.fd := Deleted];
    }

    method UpdateChannel(ch: Channel)
      requires Valid() && (if ch.index == K_NEW then ch.fd !in channels else Registered(ch))
      modifies this, ch`index
      ensures Valid() && Registered(ch)
      ensures View() == UpdateStep(old(View()), ch.fd, ch.events)
      ensures channels == old(channels)[ch.fd := ch]
    {
      if ch.index == K_NEW || ch.index == K_DELETED {
        AddToKernel(ch);
      } else {
        ChangeInKernel(ch);
        assert channels == channels[ch.fd := ch];
      }
    }

    /** RemoveChannel; the tag goes back to kNew, so the channel can be registered again. */
    method RemoveChannel(ch: Channel)
      requires Valid() && Registered(ch) && ch.IsNoneEvent()
      modifies this, ch`index
      ensures Valid() && View() == RemoveStep(old(View()), ch.fd)
      ensures channels == old(channels) - {ch.fd} && ch.index == K_NEW
    {
      ghost var before := View();
      var added := ch.index == K_ADDED;
      assert before.tags[ch.fd].Added? <==> added;
      channels := channels - {ch.fd};
      assert View().tags == before.tags - {ch.fd};
      if added {
        Control(CtlDel, ch);
      }
      ch.index := K_NEW;
    }

    /** The registered channels carry the given masks. */
    ghost predicate Carries(interest: Interest)
      reads this, channels.Values
    {
      channels.Keys == interest.Keys && forall fd :: fd in channels ==> channels[fd].events == interest[fd]
    }

    /** A registered channel takes another mask and updates itself. */
    method ChangeMask(fd: Fd, mask: Mask, ghost interest: Interest)
      requires Valid() && Carries(interest) && fd in channels
      modifies this, channels[fd]
      ensures Valid() && Carries(interest[fd := mask]) && View() == UpdateStep(old(View()), fd, mask)
      ensures channels == old(channels)
    {
      channels[fd].events := mask;
      assert View() == old(View());
      UpdateChannel(channels[fd]);
    }

    /** A new channel takes its first mask and updates itself. */
    method NewChannel(fd: Fd, mask: Mask, ghost interest: Interest)
      requires Valid() && Carries(interest) && fd !in channels
      modifies this
      ensures Valid() && Carries(interest[fd := mask]) && View() == UpdateStep(old(View()), fd, mask)
      ensures channels.Keys == old(channels).Keys + {fd} && fresh(channels[fd])
      ensures forall d :: d in old(channels) ==> channels[d] == old(channels)[d]
    {
      var ch := new Channel(fd);
      ch.events := mask;
      assert View() == old(View());
      AddToKernel(ch);
    }

    method Perform(e: Event, ghost interest: Interest)
      requires Valid() && Carries(interest) && Possible(interest, e)
      modifies this, channels.Values
      ensures Valid() && Carries(Next(interest, e))
      ensures (e.Remove? ==> e.fd in old(View()).tags) && View() == Step(old(View()), e)
      ensures forall d :: d in channels ==> (d in old(channels) && channels[d] == old(channels)[d]) || fresh(channels[d])
    {
      match e
      case Update(fd, mask) =>
        if fd in channels {
          ChangeMask(fd, mask, interest);
        } else {
          NewChannel(fd, mask, interest);
        }
      case Remove(fd) => RemoveChannel(channels[fd]);
    }

    /** Any run of updates and removals, disciplined or not. */
    method Schedule(es: seq<Event>)
      requires Valid() && channels == map[] && View() == Init() && WellFormed(map[], es)
      modifies this
      ensures Valid() && View() == RunTo(Init(), map[], es) && !fatal && !logged
    {
      ghost var interest: Interest := map[];
      var i := 0;
      while i < |es|
        invariant 0 <= i <= |es|
        invariant Valid() && Carries(interest) && Inv(View(), interest)
        invariant forall d :: d in channels ==> fresh(channels[d])
        invariant WellFormed(interest, es[i..])
        invariant RunTo(View(), interest, es[i..]) == RunTo(Init(), map[], es)
      {
        assert es[i..][1..] == es[i + 1..];
        StepKeepsInv(View(), interest, es[i]);
        Perform(es[i], interest);
        interest := Next(interest, es[i]);
        i := i + 1;
      }
    }
  }
}
