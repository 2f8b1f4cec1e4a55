/**
 The poll(2) back end, muduo-cpp11/net/poller/poll_poller.cpp: a dense array of slots, removal by swapping with
 the last slot, and the encoding -fd-1 for a slot that poll must ignore.
 */
module PollPollers {
  import opened Interests

  datatype PollFd = PollFd(fd: int, events: Mask)

  /** The slots, and for every registered descriptor the index stored in its channel. */
  datatype State = State(slots: seq<PollFd>, index: map<Fd, int>)

  function Init(): State { State([], map[]) }

  function Ignored(fd: Fd): int { -1 - fd }

  /** The descriptor a slot belongs to, ignored or not. */
  function Owner(slot: int): Fd { if slot < 0 then -slot - 1 else slot }

  /** One-to-one: each descriptor points at a slot of its own, each slot is pointed at by its owner. */
  predicate Bijection(s: State) {
    && (forall fd :: fd in s.index ==> 0 <= s.index[fd] < |s.slots| && Owner(s.slots[s.index[fd]].fd) == fd)
    && (forall i :: 0 <= i < |s.slots| ==> Owner(s.slots[i].fd) in s.index && s.index[Owner(s.slots[i].fd)] == i)
  }

  function UpdateStep(s: State, fd: Fd, mask: Mask): State
    requires Bijection(s)
  {
    if fd !in s.index then
      State(s.slots + [PollFd(fd, mask)], s.index[fd := |s.slots|])
    else
      var i := s.index[fd];
      var slot := if mask.Empty() then Ignored(fd) else s.slots[i].fd;
      s.(slots := s.slots[i := PollFd(slot, mask)])
  }

  function RemoveStep(s: State, fd: Fd): State
    requires Bijection(s) && fd in s.index
  {
    var i, last := s.index[fd], |s.slots| - 1;
    if i == last then State(s.slots[..last], s.index - {fd})
    else
      var moved := s.slots[last];
      State(s.slots[i := moved][..last], (s.index - {fd})[Owner(moved.fd) := i])
  }

  function Step(s: State, e: Event): State
    requires Bijection(s) && (e.Remove? ==> e.fd in s.index)
  {
    match e
    case Update(fd, mask) => UpdateStep(s, fd, mask)
    case Remove(fd) => RemoveStep(s, fd)
  }

  lemma UpdateKeepsBijection(s: State, fd: Fd, mask: Mask)
    requires Bijection(s)
    ensures Bijection(UpdateStep(s, fd, mask))
  {
  }

  /** The descriptor found in the last slot is registered, and is not the one removed. */
  lemma MovedIsLive(s: State, fd: Fd)
    requires Bijection(s) && fd in s.index && s.index[fd] != |s.slots| - 1
    ensures var moved := Owner(s.slots[|s.slots| - 1].fd);
            moved in s.index && moved != fd
  {
  }

  lemma RemoveKeepsBijection(s: State, fd: Fd)
    requires Bijection(s) && fd in s.index
    ensures Bijection(RemoveStep(s, fd))
  {
    var last := |s.slots| - 1;
    var t := RemoveStep(s, fd);
    if s.index[fd] != last {
      MovedIsLive(s, fd);
      var moved := Owner(s.slots[last].fd);
      forall d | d in t.index
        ensures 0 <= t.index[d] < |t.slots| && Owner(t.slots[t.index[d]].fd) == d
      {
        if d != moved {
          assert s.index[d] != last && s.index[d] != s.index[fd];
        }
      }
    } else {
      forall d | d in t.index
        ensures 0 <= t.index[d] < |t.slots| && Owner(t.slots[t.index[d]].fd) == d
      {
        assert s.index[d] != last;
      }
    }
  }

  // ---------------------------------------------------------------- what poll(2) is shown

  /** The descriptors poll watches and their masks: slots that are not ignored. */
  function Exposed(s: State): Interest
    requires Bijection(s)
  {
    map fd | fd in s.index && s.slots[s.index[fd]].fd >= 0 :: s.slots[s.index[fd]].events
  }

  /** Slots always carry the current mask of their channel. */
  predicate Tracks(s: State, interest: Interest)
    requires Bijection(s)
  {
    && s.index.Keys == interest.Keys
    && forall fd :: fd in interest ==> s.slots[s.index[fd]].events == interest[fd]
  }

  /**
   What keeps poll right: a first update with something to watch, and no new interest for a channel that was
   emptied, because its slot keeps the ignored descriptor.
   */
  predicate Guard(interest: Interest, e: Event) {
    e.Update? ==>
      if e.fd in interest then !interest[e.fd].Empty() || e.mask.Empty() else !e.mask.Empty()
  }

  lemma UpdateKeeps(s: State, interest: Interest, fd: Fd, mask: Mask)
    requires Bijection(s) && Tracks(s, interest)
    ensures Bijection(UpdateStep(s, fd, mask)) && Tracks(UpdateStep(s, fd, mask), interest[fd := mask])
  {
    UpdateKeepsBijection(s, fd, mask);
  }

  lemma RemoveKeeps(s: State, interest: Interest, fd: Fd)
    requires Bijection(s) && Tracks(s, interest) && fd in interest
    ensures Bijection(RemoveStep(s, fd)) && Tracks(RemoveStep(s, fd), interest - {fd})
  {
    RemoveKeepsBijection(s, fd);
    var t := RemoveStep(s, fd);
    forall d | d in interest - {fd}
      ensures t.slots[t.index[d]].events == interest[d]
    {
      assert s.slots[s.index[d]].events == interest[d];
    }
  }

  lemma StepKeeps(s: State, interest: Interest, e: Event)
    requires Bijection(s) && Tracks(s, interest) && Possible(interest, e)
    ensures Bijection(Step(s, e)) && Tracks(Step(s, e), Next(interest, e))
  {
    match e
    case Update(fd, mask) => UpdateKeeps(s, interest, fd, mask);
    case Remove(fd) => RemoveKeeps(s, interest, fd);
  }

  /** Two maps that agree everywhere but at fd, and give it the same mask if they both have it. */
  lemma EqualIffAt(a: Interest, b: Interest, fd: Fd, mask: Mask)
    requires forall d :: d != fd ==> (d in a <==> d in b) && (d in a ==> a[d] == b[d])
    requires (fd in a ==> a[fd] == mask) && (fd in b ==> b[fd] == mask)
    ensures a == b <==> (fd in a <==> fd in b)
  {
    if fd in a <==> fd in b {
      assert forall d :: (d in a <==> d in b) && (d in a ==> a[d] == b[d]);
    }
  }

  lemma RemoveShows(s: State, interest: Interest, fd: Fd, d: Fd)
    requires Bijection(s) && Tracks(s, interest) && Possible(interest, Remove(fd))
    requires Exposed(s) == Wanted(interest)
    ensures Bijection(RemoveStep(s, fd))
    ensures var shown, want := Exposed(RemoveStep(s, fd)), Wanted(interest - {fd});
            (d in shown <==> d in want) && (d in shown ==> shown[d] == want[d])
  {
    RemoveKeepsBijection(s, fd);
    var t := RemoveStep(s, fd);
    assert d in Exposed(s) <==> d in Wanted(interest);
    if d in t.index {
      assert t.slots[t.index[d]] == s.slots[s.index[d]];
    }
  }

  /** After a removal the other slots show what they showed. */
  lemma RemoveExposes(s: State, interest: Interest, fd: Fd)
    requires Bijection(s) && Tracks(s, interest) && Possible(interest, Remove(fd))
    requires Exposed(s) == Wanted(interest)
    ensures Bijection(RemoveStep(s, fd)) && Exposed(RemoveStep(s, fd)) == Wanted(interest - {fd})
  {
    RemoveKeepsBijection(s, fd);
    var shown, want := Exposed(RemoveStep(s, fd)), Wanted(interest - {fd});
    forall d
      ensures (d in shown <==> d in want) && (d in shown ==> shown[d] == want[d])
    {
      RemoveShows(s, interest, fd, d);
    }
    EqualIffAt(shown, want, fd, NONE);
  }

  /** An update changes nothing for the other descriptors. */
  lemma UpdateLeavesOthers(s: State, interest: Interest, fd: Fd, mask: Mask)
    requires Bijection(s) && Tracks(s, interest) && Exposed(s) == Wanted(interest)
    ensures Bijection(UpdateStep(s, fd, mask))
    ensures var shown, want := Exposed(UpdateStep(s, fd, mask)), Wanted(interest[fd := mask]);
            forall d :: d != fd ==> (d in shown <==> d in want) && (d in shown ==> shown[d] == want[d])
  {
    UpdateKeepsBijection(s, fd, mask);
    var t := UpdateStep(s, fd, mask);
    var shown, want := Exposed(t), Wanted(interest[fd := mask]);
    forall d | d != fd
      ensures (d in shown <==> d in want) && (d in shown ==> shown[d] == want[d])
    {
      assert d in Exposed(s) <==> d in Wanted(interest);
      if d in s.index {
        assert t.slots[t.index[d]] == s.slots[s.index[d]];
      }
    }
  }

  /** For the descriptor itself, what is shown and what is wanted. */
  lemma UpdateShows(s: State, interest: Interest, fd: Fd, mask: Mask)
    requires Bijection(s) && Tracks(s, interest) && Exposed(s) == Wanted(interest)
    ensures Bijection(UpdateStep(s, fd, mask))
    ensures var shown, want := Exposed(UpdateStep(s, fd, mask)), Wanted(interest[fd := mask]);
            && ((fd in shown <==> fd in want) <==> Guard(interest, Update(fd, mask)))
            && (fd in shown ==> shown[fd] == mask) && (fd in want ==> want[fd] == mask)
  {
    UpdateKeepsBijection(s, fd, mask);
    assert fd in Exposed(s) <==> fd in Wanted(interest);
  }

  /** One update keeps poll right exactly when the guard holds. */
  lemma UpdateExposesIff(s: State, interest: Interest, fd: Fd, mask: Mask)
    requires Bijection(s) && Tracks(s, interest) && Exposed(s) == Wanted(interest)
    ensures Bijection(UpdateStep(s, fd, mask))
    ensures Exposed(UpdateStep(s, fd, mask)) == Wanted(interest[fd := mask]) <==> Guard(interest, Update(fd, mask))
  {
    UpdateLeavesOthers(s, interest, fd, mask);
    UpdateShows(s, interest, fd, mask);
    EqualIffAt(Exposed(UpdateStep(s, fd, mask)), Wanted(interest[fd := mask]), fd, mask);
  }

  /** A possible removal meets the assertion that RemoveChannel makes about its slot, as long as poll is right. */
  lemma RemovalIsIgnored(s: State, interest: Interest, fd: Fd)
    requires Bijection(s) && Tracks(s, interest) && Exposed(s) == Wanted(interest)
    requires Possible(interest, Remove(fd))
    ensures s.slots[s.index[fd]] == PollFd(Ignored(fd), NONE)
  {
    assert fd !in Wanted(interest);
    assert fd !in Exposed(s);
  }

  /** In every state of the run, poll watches exactly what is wanted. */
  predicate Correct(s: State, interest: Interest, es: seq<Event>)
    requires Bijection(s) && Tracks(s, interest) && WellFormed(interest, es)
    decreases |es|
  {
    && Exposed(s) == Wanted(interest)
    && (es != [] ==>
          (StepKeeps(s, interest, es[0]); Correct(Step(s, es[0]), Next(interest, es[0]), es[1..])))
  }

  predicate Guarded(interest: Interest, es: seq<Event>)
    decreases |es|
  {
    es != [] ==> Guard(interest, es[0]) && Guarded(Next(interest, es[0]), es[1..])
  }

  lemma {:induction false} CorrectIffGuarded(s: State, interest: Interest, es: seq<Event>)
    requires Bijection(s) && Tracks(s, interest) && WellFormed(interest, es)
    requires Exposed(s) == Wanted(interest)
    ensures Correct(s, interest, es) <==> Guarded(interest, es)
    decreases |es|
  {
    if es == [] {
    } else {
      var e := es[0];
      StepKeeps(s, interest, e);
      match e {
        case Update(fd, mask) => UpdateExposesIff(s, interest, fd, mask);
        case Remove(fd) => RemoveExposes(s, interest, fd);
      }
      if Guard(interest, e) {
        CorrectIffGuarded(Step(s, e), Next(interest, e), es[1..]);
      }
    }
  }

  /** Poll is right: it tracks the masks and watches exactly what is wanted. */
  predicate Right(s: State, interest: Interest)
    requires Bijection(s)
  {
    Tracks(s, interest) && Exposed(s) == Wanted(interest)
  }

  lemma StepKeepsRight(s: State, interest: Interest, e: Event)
    requires Bijection(s) && Right(s, interest) && Possible(interest, e) && Guard(interest, e)
    ensures Bijection(Step(s, e)) && Right(Step(s, e), Next(interest, e))
  {
    StepKeeps(s, interest, e);
    match e
    case Update(fd, mask) => UpdateExposesIff(s, interest, fd, mask);
    case Remove(fd) => RemoveExposes(s, interest, fd);
  }

  ghost function RunTo(s: State, interest: Interest, es: seq<Event>): State
    requires Bijection(s) && Tracks(s, interest) && WellFormed(interest, es)
    decreases |es|
  {
    if es == [] then s
    else StepKeeps(s, interest, es[0]); RunTo(Step(s, es[0]), Next(interest, es[0]), es[1..])
  }

  /** Over every run: poll watches exactly the non-empty interests throughout if and only if every step is guarded. */
  lemma PollAgreesIff(es: seq<Event>)
    requires WellFormed(map[], es)
    ensures Bijection(Init()) && Tracks(Init(), map[])
    ensures Correct(Init(), map[], es) <==> Guarded(map[], es)
  {
    CorrectIffGuarded(Init(), map[], es);
  }

  // ---------------------------------------------------------------- the poller object

  function CountActive(revents: seq<nat>): nat {
    if revents == [] then 0 else (if revents[0] > 0 then 1 else 0) + CountActive(revents[1..])
  }

  /** The active slots in slot order, with what poll reported. */
  function ActiveFrom(slots: seq<PollFd>, revents: seq<nat>, i: nat): seq<(int, nat)>
    requires i <= |slots| == |revents|
    decreases |slots| - i
  {
    if i == |slots| then []
    else (if revents[i] > 0 then [(slots[i].fd, revents[i])] else []) + ActiveFrom(slots, revents, i + 1)
  }

  lemma {:induction false} NoneActive(slots: seq<PollFd>, revents: seq<nat>, i: nat)
    requires i <= |slots| == |revents|
    requires CountActive(revents[i..]) == 0
    ensures ActiveFrom(slots, revents, i) == []
    decreases |slots| - i
  {
    if i < |slots| {
      assert revents[i..][1..] == revents[i + 1..];
      NoneActive(slots, revents, i + 1);
    }
  }

  lemma AdvanceSlot(slots: seq<PollFd>, revents: seq<nat>, i: nat, done: seq<(int, nat)>)
    requires i < |slots| == |revents|
    ensures CountActive(revents[i..]) == (if revents[i] > 0 then 1 else 0) + CountActive(revents[i + 1..])
    ensures revents[i] == 0 ==> ActiveFrom(slots, revents, i) == ActiveFrom(slots, revents, i + 1)
    ensures revents[i] > 0 ==>
              (done + ActiveFrom(slots, revents, i)
               == done + [(slots[i].fd, revents[i])] + ActiveFrom(slots, revents, i + 1))
  {
    assert revents[i..][1..] == revents[i + 1..];
  }

  /** The report names every active slot and no other, with what poll reported for it, as often as there are. */
  lemma {:induction false} ActiveMeaning(slots: seq<PollFd>, revents: seq<nat>, i: nat)
    requires i <= |slots| == |revents|
    ensures |ActiveFrom(slots, revents, i)| == CountActive(revents[i..])
    ensures forall j :: i <= j < |slots| && revents[j] > 0 ==> (slots[j].fd, revents[j]) in ActiveFrom(slots, revents, i)
    ensures forall x :: x in ActiveFrom(slots, revents, i) ==>
              exists j :: i <= j < |slots| && revents[j] > 0 && x == (slots[j].fd, revents[j])
    decreases |slots| - i
  {
    if i == |slots| {
    } else {
      assert revents[i..][1..] == revents[i + 1..];
      ActiveMeaning(slots, revents, i + 1);
    }
  }

  /** What a list of active channels says: descriptor and reported events. */
  ghost function Report(active: seq<(Channel, nat)>): seq<(int, nat)> {
    if active == [] then [] else Report(active[..|active| - 1]) + [(active[|active| - 1].0.fd, active[|active| - 1].1)]
  }

  lemma ReportAppend(active: seq<(Channel, nat)>, ch: Channel, r: nat)
    ensures Report(active + [(ch, r)]) == Report(active) + [(ch.fd, r)]
  {
    assert (active + [(ch, r)])[..|active|] == active;
  }

  class PollPoller {
    var pollfds: seq<PollFd>
    var channels: map<Fd, Channel>

    ghost function View(): State
      reads this, channels.Values
    {
      State(pollfds, map fd | fd in channels :: channels[fd].index)
    }

    ghost predicate Valid()
      reads this, channels.Values
    {
      && (forall fd :: fd in channels ==> channels[fd].fd == fd)
      && Bijection(View())
    }

    predicate Registered(ch: Channel)
      reads this
    {
      ch.fd in channels && channels[ch.fd] == ch
    }

    constructor ()
      ensures Valid() && View() == Init() && channels == map[]
    {
      pollfds, channels := [], map[];
    }

    /** The demands of the assertions in UpdateChannel. */
    predicate CanUpdate(ch: Channel)
      reads this, ch
    {
      if ch.index < 0 then ch.fd !in channels else Registered(ch)
    }

    /** A new channel: its slot is appended. */
    method AddSlot(ch: Channel)
      requires Valid() && ch.index < 0 && ch.fd !in channels
      modifies this, ch`index
      ensures Valid() && Registered(ch)
      ensures View() == UpdateStep(old(View()), ch.fd, ch.events)
      ensures channels == old(channels)[ch.fd := ch]
    {
      ghost var before := View();
      UpdateKeepsBijection(before, ch.fd, ch.events);
      pollfds := pollfds + [PollFd(ch.fd, ch.events)];
      ch.index := |pollfds| - 1;
      channels := channels[ch.fd := ch];
      assert View().index == before.index[ch.fd := |pollfds| - 1];
    }

    /** A registered channel: its slot takes the new mask, and is ignored if that is empty. */
    method ChangeSlot(ch: Channel)
      requires Valid() && Registered(ch)
      modifies this`pollfds
      ensures Valid() && View() == UpdateStep(old(View()), ch.fd, ch.events)
    {
      ghost var before := View();
      UpdateKeepsBijection(before, ch.fd, ch.events);
      var idx := ch.index;
      assert before.index[ch.fd] == idx;
      assert pollfds[idx].fd == ch.fd || pollfds[idx].fd == Ignored(ch.fd);
      pollfds := pollfds[idx := PollFd(pollfds[idx].fd, ch.events)];
      if ch.IsNoneEvent() {
        pollfds := pollfds[idx := PollFd(Ignored(ch.fd), ch.events)];
      }
      assert View().index == before.index;
    }

    method UpdateChannel(ch: Channel)
      requires Valid() && CanUpdate(ch)
      modifies this, ch`index
      ensures Valid() && Registered(ch)
      ensures View() == UpdateStep(old(View()), ch.fd, ch.events)
      ensures channels == old(channels)[ch.fd := ch]
    {
      if ch.index < 0 {
        AddSlot(ch);
      } else {
        ChangeSlot(ch);
        assert channels == channels[ch.fd := ch];
      }
    }

    /** channels_.erase. */
    method Forget(fd: Fd)
      modifies this`channels
      ensures channels == old(channels) - {fd}
      ensures View() == old(View()).(index := old(View()).index - {fd})
    {
      channels := channels - {fd};
      assert View().index == old(View()).index - {fd};
    }

    method Reindex(moved: Channel, idx: nat)
      requires Registered(moved) && forall fd :: fd in channels ==> channels[fd].fd == fd
      modifies moved`index
      ensures View() == old(View()).(index := old(View()).index[moved.fd := idx])
    {
      moved.index := idx;
      assert View().index == old(View()).index[moved.fd := idx];
    }

    /** iter_swap with the last slot, and pop_back; returns the descriptor that moved. */
    method SwapPop(idx: nat) returns (channelAtEnd: int)
      requires idx < |pollfds| - 1
      modifies this`pollfds
      ensures var s, last := old(View()), |old(pollfds)| - 1;
              View() == s.(slots := s.slots[idx := s.slots[last]][..last]) && channelAtEnd == Owner(s.slots[last].fd)
    {
      channelAtEnd := pollfds[|pollfds| - 1].fd;
      pollfds := pollfds[idx := pollfds[|pollfds| - 1]][|pollfds| - 1 := pollfds[idx]];
      if channelAtEnd < 0 {
        channelAtEnd := -channelAtEnd - 1;
      }
      pollfds := pollfds[..|pollfds| - 1];
    }

    /** The last slot goes. */
    method PopSlot(ch: Channel)
      requires Valid() && Registered(ch) && ch.index == |pollfds| - 1
      modifies this
      ensures Valid() && View() == RemoveStep(old(View()), ch.fd)
      ensures channels == old(channels) - {ch.fd}
    {
      RemoveKeepsBijection(View(), ch.fd);
      assert View().index[ch.fd] == ch.index;
      Forget(ch.fd);
      pollfds := pollfds[..|pollfds| - 1];
    }

    /** The last slot takes the place of the one removed, and its channel learns its new index. */
    method SwapSlot(ch: Channel)
      requires Valid() && Registered(ch) && 0 <= ch.index < |pollfds| - 1
      modifies this, (channels.Values)`index
      ensures Valid() && View() == RemoveStep(old(View()), ch.fd)
      ensures channels == old(channels) - {ch.fd} && ch.index == old(ch.index)
    {
      ghost var before := View();
      RemoveKeepsBijection(before, ch.fd);
      assert before.index[ch.fd] == ch.index;
      MovedIsLive(before, ch.fd);
      Forget(ch.fd);
      var channelAtEnd := SwapPop(ch.index);
      assert channelAtEnd in channels;
      Reindex(channels[channelAtEnd], ch.index);
    }

    /** RemoveChannel; the index of the removed channel is left behind, so that channel cannot be used again. */
    method RemoveChannel(ch: Channel)
      requires Valid() && Registered(ch) && ch.IsNoneEvent()
      requires 0 <= ch.index < |pollfds| ==> pollfds[ch.index] == PollFd(Ignored(ch.fd), NONE)
      modifies this, (channels.Values)`index
      ensures Valid() && View() == RemoveStep(old(View()), ch.fd)
      ensures channels == old(channels) - {ch.fd}
      ensures ch.index == old(ch.index) >= 0 && !CanUpdate(ch)
    {
      assert View().index[ch.fd] == ch.index;
      assert 0 <= ch.index < |pollfds|;
      if ch.index == |pollfds| - 1 {
        PopSlot(ch);
      } else {
        SwapSlot(ch);
      }
    }

    /** The registered channels carry the given masks. */
    ghost predicate Carries(interest: Interest)
      reads this, channels.Values
    {
      channels.Keys == interest.Keys && forall fd :: fd in channels ==> channels[fd].events == interest[fd]
    }

    /** A registered channel takes another mask and updates itself. */
    method ChangeMask(fd: Fd, mask: Mask, ghost interest: Interest)
      requires Valid() && Carries(interest) && fd in channels
      modifies this`pollfds, (channels[fd] as Channel)`events
      ensures Valid() && Carries(interest[fd := mask]) && View() == UpdateStep(old(View()), fd, mask)
    {
      channels[fd].events := mask;
      assert View() == old(View());
      ChangeSlot(channels[fd]);
    }

    /** A new channel takes its first mask and updates itself. */
    method NewChannel(fd: Fd, mask: Mask, ghost interest: Interest)
      requires Valid() && Carries(interest) && fd !in channels
      modifies this
      ensures Valid() && Carries(interest[fd := mask]) && View() == UpdateStep(old(View()), fd, mask)
      ensures fd in channels && fresh(channels[fd]) && channels == old(channels)[fd := channels[fd]]
    {
      var ch := new Channel(fd);
      ch.events := mask;
      assert View() == old(View());
      AddSlot(ch);
      assert channels == old(channels)[fd := ch];
    }

    method DropChannel(fd: Fd, ghost interest: Interest)
      requires Valid() && Carries(interest) && Right(View(), interest) && Possible(interest, Remove(fd))
      modifies this, channels.Values
      ensures Valid() && Carries(interest - {fd}) && View() == RemoveStep(old(View()), fd)
      ensures channels == old(channels) - {fd}
    {
      RemovalIsIgnored(View(), interest, fd);
      var ch := channels[fd];
      assert View().index[fd] == ch.index;
      RemoveChannel(ch);
    }

    method Perform(e: Event, ghost interest: Interest)
      requires Valid() && Carries(interest) && Right(View(), interest) && Possible(interest, e)
      modifies this, channels.Values
      ensures Valid() && Carries(Next(interest, e)) && View() == Step(old(View()), e)
      ensures forall d :: d in channels ==> (d in old(channels) && channels[d] == old(channels)[d]) || fresh(channels[d])
    {
      match e
      case Update(fd, mask) =>
        if fd in channels {
          ChangeMask(fd, mask, interest);
        } else {
          NewChannel(fd, mask, interest);
        }
      case Remove(fd) => DropChannel(fd, interest);
    }

    /** Any guarded run of updates and removals meets the assertions of the source, and poll stays right. */
    method Schedule(es: seq<Event>)
      requires Valid() && channels == map[] && View() == Init()
      requires WellFormed(map[], es) && Guarded(map[], es)
      modifies this
      ensures Valid() && View() == RunTo(Init(), map[], es)
    {
      ghost var interest: Interest := map[];
      var i := 0;
      while i < |es|
        invariant 0 <= i <= |es|
        invariant Valid() && Carries(interest) && Right(View(), interest)
        invariant forall d :: d in channels ==> fresh(channels[d])
        invariant WellFormed(interest, es[i..]) && Guarded(interest, es[i..])
        invariant RunTo(View(), interest, es[i..]) == RunTo(Init(), map[], es)
      {
        assert es[i..][1..] == es[i + 1..];
        StepKeepsRight(View(), interest, es[i]);
        Perform(es[i], interest);
        interest := Next(interest, es[i]);
        i := i + 1;
      }
    }

    /** The lookup of a watched slot finds a live channel. */
    function ChannelOf(i: nat): (ch: Channel)
      requires Valid() && i < |pollfds| && pollfds[i].fd >= 0
      reads this, channels.Values
      ensures Registered(ch) && ch.fd == pollfds[i].fd
    {
      assert Owner(pollfds[i].fd) in View().index;
      channels[pollfds[i].fd]
    }

    ghost predicate AllRegistered(active: seq<(Channel, nat)>)
      reads this
    {
      forall x :: x in active ==> Registered(x.0)
    }

    /** One active slot: its channel, with what poll reported, goes to the end of the list. */
    method PushActive(i: nat, r: nat, active: seq<(Channel, nat)>) returns (more: seq<(Channel, nat)>)
      requires Valid() && i < |pollfds| && pollfds[i].fd >= 0 && AllRegistered(active)
      ensures Report(more) == Report(active) + [(pollfds[i].fd, r)] && AllRegistered(more)
    {
      var ch := ChannelOf(i);
      ReportAppend(active, ch, r);
      more := active + [(ch, r)];
    }

    /** What has been reported before slot i, and what is left to find. */
    ghost predicate Reported(i: nat, left: nat, revents: seq<nat>, active: seq<(Channel, nat)>)
      reads this
      requires |revents| == |pollfds|
    {
      && i <= |pollfds| && left == CountActive(revents[i..])
      && Report(active) + ActiveFrom(pollfds, revents, i) == ActiveFrom(pollfds, revents, 0)
      && AllRegistered(active)
    }

    /** One turn of the loop of FillActiveChannels. */
    method VisitSlot(i: nat, left: nat, revents: seq<nat>, active: seq<(Channel, nat)>)
      returns (stillLeft: nat, more: seq<(Channel, nat)>)
      requires Valid() && |revents| == |pollfds| && i < |pollfds| && left > 0
      requires revents[i] > 0 ==> pollfds[i].fd >= 0
      requires Reported(i, left, revents, active)
      ensures Reported(i + 1, stillLeft, revents, more)
    {
      AdvanceSlot(pollfds, revents, i, Report(active));
      stillLeft, more := left, active;
      if revents[i] > 0 {
        stillLeft := left - 1;
        more := PushActive(i, revents[i], active);
      }
    }

    /** FillActiveChannels: stops after numEvents hits, and by then has met every active slot. */
    method FillActiveChannels(numEvents: nat, revents: seq<nat>) returns (active: seq<(Channel, nat)>)
      requires Valid() && |revents| == |pollfds| && numEvents == CountActive(revents)
      requires forall i :: 0 <= i < |revents| && revents[i] > 0 ==> pollfds[i].fd >= 0
      ensures Report(active) == ActiveFrom(pollfds, revents, 0)
      ensures forall x :: x in active ==> Registered(x.0)
    {
      var left, i := numEvents, 0;
      active := [];
      assert revents[0..] == revents;
      while i < |pollfds| && left > 0
        invariant Reported(i, left, revents, active)
      {
        left, active := VisitSlot(i, left, revents, active);
        i := i + 1;
      }
      if left == 0 {
        NoneActive(pollfds, revents, i);
      }
    }
  }
}
