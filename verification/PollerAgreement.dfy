/** Both pollers, driven by the same updates: when they agree, and that nothing weaker suffices. */
module PollerAgreement {
  import opened Interests
  import P = PollPollers
  import E = EPollPollers

  /**
   The discipline of the library: register with a non-empty interest, change among non-empty interests, empty
   it once, then only remove.
   */
  predicate Disciplined(interest: Interest, es: seq<Event>)
    decreases |es|
  {
    es != [] ==>
      && (es[0].Update? ==> if es[0].fd in interest then !interest[es[0].fd].Empty() else !es[0].mask.Empty())
      && Disciplined(Next(interest, es[0]), es[1..])
  }

  /** The discipline is the conjunction of what each poller needs. */
  lemma {:induction false} DisciplineIsBothGuards(interest: Interest, es: seq<Event>)
    ensures Disciplined(interest, es) <==> P.Guarded(interest, es) && E.Guarded(interest, es)
    decreases |es|
  {
    if es == [] {
    } else {
      DisciplineIsBothGuards(Next(interest, es[0]), es[1..]);
    }
  }

  /** In every state of the run both pollers watch the same map: the non-empty interests. */
  predicate Agree(p: P.State, e: E.State, interest: Interest, es: seq<Event>)
    requires P.Bijection(p) && P.Tracks(p, interest) && E.Inv(e, interest) && WellFormed(interest, es)
    decreases |es|
  {
    && P.Exposed(p) == e.kernel == Wanted(interest)
    && (es != [] ==>
          (P.StepKeeps(p, interest, es[0]);
           E.StepKeepsInv(e, interest, es[0]);
           Agree(P.Step(p, es[0]), E.Step(e, es[0]), Next(interest, es[0]), es[1..])))
  }

  lemma {:induction false} AgreeIsBothCorrect(p: P.State, e: E.State, interest: Interest, es: seq<Event>)
    requires P.Bijection(p) && P.Tracks(p, interest) && E.Inv(e, interest) && WellFormed(interest, es)
    ensures Agree(p, e, interest, es) <==> P.Correct(p, interest, es) && E.Correct(e, interest, es)
    decreases |es|
  {
    if es == [] {
    } else {
      P.StepKeeps(p, interest, es[0]);
      E.StepKeepsInv(e, interest, es[0]);
      AgreeIsBothCorrect(P.Step(p, es[0]), E.Step(e, es[0]), Next(interest, es[0]), es[1..]);
    }
  }

  /** Over every run, both pollers expose exactly the non-empty interests throughout if and only if the run is disciplined. */
  lemma AgreementIff(es: seq<Event>)
    requires WellFormed(map[], es)
    ensures P.Bijection(P.Init()) && P.Tracks(P.Init(), map[]) && E.Inv(E.Init(), map[])
    ensures Agree(P.Init(), E.Init(), map[], es) <==> Disciplined(map[], es)
  {
    P.PollAgreesIff(es);
    E.EPollAgreesIff(es);
    AgreeIsBothCorrect(P.Init(), E.Init(), map[], es);
    DisciplineIsBothGuards(map[], es);
  }

  /** The guards along a run of three updates. */
  lemma ThreeUpdates(a: Event, b: Event, c: Event)
    requires a.Update? && b.Update? && c.Update?
    ensures var i1 := Next(map[], a);
            var i2 := Next(i1, b);
            && WellFormed(map[], [a, b, c])
            && (P.Guarded(map[], [a, b, c]) <==> P.Guard(map[], a) && P.Guard(i1, b) && P.Guard(i2, c))
            && (E.Guarded(map[], [a, b, c]) <==> E.Guard(map[], a) && E.Guard(i1, b) && E.Guard(i2, c))
  {
    var i1 := Next(map[], a);
    var i2 := Next(i1, b);
    assert [a, b, c][1..] == [b, c] && [b, c][1..] == [c] && [c][1..] == [];
    assert P.Guarded(i2, [c]) <==> P.Guard(i2, c) && P.Guarded(Next(i2, c), []);
    assert E.Guarded(i2, [c]) <==> E.Guard(i2, c) && E.Guarded(Next(i2, c), []);
    assert WellFormed(i2, [c]) && WellFormed(i1, [b, c]);
  }

  /** Re-enabling an emptied channel: poll goes on ignoring it, epoll does not. */
  lemma ReenabledChannel(fd: Fd)
    ensures var r := Mask(true, false);
            var es := [Update(fd, r), Update(fd, NONE), Update(fd, r)];
            && WellFormed(map[], es) && P.Tracks(P.Init(), map[])
            && !P.Correct(P.Init(), map[], es) && E.Correct(E.Init(), map[], es)
  {
    var r := Mask(true, false);
    var es := [Update(fd, r), Update(fd, NONE), Update(fd, r)];
    ThreeUpdates(es[0], es[1], es[2]);
    P.PollAgreesIff(es);
    E.EPollAgreesIff(es);
  }

  /** Emptying a channel twice: epoll adds it back with an empty mask, poll does not. */
  lemma EmptiedTwice(fd: Fd)
    ensures var es := [Update(fd, Mask(true, false)), Update(fd, NONE), Update(fd, NONE)];
            && WellFormed(map[], es) && P.Tracks(P.Init(), map[])
            && P.Correct(P.Init(), map[], es) && !E.Correct(E.Init(), map[], es)
  {
    var es := [Update(fd, Mask(true, false)), Update(fd, NONE), Update(fd, NONE)];
    ThreeUpdates(es[0], es[1], es[2]);
    P.PollAgreesIff(es);
    E.EPollAgreesIff(es);
  }
}
