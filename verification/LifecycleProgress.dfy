/**
 What becomes of connections, muduo-cpp11/net/tcp_server.cpp, tcp_connection.cpp, channel.cpp: when a dispatch and a
 forced close close a connection, and that every queued functor gets its turn, so that every close is completed.
 */
module LifecycleProgress {
  import opened ConnectionNames
  import opened Lifecycle

  // ---------------------------------------------------------------- when a dispatch closes

  /**
   In every reachable state a dispatch closes its connection exactly as often as the source calls HandleClose: once for
   a hangup without input, and once for readable input, urgent data or a peer's half-close that reads end of file.
   */
  lemma {:induction false} DispatchCloses(server: string, hostport: string, es: seq<Event>, c: ConnId, r: Revents, read: ReadResult)
    requires Legal(Init(server, hostport), es) && SingleCloses(es)
    requires Enabled(Run(Init(server, hostport), es), Dispatch(c, r, read))
    ensures var t := Step(Run(Init(server, hostport), es), Dispatch(c, r, read));
            && c in t.conns
            && t.conns[c].closed == (if r.hup && !r.in_ then 1 else 0)
                                    + (if (r.in_ || r.pri || r.rdhup) && read == ReadEof then 1 else 0)
  {
    RunKeepsInv(Init(server, hostport), es);
    var s := Run(Init(server, hostport), es);
    ActiveIsUp(s, c);
    DispatchCounts(s, c, r, read);
  }

  lemma {:induction false} DispatchCounts(s: State, c: ConnId, r: Revents, read: ReadResult)
    requires Enabled(s, Dispatch(c, r, read))
    ensures var t := DispatchStep(s, c, r, read);
            && c in t.conns
            && t.conns[c].closed == s.conns[c].closed + (if r.hup && !r.in_ then 1 else 0)
                                    + (if (r.in_ || r.pri || r.rdhup) && read == ReadEof then 1 else 0)
  {
    var l := s.conns[c].loop;
    CloseRecord(s.(phases := s.phases[l := Dispatching(PhaseOf(s, l).active - {c})]), c);
    CloseRecord(BeforeRead(s, c, r), c);
  }

  /** The peer closes: input is readable, and reading it finds the end of the stream. */
  function PeerCloses(): Event { Dispatch(1, Revents(false, true, false, false), ReadEof) }

  function ClosingRun(): seq<Event> { [PeerCloses(), EndDispatch(0), RunOne(0), EndFunctors(0)] }

  /** HandleClose on the base loop erases the connection at once and queues its destruction. */
  lemma {:induction false} PeerClosesAlone(s: State)
    requires Alone(s)
    ensures Enabled(s, PeerCloses())
    ensures var t := Step(s, PeerCloses());
            && t.asserts && t.table == map[] && Queue(t, 0) == [DestroyedMsg(1)] && PhaseOf(t, 0) == Dispatching({})
            && t.conns == s.conns[1 := Down(s.conns[1]).(erased := 1)]
  {
    var t := s.(phases := s.phases[0 := Dispatching({})]);
    assert {1} - {1} == {};
    CloseRecord(t, 1);
  }

  lemma {:induction false} LastRound(s: State)
    requires PhaseOf(s, 0) == Dispatching({}) && Queue(s, 0) == [DestroyedMsg(1)] && s.asserts
    requires 1 in s.conns && s.conns[1].loop == 0 && s.conns[1].state.Disconnected? && !s.conns[1].registered
    ensures Legal(s, ClosingRun()[1..])
    ensures var t := Run(s, ClosingRun()[1..]);
            t.asserts && t.table == s.table && t.conns == s.conns[1 := s.conns[1].(destroyed := s.conns[1].destroyed + 1)]
  {
    var es := ClosingRun();
    var s7 := Step(s, es[1]);
    var s8 := Step(s7, es[2]);
    assert s8.asserts && PhaseOf(s8, 0) == Functors(0);
    var s9 := Step(s8, es[3]);
    assert es[4..] == [];
    RunFrom(s8, es, 3);
    RunFrom(s7, es, 2);
    RunFrom(s, es, 1);
  }

  /** The ordinary life of a connection, to its end: nothing is left of it in the map. */
  lemma {:induction false} OrdinaryLife(server: string, hostport: string)
    requires |hostport| + 3 < BUF_SIZE
    ensures Legal(Init(server, hostport), AcceptedRun() + ClosingRun())
    ensures var s := Run(Init(server, hostport), AcceptedRun() + ClosingRun());
            && s.asserts && s.table == map[] && 1 in s.conns
            && s.conns[1].established == s.conns[1].closed == s.conns[1].erased == s.conns[1].destroyed == 1
  {
    AcceptedRunEnds(server, hostport);
    var s := Run(Init(server, hostport), AcceptedRun());
    PeerClosesAlone(s);
    LastRound(Step(s, PeerCloses()));
    assert Legal(s, ClosingRun());
    RunConcat(Init(server, hostport), AcceptedRun(), ClosingRun());
  }

  // ---------------------------------------------------------------- what every step leaves

  /** The record of a connection only moves forward. */
  predicate Forward(k: Conn, k': Conn) {
    && k'.name == k.name && k'.loop == k.loop
    && k'.established >= k.established && k'.closed >= k.closed && k'.erased >= k.erased && k'.destroyed >= k.destroyed
  }

  lemma {:induction false} RunMsgForward(s: State, m: Msg, c: ConnId)
    requires m.conn in s.conns && c in s.conns
    ensures c in RunMsg(s, m).conns && Forward(s.conns[c], RunMsg(s, m).conns[c])
  {
    match m
    case ForceCloseMsg(d) => CloseRecord(s, d);
    case _ =>
  }

  lemma {:induction false} DispatchForward(s: State, d: ConnId, r: Revents, read: ReadResult, c: ConnId)
    requires Enabled(s, Dispatch(d, r, read)) && c in s.conns
    ensures c in DispatchStep(s, d, r, read).conns && Forward(s.conns[c], DispatchStep(s, d, r, read).conns[c])
  {
    var l := s.conns[d].loop;
    CloseRecord(s.(phases := s.phases[l := Dispatching(PhaseOf(s, l).active - {d})]), d);
    CloseRecord(BeforeRead(s, d, r), d);
  }

  lemma {:induction false} StepForward(s: State, e: Event, c: ConnId)
    requires Enabled(s, e) && c in s.conns && c < s.nextId
    ensures c in Step(s, e).conns && Forward(s.conns[c], Step(s, e).conns[c])
  {
    match e
    case Accept(l) => AcceptRecord(s, l);
    case Dispatch(d, r, read) => DispatchForward(s, d, r, read, c);
    case RunOne(l) => RunMsgForward(Popped(s, l), Queue(s, l)[0], c);
    case _ =>
  }

  /** A queue loses nothing but its front, and that only when its loop runs it. */
  predicate Continues(q: seq<Msg>, q': seq<Msg>) { q <= q' }

  lemma {:induction false} CloseQueues(s: State, c: ConnId, l: LoopId)
    requires c in s.conns
    ensures Continues(Queue(s, l), Queue(CloseConn(s, c), l))
  {
  }

  lemma {:induction false} DispatchQueues(s: State, c: ConnId, r: Revents, read: ReadResult, l: LoopId)
    requires Enabled(s, Dispatch(c, r, read))
    ensures Continues(Queue(s, l), Queue(DispatchStep(s, c, r, read), l))
  {
    var home := s.conns[c].loop;
    CloseQueues(s.(phases := s.phases[home := Dispatching(PhaseOf(s, home).active - {c})]), c, l);
    CloseQueues(BeforeRead(s, c, r), c, l);
  }

  lemma {:induction false} RunMsgQueues(s: State, m: Msg, l: LoopId)
    requires m.conn in s.conns
    ensures Continues(Queue(s, l), Queue(RunMsg(s, m), l))
  {
    match m
    case ForceCloseMsg(c) => CloseQueues(s, c, l);
    case _ =>
  }

  lemma {:induction false} StepQueues(s: State, e: Event, l: LoopId)
    requires Enabled(s, e)
    ensures Continues(if e == RunOne(l) then Queue(s, l)[1..] else Queue(s, l), Queue(Step(s, e), l))
  {
    match e
    case Dispatch(c, r, read) => DispatchQueues(s, c, r, read, l);
    case RunOne(l') => RunMsgQueues(Popped(s, l'), Queue(s, l')[0], l);
    case _ =>
  }

  // ---------------------------------------------------------------- a forced close closes

  /** c was established, and is closed or has its ForceCloseInLoop waiting. */
  predicate ClosingSoon(s: State, c: ConnId) {
    && c in s.conns && s.conns[c].established > 0
    && (s.conns[c].closed > 0 || ForceCloseMsg(c) in Queue(s, s.conns[c].loop))
  }

  /** ForceCloseInLoop leaves a connection that was established closed. */
  lemma {:induction false} ForceCloseRuns(s: State, l: LoopId, c: ConnId)
    requires Core(s) && Enabled(s, RunOne(l)) && Queue(s, l)[0] == ForceCloseMsg(c) && s.conns[c].established > 0
    ensures c in RunOneStep(s, l).conns && RunOneStep(s, l).conns[c].closed > 0
  {
    assert Account(s.conns, s.queues, c, 0, 0, 0);
    CloseRecord(Popped(s, l), c);
  }

  lemma {:induction false} StepKeepsClosing(s: State, e: Event, c: ConnId)
    requires Core(s) && Enabled(s, e) && ClosingSoon(s, c)
    ensures ClosingSoon(Step(s, e), c)
  {
    var l := s.conns[c].loop;
    StepForward(s, e, c);
    if s.conns[c].closed == 0 {
      if e == RunOne(l) && Queue(s, l)[0] == ForceCloseMsg(c) {
        ForceCloseRuns(s, l, c);
      } else {
        StepQueues(s, e, l);
        StaysQueued(s, e, l, ForceCloseMsg(c));
      }
    }
  }

  lemma {:induction false} StaysQueued(s: State, e: Event, l: LoopId, m: Msg)
    requires Enabled(s, e) && m in Queue(s, l) && (e == RunOne(l) ==> Queue(s, l)[0] != m)
    requires Continues(if e == RunOne(l) then Queue(s, l)[1..] else Queue(s, l), Queue(Step(s, e), l))
    ensures m in Queue(Step(s, e), l)
  {
    var rest := if e == RunOne(l) then Queue(s, l)[1..] else Queue(s, l);
    assert e == RunOne(l) ==> Queue(s, l) == [Queue(s, l)[0]] + rest;
    assert m in rest;
    var i :| 0 <= i < |rest| && rest[i] == m;
    assert Queue(Step(s, e), l)[i] == m;
  }

  lemma {:induction false} RunKeepsClosing(s: State, es: seq<Event>, c: ConnId)
    requires Inv(s) && Legal(s, es) && SingleCloses(es) && ClosingSoon(s, c)
    ensures ClosingSoon(Run(s, es), c)
    decreases |es|
  {
    if es == [] {
    } else {
      StepKeepsInv(s, es[0]);
      StepKeepsClosing(s, es[0], c);
      RunKeepsClosing(Step(s, es[0]), es[1..], c);
    }
  }

  /**
   After ForceClose on a connection that is up, whatever happens, it is closed as soon as its ForceCloseInLoop no longer
   waits in the queue of its loop.
   */
  lemma {:induction false} ForceCloseCloses(s: State, c: ConnId, es: seq<Event>)
    requires Inv(s) && c in s.conns && (s.conns[c].state.Connected? || s.conns[c].state.Disconnecting?)
    requires Legal(Step(s, ForceClose(c)), es) && SingleCloses(es)
    ensures var t := Run(Step(s, ForceClose(c)), es);
            c in t.conns && (ForceCloseMsg(c) !in Queue(t, t.conns[c].loop) ==> t.conns[c].closed == 1)
  {
    assert Account(s.conns, s.queues, c, 0, 0, 0);
    var u := Step(s, ForceClose(c));
    StepKeepsInv(s, ForceClose(c));
    assert ForceCloseMsg(c) in Queue(u, u.conns[c].loop);
    RunKeepsClosing(u, es, c);
    RunKeepsInv(u, es);
    ClosedOnce(Run(u, es), c);
  }

  lemma {:induction false} ClosedOnce(s: State, c: ConnId)
    requires Core(s) && c in s.conns
    ensures s.conns[c].closed <= 1 && s.conns[c].erased <= 1 && s.conns[c].destroyed <= 1
    ensures s.conns[c].destroyed > 0 ==> s.conns[c].erased > 0
    ensures s.conns[c].erased > 0 ==> !(s.conns[c].name in s.table && s.table[s.conns[c].name] == c)
  {
    assert Account(s.conns, s.queues, c, 0, 0, 0);
  }

  // ---------------------------------------------------------------- every functor gets its turn

  /** What the loops do by themselves: nothing is accepted, called or received. */
  predicate IsQuiet(e: Event) {
    match e
    case Poll(_, active) => active == {}
    case Dispatch(_, r, _) => !r.hup && !r.in_ && !r.pri && !r.rdhup
    case EndDispatch(_) => true
    case RunOne(_) => true
    case EndFunctors(_) => true
    case _ => false
  }

  /** t is reached from s by such steps. */
  ghost predicate Leads(s: State, t: State) {
    exists es :: Legal(s, es) && (forall i :: 0 <= i < |es| ==> IsQuiet(es[i])) && Run(s, es) == t
  }

  lemma {:induction false} RunConcat(s: State, a: seq<Event>, b: seq<Event>)
    requires Legal(s, a) && Legal(Run(s, a), b)
    ensures Legal(s, a + b) && Run(s, a + b) == Run(Run(s, a), b)
    decreases |a|
  {
    if a == [] {
      assert a + b == b;
    } else {
      assert (a + b)[1..] == a[1..] + b;
      RunConcat(Step(s, a[0]), a[1..], b);
    }
  }

  lemma {:induction false} LeadsOn(s: State, t: State, u: State)
    requires Leads(s, t) && Leads(t, u)
    ensures Leads(s, u)
  {
    var a :| Legal(s, a) && (forall i :: 0 <= i < |a| ==> IsQuiet(a[i])) && Run(s, a) == t;
    var b :| Legal(t, b) && (forall i :: 0 <= i < |b| ==> IsQuiet(b[i])) && Run(t, b) == u;
    RunConcat(s, a, b);
    assert forall i :: 0 <= i < |a + b| ==> IsQuiet((a + b)[i]);
  }

  lemma {:induction false} LeadsNowhere(s: State)
    ensures Leads(s, s)
  {
    assert Legal(s, []) && Run(s, []) == s;
  }

  lemma {:induction false} LeadsStep(s: State, e: Event)
    requires Inv(s) && Enabled(s, e) && IsQuiet(e)
    ensures Leads(s, Step(s, e)) && Inv(Step(s, e))
  {
    StepKeepsInv(s, e);
    assert [e][1..] == [];
    assert Legal(s, [e]) && Run(s, [e]) == Step(s, e);
  }

  /** Dispatching can be finished without anything happening. */
  lemma {:induction false} FinishDispatch(s: State, l: LoopId) returns (t: State)
    requires Inv(s) && PhaseOf(s, l).Dispatching?
    ensures Leads(s, t) && Inv(t) && PhaseOf(t, l) == Dispatching({}) && Queue(t, l) == Queue(s, l)
    decreases PhaseOf(s, l).active
  {
    var active := PhaseOf(s, l).active;
    if active == {} {
      LeadsNowhere(s);
      t := s;
    } else {
      var c :| c in active;
      var e := Dispatch(c, Revents(false, false, false, false), ReadSome);
      assert CanBeActive(s.conns, l, active);
      LeadsStep(s, e);
      t := FinishDispatch(Step(s, e), l);
      LeadsOn(s, Step(s, e), t);
    }
  }

  /** A loop between two batches takes up everything that waits. */
  lemma {:induction false} TakeBatch(s: State, l: LoopId) returns (t: State)
    requires Inv(s) && !PhaseOf(s, l).Functors?
    ensures Leads(s, t) && Inv(t) && PhaseOf(t, l) == Functors(|Queue(s, l)|) && Queue(t, l) == Queue(s, l)
  {
    var u := s;
    LeadsNowhere(s);
    if PhaseOf(s, l).Polling? {
      u := Step(s, Poll(l, {}));
      LeadsStep(s, Poll(l, {}));
    }
    var v := FinishDispatch(u, l);
    LeadsOn(s, u, v);
    t := Step(v, EndDispatch(l));
    LeadsStep(v, EndDispatch(l));
    LeadsOn(s, v, t);
  }

  /** m is the next functor that loop l runs. */
  predicate AtFront(s: State, l: LoopId, m: Msg) { Enabled(s, RunOne(l)) && Queue(s, l)[0] == m }

  /** The loop is inside a batch and has functors left to run. */
  predicate HasTurn(s: State, l: LoopId) { PhaseOf(s, l).Functors? && PhaseOf(s, l).left > 0 }

  /** A loop with something queued comes to run it. */
  lemma {:induction false} GetsTurn(s: State, l: LoopId) returns (t: State)
    requires Inv(s) && Queue(s, l) != []
    ensures Leads(s, t) && Inv(t) && HasTurn(t, l) && Queue(t, l) == Queue(s, l)
  {
    if HasTurn(s, l) {
      LeadsNowhere(s);
      t := s;
    } else if PhaseOf(s, l).Functors? {
      var u := Step(s, EndFunctors(l));
      LeadsStep(s, EndFunctors(l));
      t := TakeBatch(u, l);
      LeadsOn(s, u, t);
    } else {
      t := TakeBatch(s, l);
    }
  }

  lemma {:induction false} RunsFront(s: State, l: LoopId)
    requires Inv(s) && HasTurn(s, l) && Queue(s, l) != []
    ensures Enabled(s, RunOne(l))
    ensures var t := Step(s, RunOne(l));
            Leads(s, t) && Inv(t) && Queue(s, l)[1..] <= Queue(t, l)
  {
    PoppedFrame(s, l);
    LeadsStep(s, RunOne(l));
    StepQueues(s, RunOne(l), l);
  }

  /** The front functor of a queue runs. */
  lemma {:induction false} OneTurn(s: State, l: LoopId) returns (t: State)
    requires Inv(s) && Queue(s, l) != []
    ensures Leads(s, t) && Inv(t) && Queue(s, l)[1..] <= Queue(t, l)
  {
    var u := GetsTurn(s, l);
    RunsFront(u, l);
    t := Step(u, RunOne(l));
    LeadsOn(s, u, t);
  }

  lemma {:induction false} FirstInLine(s: State, l: LoopId) returns (t: State)
    requires Inv(s) && Queue(s, l) != []
    ensures AtFront(t, l, Queue(s, l)[0]) && Leads(s, t) && Inv(t)
  {
    t := GetsTurn(s, l);
    RunsFront(t, l);
  }

  /** The functor at position k of a queue comes to the front of a running batch. */
  lemma {:induction false} ComesToFront(s: State, l: LoopId, k: nat) returns (t: State)
    requires Inv(s) && k < |Queue(s, l)|
    ensures AtFront(t, l, Queue(s, l)[k]) && Leads(s, t) && Inv(t)
    decreases k
  {
    if k == 0 {
      t := FirstInLine(s, l);
    } else {
      var u := OneTurn(s, l);
      assert Queue(u, l)[k - 1] == Queue(s, l)[1..][k - 1];
      t := ComesToFront(u, l, k - 1);
      LeadsOn(s, u, t);
    }
  }

  /** Every queued functor gets its turn, in every reachable state, by the loops' own steps. */
  lemma {:induction false} QueuedCanRun(s: State, l: LoopId, m: Msg) returns (t: State)
    requires Inv(s) && m in Queue(s, l)
    ensures AtFront(t, l, m) && Leads(s, t) && Inv(t)
  {
    var k :| 0 <= k < |Queue(s, l)| && Queue(s, l)[k] == m;
    t := ComesToFront(s, l, k);
  }

  lemma {:induction false} RemoveRuns(s: State, c: ConnId)
    requires AtFront(s, BASE, RemoveMsg(c))
    ensures c in Step(s, RunOne(BASE)).conns && Step(s, RunOne(BASE)).conns[c].erased > 0
  {
  }

  lemma {:induction false} DestroyRuns(s: State, l: LoopId, c: ConnId)
    requires AtFront(s, l, DestroyedMsg(c))
    ensures c in Step(s, RunOne(l)).conns && Step(s, RunOne(l)).conns[c].destroyed > 0
  {
  }

  lemma {:induction false} ErasedCanBeDestroyed(s: State, c: ConnId) returns (t: State)
    requires Inv(s) && c in s.conns && s.conns[c].erased > 0
    ensures Leads(s, t) && Inv(t) && c in t.conns && t.conns[c].destroyed > 0
  {
    assert Account(s.conns, s.queues, c, 0, 0, 0);
    if s.conns[c].destroyed > 0 {
      LeadsNowhere(s);
      t := s;
    } else {
      var l := s.conns[c].loop;
      var u := QueuedCanRun(s, l, DestroyedMsg(c));
      DestroyRuns(u, l, c);
      t := Step(u, RunOne(l));
      LeadsStep(u, RunOne(l));
      LeadsOn(s, u, t);
    }
  }

  lemma {:induction false} ClosedCanBeErased(s: State, c: ConnId) returns (t: State)
    requires Inv(s) && c in s.conns && s.conns[c].closed > 0
    ensures Leads(s, t) && Inv(t) && c in t.conns && t.conns[c].erased > 0
  {
    assert Account(s.conns, s.queues, c, 0, 0, 0);
    if s.conns[c].erased > 0 {
      LeadsNowhere(s);
      t := s;
    } else {
      var u := QueuedCanRun(s, BASE, RemoveMsg(c));
      RemoveRuns(u, c);
      t := Step(u, RunOne(BASE));
      LeadsStep(u, RunOne(BASE));
      LeadsOn(s, u, t);
    }
  }

  lemma {:induction false} ClosedCanBeDestroyed(s: State, c: ConnId) returns (t: State)
    requires Inv(s) && c in s.conns && s.conns[c].closed > 0
    ensures c in t.conns && t.conns[c].erased == t.conns[c].destroyed == 1
    ensures !(t.conns[c].name in t.table && t.table[t.conns[c].name] == c)
    ensures Leads(s, t)
  {
    var u := ClosedCanBeErased(s, c);
    t := ErasedCanBeDestroyed(u, c);
    LeadsOn(s, u, t);
    ClosedOnce(t, c);
  }

  /**
   A close is completed: from every reachable state in which a connection is closed, the loops by their own steps
   erase it from the map and destroy it, on whichever loops the base loop and the connection run.
   */
  lemma {:induction false} CloseCompletes(server: string, hostport: string, es: seq<Event>, c: ConnId)
    requires Legal(Init(server, hostport), es) && SingleCloses(es)
    requires c in Run(Init(server, hostport), es).conns && Run(Init(server, hostport), es).conns[c].closed > 0
    ensures exists t :: Leads(Run(Init(server, hostport), es), t)
              && c in t.conns && t.conns[c].erased == t.conns[c].destroyed == 1
              && !(t.conns[c].name in t.table && t.table[t.conns[c].name] == c)
  {
    RunKeepsInv(Init(server, hostport), es);
    var t := ClosedCanBeDestroyed(Run(Init(server, hostport), es), c);
  }

  /** What a call does to a connection that is connected. */
  lemma {:induction false} CallsTakeEffect(s: State, c: ConnId, inLoop: bool)
    requires c in s.conns && s.conns[c].state.Connected?
    ensures Queue(SendStep(s, c), s.conns[c].loop) == Queue(s, s.conns[c].loop) + [SendMsg(c)]
    ensures ShutdownStep(s, c, inLoop).conns[c].state == Disconnecting
    ensures Queue(ShutdownStep(s, c, inLoop), s.conns[c].loop)
         == Queue(s, s.conns[c].loop) + if inLoop then [] else [ShutdownMsg(c)]
    ensures ForceCloseStep(s, c).conns[c].state == Disconnecting
  {
  }

  lemma {:induction false} DispatchStaysDisconnected(s: State, d: ConnId, r: Revents, read: ReadResult, c: ConnId)
    requires Enabled(s, Dispatch(d, r, read)) && c in s.conns && !s.conns[c].state.Connected?
    ensures c in DispatchStep(s, d, r, read).conns && !DispatchStep(s, d, r, read).conns[c].state.Connected?
  {
    var l := s.conns[d].loop;
    CloseRecord(s.(phases := s.phases[l := Dispatching(PhaseOf(s, l).active - {d})]), d);
    CloseRecord(BeforeRead(s, d, r), d);
  }

  lemma {:induction false} RunMsgStaysDisconnected(s: State, m: Msg, c: ConnId)
    requires m.conn in s.conns && c in s.conns && !s.conns[c].state.Connected? && m != EstablishedMsg(c)
    ensures c in RunMsg(s, m).conns && !RunMsg(s, m).conns[c].state.Connected?
  {
    match m
    case ForceCloseMsg(d) => CloseRecord(s, d);
    case _ =>
  }

  /** ConnectEstablished is not queued for a connection that was established. */
  lemma {:induction false} NotEstablishedAgain(s: State, l: LoopId, c: ConnId)
    requires Core(s) && c in s.conns && s.conns[c].established > 0 && Queue(s, l) != []
    ensures Queue(s, l)[0] != EstablishedMsg(c)
  {
    if Queue(s, l)[0] == EstablishedMsg(c) {
      PlacedPop(s.conns, s.queues, l);
      assert Account(s.conns, s.queues, c, 0, 0, 0);
      PopWaiting(s.queues, l, l, EstablishedMsg(c));
    }
  }

  lemma {:induction false} StepStaysDisconnected(s: State, e: Event, c: ConnId)
    requires Enabled(s, e) && c in s.conns && c < s.nextId && !s.conns[c].state.Connected?
    requires e.RunOne? ==> Queue(s, e.loop)[0] != EstablishedMsg(c)
    ensures c in Step(s, e).conns && !Step(s, e).conns[c].state.Connected?
  {
    match e
    case Accept(l) => AcceptRecord(s, l);
    case Dispatch(d, r, read) => DispatchStaysDisconnected(s, d, r, read, c);
    case RunOne(l) => RunMsgStaysDisconnected(Popped(s, l), Queue(s, l)[0], c);
    case _ =>
  }

  lemma {:induction false} StaysDisconnected(s: State, e: Event, c: ConnId)
    requires Inv(s) && Enabled(s, e) && c in s.conns && s.conns[c].established > 0 && !s.conns[c].state.Connected?
    ensures c in Step(s, e).conns && Step(s, e).conns[c].established > 0 && !Step(s, e).conns[c].state.Connected?
  {
    if e.RunOne? {
      NotEstablishedAgain(s, e.loop, c);
    }
    StepStaysDisconnected(s, e, c);
    StepForward(s, e, c);
  }

  /** An established connection that is disconnecting or down never becomes connected again. */
  lemma {:induction false} NeverConnectedAgain(s: State, es: seq<Event>, c: ConnId)
    requires Inv(s) && Legal(s, es) && SingleCloses(es)
    requires c in s.conns && s.conns[c].established > 0 && !s.conns[c].state.Connected?
    ensures c in Run(s, es).conns && !Run(s, es).conns[c].state.Connected?
    decreases |es|
  {
    if es == [] {
    } else {
      StepKeepsInv(s, es[0]);
      StaysDisconnected(s, es[0], c);
      NeverConnectedAgain(Step(s, es[0]), es[1..], c);
    }
  }
}
