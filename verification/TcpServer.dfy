/**
 The server and its connections as objects, muduo-cpp11/net/tcp_server.cpp and tcp_connection.cpp: connections live in
 the heap, the map connections_ and the queued functors hold references to them, and every method is proved to take
 the step that the life cycle gives it.
 */
module TcpServers {
  import opened ConnectionNames
  import opened Lifecycle

  class TcpConnection {
    const id: ConnId
    const name: string
    const loop: LoopId
    var state: ConnState
    var hasInterest: bool             // of its channel
    ghost var established: nat
    ghost var closed: nat
    ghost var erased: nat
    ghost var destroyed: nat

    ghost function Record(): Conn
      reads this
    {
      Conn(name, loop, state, hasInterest, established, closed, erased, destroyed)
    }

    constructor (id: ConnId, name: string, loop: LoopId)
      ensures this.id == id && Record() == Conn(name, loop, Connecting, false, 0, 0, 0, 0)
    {
      this.id, this.name, this.loop, state, hasInterest := id, name, loop, Connecting, false;
      established, closed, erased, destroyed := 0, 0, 0, 0;
    }

    method GoUp()
      modifies this
      ensures Record() == Up(old(Record()))
    {
      state, hasInterest, established := Connected, true, established + 1;
    }

    method GoDown()
      modifies this
      ensures Record() == Down(old(Record()))
    {
      state, hasInterest, closed := Disconnected, false, closed + 1;
    }
  }

  /** A member function bound to a connection. */
  datatype Functor =
    | ConnectEstablishedF(conn: TcpConnection)
    | ForceCloseInLoopF(conn: TcpConnection)
    | RemoveConnectionInLoopF(conn: TcpConnection)
    | ConnectDestroyedF(conn: TcpConnection)
    | SendInLoopF(conn: TcpConnection)
    | ShutdownInLoopF(conn: TcpConnection)

  ghost function Message(f: Functor): Msg {
    match f
    case ConnectEstablishedF(k) => EstablishedMsg(k.id)
    case ForceCloseInLoopF(k) => ForceCloseMsg(k.id)
    case RemoveConnectionInLoopF(k) => RemoveMsg(k.id)
    case ConnectDestroyedF(k) => DestroyedMsg(k.id)
    case SendInLoopF(k) => SendMsg(k.id)
    case ShutdownInLoopF(k) => ShutdownMsg(k.id)
  }

  ghost function Messages(fs: seq<Functor>): (ms: seq<Msg>)
    ensures |ms| == |fs|
  {
    if fs == [] then [] else [Message(fs[0])] + Messages(fs[1..])
  }

  lemma {:induction false} MessagesAppend(fs: seq<Functor>, f: Functor)
    ensures Messages(fs + [f]) == Messages(fs) + [Message(f)]
  {
    if fs == [] {
      assert [f][1..] == [];
    } else {
      assert (fs + [f])[1..] == fs[1..] + [f];
      MessagesAppend(fs[1..], f);
    }
  }

  ghost function AllMessages(qs: map<LoopId, seq<Functor>>): Queues { map l | l in qs :: Messages(qs[l]) }

  lemma PushMessages(qs: map<LoopId, seq<Functor>>, l: LoopId, f: Functor)
    ensures var was := if l in qs then qs[l] else [];
            AllMessages(qs[l := was + [f]]) == Push(AllMessages(qs), l, Message(f))
  {
    MessagesAppend(if l in qs then qs[l] else [], f);
  }

  lemma PopMessages(qs: map<LoopId, seq<Functor>>, l: LoopId)
    requires l in qs && qs[l] != []
    ensures Messages(qs[l])[0] == Message(qs[l][0])
    ensures AllMessages(qs[l := qs[l][1..]]) == AllMessages(qs)[l := Messages(qs[l])[1..]]
  {
  }

  class TcpServer {
    const name: string
    const hostport: string
    var nextConnId: ConnId
    var objects: map<ConnId, TcpConnection>       // what channels and user code refer to
    var connections: map<string, TcpConnection>
    var queues: map<LoopId, seq<Functor>>         // pending functors of each loop
    var phases: Phases
    ghost var asserts: bool

    ghost predicate Known(conn: TcpConnection)
      reads this
    {
      conn.id in objects && objects[conn.id] == conn
    }

    /** No two objects share an id, and every reference is to one of them. */
    ghost predicate Valid()
      reads this
    {
      && (forall c :: c in objects ==> objects[c].id == c && c < nextConnId)
      && (forall n :: n in connections ==> Known(connections[n]))
      && (forall l, f :: l in queues && f in queues[l] ==> Known(f.conn))
    }

    ghost function Records(): Conns
      reads this, objects.Values
    {
      map c | c in objects :: objects[c].Record()
    }

    ghost function Table(): map<string, ConnId>
      reads this
    {
      map n | n in connections :: connections[n].id
    }

    ghost function Waits(): Queues
      reads this
    {
      AllMessages(queues)
    }

    ghost function View(): State
      reads this, objects.Values
    {
      State(name, hostport, nextConnId, Records(), Table(), Waits(), phases, asserts)
    }

    constructor (name: string, address: string)
      ensures Valid() && View() == Init(name, address) && objects == map[]
    {
      this.name, hostport, nextConnId := name, address, 1;
      objects, connections, queues, phases, asserts := map[], map[], map[], map[], true;
    }

    method QueueInLoop(l: LoopId, f: Functor)
      requires Valid() && Known(f.conn)
      modifies this`queues
      ensures Valid() && View() == Enqueue(old(View()), l, Message(f))
    {
      PushMessages(queues, l, f);
      queues := queues[l := (if l in queues then queues[l] else []) + [f]];
    }

    /** What a change of one connection does to the records. */
    twostate lemma OnlyChanged(conn: TcpConnection)
      requires Valid() && objects == old(objects) && Known(conn)
      requires forall c :: c in objects && c != conn.id ==> objects[c].Record() == old(objects[c].Record())
      ensures Records() == old(Records())[conn.id := conn.Record()]
    {
    }

    /** An assertion of the source. */
    method Check(ok: bool)
      modifies this`asserts
      ensures View() == old(View()).(asserts := old(asserts) && ok)
    {
      asserts := asserts && ok;
    }

    method ConnectEstablished(conn: TcpConnection)
      requires Valid() && Known(conn)
      modifies this`asserts, conn
      ensures Valid() && View() == Establish(old(View()), conn.id)
    {
      Check(conn.state == Connecting);
      conn.GoUp();
      OnlyChanged(conn);
    }

    /** connections_.erase, whose result the source asserts. */
    method EraseEntry(conn: TcpConnection)
      requires Valid() && Known(conn)
      modifies this`asserts, this`connections
      ensures Valid()
      ensures var s := old(View());
              View() == s.(table := s.table - {conn.name},
                           asserts := s.asserts && conn.name in s.table && s.table[conn.name] == conn.id)
    {
      Check(conn.name in connections && connections[conn.name] == conn);
      connections := connections - {conn.name};
      assert Table() == old(Table()) - {conn.name};
    }

    method MarkErased(conn: TcpConnection)
      requires Valid() && Known(conn)
      modifies conn`erased
      ensures Valid()
      ensures var s := old(View());
              View() == Put(s, conn.id, s.conns[conn.id].(erased := s.conns[conn.id].erased + 1))
    {
      conn.erased := conn.erased + 1;
      OnlyChanged(conn);
    }

    method EraseConnection(conn: TcpConnection)
      requires Valid() && Known(conn)
      modifies this`asserts, this`connections, conn`erased
      ensures Valid() && View() == Erase(old(View()), conn.id)
    {
      ghost var s := View();
      assert s.conns[conn.id].name == conn.name;
      EraseEntry(conn);
      MarkErased(conn);
    }

    method RemoveConnectionInLoop(conn: TcpConnection)
      requires Valid() && Known(conn)
      modifies this`asserts, this`connections, this`queues, conn
      ensures Valid() && View() == RemoveInLoop(old(View()), conn.id)
    {
      EraseConnection(conn);
      QueueInLoop(conn.loop, ConnectDestroyedF(conn));
    }

    /** RunInLoop(RemoveConnectionInLoop) from the loop of the connection. */
    method RemoveConnection(conn: TcpConnection)
      requires Valid() && Known(conn)
      modifies this`asserts, this`connections, this`queues, conn
      ensures Valid()
      ensures View() == if conn.loop == BASE then RemoveInLoop(old(View()), conn.id)
                        else Enqueue(old(View()), BASE, RemoveMsg(conn.id))
    {
      if conn.loop == BASE {
        RemoveConnectionInLoop(conn);
      } else {
        QueueInLoop(BASE, RemoveConnectionInLoopF(conn));
      }
    }

    /** The part of HandleClose before its callbacks. */
    method TakeDown(conn: TcpConnection)
      requires Valid() && Known(conn)
      modifies this`asserts, conn
      ensures Valid()
      ensures var s, k := old(View()), old(conn.Record());
              View() == Put(s, conn.id, Down(k)).(asserts := s.asserts && (k.state.Connected? || k.state.Disconnecting?))
    {
      Check(conn.state == Connected || conn.state == Disconnecting);
      conn.GoDown();
      OnlyChanged(conn);
    }

    method HandleClose(conn: TcpConnection)
      requires Valid() && Known(conn)
      modifies this`asserts, this`connections, this`queues, conn
      ensures Valid() && View() == CloseConn(old(View()), conn.id)
    {
      TakeDown(conn);
      RemoveConnection(conn);
    }

    method ConnectDestroyed(conn: TcpConnection)
      requires Valid() && Known(conn)
      modifies this`asserts, conn
      ensures Valid() && View() == Destroy(old(View()), conn.id)
    {
      if conn.state == Connected {
        conn.state, conn.hasInterest := Disconnected, false;
      }
      conn.destroyed := conn.destroyed + 1;
      OnlyChanged(conn);
      Check(!conn.hasInterest && PhaseIn(phases, conn.loop).Functors?);
    }

    method NewObject(l: LoopId) returns (conn: TcpConnection)
      requires Valid()
      modifies this`nextConnId, this`objects
      ensures Valid() && fresh(conn) && conn.id == old(nextConnId) && objects == old(objects)[conn.id := conn]
      ensures conn.Record() == NewConn(old(View()), conn.id, l)
      ensures View() == Put(old(View()), conn.id, conn.Record()).(nextId := conn.id + 1)
    {
      var c := nextConnId;
      conn := new TcpConnection(c, Name(name, hostport, c), l);
      nextConnId, objects := c + 1, objects[c := conn];
      assert Records() == old(Records())[c := conn.Record()];
    }

    /** NewConnection up to the hand-over. */
    method CreateConnection(l: LoopId) returns (conn: TcpConnection)
      requires Valid()
      modifies this`nextConnId, this`objects, this`connections
      ensures Valid() && View() == Admit(old(View()), l)
      ensures fresh(conn) && conn.id == old(nextConnId) && objects == old(objects)[conn.id := conn]
    {
      conn := NewObject(l);
      SetEntry(conn);
    }

    method SetEntry(conn: TcpConnection)
      requires Valid() && Known(conn)
      modifies this`connections
      ensures Valid() && View() == old(View()).(table := old(Table())[conn.name := conn.id])
    {
      connections := connections[conn.name := conn];
      assert Table() == old(Table())[conn.name := conn.id];
    }

    method NewConnection(l: LoopId)
      requires Valid()
      modifies this
      ensures Valid() && View() == AcceptStep(old(View()), l)
      ensures forall c :: c in objects ==> (c in old(objects) && objects[c] == old(objects)[c]) || fresh(objects[c])
    {
      var conn := CreateConnection(l);
      if l == BASE {
        ConnectEstablished(conn);
      } else {
        QueueInLoop(l, ConnectEstablishedF(conn));
      }
    }

    /** Channel::HandleEventWithGuard up to the read callback. */
    method HandleHangup(conn: TcpConnection, r: Revents)
      requires Valid() && Known(conn) && PhaseIn(phases, conn.loop).Dispatching?
      modifies this`asserts, this`connections, this`queues, this`phases, conn
      ensures Valid() && View() == BeforeRead(old(View()), conn.id, r)
    {
      SetPhase(conn.loop, Dispatching(PhaseIn(phases, conn.loop).active - {conn.id}));
      if r.hup && !r.in_ {
        HandleClose(conn);
      }
    }

    /** Channel::HandleEventWithGuard: the close callback, then the read callback. */
    method HandleEvent(conn: TcpConnection, r: Revents, read: ReadResult)
      requires Valid() && Known(conn) && PhaseIn(phases, conn.loop).Dispatching?
      modifies this`asserts, this`connections, this`queues, this`phases, conn
      ensures Valid() && View() == DispatchStep(old(View()), conn.id, r, read)
    {
      HandleHangup(conn, r);
      if r.in_ || r.pri || r.rdhup {
        if read == ReadEof {
          HandleClose(conn);
        }
      }
    }

    method RunFunctor(f: Functor)
      requires Valid() && Known(f.conn)
      modifies this`asserts, this`connections, this`queues, f.conn
      ensures Valid() && View() == RunMsg(old(View()), Message(f))
    {
      match f
      case ConnectEstablishedF(conn) => ConnectEstablished(conn);
      case ForceCloseInLoopF(conn) =>
        if conn.state == Connected || conn.state == Disconnecting {
          HandleClose(conn);
        }
      case RemoveConnectionInLoopF(conn) => RemoveConnectionInLoop(conn);
      case ConnectDestroyedF(conn) => ConnectDestroyed(conn);
      case _ =>                                   // output only
    }

    method PopQueue(l: LoopId) returns (f: Functor)
      requires Valid() && l in queues && queues[l] != []
      modifies this`queues
      ensures Valid() && Known(f.conn) && Message(f) == Messages(old(queues[l]))[0]
      ensures View() == old(View()).(queues := old(Waits())[l := Messages(old(queues[l]))[1..]])
    {
      PopMessages(queues, l);
      f := queues[l][0];
      assert f in queues[l] && forall g :: g in queues[l][1..] ==> g in queues[l];
      queues := queues[l := queues[l][1..]];
    }

    /** The front functor leaves the queue of its loop, as DoPendingFunctors comes to it. */
    method PopFunctor(l: LoopId) returns (f: Functor)
      requires Valid() && Enabled(View(), RunOne(l))
      modifies this`queues, this`phases
      ensures Valid() && Known(f.conn) && Message(f) == old(Queue(View(), l))[0]
      ensures View() == Popped(old(View()), l)
    {
      ghost var s := View();
      assert Queue(s, l) == Messages(queues[l]);
      f := PopQueue(l);
      assert View() == s.(queues := s.queues[l := Queue(s, l)[1..]]);
      SetPhase(l, Functors(PhaseIn(phases, l).left - 1));
    }

    method RunNext(l: LoopId)
      requires Valid() && Enabled(View(), RunOne(l))
      modifies this, objects.Values
      ensures Valid() && View() == RunOneStep(old(View()), l) && objects == old(objects)
    {
      var f := PopFunctor(l);
      RunFunctor(f);
    }

    method StartDisconnecting(conn: TcpConnection)
      requires Valid() && Known(conn)
      modifies conn`state
      ensures Valid() && View() == Disconnect(old(View()), conn.id)
    {
      conn.state := Disconnecting;
      OnlyChanged(conn);
    }

    /** Send from another thread. */
    method Send(conn: TcpConnection)
      requires Valid() && Known(conn)
      modifies this`queues
      ensures Valid() && View() == SendStep(old(View()), conn.id)
    {
      if conn.state == Connected {
        QueueInLoop(conn.loop, SendInLoopF(conn));
      }
    }

    method Shutdown(conn: TcpConnection, inLoop: bool)
      requires Valid() && Known(conn)
      modifies this`queues, conn`state
      ensures Valid() && View() == ShutdownStep(old(View()), conn.id, inLoop)
    {
      if conn.state == Connected {
        StartDisconnecting(conn);
        if !inLoop {
          QueueInLoop(conn.loop, ShutdownInLoopF(conn));
        }
      }
    }

    method ForceClose(conn: TcpConnection)
      requires Valid() && Known(conn)
      modifies this`queues, conn`state
      ensures Valid() && View() == ForceCloseStep(old(View()), conn.id)
    {
      if conn.state == Connected || conn.state == Disconnecting {
        StartDisconnecting(conn);
        QueueInLoop(conn.loop, ForceCloseInLoopF(conn));
      }
    }

    method SetPhase(l: LoopId, p: Phase)
      requires Valid()
      modifies this`phases
      ensures Valid() && View() == old(View()).(phases := old(phases)[l := p])
    {
      phases := phases[l := p];
    }

    method Perform(e: Event)
      requires Valid() && Enabled(View(), e)
      modifies this, objects.Values
      ensures Valid() && View() == Step(old(View()), e)
      ensures forall c :: c in objects ==> (c in old(objects) && objects[c] == old(objects)[c]) || fresh(objects[c])
    {
      match e
      case Poll(l, active) => SetPhase(l, Dispatching(active));
      case Accept(l) => NewConnection(l);
      case Dispatch(c, r, read) => HandleEvent(objects[c], r, read);
      case EndDispatch(l) => SetPhase(l, Functors(if l in queues then |queues[l]| else 0));
      case RunOne(l) => RunNext(l);
      case EndFunctors(l) => SetPhase(l, Polling);
      case Send(c) => Send(objects[c]);
      case Shutdown(c, inLoop) => Shutdown(objects[c], inLoop);
      case ForceClose(c) => ForceClose(objects[c]);
    }

    /** Any schedule of all the loops and of other threads. */
    method Schedule(es: seq<Event>)
      requires Valid() && Legal(View(), es)
      modifies this, objects.Values
      ensures Valid() && View() == Run(old(View()), es)
    {
      var i := 0;
      while i < |es|
        invariant 0 <= i <= |es|
        invariant forall c :: c in objects ==> (c in old(objects) && objects[c] == old(objects)[c]) || fresh(objects[c])
        invariant Valid() && Legal(View(), es[i..])
        invariant Run(View(), es[i..]) == Run(old(View()), es)
      {
        assert es[i..][1..] == es[i + 1..];
        Perform(es[i]);
        i := i + 1;
      }
    }
  }
}
