/**
 The life of connections across loops: muduo-cpp11/net/tcp_server.cpp, tcp_connection.cpp, channel.cpp.

 Loop 0 is the server's own loop, which accepts connections and owns the connection map; every connection has
 an I/O loop, which may be loop 0. Loops exchange functors through first-in-first-out queues and go through
 polling, dispatching and running functors independently of each other.
 */
module Lifecycle {
  import opened ConnectionNames

  type LoopId = nat
  type ConnId = nat

  const BASE: LoopId := 0

  datatype ConnState = Connecting | Connected | Disconnecting | Disconnected

  /** A connection, with counts of what has happened to it. */
  datatype Conn = Conn(
    name: string,
    loop: LoopId,
    state: ConnState,
    registered: bool,                 // its channel has interest in events
    established: nat, closed: nat, erased: nat, destroyed: nat)

  datatype Msg =
    | EstablishedMsg(conn: ConnId)
    | ForceCloseMsg(conn: ConnId)
    | RemoveMsg(conn: ConnId)
    | DestroyedMsg(conn: ConnId)
    | SendMsg(conn: ConnId)           // SendInLoop and ShutdownInLoop, bound to a raw pointer
    | ShutdownMsg(conn: ConnId)

  datatype Phase =
    | Polling
    | Dispatching(active: set<ConnId>)
    | Functors(left: nat)             // how many functors of the swapped batch are left

  datatype State = State(
    server: string,
    hostport: string,
    nextId: ConnId,
    conns: Conns,
    table: map<string, ConnId>,       // connections_
    queues: Queues,
    phases: Phases,
    asserts: bool)                    // every assertion met so far held

  function Init(server: string, hostport: string): State {
    State(server, hostport, 1, map[], map[], map[], map[], true)
  }

  type Conns = map<ConnId, Conn>
  type Queues = map<LoopId, seq<Msg>>
  type Phases = map<LoopId, Phase>

  function QueueIn(q: Queues, l: LoopId): seq<Msg> { if l in q then q[l] else [] }

  function Queue(s: State, l: LoopId): seq<Msg> { QueueIn(s.queues, l) }

  function PhaseIn(p: Phases, l: LoopId): Phase { if l in p then p[l] else Polling }

  function PhaseOf(s: State, l: LoopId): Phase { PhaseIn(s.phases, l) }

  function NameOf(s: State, c: ConnId): string { Name(s.server, s.hostport, c) }

  /** The ids whose names fit in the buffer and which the counter can pass. */
  predicate Fits(s: State, c: ConnId) { |s.hostport| + 3 < BUF_SIZE && c < Pow10(Room(s.hostport)) && c < INT_MAX }

  // ---------------------------------------------------------------- what poll reports for a channel

  /** The error and the write callback do not change the life of a connection. */
  datatype Revents = Revents(hup: bool, in_: bool, pri: bool, rdhup: bool)

  datatype ReadResult = ReadSome | ReadEof | ReadError

  /** The close callback of HandleEventWithGuard. */
  predicate ClosesFirst(r: Revents) { r.hup && !r.in_ }

  /** Its read callback, when that finds the end of the stream. */
  predicate ClosesOnRead(r: Revents, read: ReadResult) { (r.in_ || r.pri || r.rdhup) && read.ReadEof? }

  /** How often one dispatch calls TcpConnection::HandleClose. */
  function CloseCalls(r: Revents, read: ReadResult): nat {
    (if ClosesFirst(r) then 1 else 0) + (if ClosesOnRead(r, read) then 1 else 0)
  }

  /** One dispatch closes twice exactly on a hangup without input that carries PRI or RDHUP and reads end of file. */
  lemma DoubleCloseIff(r: Revents, read: ReadResult)
    ensures CloseCalls(r, read) == 2 <==> r.hup && !r.in_ && (r.pri || r.rdhup) && read.ReadEof?
    ensures CloseCalls(r, read) <= 2
  {
  }

  // ---------------------------------------------------------------- events

  datatype Event =
    | Poll(loop: LoopId, active: set<ConnId>)
    | Accept(loop: LoopId)                          // NewConnection, with the I/O loop chosen
    | Dispatch(conn: ConnId, revents: Revents, read: ReadResult)
    | EndDispatch(loop: LoopId)
    | RunOne(loop: LoopId)
    | EndFunctors(loop: LoopId)
    | Send(conn: ConnId)                            // from another thread than the connection's loop
    | Shutdown(conn: ConnId, inLoop: bool)          // from the loop of the connection or from another thread
    | ForceClose(conn: ConnId)                      // from any thread

  predicate Enabled(s: State, e: Event) {
    match e
    case Poll(l, active) =>
      PhaseOf(s, l).Polling? && CanBeActive(s.conns, l, active)
    case Accept(l) => PhaseOf(s, BASE).Dispatching? && Fits(s, s.nextId)
    case Dispatch(c, r, read) =>
      c in s.conns && PhaseOf(s, s.conns[c].loop).Dispatching? && c in PhaseOf(s, s.conns[c].loop).active
    case EndDispatch(l) => PhaseOf(s, l) == Dispatching({})
    case RunOne(l) =>
      PhaseOf(s, l).Functors? && PhaseOf(s, l).left > 0 && Queue(s, l) != [] && Queue(s, l)[0].conn in s.conns
    case EndFunctors(l) => PhaseOf(s, l) == Functors(0)
    case Send(c) => c in s.conns
    case Shutdown(c, _) => c in s.conns
    case ForceClose(c) => c in s.conns
  }

  function NewConn(s: State, c: ConnId, l: LoopId): Conn { Conn(NameOf(s, c), l, Connecting, false, 0, 0, 0, 0) }

  function Push(q: Queues, l: LoopId, m: Msg): Queues { q[l := QueueIn(q, l) + [m]] }

  function Enqueue(s: State, l: LoopId, m: Msg): State { s.(queues := Push(s.queues, l, m)) }

  function Put(s: State, c: ConnId, k: Conn): State { s.(conns := s.conns[c := k]) }

  /** The record after ConnectEstablished, after HandleClose. */
  function Up(k: Conn): Conn { k.(state := Connected, registered := true, established := k.established + 1) }
  function Down(k: Conn): Conn { k.(state := Disconnected, registered := false, closed := k.closed + 1) }

  /** ConnectEstablished. */
  function Establish(s: State, c: ConnId): State
    requires c in s.conns
  {
    var k := s.conns[c];
    Put(s, c, Up(k)).(asserts := s.asserts && k.state.Connecting?)
  }

  /** The erase of RemoveConnectionInLoop, which must find exactly this connection. */
  function Erase(s: State, c: ConnId): State
    requires c in s.conns
  {
    var k := s.conns[c];
    Put(s, c, k.(erased := k.erased + 1))
    .(table := s.table - {k.name}, asserts := s.asserts && k.name in s.table && s.table[k.name] == c)
  }

  /** RemoveConnectionInLoop. */
  function RemoveInLoop(s: State, c: ConnId): State
    requires c in s.conns
  {
    Enqueue(Erase(s, c), s.conns[c].loop, DestroyedMsg(c))
  }

  /** HandleClose, up to RemoveConnection, which runs at once on the base loop and is queued for it elsewhere. */
  function CloseConn(s: State, c: ConnId): State
    requires c in s.conns
  {
    var k := s.conns[c];
    var t := Put(s, c, Down(k)).(asserts := s.asserts && (k.state.Connected? || k.state.Disconnecting?));
    if k.loop == BASE then RemoveInLoop(t, c) else Enqueue(t, BASE, RemoveMsg(c))
  }

  /** ConnectDestroyed. Channel::Remove asserts an empty interest, and its loop that it is not mid-dispatch. */
  function Destroy(s: State, c: ConnId): State
    requires c in s.conns
  {
    var k := s.conns[c];
    var registered := k.registered && !k.state.Connected?;
    Put(s, c, k.(state := if k.state.Connected? then Disconnected else k.state, registered := registered,
                 destroyed := k.destroyed + 1))
    .(asserts := s.asserts && !registered && PhaseOf(s, k.loop).Functors?)
  }

  function RunMsg(s: State, m: Msg): State
    requires m.conn in s.conns
  {
    match m
    case EstablishedMsg(c) => Establish(s, c)
    case ForceCloseMsg(c) =>
      if s.conns[c].state.Connected? || s.conns[c].state.Disconnecting? then CloseConn(s, c) else s
    case RemoveMsg(c) => RemoveInLoop(s, c)
    case DestroyedMsg(c) => Destroy(s, c)
    case _ => s
  }

  /** NewConnection up to the hand-over to the loop of the connection. */
  function Admit(s: State, l: LoopId): State {
    var c := s.nextId;
    s.(nextId := c + 1, conns := s.conns[c := NewConn(s, c, l)], table := s.table[NameOf(s, c) := c])
  }

  function AcceptStep(s: State, l: LoopId): State {
    var c, t := s.nextId, Admit(s, l);
    if l == BASE then Establish(t, c) else Enqueue(t, l, EstablishedMsg(c))
  }

  /** A dispatch up to its read callback: the close callback, if any, has been called. */
  function BeforeRead(s: State, c: ConnId, r: Revents): (t: State)
    requires c in s.conns && PhaseOf(s, s.conns[c].loop).Dispatching?
    ensures c in t.conns
  {
    var l := s.conns[c].loop;
    var t := s.(phases := s.phases[l := Dispatching(PhaseOf(s, l).active - {c})]);
    if ClosesFirst(r) then CloseConn(t, c) else t
  }

  function DispatchStep(s: State, c: ConnId, r: Revents, read: ReadResult): State
    requires c in s.conns && PhaseOf(s, s.conns[c].loop).Dispatching?
  {
    var t := BeforeRead(s, c, r);
    if ClosesOnRead(r, read) then CloseConn(t, c) else t
  }

  function RunOneStep(s: State, l: LoopId): State
    requires PhaseOf(s, l).Functors? && PhaseOf(s, l).left > 0 && Queue(s, l) != [] && Queue(s, l)[0].conn in s.conns
  {
    RunMsg(s.(queues := s.queues[l := Queue(s, l)[1..]],
              phases := s.phases[l := Functors(PhaseOf(s, l).left - 1)]), Queue(s, l)[0])
  }

  function SendStep(s: State, c: ConnId): State
    requires c in s.conns
  {
    if s.conns[c].state.Connected? then Enqueue(s, s.conns[c].loop, SendMsg(c)) else s
  }

  function Disconnect(s: State, c: ConnId): State
    requires c in s.conns
  {
    Put(s, c, s.conns[c].(state := Disconnecting))
  }

  function ShutdownStep(s: State, c: ConnId, inLoop: bool): State
    requires c in s.conns
  {
    if !s.conns[c].state.Connected? then s
    else if inLoop then Disconnect(s, c)
    else Enqueue(Disconnect(s, c), s.conns[c].loop, ShutdownMsg(c))
  }

  function ForceCloseStep(s: State, c: ConnId): State
    requires c in s.conns
  {
    if s.conns[c].state.Connected? || s.conns[c].state.Disconnecting?
    then Enqueue(Disconnect(s, c), s.conns[c].loop, ForceCloseMsg(c))
    else s
  }

  function Step(s: State, e: Event): State
    requires Enabled(s, e)
  {
    match e
    case Poll(l, active) => s.(phases := s.phases[l := Dispatching(active)])
    case Accept(l) => AcceptStep(s, l)
    case Dispatch(c, r, read) => DispatchStep(s, c, r, read)
    case EndDispatch(l) => s.(phases := s.phases[l := Functors(|Queue(s, l)|)])
    case RunOne(l) => RunOneStep(s, l)
    case EndFunctors(l) => s.(phases := s.phases[l := Polling])
    case Send(c) => SendStep(s, c)
    case Shutdown(c, inLoop) => ShutdownStep(s, c, inLoop)
    case ForceClose(c) => ForceCloseStep(s, c)
  }

  // ---------------------------------------------------------------- the invariant

  /** The loop that must run a message. */
  function Home(conns: Conns, m: Msg): LoopId
    requires m.conn in conns
  {
    if m.RemoveMsg? then BASE else conns[m.conn].loop
  }

  /** How many copies of a message wait in the queue of a loop. */
  function Waiting(q: Queues, l: LoopId, m: Msg): nat { multiset(QueueIn(q, l))[m] }

  predicate Placed(conns: Conns, q: Queues) {
    forall l, m :: l in q && m in q[l] ==> m.conn in conns && Home(conns, m) == l
  }

  /**
   The account of one connection: every stage it has reached is counted once, or waits once in a queue, or is
   in hand, that is, taken from its queue and about to be carried out.
   */
  predicate Account(conns: Conns, q: Queues, c: ConnId, establishing: nat, removing: nat, destroying: nat)
    requires c in conns
  {
    var k := conns[c];
    && k.established + Waiting(q, k.loop, EstablishedMsg(c)) + establishing == 1
    && (k.state.Connecting? <==> k.established == 0)
    && (k.registered <==> k.state.Connected? || k.state.Disconnecting?)
    && k.closed == (if k.state.Disconnected? then 1 else 0)
    && k.closed == k.erased + Waiting(q, BASE, RemoveMsg(c)) + removing
    && k.erased == k.destroyed + Waiting(q, k.loop, DestroyedMsg(c)) + destroying
  }

  /** All accounts, with a stage of connection c in hand. */
  predicate Books(conns: Conns, q: Queues, c: ConnId, establishing: nat, removing: nat, destroying: nat) {
    && c in conns && Account(conns, q, c, establishing, removing, destroying)
    && forall d :: d in conns && d != c ==> Account(conns, q, d, 0, 0, 0)
  }

  predicate Accounts(conns: Conns, q: Queues) { forall c :: c in conns ==> Account(conns, q, c, 0, 0, 0) }

  /** The map holds exactly the connections not yet erased, under their names. */
  predicate Mapped(conns: Conns, table: map<string, ConnId>) {
    && (forall c :: c in conns && conns[c].erased == 0 ==> conns[c].name in table && table[conns[c].name] == c)
    && (forall n :: n in table ==> table[n] in conns && conns[table[n]].erased == 0 && n == conns[table[n]].name)
  }

  predicate UniqueNames(conns: Conns) {
    forall c, d :: c in conns && d in conns && c != d ==> conns[c].name != conns[d].name
  }

  predicate Numbered(conns: Conns, nextId: ConnId) { 1 <= nextId && forall c :: c in conns ==> 1 <= c < nextId }

  /** Every connection has the name its id gives, and that name was not cut short. */
  predicate Naming(s: State) { forall c :: c in s.conns ==> Fits(s, c) && s.conns[c].name == NameOf(s, c) }

  predicate CanBeActive(conns: Conns, l: LoopId, active: set<ConnId>) {
    forall c :: c in active ==> c in conns && conns[c].loop == l && conns[c].registered
  }

  predicate Watching(conns: Conns, phases: Phases) {
    forall l :: l in phases && phases[l].Dispatching? ==> CanBeActive(conns, l, phases[l].active)
  }

  /** A batch never runs out of functors before its end. */
  predicate Batches(q: Queues, phases: Phases) {
    forall l :: l in phases && phases[l].Functors? ==> phases[l].left <= |QueueIn(q, l)|
  }

  predicate Frame(s: State) {
    && s.asserts
    && Placed(s.conns, s.queues)
    && Mapped(s.conns, s.table)
    && UniqueNames(s.conns)
    && Numbered(s.conns, s.nextId)
    && Watching(s.conns, s.phases)
    && Batches(s.queues, s.phases)
  }

  predicate Core(s: State) { Frame(s) && Accounts(s.conns, s.queues) }

  /** A functor that holds a raw pointer to its connection. */
  predicate IsRaw(m: Msg) { m.SendMsg? || m.ShutdownMsg? }

  /** In a queue, no such functor stands behind the one that destroys its connection. */
  predicate RawFirst(q: seq<Msg>) {
    forall i, j :: 0 <= i < j < |q| && q[i].DestroyedMsg? && IsRaw(q[j]) ==> q[j].conn != q[i].conn
  }

  /** And their connections have not been destroyed. */
  predicate RawLive(conns: Conns, q: Queues) {
    forall l :: l in q ==>
      RawFirst(q[l]) && forall m :: m in q[l] && IsRaw(m) ==> m.conn in conns && conns[m.conn].destroyed == 0
  }

  predicate Inv(s: State) { Core(s) && Naming(s) && RawLive(s.conns, s.queues) }

  /** A dispatch that does not close twice. */
  predicate Single(e: Event) { e.Dispatch? ==> CloseCalls(e.revents, e.read) <= 1 }

  predicate SingleCloses(es: seq<Event>) { forall i :: 0 <= i < |es| ==> Single(es[i]) }

  // ---------------------------------------------------------------- accounts

  lemma PushWaiting(q: Queues, l: LoopId, m: Msg, l': LoopId, m': Msg)
    ensures Waiting(Push(q, l, m), l', m') == Waiting(q, l', m') + (if l' == l && m' == m then 1 else 0)
  {
  }

  lemma PopWaiting(q: Queues, l: LoopId, l': LoopId, m': Msg)
    requires QueueIn(q, l) != []
    ensures Waiting(q, l', m')
         == Waiting(q[l := QueueIn(q, l)[1..]], l', m') + (if l' == l && m' == QueueIn(q, l)[0] then 1 else 0)
  {
    assert QueueIn(q, l) == [QueueIn(q, l)[0]] + QueueIn(q, l)[1..];
  }

  /** Connections other than c keep their accounts when only c and messages about it change. */
  lemma OthersKeep(conns: Conns, q: Queues, conns': Conns, q': Queues, c: ConnId)
    requires forall d :: d in conns && d != c ==> Account(conns, q, d, 0, 0, 0)
    requires forall d :: d in conns' && d != c ==> d in conns && conns'[d] == conns[d]
    requires forall l: LoopId, m: Msg :: m.conn != c ==> Waiting(q', l, m) == Waiting(q, l, m)
    ensures forall d :: d in conns' && d != c ==> Account(conns', q', d, 0, 0, 0)
  {
    forall d | d in conns' && d != c
      ensures Account(conns', q', d, 0, 0, 0)
    {
      assert Account(conns, q, d, 0, 0, 0);
      var l := conns[d].loop;
      assert Waiting(q', l, EstablishedMsg(d)) == Waiting(q, l, EstablishedMsg(d));
      assert Waiting(q', BASE, RemoveMsg(d)) == Waiting(q, BASE, RemoveMsg(d));
      assert Waiting(q', l, DestroyedMsg(d)) == Waiting(q, l, DestroyedMsg(d));
    }
  }

  lemma BooksAfterPush(conns: Conns, q: Queues, c: ConnId, e: nat, r: nat, d: nat, l: LoopId, m: Msg)
    requires Books(conns, q, c, e, r, d) && m.conn == c && Home(conns, m) == l
    requires m.EstablishedMsg? ==> e > 0
    requires m.RemoveMsg? ==> r > 0
    requires m.DestroyedMsg? ==> d > 0
    ensures Books(conns, Push(q, l, m), c, if m.EstablishedMsg? then e - 1 else e,
                  if m.RemoveMsg? then r - 1 else r, if m.DestroyedMsg? then d - 1 else d)
  {
    forall l': LoopId, m': Msg | m'.conn != c
      ensures Waiting(Push(q, l, m), l', m') == Waiting(q, l', m')
    {
      PushWaiting(q, l, m, l', m');
    }
    OthersKeep(conns, q, conns, Push(q, l, m), c);
    var home := conns[c].loop;
    PushWaiting(q, l, m, home, EstablishedMsg(c));
    PushWaiting(q, l, m, BASE, RemoveMsg(c));
    PushWaiting(q, l, m, home, DestroyedMsg(c));
  }

  lemma OthersAfterPop(conns: Conns, q: Queues, l: LoopId)
    requires Accounts(conns, q) && QueueIn(q, l) != []
    ensures var c, q' := QueueIn(q, l)[0].conn, q[l := QueueIn(q, l)[1..]];
            forall d :: d in conns && d != c ==> Account(conns, q', d, 0, 0, 0)
  {
    var c, q' := QueueIn(q, l)[0].conn, q[l := QueueIn(q, l)[1..]];
    forall l': LoopId, m': Msg | m'.conn != c
      ensures Waiting(q', l', m') == Waiting(q, l', m')
    {
      PopWaiting(q, l, l', m');
    }
    OthersKeep(conns, q, conns, q', c);
  }

  /** The stage that was waiting at the front is now in hand. */
  lemma AccountAfterPop(conns: Conns, q: Queues, l: LoopId)
    requires QueueIn(q, l) != [] && QueueIn(q, l)[0].conn in conns && Home(conns, QueueIn(q, l)[0]) == l
    requires Account(conns, q, QueueIn(q, l)[0].conn, 0, 0, 0)
    ensures var m := QueueIn(q, l)[0];
            Account(conns, q[l := QueueIn(q, l)[1..]], m.conn, if m.EstablishedMsg? then 1 else 0,
                    if m.RemoveMsg? then 1 else 0, if m.DestroyedMsg? then 1 else 0)
  {
    var c := QueueIn(q, l)[0].conn;
    var home := conns[c].loop;
    PopWaiting(q, l, home, EstablishedMsg(c));
    PopWaiting(q, l, BASE, RemoveMsg(c));
    PopWaiting(q, l, home, DestroyedMsg(c));
  }

  lemma BooksAfterPop(conns: Conns, q: Queues, l: LoopId)
    requires Accounts(conns, q) && QueueIn(q, l) != []
    requires QueueIn(q, l)[0].conn in conns && Home(conns, QueueIn(q, l)[0]) == l
    ensures var m := QueueIn(q, l)[0];
            Books(conns, q[l := QueueIn(q, l)[1..]], m.conn, if m.EstablishedMsg? then 1 else 0,
                  if m.RemoveMsg? then 1 else 0, if m.DestroyedMsg? then 1 else 0)
  {
    OthersAfterPop(conns, q, l);
    assert Account(conns, q, QueueIn(q, l)[0].conn, 0, 0, 0);
    AccountAfterPop(conns, q, l);
  }

  /** Rewriting the record of c. */
  lemma BooksAfterPut(conns: Conns, q: Queues, c: ConnId, k: Conn,
                      e: nat, r: nat, d: nat, e': nat, r': nat, d': nat)
    requires Books(conns, q, c, e, r, d)
    requires Account(conns[c := k], q, c, e', r', d')
    ensures Books(conns[c := k], q, c, e', r', d')
  {
    OthersKeep(conns, q, conns[c := k], q, c);
  }

  lemma BooksOf(conns: Conns, q: Queues, c: ConnId)
    ensures Books(conns, q, c, 0, 0, 0) <==> c in conns && Accounts(conns, q)
  {
  }

  /** No message waits for a connection that does not exist. */
  lemma NothingWaits(conns: Conns, q: Queues, l: LoopId, m: Msg)
    requires Placed(conns, q) && m.conn !in conns
    ensures Waiting(q, l, m) == 0
  {
    assert m !in QueueIn(q, l);
  }

  lemma BooksOfNew(conns: Conns, q: Queues, c: ConnId, name: string, l: LoopId)
    requires Accounts(conns, q) && Placed(conns, q) && c !in conns
    ensures Books(conns[c := Conn(name, l, Connecting, false, 0, 0, 0, 0)], q, c, 1, 0, 0)
  {
    OthersKeep(conns, q, conns[c := Conn(name, l, Connecting, false, 0, 0, 0, 0)], q, c);
    NothingWaits(conns, q, l, EstablishedMsg(c));
    NothingWaits(conns, q, BASE, RemoveMsg(c));
    NothingWaits(conns, q, l, DestroyedMsg(c));
  }

  // ---------------------------------------------------------------- placement, map, active sets

  lemma PlacedPut(conns: Conns, q: Queues, c: ConnId, k: Conn)
    requires Placed(conns, q) && (c in conns ==> k.loop == conns[c].loop)
    ensures Placed(conns[c := k], q)
  {
    forall l, m | l in q && m in q[l]
      ensures m.conn in conns[c := k] && Home(conns[c := k], m) == l
    {
      assert m.conn in conns && Home(conns, m) == l;
    }
  }

  lemma PlacedPush(conns: Conns, q: Queues, l: LoopId, m: Msg)
    requires Placed(conns, q) && m.conn in conns && Home(conns, m) == l
    ensures Placed(conns, Push(q, l, m))
  {
  }

  lemma PlacedPop(conns: Conns, q: Queues, l: LoopId)
    requires Placed(conns, q) && QueueIn(q, l) != []
    ensures Placed(conns, q[l := QueueIn(q, l)[1..]])
    ensures QueueIn(q, l)[0].conn in conns && Home(conns, QueueIn(q, l)[0]) == l
  {
    assert QueueIn(q, l)[0] in q[l];
    assert forall m :: m in QueueIn(q, l)[1..] ==> m in q[l];
  }

  lemma WatchingPut(conns: Conns, phases: Phases, c: ConnId, k: Conn)
    requires Watching(conns, phases)
    requires c in conns ==> k.loop == conns[c].loop
    requires c in conns && !k.registered ==> !IsActive(conns, phases, c)
    ensures Watching(conns[c := k], phases)
  {
    forall l | l in phases && phases[l].Dispatching?
      ensures CanBeActive(conns[c := k], l, phases[l].active)
    {
      assert CanBeActive(conns, l, phases[l].active);
    }
  }

  /** The connection is still to be dispatched in the current round of its loop. */
  predicate IsActive(conns: Conns, phases: Phases, c: ConnId)
    requires c in conns
  {
    var p := PhaseIn(phases, conns[c].loop);
    p.Dispatching? && c in p.active
  }

  lemma DifferentNames(s: State, c: ConnId, d: ConnId)
    requires Fits(s, c) && Fits(s, d) && c != d
    ensures NameOf(s, c) != NameOf(s, d)
  {
    if NameOf(s, c) == NameOf(s, d) {
      NameInjective(s.server, s.hostport, c, d);
    }
  }

  /** Changing a record without erasing keeps the frame if the active sets do not notice. */
  lemma FramePut(s: State, c: ConnId, k: Conn)
    requires Frame(s) && c in s.conns
    requires k.name == s.conns[c].name && k.loop == s.conns[c].loop && k.erased == s.conns[c].erased
    requires !k.registered ==> !IsActive(s.conns, s.phases, c)
    ensures Frame(Put(s, c, k))
  {
    PlacedPut(s.conns, s.queues, c, k);
    WatchingPut(s.conns, s.phases, c, k);
  }

  lemma FramePush(s: State, l: LoopId, m: Msg)
    requires Frame(s) && m.conn in s.conns && Home(s.conns, m) == l
    ensures Frame(Enqueue(s, l, m))
  {
    PlacedPush(s.conns, s.queues, l, m);
  }

  /** Erasing the entry of c leaves every other entry, because no other connection has its name. */
  lemma MappedErase(conns: Conns, table: map<string, ConnId>, c: ConnId, k: Conn)
    requires Mapped(conns, table) && UniqueNames(conns)
    requires c in conns && conns[c].erased == 0 && k.erased > 0 && k.name == conns[c].name
    ensures k.name in table && table[k.name] == c
    ensures Mapped(conns[c := k], table - {k.name}) && UniqueNames(conns[c := k])
  {
  }

  /** A new connection enters under a name that is not in the map. */
  lemma MappedNew(conns: Conns, table: map<string, ConnId>, c: ConnId, k: Conn)
    requires Mapped(conns, table) && UniqueNames(conns) && c !in conns && k.erased == 0
    requires forall d :: d in conns ==> conns[d].name != k.name
    ensures Mapped(conns[c := k], table[k.name := c]) && UniqueNames(conns[c := k])
  {
  }

  // ---------------------------------------------------------------- the operations

  /** The invariant while a stage of connection c is in hand. */
  predicate InHand(s: State, c: ConnId, establishing: nat, removing: nat, destroying: nat) {
    Frame(s) && Books(s.conns, s.queues, c, establishing, removing, destroying)
  }

  lemma EstablishKeepsBooks(conns: Conns, q: Queues, c: ConnId)
    requires Books(conns, q, c, 1, 0, 0)
    ensures conns[c].state.Connecting? && Books(conns[c := Up(conns[c])], q, c, 0, 0, 0)
  {
    BooksAfterPut(conns, q, c, Up(conns[c]), 1, 0, 0, 0, 0, 0);
  }

  lemma EstablishKeepsFrame(s: State, c: ConnId)
    requires Frame(s) && c in s.conns && s.conns[c].state.Connecting?
    ensures Frame(Establish(s, c))
  {
    FramePut(s, c, Up(s.conns[c]));
  }

  lemma EstablishKeeps(s: State, c: ConnId)
    requires InHand(s, c, 1, 0, 0)
    ensures InHand(Establish(s, c), c, 0, 0, 0)
  {
    EstablishKeepsBooks(s.conns, s.queues, c);
    EstablishKeepsFrame(s, c);
    assert Establish(s, c).conns == s.conns[c := Up(s.conns[c])] && Establish(s, c).queues == s.queues;
  }

  lemma DestroyKeepsBooks(conns: Conns, q: Queues, c: ConnId)
    requires Books(conns, q, c, 0, 0, 1)
    ensures conns[c].state.Disconnected? && !conns[c].registered
    ensures Books(conns[c := conns[c].(destroyed := conns[c].destroyed + 1)], q, c, 0, 0, 0)
  {
    BooksAfterPut(conns, q, c, conns[c].(destroyed := conns[c].destroyed + 1), 0, 0, 1, 0, 0, 0);
  }

  lemma DestroyKeeps(s: State, c: ConnId)
    requires InHand(s, c, 0, 0, 1) && PhaseOf(s, s.conns[c].loop).Functors?
    ensures InHand(Destroy(s, c), c, 0, 0, 0)
  {
    DestroyKeepsBooks(s.conns, s.queues, c);
    var k' := s.conns[c].(destroyed := s.conns[c].destroyed + 1);
    FramePut(s, c, k');
    assert Destroy(s, c) == Put(s, c, k');
  }

  lemma RemoveKeepsBooks(conns: Conns, q: Queues, c: ConnId)
    requires Books(conns, q, c, 0, 1, 0)
    ensures conns[c].erased == 0 && !conns[c].registered
    ensures Books(conns[c := conns[c].(erased := 1)], Push(q, conns[c].loop, DestroyedMsg(c)), c, 0, 0, 0)
  {
    var k' := conns[c].(erased := 1);
    BooksAfterPut(conns, q, c, k', 0, 1, 0, 0, 0, 1);
    BooksAfterPush(conns[c := k'], q, c, 0, 0, 1, k'.loop, DestroyedMsg(c));
  }

  lemma EraseKeepsFrame(s: State, c: ConnId)
    requires Frame(s) && c in s.conns && s.conns[c].erased == 0 && !s.conns[c].registered
    ensures Frame(Erase(s, c))
  {
    var k' := s.conns[c].(erased := 1);
    MappedErase(s.conns, s.table, c, k');
    PlacedPut(s.conns, s.queues, c, k');
    assert !IsActive(s.conns, s.phases, c);
    WatchingPut(s.conns, s.phases, c, k');
  }

  lemma RemoveKeepsFrame(s: State, c: ConnId)
    requires Frame(s) && c in s.conns && s.conns[c].erased == 0 && !s.conns[c].registered
    ensures Frame(RemoveInLoop(s, c))
  {
    EraseKeepsFrame(s, c);
    FramePush(Erase(s, c), s.conns[c].loop, DestroyedMsg(c));
  }

  lemma RemoveKeeps(s: State, c: ConnId)
    requires InHand(s, c, 0, 1, 0)
    ensures InHand(RemoveInLoop(s, c), c, 0, 0, 0)
  {
    RemoveKeepsBooks(s.conns, s.queues, c);
    RemoveKeepsFrame(s, c);
  }

  lemma CloseKeeps(s: State, c: ConnId)
    requires InHand(s, c, 0, 0, 0) && !IsActive(s.conns, s.phases, c)
    requires s.conns[c].state.Connected? || s.conns[c].state.Disconnecting?
    ensures InHand(CloseConn(s, c), c, 0, 0, 0)
  {
    var k := s.conns[c];
    var t := Put(s, c, Down(k));
    BooksAfterPut(s.conns, s.queues, c, Down(k), 0, 0, 0, 0, 1, 0);
    FramePut(s, c, Down(k));
    if k.loop == BASE {
      RemoveKeeps(t, c);
      assert CloseConn(s, c) == RemoveInLoop(t, c);
    } else {
      BooksAfterPush(t.conns, t.queues, c, 0, 1, 0, BASE, RemoveMsg(c));
      FramePush(t, BASE, RemoveMsg(c));
      assert CloseConn(s, c) == Enqueue(t, BASE, RemoveMsg(c));
    }
  }

  // ---------------------------------------------------------------- the steps

  /** What RunOne does before it runs the functor. */
  function Popped(s: State, l: LoopId): State
    requires PhaseOf(s, l).Functors? && PhaseOf(s, l).left > 0 && Queue(s, l) != []
  {
    s.(queues := s.queues[l := Queue(s, l)[1..]], phases := s.phases[l := Functors(PhaseOf(s, l).left - 1)])
  }

  lemma PoppedFrame(s: State, l: LoopId)
    requires Frame(s) && PhaseOf(s, l).Functors? && PhaseOf(s, l).left > 0 && Queue(s, l) != []
    ensures Frame(Popped(s, l))
    ensures Queue(s, l)[0].conn in s.conns && Home(s.conns, Queue(s, l)[0]) == l
  {
    PlacedPop(s.conns, s.queues, l);
  }

  lemma PoppedInHand(s: State, l: LoopId)
    requires Core(s) && PhaseOf(s, l).Functors? && PhaseOf(s, l).left > 0 && Queue(s, l) != []
    ensures var m, t := Queue(s, l)[0], Popped(s, l);
            && m.conn in s.conns && Home(s.conns, m) == l
            && InHand(t, m.conn, if m.EstablishedMsg? then 1 else 0,
                      if m.RemoveMsg? then 1 else 0, if m.DestroyedMsg? then 1 else 0)
  {
    PoppedFrame(s, l);
    BooksAfterPop(s.conns, s.queues, l);
  }

  lemma RunMsgKeeps(t: State, m: Msg)
    requires m.conn in t.conns && PhaseOf(t, Home(t.conns, m)).Functors?
    requires InHand(t, m.conn, if m.EstablishedMsg? then 1 else 0,
                    if m.RemoveMsg? then 1 else 0, if m.DestroyedMsg? then 1 else 0)
    ensures InHand(RunMsg(t, m), m.conn, 0, 0, 0)
  {
    match m
    case EstablishedMsg(c) => EstablishKeeps(t, c);
    case ForceCloseMsg(c) =>
      if t.conns[c].state.Connected? || t.conns[c].state.Disconnecting? {
        CloseKeeps(t, c);
      }
    case RemoveMsg(c) => RemoveKeeps(t, c);
    case DestroyedMsg(c) => DestroyKeeps(t, c);
    case _ =>
  }

  lemma InHandDone(s: State, c: ConnId)
    requires InHand(s, c, 0, 0, 0)
    ensures Core(s)
  {
    BooksOf(s.conns, s.queues, c);
  }

  lemma RunOneKeeps(s: State, l: LoopId)
    requires Core(s) && Enabled(s, RunOne(l))
    ensures Core(RunOneStep(s, l))
  {
    PoppedInHand(s, l);
    RunMsgKeeps(Popped(s, l), Queue(s, l)[0]);
    InHandDone(RunOneStep(s, l), Queue(s, l)[0].conn);
  }

  lemma DispatchKeeps(s: State, c: ConnId, r: Revents, read: ReadResult)
    requires Core(s) && Enabled(s, Dispatch(c, r, read)) && CloseCalls(r, read) <= 1
    ensures Core(DispatchStep(s, c, r, read))
  {
    var l := s.conns[c].loop;
    var active := PhaseOf(s, l).active;
    var t := s.(phases := s.phases[l := Dispatching(active - {c})]);
    BooksOf(s.conns, s.queues, c);
    assert CanBeActive(s.conns, l, active);
    assert CanBeActive(s.conns, l, active - {c});
    assert Frame(t);
    assert Account(s.conns, s.queues, c, 0, 0, 0);
    if ClosesFirst(r) || ClosesOnRead(r, read) {
      CloseKeeps(t, c);
    }
    InHandDone(DispatchStep(s, c, r, read), c);
  }

  /**
   The double close: a dispatch of an active connection meets only true assertions if and only if it is not a
   hangup without input that carries PRI or RDHUP and reads end of file.
   */
  lemma DispatchSafeIff(s: State, c: ConnId, r: Revents, read: ReadResult)
    requires Core(s) && c in s.conns && IsActive(s.conns, s.phases, c)
    ensures DispatchStep(s, c, r, read).asserts
            <==> !(r.hup && !r.in_ && (r.pri || r.rdhup) && read.ReadEof?)
  {
    DoubleCloseIff(r, read);
    if CloseCalls(r, read) <= 1 {
      DispatchKeeps(s, c, r, read);
    } else {
      var l := s.conns[c].loop;
      var t := s.(phases := s.phases[l := Dispatching(PhaseOf(s, l).active - {c})]);
      CloseRecord(t, c);
      assert CloseConn(t, c).conns[c].state.Disconnected?;
    }
  }

  lemma NewFrame(s: State, l: LoopId)
    requires Frame(s) && Naming(s) && Fits(s, s.nextId)
    ensures Frame(Admit(s, l))
  {
    var c := s.nextId;
    var k := NewConn(s, c, l);
    forall d | d in s.conns
      ensures s.conns[d].name != k.name
    {
      DifferentNames(s, c, d);
    }
    PlacedPut(s.conns, s.queues, c, k);
    MappedNew(s.conns, s.table, c, k);
    WatchingPut(s.conns, s.phases, c, k);
  }

  lemma AcceptKeeps(s: State, l: LoopId)
    requires Inv(s) && Fits(s, s.nextId)
    ensures Core(AcceptStep(s, l))
  {
    var c := s.nextId;
    var k := NewConn(s, c, l);
    var t := Admit(s, l);
    BooksOfNew(s.conns, s.queues, c, k.name, l);
    NewFrame(s, l);
    if l == BASE {
      EstablishKeeps(t, c);
    } else {
      BooksAfterPush(t.conns, t.queues, c, 1, 0, 0, l, EstablishedMsg(c));
      FramePush(t, l, EstablishedMsg(c));
    }
    InHandDone(AcceptStep(s, l), c);
  }

  /** Shutdown and ForceClose: the state check and set is one step. */
  lemma DisconnectingKeeps(s: State, c: ConnId)
    requires Core(s) && c in s.conns && (s.conns[c].state.Connected? || s.conns[c].state.Disconnecting?)
    ensures Core(Disconnect(s, c))
  {
    var k := s.conns[c].(state := Disconnecting);
    assert Account(s.conns, s.queues, c, 0, 0, 0);
    BooksOf(s.conns, s.queues, c);
    BooksAfterPut(s.conns, s.queues, c, k, 0, 0, 0, 0, 0, 0);
    FramePut(s, c, k);
    InHandDone(Put(s, c, k), c);
  }

  /** Queueing a functor that is not part of the account. */
  lemma FunctorKeeps(s: State, c: ConnId, m: Msg)
    requires Core(s) && c in s.conns && m.conn == c && (m.ForceCloseMsg? || IsRaw(m))
    ensures Core(Enqueue(s, s.conns[c].loop, m))
  {
    BooksOf(s.conns, s.queues, c);
    BooksAfterPush(s.conns, s.queues, c, 0, 0, 0, s.conns[c].loop, m);
    FramePush(s, s.conns[c].loop, m);
    InHandDone(Enqueue(s, s.conns[c].loop, m), c);
  }

  lemma SendKeeps(s: State, c: ConnId)
    requires Core(s) && c in s.conns
    ensures Core(SendStep(s, c))
  {
    FunctorKeeps(s, c, SendMsg(c));
  }

  lemma ShutdownKeeps(s: State, c: ConnId, inLoop: bool)
    requires Core(s) && c in s.conns
    ensures Core(ShutdownStep(s, c, inLoop))
  {
    if s.conns[c].state.Connected? {
      DisconnectingKeeps(s, c);
      FunctorKeeps(Disconnect(s, c), c, ShutdownMsg(c));
    }
  }

  lemma ForceCloseKeeps(s: State, c: ConnId)
    requires Core(s) && c in s.conns
    ensures Core(ForceCloseStep(s, c))
  {
    if s.conns[c].state.Connected? || s.conns[c].state.Disconnecting? {
      DisconnectingKeeps(s, c);
      FunctorKeeps(Disconnect(s, c), c, ForceCloseMsg(c));
    }
  }

  /** The steps that only move a loop to its next phase. */
  lemma PhaseKeeps(s: State, l: LoopId, p: Phase)
    requires Core(s)
    requires p.Dispatching? ==> CanBeActive(s.conns, l, p.active)
    requires p.Functors? ==> p.left <= |Queue(s, l)|
    ensures Core(s.(phases := s.phases[l := p]))
  {
  }

  lemma StepKeepsCore(s: State, e: Event)
    requires Inv(s) && Enabled(s, e) && Single(e)
    ensures Core(Step(s, e))
  {
    match e
    case Poll(l, active) => PhaseKeeps(s, l, Dispatching(active));
    case Accept(l) => AcceptKeeps(s, l);
    case Dispatch(c, r, read) => DispatchKeeps(s, c, r, read);
    case EndDispatch(l) => PhaseKeeps(s, l, Functors(|Queue(s, l)|));
    case RunOne(l) => RunOneKeeps(s, l);
    case EndFunctors(l) => PhaseKeeps(s, l, Polling);
    case Send(c) => SendKeeps(s, c);
    case Shutdown(c, inLoop) => ShutdownKeeps(s, c, inLoop);
    case ForceClose(c) => ForceCloseKeeps(s, c);
  }

  /** t has the connections of s, under the same names. */
  predicate SameNames(s: State, t: State) {
    && t.server == s.server && t.hostport == s.hostport && t.conns.Keys == s.conns.Keys
    && forall d :: d in s.conns ==> t.conns[d].name == s.conns[d].name
  }

  /** And destroyed as often. */
  predicate SameDestroyed(s: State, t: State) {
    t.conns.Keys == s.conns.Keys && forall d :: d in s.conns ==> t.conns[d].destroyed == s.conns[d].destroyed
  }

  lemma RemoveSame(s: State, c: ConnId)
    requires c in s.conns
    ensures SameNames(s, RemoveInLoop(s, c)) && SameDestroyed(s, RemoveInLoop(s, c))
  {
  }

  lemma CloseRecord(s: State, c: ConnId)
    requires c in s.conns
    ensures var k, t := s.conns[c], CloseConn(s, c);
            && t.server == s.server && t.hostport == s.hostport
            && t.conns == s.conns[c := if k.loop == BASE then Down(k).(erased := k.erased + 1) else Down(k)]
  {
  }

  lemma CloseSame(s: State, c: ConnId)
    requires c in s.conns
    ensures SameNames(s, CloseConn(s, c)) && SameDestroyed(s, CloseConn(s, c))
  {
    CloseRecord(s, c);
  }

  lemma RunMsgSame(s: State, m: Msg)
    requires m.conn in s.conns
    ensures SameNames(s, RunMsg(s, m))
    ensures forall d :: d in s.conns && m != DestroyedMsg(d) ==> RunMsg(s, m).conns[d].destroyed == s.conns[d].destroyed
  {
    match m
    case ForceCloseMsg(c) => CloseSame(s, c);
    case RemoveMsg(c) => RemoveSame(s, c);
    case _ =>
  }

  lemma DispatchSame(s: State, c: ConnId, r: Revents, read: ReadResult)
    requires Enabled(s, Dispatch(c, r, read))
    ensures SameNames(s, DispatchStep(s, c, r, read)) && SameDestroyed(s, DispatchStep(s, c, r, read))
  {
    var l := s.conns[c].loop;
    CloseSame(s.(phases := s.phases[l := Dispatching(PhaseOf(s, l).active - {c})]), c);
    CloseSame(BeforeRead(s, c, r), c);
  }

  lemma NamesKeepNaming(s: State, t: State)
    requires Naming(s) && SameNames(s, t)
    ensures Naming(t)
  {
  }

  lemma AcceptKeepsNaming(s: State, l: LoopId)
    requires Naming(s) && Fits(s, s.nextId)
    ensures Naming(AcceptStep(s, l))
  {
    AcceptRecord(s, l);
  }

  lemma AcceptRecord(s: State, l: LoopId)
    ensures var c, t := s.nextId, AcceptStep(s, l);
            && t.server == s.server && t.hostport == s.hostport
            && t.conns == s.conns[c := if l == BASE then Up(NewConn(s, c, l)) else NewConn(s, c, l)]
  {
  }

  lemma OtherStepsSame(s: State, e: Event)
    requires Enabled(s, e) && !e.Accept?
    ensures SameNames(s, Step(s, e))
  {
    match e
    case Dispatch(c, r, read) => DispatchSame(s, c, r, read);
    case RunOne(l) => RunMsgSame(Popped(s, l), Queue(s, l)[0]);
    case _ =>
  }

  lemma StepKeepsNaming(s: State, e: Event)
    requires Naming(s) && Enabled(s, e)
    ensures Naming(Step(s, e))
  {
    if e.Accept? {
      AcceptKeepsNaming(s, e.loop);
    } else {
      OtherStepsSame(s, e);
      NamesKeepNaming(s, Step(s, e));
    }
  }

  // ---------------------------------------------------------------- raw pointers in functors

  lemma RawPush(conns: Conns, q: Queues, l: LoopId, m: Msg)
    requires RawLive(conns, q)
    requires IsRaw(m) ==> m.conn in conns && conns[m.conn].destroyed == 0 && DestroyedMsg(m.conn) !in QueueIn(q, l)
    ensures RawLive(conns, Push(q, l, m))
  {
    var was, now := QueueIn(q, l), QueueIn(Push(q, l, m), l);
    assert now == was + [m];
    forall i, j | 0 <= i < j < |now| && now[i].DestroyedMsg? && IsRaw(now[j])
      ensures now[j].conn != now[i].conn
    {
      if j == |was| {
        assert now[i] in was;
      }
    }
  }

  lemma RawPut(conns: Conns, q: Queues, c: ConnId, k: Conn)
    requires RawLive(conns, q) && (c in conns ==> k.destroyed == conns[c].destroyed)
    ensures RawLive(conns[c := k], q)
  {
  }

  lemma RawPop(conns: Conns, q: Queues, l: LoopId)
    requires RawLive(conns, q) && QueueIn(q, l) != []
    ensures RawLive(conns, q[l := QueueIn(q, l)[1..]])
  {
    var was, now := QueueIn(q, l), QueueIn(q, l)[1..];
    assert RawFirst(was);
    forall i, j | 0 <= i < j < |now| && now[i].DestroyedMsg? && IsRaw(now[j])
      ensures now[j].conn != now[i].conn
    {
      assert was[i + 1] == now[i] && was[j + 1] == now[j];
    }
    assert forall m :: m in now ==> m in was;
  }

  /** When the functor that destroys a connection has left the queue, no raw functor for it waits anywhere. */
  lemma NoRawAfterDestroy(conns: Conns, q: Queues, l: LoopId, l': LoopId, m: Msg)
    requires RawLive(conns, q) && Placed(conns, q) && QueueIn(q, l) != [] && QueueIn(q, l)[0].DestroyedMsg?
    requires m in QueueIn(q[l := QueueIn(q, l)[1..]], l') && IsRaw(m)
    ensures m.conn != QueueIn(q, l)[0].conn
  {
    var was := QueueIn(q, l);
    assert was[0] in q[l] && RawFirst(q[l]);
    if l' == l {
      var j :| 0 <= j < |was[1..]| && was[1..][j] == m;
      assert was[j + 1] == m;
    } else {
      assert m in q[l'] && Home(conns, m) == l' && Home(conns, was[0]) == l;
    }
  }

  lemma RemoveKeepsRaw(s: State, c: ConnId)
    requires c in s.conns && RawLive(s.conns, s.queues)
    ensures RawLive(RemoveInLoop(s, c).conns, RemoveInLoop(s, c).queues)
  {
    var k := s.conns[c];
    RawPut(s.conns, s.queues, c, k.(erased := k.erased + 1));
    RawPush(s.conns[c := k.(erased := k.erased + 1)], s.queues, k.loop, DestroyedMsg(c));
  }

  lemma CloseKeepsRaw(s: State, c: ConnId)
    requires c in s.conns && RawLive(s.conns, s.queues)
    ensures RawLive(CloseConn(s, c).conns, CloseConn(s, c).queues)
  {
    var k := s.conns[c];
    var t := Put(s, c, Down(k)).(asserts := s.asserts && (k.state.Connected? || k.state.Disconnecting?));
    RawPut(s.conns, s.queues, c, Down(k));
    if k.loop == BASE {
      RemoveKeepsRaw(t, c);
    } else {
      RawPush(t.conns, s.queues, BASE, RemoveMsg(c));
    }
  }

  lemma RunMsgKeepsRaw(s: State, m: Msg)
    requires m.conn in s.conns && RawLive(s.conns, s.queues)
    requires m.DestroyedMsg? ==> forall l: LoopId, m' :: m' in Queue(s, l) && IsRaw(m') ==> m'.conn != m.conn
    ensures RawLive(RunMsg(s, m).conns, RunMsg(s, m).queues)
  {
    match m
    case EstablishedMsg(c) => RawPut(s.conns, s.queues, c, Up(s.conns[c]));
    case ForceCloseMsg(c) => CloseKeepsRaw(s, c);
    case RemoveMsg(c) => RemoveKeepsRaw(s, c);
    case DestroyedMsg(c) =>
      forall l, m' | l in s.queues && m' in s.queues[l] && IsRaw(m')
        ensures m'.conn != c
      {
        assert m' in Queue(s, l);
      }
    case _ =>
  }

  lemma AcceptKeepsRaw(s: State, l: LoopId)
    requires RawLive(s.conns, s.queues) && s.nextId !in s.conns
    ensures RawLive(AcceptStep(s, l).conns, AcceptStep(s, l).queues)
  {
    var c := s.nextId;
    var k := NewConn(s, c, l);
    RawPut(s.conns, s.queues, c, k);
    if l == BASE {
      RawPut(s.conns[c := k], s.queues, c, Up(k));
    } else {
      RawPush(s.conns[c := k], s.queues, l, EstablishedMsg(c));
    }
  }

  /** While a connection is connected nothing waits to destroy it, so a raw functor may be queued. */
  lemma ConnectedIsSafe(s: State, c: ConnId)
    requires Core(s) && c in s.conns && s.conns[c].state.Connected?
    ensures s.conns[c].destroyed == 0 && DestroyedMsg(c) !in Queue(s, s.conns[c].loop)
  {
    assert Account(s.conns, s.queues, c, 0, 0, 0);
    assert Waiting(s.queues, s.conns[c].loop, DestroyedMsg(c)) == 0;
  }

  lemma SendKeepsRaw(s: State, c: ConnId)
    requires Core(s) && RawLive(s.conns, s.queues) && c in s.conns
    ensures RawLive(SendStep(s, c).conns, SendStep(s, c).queues)
  {
    if s.conns[c].state.Connected? {
      ConnectedIsSafe(s, c);
      RawPush(s.conns, s.queues, s.conns[c].loop, SendMsg(c));
    }
  }

  lemma ShutdownKeepsRaw(s: State, c: ConnId, inLoop: bool)
    requires Core(s) && RawLive(s.conns, s.queues) && c in s.conns
    ensures RawLive(ShutdownStep(s, c, inLoop).conns, ShutdownStep(s, c, inLoop).queues)
  {
    if s.conns[c].state.Connected? {
      ConnectedIsSafe(s, c);
      RawPut(s.conns, s.queues, c, s.conns[c].(state := Disconnecting));
      RawPush(Disconnect(s, c).conns, s.queues, s.conns[c].loop, ShutdownMsg(c));
    }
  }

  lemma ForceCloseKeepsRaw(s: State, c: ConnId)
    requires RawLive(s.conns, s.queues) && c in s.conns
    ensures RawLive(ForceCloseStep(s, c).conns, ForceCloseStep(s, c).queues)
  {
    RawPut(s.conns, s.queues, c, s.conns[c].(state := Disconnecting));
    RawPush(Disconnect(s, c).conns, s.queues, s.conns[c].loop, ForceCloseMsg(c));
  }

  lemma DispatchKeepsRaw(s: State, c: ConnId, r: Revents, read: ReadResult)
    requires RawLive(s.conns, s.queues) && Enabled(s, Dispatch(c, r, read))
    ensures RawLive(DispatchStep(s, c, r, read).conns, DispatchStep(s, c, r, read).queues)
  {
    var l := s.conns[c].loop;
    CloseKeepsRaw(s.(phases := s.phases[l := Dispatching(PhaseOf(s, l).active - {c})]), c);
    CloseKeepsRaw(BeforeRead(s, c, r), c);
  }

  lemma RunOneKeepsRaw(s: State, l: LoopId)
    requires RawLive(s.conns, s.queues) && Placed(s.conns, s.queues) && Enabled(s, RunOne(l))
    ensures RawLive(RunOneStep(s, l).conns, RunOneStep(s, l).queues)
  {
    var t, m := Popped(s, l), Queue(s, l)[0];
    RawPop(s.conns, s.queues, l);
    forall l': LoopId, m' | m.DestroyedMsg? && m' in Queue(t, l') && IsRaw(m')
      ensures m'.conn != m.conn
    {
      NoRawAfterDestroy(s.conns, s.queues, l, l', m');
    }
    RunMsgKeepsRaw(t, m);
  }

  lemma CallKeepsRaw(s: State, e: Event)
    requires Core(s) && RawLive(s.conns, s.queues) && Enabled(s, e) && (e.Send? || e.Shutdown? || e.ForceClose?)
    ensures RawLive(Step(s, e).conns, Step(s, e).queues)
  {
    match e
    case Send(c) => SendKeepsRaw(s, c);
    case Shutdown(c, inLoop) => ShutdownKeepsRaw(s, c, inLoop);
    case ForceClose(c) => ForceCloseKeepsRaw(s, c);
  }

  lemma StepKeepsRaw(s: State, e: Event)
    requires Inv(s) && Enabled(s, e)
    ensures RawLive(Step(s, e).conns, Step(s, e).queues)
  {
    match e
    case Accept(l) => AcceptKeepsRaw(s, l);
    case Dispatch(c, r, read) => DispatchKeepsRaw(s, c, r, read);
    case RunOne(l) => RunOneKeepsRaw(s, l);
    case Poll(_, _) =>
    case EndDispatch(_) =>
    case EndFunctors(_) =>
    case _ => CallKeepsRaw(s, e);
  }

  lemma StepKeepsInv(s: State, e: Event)
    requires Inv(s) && Enabled(s, e) && Single(e)
    ensures Inv(Step(s, e))
  {
    StepKeepsCore(s, e);
    StepKeepsNaming(s, e);
    StepKeepsRaw(s, e);
  }

  // ---------------------------------------------------------------- runs

  predicate Legal(s: State, es: seq<Event>)
    decreases |es|
  {
    es != [] ==> Enabled(s, es[0]) && Legal(Step(s, es[0]), es[1..])
  }

  function Run(s: State, es: seq<Event>): State
    requires Legal(s, es)
    decreases |es|
  {
    if es == [] then s else Run(Step(s, es[0]), es[1..])
  }

  lemma {:induction false} RunKeepsInv(s: State, es: seq<Event>)
    requires Inv(s) && Legal(s, es) && SingleCloses(es)
    ensures Inv(Run(s, es))
    decreases |es|
  {
    if es == [] {
    } else {
      StepKeepsInv(s, es[0]);
      RunKeepsInv(Step(s, es[0]), es[1..]);
    }
  }

  /** A failed assertion stays on record. */
  lemma {:induction false} FailureStays(s: State, es: seq<Event>)
    requires Legal(s, es) && !s.asserts
    ensures !Run(s, es).asserts
    decreases |es|
  {
    if es == [] {
    } else {
      FailureStays(Step(s, es[0]), es[1..]);
    }
  }

  lemma DoubleFails(s: State, e: Event, rest: seq<Event>)
    requires Core(s) && Enabled(s, e) && !Single(e) && Legal(Step(s, e), rest)
    ensures !Run(Step(s, e), rest).asserts
  {
    DoubleCloseIff(e.revents, e.read);
    DispatchSafeIff(s, e.conn, e.revents, e.read);
    FailureStays(Step(s, e), rest);
  }

  /** From a good state, every assertion of a run holds if and only if no dispatch closes twice. */
  lemma {:induction false} AssertsIffSingle(s: State, es: seq<Event>)
    requires Inv(s) && Legal(s, es)
    ensures Run(s, es).asserts <==> SingleCloses(es)
    decreases |es|
  {
    if es == [] {
    } else {
      var e, rest := es[0], es[1..];
      assert es == [e] + rest;
      if Single(e) {
        StepKeepsInv(s, e);
        AssertsIffSingle(Step(s, e), rest);
        assert SingleCloses(es) <==> SingleCloses(rest);
      } else {
        DoubleFails(s, e, rest);
      }
    }
  }

  lemma {:induction false} RunKeepsAddress(s: State, es: seq<Event>)
    requires Legal(s, es)
    ensures Run(s, es).server == s.server && Run(s, es).hostport == s.hostport
    decreases |es|
  {
    if es == [] {
    } else {
      if es[0].Accept? {
        AcceptRecord(s, es[0].loop);
      } else {
        OtherStepsSame(s, es[0]);
      }
      RunKeepsAddress(Step(s, es[0]), es[1..]);
    }
  }

  // ---------------------------------------------------------------- the main results

  /**
   The stages of every connection, over every run of the base loop and any number of I/O loops. Every assertion met
   on the way holds (the state before establishing and closing, the erase that finds its entry, the empty interest
   and the absence of event dispatch when a connection is destroyed) if and only if no dispatch closes twice. Then
   each connection is established at most once, closed at most once and only after that, erased from the map at
   most once and only after the close, destroyed at most once and only after the erase; it is in the map, under
   its name, exactly until it is erased, so in particular as long as it is not disconnected.
   */
  lemma ConnectionLifecycle(server: string, hostport: string, es: seq<Event>, c: ConnId)
    requires Legal(Init(server, hostport), es)
    requires c in Run(Init(server, hostport), es).conns
    ensures var s := Run(Init(server, hostport), es);
            var k := s.conns[c];
            && (s.asserts <==> SingleCloses(es))
            && (s.asserts ==>
                  && 1 >= k.established >= k.closed >= k.erased >= k.destroyed
                  && k.name == Name(server, hostport, c)
                  && (k.erased == 0 <==> k.name in s.table && s.table[k.name] == c)
                  && (!k.state.Disconnected? ==> k.erased == 0))
  {
    AssertsIffSingle(Init(server, hostport), es);
    var s := Run(Init(server, hostport), es);
    if s.asserts {
      RunKeepsInv(Init(server, hostport), es);
      RunKeepsAddress(Init(server, hostport), es);
      assert Account(s.conns, s.queues, c, 0, 0, 0);
    }
  }

  /** Exactly once: when no functor is left anywhere, every connection was established, and every closed one erased and destroyed. */
  lemma NothingForgotten(server: string, hostport: string, es: seq<Event>, c: ConnId)
    requires Legal(Init(server, hostport), es) && SingleCloses(es)
    requires var s := Run(Init(server, hostport), es);
             c in s.conns && Queue(s, s.conns[c].loop) == [] && Queue(s, BASE) == []
    ensures var k := Run(Init(server, hostport), es).conns[c];
            && k.established == 1
            && k.closed == k.erased == k.destroyed == (if k.state.Disconnected? then 1 else 0)
  {
    RunKeepsInv(Init(server, hostport), es);
    var s := Run(Init(server, hostport), es);
    assert Account(s.conns, s.queues, c, 0, 0, 0);
  }

  /**
   Events reach a connection only while it is established and not yet closed. Inside one dispatch the read callback
   still finds it so if and only if the poll result was not a hangup without input.
   */
  lemma EventsOnlyWhileUp(server: string, hostport: string, es: seq<Event>, c: ConnId, r: Revents, read: ReadResult)
    requires Legal(Init(server, hostport), es) && SingleCloses(es)
    requires Enabled(Run(Init(server, hostport), es), Dispatch(c, r, read))
    ensures var s := Run(Init(server, hostport), es);
            && s.conns[c].established == 1 && s.conns[c].closed == 0
            && (BeforeRead(s, c, r).conns[c].closed == 0 <==> !(r.hup && !r.in_))
  {
    RunKeepsInv(Init(server, hostport), es);
    var s := Run(Init(server, hostport), es);
    ActiveIsUp(s, c);
    var l := s.conns[c].loop;
    CloseRecord(s.(phases := s.phases[l := Dispatching(PhaseOf(s, l).active - {c})]), c);
  }

  /**
   The raw pointer in a queued SendInLoop or ShutdownInLoop is never dangling: whenever such a functor is about to
   run, its connection is established and ConnectDestroyed has not run yet.
   */
  lemma RawPointersAreLive(server: string, hostport: string, es: seq<Event>, l: LoopId)
    requires Legal(Init(server, hostport), es) && SingleCloses(es)
    requires Enabled(Run(Init(server, hostport), es), RunOne(l))
    requires IsRaw(Queue(Run(Init(server, hostport), es), l)[0])
    ensures var s := Run(Init(server, hostport), es);
            var k := s.conns[Queue(s, l)[0].conn];
            k.loop == l && k.destroyed == 0
  {
    RunKeepsInv(Init(server, hostport), es);
    var s := Run(Init(server, hostport), es);
    PlacedPop(s.conns, s.queues, l);
    assert Queue(s, l)[0] in s.queues[l];
  }

  lemma ActiveIsUp(s: State, c: ConnId)
    requires Accounts(s.conns, s.queues) && Watching(s.conns, s.phases)
    requires c in s.conns && IsActive(s.conns, s.phases, c)
    ensures s.conns[c].established == 1 && s.conns[c].closed == 0
  {
    assert Account(s.conns, s.queues, c, 0, 0, 0);
    assert CanBeActive(s.conns, s.conns[c].loop, PhaseOf(s, s.conns[c].loop).active);
  }

  /** Only the functor phase of its own loop destroys a connection, and only after the erase. */
  lemma DestroyedOutsideDispatch(s: State, e: Event, c: ConnId)
    requires Inv(s) && Enabled(s, e) && c in s.conns
    requires c in Step(s, e).conns && Step(s, e).conns[c].destroyed != s.conns[c].destroyed
    ensures e == RunOne(s.conns[c].loop) && PhaseOf(s, s.conns[c].loop).Functors? && s.conns[c].erased == 1
  {
    if e.RunOne? {
      DestroyedByMessage(s, e.loop, c);
    } else {
      OnlyFunctorsDestroy(s, e, c);
    }
  }

  lemma OnlyFunctorsDestroy(s: State, e: Event, c: ConnId)
    requires Enabled(s, e) && !e.RunOne? && c in s.conns && c < s.nextId
    ensures c in Step(s, e).conns && Step(s, e).conns[c].destroyed == s.conns[c].destroyed
  {
    match e
    case Dispatch(d, r, read) => DispatchSame(s, d, r, read);
    case _ =>
  }

  lemma DestroyedByMessage(s: State, l: LoopId, c: ConnId)
    requires Core(s) && Enabled(s, RunOne(l)) && c in s.conns
    requires c in RunOneStep(s, l).conns && RunOneStep(s, l).conns[c].destroyed != s.conns[c].destroyed
    ensures l == s.conns[c].loop && s.conns[c].erased == 1
  {
    PoppedFrame(s, l);
    var m := Queue(s, l)[0];
    RunMsgSame(Popped(s, l), m);
    assert m == DestroyedMsg(c);
    assert Account(s.conns, s.queues, c, 0, 0, 0);
    PopWaiting(s.queues, l, l, m);
  }

  /** A loop inside a batch can always run its next functor. */
  lemma BatchIsReady(server: string, hostport: string, es: seq<Event>, l: LoopId)
    requires Legal(Init(server, hostport), es) && SingleCloses(es)
    requires var s := Run(Init(server, hostport), es);
             PhaseOf(s, l).Functors? && PhaseOf(s, l).left > 0
    ensures Enabled(Run(Init(server, hostport), es), RunOne(l))
  {
    RunKeepsInv(Init(server, hostport), es);
    PoppedFrame(Run(Init(server, hostport), es), l);
  }

  /** Connection 1 is accepted on the base loop and becomes active. */
  function AcceptedRun(): seq<Event> { [Poll(0, {}), Accept(0), EndDispatch(0), EndFunctors(0), Poll(0, {1})] }

  /** Its poll result is a hangup with PRI but without IN, and its read finds the end of the stream. */
  function HangupWithPri(): Event { Dispatch(1, Revents(true, false, true, false), ReadEof) }

  /** Connection 1, on the base loop, is the only one; it is up and its poll result is being dispatched. */
  predicate Alone(s: State) {
    && PhaseOf(s, 0) == Dispatching({1}) && Queue(s, 0) == [] && s.asserts
    && s.conns.Keys == {1} && s.conns[1] == Up(NewConn(s, 1, 0)) && s.table == map[s.conns[1].name := 1]
  }

  lemma RunFrom(s: State, es: seq<Event>, i: nat)
    requires i < |es| && Enabled(s, es[i]) && Legal(Step(s, es[i]), es[i + 1..])
    ensures Legal(s, es[i..]) && Run(s, es[i..]) == Run(Step(s, es[i]), es[i + 1..])
  {
    assert es[i..][1..] == es[i + 1..];
  }

  lemma AcceptedRunEnds(server: string, hostport: string)
    requires |hostport| + 3 < BUF_SIZE
    ensures Legal(Init(server, hostport), AcceptedRun())
    ensures var s := Run(Init(server, hostport), AcceptedRun());
            Enabled(s, HangupWithPri()) && Alone(s)
  {
    var es := AcceptedRun();
    assert Pow10(Room(hostport)) == 10 * Pow10(Room(hostport) - 1);
    var s1 := Step(Init(server, hostport), es[0]);
    var s2 := Step(s1, es[1]);
    var s3 := Step(s2, es[2]);
    var s4 := Step(s3, es[3]);
    var s5 := Step(s4, es[4]);
    RunFrom(s4, es, 4);
    RunFrom(s3, es, 3);
    RunFrom(s2, es, 2);
    RunFrom(s1, es, 1);
  }

  /** The double close is real: that dispatch breaks the assertion of HandleClose. */
  lemma DoubleCloseHappens(server: string, hostport: string)
    requires |hostport| + 3 < BUF_SIZE
    ensures Legal(Init(server, hostport), AcceptedRun())
    ensures var s := Run(Init(server, hostport), AcceptedRun());
            s.asserts && Enabled(s, HangupWithPri()) && !Step(s, HangupWithPri()).asserts
  {
    AcceptedRunEnds(server, hostport);
    RunKeepsInv(Init(server, hostport), AcceptedRun());
    var s, e := Run(Init(server, hostport), AcceptedRun()), HangupWithPri();
    DispatchSafeIff(s, 1, e.revents, e.read);
  }
}
