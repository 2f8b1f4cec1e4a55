/**
 The outgoing connector, muduo-cpp11/net/connector.cpp: one connection attempt at a time, a retry timer with
 exponential back-off, and a channel that is reset by a queued functor after its last dispatch.

 Sockets are numbered in the order of their creation. Start is called once; Restart is called from the
 connected state; retry timers and Restart come after the queued ResetChannel of the previous attempt has run
 (a later loop iteration, or later in the same functor queue).
 */
module Connectors {
  import opened Text
  import Interests

  type Sock = nat

  const INIT_RETRY_DELAY_MS: nat := 500
  const MAX_RETRY_DELAY_MS: nat := 30000

  datatype ConnState = Disconnected | Connecting | Connected

  /** The ledger of sockets: how many were created, and which were closed or handed to the callback. */
  datatype Books = Books(created: nat, closed: seq<Sock>, handed: seq<Sock>)
  {
    function Close(k: Sock): Books { this.(closed := closed + [k]) }
    function Hand(k: Sock): Books { this.(handed := handed + [k]) }
  }

  datatype State = State(
    connect: bool,
    conn: ConnState,
    channel: Option<Sock>,            // channel_, with the socket it watches
    registered: bool,                 // that channel is in the poller
    resetQueued: bool,                // a ResetChannel functor is queued
    startQueued: bool,                // the StartInLoop of Start is queued
    stopsQueued: nat,
    timers: nat,                      // retry timers not yet fired
    retryDelayMs: nat,
    started: bool,
    asserts: bool,                    // every assertion met so far held
    books: Books,
    // the waits of consecutive retries, since Start or the last Restart
    delays: seq<nat>)

  function Init(): State {
    State(false, Disconnected, None, false, false, false, 0, 0, INIT_RETRY_DELAY_MS, false, true, Books(0, [], []), [])
  }

  /** How connect(2) answers, by the three groups of the switch in Connect. */
  datatype ConnectAnswer = Underway | TryLater | GiveUp

  /** What HandleWrite finds on the socket. */
  datatype WriteAnswer = SocketError | SelfConnect | Established

  datatype Event =
    | Start
    | RunStart(answer: ConnectAnswer)           // the queued StartInLoop
    | TimerFires(answer: ConnectAnswer)         // the StartInLoop of a retry
    | Restart(answer: ConnectAnswer)
    | Stop
    | RunStop                                   // StopInLoop
    | RunReset                                  // ResetChannel
    | Dispatch(error: bool, write: bool, answer2: WriteAnswer)

  predicate Enabled(s: State, e: Event) {
    match e
    case Start => !s.started
    case RunStart(_) => s.startQueued
    case TimerFires(_) => s.timers > 0 && !s.resetQueued
    case Restart(_) => s.conn.Connected? && !s.resetQueued
    case Stop => true
    case RunStop => s.stopsQueued > 0
    case RunReset => s.resetQueued
    case Dispatch(_, _, _) => s.registered
  }

  function Min(a: nat, b: nat): nat { if a < b then a else b }

  /** Retry: the socket is closed, and a timer is armed unless stopped. */
  function Retry(s: State, sock: Sock): State {
    if s.connect then
      s.(books := s.books.Close(sock), conn := Disconnected,
         timers := s.timers + 1, delays := s.delays + [s.retryDelayMs],
         retryDelayMs := Min(s.retryDelayMs * 2, MAX_RETRY_DELAY_MS))
    else s.(books := s.books.Close(sock), conn := Disconnected)
  }

  /** What Connect does with a new socket once connect(2) has answered. */
  function Connect(s: State, sock: Sock, answer: ConnectAnswer): State {
    match answer
    case Underway =>
      s.(conn := Connecting, asserts := s.asserts && s.channel.None?, channel := Some(sock), registered := true)
    case TryLater => Retry(s, sock)
    case GiveUp => s.(books := s.books.Close(sock))
  }

  function StartInLoop(s: State, answer: ConnectAnswer): State {
    var t := s.(asserts := s.asserts && s.conn.Disconnected?);
    if t.connect
    then Connect(t.(books := t.books.(created := t.books.created + 1)), t.books.created, answer)
    else t
  }

  /** RemoveAndResetChannel. */
  function DropChannel(s: State): State { s.(registered := false, resetQueued := true) }

  /** An attempt underway has a channel. */
  predicate Watched(s: State) { s.conn.Connecting? ==> s.channel.Some? }

  function OnWrite(s: State, answer: WriteAnswer): State
    requires Watched(s)
  {
    if s.conn.Connecting? then
      var sock, t := s.channel.value, DropChannel(s);
      if !answer.Established? then Retry(t, sock)
      else if t.connect then t.(conn := Connected, books := t.books.Hand(sock))
      else t.(conn := Connected, books := t.books.Close(sock))
    else s.(asserts := s.asserts && s.conn.Disconnected?)
  }

  /** HandleError, and the same close path of StopInLoop. */
  function Abandon(s: State): State
    requires Watched(s)
  {
    if s.conn.Connecting? then Retry(DropChannel(s), s.channel.value) else s
  }

  function Restarted(s: State): State {
    s.(conn := Disconnected, retryDelayMs := INIT_RETRY_DELAY_MS, connect := true, delays := [])
  }

  function Step(s: State, e: Event): State
    requires Watched(s) && Enabled(s, e)
  {
    match e
    case Start => s.(connect := true, startQueued := true, started := true)
    case RunStart(a) => StartInLoop(s.(startQueued := false), a)
    case TimerFires(a) => StartInLoop(s.(timers := s.timers - 1), a)
    case Restart(a) => StartInLoop(Restarted(s), a)
    case Stop => s.(connect := false, stopsQueued := s.stopsQueued + 1)
    case RunStop => Abandon(s.(stopsQueued := s.stopsQueued - 1))
    case RunReset => s.(channel := None, resetQueued := false)
    case Dispatch(error, write, a) =>
      var t := if error then Abandon(s) else s;
      if write then OnWrite(t, a) else t
  }

  // ---------------------------------------------------------------- the invariant

  /** The socket of the live attempt, if any. */
  function Held(s: State): Option<Sock> { if s.registered then s.channel else None }

  predicate Control(s: State) {
    && s.asserts
    && (s.registered <==> s.conn.Connecting?)
    && (s.registered ==> s.channel.Some? && !s.resetQueued)
    && (s.channel.Some? && !s.registered ==> s.resetQueued)
    && (s.resetQueued ==> s.channel.Some?)
    && (s.timers > 0 || s.startQueued ==> s.conn.Disconnected?)
    && s.timers + (if s.startQueued then 1 else 0) <= 1
    && (s.startQueued ==> s.channel.None?)
    && (!s.started ==> s.conn.Disconnected? && s.channel.None? && s.timers == 0 && !s.startQueued && !s.connect)
  }

  /** How often a socket is held, closed and handed over: once in all if it was created, else never. */
  function Uses(b: Books, held: Option<Sock>, k: Sock): nat {
    multiset(b.closed)[k] + multiset(b.handed)[k] + if held == Some(k) then 1 else 0
  }

  ghost predicate Balanced(b: Books, held: Option<Sock>) {
    forall k: Sock :: Uses(b, held, k) == if k < b.created then 1 else 0
  }

  /** The three ways the books move: a new attempt is held, a held socket is closed, a held socket is handed over. */
  lemma BooksMove(b: Books, k: Sock)
    ensures Balanced(b, None) ==> Balanced(b.(created := b.created + 1), Some(b.created))
    ensures Balanced(b, Some(k)) ==> Balanced(b.Close(k), None) && Balanced(b.Hand(k), None)
  {
    if Balanced(b, None) {
      var grown, held := b.(created := b.created + 1), Some(b.created);
      forall j: Sock
        ensures Uses(grown, held, j) == if j < grown.created then 1 else 0
      {
        assert Uses(b, None, j) == if j < b.created then 1 else 0;
      }
    }
    if Balanced(b, Some(k)) {
      var closing, handing := b.Close(k), b.Hand(k);
      forall j: Sock
        ensures Uses(closing, None, j) == if j < b.created then 1 else 0
        ensures Uses(handing, None, j) == if j < b.created then 1 else 0
      {
        assert Uses(b, Some(k), j) == if j < b.created then 1 else 0;
      }
    }
  }

  function Pow2(k: nat): nat { if k == 0 then 1 else 2 * Pow2(k - 1) }

  function Backoff(k: nat): nat { Min(INIT_RETRY_DELAY_MS * Pow2(k), MAX_RETRY_DELAY_MS) }

  predicate Delays(s: State) {
    && s.retryDelayMs == Backoff(|s.delays|)
    && forall k :: 0 <= k < |s.delays| ==> s.delays[k] == Backoff(k)
  }

  predicate Inv(s: State) { Control(s) && Delays(s) }

  lemma BackoffNext(k: nat)
    ensures Backoff(k + 1) == Min(Backoff(k) * 2, MAX_RETRY_DELAY_MS)
  {
    assert INIT_RETRY_DELAY_MS * Pow2(k + 1) == 2 * (INIT_RETRY_DELAY_MS * Pow2(k));
  }

  lemma RetryKeepsDelays(s: State, sock: Sock)
    requires Delays(s)
    ensures Delays(Retry(s, sock))
  {
    BackoffNext(|s.delays|);
  }

  lemma StartKeepsDelays(s: State, a: ConnectAnswer)
    requires Delays(s)
    ensures Delays(StartInLoop(s, a))
  {
    var u := s.(asserts := s.asserts && s.conn.Disconnected?, books := s.books.(created := s.books.created + 1));
    RetryKeepsDelays(u, s.books.created);
  }

  lemma StepKeepsDelays(s: State, e: Event)
    requires Inv(s) && Enabled(s, e)
    ensures Delays(Step(s, e))
  {
    match e
    case RunStart(a) => StartKeepsDelays(s.(startQueued := false), a);
    case TimerFires(a) => StartKeepsDelays(s.(timers := s.timers - 1), a);
    case Restart(a) => StartKeepsDelays(Restarted(s), a);
    case RunStop =>
      if s.conn.Connecting? {
        RetryKeepsDelays(DropChannel(s.(stopsQueued := s.stopsQueued - 1)), s.channel.value);
      }
    case Dispatch(_, _, _) => RetryKeepsDelays(DropChannel(s), s.channel.value);
    case _ =>
  }

  lemma StepKeepsControl(s: State, e: Event)
    requires Inv(s) && Enabled(s, e)
    ensures Control(Step(s, e))
  {
  }

  ghost predicate Ledger(s: State) { Balanced(s.books, Held(s)) }

  lemma StartKeepsLedger(s: State, a: ConnectAnswer)
    requires Ledger(s) && !s.registered
    ensures Ledger(StartInLoop(s, a))
  {
    var b := s.books;
    BooksMove(b, 0);
    BooksMove(b.(created := b.created + 1), b.created);
  }

  lemma StepKeepsLedger(s: State, e: Event)
    requires Inv(s) && Ledger(s) && Enabled(s, e)
    ensures Ledger(Step(s, e))
  {
    if s.channel.Some? {
      BooksMove(s.books, s.channel.value);
    }
    match e
    case RunStart(a) => StartKeepsLedger(s.(startQueued := false), a);
    case TimerFires(a) => StartKeepsLedger(s.(timers := s.timers - 1), a);
    case Restart(a) => StartKeepsLedger(Restarted(s), a);
    case _ =>
  }

  // ---------------------------------------------------------------- runs

  lemma StepKeepsInv(s: State, e: Event)
    requires Inv(s) && Enabled(s, e)
    ensures Inv(Step(s, e))
  {
    StepKeepsControl(s, e);
    StepKeepsDelays(s, e);
  }

  predicate Legal(s: State, es: seq<Event>)
    requires Inv(s)
    decreases |es|
  {
    es != [] ==> Enabled(s, es[0]) && (StepKeepsInv(s, es[0]); Legal(Step(s, es[0]), es[1..]))
  }

  function Run(s: State, es: seq<Event>): (t: State)
    requires Inv(s) && Legal(s, es)
    ensures Inv(t)
    decreases |es|
  {
    if es == [] then s else StepKeepsInv(s, es[0]); Run(Step(s, es[0]), es[1..])
  }

  lemma {:induction false} RunKeepsLedger(s: State, es: seq<Event>)
    requires Inv(s) && Legal(s, es) && Ledger(s)
    ensures Ledger(Run(s, es))
    decreases |es|
  {
    if es == [] {
    } else {
      StepKeepsInv(s, es[0]);
      StepKeepsLedger(s, es[0]);
      RunKeepsLedger(Step(s, es[0]), es[1..]);
    }
  }

  /**
   Descriptor ownership: in every run each socket created so far is in exactly one place, once: held by the
   live attempt, closed, or handed to the callback; no other socket is. This holds although one dispatch may
   raise an error and a write event together.
   */
  lemma SocketOwnership(es: seq<Event>, k: Sock)
    requires Legal(Init(), es)
    ensures var s := Run(Init(), es);
            multiset(s.books.closed)[k] + multiset(s.books.handed)[k] + (if Held(s) == Some(k) then 1 else 0)
            == if k < s.books.created then 1 else 0
  {
    assert Balanced(Init().books, None);
    RunKeepsLedger(Init(), es);
    var s := Run(Init(), es);
    assert Uses(s.books, Held(s), k) == if k < s.books.created then 1 else 0;
  }

  /** Back-off: the k-th consecutive retry waits min(500 * 2^k, 30000) milliseconds. */
  lemma BackoffClosedForm(es: seq<Event>, k: nat)
    requires Legal(Init(), es) && k < |Run(Init(), es).delays|
    ensures Run(Init(), es).delays[k] == Min(500 * Pow2(k), 30000)
  {
    assert Inv(Run(Init(), es));
  }

  /** Every assertion of the source holds on the way, and at most one retry timer is ever pending. */
  lemma AssertionsHold(es: seq<Event>)
    requires Legal(Init(), es)
    ensures var s := Run(Init(), es);
            s.asserts && s.timers <= 1
  {
    assert Inv(Run(Init(), es));
  }

  // ---------------------------------------------------------------- how attempts end

  /** Whether the step starts an attempt, and how connect(2) answers; Restart sets connect_ itself. */
  predicate Starts(s: State, e: Event) {
    match e
    case RunStart(_) => s.connect
    case TimerFires(_) => s.connect
    case Restart(_) => true
    case _ => false
  }

  function Answer(e: Event): ConnectAnswer
    requires e.RunStart? || e.TimerFires? || e.Restart?
  {
    e.answer
  }

  /** The attempt underway succeeds: its socket is writable without error and not connected to itself. */
  predicate Succeeds(s: State, e: Event) { s.conn.Connecting? && e == Dispatch(false, true, Established) }

  /** The attempt underway fails, or is given up. */
  predicate Fails(s: State, e: Event) {
    s.conn.Connecting? && match e
                          case RunStop => true
                          case Dispatch(error, write, a) => error || (write && (a == SocketError || a == SelfConnect))
                          case _ => false
  }

  /** The socket of the attempt underway is the last one created. */
  function Current(s: State): seq<Sock> { if s.books.created > 0 then [s.books.created - 1] else [] }

  /** The sockets that the step hands to the callback, and those that it closes. */
  function HandedBy(s: State, e: Event): seq<Sock> { if Succeeds(s, e) && s.connect then Current(s) else [] }

  function ClosedBy(s: State, e: Event): seq<Sock> {
    if Succeeds(s, e) && !s.connect then Current(s)
    else if Fails(s, e) then Current(s)
    else if Starts(s, e) && (Answer(e) == TryLater || Answer(e) == GiveUp) then [s.books.created]
    else []
  }

  /** The steps after which a retry timer is armed. */
  predicate Retries(s: State, e: Event) { (Fails(s, e) && s.connect) || (Starts(s, e) && Answer(e) == TryLater) }

  predicate Latest(s: State) { s.registered ==> s.books.created > 0 && s.channel == Some(s.books.created - 1) }

  lemma StepKeepsLatest(s: State, e: Event)
    requires Inv(s) && Latest(s) && Enabled(s, e)
    ensures Latest(Step(s, e))
  {
  }

  lemma StepHands(s: State, e: Event)
    requires Inv(s) && Latest(s) && Enabled(s, e)
    ensures Step(s, e).books.handed == s.books.handed + HandedBy(s, e)
  {
    match e
    case Dispatch(_, _, _) => assert s.conn.Connecting?;
    case _ =>
  }

  lemma StepCreates(s: State, e: Event)
    requires Inv(s) && Enabled(s, e)
    ensures Step(s, e).books.created == s.books.created + if Starts(s, e) then 1 else 0
  {
  }

  lemma StepCloses(s: State, e: Event)
    requires Inv(s) && Latest(s) && Enabled(s, e)
    ensures Step(s, e).books.closed == s.books.closed + ClosedBy(s, e)
  {
    match e
    case Dispatch(_, _, _) => assert s.conn.Connecting?;
    case _ =>
  }

  /** A step moves the state machine as its event says. */
  lemma StepMoves(s: State, e: Event)
    requires Inv(s) && Enabled(s, e)
    ensures var t := Step(s, e);
            && (t.conn.Connecting? <==>
                  (Starts(s, e) && Answer(e) == Underway) || (s.conn.Connecting? && !Succeeds(s, e) && !Fails(s, e)))
            && (t.conn.Connected? <==> Succeeds(s, e) || (s.conn.Connected? && !e.Restart?))
  {
  }

  /** A timer is armed exactly for a retry. */
  lemma StepArms(s: State, e: Event)
    requires Inv(s) && Enabled(s, e)
    ensures Step(s, e).timers == s.timers - (if e.TimerFires? then 1 else 0) + (if Retries(s, e) then 1 else 0)
  {
  }

  /** And with the current delay, which a Restart sets back. */
  lemma StepDelays(s: State, e: Event)
    requires Inv(s) && Enabled(s, e)
    ensures e.Restart? ==> Step(s, e).delays == if Retries(s, e) then [INIT_RETRY_DELAY_MS] else []
    ensures !e.Restart? ==> Step(s, e).delays == if Retries(s, e) then s.delays + [s.retryDelayMs] else s.delays
  {
  }

  /** The sockets handed over, and closed, along a run. */
  function HandedAlong(s: State, es: seq<Event>): seq<Sock>
    requires Inv(s) && Legal(s, es)
    decreases |es|
  {
    if es == [] then []
    else StepKeepsInv(s, es[0]); HandedBy(s, es[0]) + HandedAlong(Step(s, es[0]), es[1..])
  }

  function ClosedAlong(s: State, es: seq<Event>): seq<Sock>
    requires Inv(s) && Legal(s, es)
    decreases |es|
  {
    if es == [] then []
    else StepKeepsInv(s, es[0]); ClosedBy(s, es[0]) + ClosedAlong(Step(s, es[0]), es[1..])
  }

  lemma Regroup(a: seq<Sock>, b: seq<Sock>, c: seq<Sock>)
    ensures a + b + c == a + (b + c)
  {
  }

  lemma {:induction false} RunEnds(s: State, es: seq<Event>)
    requires Inv(s) && Latest(s) && Legal(s, es)
    ensures Run(s, es).books.handed == s.books.handed + HandedAlong(s, es)
    ensures Run(s, es).books.closed == s.books.closed + ClosedAlong(s, es)
    decreases |es|
  {
    if es == [] {
    } else {
      var u, rest := Step(s, es[0]), es[1..];
      StepKeepsInv(s, es[0]);
      StepKeepsLatest(s, es[0]);
      StepHands(s, es[0]);
      StepCloses(s, es[0]);
      RunEnds(u, rest);
      Regroup(s.books.handed, HandedBy(s, es[0]), HandedAlong(u, rest));
      Regroup(s.books.closed, ClosedBy(s, es[0]), ClosedAlong(u, rest));
    }
  }

  /**
   Over every run the callback gets exactly the sockets of the attempts that succeeded while the connector was not
   stopped, in order; every other attempt that ended has its socket closed, in the order in which they ended.
   */
  lemma HandOver(es: seq<Event>)
    requires Legal(Init(), es)
    ensures Run(Init(), es).books.handed == HandedAlong(Init(), es)
    ensures Run(Init(), es).books.closed == ClosedAlong(Init(), es)
  {
    RunEnds(Init(), es);
  }

  /** Whether the last of Start, Restart and Stop in a run was not Stop. */
  function Wanted(wanted: bool, es: seq<Event>): bool
    decreases |es|
  {
    if es == [] then wanted
    else Wanted(if es[0].Start? || es[0].Restart? then true else if es[0].Stop? then false else wanted, es[1..])
  }

  lemma {:induction false} RunWants(s: State, es: seq<Event>)
    requires Inv(s) && Legal(s, es)
    ensures Run(s, es).connect == Wanted(s.connect, es)
    decreases |es|
  {
    if es == [] {
    } else {
      StepKeepsInv(s, es[0]);
      RunWants(Step(s, es[0]), es[1..]);
    }
  }

  /** connect_ follows the last call. */
  lemma ConnectFollowsCalls(es: seq<Event>)
    requires Legal(Init(), es)
    ensures Run(Init(), es).connect <==> Wanted(false, es)
  {
    RunWants(Init(), es);
  }

  lemma {:induction false} RunFrom(s: State, es: seq<Event>, i: nat)
    requires Inv(s) && i < |es| && Enabled(s, es[i])
    requires Inv(Step(s, es[i])) && Legal(Step(s, es[i]), es[i + 1..])
    ensures Legal(s, es[i..]) && Run(s, es[i..]) == Run(Step(s, es[i]), es[i + 1..])
  {
    assert es[i..][1..] == es[i + 1..];
  }

  function PlainRun(): seq<Event> { [Start, RunStart(Underway), Dispatch(false, true, Established)] }

  /** The plain case: one attempt that succeeds is handed over, and nothing is closed. */
  lemma PlainSuccess()
    ensures Legal(Init(), PlainRun())
    ensures var s := Run(Init(), PlainRun());
            s.conn.Connected? && s.books.handed == [0] && s.books.closed == []
  {
    var es := PlainRun();
    var s1 := Step(Init(), es[0]);
    StepKeepsInv(Init(), es[0]);
    var s2 := Step(s1, es[1]);
    StepKeepsInv(s1, es[1]);
    var s3 := Step(s2, es[2]);
    StepKeepsInv(s2, es[2]);
    assert es[3..] == [];
    assert Legal(s3, es[3..]) && Run(s3, es[3..]) == s3;
    RunFrom(s2, es, 2);
    RunFrom(s1, es, 1);
    RunFrom(Init(), es, 0);
    assert es[0..] == es;
  }

  // ---------------------------------------------------------------- the connector object

  class Connector {
    var connect: bool
    var state: ConnState
    var channel: Interests.Channel?   // channel_; in the poller exactly while it has write interest
    var resetQueued: bool
    var startQueued: bool
    var stopsQueued: nat
    var timers: nat
    var retryDelayMs: nat
    var nextSocket: Sock
    ghost var started: bool
    ghost var asserts: bool
    ghost var closed: seq<Sock>
    ghost var handed: seq<Sock>
    ghost var delays: seq<nat>

    ghost function View(): State
      reads this, channel
    {
      State(connect, state, if channel == null then None else Some(channel.fd), channel != null && channel.IsWriting(),
            resetQueued, startQueued, stopsQueued, timers, retryDelayMs,
            started, asserts, Books(nextSocket, closed, handed), delays)
    }

    constructor ()
      ensures View() == Init() && channel == null
    {
      connect, state, channel := false, Disconnected, null;
      resetQueued, startQueued, stopsQueued, timers := false, false, 0, 0;
      retryDelayMs, nextSocket := INIT_RETRY_DELAY_MS, 0;
      started, asserts, closed, handed, delays := false, true, [], [], [];
    }

    method RetryLater(sock: Sock)
      modifies this`closed, this`state, this`timers, this`delays, this`retryDelayMs
      ensures View() == Retry(old(View()), sock)
    {
      closed, state := closed + [sock], Disconnected;
      if connect {
        timers, delays := timers + 1, delays + [retryDelayMs];
        retryDelayMs := if retryDelayMs * 2 < MAX_RETRY_DELAY_MS then retryDelayMs * 2 else MAX_RETRY_DELAY_MS;
      }
    }

    /** Connecting: a new channel that waits for the socket to become writable. */
    method Watch(sock: Sock)
      modifies this`asserts, this`state, this`channel
      ensures View() == Connect(old(View()), sock, Underway) && fresh(channel)
    {
      asserts := asserts && channel == null;
      state := Connecting;
      channel := new Interests.Channel(sock);
      channel.EnableWriting();
    }

    method ConnectSocket(sock: Sock, answer: ConnectAnswer)
      modifies this
      ensures View() == Connect(old(View()), sock, answer) && (channel == old(channel) || fresh(channel))
    {
      match answer
      case Underway => Watch(sock);
      case TryLater => RetryLater(sock);
      case GiveUp => closed := closed + [sock];
    }

    method StartAttempt(answer: ConnectAnswer)
      modifies this
      ensures View() == StartInLoop(old(View()), answer) && (channel == old(channel) || fresh(channel))
    {
      asserts := asserts && state.Disconnected?;
      if connect {
        var sock := nextSocket;
        nextSocket := nextSocket + 1;
        ConnectSocket(sock, answer);
      }
    }

    method RemoveAndResetChannel() returns (sock: Sock)
      requires channel != null
      modifies this`resetQueued, channel
      ensures View() == DropChannel(old(View())) && sock == channel.fd
    {
      channel.DisableAll();
      sock := channel.fd;
      resetQueued := true;
    }

    method HandleWrite(answer: WriteAnswer)
      requires Watched(View())
      modifies this, channel
      ensures View() == OnWrite(old(View()), answer) && channel == old(channel)
    {
      if state.Connecting? {
        var sock := RemoveAndResetChannel();
        if answer.SocketError? || answer.SelfConnect? {
          RetryLater(sock);
        } else {
          state := Connected;
          if connect {
            handed := handed + [sock];
          } else {
            closed := closed + [sock];
          }
        }
      } else {
        asserts := asserts && state.Disconnected?;
      }
    }

    /** HandleError, and StopInLoop, which sets the state once more before it closes. */
    method CloseAttempt()
      requires Watched(View())
      modifies this, channel
      ensures View() == Abandon(old(View())) && channel == old(channel)
    {
      if state.Connecting? {
        var sock := RemoveAndResetChannel();
        RetryLater(sock);
      }
    }

    /** Restart. */
    method RestartNow(answer: ConnectAnswer)
      modifies this
      ensures View() == StartInLoop(Restarted(old(View())), answer) && (channel == old(channel) || fresh(channel))
    {
      state, retryDelayMs, connect, delays := Disconnected, INIT_RETRY_DELAY_MS, true, [];
      assert View() == Restarted(old(View()));
      StartAttempt(answer);
    }

    /** Channel::HandleEvent on the connector's channel: the error callback comes before the write callback. */
    method HandleEvent(error: bool, write: bool, answer: WriteAnswer)
      requires Watched(View())
      modifies this, channel
      ensures View() == (var s := old(View());
                         var t := if error then Abandon(s) else s;
                         if write then OnWrite(t, answer) else t)
      ensures channel == old(channel)
    {
      if error {
        CloseAttempt();
      }
      if write {
        HandleWrite(answer);
      }
    }

    /** Calls from other threads and functors. */
    method PerformQueued(e: Event)
      requires Inv(View()) && Enabled(View(), e) && (e.Start? || e.Stop? || e.RunStop? || e.RunReset?)
      modifies this, channel
      ensures View() == Step(old(View()), e) && (channel == old(channel) || channel == null)
    {
      match e
      case Start => connect, startQueued, started := true, true, true;
      case Stop => connect, stopsQueued := false, stopsQueued + 1;
      case RunStop =>
        stopsQueued := stopsQueued - 1;
        CloseAttempt();
      case RunReset => channel, resetQueued := null, false;
    }

    method Perform(e: Event)
      requires Inv(View()) && Enabled(View(), e)
      modifies this, channel
      ensures View() == Step(old(View()), e)
      ensures channel == old(channel) || channel == null || fresh(channel)
    {
      match e
      case Dispatch(error, write, a) => HandleEvent(error, write, a);
      case RunStart(a) =>
        startQueued := false;
        StartAttempt(a);
      case TimerFires(a) =>
        timers := timers - 1;
        StartAttempt(a);
      case Restart(a) => RestartNow(a);
      case _ => PerformQueued(e);
    }

    /** Any schedule of calls, kernel answers, timers and functors. */
    method Schedule(es: seq<Event>)
      requires Inv(View()) && Legal(View(), es)
      modifies this, channel
      ensures Inv(View()) && View() == Run(old(View()), es)
    {
      var i := 0;
      while i < |es|
        invariant 0 <= i <= |es|
        invariant channel == old(channel) || channel == null || fresh(channel)
        invariant Inv(View()) && Legal(View(), es[i..])
        invariant Run(View(), es[i..]) == Run(old(View()), es)
      {
        assert es[i..][1..] == es[i + 1..];
        StepKeepsInv(View(), es[i]);
        Perform(es[i]);
        i := i + 1;
      }
    }
  }
}
