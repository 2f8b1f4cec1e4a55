/**
 The output path of a connection, muduo-cpp11/net/tcp_connection.cpp: direct write, partial write, buffering,
 draining, half-close and the high watermark. The kernel is a write that takes any prefix or fails; after
 SHUT_WR it fails with EPIPE.
 */
module OutputPath {
  import ByteBuffer

  datatype ConnState = Connected | Disconnecting | Disconnected

  /** What write(2) reports. Broken stands for EPIPE and ECONNRESET, OtherError for any other errno. */
  datatype WriteResult = Took(n: nat) | WouldBlock | Broken | OtherError

  predicate KernelMay(shutWr: bool, len: nat, r: WriteResult) {
    if shutWr then r.Broken? else r.Took? ==> r.n <= len
  }

  /** What other threads hand to the loop of the connection. */
  datatype Functor = SendInLoopF(message: string) | ShutdownInLoopF

  datatype State = State(
    conn: ConnState,
    writing: bool,                    // the channel's write interest
    output: string,                   // the readable bytes of output_buffer_
    shutWr: bool,                     // SHUT_WR has been issued
    queue: seq<Functor>,
    highWatermark: nat,
    // history
    kernel: string,                   // the bytes the kernel has taken, in order
    accepted: seq<string>,
    dropped: seq<string>,
    marks: seq<nat>,                  // high watermark callbacks queued, with the size they report
    completes: nat,                   // write complete callbacks queued
    asked: bool)                      // Shutdown took effect

  function Init(highWatermark: nat): State {
    State(Connected, false, "", false, [], highWatermark, "", [], [], [], 0, false)
  }

  datatype Event =
    | SendHere(message: string, result: WriteResult)   // Send on the loop thread
    | SendThere(message: string)                       // Send on another thread
    | ShutdownHere
    | ShutdownThere
    | ForceClose                                       // from any thread: the state change
    | RunFunctor(result: WriteResult)
    | Writable(result: WriteResult)                    // HandleWrite
    | Close                                            // HandleClose

  /** SendInLoop writes only when nothing is queued. */
  predicate WritesDirectly(s: State) { !s.conn.Disconnected? && !s.writing && s.output == "" }

  predicate Enabled(s: State, e: Event) {
    match e
    case SendHere(m, r) => s.conn.Connected? && WritesDirectly(s) ==> KernelMay(s.shutWr, |m|, r)
    case RunFunctor(r) =>
      s.queue != [] && (s.queue[0].SendInLoopF? && WritesDirectly(s) ==>
                          KernelMay(s.shutWr, |s.queue[0].message|, r))
    case Writable(r) => s.writing ==> KernelMay(s.shutWr, |s.output|, r)
    case Close => !s.conn.Disconnected?
    case _ => true
  }

  /** The tail of SendInLoop: what could not be written is appended, and writing is enabled. */
  function Enqueue(s: State, rest: string): State {
    if rest == "" then s
    else
      var len := |s.output| + |rest|;
      s.(output := s.output + rest, writing := true,
         marks := if s.highWatermark <= len && |s.output| < s.highWatermark then s.marks + [len] else s.marks)
  }

  function Send(s: State, m: string, r: WriteResult): State
    requires WritesDirectly(s) ==> KernelMay(s.shutWr, |m|, r)
  {
    if s.conn.Disconnected? then s.(dropped := s.dropped + [m])
    else if WritesDirectly(s) then
      match r
      case Took(n) =>
        Enqueue(s.(kernel := s.kernel + m[..n], accepted := s.accepted + [m],
                   completes := if n == |m| then s.completes + 1 else s.completes), m[n..])
      case Broken => s.(dropped := s.dropped + [m])
      case _ => Enqueue(s.(accepted := s.accepted + [m]), m)
    else Enqueue(s.(accepted := s.accepted + [m]), m)
  }

  /** ShutdownInLoop. */
  function HalfClose(s: State): State {
    if s.writing then s else s.(shutWr := true)
  }

  function Drain(s: State, r: WriteResult): State
    requires s.writing ==> KernelMay(s.shutWr, |s.output|, r)
  {
    if s.writing && r.Took? && r.n > 0 then
      var t := s.(output := s.output[r.n..], kernel := s.kernel + s.output[..r.n]);
      if t.output == "" then
        var done := t.(writing := false, completes := t.completes + 1);
        if done.conn.Disconnecting? then HalfClose(done) else done
      else t
    else s
  }

  function Step(s: State, e: Event): State
    requires Enabled(s, e)
  {
    match e
    case SendHere(m, r) => if s.conn.Connected? then Send(s, m, r) else s
    case SendThere(m) => if s.conn.Connected? then s.(queue := s.queue + [SendInLoopF(m)]) else s
    case ShutdownHere =>
      if s.conn.Connected? then HalfClose(s.(conn := Disconnecting, asked := true)) else s
    case ShutdownThere =>
      if s.conn.Connected? then s.(conn := Disconnecting, asked := true, queue := s.queue + [ShutdownInLoopF]) else s
    case ForceClose => if s.conn.Disconnected? then s else s.(conn := Disconnecting)
    case RunFunctor(r) =>
      var t := s.(queue := s.queue[1..]);
      if s.queue[0].SendInLoopF? then Send(t, s.queue[0].message, r) else HalfClose(t)
    case Writable(r) => Drain(s, r)
    case Close => s.(conn := Disconnected, writing := false)
  }

  predicate Legal(s: State, es: seq<Event>)
    decreases |es|
  {
    es != [] ==> Enabled(s, es[0]) && Legal(Step(s, es[0]), es[1..])
  }

  function Run(s: State, es: seq<Event>): State
    requires Legal(s, es)
    decreases |es|
  {
    if es == [] then s else Run(Step(s, es[0]), es[1..])
  }

  // ---------------------------------------------------------------- the invariant

  function Concat(ms: seq<string>): string {
    if ms == [] then "" else Concat(ms[..|ms| - 1]) + ms[|ms| - 1]
  }

  lemma ConcatAppend(ms: seq<string>, m: string)
    ensures Concat(ms + [m]) == Concat(ms) + m
  {
    assert (ms + [m])[..|ms|] == ms;
  }

  /** The kernel's bytes, then the buffer's, are the accepted messages in order. */
  predicate Conserved(s: State) { s.kernel + s.output == Concat(s.accepted) }

  predicate Interest(s: State) {
    && (!s.conn.Disconnected? ==> (s.writing <==> s.output != "") && (s.shutWr ==> s.output == ""))
    && (s.conn.Disconnected? ==> !s.writing)
  }

  /** A shutdown that took effect is carried out, queued, or left to the write step that drains the buffer. */
  predicate Remembered(s: State) {
    && (s.asked ==> !s.conn.Connected?)
    && (s.asked && !s.conn.Disconnected? ==> s.shutWr || ShutdownInLoopF in s.queue || s.output != "")
  }

  /** Before Shutdown or ForceClose took effect no half-close has been issued or queued. */
  predicate Open(s: State) { s.conn.Connected? ==> !s.shutWr && ShutdownInLoopF !in s.queue }

  predicate Inv(s: State) { Conserved(s) && Interest(s) && Remembered(s) && Open(s) }

  lemma EnqueueKeeps(s: State, rest: string)
    requires s.kernel + s.output + rest == Concat(s.accepted)
    ensures Conserved(Enqueue(s, rest))
  {
    assert s.kernel + s.output + rest == s.kernel + (s.output + rest);
    assert s.output + "" == s.output;
  }

  lemma SendConserves(s: State, m: string, r: WriteResult)
    requires Conserved(s)
    requires WritesDirectly(s) ==> KernelMay(s.shutWr, |m|, r)
    ensures Conserved(Send(s, m, r))
  {
    ConcatAppend(s.accepted, m);
    var direct := WritesDirectly(s) && r.Took?;
    var n := if direct then r.n else 0;
    var t := s.(kernel := s.kernel + m[..n], accepted := s.accepted + [m]);
    assert m[..n] + m[n..] == m;
    if direct {
      assert t.kernel + t.output + m[n..] == s.kernel + (m[..n] + m[n..]);
      EnqueueKeeps(t.(completes := if n == |m| then s.completes + 1 else s.completes), m[n..]);
    } else {
      assert m[..0] == "" && m[0..] == m && s.kernel + "" == s.kernel;
      assert t.kernel + t.output + m == (s.kernel + s.output) + m;
      EnqueueKeeps(t, m);
    }
  }

  lemma DrainConserves(s: State, r: WriteResult)
    requires Conserved(s)
    requires s.writing ==> KernelMay(s.shutWr, |s.output|, r)
    ensures Conserved(Drain(s, r))
  {
    if s.writing && r.Took? {
      assert s.output == s.output[..r.n] + s.output[r.n..];
      assert s.kernel + s.output[..r.n] + s.output[r.n..] == s.kernel + s.output;
    }
  }

  lemma StepConserves(s: State, e: Event)
    requires Conserved(s) && Enabled(s, e)
    ensures Conserved(Step(s, e))
  {
    match e
    case SendHere(m, r) =>
      if s.conn.Connected? {
        SendConserves(s, m, r);
      }
    case RunFunctor(r) =>
      if s.queue[0].SendInLoopF? {
        SendConserves(s.(queue := s.queue[1..]), s.queue[0].message, r);
      }
    case Writable(r) => DrainConserves(s, r);
    case _ =>
  }

  lemma StepKeepsRest(s: State, e: Event)
    requires Interest(s) && Remembered(s) && Open(s) && Enabled(s, e)
    ensures Interest(Step(s, e)) && Remembered(Step(s, e)) && Open(Step(s, e))
  {
    match e
    case RunFunctor(r) => assert s.queue == [s.queue[0]] + s.queue[1..];
    case _ =>
  }

  lemma {:induction false} RunKeepsInv(s: State, es: seq<Event>)
    requires Inv(s) && Legal(s, es)
    ensures Inv(Run(s, es))
    decreases |es|
  {
    if es == [] {
    } else {
      StepConserves(s, es[0]);
      StepKeepsRest(s, es[0]);
      RunKeepsInv(Step(s, es[0]), es[1..]);
    }
  }

  // ---------------------------------------------------------------- the main results

  /** Conservation: for every pattern of partial writes and errors no byte is lost, repeated or reordered. */
  lemma OutputConservation(highWatermark: nat, es: seq<Event>)
    requires Legal(Init(highWatermark), es)
    ensures var s := Run(Init(highWatermark), es);
            s.kernel + s.output == Concat(s.accepted)
  {
    RunKeepsInv(Init(highWatermark), es);
  }

  /** A message handed to SendInLoop, and whether it survives. */
  datatype Delivery = Delivery(message: string, survives: bool)

  /** A message is lost exactly after disconnecting and when a direct write finds the connection broken. */
  predicate Survives(s: State, r: WriteResult) { !s.conn.Disconnected? && !(WritesDirectly(s) && r.Broken?) }

  /** The message that a step hands to SendInLoop, if any. */
  function Handing(s: State, e: Event): seq<Delivery>
    requires Enabled(s, e)
  {
    match e
    case SendHere(m, r) => if s.conn.Connected? then [Delivery(m, Survives(s, r))] else []
    case RunFunctor(r) => if s.queue[0].SendInLoopF? then [Delivery(s.queue[0].message, Survives(s, r))] else []
    case _ => []
  }

  /** All messages handed to SendInLoop along a run, in order. */
  function Handed(s: State, es: seq<Event>): seq<Delivery>
    requires Legal(s, es)
    decreases |es|
  {
    if es == [] then [] else Handing(s, es[0]) + Handed(Step(s, es[0]), es[1..])
  }

  /** The messages with the given fate, in order. */
  function Select(ds: seq<Delivery>, survives: bool): seq<string> {
    if ds == [] then []
    else (if ds[0].survives == survives then [ds[0].message] else []) + Select(ds[1..], survives)
  }

  lemma {:induction false} SelectConcat(a: seq<Delivery>, b: seq<Delivery>, survives: bool)
    ensures Select(a + b, survives) == Select(a, survives) + Select(b, survives)
  {
    if a == [] {
      assert a + b == b;
    } else {
      assert (a + b)[1..] == a[1..] + b;
      SelectConcat(a[1..], b, survives);
    }
  }

  lemma StepSorts(s: State, e: Event)
    requires Enabled(s, e)
    ensures Step(s, e).accepted == s.accepted + Select(Handing(s, e), true)
    ensures Step(s, e).dropped == s.dropped + Select(Handing(s, e), false)
  {
    var h := Handing(s, e);
    assert h != [] ==> h[1..] == [];
  }

  lemma SelectAfter(before: seq<string>, middle: seq<string>, h: seq<Delivery>, more: seq<Delivery>, survives: bool)
    requires middle == before + Select(h, survives)
    ensures middle + Select(more, survives) == before + Select(h + more, survives)
  {
    SelectConcat(h, more, survives);
  }

  lemma {:induction false} RunSorts(s: State, es: seq<Event>)
    requires Legal(s, es)
    ensures Run(s, es).accepted == s.accepted + Select(Handed(s, es), true)
    ensures Run(s, es).dropped == s.dropped + Select(Handed(s, es), false)
    decreases |es|
  {
    if es == [] {
    } else {
      var u, rest, h := Step(s, es[0]), es[1..], Handing(s, es[0]);
      var more := Handed(u, rest);
      assert Handed(s, es) == h + more && Run(s, es) == Run(u, rest);
      StepSorts(s, es[0]);
      RunSorts(u, rest);
      SelectAfter(s.accepted, u.accepted, h, more, true);
      SelectAfter(s.dropped, u.dropped, h, more, false);
    }
  }

  /**
   Whole messages: over every run, the messages handed to SendInLoop fall into the accepted and the dropped ones,
   each in order, a message being dropped exactly after disconnecting or on a broken direct write; and the
   bytes of the kernel and of the buffer are the accepted messages, whole, and nothing of the dropped ones.
   */
  lemma {:induction false} WholeMessages(highWatermark: nat, es: seq<Event>)
    requires Legal(Init(highWatermark), es)
    ensures var s, h := Run(Init(highWatermark), es), Handed(Init(highWatermark), es);
            && s.accepted == Select(h, true)
            && s.dropped == Select(h, false)
            && s.kernel + s.output == Concat(Select(h, true))
  {
    OutputConservation(highWatermark, es);
    RunSorts(Init(highWatermark), es);
  }

  /**
   Graceful half-close: while not disconnected, write interest is on exactly when bytes are buffered, and if
   SHUT_WR has been issued every accepted byte has reached the kernel. A connection that is down has no interest.
   */
  lemma GracefulHalfClose(highWatermark: nat, es: seq<Event>)
    requires Legal(Init(highWatermark), es)
    ensures var s := Run(Init(highWatermark), es);
            !s.conn.Disconnected? ==>
              && (s.writing <==> s.output != "")
              && (s.shutWr ==> s.kernel == Concat(s.accepted))
    ensures Run(Init(highWatermark), es).conn.Disconnected? ==> !Run(Init(highWatermark), es).writing
  {
    RunKeepsInv(Init(highWatermark), es);
    var s := Run(Init(highWatermark), es);
    assert s.kernel + "" == s.kernel;
  }

  /**
   A shutdown that took effect is never forgotten: until the connection is down it has been issued, is queued
   for the loop, or waits for buffered bytes, and then the write that drains the buffer issues it.
   */
  lemma ShutdownIsCarriedOut(highWatermark: nat, es: seq<Event>)
    requires Legal(Init(highWatermark), es)
    ensures var s := Run(Init(highWatermark), es);
            s.asked && !s.conn.Disconnected? ==>
              && (s.shutWr || ShutdownInLoopF in s.queue || s.output != "")
              && (s.output != "" && !s.shutWr ==> Step(s, Writable(Took(|s.output|))).shutWr)
  {
    RunKeepsInv(Init(highWatermark), es);
  }

  /** One step's worth of marks. */
  predicate MarksExactly(s: State, t: State) {
    t.marks == if |s.output| < s.highWatermark <= |t.output| then s.marks + [|t.output|] else s.marks
  }

  lemma SendMarks(s: State, m: string, r: WriteResult)
    requires WritesDirectly(s) ==> KernelMay(s.shutWr, |m|, r)
    ensures MarksExactly(s, Send(s, m, r))
  {
  }

  lemma DrainMarks(s: State, r: WriteResult)
    requires s.writing ==> KernelMay(s.shutWr, |s.output|, r)
    ensures MarksExactly(s, Drain(s, r))
  {
  }

  /** The high watermark callback is queued exactly when a step takes the buffer from below the mark to it or above. */
  lemma HighWatermarkExactly(s: State, e: Event)
    requires Enabled(s, e)
    ensures var t := Step(s, e);
            t.marks == if |s.output| < s.highWatermark <= |t.output| then s.marks + [|t.output|] else s.marks
  {
    match e
    case SendHere(m, r) =>
      if s.conn.Connected? {
        SendMarks(s, m, r);
      }
    case RunFunctor(r) =>
      if s.queue[0].SendInLoopF? {
        SendMarks(s.(queue := s.queue[1..]), s.queue[0].message, r);
      }
    case Writable(r) => DrainMarks(s, r);
    case _ =>
  }

  /** A write complete callback is queued only when everything accepted has been handed to the kernel. */
  lemma WriteCompleteMeansDone(s: State, e: Event)
    requires Inv(s) && Enabled(s, e)
    requires Step(s, e).completes != s.completes
    ensures Step(s, e).output == "" && Step(s, e).kernel == Concat(Step(s, e).accepted)
  {
    StepConserves(s, e);
    var t := Step(s, e);
    assert t.output == "";
    assert t.kernel + "" == t.kernel;
  }

  /** The bytes that the write of a step puts into the kernel, told from the state and the answer. */
  function Written(s: State, e: Event): nat
    requires Enabled(s, e)
  {
    match e
    case SendHere(_, r) => if s.conn.Connected? && s.output == "" && !s.writing && r.Took? then r.n else 0
    case RunFunctor(r) =>
      if s.queue[0].SendInLoopF? && !s.conn.Disconnected? && s.output == "" && !s.writing && r.Took? then r.n else 0
    case Writable(r) => if s.writing && r.Took? then r.n else 0
    case _ => 0
  }

  /** What the kernel takes leaves the connection at once: every write counts, whole or partial. */
  lemma WritesCount(s: State, e: Event)
    requires Enabled(s, e)
    ensures |Step(s, e).kernel| == |s.kernel| + Written(s, e)
    ensures s.kernel <= Step(s, e).kernel
  {
  }

  function TotalWritten(s: State, es: seq<Event>): nat
    requires Legal(s, es)
    decreases |es|
  {
    if es == [] then 0 else Written(s, es[0]) + TotalWritten(Step(s, es[0]), es[1..])
  }

  lemma {:induction false} RunWrites(s: State, es: seq<Event>)
    requires Legal(s, es)
    ensures |Run(s, es).kernel| == |s.kernel| + TotalWritten(s, es)
    decreases |es|
  {
    if es == [] {
    } else {
      WritesCount(s, es[0]);
      RunWrites(Step(s, es[0]), es[1..]);
    }
  }

  /** Over every run, as many bytes have left as the writes reported. */
  lemma NothingHeldBack(highWatermark: nat, es: seq<Event>)
    requires Legal(Init(highWatermark), es)
    ensures |Run(Init(highWatermark), es).kernel| == TotalWritten(Init(highWatermark), es)
  {
    RunWrites(Init(highWatermark), es);
  }

  /** The write of this step takes a whole message, or all that was buffered. */
  predicate CompletesWrite(s: State, e: Event)
    requires Enabled(s, e)
  {
    match e
    case SendHere(m, r) => s.conn.Connected? && s.output == "" && !s.writing && r == Took(|m|)
    case RunFunctor(r) =>
      s.queue[0].SendInLoopF? && !s.conn.Disconnected? && s.output == "" && !s.writing && r == Took(|s.queue[0].message|)
    case Writable(r) => s.writing && s.output != "" && r == Took(|s.output|)
    case _ => false
  }

  /** The write complete callback is queued exactly when a direct write takes a whole message or a drain empties the buffer. */
  lemma WriteCompleteIff(s: State, e: Event)
    requires Inv(s) && Enabled(s, e)
    ensures Step(s, e).completes == s.completes + if CompletesWrite(s, e) then 1 else 0
  {
  }

  // ---------------------------------------------------------------- the state of the connection follows the calls

  predicate EndsConnected(e: Event) { e.ShutdownHere? || e.ShutdownThere? || e.ForceClose? || e.Close? }

  predicate Uncalled(es: seq<Event>) { es != [] ==> !EndsConnected(es[0]) && Uncalled(es[1..]) }

  predicate Unclosed(es: seq<Event>) { es != [] ==> !es[0].Close? && Unclosed(es[1..]) }

  /** The first of Shutdown, ForceClose and Close in the run is a Shutdown. */
  predicate ShutdownFirst(es: seq<Event>) {
    es != [] && if EndsConnected(es[0]) then es[0].ShutdownHere? || es[0].ShutdownThere? else ShutdownFirst(es[1..])
  }

  lemma StepConn(s: State, e: Event)
    requires Enabled(s, e)
    ensures Step(s, e).conn.Connected? <==> s.conn.Connected? && !EndsConnected(e)
    ensures Step(s, e).conn.Disconnected? <==> s.conn.Disconnected? || e.Close?
    ensures Step(s, e).asked <==> s.asked || (s.conn.Connected? && (e.ShutdownHere? || e.ShutdownThere?))
  {
  }

  lemma {:induction false} RunConn(s: State, es: seq<Event>)
    requires Legal(s, es)
    ensures Run(s, es).conn.Connected? <==> s.conn.Connected? && Uncalled(es)
    ensures Run(s, es).conn.Disconnected? <==> s.conn.Disconnected? || !Unclosed(es)
    ensures Run(s, es).asked <==> s.asked || (s.conn.Connected? && ShutdownFirst(es))
    decreases |es|
  {
    if es == [] {
    } else {
      StepConn(s, es[0]);
      RunConn(Step(s, es[0]), es[1..]);
    }
  }

  /**
   Over every run the connection is connected until the first Shutdown, ForceClose or Close, down from the first
   Close on, and a shutdown has taken effect exactly if the first of them was a Shutdown.
   */
  lemma StateFollowsCalls(highWatermark: nat, es: seq<Event>)
    requires Legal(Init(highWatermark), es)
    ensures var s := Run(Init(highWatermark), es);
            && (s.conn.Connected? <==> Uncalled(es)) && (s.conn.Disconnected? <==> !Unclosed(es))
            && (s.asked <==> ShutdownFirst(es))
  {
    RunConn(Init(highWatermark), es);
  }

  /** The functor that a call from another thread queues: only while connected. */
  lemma CallsQueue(s: State, e: Event)
    requires Enabled(s, e)
    ensures var q := if e.RunFunctor? then s.queue[1..] else s.queue;
            Step(s, e).queue == if !s.conn.Connected? then q
                                else if e.SendThere? then q + [SendInLoopF(e.message)]
                                else if e.ShutdownThere? then q + [ShutdownInLoopF] else q
  {
  }

  // ---------------------------------------------------------------- a send overtaken by the half-close

  /** The run in which another thread sends, then shuts down, while one byte is still buffered. */
  function OvertakingRun(m: string): seq<Event> {
    [SendHere("ab", Took(1)), SendThere(m), ShutdownThere, Writable(Took(1)), RunFunctor(Broken)]
  }

  /** The draining write issues SHUT_WR, and the send that was queued first finds the connection broken. */
  lemma DrainThenDrop(s: State, m: string)
    requires s.conn.Disconnecting? && s.writing && s.output == "b" && !s.shutWr
    requires s.queue != [] && s.queue[0] == SendInLoopF(m)
    ensures var es := [Writable(Took(1)), RunFunctor(Broken)];
            Legal(s, es) && Run(s, es).dropped == s.dropped + [m] && Run(s, es).kernel == s.kernel + "b"
  {
    var t := Step(s, Writable(Took(1)));
    assert t.shutWr && t.output == "" && t.kernel == s.kernel + "b";
    assert [Writable(Took(1)), RunFunctor(Broken)][1..] == [RunFunctor(Broken)] && [RunFunctor(Broken)][1..] == [];
    assert Legal(t, [RunFunctor(Broken)]);
    assert Run(t, [RunFunctor(Broken)]) == Step(t, RunFunctor(Broken));
  }

  /**
   A message queued by another thread before its Shutdown can still be dropped: the loop's next draining write
   sees the disconnecting state and issues SHUT_WR ahead of the queued send.
   */
  lemma SendBeforeShutdownCanBeDropped(m: string)
    ensures Legal(Init(100), OvertakingRun(m))
    ensures Run(Init(100), OvertakingRun(m)).dropped == [m]
    ensures Run(Init(100), OvertakingRun(m)).kernel == "ab"
  {
    var es := OvertakingRun(m);
    var s1 := Step(Init(100), es[0]);
    assert s1.output == "b" && s1.kernel == "a" by {
      assert "ab"[1..] == "b" && "ab"[..1] == "a";
    }
    var s2 := Step(s1, es[1]);
    var s3 := Step(s2, es[2]);
    DrainThenDrop(s3, m);
    assert es[1..][1..] == es[2..] && es[2..][1..] == es[3..] == [Writable(Took(1)), RunFunctor(Broken)];
    assert Legal(s2, es[2..]) && Run(s2, es[2..]) == Run(s3, es[3..]);
    assert Legal(s1, es[1..]) && Run(s1, es[1..]) == Run(s3, es[3..]);
  }

  /** How many functors a run executes. */
  function Executions(es: seq<Event>): nat {
    if es == [] then 0 else (if es[0].RunFunctor? then 1 else 0) + Executions(es[1..])
  }

  /**
   The step that ends the sending: a write drains the buffer of a disconnecting connection, a half-close finds
   the buffer empty, or the connection closes.
   */
  predicate EndsSending(s: State, e: Event)
    requires Enabled(s, e)
  {
    match e
    case Writable(r) => s.conn.Disconnecting? && s.output != "" && r == Took(|s.output|)
    case RunFunctor(_) => s.queue[0].ShutdownInLoopF? && s.output == ""
    case ShutdownHere => s.conn.Connected? && s.output == ""
    case Close => true
    case _ => false
  }

  predicate SendingEnds(s: State, es: seq<Event>)
    requires Legal(s, es)
    decreases |es|
  {
    es != [] && (EndsSending(s, es[0]) || SendingEnds(Step(s, es[0]), es[1..]))
  }

  predicate Ended(s: State) { s.shutWr || s.conn.Disconnected? }

  lemma StepEndsIff(s: State, e: Event)
    requires Inv(s) && Enabled(s, e)
    ensures Ended(Step(s, e)) <==> Ended(s) || EndsSending(s, e)
  {
  }

  lemma {:induction false} RunEndsIff(s: State, es: seq<Event>)
    requires Inv(s) && Legal(s, es)
    ensures Ended(Run(s, es)) <==> Ended(s) || SendingEnds(s, es)
    decreases |es|
  {
    if es == [] {
    } else {
      StepConserves(s, es[0]);
      StepKeepsRest(s, es[0]);
      StepEndsIff(s, es[0]);
      RunEndsIff(Step(s, es[0]), es[1..]);
    }
  }

  /** The functors run in order: after k executions what was at position k is at the front. */
  lemma {:induction false} QueueMoves(s: State, es: seq<Event>, k: nat)
    requires Legal(s, es) && Executions(es) <= k < |s.queue|
    ensures k - Executions(es) < |Run(s, es).queue|
    ensures Run(s, es).queue[k - Executions(es)] == s.queue[k]
    decreases |es|
  {
    if es == [] {
    } else {
      QueueMoves(Step(s, es[0]), es[1..], if es[0].RunFunctor? then k - 1 else k);
    }
  }

  /**
   Exactly when a send queued by another thread is dropped, over every run: the connection is up when m is
   queued, es brings m's functor to the front, and then it runs. With a peer that breaks the connection only
   after SHUT_WR, the message is dropped if and only if some step of es ended the sending, and accepted if not.
   */
  lemma QueuedSendDroppedIff(highWatermark: nat, before: seq<Event>, m: string, es: seq<Event>, r: WriteResult)
    requires Legal(Init(highWatermark), before)
    requires var s := Run(Init(highWatermark), before);
             && s.conn.Connected? && Legal(Step(s, SendThere(m)), es) && Executions(es) == |s.queue|
             && var t := Run(Step(s, SendThere(m)), es);
                Enabled(t, RunFunctor(r)) && (r.Broken? ==> t.shutWr)
    ensures var u := Step(Run(Init(highWatermark), before), SendThere(m));
            var t := Run(u, es);
            && t.queue[0] == SendInLoopF(m)
            && (SendingEnds(u, es) ==> Step(t, RunFunctor(r)).dropped == t.dropped + [m])
            && (!SendingEnds(u, es) ==> Step(t, RunFunctor(r)).accepted == t.accepted + [m]
                                        && Step(t, RunFunctor(r)).dropped == t.dropped)
  {
    var s := Run(Init(highWatermark), before);
    RunKeepsInv(Init(highWatermark), before);
    var u := Step(s, SendThere(m));
    StepConserves(s, SendThere(m));
    StepKeepsRest(s, SendThere(m));
    RunEndsIff(u, es);
    RunKeepsInv(u, es);
    QueueMoves(u, es, |s.queue|);
  }

  // ---------------------------------------------------------------- the connection object

  class TcpConnection {
    var state: ConnState
    var isWriting: bool
    const outputBuffer: ByteBuffer.Buffer
    var shutWr: bool
    var queue: seq<Functor>
    var highWatermark: nat
    ghost var kernel: string
    ghost var accepted: seq<string>
    ghost var dropped: seq<string>
    ghost var marks: seq<nat>
    ghost var completes: nat
    ghost var asked: bool

    ghost predicate Valid()
      reads this, outputBuffer
    {
      outputBuffer.Valid()
    }

    ghost function View(): State
      requires Valid()
      reads this, outputBuffer, outputBuffer.data
    {
      State(state, isWriting, outputBuffer.Contents(), shutWr, queue, highWatermark,
            kernel, accepted, dropped, marks, completes, asked)
    }

    constructor (mark: nat := 64 * 1024 * 1024)
      ensures Valid() && fresh(outputBuffer) && fresh(outputBuffer.data) && View() == Init(mark)
    {
      state, isWriting, shutWr, queue, highWatermark := Connected, false, false, [], mark;
      outputBuffer := new ByteBuffer.Buffer();
      kernel, accepted, dropped, marks, completes, asked := "", [], [], [], 0, false;
    }

    /** The part of SendInLoop after the direct write. */
    method AppendRemaining(rest: string)
      requires Valid()
      modifies this, outputBuffer, outputBuffer.data
      ensures Valid() && (outputBuffer.data == old(outputBuffer.data) || fresh(outputBuffer.data))
      ensures View() == Enqueue(old(View()), rest)
    {
      if |rest| > 0 {
        var oldLen := outputBuffer.ReadableBytes();
        if oldLen + |rest| >= highWatermark && oldLen < highWatermark {
          marks := marks + [oldLen + |rest|];
        }
        outputBuffer.Append(rest);
        if !isWriting {
          isWriting := true;
        }
      }
    }

    method SendInLoop(message: string, result: WriteResult)
      requires Valid()
      requires WritesDirectly(View()) ==> KernelMay(shutWr, |message|, result)
      modifies this, outputBuffer, outputBuffer.data
      ensures Valid() && (outputBuffer.data == old(outputBuffer.data) || fresh(outputBuffer.data))
      ensures View() == Send(old(View()), message, result)
    {
      if state.Disconnected? {
        dropped := dropped + [message];
        return;
      }
      var remaining := message;
      if !isWriting && outputBuffer.ReadableBytes() == 0 {
        match result {
          case Took(n) =>
            kernel := kernel + message[..n];
            remaining := message[n..];
            if |remaining| == 0 {
              completes := completes + 1;
            }
          case Broken =>
            dropped := dropped + [message];
            return;
          case _ =>
        }
      }
      accepted := accepted + [message];
      AppendRemaining(remaining);
    }

    method ShutdownInLoop()
      requires Valid()
      modifies this
      ensures Valid() && View() == HalfClose(old(View()))
    {
      if !isWriting {
        shutWr := true;
      }
    }

    method HandleWrite(result: WriteResult)
      requires Valid() && Enabled(View(), Writable(result))
      modifies this, outputBuffer
      ensures Valid() && outputBuffer.data == old(outputBuffer.data)
      ensures View() == Drain(old(View()), result)
    {
      if isWriting {
        if result.Took? && result.n > 0 {
          kernel := kernel + outputBuffer.Contents()[..result.n];
          outputBuffer.Retrieve(result.n);
          if outputBuffer.ReadableBytes() == 0 {
            isWriting := false;
            completes := completes + 1;
            if state.Disconnecting? {
              ShutdownInLoop();
            }
          }
        }
      }
    }

    method HandleClose()
      requires Valid() && Enabled(View(), Close)
      modifies this
      ensures Valid() && View() == Step(old(View()), Close)
    {
      state := Disconnected;
      isWriting := false;
    }

    method SendMessage(message: string, inLoopThread: bool, result: WriteResult)
      requires Valid() && Enabled(View(), if inLoopThread then SendHere(message, result) else SendThere(message))
      modifies this, outputBuffer, outputBuffer.data
      ensures Valid() && (outputBuffer.data == old(outputBuffer.data) || fresh(outputBuffer.data))
      ensures View() == Step(old(View()), if inLoopThread then SendHere(message, result) else SendThere(message))
    {
      if state.Connected? {
        if inLoopThread {
          SendInLoop(message, result);
        } else {
          queue := queue + [SendInLoopF(message)];
        }
      }
    }

    method Shutdown(inLoopThread: bool)
      requires Valid()
      modifies this
      ensures Valid() && View() == Step(old(View()), if inLoopThread then ShutdownHere else ShutdownThere)
    {
      if state.Connected? {
        state, asked := Disconnecting, true;
        if inLoopThread {
          ShutdownInLoop();
        } else {
          queue := queue + [ShutdownInLoopF];
        }
      }
    }

    method RequestForceClose()
      requires Valid()
      modifies this
      ensures Valid() && View() == Step(old(View()), ForceClose)
    {
      if state.Connected? || state.Disconnecting? {
        state := Disconnecting;
      }
    }

    method RunQueued(result: WriteResult)
      requires Valid() && Enabled(View(), RunFunctor(result))
      modifies this, outputBuffer, outputBuffer.data
      ensures Valid() && (outputBuffer.data == old(outputBuffer.data) || fresh(outputBuffer.data))
      ensures View() == Step(old(View()), RunFunctor(result))
    {
      var f := queue[0];
      queue := queue[1..];
      match f
      case SendInLoopF(m) => SendInLoop(m, result);
      case ShutdownInLoopF => ShutdownInLoop();
    }

    method Perform(e: Event)
      requires Valid() && Enabled(View(), e)
      modifies this, outputBuffer, outputBuffer.data
      ensures Valid() && (outputBuffer.data == old(outputBuffer.data) || fresh(outputBuffer.data))
      ensures View() == Step(old(View()), e)
    {
      match e
      case SendHere(m, r) => SendMessage(m, true, r);
      case SendThere(m) => SendMessage(m, false, WouldBlock);
      case ShutdownHere => Shutdown(true);
      case ShutdownThere => Shutdown(false);
      case ForceClose => RequestForceClose();
      case RunFunctor(r) => RunQueued(r);
      case Writable(r) => HandleWrite(r);
      case Close => HandleClose();
    }

    /** Any schedule of sends, shutdowns, kernel answers and the final close. */
    method Schedule(es: seq<Event>)
      requires Valid() && Legal(View(), es)
      modifies this, outputBuffer, outputBuffer.data
      ensures Valid() && View() == Run(old(View()), es)
    {
      var i := 0;
      while i < |es|
        invariant 0 <= i <= |es|
        invariant Valid() && (outputBuffer.data == old(outputBuffer.data) || fresh(outputBuffer.data))
        invariant Legal(View(), es[i..])
        invariant Run(View(), es[i..]) == Run(old(View()), es)
      {
        assert es[i..][1..] == es[i + 1..];
        Perform(es[i]);
        i := i + 1;
      }
    }
  }
}
