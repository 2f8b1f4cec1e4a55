/**
 The hand-off of functors to an event loop, muduo-cpp11/net/event_loop.cpp.

 One loop thread and any number of other threads interleave atomic steps: append under the mutex, write the
 wakeup descriptor, return from poll, read the descriptor, swap the pending vector, run one functor.
 */
module EventLoops {
  type Functor = int
  type Thread = nat

  /** The largest value an eventfd counter holds; a write beyond it fails and leaves the counter readable. */
  const EVENTFD_MAX: nat := 0xffff_ffff_ffff_fffe

  function EventfdWrite(counter: nat): nat {
    if counter < EVENTFD_MAX then counter + 1 else counter
  }

  /** A queued functor, with the number of swaps made before it was queued. */
  datatype Entry = Entry(functor: Functor, swapsBefore: nat)

  datatype Phase =
    | NotStarted                      // before Loop()
    | Checking                        // about to test quit_
    | Blocked                         // inside poll
    | Dispatching(wakeupActive: bool) // handling active channels; the wakeup channel still to come or not
    | Swapping                        // calling_pending_functors_ is set, the vector not yet swapped
    | Running                         // running the swapped functors
    | Stopped

  datatype State = State(
    phase: Phase,
    quit: bool,
    calling: bool,
    iteration: nat,
    counter: nat,                     // the wakeup descriptor
    pending: seq<Entry>,
    batch: seq<Entry>,                // what is left of the swapped vector
    waking: set<Thread>,              // other threads between their push (or quit) and their Wakeup
    selfWaking: bool,                 // the loop thread is between its push and its Wakeup
    // history
    pushed: seq<Entry>,
    executed: seq<Entry>,
    executedIn: seq<nat>,             // the number of the batch each executed functor ran in
    swaps: nat,
    queuedEarly: bool,                // the loop thread queued a functor before Loop()
    foreign: bool)                    // some other thread has queued or quit

  function Init(): State {
    State(NotStarted, false, false, 0, 0, [], [], {}, false, [], [], [], 0, false, false)
  }

  datatype Event =
    | LoopQueue(functor: Functor)     // QueueInLoop on the loop thread: the push
    | LoopWake                        // and its Wakeup
    | LoopQuit
    | OtherQueue(thread: Thread, functor: Functor)
    | OtherQuit(thread: Thread)
    | OtherWake(thread: Thread)
    | Enter                           // Loop()
    | Check                           // while (!quit_)
    | PollReturn(wakeupActive: bool)
    | ReadWakeup                      // HandleRead
    | EndDispatch
    | Swap
    | RunOne
    | EndFunctors

  /** User code runs on the loop thread before Loop(), in event callbacks and in functors. */
  predicate UserCode(s: State) {
    (s.phase.NotStarted? || s.phase.Dispatching? || s.phase.Running?) && !s.selfWaking
  }

  predicate Enabled(s: State, e: Event) {
    match e
    case LoopQueue(_) => UserCode(s)
    case LoopQuit => UserCode(s)
    case LoopWake => s.selfWaking
    case OtherQueue(t, _) => t !in s.waking
    case OtherQuit(t) => t !in s.waking
    case OtherWake(t) => t in s.waking
    case Enter => s.phase.NotStarted?
    case Check => s.phase.Checking?
    case PollReturn(w) => s.phase.Blocked? && (w ==> s.counter > 0)
    case ReadWakeup => s.phase == Dispatching(true)
    case EndDispatch => s.phase == Dispatching(false)
    case Swap => s.phase.Swapping?
    case RunOne => s.phase.Running? && !s.selfWaking && s.batch != []
    case EndFunctors => s.phase.Running? && !s.selfWaking && s.batch == []
  }

  function Push(s: State, f: Functor): State {
    var x := Entry(f, s.swaps);
    s.(pending := s.pending + [x], pushed := s.pushed + [x])
  }

  function Step(s: State, e: Event): State
    requires Enabled(s, e)
  {
    match e
    case LoopQueue(f) =>
      Push(s, f).(selfWaking := s.calling, queuedEarly := s.queuedEarly || s.phase.NotStarted?)
    case LoopWake => s.(selfWaking := false, counter := EventfdWrite(s.counter))
    case LoopQuit => s.(quit := true)
    case OtherQueue(t, f) => Push(s, f).(waking := s.waking + {t}, foreign := true)
    case OtherQuit(t) => s.(quit := true, waking := s.waking + {t}, foreign := true)
    case OtherWake(t) => s.(waking := s.waking - {t}, counter := EventfdWrite(s.counter))
    case Enter => s.(phase := Checking, quit := false)
    case Check => s.(phase := if s.quit then Stopped else Blocked)
    case PollReturn(w) => s.(phase := Dispatching(w), iteration := s.iteration + 1)
    case ReadWakeup => s.(phase := Dispatching(false), counter := 0)
    case EndDispatch => s.(phase := Swapping, calling := true)
    case Swap => s.(phase := Running, batch := s.pending, pending := [], swaps := s.swaps + 1)
    case RunOne =>
      s.(batch := s.batch[1..], executed := s.executed + [s.batch[0]], executedIn := s.executedIn + [s.swaps])
    case EndFunctors => s.(phase := Checking, calling := false)
  }

  predicate Legal(s: State, es: seq<Event>)
    decreases |es|
  {
    es != [] ==> Enabled(s, es[0]) && Legal(Step(s, es[0]), es[1..])
  }

  function Run(s: State, es: seq<Event>): State
    requires Legal(s, es)
    decreases |es|
  {
    if es == [] then s else Run(Step(s, es[0]), es[1..])
  }

  // ---------------------------------------------------------------- the invariant

  /** A wakeup is readable or on its way. */
  predicate Covered(s: State) { s.counter > 0 || s.waking != {} }

  predicate Control(s: State) {
    && (s.calling <==> s.phase.Swapping? || s.phase.Running?)
    && (s.selfWaking ==> s.phase.Running?)
    && (s.batch != [] ==> s.phase.Running?)
    && (s.phase.NotStarted? ==> s.iteration == 0)
    && (s.iteration == 0 ==> s.phase.NotStarted? || s.phase.Checking? || s.phase.Blocked? || s.phase.Stopped?)
    && (s.phase.Stopped? ==> s.quit)
  }

  /** Before the first return from poll nothing has been consumed. */
  predicate Start(s: State) {
    s.iteration == 0 ==>
      && (s.foreign <==> Covered(s))
      && (s.queuedEarly ==> s.pending != [])
      && (s.pending != [] ==> s.queuedEarly || s.foreign)
  }

  predicate Wakeups(s: State) {
    && (s.iteration > 0 && (s.phase.Checking? || s.phase.Blocked? || s.phase.Stopped?) && s.pending != [] ==> Covered(s))
    && (s.phase.Running? && s.pending != [] ==> Covered(s) || s.selfWaking)
    && (s.phase.Blocked? && s.quit ==> Covered(s))
  }

  predicate Order(s: State) {
    && s.executed + s.batch + s.pending == s.pushed
    && |s.executedIn| == |s.executed|
    && (forall i :: 0 <= i < |s.executed| ==> s.executedIn[i] == s.executed[i].swapsBefore + 1)
    && (forall i :: 0 <= i < |s.batch| ==> s.batch[i].swapsBefore + 1 == s.swaps)
    && (forall i :: 0 <= i < |s.pending| ==> s.pending[i].swapsBefore == s.swaps)
  }

  predicate Inv(s: State) { Control(s) && Start(s) && Wakeups(s) && Order(s) }

  lemma StepKeepsControl(s: State, e: Event)
    requires Control(s) && Enabled(s, e)
    ensures Control(Step(s, e))
  {
  }

  lemma StepKeepsStart(s: State, e: Event)
    requires Control(s) && Start(s) && Enabled(s, e)
    ensures Start(Step(s, e))
  {
    match e
    case OtherQueue(t, _) => assert t in Step(s, e).waking;
    case OtherQuit(t) => assert t in Step(s, e).waking;
    case _ =>
  }

  lemma StepKeepsWakeups(s: State, e: Event)
    requires Control(s) && Start(s) && Wakeups(s) && Enabled(s, e)
    ensures Wakeups(Step(s, e))
  {
    match e
    case OtherQueue(t, _) => assert t in Step(s, e).waking;
    case OtherQuit(t) => assert t in Step(s, e).waking;
    case _ =>
  }

  lemma StepKeepsOrder(s: State, e: Event)
    requires Control(s) && Order(s) && Enabled(s, e)
    ensures Order(Step(s, e))
  {
    match e
    case RunOne => assert s.batch == [s.batch[0]] + s.batch[1..];
    case _ =>
  }

  lemma {:induction false} RunKeepsInv(s: State, es: seq<Event>)
    requires Inv(s) && Legal(s, es)
    ensures Inv(Run(s, es))
    decreases |es|
  {
    if es == [] {
    } else {
      StepKeepsControl(s, es[0]);
      StepKeepsStart(s, es[0]);
      StepKeepsWakeups(s, es[0]);
      StepKeepsOrder(s, es[0]);
      RunKeepsInv(Step(s, es[0]), es[1..]);
    }
  }

  // ---------------------------------------------------------------- the main results

  /**
   No lost wakeup, exactly: in every interleaving, a loop blocked in poll with functors pending and no wakeup
   readable or on its way is a loop still in its first poll whose own thread queued before Loop() while no
   other thread queued or quit. In every other state the skipped wakeups are harmless.
   */
  lemma NoLostWakeup(es: seq<Event>)
    requires Legal(Init(), es) && Run(Init(), es).phase.Blocked?
    ensures var s := Run(Init(), es);
            (s.pending != [] && !Covered(s)) <==> (s.iteration == 0 && s.queuedEarly && !s.foreign)
  {
    RunKeepsInv(Init(), es);
  }

  /** A Quit from another thread is not lost either. */
  lemma NoLostQuit(es: seq<Event>)
    requires Legal(Init(), es)
    ensures var s := Run(Init(), es);
            s.phase.Blocked? && s.quit ==> Covered(s)
  {
    RunKeepsInv(Init(), es);
  }

  /** The failing case is real: one functor queued before Loop() waits for a whole poll timeout. */
  lemma EarlyQueueIsNotWoken()
    ensures exists es :: Legal(Init(), es)
              && Run(Init(), es).phase.Blocked? && Run(Init(), es).pending != [] && !Covered(Run(Init(), es))
  {
    var es := [LoopQueue(7), Enter, Check];
    var s1 := Step(Init(), es[0]);
    var s2 := Step(s1, es[1]);
    var s3 := Step(s2, es[2]);
    assert es[1..] == [Enter, Check] && es[1..][1..] == [Check] && es[1..][1..][1..] == [];
    assert Legal(s2, [Check]) && Run(s2, [Check]) == s3;
    assert Legal(s1, es[1..]) && Run(s1, es[1..]) == s3;
    assert Legal(Init(), es) && Run(Init(), es) == s3;
  }

  /** The functor that a call of QueueInLoop is given. */
  function Ask(e: Event): seq<Functor> {
    match e
    case LoopQueue(f) => [f]
    case OtherQueue(_, f) => [f]
    case _ => []
  }

  /** The functors that the calls of QueueInLoop in a run were given, in order. */
  function Asked(es: seq<Event>): seq<Functor> { if es == [] then [] else Ask(es[0]) + Asked(es[1..]) }

  function Functors(xs: seq<Entry>): seq<Functor> { if xs == [] then [] else [xs[0].functor] + Functors(xs[1..]) }

  lemma {:induction false} FunctorsAppend(xs: seq<Entry>, x: Entry)
    ensures Functors(xs + [x]) == Functors(xs) + [x.functor]
  {
    if xs == [] {
      assert xs + [x] == [x] && [x][1..] == [];
    } else {
      assert (xs + [x])[1..] == xs[1..] + [x];
      FunctorsAppend(xs[1..], x);
    }
  }

  lemma StepPushes(s: State, e: Event)
    requires Enabled(s, e)
    ensures Functors(Step(s, e).pushed) == Functors(s.pushed) + Ask(e)
  {
    if e.LoopQueue? || e.OtherQueue? {
      FunctorsAppend(s.pushed, Entry(e.functor, s.swaps));
    }
  }

  lemma Regroup(a: seq<Functor>, b: seq<Functor>, c: seq<Functor>)
    ensures a + b + c == a + (b + c)
  {
  }

  lemma {:induction false} RunPushes(s: State, es: seq<Event>)
    requires Legal(s, es)
    ensures Functors(Run(s, es).pushed) == Functors(s.pushed) + Asked(es)
    decreases |es|
  {
    if es == [] {
    } else {
      var u, rest := Step(s, es[0]), es[1..];
      StepPushes(s, es[0]);
      RunPushes(u, rest);
      Regroup(Functors(s.pushed), Ask(es[0]), Asked(rest));
    }
  }

  /**
   First in first out, each exactly once: executed, then the rest of the batch, then pending, is all that QueueInLoop
   was given, in the order of the calls.
   */
  lemma FunctorOrder(es: seq<Event>)
    requires Legal(Init(), es)
    ensures var s := Run(Init(), es);
            Functors(s.executed + s.batch + s.pending) == Asked(es)
  {
    RunKeepsInv(Init(), es);
    RunPushes(Init(), es);
  }

  /** A functor runs in exactly the next batch after it was queued; one queued by a running functor never in the same one. */
  lemma FunctorBatch(es: seq<Event>, i: nat)
    requires Legal(Init(), es) && i < |Run(Init(), es).executed|
    ensures var s := Run(Init(), es);
            |s.executedIn| == |s.executed| <= |s.pushed| && s.executedIn[i] == s.pushed[i].swapsBefore + 1
  {
    RunKeepsInv(Init(), es);
    var s := Run(Init(), es);
    assert s.pushed[i] == s.executed[i];
  }

  // ---------------------------------------------------------------- stopping and going on

  predicate IsQuit(e: Event) { e.LoopQuit? || e.OtherQuit? }

  predicate NoEnter(es: seq<Event>) { es != [] ==> !es[0].Enter? && NoEnter(es[1..]) }

  /** Some Quit of the run was not undone by a later entry into Loop(). */
  predicate QuitStands(es: seq<Event>) {
    es != [] && ((IsQuit(es[0]) && NoEnter(es[1..])) || QuitStands(es[1..]))
  }

  lemma {:induction false} RunQuits(s: State, es: seq<Event>)
    requires Legal(s, es)
    ensures Run(s, es).quit <==> QuitStands(es) || (s.quit && NoEnter(es))
    decreases |es|
  {
    if es == [] {
    } else {
      RunQuits(Step(s, es[0]), es[1..]);
    }
  }

  /** quit_ is set exactly by a Quit that no later entry into Loop() undid, and Loop() returns only when it is set. */
  lemma StopsOnlyOnQuit(es: seq<Event>)
    requires Legal(Init(), es)
    ensures var s := Run(Init(), es);
            (s.quit <==> QuitStands(es)) && (s.phase.Stopped? ==> QuitStands(es))
  {
    RunKeepsInv(Init(), es);
    RunQuits(Init(), es);
  }

  function WriteOrRead(n: nat, e: Event): nat {
    if e.LoopWake? || e.OtherWake? then n + 1 else if e.ReadWakeup? then 0 else n
  }

  /** The writes of the wakeup descriptor since it was last read; n of them before the run. */
  function Writes(n: nat, es: seq<Event>): nat
    decreases |es|
  {
    if es == [] then n else Writes(WriteOrRead(n, es[0]), es[1..])
  }

  lemma {:induction false} CounterIsWrites(s: State, es: seq<Event>, n: nat)
    requires Legal(s, es) && s.counter == (if n < EVENTFD_MAX then n else EVENTFD_MAX)
    ensures Run(s, es).counter == (if Writes(n, es) < EVENTFD_MAX then Writes(n, es) else EVENTFD_MAX)
    decreases |es|
  {
    if es == [] {
    } else {
      CounterIsWrites(Step(s, es[0]), es[1..], WriteOrRead(n, es[0]));
    }
  }

  /** A wakeup wakes once: in every run the descriptor is readable exactly if it was written since it was last read. */
  lemma WakeupsAreConsumed(es: seq<Event>)
    requires Legal(Init(), es)
    ensures Run(Init(), es).counter > 0 <==> Writes(0, es) > 0
  {
    CounterIsWrites(Init(), es, 0);
  }

  lemma {:induction false} RunKeepsReported(s: State, es: seq<Event>)
    requires s.phase == Dispatching(true) && Legal(s, es) && ReadWakeup !in es
    ensures Run(s, es).phase == Dispatching(true)
    decreases |es|
  {
    if es == [] {
    } else {
      assert es[0] in es;
      RunKeepsReported(Step(s, es[0]), es[1..]);
    }
  }

  /** A wakeup that poll reports is read before the dispatch ends. */
  lemma {:induction false} ReportedIsRead(s: State, es: seq<Event>)
    requires Enabled(s, PollReturn(true)) && Legal(Step(s, PollReturn(true)), es)
    requires Enabled(Run(Step(s, PollReturn(true)), es), EndDispatch)
    ensures ReadWakeup in es
  {
    if ReadWakeup !in es {
      RunKeepsReported(Step(s, PollReturn(true)), es);
    }
  }

  /** The steps that the loop makes by itself, without any further call. */
  predicate IsOwn(e: Event) {
    e.LoopWake? || e.Enter? || e.Check? || e.PollReturn? || e.ReadWakeup? || e.EndDispatch? || e.Swap? || e.RunOne?
    || e.EndFunctors?
  }

  predicate AllOwn(es: seq<Event>) { forall i :: 0 <= i < |es| ==> IsOwn(es[i]) }

  /** t is reached from s by own steps of the loop. */
  ghost predicate Leads(s: State, t: State) { exists es :: AllOwn(es) && Legal(s, es) && Run(s, es) == t }

  lemma {:induction false} RunConcat(s: State, a: seq<Event>, b: seq<Event>)
    requires Legal(s, a) && Legal(Run(s, a), b)
    ensures Legal(s, a + b) && Run(s, a + b) == Run(Run(s, a), b)
    decreases |a|
  {
    if a == [] {
      assert a + b == b;
    } else {
      assert (a + b)[1..] == a[1..] + b;
      RunConcat(Step(s, a[0]), a[1..], b);
    }
  }

  lemma LeadsOn(s: State, t: State, u: State)
    requires Leads(s, t) && Leads(t, u)
    ensures Leads(s, u)
  {
    var a :| AllOwn(a) && Legal(s, a) && Run(s, a) == t;
    var b :| AllOwn(b) && Legal(t, b) && Run(t, b) == u;
    RunConcat(s, a, b);
    assert AllOwn(a + b);
  }

  lemma LeadsStep(s: State, e: Event)
    requires IsOwn(e) && Enabled(s, e)
    ensures Leads(s, Step(s, e))
  {
    assert [e][1..] == [];
    assert Legal(s, [e]) && Run(s, [e]) == Step(s, e) && AllOwn([e]);
  }

  lemma LeadsKeepsInv(s: State, t: State)
    requires Inv(s) && Leads(s, t)
    ensures Inv(t)
  {
    var a :| AllOwn(a) && Legal(s, a) && Run(s, a) == t;
    RunKeepsInv(s, a);
  }

  /** t is back at the test of the loop with its batch done; what was queued and Quit are as in s. */
  predicate AtTest(s: State, t: State) { t.phase.Checking? && t.batch == [] && t.quit == s.quit && t.pushed == s.pushed }

  lemma {:induction false} FinishFunctors(s: State) returns (t: State)
    requires s.phase.Running? && !s.selfWaking
    ensures Leads(s, t) && AtTest(s, t) && t.pending == s.pending
    decreases |s.batch|
  {
    if s.batch == [] {
      t := Step(s, EndFunctors);
      LeadsStep(s, EndFunctors);
    } else {
      var u := Step(s, RunOne);
      LeadsStep(s, RunOne);
      t := FinishFunctors(u);
      LeadsOn(s, u, t);
    }
  }

  /** A running batch can be finished. */
  lemma FinishBatch(s: State) returns (t: State)
    requires s.phase.Running?
    ensures Leads(s, t) && AtTest(s, t) && t.pending == s.pending
  {
    if s.selfWaking {
      var u := Step(s, LoopWake);
      LeadsStep(s, LoopWake);
      t := FinishFunctors(u);
      LeadsOn(s, u, t);
    } else {
      t := FinishFunctors(s);
    }
  }

  /** After dispatch everything that is pending becomes the batch. */
  lemma RunPending(s: State) returns (t: State)
    requires s.phase.Swapping?
    ensures Leads(s, t) && AtTest(s, t) && t.pending == []
  {
    var u := Step(s, Swap);
    LeadsStep(s, Swap);
    t := FinishBatch(u);
    LeadsOn(s, u, t);
  }

  lemma FinishDispatch(s: State) returns (t: State)
    requires s.phase.Dispatching?
    ensures Leads(s, t) && AtTest(s, t) && t.pending == []
    decreases s.phase.wakeupActive
  {
    var e := if s.phase.wakeupActive then ReadWakeup else EndDispatch;
    var u := Step(s, e);
    LeadsStep(s, e);
    if s.phase.wakeupActive {
      t := FinishDispatch(u);
    } else {
      t := RunPending(u);
    }
    LeadsOn(s, u, t);
  }

  lemma ReturnFromPoll(s: State) returns (t: State)
    requires s.phase.Blocked?
    ensures Leads(s, t) && AtTest(s, t) && t.pending == []
  {
    var u := Step(s, PollReturn(false));
    LeadsStep(s, PollReturn(false));
    t := FinishDispatch(u);
    LeadsOn(s, u, t);
  }

  /** A started loop gets back to its test. */
  lemma BackToTest(s: State) returns (t: State)
    requires Control(s) && !s.phase.NotStarted? && !s.phase.Stopped?
    ensures Leads(s, t) && AtTest(s, t)
  {
    match s.phase
    case Checking =>
      t := s;
      assert Legal(s, []) && AllOwn([]) && Run(s, []) == s;
    case Blocked => t := ReturnFromPoll(s);
    case Dispatching(_) => t := FinishDispatch(s);
    case Swapping => t := RunPending(s);
    case Running => t := FinishBatch(s);
  }

  /** From its test, with quit_ off, the loop executes everything. */
  lemma RunAllFromTest(s: State) returns (t: State)
    requires Inv(s) && s.phase.Checking? && !s.quit
    ensures Leads(s, t) && t.executed == s.pushed && t.pushed == s.pushed
  {
    var u := Step(s, Check);
    LeadsStep(s, Check);
    LeadsKeepsInv(s, u);
    t := ReturnFromPoll(u);
    LeadsOn(s, u, t);
    LeadsKeepsInv(s, t);
    assert t.executed + [] + [] == t.executed;
  }

  /**
   Nothing queued is stuck: from every reachable state, unless Quit was called on a started loop, the loop by its own
   steps executes everything queued so far, without any further call.
   */
  lemma PendingCanRun(es: seq<Event>)
    requires Legal(Init(), es)
    requires Run(Init(), es).phase.NotStarted? || !Run(Init(), es).quit
    ensures var s := Run(Init(), es);
            exists t :: Leads(s, t) && t.executed == s.pushed
  {
    RunKeepsInv(Init(), es);
    var s := Run(Init(), es);
    var u;
    if s.phase.NotStarted? {
      u := Step(s, Enter);
      LeadsStep(s, Enter);
    } else {
      u := BackToTest(s);
    }
    LeadsKeepsInv(s, u);
    var t := RunAllFromTest(u);
    LeadsOn(s, u, t);
  }

  /** Quit is obeyed: from every reachable state of a started loop with quit_ set, it stops by its own steps. */
  lemma QuitCanStop(es: seq<Event>)
    requires Legal(Init(), es)
    requires !Run(Init(), es).phase.NotStarted? && Run(Init(), es).quit
    ensures exists t :: Leads(Run(Init(), es), t) && t.phase.Stopped?
  {
    RunKeepsInv(Init(), es);
    var s := Run(Init(), es);
    if s.phase.Stopped? {
      assert Legal(s, []) && AllOwn([]) && Run(s, []) == s;
      assert Leads(s, s);
    } else {
      var u := BackToTest(s);
      var t := Step(u, Check);
      LeadsStep(u, Check);
      LeadsOn(s, u, t);
    }
  }

  // ---------------------------------------------------------------- the loop object

  /** Functors with the number of swaps made before they were queued. */
  ghost function Stamp(fs: seq<Functor>, swaps: nat): seq<Entry> {
    if fs == [] then [] else [Entry(fs[0], swaps)] + Stamp(fs[1..], swaps)
  }

  lemma {:induction false} StampAppend(fs: seq<Functor>, f: Functor, swaps: nat)
    ensures Stamp(fs + [f], swaps) == Stamp(fs, swaps) + [Entry(f, swaps)]
  {
    if fs == [] {
      assert Stamp([f], swaps) == [Entry(f, swaps)] + Stamp([], swaps);
    } else {
      assert (fs + [f])[1..] == fs[1..] + [f];
      StampAppend(fs[1..], f, swaps);
    }
  }

  /** The head of a batch from its loop index on. */
  lemma StampHead(fs: seq<Functor>, i: nat, swaps: nat)
    requires i <= |fs|
    ensures Stamp(fs[i..], swaps) == [] <==> i == |fs|
    ensures i < |fs| ==> Stamp(fs[i..], swaps)[0] == Entry(fs[i], swaps)
    ensures i < |fs| ==> Stamp(fs[i..], swaps)[1..] == Stamp(fs[i + 1..], swaps)
  {
    if i < |fs| {
      assert fs[i..][1..] == fs[i + 1..];
    }
  }

  class EventLoop {
    var phase: Phase
    var quit: bool
    var callingPendingFunctors: bool
    var iteration: nat
    var wakeupCounter: nat
    var pendingFunctors: seq<Functor>
    var functors: seq<Functor>        // the vector swapped out by DoPendingFunctors
    var next: nat                     // its loop index
    var selfWaking: bool
    ghost var swaps: nat
    ghost var waking: set<Thread>
    ghost var pushed: seq<Entry>
    ghost var executed: seq<Entry>
    ghost var executedIn: seq<nat>
    ghost var queuedEarly: bool
    ghost var foreign: bool

    ghost predicate Valid()
      reads this
    {
      next <= |functors| && (swaps == 0 ==> functors == [])
    }

    ghost function Batch(): seq<Entry>
      reads this`functors, this`next, this`swaps
      requires next <= |functors|
    {
      if swaps == 0 then [] else Stamp(functors[next..], swaps - 1)
    }

    /** Pending functors were queued after the last swap, those of the batch between the last two. */
    ghost function View(): State
      reads this
      requires Valid()
    {
      State(phase, quit, callingPendingFunctors, iteration, wakeupCounter, Stamp(pendingFunctors, swaps), Batch(),
            waking, selfWaking, pushed, executed, executedIn, swaps, queuedEarly, foreign)
    }

    constructor ()
      ensures Valid() && View() == Init()
    {
      phase, quit, callingPendingFunctors, iteration := NotStarted, false, false, 0;
      wakeupCounter, pendingFunctors, functors, next, selfWaking, swaps := 0, [], [], 0, false, 0;
      waking, pushed, executed, executedIn := {}, [], [], [];
      queuedEarly, foreign := false, false;
    }

    /** The locked part of QueueInLoop. */
    method PushBack(cb: Functor)
      requires Valid()
      modifies this`pendingFunctors, this`pushed
      ensures Valid() && View() == Push(old(View()), cb)
    {
      StampAppend(pendingFunctors, cb, swaps);
      pendingFunctors, pushed := pendingFunctors + [cb], pushed + [Entry(cb, swaps)];
    }

    /** QueueInLoop up to its Wakeup, on the loop thread or on another one. Returns whether Wakeup must follow. */
    method QueueInLoop(cb: Functor, inLoopThread: bool, thread: Thread) returns (wake: bool)
      requires Valid() && Enabled(View(), if inLoopThread then LoopQueue(cb) else OtherQueue(thread, cb))
      modifies this
      ensures Valid() && View() == Step(old(View()), if inLoopThread then LoopQueue(cb) else OtherQueue(thread, cb))
      ensures wake <==> !inLoopThread || selfWaking
    {
      PushBack(cb);
      wake := !inLoopThread || callingPendingFunctors;
      if inLoopThread {
        selfWaking, queuedEarly := callingPendingFunctors, queuedEarly || phase.NotStarted?;
      } else {
        waking, foreign := waking + {thread}, true;
      }
    }

    method Quit(inLoopThread: bool, thread: Thread)
      requires Valid() && Enabled(View(), if inLoopThread then LoopQuit else OtherQuit(thread))
      modifies this
      ensures Valid() && View() == Step(old(View()), if inLoopThread then LoopQuit else OtherQuit(thread))
    {
      quit := true;
      if !inLoopThread {
        waking, foreign := waking + {thread}, true;
      }
    }

    method Wakeup(inLoopThread: bool, thread: Thread)
      requires Valid() && Enabled(View(), if inLoopThread then LoopWake else OtherWake(thread))
      modifies this
      ensures Valid() && View() == Step(old(View()), if inLoopThread then LoopWake else OtherWake(thread))
    {
      if wakeupCounter < EVENTFD_MAX {
        wakeupCounter := wakeupCounter + 1;
      }
      if inLoopThread {
        selfWaking := false;
      } else {
        waking := waking - {thread};
      }
    }

    /** The swap of DoPendingFunctors, under the mutex. */
    method SwapPending()
      requires Valid() && Enabled(View(), Swap)
      modifies this
      ensures Valid() && View() == Step(old(View()), Swap)
    {
      functors, next, pendingFunctors := pendingFunctors, 0, [];
      swaps, phase := swaps + 1, Running;
      assert functors[0..] == functors;
    }

    method RunNext() returns (f: Functor)
      requires Valid() && Enabled(View(), RunOne)
      modifies this
      ensures Valid() && View() == Step(old(View()), RunOne) && f == old(View()).batch[0].functor
    {
      StampHead(functors, next, swaps - 1);
      f := functors[next];
      executed, executedIn := executed + [Entry(f, swaps - 1)], executedIn + [swaps];
      next := next + 1;
    }

    /** The head and the end of the loop in Loop(). */
    method Turn(e: Event)
      requires e.Enter? || e.Check? || e.EndFunctors?
      requires Valid() && Enabled(View(), e)
      modifies this`phase, this`quit, this`callingPendingFunctors
      ensures Valid() && View() == Step(old(View()), e)
    {
      match e
      case Enter => phase, quit := Checking, false;
      case Check => phase := if quit then Stopped else Blocked;
      case EndFunctors => phase, callingPendingFunctors := Checking, false;
    }

    /** From the return of poll to DoPendingFunctors; HandleRead resets the wakeup descriptor. */
    method Dispatch(e: Event)
      requires e.PollReturn? || e.ReadWakeup? || e.EndDispatch?
      requires Valid() && Enabled(View(), e)
      modifies this`phase, this`iteration, this`wakeupCounter, this`callingPendingFunctors
      ensures Valid() && View() == Step(old(View()), e)
    {
      match e
      case PollReturn(w) => phase, iteration := Dispatching(w), iteration + 1;
      case ReadWakeup => phase, wakeupCounter := Dispatching(false), 0;
      case EndDispatch => phase, callingPendingFunctors := Swapping, true;
    }

    /** One scheduled step of any thread. */
    method Perform(e: Event)
      requires Valid() && Enabled(View(), e)
      modifies this
      ensures Valid() && View() == Step(old(View()), e)
    {
      match e
      case LoopQueue(f) => var _ := QueueInLoop(f, true, 0);
      case OtherQueue(t, f) => var _ := QueueInLoop(f, false, t);
      case LoopQuit => Quit(true, 0);
      case OtherQuit(t) => Quit(false, t);
      case LoopWake => Wakeup(true, 0);
      case OtherWake(t) => Wakeup(false, t);
      case Swap => SwapPending();
      case RunOne => var _ := RunNext();
      case PollReturn(_) => Dispatch(e);
      case ReadWakeup => Dispatch(e);
      case EndDispatch => Dispatch(e);
      case _ => Turn(e);
    }

    /** Any schedule of all the threads: the object goes through exactly the states of the run. */
    method Schedule(es: seq<Event>)
      requires Valid() && Legal(View(), es)
      modifies this
      ensures Valid() && View() == Run(old(View()), es)
    {
      var i := 0;
      while i < |es|
        invariant 0 <= i <= |es|
        invariant Valid() && Legal(View(), es[i..])
        invariant Run(View(), es[i..]) == Run(old(View()), es)
      {
        assert es[i..][1..] == es[i + 1..];
        Perform(es[i]);
        i := i + 1;
      }
    }
  }
}
