/**
 The bounded task queue of muduo-cpp11/base/thread_pool.cpp: a monitor with two condition variables and
 notify_one, and worker threads that test running_ before every Take. Every section between two lock operations
 is one atomic step. A thread inside wait() is in a waiting set; a notification or a spurious wakeup moves it to
 the awake set, from which it re-tests its condition when it gets the lock back.
 */
module ThreadPools {
  type Task = int
  type Thread = nat

  datatype State = State(
    running: bool,
    maxQueueSize: nat,
    workers: set<Thread>,               // threads_, each inside RunInThread
    queue: seq<Task>,
    takers: set<Thread>,                // in not_empty_.wait, not notified
    takersAwake: set<Thread>,           // left not_empty_.wait, lock not yet regained
    givers: set<Thread>,                // in not_full_.wait, not notified
    giversAwake: set<Thread>,
    offers: map<Thread, Task>,          // the task of each thread blocked in Run
    entering: set<Thread>,              // workers that saw running_ and are about to call Take
    left: set<Thread>,                  // workers that have left their loop
    // history
    submitted: seq<Task>,
    taken: seq<Task>)

  /** After Start with a positive bound. */
  function Init(maxQueueSize: nat, workers: set<Thread>): State {
    State(true, maxQueueSize, workers, [], {}, {}, {}, {}, map[], {}, {}, [], [])
  }

  predicate Full(s: State) { s.maxQueueSize > 0 && |s.queue| >= s.maxQueueSize }

  /** t is inside Run and has not returned. */
  predicate Blocked(s: State, t: Thread) { t in s.givers || t in s.giversAwake }

  /** t is not inside Take or Run; a worker that is outside is at its loop test or runs a task. */
  predicate Outside(s: State, t: Thread) {
    t !in s.takers && t !in s.takersAwake && !Blocked(s, t) && t !in s.entering && t !in s.left
  }

  /**
   The events. chosen is the thread that notify_one picks, used only when some thread waits. Any thread may call
   Run, a worker inside a task too; only workers call Take.
   */
  datatype Event =
    | Give(thread: Thread, task: Task, chosen: Thread)  // Run enters the monitor
    | GiveAgain(thread: Thread, chosen: Thread)         // Run returns from not_full_.wait
    | Test(thread: Thread)                              // while (running_)
    | Take(thread: Thread, chosen: Thread)              // Take enters the monitor
    | TakeAgain(thread: Thread, chosen: Thread)         // Take returns from not_empty_.wait
    | Spurious(thread: Thread)
    | Stop

  predicate Enabled(s: State, e: Event) {
    match e
    case Give(t, _, c) => s.workers != {} && Outside(s, t) && (s.takers != {} ==> c in s.takers)
    case GiveAgain(t, c) => t in s.giversAwake && t in s.offers && (s.takers != {} ==> c in s.takers)
    case Test(t) => t in s.workers && Outside(s, t)
    case Take(t, c) => t in s.entering && (s.givers != {} ==> c in s.givers)
    case TakeAgain(t, c) => t in s.takersAwake && (s.givers != {} ==> c in s.givers)
    case Spurious(t) => t in s.takers || t in s.givers
    case Stop => s.running
  }

  function NotifyTaker(s: State, c: Thread): State {
    if c in s.takers then s.(takers := s.takers - {c}, takersAwake := s.takersAwake + {c}) else s
  }

  function NotifyGiver(s: State, c: Thread): State {
    if c in s.givers then s.(givers := s.givers - {c}, giversAwake := s.giversAwake + {c}) else s
  }

  /** Run with the lock held: wait while full, else append and notify one taker. */
  function TryGive(s: State, t: Thread, task: Task, chosen: Thread): State {
    if Full(s) then s.(givers := s.givers + {t}, offers := s.offers[t := task])
    else NotifyTaker(s.(queue := s.queue + [task], submitted := s.submitted + [task]), chosen)
  }

  /** Take with the lock held: wait while empty and running, else pop and notify one giver. */
  function TryTake(s: State, t: Thread, chosen: Thread): State {
    if s.queue == [] && s.running then s.(takers := s.takers + {t})
    else if s.queue == [] then s
    else
      var popped := s.(queue := s.queue[1..], taken := s.taken + [s.queue[0]]);
      if s.maxQueueSize > 0 then NotifyGiver(popped, chosen) else popped
  }

  function Step(s: State, e: Event): State
    requires Enabled(s, e)
  {
    match e
    case Give(t, task, c) => TryGive(s, t, task, c)
    case GiveAgain(t, c) =>
      TryGive(s.(giversAwake := s.giversAwake - {t}, offers := s.offers - {t}), t, s.offers[t], c)
    case Test(t) => if s.running then s.(entering := s.entering + {t}) else s.(left := s.left + {t})
    case Take(t, c) => TryTake(s.(entering := s.entering - {t}), t, c)
    case TakeAgain(t, c) => TryTake(s.(takersAwake := s.takersAwake - {t}), t, c)
    case Spurious(t) => if t in s.takers then NotifyTaker(s, t) else NotifyGiver(s, t)
    case Stop => s.(running := false, takers := {}, takersAwake := s.takersAwake + s.takers)
  }

  predicate Legal(s: State, es: seq<Event>)
    decreases |es|
  {
    es != [] ==> Enabled(s, es[0]) && Legal(Step(s, es[0]), es[1..])
  }

  function Run(s: State, es: seq<Event>): State
    requires Legal(s, es)
    decreases |es|
  {
    if es == [] then s else Run(Step(s, es[0]), es[1..])
  }

  // ---------------------------------------------------------------- the invariant

  predicate Disjoint(s: State) {
    && s.takers !! s.takersAwake
    && s.givers !! s.giversAwake
  }

  /** A thread is in at most one of Take, Run, its loop test and its end, and only workers take. */
  predicate OnePlace(s: State, t: Thread) {
    var inTake, inRun := t in s.takers || t in s.takersAwake, Blocked(s, t);
    && (inTake || t in s.entering || t in s.left ==> t in s.workers)
    && (inTake ==> !inRun && t !in s.entering && t !in s.left)
    && (inRun <==> t in s.offers)
    && (inRun ==> t !in s.entering && t !in s.left)
    && (t in s.entering ==> t !in s.left)
  }

  ghost predicate Places(s: State) { forall t :: OnePlace(s, t) }

  predicate Enough(s: State) {
    && (s.running && s.takers != {} ==> |s.takersAwake| >= |s.queue|)
    && (!s.running ==> s.takers == {})
    && (s.givers != {} ==> |s.queue| + |s.giversAwake| >= s.maxQueueSize)
  }

  predicate Contents(s: State) {
    && s.maxQueueSize > 0
    && |s.queue| <= s.maxQueueSize
    && s.taken + s.queue == s.submitted
  }

  predicate Queueing(s: State) { Disjoint(s) && Enough(s) && Contents(s) }

  ghost predicate Inv(s: State) { Queueing(s) && Places(s) }

  lemma NotifyTakerKeeps(s: State, c: Thread)
    requires Disjoint(s)
    ensures Disjoint(NotifyTaker(s, c))
    ensures |NotifyTaker(s, c).takersAwake| == |s.takersAwake| + if c in s.takers then 1 else 0
  {
  }

  lemma NotifyGiverKeeps(s: State, c: Thread)
    requires Disjoint(s)
    ensures Disjoint(NotifyGiver(s, c))
    ensures |NotifyGiver(s, c).giversAwake| == |s.giversAwake| + if c in s.givers then 1 else 0
  {
  }

  lemma PushKeeps(s: State, task: Task, c: Thread)
    requires Disjoint(s) && Contents(s) && !Full(s)
    requires s.running && s.takers != {} ==> |s.takersAwake| >= |s.queue|
    requires !s.running ==> s.takers == {}
    requires s.givers != {} ==> |s.queue| + 1 + |s.giversAwake| >= s.maxQueueSize
    requires s.takers != {} ==> c in s.takers
    ensures Queueing(NotifyTaker(s.(queue := s.queue + [task], submitted := s.submitted + [task]), c))
  {
    NotifyTakerKeeps(s.(queue := s.queue + [task], submitted := s.submitted + [task]), c);
    assert s.taken + (s.queue + [task]) == s.taken + s.queue + [task];
  }

  /** One pass of Run through the monitor; one giver may just have left the awake set. */
  lemma TryGiveKeeps(s: State, t: Thread, task: Task, c: Thread)
    requires Disjoint(s) && Contents(s) && !Blocked(s, t)
    requires s.running && s.takers != {} ==> |s.takersAwake| >= |s.queue|
    requires !s.running ==> s.takers == {}
    requires s.givers != {} ==> |s.queue| + 1 + |s.giversAwake| >= s.maxQueueSize
    requires s.takers != {} ==> c in s.takers
    ensures Queueing(TryGive(s, t, task, c))
  {
    if !Full(s) {
      PushKeeps(s, task, c);
    }
  }

  /** One pass of Take through the monitor; one taker may just have left the awake set. */
  lemma TryTakeKeeps(s: State, t: Thread, c: Thread)
    requires Disjoint(s) && Contents(s) && t !in s.takers && t !in s.takersAwake
    requires s.running && s.takers != {} ==> |s.takersAwake| + 1 >= |s.queue|
    requires !s.running ==> s.takers == {}
    requires s.givers != {} ==> |s.queue| + |s.giversAwake| >= s.maxQueueSize
    requires s.givers != {} ==> c in s.givers
    ensures Queueing(TryTake(s, t, c))
  {
    if s.queue != [] {
      PopKeeps(s, c);
    }
  }

  lemma PopKeeps(s: State, c: Thread)
    requires Disjoint(s) && Contents(s) && s.queue != []
    requires s.running && s.takers != {} ==> |s.takersAwake| + 1 >= |s.queue|
    requires !s.running ==> s.takers == {}
    requires s.givers != {} ==> |s.queue| + |s.giversAwake| >= s.maxQueueSize && c in s.givers
    ensures Queueing(NotifyGiver(s.(queue := s.queue[1..], taken := s.taken + [s.queue[0]]), c))
  {
    var p := s.(queue := s.queue[1..], taken := s.taken + [s.queue[0]]);
    assert s.queue == [s.queue[0]] + s.queue[1..];
    NotifyGiverKeeps(p, c);
  }

  lemma WakeupKeeps(s: State, e: Event)
    requires Inv(s) && Enabled(s, e) && (e.Spurious? || e.Stop? || e.Test?)
    ensures Queueing(Step(s, e))
  {
    if e.Spurious? {
      NotifyTakerKeeps(s, e.thread);
      NotifyGiverKeeps(s, e.thread);
    }
  }

  lemma GiveAgainKeeps(s: State, t: Thread, c: Thread)
    requires Inv(s) && Enabled(s, GiveAgain(t, c))
    ensures Queueing(Step(s, GiveAgain(t, c)))
  {
    var back := s.(giversAwake := s.giversAwake - {t}, offers := s.offers - {t});
    assert |back.giversAwake| == |s.giversAwake| - 1;
    TryGiveKeeps(back, t, s.offers[t], c);
  }

  lemma TakeKeeps(s: State, t: Thread, c: Thread)
    requires Inv(s) && Enabled(s, Take(t, c))
    ensures Queueing(Step(s, Take(t, c)))
  {
    assert OnePlace(s, t);
    TryTakeKeeps(s.(entering := s.entering - {t}), t, c);
  }

  lemma TakeAgainKeeps(s: State, t: Thread, c: Thread)
    requires Inv(s) && Enabled(s, TakeAgain(t, c))
    ensures Queueing(Step(s, TakeAgain(t, c)))
  {
    var back := s.(takersAwake := s.takersAwake - {t});
    assert |back.takersAwake| == |s.takersAwake| - 1;
    TryTakeKeeps(back, t, c);
  }

  lemma StepKeepsQueueing(s: State, e: Event)
    requires Inv(s) && Enabled(s, e)
    ensures Queueing(Step(s, e))
  {
    match e
    case Give(t, task, c) => TryGiveKeeps(s, t, task, c);
    case GiveAgain(t, c) => GiveAgainKeeps(s, t, c);
    case Take(t, c) => TakeKeeps(s, t, c);
    case TakeAgain(t, c) => TakeAgainKeeps(s, t, c);
    case _ => WakeupKeeps(s, e);
  }

  lemma StepKeepsPlace(s: State, e: Event, t: Thread)
    requires OnePlace(s, t) && Enabled(s, e) && OnePlace(s, if e.Stop? then t else e.thread)
    requires Disjoint(s)
    ensures OnePlace(Step(s, e), t)
  {
  }

  lemma StepKeepsPlaces(s: State, e: Event)
    requires Inv(s) && Enabled(s, e)
    ensures Places(Step(s, e))
  {
    forall t
      ensures OnePlace(Step(s, e), t)
    {
      StepKeepsPlace(s, e, t);
    }
  }

  lemma StepKeepsInv(s: State, e: Event)
    requires Inv(s) && Enabled(s, e)
    ensures Inv(Step(s, e))
  {
    StepKeepsQueueing(s, e);
    StepKeepsPlaces(s, e);
  }

  lemma ConfigUnchanged(s: State, e: Event)
    requires Enabled(s, e)
    ensures Step(s, e).maxQueueSize == s.maxQueueSize && Step(s, e).workers == s.workers
  {
  }

  lemma {:induction false} RunKeepsInv(s: State, es: seq<Event>)
    requires Inv(s) && Legal(s, es)
    ensures Inv(Run(s, es))
    ensures Run(s, es).maxQueueSize == s.maxQueueSize && Run(s, es).workers == s.workers
    decreases |es|
  {
    if es == [] {
    } else {
      StepKeepsInv(s, es[0]);
      ConfigUnchanged(s, es[0]);
      RunKeepsInv(Step(s, es[0]), es[1..]);
    }
  }

  // ---------------------------------------------------------------- the main results

  /**
   One notification per event suffices: in every run, while a worker waits un-notified there are at least as
   many workers awake as tasks queued, and while a producer waits un-notified at least as many producers
   awake as slots free.
   */
  lemma NotifyOneSuffices(maxQueueSize: nat, workers: set<Thread>, es: seq<Event>)
    requires maxQueueSize > 0 && Legal(Init(maxQueueSize, workers), es)
    ensures var s := Run(Init(maxQueueSize, workers), es);
            && (s.running && s.takers != {} ==> |s.takersAwake| >= |s.queue|)
            && (s.givers != {} ==> |s.giversAwake| >= maxQueueSize - |s.queue|)
  {
    RunKeepsInv(Init(maxQueueSize, workers), es);
  }

  /** So no task is forgotten: with work queued, some worker is awake, on its way to Take, or at work. */
  lemma WorkIsSeen(maxQueueSize: nat, workers: set<Thread>, es: seq<Event>)
    requires maxQueueSize > 0 && workers != {} && Legal(Init(maxQueueSize, workers), es)
    requires Run(Init(maxQueueSize, workers), es).queue != []
    ensures exists w :: w in workers && w !in Run(Init(maxQueueSize, workers), es).takers
  {
    RunKeepsInv(Init(maxQueueSize, workers), es);
    var s := Run(Init(maxQueueSize, workers), es);
    if s.takers == {} {
      var w :| w in workers;
      assert w !in s.takers;
    } else {
      assert s.takersAwake != {};
      var w :| w in s.takersAwake;
      assert OnePlace(s, w);
      assert w in workers && w !in s.takers;
    }
  }

  /** The queue is bounded, and tasks leave it in the order in which they entered. */
  lemma BoundedFifo(maxQueueSize: nat, workers: set<Thread>, es: seq<Event>)
    requires maxQueueSize > 0 && Legal(Init(maxQueueSize, workers), es)
    ensures var s := Run(Init(maxQueueSize, workers), es);
            |s.queue| <= maxQueueSize && s.taken + s.queue == s.submitted
  {
    RunKeepsInv(Init(maxQueueSize, workers), es);
  }

  /** After Stop no worker is left waiting un-notified. */
  lemma StopReleasesWorkers(maxQueueSize: nat, workers: set<Thread>, es: seq<Event>)
    requires maxQueueSize > 0 && Legal(Init(maxQueueSize, workers), es)
    ensures var s := Run(Init(maxQueueSize, workers), es);
            !s.running ==> s.takers == {}
  {
    RunKeepsInv(Init(maxQueueSize, workers), es);
  }

  // ---------------------------------------------------------------- what each call does

  predicate InTake(s: State, t: Thread) { t in s.takers || t in s.takersAwake }

  /** A thread inside Run leaves it only by its own step; until then its task is kept. */
  lemma RunEndsByOwnStep(s: State, e: Event, t: Thread)
    requires OnePlace(s, t) && Enabled(s, e) && Blocked(s, t) && !(e.GiveAgain? && e.thread == t)
    requires e.Take? || e.TakeAgain? || e.Test? || e.Give? ==> e.thread != t
    ensures Blocked(Step(s, e), t) && t in s.offers && t in Step(s, e).offers && Step(s, e).offers[t] == s.offers[t]
  {
  }

  lemma TakeEndsByOwnStep(s: State, e: Event, t: Thread)
    requires Enabled(s, e) && InTake(s, t) && !(e.TakeAgain? && e.thread == t)
    ensures InTake(Step(s, e), t)
  {
  }

  /** A thread inside Run or Take leaves it only by its own step; until then its task is kept. */
  lemma CallsEndByOwnStep(s: State, e: Event, t: Thread)
    requires Inv(s) && Enabled(s, e)
    ensures Blocked(s, t) && !(e.GiveAgain? && e.thread == t) ==>
              (Blocked(Step(s, e), t) && t in s.offers && t in Step(s, e).offers && Step(s, e).offers[t] == s.offers[t])
    ensures InTake(s, t) && !(e.TakeAgain? && e.thread == t) ==> InTake(Step(s, e), t)
  {
    assert OnePlace(s, t);
    if Blocked(s, t) && !(e.GiveAgain? && e.thread == t) {
      RunEndsByOwnStep(s, e, t);
    }
    if InTake(s, t) && !(e.TakeAgain? && e.thread == t) {
      TakeEndsByOwnStep(s, e, t);
    }
  }

  /** A producer that gets the lock queues its own task at the end if there is room, and waits with it if not. */
  lemma GiveDoes(s: State, e: Event)
    requires Inv(s) && Enabled(s, e) && (e.Give? || e.GiveAgain?)
    ensures var t, u := e.thread, Step(s, e);
            var task := if e.Give? then e.task else s.offers[t];
            if |s.queue| < s.maxQueueSize
            then !Blocked(u, t) && u.submitted == s.submitted + [task] && u.queue == s.queue + [task]
            else Blocked(u, t) && t in u.offers && u.offers[t] == task && u.submitted == s.submitted && u.queue == s.queue
  {
  }

  /** A worker that gets the lock takes the front task if there is one; only then a stopped pool lets it go without. */
  lemma TakeDoes(s: State, e: Event)
    requires Inv(s) && Enabled(s, e) && (e.Take? || e.TakeAgain?)
    ensures var t, u := e.thread, Step(s, e);
            && (s.queue != [] ==> !InTake(u, t) && u.taken == s.taken + [s.queue[0]] && u.queue == s.queue[1..])
            && (s.queue == [] ==> u.taken == s.taken && u.queue == [] && (InTake(u, t) <==> s.running))
  {
    assert OnePlace(s, e.thread);
  }

  /** All other steps leave the queue and its history alone. */
  lemma OthersLeaveQueue(s: State, e: Event)
    requires Enabled(s, e) && !e.Give? && !e.GiveAgain? && !e.Take? && !e.TakeAgain?
    ensures var u := Step(s, e); u.queue == s.queue && u.submitted == s.submitted && u.taken == s.taken
    ensures Step(s, e).running <==> s.running && !e.Stop?
  {
  }

  // ---------------------------------------------------------------- stranded producers

  /**
   Nobody will take again: every worker has left its loop, as they all do after Stop, or is itself blocked in
   the Run of a task.
   */
  predicate Deserted(s: State) { forall w :: w in s.workers ==> w in s.left || Blocked(s, w) }

  lemma NobodyTakes(s: State)
    requires Inv(s) && Deserted(s)
    ensures s.takers == {} && s.takersAwake == {} && s.entering == {}
  {
    forall t
      ensures t !in s.takers && t !in s.takersAwake && t !in s.entering
    {
      assert OnePlace(s, t);
    }
  }

  /** With the queue full and nobody to take, a step changes nothing for the producers that are blocked. */
  lemma StuckStep(s: State, e: Event)
    requires Inv(s) && Deserted(s) && Full(s) && Enabled(s, e)
    ensures var u := Step(s, e);
            Deserted(u) && u.queue == s.queue && Full(u) && forall t :: Blocked(s, t) ==> Blocked(u, t)
  {
    NobodyTakes(s);
  }

  lemma {:induction false} StuckForever(s: State, es: seq<Event>, t: Thread)
    requires Inv(s) && Deserted(s) && Full(s) && Blocked(s, t) && Legal(s, es)
    ensures Blocked(Run(s, es), t)
    decreases |es|
  {
    if es == [] {
    } else {
      StepKeepsInv(s, es[0]);
      StuckStep(s, es[0]);
      StuckForever(Step(s, es[0]), es[1..], t);
    }
  }

  lemma RunOne(s: State, e: Event)
    requires Enabled(s, e)
    ensures Legal(s, [e]) && Run(s, [e]) == Step(s, e)
  {
    assert [e][1..] == [];
  }

  lemma RunTwo(s: State, e: Event, f: Event)
    requires Enabled(s, e) && Enabled(Step(s, e), f)
    ensures Legal(s, [e, f]) && Run(s, [e, f]) == Step(Step(s, e), f)
  {
    assert [e, f][1..] == [f];
    RunOne(Step(s, e), f);
  }

  lemma AwakeReturns(s: State, k: Thread)
    requires Inv(s) && Deserted(s) && !Full(s) && k in s.giversAwake
    ensures Enabled(s, GiveAgain(k, 0))
    ensures !Blocked(Step(s, GiveAgain(k, 0)), k)
  {
    NobodyTakes(s);
    assert OnePlace(s, k);
  }

  /** A way out for a blocked producer while a slot is free. */
  lemma FreeSlotReleases(s: State, t: Thread) returns (es: seq<Event>)
    requires Inv(s) && Deserted(s) && !Full(s) && Blocked(s, t)
    ensures Legal(s, es) && !Blocked(Run(s, es), t)
  {
    NobodyTakes(s);
    assert OnePlace(s, t);
    if t in s.giversAwake {
      es := [GiveAgain(t, 0)];
      RunOne(s, GiveAgain(t, 0));
    } else {
      es := [Spurious(t), GiveAgain(t, 0)];
      StepKeepsInv(s, Spurious(t));
      RunTwo(s, Spurious(t), GiveAgain(t, 0));
    }
  }

  /**
   Exactly when a blocked producer can still return, in every reachable state that workers have deserted, such
   as after Stop: some continuation lets its Run return if and only if the queue is not full. On a full queue it
   never returns, whatever all other threads do.
   */
  lemma ProducerReleasedIff(maxQueueSize: nat, workers: set<Thread>, es: seq<Event>, t: Thread)
    requires maxQueueSize > 0 && Legal(Init(maxQueueSize, workers), es)
    requires var s := Run(Init(maxQueueSize, workers), es); Deserted(s) && Blocked(s, t)
    ensures var s := Run(Init(maxQueueSize, workers), es);
            (exists more :: Legal(s, more) && !Blocked(Run(s, more), t)) <==> !Full(s)
  {
    RunKeepsInv(Init(maxQueueSize, workers), es);
    var s := Run(Init(maxQueueSize, workers), es);
    if Full(s) {
      forall more | Legal(s, more)
        ensures Blocked(Run(s, more), t)
      {
        StuckForever(s, more, t);
      }
    } else {
      var _ := FreeSlotReleases(s, t);
    }
  }

  /** And while a slot is free no wakeup is missing: some blocked producer is awake, and its next step returns. */
  lemma SlotsAreFilled(maxQueueSize: nat, workers: set<Thread>, es: seq<Event>, t: Thread)
    requires maxQueueSize > 0 && Legal(Init(maxQueueSize, workers), es)
    requires var s := Run(Init(maxQueueSize, workers), es); Deserted(s) && Blocked(s, t) && !Full(s)
    ensures var s := Run(Init(maxQueueSize, workers), es);
            exists k :: k in s.giversAwake && Enabled(s, GiveAgain(k, 0)) && !Blocked(Step(s, GiveAgain(k, 0)), k)
  {
    RunKeepsInv(Init(maxQueueSize, workers), es);
    var s := Run(Init(maxQueueSize, workers), es);
    assert s.giversAwake != {};
    var k :| k in s.giversAwake;
    AwakeReturns(s, k);
  }

  /** A pool with one worker and room for one task; producer 2 is waiting for room when Stop comes. */
  function StrandingRun(): seq<Event> {
    [Test(0), Give(1, 10, 0), Take(0, 0), Give(1, 11, 0), Give(2, 12, 0), Stop, Test(0)]
  }

  lemma {:induction false} RunFrom(s: State, es: seq<Event>, i: nat)
    requires i < |es| && Enabled(s, es[i]) && Legal(Step(s, es[i]), es[i + 1..])
    ensures Legal(s, es[i..]) && Run(s, es[i..]) == Run(Step(s, es[i]), es[i + 1..])
  {
    assert es[i..][1..] == es[i + 1..];
  }

  /** The first task has been taken, and the second is queued. */
  function OneQueued(): State { State(true, 1, {0}, [11], {}, {}, {}, {}, map[], {}, {}, [10, 11], [10]) }

  lemma {:induction false} StrandingRunBegins()
    requires Legal(OneQueued(), StrandingRun()[4..])
    ensures Legal(Init(1, {0}), StrandingRun())
    ensures Run(Init(1, {0}), StrandingRun()) == Run(OneQueued(), StrandingRun()[4..])
  {
    var es := StrandingRun();
    var s1 := Step(Init(1, {0}), es[0]);
    var s2 := Step(s1, es[1]);
    var s3 := Step(s2, es[2]);
    assert s3 == State(true, 1, {0}, [], {}, {}, {}, {}, map[], {}, {}, [10], [10]);
    assert Step(s3, es[3]) == OneQueued();
    RunFrom(s3, es, 3);
    RunFrom(s2, es, 2);
    RunFrom(s1, es, 1);
  }

  lemma {:induction false} StrandingRunEnds()
    ensures Legal(Init(1, {0}), StrandingRun())
    ensures var s := Run(Init(1, {0}), StrandingRun());
            !s.running && s.left == s.workers == {0} && s.taken == [10] && s.givers == {2} && Full(s)
  {
    var es := StrandingRun();
    var s5 := Step(OneQueued(), es[4]);
    RunTwo(s5, es[5], es[6]);
    assert es[5..] == [es[5], es[6]];
    RunFrom(OneQueued(), es, 4);
    StrandingRunBegins();
  }

  /**
   Stop does not release producers: it notifies only not_empty_. After this run the only worker has seen Stop and
   left its loop, and the producer blocked on the full queue stays blocked in every continuation.
   */
  lemma StopStrandsProducer()
    ensures Legal(Init(1, {0}), StrandingRun())
    ensures var s := Run(Init(1, {0}), StrandingRun());
            && !s.running && s.left == s.workers == {0}
            && forall more :: Legal(s, more) ==> Blocked(Run(s, more), 2)
  {
    StrandingRunEnds();
    var s := Run(Init(1, {0}), StrandingRun());
    RunKeepsInv(Init(1, {0}), StrandingRun());
    forall more | Legal(s, more)
      ensures Blocked(Run(s, more), 2)
    {
      StuckForever(s, more, 2);
    }
  }

  // ---------------------------------------------------------------- the pool object

  /** Where a thread that is not outside stands. */
  datatype Place =
    | Entering
    | InNotEmptyWait(notified: bool)
    | InNotFullWait(task: Task, notified: bool)
    | Left

  class ThreadPool {
    var running: bool
    var maxQueueSize: nat
    const threads: set<Thread>
    var taskQueue: seq<Task>
    var places: map<Thread, Place>
    ghost var submitted: seq<Task>
    ghost var taken: seq<Task>

    ghost function View(): State
      reads this
    {
      State(running, maxQueueSize, threads, taskQueue,
            (set t | t in places && places[t] == InNotEmptyWait(false)),
            (set t | t in places && places[t] == InNotEmptyWait(true)),
            (set t | t in places && places[t].InNotFullWait? && !places[t].notified),
            (set t | t in places && places[t].InNotFullWait? && places[t].notified),
            (map t | t in places && places[t].InNotFullWait? :: places[t].task),
            (set t | t in places && places[t] == Entering),
            (set t | t in places && places[t] == Left),
            submitted, taken)
    }

    /** set_max_queue_size and Start: a pool without a bound does not start. */
    constructor (maxSize: nat, workers: set<Thread>)
      ensures maxSize > 0 ==> View() == Init(maxSize, workers)
      ensures maxSize == 0 ==> !running
    {
      running, maxQueueSize, threads, taskQueue := maxSize > 0, maxSize, workers, [];
      places, submitted, taken := map[], [], [];
    }

    predicate IsFull()
      reads this
    {
      maxQueueSize > 0 && |taskQueue| >= maxQueueSize
    }

    /** not_empty_.notify_one, which picks the chosen thread; a thread that does not wait is not affected. */
    method NotifyNotEmpty(chosen: Thread)
      modifies this`places
      ensures View() == NotifyTaker(old(View()), chosen)
    {
      if chosen in places && places[chosen] == InNotEmptyWait(false) {
        places := places[chosen := InNotEmptyWait(true)];
      }
    }

    /** not_full_.notify_one. */
    method NotifyNotFull(chosen: Thread)
      modifies this`places
      ensures View() == NotifyGiver(old(View()), chosen)
    {
      if chosen in places && places[chosen].InNotFullWait? && !places[chosen].notified {
        places := places[chosen := places[chosen].(notified := true)];
      }
    }

    /** The body of Run under the lock: done, or waiting on not_full_. */
    method RunLocked(t: Thread, task: Task, chosen: Thread) returns (done: bool)
      requires t !in places
      modifies this
      ensures View() == TryGive(old(View()), t, task, chosen)
      ensures done <==> !old(Full(View()))
    {
      done := !IsFull();
      if done {
        taskQueue, submitted := taskQueue + [task], submitted + [task];
        NotifyNotEmpty(chosen);
      } else {
        places := places[t := InNotFullWait(task, false)];
      }
    }

    /** The body of Take under the lock: done with a task or with none, or waiting on not_empty_. */
    method TakeLocked(t: Thread, chosen: Thread) returns (done: bool, task: seq<Task>)
      requires t !in places
      modifies this
      ensures View() == TryTake(old(View()), t, chosen)
      ensures done <==> old(taskQueue) != [] || !old(running)
      ensures old(taskQueue) == task + taskQueue && |task| <= 1
    {
      done, task := true, [];
      if taskQueue == [] && running {
        places := places[t := InNotEmptyWait(false)];
        done := false;
      } else if taskQueue != [] {
        task := [taskQueue[0]];
        taskQueue, taken := taskQueue[1..], taken + task;
        if maxQueueSize > 0 {
          NotifyNotFull(chosen);
        }
      }
    }

    /** Stop: notify_all on not_empty_ only. */
    method StopPool()
      requires running
      modifies this
      ensures View() == Step(old(View()), Stop)
    {
      running := false;
      places := map t | t in places :: if places[t] == InNotEmptyWait(false) then InNotEmptyWait(true) else places[t];
      assert View().offers == old(View()).offers;
    }

    /** The test of the loop in RunInThread. */
    method TestRunning(t: Thread)
      requires t !in places && t in threads
      modifies this`places
      ensures View() == if running then old(View()).(entering := old(View()).entering + {t})
                        else old(View()).(left := old(View()).left + {t})
    {
      places := places[t := if running then Entering else Left];
    }

    /** A thread gets the lock back, or the lock for its first time, and is outside again. */
    method Leave(t: Thread)
      requires t in places
      modifies this`places
      ensures t !in places
      ensures var s := old(View());
              View() == s.(takers := s.takers - {t}, takersAwake := s.takersAwake - {t}, givers := s.givers - {t},
                           giversAwake := s.giversAwake - {t}, offers := s.offers - {t},
                           entering := s.entering - {t}, left := s.left - {t})
    {
      places := places - {t};
    }

    /** Run has the lock again after not_full_.wait. */
    method ResumeRun(t: Thread, chosen: Thread)
      requires Enabled(View(), GiveAgain(t, chosen))
      modifies this
      ensures View() == Step(old(View()), GiveAgain(t, chosen))
    {
      var task := places[t].task;
      Leave(t);
      assert View() == old(View().(giversAwake := View().giversAwake - {t}, offers := View().offers - {t}));
      var _ := RunLocked(t, task, chosen);
    }

    /** Take has the lock, for the first time or after not_empty_.wait. */
    method EnterTake(t: Thread, chosen: Thread)
      requires t in View().entering || t in View().takersAwake
      modifies this
      ensures var s := old(View());
              View() == TryTake(s.(entering := s.entering - {t}, takersAwake := s.takersAwake - {t}), t, chosen)
    {
      Leave(t);
      assert View() == old(View().(entering := View().entering - {t}, takersAwake := View().takersAwake - {t}));
      var _, _ := TakeLocked(t, chosen);
    }

    method Perform(e: Event)
      requires Enabled(View(), e)
      modifies this
      ensures View() == Step(old(View()), e)
    {
      match e
      case Give(t, task, c) =>
        var _ := RunLocked(t, task, c);
      case GiveAgain(t, c) => ResumeRun(t, c);
      case Test(t) => TestRunning(t);
      case Take(t, c) => EnterTake(t, c);
      case TakeAgain(t, c) => EnterTake(t, c);
      case Spurious(t) =>
        NotifyNotEmpty(t);
        NotifyNotFull(t);
      case Stop => StopPool();
    }

    /** Any schedule of producers, workers and Stop. */
    method Schedule(es: seq<Event>)
      requires Legal(View(), es)
      modifies this
      ensures View() == Run(old(View()), es)
    {
      var i := 0;
      while i < |es|
        invariant 0 <= i <= |es|
        invariant Legal(View(), es[i..])
        invariant Run(View(), es[i..]) == Run(old(View()), es)
      {
        assert es[i..][1..] == es[i + 1..];
        Perform(es[i]);
        i := i + 1;
      }
    }
  }
}
