/**
 The timer queue, muduo-cpp11/net/timer_queue.cpp, timer.h and timer.cpp: two ordered sets index the same mutable
 timers, callbacks may add and cancel timers while a batch of expired ones runs, and a timerfd is armed for the
 earliest expiration.

 Times are microseconds. Timers live at explicit addresses, which are reused after a delete. All steps except
 Create run on the loop thread; Create is the allocation in AddTimer, on any thread, before the hand-off.
 */
module TimerQueues {
  import opened Text

  type Addr = nat

  /** interval 0 means that the timer does not repeat. */
  datatype Timer = Timer(expiration: int, interval: nat, sequence: nat)

  datatype Entry = Entry(time: int, addr: Addr)   // TimerList
  datatype Id = Id(addr: Addr, sequence: nat)     // ActiveTimer and TimerId

  /** The timerfd: when it will fire, when that was set, and whether it has fired and was not read. */
  datatype TimerFd = TimerFd(armed: Option<int>, setAt: int, readable: bool)

  datatype State = State(
    heap: map<Addr, Timer>,
    timers: seq<Entry>,               // timers_, in the order of the set
    active: set<Id>,                  // active_timers_
    calling: bool,                    // calling_expired_timers_
    canceling: set<Id>,               // canceling_timers_
    batch: seq<Entry>,                // expired: the timers HandleRead has taken out
    ran: nat,                         // how many of the batch have been run
    now: nat,                         // the time HandleRead took
    clock: nat,
    fd: TimerFd,
    created: nat,                     // s_num_created_
    inFlight: set<Addr>,              // allocated, not yet added in the loop
    // history, by sequence number
    freed: multiset<nat>,
    cancelled: set<nat>,              // cancelled while queued or in a running batch
    callbacks: seq<nat>)              // timers whose callback was run, in order

  function Init(clock: nat): State {
    State(map[], [], {}, false, {}, [], 0, 0, clock, TimerFd(None, 0, false), 0, {}, multiset{}, {}, [])
  }

  // ---------------------------------------------------------------- the timerfd

  function Max(a: int, b: int): int { if a < b then b else a }

  const MIN_DELAY: int := 100

  /** The microseconds of HowMuchTimeFromNow. */
  function Delay(when: int, now: int): (d: int)
    ensures d >= MIN_DELAY && (when - now >= MIN_DELAY ==> now + d == when) && (when - now < MIN_DELAY ==> d == MIN_DELAY)
  {
    Max(when - now, MIN_DELAY)
  }

  /** The timespec of HowMuchTimeFromNow loses nothing: seconds and nanoseconds give the microseconds back. */
  lemma TimespecExact(when: int, now: int)
    ensures var d := Delay(when, now);
            var sec, nsec := d / 1_000_000, (d % 1_000_000) * 1000;
            sec * 1_000_000 + nsec / 1000 == d && 0 <= nsec < 1_000_000_000 && sec + nsec > 0
  {
  }

  function Arm(clock: nat, when: int): (fd: TimerFd)
    ensures fd.setAt == clock && !fd.readable
    ensures fd.armed == Some(if when < clock + 100 then clock + 100 else when)
  {
    TimerFd(Some(clock + Delay(when, clock)), clock, false)
  }

  /** Time passes; a timerfd that is due becomes readable, once. */
  function Elapse(fd: TimerFd, clock: nat): TimerFd {
    if fd.armed.Some? && fd.armed.value <= clock then fd.(armed := None, readable := true) else fd
  }

  function ReadFd(fd: TimerFd): TimerFd { fd.(readable := false) }

  /** The loop will be woken no later than the given time or 100 microseconds after the timerfd was set. */
  predicate WokenBy(fd: TimerFd, time: int) {
    fd.readable || (fd.armed.Some? && fd.armed.value <= Max(time, fd.setAt + MIN_DELAY))
  }

  // ---------------------------------------------------------------- the ordered set of entries

  predicate Less(a: Entry, b: Entry) { a.time < b.time || (a.time == b.time && a.addr < b.addr) }

  predicate Sorted(ts: seq<Entry>) { forall i, j :: 0 <= i < j < |ts| ==> Less(ts[i], ts[j]) }

  function Insert(ts: seq<Entry>, e: Entry): seq<Entry> {
    if ts == [] || Less(e, ts[0]) then [e] + ts else [ts[0]] + Insert(ts[1..], e)
  }

  function Erase(ts: seq<Entry>, e: Entry): seq<Entry> {
    if ts == [] then [] else if ts[0] == e then ts[1..] else [ts[0]] + Erase(ts[1..], e)
  }

  /** lower_bound of (now, largest address): the number of entries due at now. */
  function Due(ts: seq<Entry>, now: int): (k: nat)
    ensures k <= |ts|
  {
    if ts == [] || now < ts[0].time then 0 else 1 + Due(ts[1..], now)
  }

  function Addrs(ts: seq<Entry>): set<Addr> { set e | e in ts :: e.addr }

  lemma {:induction false} InsertMembers(ts: seq<Entry>, e: Entry)
    ensures forall x :: x in Insert(ts, e) <==> x == e || x in ts
    ensures Insert(ts, e) != []
    ensures Insert(ts, e)[0] == if ts == [] || Less(e, ts[0]) then e else ts[0]
  {
    if ts != [] && !Less(e, ts[0]) {
      InsertMembers(ts[1..], e);
      assert ts == [ts[0]] + ts[1..];
    }
  }

  lemma {:induction false} InsertSorted(ts: seq<Entry>, e: Entry)
    requires Sorted(ts) && e !in ts
    ensures Sorted(Insert(ts, e))
  {
    if ts != [] && !Less(e, ts[0]) {
      assert ts[0] in ts && ts[0] != e;
      InsertSorted(ts[1..], e);
      InsertMembers(ts[1..], e);
      var r := Insert(ts[1..], e);
      forall j | 0 <= j < |r|
        ensures Less(ts[0], r[j])
      {
        assert r[j] in r;
      }
    }
  }

  lemma {:induction false} EraseMembers(ts: seq<Entry>, e: Entry)
    requires Sorted(ts)
    ensures forall x :: x in Erase(ts, e) <==> x != e && x in ts
    ensures Sorted(Erase(ts, e))
    ensures ts != [] && Erase(ts, e) != [] ==> Erase(ts, e)[0].time >= ts[0].time
  {
    if ts == [] {
    } else {
      assert ts == [ts[0]] + ts[1..];
      if ts[0] != e {
        EraseMembers(ts[1..], e);
        var r := Erase(ts[1..], e);
        forall j | 0 <= j < |r|
          ensures Less(ts[0], r[j])
        {
          assert r[j] in r;
        }
      }
    }
  }

  lemma {:induction false} DueSplits(ts: seq<Entry>, now: int)
    requires Sorted(ts)
    ensures var k := Due(ts, now);
            && (forall i :: 0 <= i < k ==> ts[i].time <= now)
            && (forall i :: k <= i < |ts| ==> now < ts[i].time)
  {
    if ts != [] && ts[0].time <= now {
      DueSplits(ts[1..], now);
      var k := Due(ts[1..], now);
      forall i | 1 <= i < |ts|
        ensures i < k + 1 ==> ts[i].time <= now
        ensures k + 1 <= i ==> now < ts[i].time
      {
        assert ts[i] == ts[1..][i - 1];
      }
    }
  }

  // ---------------------------------------------------------------- steps

  datatype Event =
    | Create(addr: Addr, when: int, interval: nat)
    | Add(addr: Addr)                 // AddTimerInLoop
    | Cancel(id: Id)                  // CancelInLoop
    | Tick(time: nat)
    | Begin                           // HandleRead up to its loop over the batch
    | RunNext                         // one callback starts
    | End                             // the rest of HandleRead

  predicate Enabled(s: State, e: Event) {
    match e
    case Create(a, _, _) => a !in s.heap
    case Add(a) => a in s.inFlight
    case Cancel(_) => true
    case Tick(t) => s.clock <= t
    case Begin => !s.calling
    case RunNext => s.calling && s.ran < |s.batch|
    case End => s.calling && s.ran == |s.batch|
  }

  /** No dangling address: whatever the sets, the batch and the hand-off mention is allocated. */
  predicate Sound(s: State) {
    && s.inFlight <= s.heap.Keys
    && (forall e :: e in s.timers ==> e.addr in s.heap)
    && (forall e :: e in s.batch ==> e.addr in s.heap)
    && (forall id :: id in s.active ==> id.addr in s.heap)
    && Distinct(s.batch)
  }

  function CreateStep(s: State, a: Addr, when: int, interval: nat): State {
    s.(heap := s.heap[a := Timer(when, interval, s.created + 1)], created := s.created + 1, inFlight := s.inFlight + {a})
  }

  /** Insert: both sets gain the timer. */
  function Enlist(s: State, a: Addr): State
    requires a in s.heap
  {
    s.(timers := Insert(s.timers, Entry(s.heap[a].expiration, a)), active := s.active + {Id(a, s.heap[a].sequence)})
  }

  function AddStep(s: State, a: Addr): State
    requires a in s.heap
  {
    var when := s.heap[a].expiration;
    var earliest := s.timers == [] || when < s.timers[0].time;
    var t := Enlist(s, a).(inFlight := s.inFlight - {a});
    if earliest then t.(fd := Arm(s.clock, when)) else t
  }

  function Free(s: State, a: Addr): State
    requires a in s.heap
  {
    s.(heap := s.heap - {a}, freed := s.freed + multiset{s.heap[a].sequence})
  }

  function CancelStep(s: State, id: Id): State
    requires id in s.active ==> id.addr in s.heap
  {
    if id in s.active then
      Free(s.(timers := Erase(s.timers, Entry(s.heap[id.addr].expiration, id.addr)),
              active := s.active - {id},
              cancelled := s.cancelled + {id.sequence}), id.addr)
    else if s.calling then
      s.(canceling := s.canceling + {id},
         cancelled := if InBatch(s, id) then s.cancelled + {id.sequence} else s.cancelled)
    else s
  }

  /** The id names a timer of the running batch. */
  predicate InBatch(s: State, id: Id) {
    id.addr in Addrs(s.batch) && id.addr in s.heap && s.heap[id.addr].sequence == id.sequence
  }

  function Ids(heap: map<Addr, Timer>, ts: seq<Entry>): set<Id>
    requires forall e :: e in ts ==> e.addr in heap
  {
    set e | e in ts :: Id(e.addr, heap[e.addr].sequence)
  }

  /** GetExpired: the due prefix leaves both sets. */
  function TakeDue(s: State, at: nat): State
    requires forall e :: e in s.timers ==> e.addr in s.heap
  {
    var k := Due(s.timers, at);
    assert forall e :: e in s.timers[..k] ==> e in s.timers;
    s.(batch := s.timers[..k], timers := s.timers[k..], active := s.active - Ids(s.heap, s.timers[..k]))
  }

  function BeginStep(s: State): State
    requires forall e :: e in s.timers ==> e.addr in s.heap
  {
    TakeDue(s, s.clock).(now := s.clock, fd := ReadFd(s.fd), calling := true, canceling := {}, ran := 0)
  }

  /** One turn of the loop in Reset: the first of the remaining batch is restarted and enlisted, or freed. */
  function ResetOne(s: State): State
    requires s.batch != [] && s.batch[0].addr in s.heap
  {
    var a := s.batch[0].addr;
    var timer, t := s.heap[a], s.(batch := s.batch[1..]);
    if timer.interval > 0 && Id(a, timer.sequence) !in s.canceling
    then Enlist(t.(heap := t.heap[a := timer.(expiration := s.now + timer.interval)]), a)
    else Free(t, a)
  }

  /** One callback of the batch. */
  function CallbackStep(s: State): State
    requires s.ran < |s.batch| && s.batch[s.ran].addr in s.heap
  {
    s.(ran := s.ran + 1, callbacks := s.callbacks + [s.heap[s.batch[s.ran].addr].sequence])
  }

  predicate Distinct(ts: seq<Entry>) { forall i, j :: 0 <= i < j < |ts| ==> ts[i].addr != ts[j].addr }

  function ResetAll(s: State): State
    requires Distinct(s.batch) && forall e :: e in s.batch ==> e.addr in s.heap
    decreases |s.batch|
  {
    if s.batch == [] then s
    else
      assert forall e :: e in s.batch[1..] ==> e in s.batch && e.addr != s.batch[0].addr;
      ResetAll(ResetOne(s))
  }

  function EndStep(s: State): State
    requires Distinct(s.batch) && forall e :: e in s.batch ==> e.addr in s.heap
  {
    Rearm(ResetAll(s))
  }

  /** The end of HandleRead: the timerfd is armed for the earliest timer. */
  function Rearm(s: State): State {
    var t := s.(calling := false, ran := 0);
    if t.timers != [] && t.timers[0].time > 0 then t.(fd := Arm(t.clock, t.timers[0].time)) else t
  }

  function Step(s: State, e: Event): State
    requires Sound(s) && Enabled(s, e)
  {
    match e
    case Create(a, when, interval) => CreateStep(s, a, when, interval)
    case Add(a) => AddStep(s, a)
    case Cancel(id) => CancelStep(s, id)
    case Tick(t) => s.(clock := t, fd := Elapse(s.fd, t))
    case Begin => BeginStep(s)
    case RunNext => CallbackStep(s)
    case End => EndStep(s)
  }

  // ---------------------------------------------------------------- the invariant

  /** The two sets hold the same timers, each keyed at its current expiration. */
  predicate Twin(heap: map<Addr, Timer>, ts: seq<Entry>, active: set<Id>) {
    && Sorted(ts)
    && (forall e :: e in ts ==>
          e.addr in heap && heap[e.addr].expiration == e.time && Id(e.addr, heap[e.addr].sequence) in active)
    && (forall id :: id in active ==>
          && id.addr in heap && heap[id.addr].sequence == id.sequence
          && Entry(heap[id.addr].expiration, id.addr) in ts)
  }

  /** The running batch is sorted, and its timers are allocated and keyed as when they were taken out. */
  predicate Taken(heap: map<Addr, Timer>, batch: seq<Entry>) {
    Sorted(batch) && forall e :: e in batch ==> e.addr in heap && heap[e.addr].expiration == e.time
  }

  /** Every allocated timer is in exactly one place. */
  predicate Places(s: State) {
    && s.heap.Keys == s.inFlight + Addrs(s.timers) + Addrs(s.batch)
    && s.inFlight !! Addrs(s.timers) && s.inFlight !! Addrs(s.batch) && Addrs(s.timers) !! Addrs(s.batch)
  }

  predicate Sequences(heap: map<Addr, Timer>, created: nat) {
    && (forall a :: a in heap ==> 1 <= heap[a].sequence <= created)
    && (forall a, b :: a in heap && b in heap && a != b ==> heap[a].sequence != heap[b].sequence)
  }

  predicate Live(heap: map<Addr, Timer>, q: nat) { exists a :: a in heap && heap[a].sequence == q }

  /** Every sequence number handed out is live or was freed, and was freed once. */
  ghost predicate FreedOnce(heap: map<Addr, Timer>, created: nat, freed: multiset<nat>) {
    forall q: nat :: freed[q] == if 1 <= q <= created && !Live(heap, q) then 1 else 0
  }

  /** A cancelled timer is gone, or it is in the running batch and marked. */
  predicate Cancelled(s: State) {
    && (forall q :: q in s.cancelled ==> q <= s.created)
    && (forall a :: a in s.heap && s.heap[a].sequence in s.cancelled ==>
          a in Addrs(s.batch) && Id(a, s.heap[a].sequence) in s.canceling)
  }

  /**
   The timerfd will wake the loop for the earliest timer. While a batch runs this is only needed for
   expirations that are not positive, which the final re-arm skips.
   */
  predicate Deadline(s: State) {
    s.timers != [] && (s.calling ==> s.timers[0].time <= 0) ==> WokenBy(s.fd, s.timers[0].time)
  }

  predicate Phases(s: State) { (s.batch != [] ==> s.calling) && s.now <= s.clock }

  ghost predicate Inv(s: State) {
    && Twin(s.heap, s.timers, s.active)
    && Taken(s.heap, s.batch)
    && Places(s)
    && Sequences(s.heap, s.created)
    && FreedOnce(s.heap, s.created, s.freed)
    && Cancelled(s)
    && Deadline(s)
    && Phases(s)
  }

  lemma InvIsSound(s: State)
    requires Inv(s)
    ensures Sound(s)
  {
    TakenDistinct(s.heap, s.batch);
  }

  lemma TakenDistinct(heap: map<Addr, Timer>, ts: seq<Entry>)
    requires Taken(heap, ts)
    ensures Distinct(ts)
  {
    forall i, j | 0 <= i < j < |ts|
      ensures ts[i].addr != ts[j].addr
    {
      assert ts[i] in ts && ts[j] in ts && Less(ts[i], ts[j]);
    }
  }

  lemma EnlistKeepsTwin(heap: map<Addr, Timer>, ts: seq<Entry>, active: set<Id>, a: Addr)
    requires Twin(heap, ts, active) && a in heap && a !in Addrs(ts)
    ensures var e := Entry(heap[a].expiration, a);
            && Twin(heap, Insert(ts, e), active + {Id(a, heap[a].sequence)})
            && Addrs(Insert(ts, e)) == Addrs(ts) + {a}
  {
    var e := Entry(heap[a].expiration, a);
    assert e !in ts;
    InsertMembers(ts, e);
    InsertSorted(ts, e);
  }

  /** Changing a timer that the queue does not hold does not touch the queue. */
  lemma TwinFrame(heap: map<Addr, Timer>, heap': map<Addr, Timer>, ts: seq<Entry>, active: set<Id>)
    requires Twin(heap, ts, active)
    requires forall a :: a in Addrs(ts) ==> a in heap' && heap'[a] == heap[a]
    ensures Twin(heap', ts, active)
  {
    forall e | e in ts
      ensures e.addr in heap' && heap'[e.addr] == heap[e.addr]
    {
      assert e.addr in Addrs(ts);
    }
    forall id | id in active
      ensures id.addr in heap' && heap'[id.addr] == heap[id.addr]
    {
      assert Entry(heap[id.addr].expiration, id.addr) in ts;
      assert id.addr in Addrs(ts);
    }
  }

  lemma TakenFrame(heap: map<Addr, Timer>, heap': map<Addr, Timer>, ts: seq<Entry>)
    requires Taken(heap, ts)
    requires forall a :: a in Addrs(ts) ==> a in heap' && heap'[a] == heap[a]
    ensures Taken(heap', ts)
  {
    forall e | e in ts
      ensures e.addr in heap' && heap'[e.addr] == heap[e.addr]
    {
      assert e.addr in Addrs(ts);
    }
  }

  lemma FreeKeepsOnce(heap: map<Addr, Timer>, created: nat, freed: multiset<nat>, a: Addr)
    requires Sequences(heap, created) && FreedOnce(heap, created, freed) && a in heap
    ensures Sequences(heap - {a}, created)
    ensures FreedOnce(heap - {a}, created, freed + multiset{heap[a].sequence})
  {
    var heap', freed' := heap - {a}, freed + multiset{heap[a].sequence};
    forall q: nat
      ensures freed'[q] == if 1 <= q <= created && !Live(heap', q) then 1 else 0
    {
      assert freed[q] == if 1 <= q <= created && !Live(heap, q) then 1 else 0;
      if q == heap[a].sequence {
        assert Live(heap, q) && !Live(heap', q);
      } else {
        if Live(heap, q) {
          var b :| b in heap && heap[b].sequence == q;
          assert b in heap' && heap'[b].sequence == q;
        }
        if Live(heap', q) {
          var b :| b in heap' && heap'[b].sequence == q;
          assert b in heap && heap[b].sequence == q;
        }
      }
    }
  }

  /** Rescheduling a timer keeps every sequence number where it was. */
  lemma RescheduleKeepsOnce(heap: map<Addr, Timer>, created: nat, freed: multiset<nat>, a: Addr, when: int)
    requires Sequences(heap, created) && FreedOnce(heap, created, freed) && a in heap
    ensures Sequences(heap[a := heap[a].(expiration := when)], created)
    ensures FreedOnce(heap[a := heap[a].(expiration := when)], created, freed)
  {
    var heap' := heap[a := heap[a].(expiration := when)];
    forall q: nat
      ensures Live(heap', q) <==> Live(heap, q)
    {
      if Live(heap, q) {
        var b :| b in heap && heap[b].sequence == q;
        assert b in heap' && heap'[b].sequence == q;
      }
      if Live(heap', q) {
        var b :| b in heap' && heap'[b].sequence == q;
        assert b in heap && heap[b].sequence == q;
      }
    }
    forall q: nat
      ensures freed[q] == if 1 <= q <= created && !Live(heap', q) then 1 else 0
    {
      assert freed[q] == if 1 <= q <= created && !Live(heap, q) then 1 else 0;
    }
  }

  lemma CreateKeepsOnce(heap: map<Addr, Timer>, created: nat, freed: multiset<nat>, a: Addr, t: Timer)
    requires Sequences(heap, created) && FreedOnce(heap, created, freed) && a !in heap && t.sequence == created + 1
    ensures Sequences(heap[a := t], created + 1) && FreedOnce(heap[a := t], created + 1, freed)
  {
    var heap' := heap[a := t];
    forall q: nat
      ensures freed[q] == if 1 <= q <= created + 1 && !Live(heap', q) then 1 else 0
    {
      assert freed[q] == if 1 <= q <= created && !Live(heap, q) then 1 else 0;
      if Live(heap, q) {
        var b :| b in heap && heap[b].sequence == q;
        assert b in heap' && heap'[b].sequence == q;
      }
      if q == created + 1 {
        assert a in heap' && heap'[a].sequence == q;
      } else if Live(heap', q) {
        var b :| b in heap' && heap'[b].sequence == q;
        assert b in heap && heap[b].sequence == q;
      }
    }
  }

  lemma CreateKeeps(s: State, a: Addr, when: int, interval: nat)
    requires Inv(s) && a !in s.heap
    ensures Inv(CreateStep(s, a, when, interval))
  {
    var t := CreateStep(s, a, when, interval);
    CreateKeepsOnce(s.heap, s.created, s.freed, a, t.heap[a]);
    TwinFrame(s.heap, t.heap, s.timers, s.active);
    TakenFrame(s.heap, t.heap, s.batch);
    assert t.heap.Keys == s.heap.Keys + {a};
  }

  lemma AddKeepsPlaces(s: State, a: Addr)
    requires Twin(s.heap, s.timers, s.active) && Places(s) && Cancelled(s) && a in s.inFlight && a in s.heap
    ensures Places(AddStep(s, a)) && Cancelled(AddStep(s, a))
  {
    EnlistKeepsTwin(s.heap, s.timers, s.active, a);
    var t := AddStep(s, a);
    assert Addrs(t.timers) == Addrs(s.timers) + {a};
    assert t.inFlight + Addrs(t.timers) + Addrs(t.batch) == s.heap.Keys;
  }

  lemma AddKeepsDeadline(s: State, a: Addr)
    requires Deadline(s) && a in s.heap
    ensures Deadline(AddStep(s, a))
  {
    InsertMembers(s.timers, Entry(s.heap[a].expiration, a));
  }

  lemma AddKeeps(s: State, a: Addr)
    requires Inv(s) && a in s.inFlight
    ensures a in s.heap && Inv(AddStep(s, a))
  {
    assert a in s.heap && a !in Addrs(s.timers);
    EnlistKeepsTwin(s.heap, s.timers, s.active, a);
    AddKeepsPlaces(s, a);
    AddKeepsDeadline(s, a);
  }

  /** Erasing a queued timer from both sets and from the heap. */
  lemma CancelKeepsTwin(heap: map<Addr, Timer>, ts: seq<Entry>, active: set<Id>, id: Id)
    requires Twin(heap, ts, active) && id in active
    ensures var ts' := Erase(ts, Entry(heap[id.addr].expiration, id.addr));
            && id.addr in Addrs(ts) && Addrs(ts') == Addrs(ts) - {id.addr}
            && Twin(heap - {id.addr}, ts', active - {id})
  {
    var a := id.addr;
    var e := Entry(heap[a].expiration, a);
    var ts' := Erase(ts, e);
    EraseMembers(ts, e);
    assert e in ts;
    forall x | x in ts && x != e
      ensures x.addr != a && x in ts'
    {
    }
    forall i | i in active && i != id
      ensures i.addr != a && Entry(heap[i.addr].expiration, i.addr) in ts'
    {
    }
  }

  lemma CancelQueuedKeeps(s: State, id: Id)
    requires Inv(s) && id in s.active
    ensures Inv(CancelStep(s, id))
  {
    var t := CancelStep(s, id);
    CancelKeepsTwin(s.heap, s.timers, s.active, id);
    FreeKeepsOnce(s.heap, s.created, s.freed, id.addr);
    assert t.heap.Keys == s.heap.Keys - {id.addr};
    TakenFrame(s.heap, t.heap, s.batch);
    EraseMembers(s.timers, Entry(s.heap[id.addr].expiration, id.addr));
  }

  lemma CancelOtherKeeps(s: State, id: Id)
    requires Inv(s) && id !in s.active
    ensures Inv(CancelStep(s, id))
  {
  }

  /** Taking a prefix out of the queue splits it into a queue and a batch. */
  lemma SplitKeepsTwin(heap: map<Addr, Timer>, ts: seq<Entry>, active: set<Id>, k: nat)
    requires Twin(heap, ts, active) && k <= |ts|
    ensures forall e :: e in ts[..k] ==> e.addr in heap
    ensures Twin(heap, ts[k..], active - Ids(heap, ts[..k]))
    ensures Taken(heap, ts[..k])
  {
    assert ts == ts[..k] + ts[k..];
    forall e | e in ts[..k]
      ensures e in ts && e.addr in heap
    {
    }
    var rest, ids := ts[k..], Ids(heap, ts[..k]);
    forall x | x in rest
      ensures x in ts && Id(x.addr, heap[x.addr].sequence) !in ids
    {
      assert x in ts;
      if y :| y in ts[..k] && Id(y.addr, heap[y.addr].sequence) == Id(x.addr, heap[x.addr].sequence) {
        assert y in ts && y == x;
        SplitDisjoint(ts, k, x);
      }
    }
    forall i | i in active - ids
      ensures Entry(heap[i.addr].expiration, i.addr) in rest
    {
      var x := Entry(heap[i.addr].expiration, i.addr);
      assert x in ts && i == Id(x.addr, heap[x.addr].sequence);
    }
  }

  lemma SplitDisjoint(ts: seq<Entry>, k: nat, x: Entry)
    requires Sorted(ts) && k <= |ts|
    ensures x in ts[..k] ==> x !in ts[k..]
  {
    forall i, j | 0 <= i < k <= j < |ts|
      ensures ts[i] != ts[j]
    {
      assert Less(ts[i], ts[j]);
    }
  }

  lemma SplitAddrs(heap: map<Addr, Timer>, ts: seq<Entry>, active: set<Id>, k: nat)
    requires Twin(heap, ts, active) && k <= |ts|
    ensures Addrs(ts) == Addrs(ts[..k]) + Addrs(ts[k..])
    ensures Addrs(ts[..k]) !! Addrs(ts[k..])
  {
    assert ts == ts[..k] + ts[k..];
    forall x, y | x in ts[..k] && y in ts[k..]
      ensures x.addr != y.addr
    {
      assert x in ts && y in ts;
      SplitDisjoint(ts, k, x);
    }
  }

  lemma BeginKeepsPlaces(s: State)
    requires Twin(s.heap, s.timers, s.active) && Places(s) && Cancelled(s) && s.batch == [] && Sound(s)
    ensures Places(BeginStep(s)) && Cancelled(BeginStep(s))
  {
    SplitAddrs(s.heap, s.timers, s.active, Due(s.timers, s.clock));
  }

  lemma BeginKeepsDeadline(s: State)
    requires Sorted(s.timers) && Sound(s)
    ensures Deadline(BeginStep(s))
  {
    var k := Due(s.timers, s.clock);
    DueSplits(s.timers, s.clock);
    assert s.timers[k..] != [] ==> s.timers[k..][0] == s.timers[k];
  }

  lemma BeginKeeps(s: State)
    requires Inv(s) && !s.calling
    ensures Sound(s) && Inv(BeginStep(s))
  {
    InvIsSound(s);
    SplitKeepsTwin(s.heap, s.timers, s.active, Due(s.timers, s.clock));
    BeginKeepsPlaces(s);
    BeginKeepsDeadline(s);
  }

  /** What holds between two turns of the loop in Reset. */
  ghost predicate Resetting(s: State) {
    && Twin(s.heap, s.timers, s.active)
    && Taken(s.heap, s.batch)
    && Places(s)
    && Sequences(s.heap, s.created)
    && FreedOnce(s.heap, s.created, s.freed)
    && Cancelled(s)
    && Deadline(s)
    && s.calling && s.now <= s.clock
  }

  lemma BatchHead(s: State)
    requires Resetting(s) && s.batch != []
    ensures var a := s.batch[0].addr;
            && a in s.heap && a !in s.inFlight && a !in Addrs(s.timers) && a !in Addrs(s.batch[1..])
            && Addrs(s.batch) == Addrs(s.batch[1..]) + {a}
            && Taken(s.heap, s.batch[1..])
  {
    var a := s.batch[0].addr;
    assert s.batch == [s.batch[0]] + s.batch[1..];
    assert s.batch[0] in s.batch && a in Addrs(s.batch);
    TakenDistinct(s.heap, s.batch);
  }

  lemma FreeHeadKeeps(s: State)
    requires Resetting(s) && s.batch != []
    ensures s.batch[0].addr in s.heap
    ensures Resetting(Free(s.(batch := s.batch[1..]), s.batch[0].addr))
  {
    BatchHead(s);
    var a := s.batch[0].addr;
    var t := Free(s.(batch := s.batch[1..]), a);
    FreeKeepsOnce(s.heap, s.created, s.freed, a);
    TwinFrame(s.heap, t.heap, s.timers, s.active);
    TakenFrame(s.heap, t.heap, t.batch);
    assert t.heap.Keys == s.heap.Keys - {a};
    assert t.heap.Keys == t.inFlight + Addrs(t.timers) + Addrs(t.batch);
  }

  /** The first of the batch is to be restarted. */
  predicate Restarts(s: State) {
    && s.batch != []
    && var a := s.batch[0].addr;
       a in s.heap && s.heap[a].interval > 0 && Id(a, s.heap[a].sequence) !in s.canceling
  }

  lemma RestartIndex(heap: map<Addr, Timer>, ts: seq<Entry>, active: set<Id>, rest: seq<Entry>, a: Addr, when: int,
                     heap': map<Addr, Timer>, ts': seq<Entry>, active': set<Id>)
    requires Twin(heap, ts, active) && Taken(heap, rest)
    requires a in heap && a !in Addrs(ts) && a !in Addrs(rest)
    requires heap' == heap[a := heap[a].(expiration := when)]
    requires ts' == Insert(ts, Entry(when, a)) && active' == active + {Id(a, heap[a].sequence)}
    ensures Twin(heap', ts', active') && Taken(heap', rest) && Addrs(ts') == Addrs(ts) + {a}
  {
    TwinFrame(heap, heap', ts, active);
    TakenFrame(heap, heap', rest);
    EnlistKeepsTwin(heap', ts, active, a);
  }

  lemma RestartFields(s: State)
    requires Restarts(s)
    ensures var a, t := s.batch[0].addr, ResetOne(s);
            var when := s.now + s.heap[a].interval;
            && t.heap == s.heap[a := s.heap[a].(expiration := when)]
            && t.timers == Insert(s.timers, Entry(when, a))
            && t.active == s.active + {Id(a, s.heap[a].sequence)}
            && t.batch == s.batch[1..]
  {
  }

  lemma RestartKeepsIndex(s: State)
    requires Twin(s.heap, s.timers, s.active) && Restarts(s)
    requires var a := s.batch[0].addr;
             a !in Addrs(s.timers) && a !in Addrs(s.batch[1..]) && Taken(s.heap, s.batch[1..])
    ensures var t := ResetOne(s);
            && Twin(t.heap, t.timers, t.active) && Taken(t.heap, t.batch)
            && Addrs(t.timers) == Addrs(s.timers) + {s.batch[0].addr}
  {
    var a, t := s.batch[0].addr, ResetOne(s);
    RestartFields(s);
    RestartIndex(s.heap, s.timers, s.active, s.batch[1..], a, s.now + s.heap[a].interval, t.heap, t.timers, t.active);
  }

  lemma RestartKeepsRest(s: State)
    requires Resetting(s) && Restarts(s)
    ensures var t := ResetOne(s);
            Sequences(t.heap, t.created) && FreedOnce(t.heap, t.created, t.freed) && Deadline(t)
  {
    var a := s.batch[0].addr;
    var when := s.now + s.heap[a].interval;
    RescheduleKeepsOnce(s.heap, s.created, s.freed, a, when);
    InsertMembers(s.timers, Entry(when, a));
  }

  lemma RestartKeepsPlaces(s: State)
    requires Places(s) && Cancelled(s) && Restarts(s)
    requires var a, t := s.batch[0].addr, ResetOne(s);
             && a !in s.inFlight && a !in Addrs(s.timers) && a !in Addrs(s.batch[1..])
             && Addrs(s.batch) == Addrs(s.batch[1..]) + {a} && Addrs(t.timers) == Addrs(s.timers) + {a}
    ensures Places(ResetOne(s)) && Cancelled(ResetOne(s))
  {
    var t := ResetOne(s);
    assert t.heap.Keys == s.heap.Keys;
    assert t.heap.Keys == t.inFlight + Addrs(t.timers) + Addrs(t.batch);
  }

  lemma RestartHeadKeeps(s: State)
    requires Resetting(s) && Restarts(s)
    ensures Resetting(ResetOne(s))
  {
    BatchHead(s);
    RestartKeepsIndex(s);
    RestartKeepsRest(s);
    RestartKeepsPlaces(s);
  }

  lemma ResetOneKeeps(s: State)
    requires Resetting(s) && s.batch != []
    ensures s.batch[0].addr in s.heap && Resetting(ResetOne(s))
  {
    BatchHead(s);
    var a := s.batch[0].addr;
    if Restarts(s) {
      RestartHeadKeeps(s);
    } else {
      FreeHeadKeeps(s);
    }
  }

  lemma {:induction false} ResetAllKeeps(s: State)
    requires Resetting(s) && Distinct(s.batch) && forall e :: e in s.batch ==> e.addr in s.heap
    ensures Resetting(ResetAll(s)) && ResetAll(s).batch == []
    decreases |s.batch|
  {
    if s.batch == [] {
    } else {
      ResetOneKeeps(s);
      TakenDistinct(ResetOne(s).heap, ResetOne(s).batch);
      ResetAllKeeps(ResetOne(s));
    }
  }

  lemma RearmKeeps(s: State)
    requires Resetting(s) && s.batch == []
    ensures Inv(Rearm(s))
  {
    assert Deadline(Rearm(s));
  }

  lemma EndKeeps(s: State)
    requires Inv(s) && s.calling
    ensures Sound(s) && Inv(EndStep(s))
  {
    InvIsSound(s);
    ResetAllKeeps(s);
    RearmKeeps(ResetAll(s));
  }

  lemma StepKeepsInv(s: State, e: Event)
    requires Inv(s) && Enabled(s, e)
    ensures Sound(s) && Inv(Step(s, e))
  {
    InvIsSound(s);
    match e
    case Create(a, when, interval) => CreateKeeps(s, a, when, interval);
    case Add(a) => AddKeeps(s, a);
    case Cancel(id) =>
      if id in s.active {
        CancelQueuedKeeps(s, id);
      } else {
        CancelOtherKeeps(s, id);
      }
    case Tick(t) =>
    case Begin => BeginKeeps(s);
    case RunNext =>
    case End => EndKeeps(s);
  }

  // ---------------------------------------------------------------- runs

  ghost predicate Legal(s: State, es: seq<Event>)
    requires Inv(s)
    decreases |es|
  {
    es != [] ==> Enabled(s, es[0]) && (StepKeepsInv(s, es[0]); Legal(Step(s, es[0]), es[1..]))
  }

  ghost function Run(s: State, es: seq<Event>): (t: State)
    requires Inv(s) && Legal(s, es)
    ensures Inv(t)
    decreases |es|
  {
    if es == [] then s else StepKeepsInv(s, es[0]); Run(Step(s, es[0]), es[1..])
  }

  // ---------------------------------------------------------------- the main results

  /** Ids of distinct entries are distinct. */
  lemma {:induction false} IdsCount(heap: map<Addr, Timer>, ts: seq<Entry>)
    requires Taken(heap, ts)
    ensures |Ids(heap, ts)| == |ts|
    decreases |ts|
  {
    if ts == [] {
    } else {
      var last := |ts| - 1;
      var front := ts[..last];
      assert forall e :: e in front ==> e in ts;
      IdsCount(heap, front);
      TakenDistinct(heap, ts);
      var id := Id(ts[last].addr, heap[ts[last].addr].sequence);
      forall e | e in front
        ensures e.addr != ts[last].addr
      {
        var i :| 0 <= i < last && front[i] == e;
        assert ts[i].addr != ts[last].addr;
      }
      assert ts == front + [ts[last]];
      assert Ids(heap, ts) == Ids(heap, front) + {id};
    }
  }

  /**
   Twin index agreement: in every state, also between the adds and cancels of callbacks, the two sets hold the
   same timers and as many, in the order of expiration, each keyed at its timer's current expiration.
   */
  lemma TwinIndexAgreement(clock: nat, es: seq<Event>)
    requires Inv(Init(clock)) && Legal(Init(clock), es)
    ensures var s := Run(Init(clock), es);
            && Sorted(s.timers)
            && (forall e :: e in s.timers ==> e.addr in s.heap && s.heap[e.addr].expiration == e.time)
            && s.active == Ids(s.heap, s.timers)
            && |s.active| == |s.timers|
  {
    var s := Run(Init(clock), es);
    assert s.active == Ids(s.heap, s.timers) by {
      forall id | id in s.active
        ensures id in Ids(s.heap, s.timers)
      {
        assert Entry(s.heap[id.addr].expiration, id.addr) in s.timers;
      }
    }
    IdsCount(s.heap, s.timers);
  }

  /** Where the timer with a sequence number is. */
  predicate IsAt(heap: map<Addr, Timer>, place: set<Addr>, q: nat) {
    exists a :: a in place && a in heap && heap[a].sequence == q
  }

  function Bit(b: bool): nat { if b then 1 else 0 }

  /**
   Ownership: in every state each timer ever created is in exactly one place, on its way to the loop, in the
   queue, in the running batch, or freed, and it is freed at most once.
   */
  lemma TimerOwnership(clock: nat, es: seq<Event>, q: nat)
    requires Inv(Init(clock)) && Legal(Init(clock), es)
    requires 1 <= q <= Run(Init(clock), es).created
    ensures var s := Run(Init(clock), es);
            Bit(IsAt(s.heap, s.inFlight, q)) + Bit(IsAt(s.heap, Addrs(s.timers), q))
            + Bit(IsAt(s.heap, Addrs(s.batch), q)) + s.freed[q] == 1
  {
    var s := Run(Init(clock), es);
    assert s.freed[q] == if 1 <= q <= s.created && !Live(s.heap, q) then 1 else 0;
    if Live(s.heap, q) {
      var a :| a in s.heap && s.heap[a].sequence == q;
      assert a in s.inFlight || a in Addrs(s.timers) || a in Addrs(s.batch);
      OnlyPlace(s, a, s.inFlight);
      OnlyPlace(s, a, Addrs(s.timers));
      OnlyPlace(s, a, Addrs(s.batch));
    }
  }

  lemma OnlyPlace(s: State, a: Addr, place: set<Addr>)
    requires Sequences(s.heap, s.created) && a in s.heap
    ensures IsAt(s.heap, place, s.heap[a].sequence) <==> a in place
  {
  }

  /** The callback about to run, and every timer still in the batch, is allocated memory. */
  lemma BatchIsAllocated(clock: nat, es: seq<Event>)
    requires Inv(Init(clock)) && Legal(Init(clock), es)
    ensures forall e :: e in Run(Init(clock), es).batch ==> e.addr in Run(Init(clock), es).heap
  {
  }

  lemma {:induction false} ResetKeepsCancelled(s: State)
    requires Distinct(s.batch) && forall e :: e in s.batch ==> e.addr in s.heap
    ensures ResetAll(s).cancelled == s.cancelled
    decreases |s.batch|
  {
    if s.batch == [] {
    } else {
      assert forall e :: e in s.batch[1..] ==> e in s.batch && e.addr != s.batch[0].addr;
      ResetKeepsCancelled(ResetOne(s));
    }
  }

  lemma StepKeepsCancelled(s: State, e: Event)
    requires Sound(s) && Enabled(s, e)
    ensures s.cancelled <= Step(s, e).cancelled
  {
    if e.End? {
      ResetKeepsCancelled(s);
    }
  }

  lemma {:induction false} CancelledGrows(s: State, es: seq<Event>)
    requires Inv(s) && Legal(s, es)
    ensures s.cancelled <= Run(s, es).cancelled
    decreases |es|
  {
    if es == [] {
    } else {
      StepKeepsInv(s, es[0]);
      StepKeepsCancelled(s, es[0]);
      CancelledGrows(Step(s, es[0]), es[1..]);
    }
  }

  /** The id names a timer that the loop knows: in the queue or in the running batch. */
  predicate Known(s: State, id: Id) {
    id.addr in s.heap && s.heap[id.addr].sequence == id.sequence && id.addr !in s.inFlight
  }

  /**
   Cancellation is final: once a queued or running timer is cancelled, from anywhere, its own callback included,
   no batch taken at any later time contains it.
   */
  lemma CancelledInNoLaterBatch(s: State, id: Id, es: seq<Event>)
    requires Inv(s) && Known(s, id) && Legal(s, [Cancel(id)] + es)
    requires !Run(s, [Cancel(id)] + es).calling
    ensures var t := Run(s, [Cancel(id)] + es);
            Sound(t) && forall e :: e in BeginStep(t).batch ==> t.heap[e.addr].sequence != id.sequence
  {
    StepKeepsInv(s, Cancel(id));
    var u := Step(s, Cancel(id));
    assert ([Cancel(id)] + es)[1..] == es;
    assert id.sequence in u.cancelled by {
      if id.addr in Addrs(s.timers) {
        var e :| e in s.timers && e.addr == id.addr;
        assert id in s.active;
      }
    }
    CancelledGrows(u, es);
    var t := Run(u, es);
    InvIsSound(t);
    forall e | e in BeginStep(t).batch
      ensures t.heap[e.addr].sequence != id.sequence
    {
      assert e in t.timers && e.addr in Addrs(t.timers);
    }
  }

  /** A cancel never affects a timer with another sequence number, even one that reuses the address in the id. */
  lemma StaleIdIsHarmless(s: State, id: Id, a: Addr)
    requires Inv(s) && a in s.heap && s.heap[a].sequence != id.sequence
    ensures Sound(s)
    ensures var t, own := CancelStep(s, id), Id(a, s.heap[a].sequence);
            && a in t.heap && t.heap[a] == s.heap[a]
            && (a in Addrs(t.timers) <==> a in Addrs(s.timers))
            && t.batch == s.batch && t.inFlight == s.inFlight
            && (own in t.canceling <==> own in s.canceling)
  {
    InvIsSound(s);
    if id in s.active {
      var e := Entry(s.heap[id.addr].expiration, id.addr);
      EraseMembers(s.timers, e);
      assert a != id.addr;
      if a in Addrs(s.timers) {
        var x :| x in s.timers && x.addr == a;
        assert x in Erase(s.timers, e);
      }
    }
  }

  /**
   No missed deadline: whenever the loop is not inside HandleRead and timers remain, the timerfd has fired or is
   armed no later than the earliest expiration, or 100 microseconds after it was set, although a cancel never
   re-arms it. No assumption on the sign of expirations is needed.
   */
  lemma NoMissedDeadline(clock: nat, es: seq<Event>)
    requires Inv(Init(clock)) && Legal(Init(clock), es)
    ensures var s := Run(Init(clock), es);
            !s.calling && s.timers != [] ==>
              s.fd.readable
              || (s.fd.armed.Some? && s.fd.armed.value <= Max(s.timers[0].time, s.fd.setAt + 100))
  {
    assert Deadline(Run(Init(clock), es));
  }

  /** A batch is exactly the timers due, in the order of expiration, and the timerfd has been read. */
  lemma BatchIsExactlyTheDue(s: State)
    requires Inv(s) && !s.calling
    ensures Sound(s)
    ensures var t := BeginStep(s);
            && Sorted(t.batch)
            && (forall e :: e in t.batch <==> e in s.timers && e.time <= s.clock)
            && (forall e :: e in t.timers <==> e in s.timers && s.clock < e.time)
            && !t.fd.readable && t.fd.armed == s.fd.armed
  {
    InvIsSound(s);
    DueMembers(s.timers, s.clock);
  }

  lemma DueMembers(ts: seq<Entry>, now: int)
    requires Sorted(ts)
    ensures var k := Due(ts, now);
            && Sorted(ts[..k])
            && (forall e :: e in ts[..k] <==> e in ts && e.time <= now)
            && (forall e :: e in ts[k..] <==> e in ts && now < e.time)
  {
    DueSplits(ts, now);
    var k := Due(ts, now);
    assert ts == ts[..k] + ts[k..];
  }

  /** What the loop of Reset does to the timers outside the batch: nothing. */
  lemma {:induction false} ResetLeavesOthers(s: State, a: Addr)
    requires Resetting(s) && Distinct(s.batch) && forall e :: e in s.batch ==> e.addr in s.heap
    requires a in s.heap && a !in Addrs(s.batch)
    ensures a in ResetAll(s).heap && ResetAll(s).heap[a] == s.heap[a]
    ensures forall e :: e in s.timers ==> e in ResetAll(s).timers
    decreases |s.batch|
  {
    if s.batch == [] {
    } else {
      ResetOneKeeps(s);
      BatchHead(s);
      var t := ResetOne(s);
      TakenDistinct(t.heap, t.batch);
      var b := s.batch[0].addr;
      InsertMembers(s.timers, Entry(s.now + s.heap[b].interval, b));
      assert forall e :: e in s.timers ==> e in t.timers;
      ResetLeavesOthers(t, a);
    }
  }

  /** The timer that was at a is rescheduled in t if it repeats and was not cancelled, and freed if not. */
  predicate Decided(a: Addr, timer: Timer, now: nat, canceling: set<Id>, t: State) {
    if timer.interval > 0 && Id(a, timer.sequence) !in canceling
    then a in t.heap && t.heap[a] == timer.(expiration := now + timer.interval)
         && Entry(now + timer.interval, a) in t.timers
    else a !in t.heap
  }

  lemma HeadDecided(s: State)
    requires Resetting(s) && s.batch != [] && s.batch[0].addr in s.heap
    ensures var a := s.batch[0].addr;
            Decided(a, s.heap[a], s.now, s.canceling, ResetOne(s))
  {
    var a := s.batch[0].addr;
    var e := Entry(s.now + s.heap[a].interval, a);
    InsertMembers(s.timers, e);
    assert e in Insert(s.timers, e);
  }

  lemma TailUntouched(s: State, i: nat)
    requires Resetting(s) && 0 < i < |s.batch|
    ensures s.batch[0].addr in s.heap && s.batch[i].addr in s.heap
    ensures var a, t := s.batch[i].addr, ResetOne(s);
            && a in t.heap && t.heap[a] == s.heap[a]
            && t.batch == s.batch[1..] && t.batch[i - 1].addr == a && t.now == s.now && t.canceling == s.canceling
  {
    BatchHead(s);
    assert s.batch[i] == s.batch[1..][i - 1];
    assert s.batch[i] in s.batch[1..];
    assert s.batch[i].addr in Addrs(s.batch[1..]);
  }

  /** What happened to the first timer of the batch is final. */
  lemma FirstDecided(s: State)
    requires Resetting(s) && Distinct(s.batch) && forall e :: e in s.batch ==> e.addr in s.heap
    requires s.batch != []
    ensures var a := s.batch[0].addr;
            Decided(a, s.heap[a], s.now, s.canceling, ResetAll(s))
  {
    var a, t := s.batch[0].addr, ResetOne(s);
    ResetOneKeeps(s);
    TakenDistinct(t.heap, t.batch);
    HeadDecided(s);
    BatchHead(s);
    if a in t.heap {
      ResetLeavesOthers(t, a);
    } else {
      ResetCreatesNothing(t, a);
    }
  }

  /** A timer of the batch comes back keyed at now plus its interval if it repeats and was not cancelled, and is freed if not. */
  lemma {:induction false} ResetDecides(s: State, i: nat)
    requires Resetting(s) && Distinct(s.batch) && forall e :: e in s.batch ==> e.addr in s.heap
    requires i < |s.batch|
    ensures var a := s.batch[i].addr;
            Decided(a, s.heap[a], s.now, s.canceling, ResetAll(s))
    decreases |s.batch|
  {
    if i == 0 {
      FirstDecided(s);
    } else {
      var t := ResetOne(s);
      ResetOneKeeps(s);
      TakenDistinct(t.heap, t.batch);
      TailUntouched(s, i);
      ResetDecides(t, i - 1);
    }
  }

  lemma {:induction false} ResetCreatesNothing(s: State, a: Addr)
    requires Resetting(s) && Distinct(s.batch) && forall e :: e in s.batch ==> e.addr in s.heap
    requires a !in s.heap
    ensures a !in ResetAll(s).heap
    decreases |s.batch|
  {
    if s.batch == [] {
    } else {
      ResetOneKeeps(s);
      TakenDistinct(ResetOne(s).heap, ResetOne(s).batch);
      ResetCreatesNothing(ResetOne(s), a);
    }
  }

  /** The same, for the end of HandleRead. */
  lemma EndReschedules(s: State, i: nat)
    requires Inv(s) && s.calling && i < |s.batch|
    ensures Sound(s)
    ensures var a, t := s.batch[i].addr, EndStep(s);
            Decided(a, s.heap[a], s.now, s.canceling, t)
  {
    InvIsSound(s);
    ResetDecides(s, i);
    assert EndStep(s).heap == ResetAll(s).heap && EndStep(s).timers == ResetAll(s).timers;
  }

  // ---------------------------------------------------------------- one batch from its beginning to its end

  /** The entries are those queued in s that are due at its clock, in the order of expiration. */
  ghost predicate AreDue(s: State, due: seq<Entry>) {
    Sorted(due) && forall e :: e in due <==> e in s.timers && e.time <= s.clock
  }

  /** The steps between the beginning of a batch and its end. */
  predicate IsInside(e: Event) { !e.Begin? && !e.End? }

  predicate Inside(es: seq<Event>) { forall i :: 0 <= i < |es| ==> IsInside(es[i]) }

  function TimersOf(heap: map<Addr, Timer>, ts: seq<Entry>): seq<Timer>
    requires forall e :: e in ts ==> e.addr in heap
  {
    seq(|ts|, i requires 0 <= i < |ts| => assert ts[i] in ts; heap[ts[i].addr])
  }

  function SequencesOf(timers: seq<Timer>): seq<nat> { seq(|timers|, i requires 0 <= i < |timers| => timers[i].sequence) }

  /** What stays true while a batch that began at s is running: its timers are untouched, and the first ran of them have run. */
  predicate Underway(s: State, due: seq<Entry>, ts: seq<Timer>, t: State) {
    && |ts| == |due| && t.calling && t.batch == due && t.now == s.clock
    && t.ran <= |due| && t.callbacks == s.callbacks + SequencesOf(ts)[..t.ran]
    && forall i :: 0 <= i < |due| ==> due[i].addr in t.heap && t.heap[due[i].addr] == ts[i]
  }

  lemma BeginIsUnderway(s: State)
    requires Inv(s) && !s.calling
    ensures Sound(s)
    ensures var t := BeginStep(s);
            && AreDue(s, t.batch) && (forall e :: e in t.batch ==> e.addr in s.heap)
            && Underway(s, t.batch, TimersOf(s.heap, t.batch), t) && t.canceling == {}
  {
    BatchIsExactlyTheDue(s);
  }

  lemma CallbackKeepsUnderway(s: State, due: seq<Entry>, ts: seq<Timer>, t: State)
    requires Underway(s, due, ts, t) && t.ran < |due|
    ensures Underway(s, due, ts, CallbackStep(t))
  {
    assert SequencesOf(ts)[..t.ran + 1] == SequencesOf(ts)[..t.ran] + [ts[t.ran].sequence];
  }

  /** A timer of the running batch is in neither set. */
  lemma BatchIsNotActive(t: State, i: nat)
    requires Inv(t) && i < |t.batch|
    ensures t.batch[i].addr in t.heap && t.batch[i].addr !in t.inFlight
    ensures forall id :: id in t.active ==> id.addr != t.batch[i].addr
  {
    var a := t.batch[i].addr;
    assert t.batch[i] in t.batch && a in Addrs(t.batch);
    forall id | id in t.active
      ensures id.addr != a
    {
      assert Entry(t.heap[id.addr].expiration, id.addr) in t.timers;
      assert id.addr in Addrs(t.timers);
    }
  }

  lemma InsideKeepsUnderway(s: State, due: seq<Entry>, ts: seq<Timer>, t: State, e: Event)
    requires Inv(t) && Underway(s, due, ts, t) && IsInside(e) && Enabled(t, e)
    ensures Sound(t) && Underway(s, due, ts, Step(t, e))
  {
    InvIsSound(t);
    if e.RunNext? {
      CallbackKeepsUnderway(s, due, ts, t);
    } else {
      var u := Step(t, e);
      forall i | 0 <= i < |due|
        ensures due[i].addr in u.heap && u.heap[due[i].addr] == ts[i]
      {
        BatchIsNotActive(t, i);
      }
    }
  }

  /** A timer of the batch is marked exactly by a cancel of its id while the batch runs. */
  lemma InsideMarks(t: State, i: nat, e: Event)
    requires Inv(t) && t.calling && i < |t.batch| && t.batch[i].addr in t.heap && IsInside(e) && Enabled(t, e)
    ensures var id := Id(t.batch[i].addr, t.heap[t.batch[i].addr].sequence);
            Sound(t) && (id in Step(t, e).canceling <==> id in t.canceling || e == Cancel(id))
  {
    InvIsSound(t);
    BatchIsNotActive(t, i);
  }

  lemma {:induction false} RunKeepsUnderway(s: State, due: seq<Entry>, ts: seq<Timer>, t: State, es: seq<Event>)
    requires Inv(t) && Underway(s, due, ts, t) && Inside(es) && Legal(t, es)
    ensures Underway(s, due, ts, Run(t, es))
    decreases |es|
  {
    if es == [] {
    } else {
      StepKeepsInv(t, es[0]);
      InsideKeepsUnderway(s, due, ts, t, es[0]);
      RunKeepsUnderway(s, due, ts, Step(t, es[0]), es[1..]);
    }
  }

  lemma UnderwayMarks(s: State, due: seq<Entry>, ts: seq<Timer>, t: State, i: nat, e: Event)
    requires Inv(t) && Underway(s, due, ts, t) && i < |due| && IsInside(e) && Enabled(t, e)
    ensures Sound(t) && Inv(Step(t, e)) && Underway(s, due, ts, Step(t, e))
    ensures var id := Id(due[i].addr, ts[i].sequence);
            id in Step(t, e).canceling <==> id in t.canceling || e == Cancel(id)
  {
    StepKeepsInv(t, e);
    InsideKeepsUnderway(s, due, ts, t, e);
    InsideMarks(t, i, e);
  }

  lemma InTail(e: Event, es: seq<Event>)
    requires es != []
    ensures e in es <==> e == es[0] || e in es[1..]
  {
    assert es == [es[0]] + es[1..];
  }

  lemma {:induction false} RunMarks(s: State, due: seq<Entry>, ts: seq<Timer>, t: State, es: seq<Event>, i: nat)
    requires Inv(t) && Underway(s, due, ts, t) && Inside(es) && Legal(t, es) && i < |due|
    ensures var id := Id(due[i].addr, ts[i].sequence);
            id in Run(t, es).canceling <==> id in t.canceling || Cancel(id) in es
    decreases |es|
  {
    if es == [] {
    } else {
      UnderwayMarks(s, due, ts, t, i, es[0]);
      InTail(Cancel(Id(due[i].addr, ts[i].sequence)), es);
      RunMarks(s, due, ts, Step(t, es[0]), es[1..], i);
    }
  }

  /** The ids that a run cancels. */
  function CancelledIn(es: seq<Event>): set<Id> { set e | e in es && e.Cancel? :: e.id }

  /** What the beginning of a batch at s gives. */
  ghost predicate Starts(s: State, due: seq<Entry>, ts: seq<Timer>, t: State) {
    && AreDue(s, due) && Underway(s, due, ts, t) && t.canceling == {}
    && forall i :: 0 <= i < |due| ==> due[i].addr in s.heap && ts[i] == s.heap[due[i].addr]
  }

  lemma BeginStarts(s: State) returns (due: seq<Entry>, ts: seq<Timer>)
    requires Inv(s) && !s.calling
    ensures Sound(s) && Starts(s, due, ts, BeginStep(s)) && Inv(BeginStep(s))
  {
    BeginKeeps(s);
    BeginIsUnderway(s);
    due := BeginStep(s).batch;
    ts := TimersOf(s.heap, due);
  }

  /** The batch began at s and has come to u while exactly the given ids were cancelled. */
  ghost predicate Batch(s: State, u: State, cancels: set<Id>) {
    exists t, es :: Inv(s) && Sound(s) && !s.calling && t == BeginStep(s) && Inv(t) && Inside(es) && Legal(t, es)
                    && Run(t, es) == u && CancelledIn(es) == cancels
  }

  /** u is inside the batch that began at s: the timers due at s are untouched, and exactly the cancelled ones are marked. */
  ghost predicate Within(s: State, due: seq<Entry>, ts: seq<Timer>, u: State, cancels: set<Id>) {
    && AreDue(s, due) && Underway(s, due, ts, u)
    && (forall i :: 0 <= i < |due| ==> due[i].addr in s.heap && ts[i] == s.heap[due[i].addr])
    && forall i :: 0 <= i < |due| ==>
         (Id(due[i].addr, ts[i].sequence) in u.canceling <==> Id(due[i].addr, ts[i].sequence) in cancels)
  }

  lemma RunStaysWithin(s: State, due: seq<Entry>, ts: seq<Timer>, t: State, es: seq<Event>)
    requires Starts(s, due, ts, t) && Inv(t) && Inside(es) && Legal(t, es)
    ensures Within(s, due, ts, Run(t, es), CancelledIn(es))
  {
    RunKeepsUnderway(s, due, ts, t, es);
    forall i | 0 <= i < |due|
      ensures var id := Id(due[i].addr, ts[i].sequence); id in Run(t, es).canceling <==> id in CancelledIn(es)
    {
      RunMarks(s, due, ts, t, es, i);
    }
  }

  lemma BatchIsWithin(s: State, u: State, cancels: set<Id>) returns (due: seq<Entry>, ts: seq<Timer>)
    requires Batch(s, u, cancels)
    ensures Inv(u) && Within(s, due, ts, u, cancels)
  {
    var t, es :| Inv(s) && Sound(s) && !s.calling && t == BeginStep(s) && Inv(t) && Inside(es) && Legal(t, es)
                 && Run(t, es) == u && CancelledIn(es) == cancels;
    due, ts := BeginStarts(s);
    RunStaysWithin(s, due, ts, t, es);
  }

  /**
   Every due timer runs, once and in order: a batch that began at s and comes to its end has run exactly the
   callbacks of the timers that were queued in s and due at its clock, in the order of expiration, those that were
   cancelled meanwhile included.
   */
  lemma CallbacksOfBatch(s: State, u: State, cancels: set<Id>) returns (due: seq<Entry>)
    requires Batch(s, u, cancels) && Enabled(u, End)
    ensures AreDue(s, due) && forall e :: e in due ==> e.addr in s.heap
    ensures u.callbacks == s.callbacks + SequencesOf(TimersOf(s.heap, due))
  {
    var ts;
    due, ts := BatchIsWithin(s, u, cancels);
    assert ts == TimersOf(s.heap, due);
    assert SequencesOf(ts)[..|due|] == SequencesOf(ts);
  }

  /** The timer that was at a comes back at when, unless it does not repeat or was cancelled: then it is freed. */
  predicate Fate(a: Addr, timer: Timer, when: int, cancelled: bool, t: State) {
    if timer.interval > 0 && !cancelled
    then a in t.heap && t.heap[a] == timer.(expiration := when) && Entry(when, a) in t.timers
    else a !in t.heap
  }

  lemma {:induction false} FateAt(s: State, due: seq<Entry>, ts: seq<Timer>, u: State, cancels: set<Id>, i: nat)
    requires Inv(u) && Underway(s, due, ts, u) && i < |due|
    requires Id(due[i].addr, ts[i].sequence) in u.canceling <==> Id(due[i].addr, ts[i].sequence) in cancels
    ensures Sound(u)
    ensures Fate(due[i].addr, ts[i], s.clock + ts[i].interval, Id(due[i].addr, ts[i].sequence) in cancels, EndStep(u))
  {
    EndReschedules(u, i);
  }

  /** Where a timer that was due stands in the batch. */
  lemma {:induction false} PositionInBatch(s: State, due: seq<Entry>, ts: seq<Timer>, u: State, cancels: set<Id>, e: Entry)
    returns (i: nat)
    requires Within(s, due, ts, u, cancels) && e in s.timers && e.time <= s.clock
    ensures i < |due| && due[i] == e && e.addr in s.heap && ts[i] == s.heap[e.addr] && Underway(s, due, ts, u)
    ensures Id(e.addr, ts[i].sequence) in u.canceling <==> Id(e.addr, ts[i].sequence) in cancels
  {
    assert e in due;
    i :| 0 <= i < |due| && due[i] == e;
  }

  lemma {:induction false} FateWithin(s: State, due: seq<Entry>, ts: seq<Timer>, u: State, cancels: set<Id>, e: Entry)
    requires Inv(u) && Sound(u) && Within(s, due, ts, u, cancels) && e in s.timers && e.time <= s.clock
    ensures e.addr in s.heap
    ensures var timer := s.heap[e.addr];
            Fate(e.addr, timer, s.clock + timer.interval, Id(e.addr, timer.sequence) in cancels, EndStep(u))
  {
    var i := PositionInBatch(s, due, ts, u, cancels, e);
    FateAt(s, due, ts, u, cancels, i);
  }

  /**
   And then each of them comes back at the time of the beginning plus its interval, if it repeats and its id was not
   cancelled while the batch ran, and is freed if not.
   */
  lemma {:induction false} FateOfBatch(s: State, u: State, cancels: set<Id>, e: Entry)
    requires Batch(s, u, cancels) && e in s.timers && e.time <= s.clock
    ensures e.addr in s.heap && Sound(u)
    ensures var timer := s.heap[e.addr];
            Fate(e.addr, timer, s.clock + timer.interval, Id(e.addr, timer.sequence) in cancels, EndStep(u))
  {
    var due, ts := BatchIsWithin(s, u, cancels);
    InvIsSound(u);
    FateWithin(s, due, ts, u, cancels, e);
  }

  // ---------------------------------------------------------------- from AddTimer to the queue

  /** A timer on its way to the loop is touched by nothing but its own AddTimerInLoop. */
  lemma InFlightStays(s: State, a: Addr, e: Event)
    requires Inv(s) && a in s.inFlight && Enabled(s, e) && e != Add(a)
    ensures Sound(s) && a in s.heap
    ensures var t := Step(s, e);
            a in t.inFlight && a in t.heap && t.heap[a] == s.heap[a]
  {
    InvIsSound(s);
    match e
    case Cancel(id) =>
      if id in s.active {
        assert Entry(s.heap[id.addr].expiration, id.addr) in s.timers;
        assert id.addr in Addrs(s.timers);
      }
    case End =>
      assert a !in Addrs(s.batch);
      ResetLeavesOthers(s, a);
      ResetKeepsInFlight(s);
    case _ =>
  }

  lemma {:induction false} ResetKeepsInFlight(s: State)
    requires Distinct(s.batch) && forall e :: e in s.batch ==> e.addr in s.heap
    ensures ResetAll(s).inFlight == s.inFlight
    decreases |s.batch|
  {
    if s.batch == [] {
    } else {
      assert forall e :: e in s.batch[1..] ==> e in s.batch && e.addr != s.batch[0].addr;
      ResetKeepsInFlight(ResetOne(s));
    }
  }

  lemma {:induction false} RunKeepsInFlight(s: State, a: Addr, es: seq<Event>)
    requires Inv(s) && a in s.inFlight && a in s.heap && Legal(s, es) && Add(a) !in es
    ensures var t := Run(s, es);
            a in t.inFlight && a in t.heap && t.heap[a] == s.heap[a]
    decreases |es|
  {
    if es == [] {
    } else {
      StepKeepsInv(s, es[0]);
      InFlightStays(s, a, es[0]);
      RunKeepsInFlight(Step(s, es[0]), a, es[1..]);
    }
  }

  lemma AddQueues(t: State, a: Addr)
    requires a in t.heap
    ensures AddStep(t, a).heap == t.heap && Id(a, t.heap[a].sequence) in AddStep(t, a).active
    ensures Entry(t.heap[a].expiration, a) in AddStep(t, a).timers
  {
    InsertMembers(t.timers, Entry(t.heap[a].expiration, a));
  }

  /** Whatever happens between AddTimer and its AddTimerInLoop, the timer is then queued at the time asked for. */
  lemma AddedAsAsked(s: State, a: Addr, when: int, interval: nat, es: seq<Event>)
    requires Inv(s) && a !in s.heap && Inv(CreateStep(s, a, when, interval))
    requires Legal(CreateStep(s, a, when, interval), es) && Add(a) !in es
    ensures var t := Run(CreateStep(s, a, when, interval), es);
            && Enabled(t, Add(a)) && a in t.heap
            && AddStep(t, a).heap[a] == Timer(when, interval, s.created + 1)
            && Entry(when, a) in AddStep(t, a).timers && Id(a, s.created + 1) in AddStep(t, a).active
  {
    RunKeepsInFlight(CreateStep(s, a, when, interval), a, es);
    AddQueues(Run(CreateStep(s, a, when, interval), es), a);
  }

  // ---------------------------------------------------------------- the queue object

  /** The ids of the first i entries. */
  ghost function FirstIds(heap: map<Addr, Timer>, ts: seq<Entry>, i: nat): set<Id>
    requires i <= |ts| && forall e :: e in ts ==> e.addr in heap
  {
    set j | 0 <= j < i :: Id(ts[j].addr, heap[ts[j].addr].sequence)
  }

  lemma FirstIdsNext(heap: map<Addr, Timer>, ts: seq<Entry>, i: nat)
    requires i < |ts| && forall e :: e in ts ==> e.addr in heap
    ensures FirstIds(heap, ts, i + 1) == FirstIds(heap, ts, i) + {Id(ts[i].addr, heap[ts[i].addr].sequence)}
  {
  }

  /** Taking out the due timers does not depend on the time stamp and the timerfd. */
  lemma TakeDueFrame(s: State, now: nat, fd: TimerFd, at: nat)
    requires forall e :: e in s.timers ==> e.addr in s.heap
    ensures TakeDue(s.(now := now, fd := fd), at) == TakeDue(s, at).(now := now, fd := fd)
  {
  }

  /** One turn of the loop of Reset leaves the rest to the next turns. */
  lemma ResetTurn(s: State)
    requires s.batch != [] && Distinct(s.batch) && forall e :: e in s.batch ==> e.addr in s.heap
    ensures var t := ResetOne(s);
            && t.batch == s.batch[1..]
            && Distinct(t.batch) && (forall e :: e in t.batch ==> e.addr in t.heap)
            && ResetAll(t) == ResetAll(s)
  {
    assert forall e :: e in s.batch[1..] ==> e in s.batch && e.addr != s.batch[0].addr;
  }

  class TimerQueue {
    var heap: map<Addr, Timer>        // the allocated Timer objects
    var timers: seq<Entry>
    var activeTimers: set<Id>
    var callingExpiredTimers: bool
    var cancelingTimers: set<Id>
    var expired: seq<Entry>
    var ran: nat
    var now: nat
    var clock: nat
    var timerfd: TimerFd
    var numCreated: nat
    var inFlight: set<Addr>
    ghost var freed: multiset<nat>
    ghost var cancelled: set<nat>
    ghost var callbacks: seq<nat>

    ghost function View(): State
      reads this
    {
      State(heap, timers, activeTimers, callingExpiredTimers, cancelingTimers, expired, ran, now, clock, timerfd,
            numCreated, inFlight, freed, cancelled, callbacks)
    }

    constructor (start: nat)
      ensures View() == Init(start)
    {
      heap, timers, activeTimers, callingExpiredTimers, cancelingTimers := map[], [], {}, false, {};
      expired, ran, now, clock, timerfd := [], 0, 0, start, TimerFd(None, 0, false);
      numCreated, inFlight, freed, cancelled, callbacks := 0, {}, multiset{}, {}, [];
    }

    /** new Timer: the next sequence number, at any address that is not in use. */
    method NewTimer(addr: Addr, when: int, interval: nat) returns (id: Id)
      requires addr !in heap
      modifies this
      ensures View() == CreateStep(old(View()), addr, when, interval)
      ensures id == Id(addr, numCreated)
    {
      numCreated := numCreated + 1;
      heap := heap[addr := Timer(when, interval, numCreated)];
      inFlight := inFlight + {addr};
      id := Id(addr, numCreated);
    }

    method InsertTimer(addr: Addr) returns (earliestChanged: bool)
      requires addr in heap
      modifies this`timers, this`activeTimers
      ensures View() == Enlist(old(View()), addr)
      ensures earliestChanged <==> old(timers) == [] || heap[addr].expiration < old(timers)[0].time
    {
      var when := heap[addr].expiration;
      earliestChanged := timers == [] || when < timers[0].time;
      timers := Insert(timers, Entry(when, addr));
      activeTimers := activeTimers + {Id(addr, heap[addr].sequence)};
    }

    method AddTimerInLoop(addr: Addr)
      requires addr in heap
      modifies this
      ensures View() == AddStep(old(View()), addr)
    {
      var earliestChanged := InsertTimer(addr);
      inFlight := inFlight - {addr};
      if earliestChanged {
        timerfd := Arm(clock, heap[addr].expiration);
      }
    }

    method Delete(addr: Addr)
      requires addr in heap
      modifies this`heap, this`freed
      ensures View() == Free(old(View()), addr)
    {
      freed := freed + multiset{heap[addr].sequence};
      heap := heap - {addr};
    }

    method CancelInLoop(id: Id)
      requires id in activeTimers ==> id.addr in heap
      modifies this
      ensures View() == CancelStep(old(View()), id)
    {
      if id in activeTimers {
        timers := Erase(timers, Entry(heap[id.addr].expiration, id.addr));
        activeTimers := activeTimers - {id};
        cancelled := cancelled + {id.sequence};
        Delete(id.addr);
      } else if callingExpiredTimers {
        if InBatch(View(), id) {
          cancelled := cancelled + {id.sequence};
        }
        cancelingTimers := cancelingTimers + {id};
      }
    }

    /** GetExpired. */
    method GetExpired(at: nat)
      requires forall e :: e in timers ==> e.addr in heap
      modifies this`timers, this`activeTimers, this`expired
      ensures View() == TakeDue(old(View()), at)
    {
      var end := Due(timers, at);
      expired, timers := timers[..end], timers[end..];
      assert forall e :: e in expired ==> e in old(timers);
      var i := 0;
      while i < |expired|
        invariant 0 <= i <= |expired|
        invariant expired == old(timers)[..end] && timers == old(timers)[end..]
        invariant forall e :: e in expired ==> e.addr in heap
        invariant activeTimers == old(activeTimers) - FirstIds(heap, expired, i)
      {
        var e := expired[i];
        FirstIdsNext(heap, expired, i);
        activeTimers := activeTimers - {Id(e.addr, heap[e.addr].sequence)};
        i := i + 1;
      }
      assert FirstIds(heap, expired, i) == Ids(heap, expired);
    }

    /** HandleRead up to the loop over the batch. */
    method TakeExpired()
      requires forall e :: e in timers ==> e.addr in heap
      modifies this
      ensures View() == BeginStep(old(View()))
    {
      TakeDueFrame(View(), clock, ReadFd(timerfd), clock);
      now := clock;
      timerfd := ReadFd(timerfd);
      GetExpired(now);
      callingExpiredTimers, cancelingTimers, ran := true, {}, 0;
    }

    /** One turn of the loop over the batch: the callback of the timer with the number returned is run. */
    method RunCallback() returns (sequence: nat)
      requires ran < |expired| && expired[ran].addr in heap
      modifies this`ran, this`callbacks
      ensures View() == CallbackStep(old(View())) && callbacks == old(callbacks) + [sequence]
    {
      sequence := heap[expired[ran].addr].sequence;
      ran, callbacks := ran + 1, callbacks + [sequence];
    }

    /** One turn of the loop in Reset. */
    method ResetFirst()
      requires expired != [] && expired[0].addr in heap
      modifies this
      ensures View() == ResetOne(old(View()))
    {
      var addr := expired[0].addr;
      var timer := heap[addr];
      expired := expired[1..];
      if timer.interval > 0 && Id(addr, timer.sequence) !in cancelingTimers {
        heap := heap[addr := timer.(expiration := now + timer.interval)];
        var _ := InsertTimer(addr);
      } else {
        Delete(addr);
      }
    }

    /** The loop of Reset. */
    method Reset()
      requires Distinct(expired) && forall e :: e in expired ==> e.addr in heap
      modifies this
      ensures View() == ResetAll(old(View()))
    {
      while expired != []
        invariant Distinct(expired) && forall e :: e in expired ==> e.addr in heap
        invariant ResetAll(View()) == ResetAll(old(View()))
        decreases |expired|
      {
        ResetTurn(View());
        ResetFirst();
      }
    }

    /** HandleRead after its loop: Reset, and the timerfd is armed for what is now the earliest timer. */
    method FinishExpired()
      requires Distinct(expired) && forall e :: e in expired ==> e.addr in heap
      modifies this
      ensures View() == EndStep(old(View()))
    {
      Reset();
      callingExpiredTimers, ran := false, 0;
      if timers != [] {
        var nextExpire := timers[0].time;
        if nextExpire > 0 {
          timerfd := Arm(clock, nextExpire);
        }
      }
    }

    method Perform(e: Event)
      requires Sound(View()) && Enabled(View(), e)
      modifies this
      ensures View() == Step(old(View()), e)
    {
      match e
      case Create(a, when, interval) => var _ := NewTimer(a, when, interval);
      case Add(a) => AddTimerInLoop(a);
      case Cancel(id) => CancelInLoop(id);
      case Tick(t) => clock, timerfd := t, Elapse(timerfd, t);
      case Begin => TakeExpired();
      case RunNext => var _ := RunCallback();
      case End => FinishExpired();
    }

    /** Any schedule: adds, cancels and allocations may stand between the callbacks of a batch. */
    method Schedule(es: seq<Event>)
      requires Inv(View()) && Legal(View(), es)
      modifies this
      ensures Inv(View()) && View() == Run(old(View()), es)
    {
      var i := 0;
      while i < |es|
        invariant 0 <= i <= |es|
        invariant Inv(View()) && Legal(View(), es[i..])
        invariant Run(View(), es[i..]) == Run(old(View()), es)
      {
        assert es[i..][1..] == es[i + 1..];
        StepKeepsInv(View(), es[i]);
        Perform(es[i]);
        i := i + 1;
      }
    }
  }
}
