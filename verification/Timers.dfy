/** The timer queue of one event loop (muduo/net/TimerQueue.cpp, Timer.h, TimerId.h).

    Heap addresses are explicit, so that reuse of a freed address, double deletion and use after
    deletion can be stated.  Time is in microseconds.  Every value that comes from outside (the
    clock, the address an allocation returns, what a callback does) is an argument of a step, and a
    run is any finite sequence of steps.  Callbacks re-enter the queue: between two `RunNext` steps
    of a batch any additions and cancellations may happen. */
module Timers {
  const UINTPTR_MAX: int := 0xFFFF_FFFF_FFFF_FFFF

  /** A Timer pointer below the sentry's UINTPTR_MAX; 0 is NULL. */
  type Address = a: nat | a < UINTPTR_MAX

  datatype Timer = Timer(expiration: int, repeat: bool, delta: nat, sequence: nat)
  datatype Entry = Entry(when: int, timer: Address)
  datatype TimerId = TimerId(timer: Address, sequence: nat)

  /** The one-shot timerfd: it is readable (`pending`), or armed for a deadline, or neither. */
  datatype TimerFd = TimerFd(pending: bool, armed: bool, deadline: int, armedAt: int)

  /** One execution of a timer's callback, as history. */
  datatype Run = Run(sequence: nat, repeat: bool, delta: nat, expiration: int, at: int, batchNo: nat)

  datatype State = State(
    heap: map<Address, Timer>,   // undeleted Timer objects
    created: nat,                // Timer::s_numCreated_
    posted: set<Address>,        // allocated by addTimer, addTimerInLoop not run yet
    timers: seq<Entry>,          // std::set<Entry>, in iteration order
    active: set<TimerId>,
    calling: bool,
    canceling: set<TimerId>,
    fd: TimerFd,
    batch: seq<Entry>,           // handleRead's local `expired`
    next: nat,                   // how many of the batch have run
    batchTime: int,              // handleRead's local `now`
    batchNo: nat,
    runs: seq<Run>)

  const EMPTY_QUEUE: State :=
    State(map[], 0, {}, [], {}, false, {}, TimerFd(false, false, 0, 0), [], 0, 0, 0, [])

  datatype Op =
    | New(a: Address, when: int, repeat: bool, delta: nat)
    | AddInLoop(a: Address, clock: int)
    | CancelInLoop(id: TimerId)
    | Fire(clock: int)
    | BeginRead(now: int)
    | RunNext
    | EndRead(clock: int)

  // ---- std::set<Entry> as a strictly sorted sequence ------------------------------------------

  predicate Less(x: Entry, y: Entry) {
    x.when < y.when || (x.when == y.when && x.timer < y.timer)
  }

  ghost predicate Sorted(s: seq<Entry>) {
    forall i, j | 0 <= i < j < |s| :: Less(s[i], s[j])
  }

  function Insert(s: seq<Entry>, x: Entry): (r: seq<Entry>)
    ensures |r| == |s| + 1
    ensures forall e :: e in r <==> e in s || e == x
  {
    if s == [] then [x]
    else if Less(x, s[0]) then [x] + s
    else
      var r := Insert(s[1..], x);
      assert s == [s[0]] + s[1..];
      [s[0]] + r
  }

  function Erase(s: seq<Entry>, x: Entry): (r: seq<Entry>)
    ensures |r| == if x in s then |s| - 1 else |s|
    ensures forall e | e in r :: e in s
    ensures forall e | e in s && e != x :: e in r
  {
    if s == [] then []
    else
      assert s == [s[0]] + s[1..];
      if s[0] == x then s[1..] else [s[0]] + Erase(s[1..], x)
  }

  /** Where lower_bound((now, UINTPTR_MAX)) points: the number of entries below the sentry. */
  function Due(s: seq<Entry>, now: int): (k: nat)
    ensures k <= |s|
    ensures forall i | 0 <= i < k :: s[i].when <= now
    ensures k < |s| ==> now < s[k].when
  {
    if s == [] || now < s[0].when then 0 else 1 + Due(s[1..], now)
  }

  lemma {:induction false} InsertSorted(s: seq<Entry>, x: Entry)
    requires Sorted(s) && x !in s
    ensures Sorted(Insert(s, x))
    ensures Insert(s, x)[0] == if s == [] || Less(x, s[0]) then x else s[0]
  {
    if s != [] && !Less(x, s[0]) {
      InsertSorted(s[1..], x);
      var r := Insert(s[1..], x);
      forall j | 0 <= j < |r| ensures Less(s[0], r[j]) {
        assert r[j] in r;
      }
    }
  }

  lemma {:induction false} EraseSorted(s: seq<Entry>, x: Entry)
    requires Sorted(s)
    ensures Sorted(Erase(s, x)) && x !in Erase(s, x)
  {
    if s != [] {
      EraseSorted(s[1..], x);
      var r := Erase(s[1..], x);
      forall j | 0 <= j < |r| ensures Less(s[0], r[j]) {
        assert r[j] in r;
      }
    }
  }

  // ---- The timerfd ---------------------------------------------------------------------------

  const MICROSECONDS_PER_SECOND := 1_000_000

  datatype Timespec = Timespec(sec: int, nsec: int)

  /** howMuchTimeFromNow: the relative timeout given to timerfd_settime.  Both divisions are of a
      positive number, where C++ and Dafny agree. */
  function HowMuchTimeFromNow(when: int, clock: int): (t: Timespec)
    ensures t.sec >= 0 && 0 <= t.nsec < 1_000_000_000
    ensures t.sec * 1_000_000_000 + t.nsec == 1000 * (if when - clock < 100 then 100 else when - clock)
  {
    var microseconds := if when - clock < 100 then 100 else when - clock;
    Timespec(microseconds / MICROSECONDS_PER_SECOND, (microseconds % MICROSECONDS_PER_SECOND) * 1000)
  }

  /** resetTimerfd: timerfd_settime drops an unread expiration and arms the one shot anew. */
  function Arm(when: int, clock: int): (fd: TimerFd)
    ensures fd == TimerFd(false, true, if when < clock + 100 then clock + 100 else when, clock)
  {
    var t := HowMuchTimeFromNow(when, clock);
    TimerFd(false, true, clock + t.sec * MICROSECONDS_PER_SECOND + t.nsec / 1000, clock)
  }

  // ---- Steps -----------------------------------------------------------------------------------

  /** insert(): both indices gain the timer. */
  function Inserted(s: State, a: Address): State
    requires a in s.heap
  {
    s.(timers := Insert(s.timers, Entry(s.heap[a].expiration, a)),
       active := s.active + {TimerId(a, s.heap[a].sequence)})
  }

  /** `delete timer`. */
  function Deleted(s: State, a: Address): State {
    s.(heap := s.heap - {a})
  }

  /** Both indices lose the timer. */
  function Unlisted(s: State, id: TimerId): State
    requires id.timer in s.heap
  {
    s.(timers := Erase(s.timers, Entry(s.heap[id.timer].expiration, id.timer)), active := s.active - {id})
  }

  function Popped(s: State): State
    requires s.batch != []
  {
    s.(batch := s.batch[1..])
  }

  /** Timer::restart of a repeating timer. */
  function Restarted(s: State, a: Address): State
    requires a in s.heap
  {
    s.(heap := s.heap[a := s.heap[a].(expiration := s.batchTime + s.heap[a].delta)])
  }

  predicate EarliestChanged(s: State, when: int) {
    s.timers == [] || when < s.timers[0].when
  }

  /** `new Timer` in addTimer, on any thread; the allocator never returns NULL or a live address. */
  function Allocated(s: State, a: Address, when: int, repeat: bool, delta: nat): State {
    if a == 0 || a in s.heap then s else
    s.(heap := s.heap[a := Timer(when, repeat, delta, s.created + 1)],
       created := s.created + 1,
       posted := s.posted + {a})
  }

  function AddedInLoop(s: State, a: Address, clock: int): State {
    if a !in s.posted || a !in s.heap then s else
    var when := s.heap[a].expiration;
    var s' := Inserted(s.(posted := s.posted - {a}), a);
    if EarliestChanged(s, when) then s'.(fd := Arm(when, clock)) else s'
  }

  function CancelledInLoop(s: State, id: TimerId): State {
    if id in s.active && id.timer in s.heap then
      Deleted(Unlisted(s, id), id.timer)
    else if s.calling then
      s.(canceling := s.canceling + {id})
    else s
  }

  /** handleRead up to the first callback: readTimerfd, getExpired, the two flags.  It goes on whatever
      the read returned: a handler of the same poll may have re-armed the timerfd, which drops the
      expiration. */
  function ReadBegun(s: State, now: int): State {
    if s.calling then s else
    var k := Due(s.timers, now);
    s.(fd := s.fd.(pending := false),
       batch := s.timers[..k],
       timers := s.timers[k..],
       active := Without(s.active, s.timers[..k]),
       calling := true, canceling := {},
       next := 0, batchTime := now, batchNo := s.batchNo + 1)
  }

  function Addresses(es: seq<Entry>): set<Address> {
    set e | e in es :: e.timer
  }

  function Without(active: set<TimerId>, es: seq<Entry>): set<TimerId> {
    set id | id in active && id.timer !in Addresses(es)
  }

  /** The loop `it.second->run()`: one callback.  What the callback does are separate steps. */
  function NextRun(s: State): State {
    if !s.calling || s.next >= |s.batch| || s.batch[s.next].timer !in s.heap then s else
    var t := s.heap[s.batch[s.next].timer];
    s.(next := s.next + 1,
       runs := s.runs + [Run(t.sequence, t.repeat, t.delta, t.expiration, s.batchTime, s.batchNo)])
  }

  /** One iteration of reset(): restart or delete the first timer of the batch. */
  function ResetOne(s: State): State
    requires s.batch != []
  {
    var a := s.batch[0].timer;
    if a !in s.heap then Popped(s)
    else if s.heap[a].repeat && TimerId(a, s.heap[a].sequence) !in s.canceling then
      Inserted(Restarted(Popped(s), a), a)
    else
      Deleted(Popped(s), a)
  }

  function ResetAll(s: State): State
    decreases |s.batch|
  {
    if s.batch == [] then s else ResetAll(ResetOne(s))
  }

  /** The end of reset(): arm for the earliest timer, if its expiration is a valid Timestamp. */
  function Rearmed(s: State, clock: int): State {
    if s.timers != [] && s.timers[0].when > 0 then s.(fd := Arm(s.timers[0].when, clock)) else s
  }

  function ReadEnded(s: State, clock: int): State {
    if !s.calling || s.next != |s.batch| then s
    else Rearmed(ResetAll(s.(calling := false, next := 0)), clock)
  }

  /** The kernel's one shot. */
  function Fired(s: State, clock: int): State {
    if s.fd.armed && s.fd.deadline <= clock then s.(fd := s.fd.(pending := true, armed := false)) else s
  }

  function Step(s: State, op: Op): State {
    match op
    case New(a, when, repeat, delta) => Allocated(s, a, when, repeat, delta)
    case AddInLoop(a, clock) => AddedInLoop(s, a, clock)
    case CancelInLoop(id) => CancelledInLoop(s, id)
    case Fire(clock) => Fired(s, clock)
    case BeginRead(now) => ReadBegun(s, now)
    case RunNext => NextRun(s)
    case EndRead(clock) => ReadEnded(s, clock)
  }

  function Steps(s: State, ops: seq<Op>): State
    decreases |ops|
  {
    if ops == [] then s else Steps(Step(s, ops[0]), ops[1..])
  }

  // ---- The two indices and who owns each timer ---------------------------------------------------

  /** Timer `a` is live and listed in `es` under its own expiration. */
  ghost predicate In(s: State, es: seq<Entry>, a: Address) {
    a in s.heap && Entry(s.heap[a].expiration, a) in es
  }

  /** Every entry refers to a live timer and carries that timer's expiration. */
  ghost predicate Listed(s: State, es: seq<Entry>) {
    && Sorted(es)
    && forall e | e in es :: e.timer in s.heap && s.heap[e.timer].expiration == e.when
  }

  /** activeTimers_ and timers_ index the same timers. */
  ghost predicate Agree(s: State) {
    && (forall id | id in s.active :: In(s, s.timers, id.timer) && s.heap[id.timer].sequence == id.sequence)
    && (forall a | In(s, s.timers, a) :: TimerId(a, s.heap[a].sequence) in s.active)
  }

  /** Each undeleted timer has exactly one owner: a posted functor, the queue, or the batch. */
  ghost predicate Owned(s: State) {
    && s.posted <= s.heap.Keys
    && (forall a | a in s.heap :: a in s.posted || In(s, s.timers, a) || In(s, s.batch, a))
    && (forall a | a in s.posted :: !In(s, s.timers, a) && !In(s, s.batch, a))
    && (forall a | In(s, s.timers, a) :: !In(s, s.batch, a))
  }

  /** Sequence numbers identify timers. */
  ghost predicate Numbered(s: State) {
    && (forall a | a in s.heap :: s.heap[a].sequence <= s.created)
    && (forall a, b | a in s.heap && b in s.heap && s.heap[a].sequence == s.heap[b].sequence :: a == b)
  }

  ghost predicate Structure(s: State) {
    Listed(s, s.timers) && Listed(s, s.batch) && Agree(s) && Owned(s) && Numbered(s)
  }

  ghost predicate Inv(s: State) {
    && Structure(s)
    && s.next <= |s.batch|
    && (!s.calling ==> s.batch == [] && s.next == 0)
  }

  /** `Structure` but for timer `a`, which nothing owns. */
  ghost predicate StructureBut(s: State, a: Address) {
    && Listed(s, s.timers) && Listed(s, s.batch) && Agree(s) && Numbered(s)
    && a in s.heap && a !in s.posted && !In(s, s.timers, a) && !In(s, s.batch, a)
    && s.posted <= s.heap.Keys
    && (forall b | b in s.heap && b != a :: b in s.posted || In(s, s.timers, b) || In(s, s.batch, b))
    && (forall b | b in s.posted :: !In(s, s.timers, b) && !In(s, s.batch, b))
    && (forall b | In(s, s.timers, b) :: !In(s, s.batch, b))
  }

  lemma InsertedKeepsStructure(s: State, a: Address)
    requires StructureBut(s, a)
    ensures Structure(Inserted(s, a))
  {
    InsertSorted(s.timers, Entry(s.heap[a].expiration, a));
    var r := Inserted(s, a);
    assert forall b :: In(r, r.timers, b) <==> In(s, s.timers, b) || b == a;
    assert forall b :: In(r, r.batch, b) <==> In(s, s.batch, b);
  }

  /** `Structure` speaks only of the heap, the two indices, the batch and the posted functors. */
  lemma StructureFrame(s: State, r: State)
    requires Structure(s)
    requires r.heap == s.heap && r.created == s.created && r.posted == s.posted
    requires r.timers == s.timers && r.active == s.active && r.batch == s.batch
    ensures Structure(r)
  {
    assert forall b :: In(r, r.timers, b) <==> In(s, s.timers, b);
    assert forall b :: In(r, r.batch, b) <==> In(s, s.batch, b);
  }

  lemma AllocatedKeepsInv(s: State, a: Address, when: int, repeat: bool, delta: nat)
    requires Inv(s)
    ensures Inv(Allocated(s, a, when, repeat, delta))
  {
    var r := Allocated(s, a, when, repeat, delta);
    if a != 0 && a !in s.heap {
      AllocatedKeepsNumbered(s, a, when, repeat, delta);
      AllocatedKeepsIndices(s, a, when, repeat, delta);
      hide Numbered, Listed, Agree;
    }
  }

  lemma AllocatedKeepsIndices(s: State, a: Address, when: int, repeat: bool, delta: nat)
    requires Listed(s, s.timers) && Listed(s, s.batch) && Agree(s) && a !in s.heap
    ensures var r := Allocated(s, a, when, repeat, delta);
      && Listed(r, r.timers) && Listed(r, r.batch) && Agree(r)
      && (forall b :: In(r, r.timers, b) <==> In(s, s.timers, b))
      && (forall b :: In(r, r.batch, b) <==> In(s, s.batch, b))
  {
  }

  lemma AllocatedKeepsNumbered(s: State, a: Address, when: int, repeat: bool, delta: nat)
    requires Numbered(s) && a !in s.heap
    ensures Numbered(Allocated(s, a, when, repeat, delta))
  {
  }

  lemma AddedInLoopKeepsInv(s: State, a: Address, clock: int)
    requires Inv(s)
    ensures Inv(AddedInLoop(s, a, clock))
  {
    if a in s.posted {
      var s' := s.(posted := s.posted - {a});
      UnpostedIsUnowned(s, a);
      InsertedKeepsStructure(s', a);
      StructureFrame(Inserted(s', a), AddedInLoop(s, a, clock));
    }
  }

  lemma UnpostedIsUnowned(s: State, a: Address)
    requires Structure(s) && a in s.posted
    ensures StructureBut(s.(posted := s.posted - {a}), a)
  {
    var s' := s.(posted := s.posted - {a});
    assert forall b :: In(s', s'.timers, b) <==> In(s, s.timers, b);
    assert forall b :: In(s', s'.batch, b) <==> In(s, s.batch, b);
  }

  /** Deleting a timer that the queue has let go of. */
  lemma DeletedKeepsStructure(s: State, a: Address)
    requires StructureBut(s, a)
    ensures Structure(Deleted(s, a))
  {
    var r := Deleted(s, a);
    assert forall b :: In(r, r.timers, b) <==> In(s, s.timers, b);
    assert forall b :: In(r, r.batch, b) <==> In(s, s.batch, b);
    forall e | e in s.timers || e in s.batch ensures e.timer != a {
      assert e == Entry(s.heap[e.timer].expiration, e.timer);
    }
  }

  lemma ErasedIsUnowned(s: State, id: TimerId)
    requires Structure(s) && id in s.active
    ensures StructureBut(Unlisted(s, id), id.timer)
  {
    var r := Unlisted(s, id);
    EraseSorted(s.timers, Entry(s.heap[id.timer].expiration, id.timer));
    assert forall b :: In(r, r.timers, b) <==> In(s, s.timers, b) && b != id.timer;
    assert forall b :: In(r, r.batch, b) <==> In(s, s.batch, b);
  }

  lemma CancelledInLoopKeepsInv(s: State, id: TimerId)
    requires Inv(s)
    ensures Inv(CancelledInLoop(s, id))
  {
    if id in s.active {
      ErasedIsUnowned(s, id);
      DeletedKeepsStructure(Unlisted(s, id), id.timer);
    } else {
      StructureFrame(s, CancelledInLoop(s, id));
    }
  }

  lemma PrefixesSorted(es: seq<Entry>, k: nat)
    requires Sorted(es) && k <= |es|
    ensures Sorted(es[..k]) && Sorted(es[k..])
    ensures forall e, f | e in es[..k] && f in es[k..] :: Less(e, f)
    ensures forall e :: e in es <==> e in es[..k] || e in es[k..]
  {
    assert es == es[..k] + es[k..];
    forall e, f | e in es[..k] && f in es[k..] ensures Less(e, f) {
      var i :| 0 <= i < k && es[..k][i] == e;
      var j :| 0 <= j < |es| - k && es[k..][j] == f;
      assert es[i] == e && es[k + j] == f;
    }
  }

  /** getExpired moves the due timers from both indices into the batch. */
  lemma ReadBegunKeepsInv(s: State, now: int)
    requires Inv(s)
    ensures Inv(ReadBegun(s, now))
  {
    if !s.calling {
      var r := ReadBegun(s, now);
      PrefixesSorted(s.timers, Due(s.timers, now));
      assert forall b :: In(s, s.timers, b) <==> In(r, r.timers, b) || In(r, r.batch, b);
      assert forall b | In(r, r.timers, b) :: !In(r, r.batch, b);
      ActiveAfterExpiry(s, now);
    }
  }

  lemma ActiveAfterExpiry(s: State, now: int)
    requires Inv(s) && !s.calling
    ensures Agree(ReadBegun(s, now))
  {
    var r := ReadBegun(s, now);
    PrefixesSorted(s.timers, Due(s.timers, now));
    forall b | In(s, s.timers, b) ensures b in Addresses(r.batch) <==> In(r, r.batch, b) {
      if b in Addresses(r.batch) {
        var e :| e in r.batch && e.timer == b;
        assert e in s.timers;
      }
      if In(r, r.batch, b) {
        assert Entry(r.heap[b].expiration, b) in r.batch;
      }
    }
    assert forall b :: In(s, s.timers, b) <==> In(r, r.timers, b) || In(r, r.batch, b);
    assert forall b | In(r, r.timers, b) :: !In(r, r.batch, b);
  }

  lemma NextRunKeepsInv(s: State)
    requires Inv(s)
    ensures Inv(NextRun(s))
  {
    StructureFrame(s, NextRun(s));
  }

  /** The first timer of the batch, taken out of it. */
  lemma PoppedIsUnowned(s: State)
    requires Structure(s) && s.batch != []
    ensures StructureBut(Popped(s), s.batch[0].timer)
  {
    var e := s.batch[0];
    var r := Popped(s);
    PrefixesSorted(s.batch, 1);
    assert e in s.batch && In(s, s.batch, e.timer);
    assert e in s.batch[..1];
    assert forall b :: In(r, r.timers, b) <==> In(s, s.timers, b);
    assert forall b :: In(r, r.batch, b) <==> In(s, s.batch, b) && b != e.timer;
  }

  /** Timer::restart on a timer no index lists. */
  lemma RestartedIsUnowned(s: State, a: Address)
    requires StructureBut(s, a)
    ensures StructureBut(Restarted(s, a), a)
  {
    var r := Restarted(s, a);
    forall e | e in s.timers || e in s.batch ensures e.timer != a {
      assert e == Entry(s.heap[e.timer].expiration, e.timer);
    }
    assert forall b :: In(r, r.timers, b) <==> In(s, s.timers, b);
    assert forall b :: In(r, r.batch, b) <==> In(s, s.batch, b);
  }

  lemma ResetOneKeepsStructure(s: State)
    requires Structure(s) && s.batch != []
    ensures Structure(ResetOne(s))
  {
    PoppedIsUnowned(s);
    var a := s.batch[0].timer;
    if s.heap[a].repeat && TimerId(a, s.heap[a].sequence) !in s.canceling {
      RestartedIsUnowned(Popped(s), a);
      InsertedKeepsStructure(Restarted(Popped(s), a), a);
    } else {
      DeletedKeepsStructure(Popped(s), a);
    }
  }

  lemma {:induction false} ResetAllKeepsStructure(s: State)
    requires Structure(s)
    ensures Structure(ResetAll(s)) && ResetAll(s).batch == []
    ensures ResetAll(s) == s.(heap := ResetAll(s).heap, timers := ResetAll(s).timers,
                              active := ResetAll(s).active, batch := [])
    decreases |s.batch|
  {
    if s.batch != [] {
      ResetOneKeepsStructure(s);
      ResetAllKeepsStructure(ResetOne(s));
    }
  }

  lemma ReadEndedKeepsInv(s: State, clock: int)
    requires Inv(s)
    ensures Inv(ReadEnded(s, clock))
  {
    if s.calling && s.next == |s.batch| {
      var s' := s.(calling := false, next := 0);
      StructureFrame(s, s');
      ResetAllKeepsStructure(s');
      StructureFrame(ResetAll(s'), ReadEnded(s, clock));
    }
  }

  lemma StepKeepsInv(s: State, op: Op)
    requires Inv(s)
    ensures Inv(Step(s, op))
  {
    match op
    case New(a, when, repeat, delta) => AllocatedKeepsInv(s, a, when, repeat, delta);
    case AddInLoop(a, clock) => AddedInLoopKeepsInv(s, a, clock);
    case CancelInLoop(id) => CancelledInLoopKeepsInv(s, id);
    case Fire(_) => StructureFrame(s, Step(s, op));
    case BeginRead(now) => ReadBegunKeepsInv(s, now);
    case RunNext => NextRunKeepsInv(s);
    case EndRead(clock) => ReadEndedKeepsInv(s, clock);
  }

  /** Every run keeps the two indices, the batch and the posted functors in agreement. */
  lemma {:induction false} StepsKeepInv(s: State, ops: seq<Op>)
    requires Inv(s)
    ensures Inv(Steps(s, ops))
    decreases |ops|
  {
    if ops != [] {
      StepKeepsInv(s, ops[0]);
      StepsKeepInv(Step(s, ops[0]), ops[1..]);
    }
  }

  function Ids(h: map<Address, Timer>, es: seq<Entry>): (r: set<TimerId>)
    requires forall e | e in es :: e.timer in h
    ensures forall id :: id in r <==> exists e :: e in es && id == TimerId(e.timer, h[e.timer].sequence)
  {
    set e | e in es :: TimerId(e.timer, h[e.timer].sequence)
  }

  lemma ListedTail(s: State, es: seq<Entry>)
    requires Listed(s, es) && es != []
    ensures Listed(s, es[1..]) && es[0].timer in s.heap
    ensures forall e | e in es[1..] :: e.timer != es[0].timer
  {
    assert es == [es[0]] + es[1..];
    forall e | e in es[1..] ensures e.timer != es[0].timer {
      assert Less(es[0], e) && e in es && es[0] in es;
    }
  }

  lemma {:induction false} IdsSize(s: State, es: seq<Entry>)
    requires Listed(s, es)
    ensures |Ids(s.heap, es)| == |es|
  {
    if es != [] {
      var rest := es[1..];
      var id := TimerId(es[0].timer, s.heap[es[0].timer].sequence);
      ListedTail(s, es);
      IdsSize(s, rest);
      hide Listed;
      assert es == [es[0]] + rest;
      assert Ids(s.heap, es) == Ids(s.heap, rest) + {id};
      assert id !in Ids(s.heap, rest);
    }
  }

  /** The assertion repeated through TimerQueue.cpp: the two indices have the same size. */
  lemma SizesAgree(s: State)
    requires Listed(s, s.timers) && Agree(s)
    ensures |s.timers| == |s.active|
  {
    IdsSize(s, s.timers);
    forall id | id in s.active ensures id in Ids(s.heap, s.timers) {
      assert Entry(s.heap[id.timer].expiration, id.timer) in s.timers;
    }
    assert forall e | e in s.timers :: In(s, s.timers, e.timer);
    assert s.active == Ids(s.heap, s.timers);
  }

  // ---- Cancellation --------------------------------------------------------------------------------

  function Count(runs: seq<Run>, q: nat): nat {
    if runs == [] then 0
    else Count(runs[..|runs| - 1], q) + if runs[|runs| - 1].sequence == q then 1 else 0
  }

  /** 1 if the timer numbered `q` is in the running batch and has not run yet, else 0. */
  ghost function Awaiting(s: State, q: nat): nat {
    if exists i :: s.next <= i < |s.batch| && s.batch[i].timer in s.heap && s.heap[s.batch[i].timer].sequence == q
    then 1 else 0
  }

  /** No index and no posted functor holds a timer numbered `q`, and the batch holds it only marked. */
  ghost predicate Dead(s: State, q: nat) {
    && q <= s.created
    && forall a | a in s.heap && s.heap[a].sequence == q ::
         In(s, s.batch, a) && TimerId(a, q) in s.canceling
  }

  /** cancelInLoop on a TimerId whose addTimerInLoop has run: from then on the timer is dead. */
  lemma CancelKills(s: State, id: TimerId)
    requires Inv(s) && id.sequence <= s.created
    requires forall a | a in s.heap && s.heap[a].sequence == id.sequence :: a == id.timer && a !in s.posted
    ensures Dead(CancelledInLoop(s, id), id.sequence)
    ensures CancelledInLoop(s, id).runs == s.runs
  {
  }

  lemma DeadThroughReset(s: State, q: nat)
    requires Structure(s) && Dead(s, q)
    ensures Dead(ResetAll(s), q)
    ensures forall a | a in ResetAll(s).heap :: ResetAll(s).heap[a].sequence != q
    decreases |s.batch|
  {
    if s.batch != [] {
      ResetOneKeepsStructure(s);
      DeadThroughResetOne(s, q);
      DeadThroughReset(ResetOne(s), q);
    }
  }

  lemma DeadThroughResetOne(s: State, q: nat)
    requires Structure(s) && Dead(s, q) && s.batch != []
    ensures Dead(ResetOne(s), q)
  {
    var r := ResetOne(s);
    PoppedIsUnowned(s);
    assert s.batch[0] in s.batch;
    assert s.batch == [s.batch[0]] + r.batch;
    forall a | a in r.heap && r.heap[a].sequence == q ensures In(r, r.batch, a) {
      assert In(s, s.batch, a);
    }
  }

  lemma DeadFrame(s: State, r: State, q: nat)
    requires Dead(s, q) && s.created <= r.created && s.canceling <= r.canceling
    requires r.batch == s.batch && r.next == s.next && r.runs == s.runs
    requires forall a | a in r.heap && r.heap[a].sequence == q :: a in s.heap && r.heap[a] == s.heap[a]
    ensures Dead(r, q)
  {
    assert forall b | b in r.heap && r.heap[b].sequence == q :: In(s, s.batch, b);
  }

  lemma DeadStays(s: State, q: nat, op: Op)
    requires Inv(s) && Dead(s, q)
    ensures Dead(Step(s, op), q)
    ensures Count(Step(s, op).runs, q) + Awaiting(Step(s, op), q) <= Count(s.runs, q) + Awaiting(s, q)
  {
    hide Inv, Awaiting;
    match op
    case BeginRead(now) => DeadThroughRead(s, q, now);
    case RunNext => DeadRunsOnce(s, q);
    case EndRead(clock) => DeadThroughEnd(s, q, clock);
    case New(a, when, repeat, delta) =>
      DeadFrame(s, Allocated(s, a, when, repeat, delta), q);
      AwaitingFrame(s, Allocated(s, a, when, repeat, delta), q);
    case AddInLoop(a, clock) =>
      DeadFrame(s, AddedInLoop(s, a, clock), q);
      AwaitingFrame(s, AddedInLoop(s, a, clock), q);
    case CancelInLoop(id) =>
      DeadFrame(s, CancelledInLoop(s, id), q);
      AwaitingFrame(s, CancelledInLoop(s, id), q);
    case Fire(_) =>
      DeadFrame(s, Step(s, op), q);
      AwaitingFrame(s, Step(s, op), q);
  }

  lemma AwaitingFrame(s: State, r: State, q: nat)
    requires r.batch == s.batch && r.next == s.next
    requires forall a | a in r.heap && r.heap[a].sequence == q :: a in s.heap && r.heap[a] == s.heap[a]
    ensures Awaiting(r, q) <= Awaiting(s, q)
  {
  }

  lemma DeadThroughRead(s: State, q: nat, now: int)
    requires Inv(s) && Dead(s, q)
    ensures var r := ReadBegun(s, now);
            Dead(r, q) && r.runs == s.runs && Awaiting(r, q) <= Awaiting(s, q)
  {
    if !s.calling {
      assert s.batch == [];
      assert forall b | b in s.heap && s.heap[b].sequence == q :: In(s, s.batch, b);
    }
  }

  lemma DeadThroughEnd(s: State, q: nat, clock: int)
    requires Inv(s) && Dead(s, q)
    ensures var r := ReadEnded(s, clock);
            Dead(r, q) && r.runs == s.runs && Awaiting(r, q) <= Awaiting(s, q)
  {
    if s.calling && s.next == |s.batch| {
      var s' := s.(calling := false, next := 0);
      StructureFrame(s, s');
      assert forall b :: In(s, s.batch, b) ==> In(s', s'.batch, b);
      DeadThroughReset(s', q);
      ResetAllKeepsStructure(s');
    }
  }

  lemma DeadRunsOnce(s: State, q: nat)
    requires Inv(s) && Dead(s, q)
    ensures Dead(NextRun(s), q)
    ensures Count(NextRun(s).runs, q) + Awaiting(NextRun(s), q) <= Count(s.runs, q) + Awaiting(s, q)
  {
    var r := NextRun(s);
    assert forall b :: In(s, s.batch, b) ==> In(r, r.batch, b);
    if r != s {
      assert r.runs[..|s.runs|] == s.runs;
      var a := s.batch[s.next].timer;
      if s.heap[a].sequence == q {
        forall i | r.next <= i < |r.batch| ensures s.heap[s.batch[i].timer].sequence != q {
          assert Less(s.batch[s.next], s.batch[i]);
          assert s.batch[i] in s.batch && s.batch[s.next] in s.batch;
        }
      }
    }
  }

  /** After its cancellation a timer runs at most once more, and only if it was waiting in the
      running batch; this holds of every continuation. */
  lemma {:induction false} DeadRunsAtMostOnce(s: State, q: nat, ops: seq<Op>)
    requires Inv(s) && Dead(s, q)
    ensures Dead(Steps(s, ops), q)
    ensures Count(Steps(s, ops).runs, q) + Awaiting(Steps(s, ops), q) <= Count(s.runs, q) + Awaiting(s, q)
    decreases |ops|
  {
    if ops != [] {
      DeadStays(s, q, ops[0]);
      StepKeepsInv(s, ops[0]);
      DeadRunsAtMostOnce(Step(s, ops[0]), q, ops[1..]);
    }
  }

  /** The promise of cancel: given that the add was processed first, whatever happens later, the
      timer runs at most once more, and never again once no batch is running. */
  lemma CancelIsFinal(s: State, id: TimerId, before: seq<Op>, after: seq<Op>)
    requires Inv(s) && id.sequence <= s.created
    requires forall a | a in s.heap && s.heap[a].sequence == id.sequence :: a == id.timer && a !in s.posted
    ensures var s1 := Steps(CancelledInLoop(s, id), before);
            var s2 := Steps(s1, after);
            && Count(s1.runs, id.sequence) <= Count(s.runs, id.sequence) + 1
            && (!s.calling ==> Count(s1.runs, id.sequence) == Count(s.runs, id.sequence))
            && (!s1.calling ==> Count(s2.runs, id.sequence) == Count(s1.runs, id.sequence))
  {
    var s0 := CancelledInLoop(s, id);
    CancelKills(s, id);
    CancelledInLoopKeepsInv(s, id);
    DeadRunsAtMostOnce(s0, id.sequence, before);
    StepsKeepInv(s0, before);
    DeadRunsAtMostOnce(Steps(s0, before), id.sequence, after);
    RunsOnlyGrow(s0, id.sequence, before);
    RunsOnlyGrow(Steps(s0, before), id.sequence, after);
  }

  lemma EndRunsNothing(s: State, clock: int)
    requires Inv(s)
    ensures ReadEnded(s, clock).runs == s.runs
  {
    if s.calling && s.next == |s.batch| {
      var s' := s.(calling := false, next := 0);
      StructureFrame(s, s');
      hide Structure;
      ResetAllKeepsStructure(s');
    }
  }

  lemma OnlyNextRunRuns(s: State, op: Op)
    requires Inv(s)
    ensures Step(s, op).runs == (if op.RunNext? then NextRun(s).runs else s.runs)
  {
    hide Inv, ReadEnded, NextRun;
    if op.EndRead? { EndRunsNothing(s, op.clock); }
  }

  lemma {:induction false} RunsOnlyGrow(s: State, q: nat, ops: seq<Op>)
    requires Inv(s)
    ensures Count(s.runs, q) <= Count(Steps(s, ops).runs, q)
    decreases |ops|
  {
    if ops != [] {
      OnlyNextRunRuns(s, ops[0]);
      var r := NextRun(s);
      if r != s { assert r.runs[..|s.runs|] == s.runs; }
      StepKeepsInv(s, ops[0]);
      RunsOnlyGrow(Step(s, ops[0]), q, ops[1..]);
    }
  }

  // ---- A stale TimerId ---------------------------------------------------------------------------

  /** The timer the id was issued for has been deleted; its address may belong to another by now. */
  ghost predicate Stale(s: State, id: TimerId) {
    && id.sequence <= s.created
    && forall a | a in s.heap :: s.heap[a].sequence != id.sequence
  }

  /** `t` is `s`, except that `t` may have recorded the cancellation of `id`. */
  ghost predicate SameBut(s: State, t: State, id: TimerId) {
    && t == s.(canceling := t.canceling)
    && s.canceling <= t.canceling <= s.canceling + {id}
  }

  lemma StaleThroughResetOne(s: State, t: State, id: TimerId)
    requires s.batch != [] && s.batch[0].timer in s.heap && Stale(s, id) && SameBut(s, t, id)
    ensures Stale(ResetOne(s), id) && SameBut(ResetOne(s), ResetOne(t), id)
  {
  }

  lemma {:induction false} StaleThroughReset(s: State, t: State, id: TimerId)
    requires Structure(s) && Stale(s, id) && SameBut(s, t, id)
    ensures Stale(ResetAll(s), id) && SameBut(ResetAll(s), ResetAll(t), id)
    decreases |s.batch|
  {
    if s.batch != [] {
      ResetOneKeepsStructure(s);
      assert s.batch[0] in s.batch;
      StaleThroughResetOne(s, t, id);
      StaleThroughReset(ResetOne(s), ResetOne(t), id);
    }
  }

  lemma StaleThroughEnd(s: State, t: State, id: TimerId, clock: int)
    requires Inv(s) && Stale(s, id) && SameBut(s, t, id)
    ensures Stale(ReadEnded(s, clock), id) && SameBut(ReadEnded(s, clock), ReadEnded(t, clock), id)
  {
    if s.calling && s.next == |s.batch| {
      var s' := s.(calling := false, next := 0);
      StructureFrame(s, s');
      StaleThroughReset(s', t.(calling := false, next := 0), id);
    }
  }

  lemma StaleThroughAdd(s: State, t: State, id: TimerId, a: Address, clock: int)
    requires Stale(s, id) && SameBut(s, t, id)
    ensures Stale(AddedInLoop(s, a, clock), id) && SameBut(AddedInLoop(s, a, clock), AddedInLoop(t, a, clock), id)
  {
  }

  lemma StaleThroughCancel(s: State, t: State, id: TimerId, other: TimerId)
    requires Stale(s, id) && SameBut(s, t, id)
    ensures Stale(CancelledInLoop(s, other), id) && SameBut(CancelledInLoop(s, other), CancelledInLoop(t, other), id)
  {
  }

  lemma StaleThroughRead(s: State, t: State, id: TimerId, now: int)
    requires Stale(s, id) && SameBut(s, t, id)
    ensures Stale(ReadBegun(s, now), id) && SameBut(ReadBegun(s, now), ReadBegun(t, now), id)
    ensures Stale(NextRun(s), id) && SameBut(NextRun(s), NextRun(t), id)
  {
  }

  lemma StaleStays(s: State, t: State, id: TimerId, op: Op)
    requires Inv(s) && Stale(s, id) && SameBut(s, t, id)
    ensures Stale(Step(s, op), id) && SameBut(Step(s, op), Step(t, op), id)
  {
    hide Inv, AddedInLoop, CancelledInLoop, ReadBegun, NextRun, ReadEnded;
    match op
    case EndRead(clock) => StaleThroughEnd(s, t, id, clock);
    case AddInLoop(a, clock) => StaleThroughAdd(s, t, id, a, clock);
    case CancelInLoop(other) => StaleThroughCancel(s, t, id, other);
    case BeginRead(now) => StaleThroughRead(s, t, id, now);
    case RunNext => StaleThroughRead(s, t, id, 0);
    case New(_, _, _, _) =>
    case Fire(_) =>
  }

  lemma {:induction false} StaleForever(s: State, t: State, id: TimerId, ops: seq<Op>)
    requires Inv(s) && Stale(s, id) && SameBut(s, t, id)
    ensures Stale(Steps(s, ops), id) && SameBut(Steps(s, ops), Steps(t, ops), id)
    decreases |ops|
  {
    if ops != [] {
      StaleStays(s, t, id, ops[0]);
      StepKeepsInv(s, ops[0]);
      StaleForever(Step(s, ops[0]), Step(t, ops[0]), id, ops[1..]);
    }
  }

  /** Cancelling a stale id changes nothing that can be observed, whatever runs afterwards, even
      when the address in it has been reused: the same callbacks run, the same timers stay. */
  lemma StaleCancelIsInert(s: State, id: TimerId, ops: seq<Op>)
    requires Inv(s) && Stale(s, id)
    ensures SameBut(Steps(s, ops), Steps(CancelledInLoop(s, id), ops), id)
    ensures Steps(CancelledInLoop(s, id), ops).runs == Steps(s, ops).runs
  {
    StaleForever(s, CancelledInLoop(s, id), id, ops);
  }

  // ---- Deadlines ---------------------------------------------------------------------------------

  /** The timerfd will wake the loop for a timer due at `when`: at worst 100us after it was armed. */
  predicate WakesBy(fd: TimerFd, when: int) {
    fd.pending || (fd.armed && (fd.deadline <= when || fd.deadline <= fd.armedAt + 100))
  }

  /** Outside handleRead the timerfd covers the earliest timer.  While callbacks run it need not:
      then the earliest timer is one the batch left behind, and reset() will arm for it. */
  ghost predicate Covered(s: State) {
    && (s.calling ==> 0 < s.batchTime)
    && (s.timers != [] ==> WakesBy(s.fd, s.timers[0].when) || (s.calling && s.batchTime <= s.timers[0].when))
  }

  /** Every handleRead sees a clock after the epoch. */
  predicate ClockPositive(op: Op) {
    op.BeginRead? ==> 0 < op.now
  }

  /** During reset(): what the batch restarts is due no earlier than the batch's time. */
  lemma {:induction false} CoveredThroughReset(s: State)
    requires Structure(s)
    requires s.timers != [] ==> WakesBy(s.fd, s.timers[0].when) || s.batchTime <= s.timers[0].when
    ensures var r := ResetAll(s);
            r.timers != [] ==> WakesBy(s.fd, r.timers[0].when) || s.batchTime <= r.timers[0].when
    decreases |s.batch|
  {
    if s.batch != [] {
      ResetOneKeepsStructure(s);
      CoveredThroughResetOne(s);
      CoveredThroughReset(ResetOne(s));
    }
  }

  lemma CoveredThroughResetOne(s: State)
    requires Structure(s) && s.batch != []
    requires s.timers != [] ==> WakesBy(s.fd, s.timers[0].when) || s.batchTime <= s.timers[0].when
    ensures var r := ResetOne(s);
            r.timers != [] ==> WakesBy(s.fd, r.timers[0].when) || s.batchTime <= r.timers[0].when
  {
    PoppedIsUnowned(s);
    var a := s.batch[0].timer;
    if s.heap[a].repeat && TimerId(a, s.heap[a].sequence) !in s.canceling {
      RestartedIsUnowned(Popped(s), a);
      InsertSorted(s.timers, Entry(s.batchTime + s.heap[a].delta, a));
    }
  }

  lemma AddedInLoopKeepsCovered(s: State, a: Address, clock: int)
    requires Inv(s) && Covered(s)
    ensures Covered(AddedInLoop(s, a, clock))
  {
    if a in s.posted { InsertSorted(s.timers, Entry(s.heap[a].expiration, a)); }
  }

  lemma CancelledInLoopKeepsCovered(s: State, id: TimerId)
    requires Inv(s) && Covered(s)
    ensures Covered(CancelledInLoop(s, id))
  {
    if id in s.active {
      var r := Erase(s.timers, Entry(s.heap[id.timer].expiration, id.timer));
      if r != [] { assert r[0] in s.timers; }
    }
  }

  lemma ReadEndedKeepsCovered(s: State, clock: int)
    requires Inv(s) && Covered(s)
    ensures Covered(ReadEnded(s, clock))
  {
    if s.calling && s.next == |s.batch| {
      var s' := s.(calling := false, next := 0);
      StructureFrame(s, s');
      CoveredThroughReset(s');
      ResetAllKeepsStructure(s');
    }
  }

  lemma StepKeepsCovered(s: State, op: Op)
    requires Inv(s) && Covered(s) && ClockPositive(op)
    ensures Covered(Step(s, op))
  {
    match op
    case AddInLoop(a, clock) => AddedInLoopKeepsCovered(s, a, clock);
    case CancelInLoop(id) => CancelledInLoopKeepsCovered(s, id);
    case EndRead(clock) => ReadEndedKeepsCovered(s, clock);
    case New(_, _, _, _) =>
    case Fire(_) =>
    case BeginRead(_) =>
    case RunNext =>
  }

  /** The timerfd is never left unarmed or armed too late, over every run with a positive clock. */
  lemma {:induction false} AlwaysCovered(s: State, ops: seq<Op>)
    requires Inv(s) && Covered(s)
    requires forall op | op in ops :: ClockPositive(op)
    ensures Covered(Steps(s, ops))
    ensures var r := Steps(s, ops); !r.calling && r.timers != [] ==> WakesBy(r.fd, r.timers[0].when)
    decreases |ops|
  {
    if ops != [] {
      StepKeepsCovered(s, ops[0]);
      StepKeepsInv(s, ops[0]);
      AlwaysCovered(Step(s, ops[0]), ops[1..]);
    }
  }

  /** reset() will restart the timer of this entry of the batch. */
  predicate Restarts(s: State, e: Entry) {
    e.timer in s.heap && s.heap[e.timer].repeat && TimerId(e.timer, s.heap[e.timer].sequence) !in s.canceling
  }

  /** After reset() a timer will be due at `when`: it is queued for then, or restarted with that. */
  ghost predicate ComesDue(s: State, when: int) {
    || (exists e :: e in s.timers && e.when == when)
    || (exists e :: e in s.batch && Restarts(s, e) && s.batchTime + s.heap[e.timer].delta == when)
  }

  /** reset()'s first iteration leaves the other timers of the batch alone. */
  lemma OthersStay(s: State, e: Entry)
    requires Structure(s) && s.batch != [] && e in s.batch[1..]
    ensures var r := ResetOne(s);
      e in s.batch && e.timer in s.heap && (Restarts(r, e) <==> Restarts(s, e)) && e.timer in r.heap
        && r.heap[e.timer].delta == s.heap[e.timer].delta
  {
    var first := s.batch[0];
    assert first in s.batch;
    var i :| 0 <= i < |s.batch| - 1 && s.batch[1..][i] == e;
    assert s.batch[i + 1] == e && Less(first, e);
    assert first.when == s.heap[first.timer].expiration && e.when == s.heap[e.timer].expiration;
    assert e.timer != first.timer;
    hide Insert, Less, Listed, Agree, Owned, Numbered, Sorted;
  }

  lemma FirstGoes(s: State)
    requires Structure(s) && s.batch != []
    ensures var r := ResetOne(s);
      && s.batch[0].timer in s.heap && r.batch == s.batch[1..] && r.batchTime == s.batchTime
      && forall e :: e in r.timers <==>
           e in s.timers
           || (Restarts(s, s.batch[0])
               && e == Entry(s.batchTime + s.heap[s.batch[0].timer].delta, s.batch[0].timer))
  {
    assert s.batch[0] in s.batch;
    hide Agree, Owned, Numbered, Sorted, Less;
  }

  lemma ResetOneComesDue(s: State, when: int)
    requires Structure(s) && s.batch != []
    ensures ComesDue(ResetOne(s), when) <==> ComesDue(s, when)
  {
    StillComesDue(s, when);
    CameDue(s, when);
    hide *;
  }

  lemma StillComesDue(s: State, when: int)
    requires Structure(s) && s.batch != []
    ensures ComesDue(s, when) ==> ComesDue(ResetOne(s), when)
  {
    var r := ResetOne(s);
    FirstGoes(s);
    hide Structure, ResetOne, Restarts;
    if e :| e in s.timers && e.when == when {
      assert e in r.timers;
    } else if e :| e in s.batch && Restarts(s, e) && s.batchTime + s.heap[e.timer].delta == when {
      if e in s.batch[1..] {
        OthersStay(s, e);
      } else {
        assert e == s.batch[0] && Entry(when, e.timer) in r.timers;
      }
    }
  }

  lemma CameDue(s: State, when: int)
    requires Structure(s) && s.batch != []
    ensures ComesDue(ResetOne(s), when) ==> ComesDue(s, when)
  {
    var r := ResetOne(s);
    FirstGoes(s);
    hide Structure, ResetOne, Restarts;
    if e :| e in r.timers && e.when == when {
      assert e in s.timers || s.batch[0] in s.batch;
    } else if e :| e in r.batch && Restarts(r, e) && r.batchTime + r.heap[e.timer].delta == when {
      OthersStay(s, e);
    }
  }

  lemma {:induction false} ResetAllComesDue(s: State, when: int)
    requires Structure(s)
    ensures ComesDue(s, when) <==> exists e :: e in ResetAll(s).timers && e.when == when
    decreases |s.batch|
  {
    if s.batch != [] {
      ResetOneKeepsStructure(s);
      ResetOneComesDue(s, when);
      hide Structure, ResetOne, ComesDue;
      ResetAllComesDue(ResetOne(s), when);
    }
  }

  /** The one way reset() leaves the earliest timer uncovered: the earliest of the queued expirations and
      of the batch's time plus the intervals it restarts is not a valid Timestamp, so reset does not arm,
      and the timerfd did not cover it before. */
  lemma ResetCoversExactly(s: State, clock: int, when: int)
    requires Inv(s) && s.calling && s.next == |s.batch|
    requires ComesDue(s, when) && forall t | ComesDue(s, t) :: when <= t
    ensures var r := ReadEnded(s, clock);
            && r.timers != [] && r.timers[0].when == when
            && (WakesBy(r.fd, when) <==> when > 0 || WakesBy(s.fd, when))
  {
    var s' := s.(calling := false, next := 0);
    StructureFrame(s, s');
    ResetAllKeepsStructure(s');
    SameComesDue(s, s');
    EarliestIsFirst(s', when);
    hide ResetAll, Structure, ComesDue;
  }

  lemma SameComesDue(s: State, s': State)
    requires s' == s.(calling := false, next := 0)
    ensures forall t :: ComesDue(s', t) <==> ComesDue(s, t)
  {
    forall t ensures ComesDue(s', t) <==> ComesDue(s, t) {
      assert forall e :: Restarts(s', e) <==> Restarts(s, e);
      hide Restarts;
    }
  }

  lemma EarliestIsFirst(s: State, when: int)
    requires Structure(s) && ComesDue(s, when) && forall t | ComesDue(s, t) :: when <= t
    ensures var r := ResetAll(s); r.timers != [] && r.timers[0].when == when
  {
    ResetAllKeepsStructure(s);
    var r := ResetAll(s);
    ResetAllComesDue(s, when);
    var e :| e in r.timers && e.when == when;
    FirstIsLeast(r.timers, e);
    assert r.timers[0] in r.timers;
    ResetAllComesDue(s, r.timers[0].when);
  }

  lemma FirstIsLeast(es: seq<Entry>, e: Entry)
    requires Sorted(es) && e in es
    ensures es[0].when <= e.when
  {
    var i :| 0 <= i < |es| && es[i] == e;
    assert i > 0 ==> Less(es[0], es[i]);
  }

  /** With a clock before the epoch that does happen: the repeating timer is queued, nothing is armed. */
  lemma NegativeClockLosesTimer()
    ensures var s1 := Step(Step(EMPTY_QUEUE, New(1, -500, true, 10)), AddInLoop(1, -700));
            var s2 := Step(Step(s1, Fire(-500)), BeginRead(-400));
            var s3 := Step(Step(s2, RunNext), EndRead(-300));
            && WakesBy(s1.fd, -500)
            && s2.batch == [Entry(-500, 1)]
            && !s3.calling && s3.timers == [Entry(-390, 1)] && !WakesBy(s3.fd, -390)
  {
    var s1 := Step(Step(EMPTY_QUEUE, New(1, -500, true, 10)), AddInLoop(1, -700));
    LateBatch(s1);
    var s2 := Step(Step(s1, Fire(-500)), BeginRead(-400));
    hide Step;
    LateReset(s2);
  }

  lemma LateBatch(s1: State)
    requires s1 == Step(Step(EMPTY_QUEUE, New(1, -500, true, 10)), AddInLoop(1, -700))
    ensures s1.timers == [Entry(-500, 1)] && WakesBy(s1.fd, -500)
    ensures var s2 := Step(Step(s1, Fire(-500)), BeginRead(-400));
      && s2.batch == [Entry(-500, 1)] && s2.timers == [] && s2.calling && s2.next == 0 && s2.batchTime == -400
      && 1 in s2.heap && s2.heap[1] == Timer(-500, true, 10, 1) && s2.canceling == {} && !s2.fd.pending && !s2.fd.armed
  {
    assert Due([Entry(-500, 1)], -400) == 1;
  }

  lemma LateReset(s2: State)
    requires s2.batch == [Entry(-500, 1)] && s2.timers == [] && s2.calling && s2.next == 0 && s2.batchTime == -400
    requires 1 in s2.heap && s2.heap[1] == Timer(-500, true, 10, 1) && s2.canceling == {} && !s2.fd.pending
        && !s2.fd.armed
    ensures var s3 := Step(Step(s2, RunNext), EndRead(-300));
      !s3.calling && s3.timers == [Entry(-390, 1)] && !WakesBy(s3.fd, -390)
  {
    var s' := Step(s2, RunNext).(calling := false, next := 0);
    assert ResetOne(s').timers == [Entry(-390, 1)] && ResetOne(s').batch == [];
    assert ResetAll(s') == ResetOne(s');
  }

  // ---- What has run --------------------------------------------------------------------------------

  /** The promises about the history of callbacks. */
  ghost predicate RunsInOrder(runs: seq<Run>) {
    // no timer runs early
    && (forall r | r in runs :: r.expiration <= r.at)
    // a timer that runs again repeats, in a later batch, at least its interval later
    && (forall i, j | 0 <= i < j < |runs| && runs[i].sequence == runs[j].sequence ::
          runs[i].repeat && runs[i].batchNo < runs[j].batchNo && runs[i].at + runs[i].delta <= runs[j].at)
    // within a batch, expirations do not decrease
    && (forall i, j | 0 <= i < j < |runs| && runs[i].batchNo == runs[j].batchNo ::
          runs[i].expiration <= runs[j].expiration)
  }

  ghost predicate NeverRan(runs: seq<Run>, t: Timer) {
    forall r | r in runs :: r.sequence != t.sequence
  }

  /** Earlier runs of `t` were in batches before `batchNo` and long enough before its expiration. */
  ghost predicate Spaced(runs: seq<Run>, t: Timer, batchNo: nat) {
    forall r | r in runs && r.sequence == t.sequence ::
      r.repeat && t.repeat && r.delta == t.delta && r.batchNo < batchNo && r.at + r.delta <= t.expiration
  }

  /** `t` has run in a batch of time `at`, and never later. */
  ghost predicate RanBy(runs: seq<Run>, t: Timer, at: int) {
    forall r | r in runs && r.sequence == t.sequence ::
      r.repeat == t.repeat && r.delta == t.delta && r.at <= at
  }

  ghost predicate QueueLinked(s: State) {
    && (forall r | r in s.runs :: r.sequence <= s.created && r.batchNo <= s.batchNo)
    && (forall a | a in s.posted :: a in s.heap && NeverRan(s.runs, s.heap[a]))
    && (forall a | In(s, s.timers, a) :: Spaced(s.runs, s.heap[a], s.batchNo + 1))
  }

  ghost predicate BatchLinked(s: State) {
    && s.next <= |s.batch|
    && (forall i | 0 <= i < |s.batch| :: s.batch[i].timer in s.heap && s.batch[i].when <= s.batchTime)
    && (forall i | s.next <= i < |s.batch| :: Spaced(s.runs, s.heap[s.batch[i].timer], s.batchNo))
    && (forall i | 0 <= i < s.next :: RanBy(s.runs, s.heap[s.batch[i].timer], s.batchTime))
    && (s.next < |s.batch| ==>
          forall r | r in s.runs && r.batchNo == s.batchNo :: r.expiration <= s.batch[s.next].when)
  }

  ghost predicate History(s: State) {
    RunsInOrder(s.runs) && QueueLinked(s) && BatchLinked(s)
  }

  lemma RunsInOrderGrow(runs: seq<Run>, last: Run)
    requires RunsInOrder(runs) && last.expiration <= last.at
    requires forall r | r in runs && r.sequence == last.sequence ::
               r.repeat && r.batchNo < last.batchNo && r.at + r.delta <= last.at
    requires forall r | r in runs && r.batchNo == last.batchNo :: r.expiration <= last.expiration
    ensures RunsInOrder(runs + [last])
  {
  }

  /** Appending the run of one timer leaves what is said about any other. */
  lemma OtherTimersUnaffected(runs: seq<Run>, last: Run, t: Timer)
    requires last.sequence != t.sequence
    ensures NeverRan(runs + [last], t) == NeverRan(runs, t)
    ensures forall n :: Spaced(runs + [last], t, n) == Spaced(runs, t, n)
    ensures forall at :: RanBy(runs + [last], t, at) == RanBy(runs, t, at)
  {
    assert forall x :: x in runs + [last] <==> x in runs || x == last;
  }

  lemma OnlyNextRuns(s: State)
    requires Inv(s) && s.next < |s.batch|
    ensures var a := s.batch[s.next].timer;
            && In(s, s.batch, a) && s.heap[a].expiration == s.batch[s.next].when
            && (forall b | b in s.heap && b != a :: s.heap[b].sequence != s.heap[a].sequence)
            && (forall i | 0 <= i < |s.batch| && i != s.next :: s.batch[i].timer in s.heap && s.batch[i].timer != a)
  {
    var e := s.batch[s.next];
    assert e in s.batch;
    forall i | 0 <= i < |s.batch| && i != s.next ensures s.batch[i].timer in s.heap && s.batch[i].timer != e.timer {
      assert s.batch[i] in s.batch;
      assert Less(s.batch[i], e) || Less(e, s.batch[i]);
    }
  }

  lemma NextRunKeepsQueueLinked(s: State)
    requires Inv(s) && History(s)
    ensures QueueLinked(NextRun(s))
  {
    var r := NextRun(s);
    if r != s {
      OnlyNextRuns(s);
      var a := s.batch[s.next].timer;
      var last := r.runs[|s.runs|];
      assert forall x :: x in r.runs <==> x in s.runs || x == last;
      forall b | b in s.heap && b != a
        ensures NeverRan(r.runs, s.heap[b]) == NeverRan(s.runs, s.heap[b])
        ensures Spaced(r.runs, s.heap[b], s.batchNo + 1) == Spaced(s.runs, s.heap[b], s.batchNo + 1)
      {
        OtherTimersUnaffected(s.runs, last, s.heap[b]);
      }
      assert forall b | In(r, r.timers, b) :: In(s, s.timers, b) && b != a;
    }
  }

  lemma NextRunKeepsOrder(s: State)
    requires Inv(s) && History(s)
    ensures RunsInOrder(NextRun(s).runs)
  {
    var r := NextRun(s);
    if r != s {
      OnlyNextRuns(s);
      RunsInOrderGrow(s.runs, r.runs[|s.runs|]);
    }
  }

  lemma NextRunKeepsBatchLinked(s: State)
    requires Inv(s) && History(s)
    ensures BatchLinked(NextRun(s))
  {
    var r := NextRun(s);
    hide RunsInOrder, QueueLinked;
    if r != s {
      OnlyNextRuns(s);
      var e := s.batch[s.next];
      var last := r.runs[|s.runs|];
      assert forall x :: x in r.runs <==> x in s.runs || x == last;
      forall i | 0 <= i < |s.batch| && i != s.next
        ensures Spaced(r.runs, s.heap[s.batch[i].timer], s.batchNo) ==
            Spaced(s.runs, s.heap[s.batch[i].timer], s.batchNo)
        ensures RanBy(r.runs, s.heap[s.batch[i].timer], s.batchTime) ==
            RanBy(s.runs, s.heap[s.batch[i].timer], s.batchTime)
      {
        OtherTimersUnaffected(s.runs, last, s.heap[s.batch[i].timer]);
      }
      assert RanBy(r.runs, s.heap[e.timer], s.batchTime);
      if r.next < |r.batch| {
        assert Less(e, r.batch[r.next]);
      }
    }
  }

  lemma NextRunKeepsHistory(s: State)
    requires Inv(s) && History(s)
    ensures History(NextRun(s))
  {
    NextRunKeepsQueueLinked(s);
    NextRunKeepsOrder(s);
    NextRunKeepsBatchLinked(s);
    hide Inv, NextRun, RunsInOrder, QueueLinked, BatchLinked;
  }

  /** What is said about the batch depends only on these. */
  lemma BatchLinkedFrame(s: State, r: State)
    requires BatchLinked(s)
    requires r.runs == s.runs && r.batch == s.batch && r.next == s.next
    requires r.batchTime == s.batchTime && r.batchNo == s.batchNo
    requires forall i | 0 <= i < |s.batch| ::
        s.batch[i].timer in r.heap && r.heap[s.batch[i].timer] == s.heap[s.batch[i].timer]
    ensures BatchLinked(r)
  {
  }

  lemma InsertedKeepsQueueLinked(s: State, a: Address)
    requires QueueLinked(s) && a in s.heap && Spaced(s.runs, s.heap[a], s.batchNo + 1)
    ensures QueueLinked(Inserted(s, a))
  {
    var r := Inserted(s, a);
    assert forall b | In(r, r.timers, b) && b != a :: In(s, s.timers, b);
  }

  lemma AddedInLoopKeepsQueueLinked(s: State, a: Address, clock: int)
    requires QueueLinked(s)
    ensures QueueLinked(AddedInLoop(s, a, clock))
  {
    if a in s.posted {
      var s' := s.(posted := s.posted - {a});
      assert forall b | In(s', s'.timers, b) :: In(s, s.timers, b);
      assert NeverRan(s.runs, s.heap[a]);
      InsertedKeepsQueueLinked(s', a);
      QueueLinkedFrame(Inserted(s', a), AddedInLoop(s, a, clock));
    }
  }

  lemma AddedInLoopKeepsHistory(s: State, a: Address, clock: int)
    requires History(s)
    ensures History(AddedInLoop(s, a, clock))
  {
    AddedInLoopKeepsQueueLinked(s, a, clock);
    BatchLinkedFrame(s, AddedInLoop(s, a, clock));
  }

  lemma QueueLinkedFrame(s: State, r: State)
    requires QueueLinked(s)
    requires r.runs == s.runs && r.created == s.created && r.batchNo == s.batchNo
    requires r.posted == s.posted && r.heap == s.heap && r.timers == s.timers
    ensures QueueLinked(r)
  {
    assert forall b :: In(r, r.timers, b) <==> In(s, s.timers, b);
  }

  lemma CancelledInLoopKeepsQueueLinked(s: State, id: TimerId)
    requires QueueLinked(s) && s.posted <= CancelledInLoop(s, id).heap.Keys
    ensures QueueLinked(CancelledInLoop(s, id))
  {
    var r := CancelledInLoop(s, id);
    assert forall b | In(r, r.timers, b) :: In(s, s.timers, b);
  }

  lemma CancelledInLoopKeepsHistory(s: State, id: TimerId)
    requires Inv(s) && History(s)
    ensures History(CancelledInLoop(s, id))
  {
    BatchLeftAlone(s, id);
    BatchLinkedFrame(s, CancelledInLoop(s, id));
    CancelledInLoopKeepsQueueLinked(s, id);
  }

  lemma BatchLeftAlone(s: State, id: TimerId)
    requires Inv(s)
    ensures var r := CancelledInLoop(s, id);
            && s.posted <= r.heap.Keys
            && forall i | 0 <= i < |s.batch| ::
                 s.batch[i].timer in r.heap && r.heap[s.batch[i].timer] == s.heap[s.batch[i].timer]
  {
    forall i | 0 <= i < |s.batch| ensures In(s, s.batch, s.batch[i].timer) {
      assert s.batch[i] in s.batch;
    }
  }

  lemma AllocatedKeepsQueueLinked(s: State, a: Address, when: int, repeat: bool, delta: nat)
    requires QueueLinked(s)
    ensures QueueLinked(Allocated(s, a, when, repeat, delta))
  {
    var r := Allocated(s, a, when, repeat, delta);
    assert forall b | b != a && In(r, r.timers, b) :: In(s, s.timers, b);
    if r != s { assert NeverRan(s.runs, r.heap[a]); }
  }

  lemma AllocatedKeepsHistory(s: State, a: Address, when: int, repeat: bool, delta: nat)
    requires History(s)
    ensures History(Allocated(s, a, when, repeat, delta))
  {
    AllocatedKeepsQueueLinked(s, a, when, repeat, delta);
    BatchLinkedFrame(s, Allocated(s, a, when, repeat, delta));
  }

  lemma QueuedAreSpaced(s: State, es: seq<Entry>)
    requires Listed(s, s.timers) && QueueLinked(s)
    requires forall e | e in es :: e in s.timers
    ensures forall e | e in es :: e.timer in s.heap && Spaced(s.runs, s.heap[e.timer], s.batchNo + 1)
  {
    assert forall e | e in es :: In(s, s.timers, e.timer);
  }

  lemma ReadBegunKeepsQueueLinked(s: State, now: int)
    requires QueueLinked(s) && !s.calling
    ensures QueueLinked(ReadBegun(s, now))
  {
    var r := ReadBegun(s, now);
    assert s.timers == r.batch + r.timers;
    assert r.runs == s.runs && r.heap == s.heap && r.posted == s.posted && r.created == s.created;
    hide ReadBegun, Due, Without, NeverRan, Spaced;
    assert forall b | In(r, r.timers, b) :: In(s, s.timers, b);
    forall b | In(r, r.timers, b) ensures Spaced(r.runs, r.heap[b], r.batchNo + 1) {
      SpacedLater(s.runs, s.heap[b], s.batchNo + 1, r.batchNo + 1);
    }
  }

  lemma ReadBegunKeepsBatchLinked(s: State, now: int)
    requires Listed(s, s.timers) && QueueLinked(s) && !s.calling
    ensures BatchLinked(ReadBegun(s, now))
  {
    var r := ReadBegun(s, now);
    assert s.timers == r.batch + r.timers;
    QueuedAreSpaced(s, r.batch);
    assert forall i | 0 <= i < |r.batch| :: r.batch[i] in r.batch;
  }

  lemma ReadBegunKeepsHistory(s: State, now: int)
    requires Inv(s) && History(s)
    ensures History(ReadBegun(s, now))
  {
    if !s.calling {
      ReadBegunKeepsQueueLinked(s, now);
      ReadBegunKeepsBatchLinked(s, now);
    }
  }

  lemma SpacedLater(runs: seq<Run>, t: Timer, m: nat, n: nat)
    requires Spaced(runs, t, m) && m <= n
    ensures Spaced(runs, t, n)
  {
  }

  /** The whole batch has run. */
  ghost predicate AllRan(s: State) {
    forall e | e in s.batch :: e.timer in s.heap && RanBy(s.runs, s.heap[e.timer], s.batchTime)
  }

  lemma PoppedKeepsQueueLinked(s: State)
    requires Structure(s) && s.batch != [] && QueueLinked(s) && AllRan(s)
    ensures var p := Popped(s); var a := s.batch[0].timer;
      && QueueLinked(p) && AllRan(p)
      && a in s.heap && RanBy(s.runs, s.heap[a], s.batchTime)
      && a !in s.posted && !In(p, p.timers, a)
      && forall e | e in p.batch :: e.timer != a
  {
    var p := Popped(s);
    PoppedIsUnowned(s);
    assert s.batch[0] in s.batch;
    assert s.batch == [s.batch[0]] + p.batch;
    assert forall e | e in p.batch :: In(p, p.batch, e.timer);
    assert forall b | In(p, p.timers, b) :: In(s, s.timers, b);
  }

  lemma RestartedKeepsQueueLinked(p: State, a: Address)
    requires QueueLinked(p) && AllRan(p) && a in p.heap && a !in p.posted && !In(p, p.timers, a)
    requires Listed(p, p.timers)
    requires p.heap[a].repeat && RanBy(p.runs, p.heap[a], p.batchTime) && forall e | e in p.batch :: e.timer != a
    ensures QueueLinked(Inserted(Restarted(p, a), a)) && AllRan(Inserted(Restarted(p, a), a))
  {
    var q := Restarted(p, a);
    forall e | e in p.timers ensures e.timer != a {
      assert e == Entry(p.heap[e.timer].expiration, e.timer);
    }
    assert forall b | In(q, q.timers, b) :: b != a && In(p, p.timers, b);
    assert QueueLinked(q);
    InsertedKeepsQueueLinked(q, a);
  }

  lemma DeletedKeepsQueueLinked(p: State, a: Address)
    requires QueueLinked(p) && AllRan(p) && a !in p.posted && forall e | e in p.batch :: e.timer != a
    ensures QueueLinked(Deleted(p, a)) && AllRan(Deleted(p, a))
  {
    assert forall b | In(Deleted(p, a), p.timers, b) :: In(p, p.timers, b);
  }

  lemma ResetOneKeepsQueueLinked(s: State)
    requires Structure(s) && s.batch != [] && QueueLinked(s) && AllRan(s)
    ensures QueueLinked(ResetOne(s)) && AllRan(ResetOne(s))
  {
    PoppedKeepsQueueLinked(s);
    var a := s.batch[0].timer;
    if s.heap[a].repeat && TimerId(a, s.heap[a].sequence) !in s.canceling {
      RestartedKeepsQueueLinked(Popped(s), a);
    } else {
      DeletedKeepsQueueLinked(Popped(s), a);
    }
  }

  lemma {:induction false} ResetAllKeepsQueueLinked(s: State)
    requires Structure(s) && QueueLinked(s) && AllRan(s)
    ensures QueueLinked(ResetAll(s))
    decreases |s.batch|
  {
    if s.batch != [] {
      ResetOneKeepsStructure(s);
      ResetOneKeepsQueueLinked(s);
      ResetAllKeepsQueueLinked(ResetOne(s));
    }
  }

  lemma ReadEndedKeepsHistory(s: State, clock: int)
    requires Inv(s) && History(s)
    ensures History(ReadEnded(s, clock))
  {
    if s.calling && s.next == |s.batch| {
      var s' := s.(calling := false, next := 0);
      StructureFrame(s, s');
      QueueLinkedFrame(s, s');
      assert AllRan(s') by {
        forall e | e in s'.batch ensures e.timer in s.heap && RanBy(s.runs, s.heap[e.timer], s.batchTime) {
          var i :| 0 <= i < |s.batch| && s.batch[i] == e;
        }
      }
      ResetAllKeepsQueueLinked(s');
      ResetAllKeepsStructure(s');
      QueueLinkedFrame(ResetAll(s'), ReadEnded(s, clock));
    }
  }

  lemma FiredKeepsHistory(s: State, clock: int)
    requires History(s)
    ensures History(Fired(s, clock))
  {
    QueueLinkedFrame(s, Fired(s, clock));
    BatchLinkedFrame(s, Fired(s, clock));
  }

  lemma StepKeepsHistory(s: State, op: Op)
    requires Inv(s) && History(s)
    ensures History(Step(s, op))
  {
    hide Inv;
    hide History;
    match op
    case New(a, when, repeat, delta) => AllocatedKeepsHistory(s, a, when, repeat, delta);
    case AddInLoop(a, clock) => AddedInLoopKeepsHistory(s, a, clock);
    case CancelInLoop(id) => CancelledInLoopKeepsHistory(s, id);
    case Fire(clock) => FiredKeepsHistory(s, clock);
    case BeginRead(now) => ReadBegunKeepsHistory(s, now);
    case RunNext => NextRunKeepsHistory(s);
    case EndRead(clock) => ReadEndedKeepsHistory(s, clock);
  }

  /** Over every run from the empty queue: no timer runs before its expiration, only repeating
      timers run again, at least their interval apart, and each batch runs in expiration order. */
  lemma {:induction false} StepsKeepHistory(s: State, ops: seq<Op>)
    requires Inv(s) && History(s)
    ensures History(Steps(s, ops)) && RunsInOrder(Steps(s, ops).runs)
    decreases |ops|
  {
    if ops != [] {
      StepKeepsHistory(s, ops[0]);
      StepKeepsInv(s, ops[0]);
      StepsKeepHistory(Step(s, ops[0]), ops[1..]);
    }
  }

  // ---- What a timer was asked to do -----------------------------------------------------------------

  ghost predicate Ran(runs: seq<Run>, q: nat) {
    exists r :: r in runs && r.sequence == q
  }

  /** The timer numbered `q`, and every run of it, are as addTimer was asked for. */
  ghost predicate AsAsked(s: State, q: nat, when: int, repeat: bool, delta: nat) {
    && q <= s.created
    && (forall a | a in s.heap && s.heap[a].sequence == q ::
          s.heap[a].repeat == repeat && s.heap[a].delta == delta && (s.heap[a].expiration == when || Ran(s.runs, q)))
    && (forall r | r in s.runs && r.sequence == q :: r.repeat == repeat && r.delta == delta)
    && FirstAt(s.runs, q, when)
  }

  /** The first run of the timer numbered `q` was due at `when`. */
  ghost predicate FirstAt(runs: seq<Run>, q: nat, when: int) {
    forall i | 0 <= i < |runs| && runs[i].sequence == q && !Ran(runs[..i], q) :: runs[i].expiration == when
  }

  ghost predicate Numbers(s: State, a: Address, q: nat) {
    a in s.heap && s.heap[a].sequence == q
  }

  /** Of the running batch, those up to `next` have run. */
  ghost predicate RanSoFar(s: State, q: nat) {
    forall i | 0 <= i < s.next && i < |s.batch| && Numbers(s, s.batch[i].timer, q) :: Ran(s.runs, q)
  }

  lemma AsAskedThroughRun(s: State, q: nat, when: int, repeat: bool, delta: nat)
    requires Inv(s) && AsAsked(s, q, when, repeat, delta) && RanSoFar(s, q)
    ensures AsAsked(NextRun(s), q, when, repeat, delta) && RanSoFar(NextRun(s), q)
  {
    var r := NextRun(s);
    if r != s {
      var last := r.runs[|s.runs|];
      assert forall x :: x in r.runs <==> x in s.runs || x == last;
      assert r.runs[..|s.runs|] == s.runs;
      assert Ran(s.runs, q) ==> Ran(r.runs, q);
      assert last.sequence == q ==> Ran(r.runs, q);
      forall i | 0 <= i < |r.runs| && r.runs[i].sequence == q && !Ran(r.runs[..i], q)
        ensures r.runs[i].expiration == when
      {
        assert r.runs[..i] == if i < |s.runs| then s.runs[..i] else s.runs;
      }
    }
  }

  /** Timer `a` is in `r` as in `s`. */
  ghost predicate Untouched(s: State, r: State, a: Address) {
    && (a in r.heap <==> a in s.heap) && (a in s.heap ==> r.heap[a] == s.heap[a])
    && forall q :: TimerId(a, q) in r.active <==> TimerId(a, q) in s.active
  }

  lemma UntouchedStill(s: State, r: State, t: State, a: Address)
    requires Untouched(s, r, a) && Untouched(r, t, a)
    ensures Untouched(s, t, a)
  {
  }

  /** No timer is made, or numbered anew. */
  ghost predicate OnlyLoses(s: State, r: State) {
    forall b | b in r.heap :: b in s.heap && r.heap[b].sequence == s.heap[b].sequence
  }

  /** The restart of a repeating timer, or its end. */
  ghost predicate Renewed(s: State, r: State, a: Address)
    requires a in s.heap
  {
    var x := s.heap[a];
    var id := TimerId(a, x.sequence);
    if x.repeat && id !in s.canceling
    then a in r.heap && r.heap[a] == x.(expiration := s.batchTime + x.delta) && id in r.active
    else a !in r.heap
  }

  lemma ResetOneDoes(s: State)
    requires Structure(s) && s.batch != []
    ensures var r := ResetOne(s); var a := s.batch[0].timer;
      && a in s.heap && OnlyLoses(s, r) && (forall b: Address | b != a :: Untouched(s, r, b))
      && r == s.(heap := r.heap, timers := r.timers, active := r.active, batch := s.batch[1..])
      && Renewed(s, r, a)
  {
    assert s.batch[0] in s.batch;
    assert s.batch[0].timer in s.heap;
    hide Structure, Insert;
  }

  lemma AsAskedThroughResetOne(s: State, q: nat, when: int, repeat: bool, delta: nat)
    requires Structure(s) && s.batch != [] && AsAsked(s, q, when, repeat, delta)
    requires forall e | e in s.batch && s.heap[e.timer].sequence == q :: Ran(s.runs, q)
    ensures var r := ResetOne(s); AsAsked(r, q, when, repeat, delta) && r.runs == s.runs
    ensures var r := ResetOne(s);
      forall e | e in r.batch && e.timer in r.heap && r.heap[e.timer].sequence == q :: Ran(r.runs, q)
  {
    assert s.batch == [s.batch[0]] + s.batch[1..];
    var a := s.batch[0].timer;
    ResetOneDoes(s);
    ListedTail(s, s.batch);
    hide FirstAt, Structure, Ran, ResetOne;
    assert forall b: Address | b != a && b in s.heap :: Untouched(s, ResetOne(s), b);
  }

  lemma {:induction false} AsAskedThroughReset(s: State, q: nat, when: int, repeat: bool, delta: nat)
    requires Structure(s) && AsAsked(s, q, when, repeat, delta)
    requires forall e | e in s.batch && s.heap[e.timer].sequence == q :: Ran(s.runs, q)
    ensures AsAsked(ResetAll(s), q, when, repeat, delta)
    decreases |s.batch|
  {
    if s.batch != [] {
      ResetOneKeepsStructure(s);
      AsAskedThroughResetOne(s, q, when, repeat, delta);
      hide AsAsked, Ran;
      AsAskedThroughReset(ResetOne(s), q, when, repeat, delta);
    }
  }

  lemma AsAskedThroughEnd(s: State, q: nat, when: int, repeat: bool, delta: nat, clock: int)
    requires Inv(s) && AsAsked(s, q, when, repeat, delta) && RanSoFar(s, q)
    ensures var r := ReadEnded(s, clock); AsAsked(r, q, when, repeat, delta) && RanSoFar(r, q)
  {
    if s.calling && s.next == |s.batch| {
      var s' := s.(calling := false, next := 0);
      StructureFrame(s, s');
      forall e | e in s'.batch && s'.heap[e.timer].sequence == q ensures Ran(s.runs, q) {
        var i :| 0 <= i < |s.batch| && s.batch[i] == e;
      }
      AsAskedThroughReset(s', q, when, repeat, delta);
      ResetAllKeepsStructure(s');
      hide Structure, Ran, FirstAt;
    }
  }

  lemma AsAskedByStep(s: State, op: Op, q: nat, when: int, repeat: bool, delta: nat)
    requires Inv(s) && AsAsked(s, q, when, repeat, delta) && RanSoFar(s, q)
    ensures AsAsked(Step(s, op), q, when, repeat, delta) && RanSoFar(Step(s, op), q)
  {
    match op
    case RunNext => AsAskedThroughRun(s, q, when, repeat, delta);
    case EndRead(clock) =>
      AsAskedThroughEnd(s, q, when, repeat, delta, clock);
      hide ReadEnded, AsAsked, RanSoFar;
    case _ => AsAskedByOther(s, op, q, when, repeat, delta);
  }

  lemma AsAskedByOther(s: State, op: Op, q: nat, when: int, repeat: bool, delta: nat)
    requires !op.RunNext? && !op.EndRead? && AsAsked(s, q, when, repeat, delta) && RanSoFar(s, q)
    ensures AsAsked(Step(s, op), q, when, repeat, delta) && RanSoFar(Step(s, op), q)
  {
    hide Ran, FirstAt, Due, Without;
  }

  lemma {:induction false} AsAskedByRun(s: State, ops: seq<Op>, q: nat, when: int, repeat: bool, delta: nat)
    requires Inv(s) && AsAsked(s, q, when, repeat, delta) && RanSoFar(s, q)
    ensures AsAsked(Steps(s, ops), q, when, repeat, delta)
    decreases |ops|
  {
    hide AsAsked, RanSoFar, Inv, Step;
    if ops != [] {
      AsAskedByStep(s, ops[0], q, when, repeat, delta);
      StepKeepsInv(s, ops[0]);
      AsAskedByRun(Step(s, ops[0]), ops[1..], q, when, repeat, delta);
    }
  }

  /** Over every run that follows an addTimer: each run of the timer has the interval and the kind that was
      asked for, the first one is due when it was asked for, and a timer that was not to repeat runs at
      most once. */
  lemma TimerDoesWhatWasAsked(s: State, a: Address, when: int, repeat: bool, delta: nat, ops: seq<Op>)
    requires Inv(s) && History(s) && a != 0 && a !in s.heap
    ensures var t := Steps(Step(s, New(a, when, repeat, delta)), ops); var q := s.created + 1;
      && (forall r | r in t.runs && r.sequence == q :: r.repeat == repeat && r.delta == delta)
      && FirstAt(t.runs, q, when)
      && (!repeat ==> Count(t.runs, q) <= 1)
  {
    var q, op := s.created + 1, New(a, when, repeat, delta);
    var s' := Step(s, op);
    StepKeepsInv(s, op);
    StepKeepsHistory(s, op);
    assert AsAsked(s', q, when, repeat, delta) && RanSoFar(s', q);
    hide Step;
    AsAskedByRun(s', ops, q, when, repeat, delta);
    StepsKeepHistory(s', ops);
    if !repeat { OneRun(Steps(s', ops).runs, q); }
  }

  lemma {:induction false} NoRun(runs: seq<Run>, q: nat)
    ensures Count(runs, q) == 0 <==> !Ran(runs, q)
  {
    if runs != [] {
      var n := |runs| - 1;
      NoRun(runs[..n], q);
      assert runs == runs[..n] + [runs[n]];
    }
  }

  /** A timer that does not repeat has at most one run. */
  lemma {:induction false} OneRun(runs: seq<Run>, q: nat)
    requires RunsInOrder(runs) && forall r | r in runs && r.sequence == q :: !r.repeat
    ensures Count(runs, q) <= 1
  {
    if runs != [] {
      var n := |runs| - 1;
      assert runs == runs[..n] + [runs[n]];
      OneRun(runs[..n], q);
      assert forall r | r in runs[..n] && r.sequence == q && runs[n].sequence == q :: r.repeat;
      NoRun(runs[..n], q);
    }
  }

  // ---- One batch, from beginning to end ---------------------------------------------------------------

  function RunsOf(heap: map<Address, Timer>, es: seq<Entry>, at: int, batchNo: nat): seq<Run>
    requires forall e | e in es :: e.timer in heap
  {
    if es == [] then [] else
    var n := |es| - 1;
    var t := heap[es[n].timer];
    RunsOf(heap, es[..n], at, batchNo) + [Run(t.sequence, t.repeat, t.delta, t.expiration, at, batchNo)]
  }

  /** While the batch runs, its timers are as they were when it began. */
  ghost predicate Batching(s: State, u: State, now: int) {
    && u.calling && u.batch == s.timers[..Due(s.timers, now)] && u.batchTime == now && u.batchNo == s.batchNo + 1
    && (forall e | e in u.batch :: e.timer in s.heap && e.timer in u.heap && u.heap[e.timer] == s.heap[e.timer])
    && u.next <= |u.batch|
    && u.runs == s.runs + RunsOf(s.heap, u.batch[..u.next], now, u.batchNo)
  }

  lemma BatchBegins(s: State, now: int)
    requires Inv(s) && !s.calling
    ensures Batching(s, ReadBegun(s, now), now) && ReadBegun(s, now).canceling == {}
  {
    var u := ReadBegun(s, now);
    assert forall e | e in u.batch :: e in s.timers;
    assert u.batch[..0] == [] && s.runs + [] == s.runs;
  }

  lemma BatchingByRunNext(s: State, u: State, now: int)
    requires Batching(s, u, now)
    ensures Batching(s, NextRun(u), now)
  {
    var v := NextRun(u);
    if v != u {
      var x := u.heap[u.batch[u.next].timer];
      RunsOfOneMore(s.heap, u.batch, u.next, now, u.batchNo);
      assert u.batch[u.next] in u.batch;
      var last := Run(x.sequence, x.repeat, x.delta, x.expiration, now, u.batchNo);
      assert s.runs + (RunsOf(s.heap, u.batch[..u.next], now, u.batchNo) + [last])
          == s.runs + RunsOf(s.heap, u.batch[..u.next], now, u.batchNo) + [last];
      hide RunsOf;
    }
  }

  lemma RunsOfOneMore(heap: map<Address, Timer>, es: seq<Entry>, n: nat, at: int, batchNo: nat)
    requires n < |es| && forall e | e in es :: e.timer in heap
    ensures var t := heap[es[n].timer];
      RunsOf(heap, es[..n + 1], at, batchNo) ==
      RunsOf(heap, es[..n], at, batchNo) + [Run(t.sequence, t.repeat, t.delta, t.expiration, at, batchNo)]
  {
    assert es[..n + 1][..n] == es[..n];
  }

  /** The steps of callbacks leave the timers of the batch alone. */
  lemma CallbackSparesBatch(u: State, op: Op)
    requires Inv(u) && !op.EndRead? && !op.RunNext? && u.calling
    ensures var v := Step(u, op);
      && v.calling && v.batch == u.batch && v.next == u.next && v.runs == u.runs
      && v.batchTime == u.batchTime && v.batchNo == u.batchNo
      && (forall e | e in u.batch && e.timer in u.heap :: e.timer in v.heap && v.heap[e.timer] == u.heap[e.timer])
  {
    forall e | e in u.batch ensures In(u, u.batch, e.timer) {}
    assert op.CancelInLoop? && op.id in u.active ==> In(u, u.timers, op.id.timer);
  }

  lemma BatchingByStep(s: State, u: State, now: int, op: Op)
    requires Inv(u) && Batching(s, u, now) && !op.EndRead?
    ensures Batching(s, Step(u, op), now)
  {
    if op.RunNext? {
      BatchingByRunNext(s, u, now);
      hide Batching;
    } else {
      CallbackSparesBatch(u, op);
      hide Inv, Step, RunsOf;
    }
  }

  /** What becomes of one timer that was queued when the batch began. */
  ghost predicate Followed(u: State, id: TimerId, x: Timer, due: bool, cancelled: bool) {
    && id.sequence <= u.created
    && if due then id.timer in u.heap && u.heap[id.timer] == x && (id in u.canceling <==> cancelled)
       else if cancelled then forall b | b in u.heap :: u.heap[b].sequence != id.sequence
       else id.timer in u.heap && u.heap[id.timer] == x && id in u.active
  }

  lemma FollowedFromStart(s: State, now: int, e: Entry)
    requires Inv(s) && !s.calling && e in s.timers
    ensures e.timer in s.heap
    ensures var x := s.heap[e.timer]; Followed(ReadBegun(s, now), TimerId(e.timer, x.sequence), x, e.when <= now, false)
  {
    var k := Due(s.timers, now);
    assert In(s, s.timers, e.timer);
    PrefixesSorted(s.timers, k);
    var i :| 0 <= i < |s.timers| && s.timers[i] == e;
    assert e.when > now ==> i >= k;
    if e.when > now {
      forall f | f in s.timers[..k] ensures f.timer != e.timer {
        assert f in s.timers;
      }
    }
  }

  lemma FollowedByStep(u: State, op: Op, id: TimerId, x: Timer, due: bool, cancelled: bool)
    requires Inv(u) && u.calling && !op.EndRead? && x.sequence == id.sequence && Followed(u, id, x, due, cancelled)
    requires due ==> Entry(x.expiration, id.timer) in u.batch
    ensures Followed(Step(u, op), id, x, due, cancelled || op == CancelInLoop(id))
  {
    assert due ==> In(u, u.batch, id.timer);
  }

  lemma {:induction false} BatchingByRun(s: State, u: State, now: int, ops: seq<Op>)
    requires Inv(u) && Batching(s, u, now) && forall op | op in ops :: !op.EndRead?
    ensures Inv(Steps(u, ops)) && Batching(s, Steps(u, ops), now)
    decreases |ops|
  {
    if ops != [] {
      hide Inv, Batching, Step;
      StepKeepsInv(u, ops[0]);
      BatchingByStep(s, u, now, ops[0]);
      BatchingByRun(s, Step(u, ops[0]), now, ops[1..]);
    }
  }

  lemma SameBatch(s: State, u: State, v: State, now: int)
    requires Batching(s, u, now) && Batching(s, v, now)
    ensures u.calling && v.calling && v.batch == u.batch && u.batchTime == v.batchTime == now
  {
  }

  lemma {:induction false} FollowedByRun(s: State, u: State, now: int, ops: seq<Op>, id: TimerId, x: Timer, due: bool,
                                           cancelled: bool)
    requires Inv(u) && Batching(s, u, now) && forall op | op in ops :: !op.EndRead?
    requires x.sequence == id.sequence && Followed(u, id, x, due, cancelled)
    requires due ==> Entry(x.expiration, id.timer) in u.batch
    ensures Followed(Steps(u, ops), id, x, due, cancelled || CancelInLoop(id) in ops)
    decreases |ops|
  {
    if ops != [] {
      var v, cancelled' := Step(u, ops[0]), cancelled || ops[0] == CancelInLoop(id);
      assert ops == [ops[0]] + ops[1..] && Steps(u, ops) == Steps(v, ops[1..]);
      hide *;
      BatchingByStep(s, u, now, ops[0]);
      SameBatch(s, u, v, now);
      StepKeepsInv(u, ops[0]);
      FollowedByStep(u, ops[0], id, x, due, cancelled);
      FollowedByRun(s, v, now, ops[1..], id, x, due, cancelled');
    }
  }

  lemma {:induction false} ResetAllElsewhere(s: State, a: Address)
    requires Structure(s) && forall e | e in s.batch :: e.timer != a
    ensures Untouched(s, ResetAll(s), a)
    decreases |s.batch|
  {
    if s.batch != [] {
      ResetOneKeepsStructure(s);
      ResetOneDoes(s);
      assert s.batch[0] in s.batch && Untouched(s, ResetOne(s), a);
      hide Structure, ResetOne, Renewed, OnlyLoses, Untouched;
      ResetAllElsewhere(ResetOne(s), a);
      UntouchedStill(s, ResetOne(s), ResetAll(s), a);
    }
  }

  lemma {:induction false} ResetAllHere(s: State, e: Entry)
    requires Structure(s) && e in s.batch
    ensures e.timer in s.heap && Renewed(s, ResetAll(s), e.timer)
    decreases |s.batch|
  {
    assert s.batch == [s.batch[0]] + s.batch[1..];
    var r := ResetOne(s);
    ResetOneKeepsStructure(s);
    ResetOneDoes(s);
    BatchTail(s);
    hide Structure, ResetOne, OnlyLoses;
    if e == s.batch[0] {
      ResetAllElsewhere(r, e.timer);
    } else {
      assert Untouched(s, r, e.timer);
      ResetAllHere(r, e);
    }
  }

  lemma BatchTail(s: State)
    requires Structure(s) && s.batch != []
    ensures forall e | e in s.batch[1..] :: e.timer != s.batch[0].timer
  {
    ListedTail(s, s.batch);
  }

  lemma {:induction false} ResetAllLoses(s: State)
    requires Structure(s)
    ensures OnlyLoses(s, ResetAll(s))
    decreases |s.batch|
  {
    if s.batch != [] {
      ResetOneKeepsStructure(s);
      ResetOneDoes(s);
      hide Structure, ResetOne, Renewed, Untouched;
      ResetAllLoses(ResetOne(s));
    }
  }

  /** What reset() makes of it. */
  ghost predicate Settled(t: State, id: TimerId, x: Timer, due: bool, cancelled: bool, now: int) {
    if !cancelled && (due ==> x.repeat) then
      && id.timer in t.heap && id in t.active
      && t.heap[id.timer] == if due then x.(expiration := now + x.delta) else x
    else
      forall b | b in t.heap :: t.heap[b].sequence != id.sequence
  }

  lemma EndIs(u: State, clock: int)
    requires Inv(u) && u.calling && u.next == |u.batch|
    ensures var u' := u.(calling := false, next := 0); var t := ReadEnded(u, clock);
      && Structure(u') && !t.calling && t.runs == u.runs
      && t.heap == ResetAll(u').heap && t.active == ResetAll(u').active
  {
    var u' := u.(calling := false, next := 0);
    StructureFrame(u, u');
    EndRunsNothing(u, clock);
    ResetAllKeepsStructure(u');
    hide Structure;
  }

  lemma FollowedThroughEnd(u: State, clock: int, id: TimerId, x: Timer, due: bool, cancelled: bool)
    requires Inv(u) && u.calling && u.next == |u.batch| && x.sequence == id.sequence
        && Followed(u, id, x, due, cancelled)
    requires due ==> Entry(x.expiration, id.timer) in u.batch
    ensures Settled(ReadEnded(u, clock), id, x, due, cancelled, u.batchTime)
  {
    EndIs(u, clock);
    var u' := u.(calling := false, next := 0);
    ResetAllLoses(u');
    assert Numbered(u);
    if due {
      ResetAllHere(u', Entry(x.expiration, id.timer));
    } else if !cancelled {
      assert In(u, u.timers, id.timer);
      forall e | e in u'.batch ensures e.timer != id.timer { assert In(u, u.batch, e.timer); }
      ResetAllElsewhere(u', id.timer);
    }
    hide Structure, Listed, Agree, Owned, ReadEnded, ResetAll;
  }

  /** handleRead as a whole, whatever its callbacks do: the due timers, and no others, run once, in order,
      with their own records; a due timer lives on exactly if it repeats and no callback has cancelled it,
      one interval later; and a timer that is not due is as before exactly unless a callback has cancelled
      it. */
  lemma BatchExactly(s: State, now: int, ops: seq<Op>, clock: int)
    requires Inv(s) && !s.calling && forall op | op in ops :: !op.EndRead?
    requires var u := Steps(Step(s, BeginRead(now)), ops); u.next == |u.batch|
    ensures var k := Due(s.timers, now);
      var t := Step(Steps(Step(s, BeginRead(now)), ops), EndRead(clock));
      && !t.calling
      && (forall e | e in s.timers :: e.timer in s.heap)
      && t.runs == s.runs + RunsOf(s.heap, s.timers[..k], now, s.batchNo + 1)
      && (forall e | e in s.timers :: var x := s.heap[e.timer]; var id := TimerId(e.timer, x.sequence);
           Settled(t, id, x, e.when <= now, CancelInLoop(id) in ops, now))
  {
    var t := Step(Steps(Step(s, BeginRead(now)), ops), EndRead(clock));
    BatchRunsEach(s, now, ops, clock);
    hide *;
    forall e | e in s.timers
      ensures var x := s.heap[e.timer]; var id := TimerId(e.timer, x.sequence);
        Settled(t, id, x, e.when <= now, CancelInLoop(id) in ops, now)
    {
      FollowedToEnd(s, now, ops, clock, e);
    }
  }

  lemma BatchRunsEach(s: State, now: int, ops: seq<Op>, clock: int)
    requires Inv(s) && !s.calling && forall op | op in ops :: !op.EndRead?
    requires var u := Steps(Step(s, BeginRead(now)), ops); u.next == |u.batch|
    ensures var t := Step(Steps(Step(s, BeginRead(now)), ops), EndRead(clock));
      && !t.calling
      && (forall e | e in s.timers :: e.timer in s.heap)
      && t.runs == s.runs + RunsOf(s.heap, s.timers[..Due(s.timers, now)], now, s.batchNo + 1)
  {
    var u0 := Step(s, BeginRead(now));
    var u := Steps(u0, ops);
    StepKeepsInv(s, BeginRead(now));
    BatchBegins(s, now);
    assert u0 == ReadBegun(s, now) && Step(u, EndRead(clock)) == ReadEnded(u, clock);
    assert Listed(s, s.timers);
    hide *;
    BatchingByRun(s, u0, now, ops);
    BatchIsRun(s, u, now);
    EndIs(u, clock);
    ListedAreLive(s);
  }

  lemma BatchIsRun(s: State, u: State, now: int)
    requires Batching(s, u, now) && u.next == |u.batch|
    ensures u.calling && (forall e | e in s.timers[..Due(s.timers, now)] :: e.timer in s.heap)
    ensures u.runs == s.runs + RunsOf(s.heap, s.timers[..Due(s.timers, now)], now, s.batchNo + 1)
  {
    assert u.batch[..u.next] == u.batch;
    hide RunsOf;
  }

  lemma ListedAreLive(s: State)
    requires Listed(s, s.timers)
    ensures forall e | e in s.timers :: e.timer in s.heap
  {
  }

  lemma FollowedToEnd(s: State, now: int, ops: seq<Op>, clock: int, e: Entry)
    requires Inv(s) && !s.calling && e in s.timers && forall op | op in ops :: !op.EndRead?
    requires var u := Steps(Step(s, BeginRead(now)), ops); u.next == |u.batch|
    ensures e.timer in s.heap
    ensures var x := s.heap[e.timer]; var id := TimerId(e.timer, x.sequence);
      Settled(Step(Steps(Step(s, BeginRead(now)), ops), EndRead(clock)), id, x, e.when <= now,
        CancelInLoop(id) in ops, now)
  {
    var u0 := Step(s, BeginRead(now));
    assert u0 == ReadBegun(s, now);
    FollowedFromStart(s, now, e);
    DueInBatch(s, now, e);
    StepKeepsInv(s, BeginRead(now));
    BatchBegins(s, now);
    hide Inv, Followed, ReadBegun, Settled, Step;
    FollowedOn(s, u0, now, ops, clock, e);
  }

  lemma FollowedOn(s: State, u0: State, now: int, ops: seq<Op>, clock: int, e: Entry)
    requires Inv(u0) && Batching(s, u0, now) && e.timer in s.heap && forall op | op in ops :: !op.EndRead?
    requires var x := s.heap[e.timer]; Followed(u0, TimerId(e.timer, x.sequence), x, e.when <= now, false)
    requires e.when <= now ==> Entry(s.heap[e.timer].expiration, e.timer) in u0.batch
    requires Steps(u0, ops).next == |Steps(u0, ops).batch|
    ensures var x := s.heap[e.timer]; var id := TimerId(e.timer, x.sequence);
      Settled(Step(Steps(u0, ops), EndRead(clock)), id, x, e.when <= now, CancelInLoop(id) in ops, now)
  {
    var u := Steps(u0, ops);
    var x := s.heap[e.timer];
    var id := TimerId(e.timer, x.sequence);
    assert Step(u, EndRead(clock)) == ReadEnded(u, clock);
    hide *;
    BatchingByRun(s, u0, now, ops);
    SameBatch(s, u0, u, now);
    FollowedByRun(s, u0, now, ops, id, x, e.when <= now, false);
    FollowedThroughEnd(u, clock, id, x, e.when <= now, CancelInLoop(id) in ops);
  }

  lemma DueInBatch(s: State, now: int, e: Entry)
    requires Inv(s) && !s.calling && e in s.timers && e.timer in s.heap
    ensures s.heap[e.timer].expiration == e.when
    ensures e.when <= now ==> e in ReadBegun(s, now).batch
  {
    var k := Due(s.timers, now);
    PrefixesSorted(s.timers, k);
    var i :| 0 <= i < |s.timers| && s.timers[i] == e;
    assert k < i ==> Less(s.timers[k], s.timers[i]);
    assert i < k ==> s.timers[..k][i] == e;
  }

  /** All of it, for every run of a fresh queue. */
  lemma EveryRun(ops: seq<Op>)
    ensures var s := Steps(EMPTY_QUEUE, ops);
            && Inv(s) && |s.timers| == |s.active| && RunsInOrder(s.runs)
            && ((forall op | op in ops :: ClockPositive(op)) ==>
                  Covered(s) && (!s.calling && s.timers != [] ==> WakesBy(s.fd, s.timers[0].when)))
  {
    StepsKeepInv(EMPTY_QUEUE, ops);
    SizesAgree(Steps(EMPTY_QUEUE, ops));
    StepsKeepHistory(EMPTY_QUEUE, ops);
    if forall op | op in ops :: ClockPositive(op) {
      AlwaysCovered(EMPTY_QUEUE, ops);
    }
  }

  /** Erasing the i-th due timer from activeTimers_ finds exactly one element. */
  lemma ErasesOne(s: State, k: nat, i: nat)
    requires Listed(s, s.timers) && Agree(s) && i < k <= |s.timers|
    ensures var e := s.timers[i];
      && e.timer in s.heap && e == Entry(s.heap[e.timer].expiration, e.timer)
      && var id := TimerId(e.timer, s.heap[e.timer].sequence);
      && id in Without(s.active, s.timers[..k][..i])
      && Without(s.active, s.timers[..k][..i]) - {id} == Without(s.active, s.timers[..k][..i + 1])
  {
    var e := s.timers[i];
    var es := s.timers[..k];
    assert e in s.timers && In(s, s.timers, e.timer);
    assert es[..i + 1] == es[..i] + [e];
    forall f | f in es[..i] ensures f.timer != e.timer {
      var j :| 0 <= j < i && es[j] == f;
      assert Less(f, e) && f in s.timers;
    }
  }

  // ---- The class -----------------------------------------------------------------------------------

  /** What a user callback can make happen, and the kernel's shot meanwhile. */
  type CallbackOp = op: Op | op.New? || op.AddInLoop? || op.CancelInLoop? || op.Fire? witness Fire(0)

  /** The steps of `n` callbacks in a row, the i-th of which does `callbacks(i)`. */
  ghost function BatchOps(callbacks: nat -> seq<CallbackOp>, n: nat): seq<Op> {
    if n == 0 then [] else BatchOps(callbacks, n - 1) + [RunNext] + callbacks(n - 1)
  }

  lemma {:induction false} StepsAppend(s: State, a: seq<Op>, b: seq<Op>)
    ensures Steps(s, a + b) == Steps(Steps(s, a), b)
    decreases |a|
  {
    if a == [] {
      assert a + b == b;
    } else {
      assert (a + b)[1..] == a[1..] + b;
      StepsAppend(Step(s, a[0]), a[1..], b);
    }
  }

  lemma OneStep(s: State, op: Op)
    ensures Steps(s, [op]) == Step(s, op)
  {
    assert Steps(Step(s, op), [op][1..]) == Step(s, op);
  }

  lemma BatchStarts(s: State, callbacks: nat -> seq<CallbackOp>)
    ensures Steps(s, BatchOps(callbacks, 0)) == s
  {
  }

  lemma BatchGrows(s: State, callbacks: nat -> seq<CallbackOp>, i: nat)
    ensures Steps(s, BatchOps(callbacks, i + 1)) == Steps(Steps(s, BatchOps(callbacks, i)), [RunNext] + callbacks(i))
  {
    StepsAppend(s, BatchOps(callbacks, i), [RunNext] + callbacks(i));
    assert BatchOps(callbacks, i + 1) == BatchOps(callbacks, i) + ([RunNext] + callbacks(i));
  }

  /** handleRead's script, step by step. */
  lemma BatchScript(s: State, now: int, callbacks: nat -> seq<CallbackOp>, clock: int)
    ensures var ops := BatchOps(callbacks, Due(s.timers, now));
            Steps(s, [BeginRead(now)] + ops + [EndRead(clock)])
            == Step(Steps(Step(s, BeginRead(now)), ops), EndRead(clock))
  {
    var ops := BatchOps(callbacks, Due(s.timers, now));
    StepsAppend(s, [BeginRead(now)], ops);
    StepsAppend(s, [BeginRead(now)] + ops, [EndRead(clock)]);
    OneStep(s, BeginRead(now));
    OneStep(Steps(Step(s, BeginRead(now)), ops), EndRead(clock));
  }

  lemma FdFrame(s: State, r: State)
    requires Inv(s) && r == s.(fd := r.fd)
    ensures Inv(r)
  {
    StructureFrame(s, r);
  }

  /** When the whole batch has run: reset() starts from a sound state. */
  lemma ReadyToReset(s: State)
    requires Inv(s)
    ensures Structure(s.(calling := false, next := 0))
  {
    StructureFrame(s, s.(calling := false, next := 0));
  }

  lemma BatchIsLive(s: State)
    requires Structure(s)
    ensures forall i | 0 <= i < |s.batch| :: s.batch[i].timer in s.heap
  {
    assert forall i | 0 <= i < |s.batch| :: s.batch[i] in s.batch;
  }

  class TimerQueue {
    var heap: map<Address, Timer>
    var created: nat
    var timers: seq<Entry>
    var active: set<TimerId>
    var callingExpiredTimers: bool
    var canceling: set<TimerId>
    var fd: TimerFd
    var posted: set<Address>  // what the loop's functor queue holds for this object
    ghost var batch: seq<Entry>
    ghost var next: nat
    ghost var batchTime: int
    ghost var batchNo: nat
    ghost var runs: seq<Run>

    ghost function Snapshot(): State
      reads this
    {
      State(heap, created, posted, timers, active, callingExpiredTimers, canceling, fd,
            batch, next, batchTime, batchNo, runs)
    }

    constructor ()
      ensures Snapshot() == EMPTY_QUEUE && Inv(Snapshot())
    {
      heap, created, timers, active, callingExpiredTimers, canceling := map[], 0, [], {}, false, {};
      fd := TimerFd(false, false, 0, 0);
      posted, batch, next, batchTime, batchNo, runs := {}, [], 0, 0, 0, [];
    }

    /** The part of addTimer that runs on the calling thread. */
    method NewTimer(a: Address, when: int, repeat: bool, delta: nat) returns (id: TimerId)
      requires Inv(Snapshot()) && a != 0 && a !in heap
      modifies this
      ensures Inv(Snapshot()) && Snapshot() == Allocated(old(Snapshot()), a, when, repeat, delta)
      ensures id == TimerId(a, old(created) + 1)
    {
      hide Inv;
      AllocatedKeepsInv(Snapshot(), a, when, repeat, delta);
      created := created + 1;
      heap := heap[a := Timer(when, repeat, delta, created)];
      posted := posted + {a};
      id := TimerId(a, created);
    }

    /** insert, with its four assertions. */
    method InsertTimer(a: Address) returns (earliestChanged: bool)
      requires StructureBut(Snapshot(), a)
      modifies this`timers, this`active
      ensures Snapshot() == Inserted(old(Snapshot()), a) && Structure(Snapshot())
      ensures earliestChanged == EarliestChanged(old(Snapshot()), heap[a].expiration)
    {
      InsertedKeepsStructure(Snapshot(), a);
      SizesAgree(Snapshot());
      assert |timers| == |active|;
      var when := heap[a].expiration;
      earliestChanged := timers == [] || when < timers[0].when;
      assert Entry(when, a) !in timers;
      timers := Insert(timers, Entry(when, a));
      assert TimerId(a, heap[a].sequence) !in active;
      active := active + {TimerId(a, heap[a].sequence)};
      SizesAgree(Snapshot());
      assert |timers| == |active|;
    }

    method AddTimerInLoop(a: Address, clock: int)
      requires Inv(Snapshot()) && a in posted
      modifies this
      ensures Inv(Snapshot()) && Snapshot() == AddedInLoop(old(Snapshot()), a, clock)
    {
      AddedInLoopKeepsInv(Snapshot(), a, clock);
      UnpostedIsUnowned(Snapshot(), a);
      hide Inv;
      hide Structure;
      posted := posted - {a};
      var earliestChanged := InsertTimer(a);
      if earliestChanged {
        fd := Arm(heap[a].expiration, clock);
      }
    }

    /** cancelInLoop: the pointer is only followed, and the timer only deleted, if it is active. */
    method Cancel(id: TimerId)
      requires Inv(Snapshot())
      modifies this
      ensures Inv(Snapshot()) && Snapshot() == CancelledInLoop(old(Snapshot()), id)
    {
      CancelledInLoopKeepsInv(Snapshot(), id);
      SizesAgree(Snapshot());
      assert |timers| == |active|;
      assert id in active ==> In(Snapshot(), timers, id.timer);
      if id in active {
        var x := Entry(heap[id.timer].expiration, id.timer);
        assert x in timers;
        timers := Erase(timers, x);
        heap := heap - {id.timer};
        active := active - {id};
      } else if callingExpiredTimers {
        canceling := canceling + {id};
      }
      assert Snapshot() == CancelledInLoop(old(Snapshot()), id);
      SizesAgree(Snapshot());
      assert |timers| == |active|;
    }

    /** getExpired: both indices give up the due timers; every erase finds exactly one. */
    method GetExpired(now: int) returns (expired: seq<Entry>)
      requires Inv(Snapshot()) && !callingExpiredTimers
      modifies this`timers, this`active, this`batch
      ensures expired == old(timers)[..Due(old(timers), now)] && batch == expired
      ensures timers == old(timers)[Due(old(timers), now)..]
      ensures active == Without(old(active), expired)
    {
      ghost var s0 := Snapshot();
      SizesAgree(s0);
      assert |timers| == |active|;
      var end := Due(timers, now);
      assert end == |timers| || now < timers[end].when;
      expired := timers[..end];
      timers := timers[end..];
      batch := expired;
      ForgetExpired(s0, end, expired);
    }

    /** Each erase from activeTimers_ finds exactly one. */
    method ForgetExpired(ghost s0: State, ghost end: nat, expired: seq<Entry>)
      requires Listed(s0, s0.timers) && Agree(s0) && end <= |s0.timers| && expired == s0.timers[..end]
      requires heap == s0.heap && active == s0.active
      modifies this`active
      ensures active == Without(s0.active, expired)
    {
      hide Listed, Agree, Sorted;
      assert expired[..0] == [];
      for i := 0 to |expired|
        modifies this`active
        invariant active == Without(s0.active, expired[..i])
      {
        ErasesOne(s0, end, i);
        var id := TimerId(expired[i].timer, heap[expired[i].timer].sequence);
        assert id in active;
        active := active - {id};
      }
      assert expired[..|expired|] == expired;
    }

    /** One iteration of reset. */
    method ResetTimer(e: Entry, now: int)
      requires Structure(Snapshot()) && batch != [] && batch[0] == e && batchTime == now
      modifies this`heap, this`timers, this`active, this`batch
      ensures Structure(Snapshot()) && Snapshot() == ResetOne(old(Snapshot()))
    {
      ghost var s := Snapshot();
      hide Structure;
      hide StructureBut;
      ResetOneKeepsStructure(s);
      PoppedIsUnowned(s);
      BatchIsLive(s);
      var a := e.timer;
      var t := heap[a];
      batch := batch[1..];
      if t.repeat && TimerId(a, t.sequence) !in canceling {
        RestartedIsUnowned(Popped(s), a);
        heap := heap[a := t.(expiration := now + t.delta)];
        var _ := InsertTimer(a);
      } else {
        assert a in heap;
        heap := heap - {a};
      }
    }

    /** reset, after handleRead has put callingExpiredTimers_ back to false. */
    method Reset(expired: seq<Entry>, now: int, clock: int)
      requires Structure(Snapshot()) && batch == expired && batchTime == now
      modifies this
      ensures Snapshot() == Rearmed(ResetAll(old(Snapshot())), clock)
    {
      ghost var before := Snapshot();
      hide Structure;
      for i := 0 to |expired|
        invariant Structure(Snapshot()) && batch == expired[i..] && batchTime == now
        invariant ResetAll(Snapshot()) == ResetAll(before)
      {
        ResetTimer(expired[i], now);
      }
      if timers != [] {
        var nextExpire := timers[0].when;
        if nextExpire > 0 {
          fd := Arm(nextExpire, clock);
        }
      }
    }

    /** One operation of a callback, or the kernel's shot; the loop thread runs it at once. */
    method Perform(op: CallbackOp)
      requires Inv(Snapshot())
      modifies this
      ensures Inv(Snapshot()) && Snapshot() == Step(old(Snapshot()), op)
      ensures batch == old(batch) && next == old(next) && batchTime == old(batchTime)
      ensures callingExpiredTimers == old(callingExpiredTimers)
    {
      StepKeepsInv(Snapshot(), op);
      match op
      case New(a, when, repeat, delta) =>
        if a != 0 && a !in heap { var _ := NewTimer(a, when, repeat, delta); }
      case AddInLoop(a, clock) =>
        if a in posted { AddTimerInLoop(a, clock); }
      case CancelInLoop(id) => Cancel(id);
      case Fire(clock) =>
        if fd.armed && fd.deadline <= clock { fd := fd.(pending := true, armed := false); }
    }
  
    /** handleRead.  The i-th callback does `callbacks(i)`, which may add and cancel timers, itself
        included; every pointer followed on the way is to an undeleted timer. */
    method HandleRead(now: int, callbacks: nat -> seq<CallbackOp>, clock: int)
      requires Inv(Snapshot()) && !callingExpiredTimers
      modifies this
      ensures Inv(Snapshot())
      ensures Snapshot() == Steps(old(Snapshot()),
                [BeginRead(now)] + BatchOps(callbacks, Due(old(timers), now)) + [EndRead(clock)])
    {
      ghost var s0 := Snapshot();
      hide Inv;
      hide Structure;
      BatchScript(s0, now, callbacks, clock);
      var expired := BeginBatch(now);
      RunBatch(expired, callbacks);
      ghost var s2 := Snapshot();
      StepKeepsInv(s2, EndRead(clock));
      ReadyToReset(s2);
      callingExpiredTimers := false;
      next := 0;
      Reset(expired, now, clock);
    }

    /** handleRead, down to `cancelingTimers_.clear()`. */
    method BeginBatch(now: int) returns (expired: seq<Entry>)
      requires Inv(Snapshot()) && !callingExpiredTimers
      modifies this
      ensures Inv(Snapshot()) && Snapshot() == Step(old(Snapshot()), BeginRead(now))
      ensures expired == batch == old(timers)[..Due(old(timers), now)]
      ensures callingExpiredTimers && next == 0 && batchTime == now
    {
      hide Inv, Structure, Due, Without, Arm;
      StepKeepsInv(Snapshot(), BeginRead(now));
      assert Step(Snapshot(), BeginRead(now)) == ReadBegun(Snapshot(), now);
      hide Step;
      FdFrame(Snapshot(), Snapshot().(fd := fd.(pending := false)));
      fd := fd.(pending := false);
      expired := GetExpired(now);
      callingExpiredTimers := true;
      canceling := {};
      next, batchTime, batchNo := 0, now, batchNo + 1;
    }

    /** The loop over the expired timers. */
    method RunBatch(expired: seq<Entry>, callbacks: nat -> seq<CallbackOp>)
      requires Inv(Snapshot()) && callingExpiredTimers && batch == expired && next == 0
      modifies this
      ensures Inv(Snapshot()) && Snapshot() == Steps(old(Snapshot()), BatchOps(callbacks, |expired|))
      ensures callingExpiredTimers && batch == expired && next == |expired| && batchTime == old(batchTime)
    {
      ghost var s1 := Snapshot();
      hide *;
      BatchStarts(s1, callbacks);
      for i := 0 to |expired|
        invariant Inv(Snapshot()) && callingExpiredTimers && batch == expired && next == i
            && batchTime == old(batchTime)
        invariant Snapshot() == Steps(s1, BatchOps(callbacks, i))
      {
        RunCallback(expired[i], callbacks(i));
        BatchGrows(s1, callbacks, i);
      }
    }

    /** `it.second->run()`. */
    method RunCallback(e: Entry, ops: seq<CallbackOp>)
      requires Inv(Snapshot()) && callingExpiredTimers && next < |batch| && batch[next] == e
      modifies this
      ensures Inv(Snapshot()) && callingExpiredTimers
      ensures batch == old(batch) && next == old(next) + 1 && batchTime == old(batchTime)
      ensures Snapshot() == Steps(old(Snapshot()), [RunNext] + ops)
    {
      ghost var s0 := Snapshot();
      hide Structure;
      StepKeepsInv(s0, RunNext);
      OneStep(s0, RunNext);
      BatchIsLive(s0);
      hide Inv;
      var t := heap[e.timer];
      runs := runs + [Run(t.sequence, t.repeat, t.delta, t.expiration, batchTime, batchNo)];
      next := next + 1;
      ghost var s1 := Snapshot();
      assert s1 == Step(s0, RunNext);
      for j := 0 to |ops|
        invariant Inv(Snapshot()) && callingExpiredTimers
        invariant batch == old(batch) && next == old(next) + 1 && batchTime == old(batchTime)
        invariant Snapshot() == Steps(s1, ops[..j])
      {
        StepsAppend(s1, ops[..j], [ops[j]]);
        OneStep(Snapshot(), ops[j]);
        Perform(ops[j]);
        assert ops[..j + 1] == ops[..j] + [ops[j]];
      }
      assert ops[..|ops|] == ops;
      StepsAppend(s0, [RunNext], ops);
    }
  }
}
