/** The bounded queue (muduo/base/BoundedBlockingQueue.h) as a monitor: any number of producers and
    consumers, each step a stretch of one thread from getting the mutex to releasing it.

    A waiting thread sleeps until a signal, or nothing at all, awakens it; awakened, it must get the
    mutex again, and threads that never slept may get it first. */
module BoundedQueues {
  import opened Common

  type Thread = nat

  /** `puts` and `takes` are what put pushed and take returned, in order. */
  datatype Queue<V> = Queue(
    capacity: nat, items: seq<V>,
    sleepC: set<Thread>, wokenC: set<Thread>,               // consumers in notEmpty_.wait
    sleepP: map<Thread, V>, wokenP: map<Thread, V>,         // producers in notFull_.wait
    puts: seq<V>, takes: seq<V>)

  function NewQueue<V>(capacity: nat): Queue<V> {
    Queue(capacity, [], {}, {}, map[], map[], [], [])
  }

  datatype Op<V> =
    | Put(t: Thread, x: V, wake: set<Thread>)   // put gets the mutex for the first time
    | PutAgain(t: Thread, wake: set<Thread>)    // put gets it back in wait
    | Take(t: Thread, wake: set<Thread>)
    | TakeAgain(t: Thread, wake: set<Thread>)
    | SpuriousP(t: Thread)
    | SpuriousC(t: Thread)

  /** notify: awakens at least one sleeper, if there is any. */
  predicate Signals(sleepers: set<Thread>, wake: set<Thread>) {
    wake <= sleepers && (sleepers != {} ==> wake != {})
  }

  predicate Idle<V>(q: Queue<V>, t: Thread) {
    t !in q.sleepC && t !in q.wokenC && t !in q.sleepP && t !in q.wokenP
  }

  predicate Full<V>(q: Queue<V>) { |q.items| == q.capacity }

  /** put's loop test and what follows it. */
  function TryPut<V>(q: Queue<V>, t: Thread, x: V, wake: set<Thread>): Queue<V> {
    if Full(q) then q.(sleepP := q.sleepP[t := x])
    else q.(items := q.items + [x], puts := q.puts + [x], sleepC := q.sleepC - wake, wokenC := q.wokenC + wake)
  }

  function Only<V>(m: map<Thread, V>, ts: set<Thread>): map<Thread, V> {
    map t | t in m && t in ts :: m[t]
  }

  /** take's. */
  function TryTake<V>(q: Queue<V>, t: Thread, wake: set<Thread>): Queue<V> {
    if |q.items| == 0 then q.(sleepC := q.sleepC + {t})
    else q.(items := q.items[1..], takes := q.takes + [q.items[0]],
            sleepP := q.sleepP - wake, wokenP := q.wokenP + Only(q.sleepP, wake))
  }

  predicate Legal<V>(q: Queue<V>, op: Op<V>) {
    match op
    case Put(t, _, wake) => Idle(q, t) && (!Full(q) ==> Signals(q.sleepC, wake))
    case PutAgain(t, wake) => t in q.wokenP && (!Full(q) ==> Signals(q.sleepC, wake))
    case Take(t, wake) => Idle(q, t) && (|q.items| > 0 ==> Signals(q.sleepP.Keys, wake))
    case TakeAgain(t, wake) => t in q.wokenC && (|q.items| > 0 ==> Signals(q.sleepP.Keys, wake))
    case SpuriousP(t) => t in q.sleepP
    case SpuriousC(t) => t in q.sleepC
  }

  function Step<V>(q: Queue<V>, op: Op<V>): Queue<V>
    requires Legal(q, op)
  {
    match op
    case Put(t, x, wake) => TryPut(q, t, x, wake)
    case PutAgain(t, wake) => TryPut(q.(wokenP := q.wokenP - {t}), t, q.wokenP[t], wake)
    case Take(t, wake) => TryTake(q, t, wake)
    case TakeAgain(t, wake) => TryTake(q.(wokenC := q.wokenC - {t}), t, wake)
    case SpuriousP(t) => q.(sleepP := q.sleepP - {t}, wokenP := q.wokenP[t := q.sleepP[t]])
    case SpuriousC(t) => q.(sleepC := q.sleepC - {t}, wokenC := q.wokenC + {t})
  }

  ghost predicate LegalRun<V>(q: Queue<V>, ops: seq<Op<V>>)
    decreases |ops|
  {
    ops == [] || (Legal(q, ops[0]) && LegalRun(Step(q, ops[0]), ops[1..]))
  }

  function Steps<V>(q: Queue<V>, ops: seq<Op<V>>): Queue<V>
    requires LegalRun(q, ops)
    decreases |ops|
  {
    if ops == [] then q else Steps(Step(q, ops[0]), ops[1..])
  }

  // ---- What every step keeps -----------------------------------------------------------------------------------

  ghost predicate Fifo<V>(q: Queue<V>) {
    q.puts == q.takes + q.items && |q.items| <= q.capacity
  }

  predicate Apart<V>(q: Queue<V>) {
    q.sleepC !! q.wokenC && q.sleepP.Keys !! q.wokenP.Keys && (q.sleepC + q.wokenC) !! (q.sleepP.Keys + q.wokenP.Keys)
  }

  /** While a consumer sleeps, an awakened one is on its way for every item; and likewise for the free
      places. */
  ghost predicate NoLostWakeup<V>(q: Queue<V>) {
    && (q.sleepC != {} ==> |q.items| <= |q.wokenC|)
    && (q.sleepP.Keys != {} ==> q.capacity - |q.items| <= |q.wokenP.Keys|)
  }

  ghost predicate Inv<V>(q: Queue<V>) {
    Fifo(q) && Apart(q) && NoLostWakeup(q)
  }

  lemma StepKeepsFifo<V>(q: Queue<V>, op: Op<V>)
    requires Fifo(q) && Legal(q, op)
    ensures Fifo(Step(q, op)) && Step(q, op).capacity == q.capacity
  {
  }

  lemma StepKeepsApart<V>(q: Queue<V>, op: Op<V>)
    requires Apart(q) && Legal(q, op)
    ensures Apart(Step(q, op))
  {
  }

  lemma Larger(a: set<Thread>, b: set<Thread>)
    requires b != {} && a !! b
    ensures |a + b| >= |a| + 1
  {
    var t :| t in b;
    assert a + b == a + {t} + (b - {t});
    assert |a + b| == |a| + |b|;
  }

  lemma StepKeepsNoLostWakeup<V>(q: Queue<V>, op: Op<V>)
    requires Inv(q) && Legal(q, op)
    ensures NoLostWakeup(Step(q, op))
  {
    hide TryPut, TryTake, Apart, Signals;
    match op
    case Put(t, x, wake) => PutKeeps(q, t, x, wake);
    case PutAgain(t, wake) =>
      WithoutProducer(q, t);
      PutKeeps(q.(wokenP := q.wokenP - {t}), t, q.wokenP[t], wake);
    case Take(t, wake) => TakeKeeps(q, t, wake);
    case TakeAgain(t, wake) =>
      WithoutConsumer(q, t);
      TakeKeeps(q.(wokenC := q.wokenC - {t}), t, wake);
    case SpuriousP(t) => SpuriousKeeps(q, op);
    case SpuriousC(t) => SpuriousKeeps(q, op);
  }

  lemma WithoutProducer<V>(q: Queue<V>, t: Thread)
    requires Apart(q) && t in q.wokenP
    ensures Apart(q.(wokenP := q.wokenP - {t})) && |q.wokenP.Keys| == |(q.wokenP - {t}).Keys| + 1
  {
    assert (q.wokenP - {t}).Keys == q.wokenP.Keys - {t};
  }

  lemma WithoutConsumer<V>(q: Queue<V>, t: Thread)
    requires Apart(q) && t in q.wokenC
    ensures Apart(q.(wokenC := q.wokenC - {t})) && |q.wokenC| == |q.wokenC - {t}| + 1
  {
  }

  /** `q'` has fewer sleepers and more awakened threads than `q`. */
  lemma MoreAwakened<V>(q: Queue<V>, q': Queue<V>)
    requires NoLostWakeup(q) && q'.items == q.items && q'.capacity == q.capacity
    requires q'.sleepC <= q.sleepC && |q.wokenC| <= |q'.wokenC|
    requires q'.sleepP.Keys <= q.sleepP.Keys && |q.wokenP.Keys| <= |q'.wokenP.Keys|
    ensures NoLostWakeup(q')
  {
  }

  lemma Grown(a: set<Thread>, t: Thread)
    ensures |a| <= |a + {t}|
  {
    if t in a { assert a + {t} == a; }
  }

  lemma SpuriousProducer<V>(q: Queue<V>, t: Thread, x: V)
    requires NoLostWakeup(q)
    ensures NoLostWakeup(q.(sleepP := q.sleepP - {t}, wokenP := q.wokenP[t := x]))
  {
    var q' := q.(sleepP := q.sleepP - {t}, wokenP := q.wokenP[t := x]);
    assert q'.wokenP.Keys == q.wokenP.Keys + {t};
    Grown(q.wokenP.Keys, t);
    hide NoLostWakeup;
    MoreAwakened(q, q');
  }

  lemma SpuriousConsumer<V>(q: Queue<V>, t: Thread)
    requires NoLostWakeup(q)
    ensures NoLostWakeup(q.(sleepC := q.sleepC - {t}, wokenC := q.wokenC + {t}))
  {
    Grown(q.wokenC, t);
    hide NoLostWakeup;
    MoreAwakened(q, q.(sleepC := q.sleepC - {t}, wokenC := q.wokenC + {t}));
  }

  lemma SpuriousKeeps<V>(q: Queue<V>, op: Op<V>)
    requires Inv(q) && Legal(q, op) && (op.SpuriousP? || op.SpuriousC?)
    ensures NoLostWakeup(Step(q, op))
  {
    hide NoLostWakeup, Fifo, Apart;
    if op.SpuriousP? { SpuriousProducer(q, op.t, q.sleepP[op.t]); } else { SpuriousConsumer(q, op.t); }
  }

  /** The producer that is just running may be the one that is missing. */
  lemma PutKeeps<V>(q: Queue<V>, t: Thread, x: V, wake: set<Thread>)
    requires Apart(q) && |q.items| <= q.capacity && (!Full(q) ==> Signals(q.sleepC, wake))
    requires q.sleepC != {} ==> |q.items| <= |q.wokenC|
    requires q.sleepP.Keys != {} ==> q.capacity - |q.items| <= |q.wokenP.Keys| + 1
    ensures NoLostWakeup(TryPut(q, t, x, wake))
  {
    if !Full(q) && q.sleepC != {} { Larger(q.wokenC, wake); }
  }

  lemma TakeKeeps<V>(q: Queue<V>, t: Thread, wake: set<Thread>)
    requires Apart(q) && |q.items| <= q.capacity && (|q.items| > 0 ==> Signals(q.sleepP.Keys, wake))
    requires q.sleepC != {} ==> |q.items| <= |q.wokenC| + 1
    requires q.sleepP.Keys != {} ==> q.capacity - |q.items| <= |q.wokenP.Keys|
    ensures NoLostWakeup(TryTake(q, t, wake))
  {
    if |q.items| > 0 {
      KeysMove(q.sleepP, q.wokenP, wake);
      if q.sleepP.Keys != {} { Larger(q.wokenP.Keys, wake); }
      hide Only;
    }
  }

  lemma KeysMove<V>(from: map<Thread, V>, to: map<Thread, V>, ts: set<Thread>)
    requires ts <= from.Keys
    ensures (from - ts).Keys == from.Keys - ts && (to + Only(from, ts)).Keys == to.Keys + ts
  {
  }

  lemma {:induction false} StepsKeepInv<V>(q: Queue<V>, ops: seq<Op<V>>)
    requires Inv(q) && LegalRun(q, ops)
    ensures Inv(Steps(q, ops)) && Steps(q, ops).capacity == q.capacity
    decreases |ops|
  {
    hide Step, Fifo, Apart, NoLostWakeup, Legal;
    if ops != [] {
      StepKeepsFifo(q, ops[0]);
      StepKeepsApart(q, ops[0]);
      StepKeepsNoLostWakeup(q, ops[0]);
      StepsKeepInv(Step(q, ops[0]), ops[1..]);
    }
  }

  /** Over every run: the items are those put and not yet taken, in order, and never more than fit; and
      no wakeup is lost. */
  lemma EveryRun<V>(capacity: nat, ops: seq<Op<V>>)
    requires LegalRun(NewQueue(capacity), ops)
    ensures var q := Steps(NewQueue(capacity), ops);
      && q.puts == q.takes + q.items && |q.items| <= capacity
      && (q.sleepC != {} ==> |q.items| <= |q.wokenC|)
      && (q.sleepP.Keys != {} ==> capacity - |q.items| <= |q.wokenP.Keys|)
  {
    StepsKeepInv(NewQueue(capacity), ops);
  }

  /** All asleep, with nobody awakened: producers and consumers wait for each other. */
  ghost predicate Stuck<V>(q: Queue<V>) {
    q.sleepC != {} && q.sleepP.Keys != {} && q.wokenC == {} && q.wokenP.Keys == {}
  }

  ghost predicate CanGetStuck<V(!new)>(capacity: nat) {
    exists ops: seq<Op<V>> :: LegalRun(NewQueue(capacity), ops) && Stuck(Steps(NewQueue(capacity), ops))
  }

  /** Producers and consumers can come to wait for each other exactly when the capacity is zero. */
  lemma StuckExactly<V(!new)>(capacity: nat, x: V)
    ensures CanGetStuck<V>(capacity) <==> capacity == 0
  {
    forall ops: seq<Op<V>> | LegalRun(NewQueue(capacity), ops) && Stuck(Steps(NewQueue(capacity), ops))
      ensures capacity == 0
    {
      EveryRun(capacity, ops);
    }
    if capacity == 0 { ZeroGetsStuck(x); }
  }

  lemma ZeroGetsStuck<V(!new)>(x: V)
    ensures CanGetStuck<V>(0)
  {
    var ops: seq<Op<V>> := [Put(0, x, {}), Take(1, {})];
    var q0: Queue<V> := NewQueue(0);
    var q1 := Step(q0, ops[0]);
    assert q1.sleepP == map[0 := x] && 0 in q1.sleepP;
    var q2 := Step(q1, ops[1]);
    assert ops[1..] == [Take(1, {})] && ops[1..][1..] == [];
    assert LegalRun(q2, []) && Steps(q2, []) == q2;
    assert LegalRun(q1, ops[1..]) && Steps(q1, ops[1..]) == q2;
    assert LegalRun(q0, ops) && Steps(q0, ops) == q2;
    assert 1 in q2.sleepC && Stuck(q2);
  }

  // ---- Every call does its work ---------------------------------------------------------------------------------

  predicate Holds<V(==)>(q: Queue<V>, t: Thread, x: V) {
    (t in q.sleepP && q.sleepP[t] == x) || (t in q.wokenP && q.wokenP[t] == x)
  }

  predicate Waits<V>(q: Queue<V>, t: Thread) {
    t in q.sleepC || t in q.wokenC
  }

  lemma PutByStep<V>(q: Queue<V>, op: Op<V>, t: Thread, x: V)
    requires Apart(q) && Legal(q, op)
    ensures var q' := Step(q, op);
      && q.puts <= q'.puts
      && (Holds(q, t, x) ==> Holds(q', t, x) || (|q'.puts| > |q.puts| && q'.puts[|q.puts|] == x))
  {
  }

  lemma TakeByStep<V>(q: Queue<V>, op: Op<V>, t: Thread)
    requires Legal(q, op)
    ensures var q' := Step(q, op);
      && q.takes <= q'.takes && (Waits(q, t) ==> Waits(q', t) || |q'.takes| > |q.takes|)
  {
  }

  /** `x` has been put since there were `n` puts. */
  predicate PutSince<V(==)>(q: Queue<V>, n: nat, x: V) {
    n <= |q.puts| && x in q.puts[n..]
  }

  lemma PutStays<V>(q: Queue<V>, q': Queue<V>, n: nat, x: V)
    requires n <= |q.puts| && q.puts <= q'.puts
    ensures PutSince(q, n, x) ==> PutSince(q', n, x)
    ensures |q'.puts| > |q.puts| && q'.puts[|q.puts|] == x ==> PutSince(q', n, x)
  {
    if PutSince(q, n, x) {
      var i :| n <= i < |q.puts| && q.puts[i] == x;
      assert q'.puts[n..][i - n] == x;
    }
    if |q'.puts| > |q.puts| { assert q'.puts[n..][|q.puts| - n] == q'.puts[|q.puts|]; }
  }

  lemma {:induction false} PutByRun<V>(q: Queue<V>, ops: seq<Op<V>>, t: Thread, x: V, n: nat)
    requires Inv(q) && LegalRun(q, ops) && n <= |q.puts| && (Holds(q, t, x) || PutSince(q, n, x))
    ensures Holds(Steps(q, ops), t, x) || PutSince(Steps(q, ops), n, x)
    decreases |ops|
  {
    if ops != [] {
      hide Step, Legal, Holds, PutSince, Fifo, Apart, NoLostWakeup;
      PutByStep(q, ops[0], t, x);
      PutStays(q, Step(q, ops[0]), n, x);
      StepKeepsFifo(q, ops[0]);
      StepKeepsApart(q, ops[0]);
      StepKeepsNoLostWakeup(q, ops[0]);
      PutByRun(Step(q, ops[0]), ops[1..], t, x, n);
    }
  }

  lemma {:induction false} TakeByRun<V>(q: Queue<V>, ops: seq<Op<V>>, t: Thread, n: nat)
    requires LegalRun(q, ops) && (|q.takes| > n || Waits(q, t)) && n <= |q.takes|
    ensures |Steps(q, ops).takes| > n || Waits(Steps(q, ops), t)
    decreases |ops|
  {
    if ops != [] {
      hide Step, Legal, Waits;
      TakeByStep(q, ops[0], t);
      TakeByRun(Step(q, ops[0]), ops[1..], t, n);
    }
  }

  /** put and take are not lost: over every run that follows, what the thread was to put has been put, or
      the thread waits with it; and something has been taken, or the thread waits.  They wait only if the
      queue was full, or empty. */
  lemma CallsDoTheirWork<V>(q: Queue<V>, op: Op<V>, ops: seq<Op<V>>)
    requires Inv(q) && (op.Put? || op.Take?) && Legal(q, op) && LegalRun(Step(q, op), ops)
    ensures var q', r := Step(q, op), Steps(Step(q, op), ops);
      if op.Put? then
        && (PutSince(r, |q.puts|, op.x) || Holds(r, op.t, op.x))
        && (|q.items| < q.capacity <==> q'.puts == q.puts + [op.x])
      else
        && (|r.takes| > |q.takes| || Waits(r, op.t))
        && (q.items != [] <==> |q'.takes| == |q.takes| + 1)
  {
    var q1 := Step(q, op);
    hide Steps, LegalRun, Apart, NoLostWakeup;
    if op.Put? {
      PutIsBegun(q, op);
      PutByRun(q1, ops, op.t, op.x, |q.puts|);
    } else {
      TakeByRun(q1, ops, op.t, |q.takes|);
    }
  }

  lemma PutIsBegun<V>(q: Queue<V>, op: Op<V>)
    requires Inv(q) && op.Put? && Legal(q, op)
    ensures var q' := Step(q, op);
      && Inv(q') && |q.puts| <= |q'.puts| && (Holds(q', op.t, op.x) || PutSince(q', |q.puts|, op.x))
      && (|q.items| < q.capacity <==> q'.puts == q.puts + [op.x])
  {
    StepKeepsFifo(q, op);
    StepKeepsApart(q, op);
    StepKeepsNoLostWakeup(q, op);
    PutStays(q, Step(q, op), |q.puts|, op.x);
    hide Apart, NoLostWakeup;
  }

  // ---- The class --------------------------------------------------------------------------------------------------

  class BoundedBlockingQueue<V> {
    const capacity: nat
    var items: seq<V>
    ghost var sleepC: set<Thread>
    ghost var wokenC: set<Thread>
    ghost var sleepP: map<Thread, V>
    ghost var wokenP: map<Thread, V>
    ghost var puts: seq<V>
    ghost var takes: seq<V>

    ghost function Snapshot(): Queue<V>
      reads this
    {
      Queue(capacity, items, sleepC, wokenC, sleepP, wokenP, puts, takes)
    }

    constructor (maxSize: nat)
      ensures Snapshot() == NewQueue(maxSize)
    {
      capacity, items := maxSize, [];
      sleepC, wokenC, sleepP, wokenP, puts, takes := {}, {}, map[], map[], [], [];
    }

    ghost method NotifyNotEmpty(wake: set<Thread>)
      modifies this`sleepC, this`wokenC
      ensures sleepC == old(sleepC) - wake && wokenC == old(wokenC) + wake
    {
      sleepC, wokenC := sleepC - wake, wokenC + wake;
    }

    ghost method NotifyNotFull(wake: set<Thread>)
      modifies this`sleepP, this`wokenP
      ensures sleepP == old(sleepP) - wake
      ensures wokenP == old(wokenP) + Only(old(sleepP), wake)
    {
      sleepP, wokenP := sleepP - wake, wokenP + Only(sleepP, wake);
    }

    /** put, from getting the mutex to giving it up: whether it is done, or waits. */
    method Put(ghost t: Thread, x: V, ghost wake: set<Thread>) returns (done: bool)
      modifies this
      ensures done <==> |old(items)| != capacity
      ensures Snapshot() == TryPut(old(Snapshot()), t, x, wake)
    {
      if |items| == capacity {
        sleepP := sleepP[t := x];
        return false;
      }
      assert |items| != capacity;
      items := items + [x];
      puts := puts + [x];
      NotifyNotEmpty(wake);
      done := true;
    }

    /** take, likewise. */
    method Take(ghost t: Thread, ghost wake: set<Thread>) returns (front: Option<V>)
      modifies this
      ensures front == if old(items) == [] then None else Some(old(items)[0])
      ensures Snapshot() == TryTake(old(Snapshot()), t, wake)
    {
      if |items| == 0 {
        sleepC := sleepC + {t};
        return None;
      }
      front := Some(items[0]);
      takes := takes + [items[0]];
      items := items[1..];
      NotifyNotFull(wake);
    }
  }
}
