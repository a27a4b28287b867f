/** pendingFunctors_, the batch doPendingFunctors swaps it into, and where a loop thread can be. */
module FunctorQueues {
  /** `batch` is doPendingFunctors' local vector; it keeps its functors until it is destroyed. */
  datatype FunctorQueue<F> = FunctorQueue(pending: seq<F>, batch: seq<F>, next: nat) {
    /** Everything still to run, oldest first. */
    function Waiting(): seq<F> {
      (if next <= |batch| then batch[next..] else []) + pending
    }

    function Pushed(f: F): FunctorQueue<F> {
      this.(pending := pending + [f])
    }

    function Swapped(): FunctorQueue<F> {
      FunctorQueue([], pending, 0)
    }

    function Advanced(): FunctorQueue<F> {
      this.(next := next + 1)
    }

    function Finished(): FunctorQueue<F> {
      FunctorQueue(pending, [], 0)
    }
  }

  /** FIFO: pushing appends, swapping keeps the order, running takes the oldest. */
  lemma QueueIsFifo<F>(q: FunctorQueue<F>, f: F)
    ensures q.Pushed(f).Waiting() == q.Waiting() + [f]
    ensures q.batch == [] && q.next == 0 ==> q.Swapped().Waiting() == q.Waiting()
    ensures q.next < |q.batch| ==> q.Waiting() == [q.batch[q.next]] + q.Advanced().Waiting()
    ensures q.next == |q.batch| ==> q.Finished().Waiting() == q.Waiting()
  {
  }

  /** Where the loop thread is: not in any of the three phases, blocked in poll, calling event
      handlers, or calling functors (callingPendingFunctors_). */
  datatype Phase = Outside | Polling | Handling | Calling
}

/** The functor queue of an event loop and the eventfd that wakes its poll
    (muduo/net/EventLoop.cpp: loop, quit, queueInLoop, wakeup, handleRead, doPendingFunctors).

    A mutex region is one step.  Other threads act between any two steps of the loop thread. */
module EventLoops {
  import opened FunctorQueues

  // ---- One loop ------------------------------------------------------------------------------------

  datatype Loop<F> = Loop(
    q: FunctorQueue<F>,
    phase: Phase,
    looping: bool,
    quit: bool,
    wakeups: nat,       // the eventfd's counter
    writers: nat,       // other threads between a push (or quit_ = true) and their wakeup()
    quiet: nat,         // functors in `pending` whose queueInLoop did not call wakeup()
    queued: seq<F>,     // history
    executed: seq<F>)   // history

  function Fresh<F>(): Loop<F> {
    Loop(FunctorQueue([], [], 0), Outside, false, false, 0, 0, 0, [], [])
  }

  datatype Op<F> =
    | PostOther(f: F)
    | QuitOther
    | WakeupOther
    | PostSelf(g: F)
    | QuitSelf
    | StartLoop
    | EnterPoll
    | PollReturn
    | HandleWakeup
    | EnterFunctors
    | RunNext
    | LeaveFunctors
    | StopLoop

  /** queueInLoop's critical section. */
  function Pushed<F>(s: Loop<F>, f: F): Loop<F> {
    s.(q := s.q.Pushed(f), queued := s.queued + [f])
  }

  /** doPendingFunctors' critical section. */
  function SwappedIn<F>(s: Loop<F>): Loop<F> {
    s.(phase := Calling, q := FunctorQueue([], s.q.pending, 0), quiet := 0)
  }

  function Step<F>(s: Loop<F>, op: Op<F>): Loop<F> {
    match op
    case PostOther(f) => Pushed(s, f).(writers := s.writers + 1)
    case QuitOther => s.(quit := true, writers := s.writers + 1)
    case WakeupOther => if s.writers > 0 then s.(writers := s.writers - 1, wakeups := s.wakeups + 1) else s
    case PostSelf(f) =>
      if s.phase == Polling then s
      else if s.phase == Calling then Pushed(s, f).(wakeups := s.wakeups + 1)
      else Pushed(s, f).(quiet := s.quiet + 1)
    case QuitSelf => if s.phase == Polling then s else s.(quit := true)
    case StartLoop => if s.phase == Outside && !s.looping then s.(looping := true, quit := false) else s
    case EnterPoll => if s.phase == Outside && s.looping && !s.quit then s.(phase := Polling) else s
    case PollReturn => if s.phase == Polling then s.(phase := Handling) else s
    case HandleWakeup => if s.phase == Handling then s.(wakeups := 0) else s
    case EnterFunctors => if s.phase == Handling then SwappedIn(s) else s
    case RunNext =>
      if s.phase == Calling && s.q.next < |s.q.batch| then
        s.(q := s.q.Advanced(), executed := s.executed + [s.q.batch[s.q.next]])
      else s
    case LeaveFunctors =>
      if s.phase == Calling && s.q.next == |s.q.batch| then s.(phase := Outside, q := s.q.Finished()) else s
    case StopLoop => if s.phase == Outside && s.looping && s.quit then s.(looping := false) else s
  }

  function Steps<F>(s: Loop<F>, ops: seq<Op<F>>): Loop<F>
    decreases |ops|
  {
    if ops == [] then s else Steps(Step(s, ops[0]), ops[1..])
  }

  // ---- Exactly once, in order ------------------------------------------------------------------------

  ghost predicate Ordered<F>(s: Loop<F>) {
    && s.q.next <= |s.q.batch|
    && (s.phase != Calling ==> s.q.batch == [])
    && s.queued == s.executed + s.q.Waiting()
  }

  lemma PushKeepsOrdered<F>(s: Loop<F>, f: F)
    requires Ordered(s)
    ensures Ordered(Pushed(s, f))
  {
    QueueIsFifo(s.q, f);
    assert s.executed + (s.q.Waiting() + [f]) == s.executed + s.q.Waiting() + [f];
  }

  lemma RunKeepsOrdered<F>(s: Loop<F>)
    requires Ordered(s)
    ensures Ordered(Step(s, RunNext))
  {
    if s.phase == Calling && s.q.next < |s.q.batch| {
      var f := s.q.batch[s.q.next];
      QueueIsFifo(s.q, f);
      assert s.executed + ([f] + s.q.Advanced().Waiting()) == s.executed + [f] + s.q.Advanced().Waiting();
    }
  }

  lemma StepKeepsOrdered<F>(s: Loop<F>, op: Op<F>)
    requires Ordered(s)
    ensures Ordered(Step(s, op))
  {
    match op
    case PostOther(f) => PushKeepsOrdered(s, f); hide Pushed;
    case PostSelf(f) => PushKeepsOrdered(s, f); hide Pushed;
    case EnterFunctors => assert s.phase == Handling ==> s.q.Swapped().Waiting() == s.q.Waiting();
    case RunNext => RunKeepsOrdered(s); hide Ordered;
    case LeaveFunctors => assert s.q.next == |s.q.batch| ==> s.q.Finished().Waiting() == s.q.Waiting();
    case _ =>
  }

  /** At every moment of every run: what has run, then the rest of the batch, then what is pending,
      is exactly everything ever queued, in order. */
  lemma {:induction false} ExactlyOnceInOrder<F>(s: Loop<F>, ops: seq<Op<F>>)
    requires Ordered(s)
    ensures Ordered(Steps(s, ops))
    ensures var t := Steps(s, ops); t.executed <= t.queued
    decreases |ops|
  {
    if ops != [] {
      StepKeepsOrdered(s, ops[0]);
      ExactlyOnceInOrder(Step(s, ops[0]), ops[1..]);
    }
  }

  // ---- Wakeups -----------------------------------------------------------------------------------------

  /** Something will end the poll: the eventfd is readable, or about to be written. */
  predicate Woken<F>(s: Loop<F>) {
    s.wakeups > 0 || s.writers > 0
  }

  /** A functor queued with a wakeup, or a quit, cannot be slept through. */
  ghost predicate Attentive<F>(s: Loop<F>) {
    && s.quiet <= |s.q.pending|
    && (s.phase != Handling && s.quiet < |s.q.pending| ==> Woken(s))
    && (s.phase == Polling && s.quit ==> Woken(s))
  }

  lemma StepKeepsAttentive<F>(s: Loop<F>, op: Op<F>)
    requires Attentive(s)
    ensures Attentive(Step(s, op))
  {
  }

  /** The posts that queueInLoop leaves without a wakeup and no swap is bound to follow. */
  predicate QuietPost<F>(s: Loop<F>, op: Op<F>) {
    op.PostSelf? && s.phase == Outside
  }

  ghost predicate NeverQuiet<F>(s: Loop<F>, ops: seq<Op<F>>)
    decreases |ops|
  {
    ops == [] || (!QuietPost(s, ops[0]) && NeverQuiet(Step(s, ops[0]), ops[1..]))
  }

  /** In every run at all: if the loop is blocked in poll with functors pending and nothing to wake
      it, then each of those functors was queued without a wakeup; and a quit is never slept through. */
  lemma {:induction false} OnlyQuietPostsAreLost<F>(s: Loop<F>, ops: seq<Op<F>>)
    requires Attentive(s)
    ensures var t := Steps(s, ops);
            t.phase == Polling && !Woken(t) ==> t.quiet == |t.q.pending| && !t.quit
    decreases |ops|
  {
    if ops != [] {
      StepKeepsAttentive(s, ops[0]);
      OnlyQuietPostsAreLost(Step(s, ops[0]), ops[1..]);
    }
  }

  /** No lost wakeup: as long as the loop thread queues only from event handlers and functors,
      whenever the loop is blocked with work pending, something will wake it. */
  lemma {:induction false} NoLostWakeup<F>(s: Loop<F>, ops: seq<Op<F>>)
    requires Attentive(s) && (s.phase != Handling ==> s.quiet == 0) && NeverQuiet(s, ops)
    ensures var t := Steps(s, ops);
            t.phase == Polling && (t.q.pending != [] || t.quit) ==> Woken(t)
    decreases |ops|
  {
    if ops != [] {
      StepKeepsAttentive(s, ops[0]);
      NoLostWakeup(Step(s, ops[0]), ops[1..]);
    }
  }

  /** On the way from outside the phases to poll: other threads do anything, the loop's thread queues,
      enters loop() and polls. */
  predicate OnTheWay<F>(op: Op<F>) {
    || op.PostOther? || op.QuitOther? || op.WakeupOther?
    || op.PostSelf? || op.StartLoop? || op.EnterPoll?
  }

  /** These steps reach poll if no other thread quits: a poll of a running loop, or loop() and then a
      poll. */
  ghost predicate ReachesPoll<F>(looping: bool, quit: bool, ops: seq<Op<F>>) {
    if looping then !quit && exists i :: 0 <= i < |ops| && ops[i].EnterPoll?
    else exists i, j :: 0 <= i < j < |ops| && ops[i].StartLoop? && ops[j].EnterPoll?
  }

  ghost predicate OthersQuit<F>(ops: seq<Op<F>>) {
    exists i :: 0 <= i < |ops| && ops[i].QuitOther?
  }

  ghost predicate OthersPost<F>(ops: seq<Op<F>>) {
    exists i :: 0 <= i < |ops| && ops[i].PostOther?
  }

  /** The other case, exactly: a functor the loop's thread queues outside its phases, before loop() or in
      a functor's destructor, is slept on just when the loop goes on to poll, nothing was about to wake
      it, and on the way no other thread queues or quits. */
  lemma QuietPostIsLostExactly<F>(s: Loop<F>, f: F, ops: seq<Op<F>>)
    requires s.phase == Outside && forall i | 0 <= i < |ops| :: OnTheWay(ops[i])
    ensures var t := Steps(Step(s, PostSelf(f)), ops);
            && s.q.pending + [f] <= t.q.pending
            && (!OthersQuit(ops) ==> (t.phase == Polling <==> ReachesPoll(s.looping, s.quit, ops)))
            && (t.phase == Polling && !Woken(t) <==>
                 ReachesPoll(s.looping, s.quit, ops) && s.wakeups == 0 && s.writers == 0
                 && !OthersPost(ops) && !OthersQuit(ops))
  {
    hide Steps, ReachesPoll, OthersPost, OthersQuit;
    var s' := Step(s, PostSelf(f));
    WokenExactly(s', ops);
    if !OthersQuit(ops) { PollingExactly(s', ops); }
  }

  lemma OthersFrom<F>(ops: seq<Op<F>>)
    requires ops != []
    ensures OthersPost(ops) <==> ops[0].PostOther? || OthersPost(ops[1..])
    ensures OthersQuit(ops) <==> ops[0].QuitOther? || OthersQuit(ops[1..])
  {
    assert forall i :: 0 <= i < |ops| - 1 ==> ops[1..][i] == ops[i + 1];
    if i :| 0 < i < |ops| && ops[i].PostOther? { assert ops[1..][i - 1].PostOther?; }
    if i :| 0 < i < |ops| && ops[i].QuitOther? { assert ops[1..][i - 1].QuitOther?; }
    if i :| 0 <= i < |ops| - 1 && ops[1..][i].PostOther? { assert ops[i + 1].PostOther?; }
    if i :| 0 <= i < |ops| - 1 && ops[1..][i].QuitOther? { assert ops[i + 1].QuitOther?; }
  }

  lemma {:induction false} WokenExactly<F>(s: Loop<F>, ops: seq<Op<F>>)
    requires s.phase == Outside || s.phase == Polling
    requires forall i | 0 <= i < |ops| :: OnTheWay(ops[i])
    ensures Woken(Steps(s, ops)) <==> Woken(s) || OthersPost(ops) || OthersQuit(ops)
    ensures s.q.pending <= Steps(s, ops).q.pending
    decreases |ops|
  {
    if ops != [] {
      WokenExactly(Step(s, ops[0]), ops[1..]);
      assert OnTheWay(ops[0]);
      OthersFrom(ops);
      hide OthersPost, OthersQuit;
    }
  }

  lemma {:induction false} PollingExactly<F>(s: Loop<F>, ops: seq<Op<F>>)
    requires s.phase == Outside || (s.phase == Polling && s.looping)
    requires forall i | 0 <= i < |ops| :: OnTheWay(ops[i])
    requires !OthersQuit(ops)
    ensures Steps(s, ops).phase == Polling <==> s.phase == Polling || ReachesPoll(s.looping, s.quit, ops)
    decreases |ops|
  {
    if ops != [] {
      assert OnTheWay(ops[0]);
      OthersFrom(ops);
      PollingExactly(Step(s, ops[0]), ops[1..]);
      ReachesFrom(s.looping, s.quit, ops);
      hide ReachesPoll, OthersQuit;
    }
  }

  lemma ReachesFrom<F>(looping: bool, quit: bool, ops: seq<Op<F>>)
    requires ops != []
    ensures looping ==>
      (ReachesPoll(looping, quit, ops) <==> !quit && (ops[0].EnterPoll? || ReachesPoll(looping, quit, ops[1..])))
    ensures !looping ==>
      (ReachesPoll(looping, quit, ops) <==>
        (ops[0].StartLoop? && ReachesPoll(true, false, ops[1..])) || ReachesPoll(false, quit, ops[1..]))
    ensures !looping && ReachesPoll(false, quit, ops[1..]) ==> ReachesPoll(true, false, ops[1..])
  {
    assert forall i :: 0 <= i < |ops| - 1 ==> ops[1..][i] == ops[i + 1];
    if looping {
      if i :| 0 < i < |ops| && ops[i].EnterPoll? { assert ops[1..][i - 1].EnterPoll?; }
    } else {
      if i, j :| 0 <= i < j < |ops| && ops[i].StartLoop? && ops[j].EnterPoll? {
        assert ops[1..][j - 1].EnterPoll?;
        if i > 0 { assert ops[1..][i - 1].StartLoop?; }
      }
      if i, j :| 0 <= i < j < |ops| - 1 && ops[1..][i].StartLoop? && ops[1..][j].EnterPoll? {
        assert ops[i + 1].StartLoop? && ops[j + 1].EnterPoll?;
      }
    }
  }

  /** queueInLoop on the loop thread before loop(): the first poll sleeps on it. */
  lemma PostBeforeLoopIsSleptOn(f: int)
    ensures var t := Step(Step(Step(Fresh<int>(), PostSelf(f)), StartLoop), EnterPoll);
            t.phase == Polling && t.q.pending == [f] && !Woken(t)
  {
  }

  /** quit() before loop() is forgotten: loop() clears quit_ on entry. */
  lemma QuitBeforeLoopIsForgotten()
    ensures var t := Step(Step(Step(Fresh<int>(), QuitSelf), StartLoop), EnterPoll);
            t.phase == Polling && !t.quit && !Woken(t)
  {
  }

  /** loop() is entered in this run. */
  ghost predicate Starts<F>(s: Loop<F>, ops: seq<Op<F>>)
    decreases |ops|
  {
    ops != [] && ((ops[0].StartLoop? && s.phase == Outside && !s.looping) || Starts(Step(s, ops[0]), ops[1..]))
  }

  /** Over every run that follows it, a quit is remembered exactly if loop() is not entered; and a loop
      that remembers it polls no more. */
  lemma {:induction false} QuitIsForgottenExactly<F>(s: Loop<F>, ops: seq<Op<F>>)
    requires s.quit && forall i | 0 <= i < |ops| :: !ops[i].QuitSelf? && !ops[i].QuitOther?
    ensures Steps(s, ops).quit <==> !Starts(s, ops)
    ensures Steps(s, ops).quit && Steps(s, ops).phase == Outside ==> Step(Steps(s, ops), EnterPoll).phase == Outside
    decreases |ops|
  {
    if ops != [] {
      var s' := Step(s, ops[0]);
      if ops[0].StartLoop? && s.phase == Outside && !s.looping {
        NotQuitAgain(s', ops[1..]);
      } else {
        QuitIsForgottenExactly(s', ops[1..]);
      }
    }
  }

  lemma {:induction false} NotQuitAgain<F>(s: Loop<F>, ops: seq<Op<F>>)
    requires !s.quit && forall i | 0 <= i < |ops| :: !ops[i].QuitSelf? && !ops[i].QuitOther?
    ensures !Steps(s, ops).quit
    decreases |ops|
  {
    if ops != [] { NotQuitAgain(Step(s, ops[0]), ops[1..]); }
  }

  /** A quit takes effect, whoever calls it and when: over every run that follows it without a new loop(),
      the loop remembers it, is not left asleep, polls no more and returns. */
  lemma QuitEndsLoop<F>(s: Loop<F>, op: Op<F>, ops: seq<Op<F>>)
    requires Attentive(s) && (op.QuitOther? || (op.QuitSelf? && s.phase != Polling)) && !Starts(Step(s, op), ops)
    ensures var t := Steps(Step(s, op), ops);
      && t.quit && (t.phase == Polling ==> Woken(t))
      && (t.phase == Outside ==> Step(t, EnterPoll).phase == Outside)
      && (t.phase == Outside && t.looping ==> !Step(t, StopLoop).looping)
  {
    StepKeepsAttentive(s, op);
    QuitStays(Step(s, op), ops);
  }

  lemma {:induction false} QuitStays<F>(s: Loop<F>, ops: seq<Op<F>>)
    requires Attentive(s) && s.quit && !Starts(s, ops)
    ensures Attentive(Steps(s, ops)) && Steps(s, ops).quit
    decreases |ops|
  {
    if ops != [] {
      StepKeepsAttentive(s, ops[0]);
      QuitStays(Step(s, ops[0]), ops[1..]);
    }
  }

  /** And without a quit loop() does not return. */
  lemma {:induction false} LoopRunsOn<F>(s: Loop<F>, ops: seq<Op<F>>)
    requires s.looping && !s.quit && forall i | 0 <= i < |ops| :: !ops[i].QuitSelf? && !ops[i].QuitOther?
    ensures Steps(s, ops).looping && !Steps(s, ops).quit
    decreases |ops|
  {
    if ops != [] { LoopRunsOn(Step(s, ops[0]), ops[1..]); }
  }

  /** In this run something is queued, or a quit made, with a wakeup: by another thread, or in a functor. */
  ghost predicate Loud<F>(s: Loop<F>, ops: seq<Op<F>>)
    decreases |ops|
  {
    ops != [] &&
    (ops[0].PostOther? || ops[0].QuitOther? || (ops[0].PostSelf? && s.phase == Calling)
     || Loud(Step(s, ops[0]), ops[1..]))
  }

  /** Once the wakeup channel has been read, the eventfd is readable, or about to be, exactly if a wakeup was
      under way or one has been caused since. */
  lemma DrainedExactly<F>(s: Loop<F>, ops: seq<Op<F>>)
    requires s.phase == Handling && forall i | 0 <= i < |ops| :: !ops[i].HandleWakeup?
    ensures var s' := Step(s, HandleWakeup); Woken(Steps(s', ops)) <==> s.writers > 0 || Loud(s', ops)
  {
    WokenSince(Step(s, HandleWakeup), ops);
  }

  lemma {:induction false} WokenSince<F>(s: Loop<F>, ops: seq<Op<F>>)
    requires forall i | 0 <= i < |ops| :: !ops[i].HandleWakeup?
    ensures Woken(Steps(s, ops)) <==> Woken(s) || Loud(s, ops)
    decreases |ops|
  {
    if ops != [] { WokenSince(Step(s, ops[0]), ops[1..]); }
  }

  // ---- The class -----------------------------------------------------------------------------------------

  /** What may happen while the loop thread is inside an event handler or a functor: it queues or
      quits itself, or other threads do. */
  type PhaseOp<!F> = op: Op<F> | op.PostOther? || op.QuitOther? || op.WakeupOther? || op.PostSelf? || op.QuitSelf?
    witness QuitSelf

  /** The steps of the first `n` functors of a batch, during the i-th of which `during(i)` happens. */
  ghost function BatchOps<F>(during: nat -> seq<PhaseOp<F>>, n: nat): seq<Op<F>> {
    if n == 0 then [] else BatchOps(during, n - 1) + ([RunNext] + during(n - 1))
  }

  lemma {:induction false} StepsAppend<F>(s: Loop<F>, a: seq<Op<F>>, b: seq<Op<F>>)
    ensures Steps(s, a + b) == Steps(Steps(s, a), b)
    decreases |a|
  {
    if a == [] {
      assert a + b == b;
    } else {
      assert (a + b)[1..] == a[1..] + b;
      StepsAppend(Step(s, a[0]), a[1..], b);
    }
  }

  lemma OneStep<F>(s: Loop<F>, op: Op<F>)
    ensures Steps(s, [op]) == Step(s, op)
  {
    assert Steps(Step(s, op), [op][1..]) == Step(s, op);
  }

  lemma BatchStarts<F>(s: Loop<F>, during: nat -> seq<PhaseOp<F>>)
    ensures Steps(s, BatchOps(during, 0)) == s
  {
  }

  lemma BatchGrows<F>(s: Loop<F>, during: nat -> seq<PhaseOp<F>>, i: nat)
    ensures Steps(s, BatchOps(during, i + 1)) == Steps(Steps(s, BatchOps(during, i)), [RunNext] + during(i))
  {
    StepsAppend(s, BatchOps(during, i), [RunNext] + during(i));
  }

  lemma LeftInOrder<F>(s: Loop<F>)
    requires Ordered(s) && Attentive(s) && s.phase == Calling && s.q.next == |s.q.batch|
    ensures Ordered(Step(s, LeaveFunctors)) && Attentive(Step(s, LeaveFunctors))
    ensures s.queued == s.executed + s.q.pending
  {
    StepKeepsOrdered(s, LeaveFunctors);
  }

  lemma HandlingInOrder<F>(s: Loop<F>)
    requires Ordered(s) && s.phase == Handling
    ensures s.queued == s.executed + s.q.pending
  {
    assert s.q.Waiting() == s.q.pending;
  }

  lemma SwapKeeps<F>(s: Loop<F>)
    requires Ordered(s) && Attentive(s) && s.phase == Handling
    ensures Ordered(SwappedIn(s)) && Attentive(SwappedIn(s))
    ensures SwappedIn(s) == Step(s, EnterFunctors)
  {
    StepKeepsOrdered(s, EnterFunctors);
    StepKeepsAttentive(s, EnterFunctors);
    hide Ordered, Attentive;
  }

  lemma PostKeeps<F>(s: Loop<F>, f: F)
    requires Ordered(s) && Attentive(s)
    ensures Ordered(Step(s, PostSelf(f))) && Attentive(Step(s, PostSelf(f)))
    ensures var t := Step(Step(s, PostOther(f)), WakeupOther); Ordered(t) && Attentive(t)
  {
    hide Ordered, Attentive, Step;
    StepKeepsOrdered(s, PostSelf(f));
    StepKeepsAttentive(s, PostSelf(f));
    StepKeepsOrdered(s, PostOther(f));
    StepKeepsAttentive(s, PostOther(f));
    StepKeepsOrdered(Step(s, PostOther(f)), WakeupOther);
    StepKeepsAttentive(Step(s, PostOther(f)), WakeupOther);
  }

  lemma BatchScript<F>(s: Loop<F>, during: nat -> seq<PhaseOp<F>>)
    ensures var ops := BatchOps(during, |s.q.pending|);
            Steps(s, [EnterFunctors] + ops + [LeaveFunctors]) == Step(Steps(Step(s, EnterFunctors), ops), LeaveFunctors)
  {
    var ops := BatchOps(during, |s.q.pending|);
    StepsAppend(s, [EnterFunctors], ops);
    StepsAppend(s, [EnterFunctors] + ops, [LeaveFunctors]);
    OneStep(s, EnterFunctors);
    OneStep(Steps(Step(s, EnterFunctors), ops), LeaveFunctors);
  }

  /** The steps of one turn of loop()'s while. */
  ghost function PollOps<F>(handlers: seq<PhaseOp<F>>, wakeupReadable: bool): seq<Op<F>> {
    [EnterPoll, PollReturn] + (if wakeupReadable then [HandleWakeup] else []) + handlers
  }

  ghost function TurnOps<F>(s: Loop<F>, handlers: seq<PhaseOp<F>>, wakeupReadable: bool,
                            during: nat -> seq<PhaseOp<F>>): seq<Op<F>> {
    var t := Steps(s, PollOps(handlers, wakeupReadable));
    PollOps(handlers, wakeupReadable) + ([EnterFunctors] + BatchOps(during, |t.q.pending|) + [LeaveFunctors])
  }

  lemma TurnScript<F>(s: Loop<F>, handlers: seq<PhaseOp<F>>, wakeupReadable: bool, during: nat -> seq<PhaseOp<F>>)
    ensures var s1 := Step(Step(s, EnterPoll), PollReturn);
            var s2 := if wakeupReadable then Step(s1, HandleWakeup) else s1;
            var t := Steps(s2, handlers);
            Steps(s, TurnOps(s, handlers, wakeupReadable, during))
              == Steps(t, [EnterFunctors] + BatchOps(during, |t.q.pending|) + [LeaveFunctors])
  {
    PollScript(s, handlers, wakeupReadable);
    var t := Steps(s, PollOps(handlers, wakeupReadable));
    hide PollOps, Step;
    StepsAppend(s, PollOps(handlers, wakeupReadable),
      [EnterFunctors] + BatchOps(during, |t.q.pending|) + [LeaveFunctors]);
  }

  lemma PollScript<F>(s: Loop<F>, handlers: seq<PhaseOp<F>>, wakeupReadable: bool)
    ensures var s1 := Step(Step(s, EnterPoll), PollReturn);
            var s2 := if wakeupReadable then Step(s1, HandleWakeup) else s1;
            Steps(s, PollOps(handlers, wakeupReadable)) == Steps(s2, handlers)
  {
    hide Step;
    var middle := if wakeupReadable then [HandleWakeup] else [];
    StepsAppend(s, [EnterPoll, PollReturn] + middle, handlers);
    StepsAppend(s, [EnterPoll, PollReturn], middle);
    assert [Op<F>.EnterPoll, PollReturn] == [Op<F>.EnterPoll] + [PollReturn];
    StepsAppend(s, [EnterPoll], [PollReturn]);
    OneStep(s, EnterPoll);
    OneStep(Step(s, EnterPoll), PollReturn);
    OneStep(Step(Step(s, EnterPoll), PollReturn), HandleWakeup);
    assert PollOps(handlers, wakeupReadable) == [EnterPoll, PollReturn] + middle + handlers;
  }

  class EventLoop<F> {
    var pendingFunctors: seq<F>
    var callingPendingFunctors: bool
    var looping: bool
    var quit: bool
    var wakeups: nat               // the eventfd
    ghost var phase: Phase
    ghost var batch: seq<F>
    ghost var next: nat
    var writers: nat               // other threads about to write the eventfd
    ghost var quiet: nat
    ghost var queued: seq<F>
    ghost var executed: seq<F>

    ghost function Snapshot(): Loop<F>
      reads this
    {
      Loop(FunctorQueue(pendingFunctors, batch, next), phase, looping, quit, wakeups, writers, quiet, queued, executed)
    }

    ghost predicate Valid()
      reads this
    {
      Ordered(Snapshot()) && Attentive(Snapshot()) && callingPendingFunctors == (phase == Calling)
    }

    constructor ()
      ensures Valid() && Snapshot() == Fresh()
    {
      pendingFunctors, callingPendingFunctors, looping, quit, wakeups := [], false, false, false, 0;
      phase, batch, next, writers, quiet, queued, executed := Outside, [], 0, 0, 0, [], [];
    }

    method Wakeup()
      modifies this`wakeups
      ensures wakeups == old(wakeups) + 1
    {
      wakeups := wakeups + 1;
    }

    method QueueInLoop(f: F, inLoopThread: bool)
      requires Valid() && (inLoopThread ==> phase != Polling)
      modifies this
      ensures Valid()
      ensures Snapshot() == if inLoopThread then Step(old(Snapshot()), PostSelf(f))
                            else Step(Step(old(Snapshot()), PostOther(f)), WakeupOther)
      ensures queued == old(queued) + [f]
      ensures phase == Handling || Woken(Snapshot()) || quiet > 0
    {
      PostKeeps(Snapshot(), f);
      hide Ordered;
      pendingFunctors := pendingFunctors + [f];
      queued := queued + [f];
      if !inLoopThread || callingPendingFunctors {
        Wakeup();
      } else {
        quiet := quiet + 1;
      }
    }

    method Quit(inLoopThread: bool)
      requires Valid() && (inLoopThread ==> phase != Polling)
      modifies this
      ensures Valid()
      ensures Snapshot() == if inLoopThread then Step(old(Snapshot()), QuitSelf)
                            else Step(Step(old(Snapshot()), QuitOther), WakeupOther)
    {
      quit := true;
      if !inLoopThread {
        Wakeup();
      }
    }

    /** The wakeup channel's read callback. */
    method HandleRead()
      requires Valid() && phase == Handling
      modifies this`wakeups
      ensures Valid() && Snapshot() == Step(old(Snapshot()), HandleWakeup)
    {
      wakeups := 0;
    }

    /** One thing that happens inside a handler or a functor. */
    method Perform(op: PhaseOp<F>)
      requires Valid() && (phase == Handling || phase == Calling)
      modifies this
      ensures Valid() && Snapshot() == Step(old(Snapshot()), op)
      ensures phase == old(phase) && looping == old(looping) && batch == old(batch) && next == old(next)
      ensures executed == old(executed) && old(queued) <= queued
    {
      match op
      case PostSelf(f) => QueueInLoop(f, true);
      case QuitSelf => Quit(true);
      case PostOther(_) => PerformOther(op);
      case QuitOther => PerformOther(op);
      case WakeupOther => PerformOther(op);
    }

    method PerformOther(op: PhaseOp<F>)
      requires Valid() && !op.PostSelf? && !op.QuitSelf?
      modifies this`pendingFunctors, this`queued, this`quit, this`writers, this`wakeups
      ensures Valid() && Snapshot() == Step(old(Snapshot()), op)
      ensures old(queued) <= queued
    {
      StepKeepsOrdered(Snapshot(), op);
      StepKeepsAttentive(Snapshot(), op);
      hide Ordered, Attentive;
      match op
      case PostOther(f) =>
        pendingFunctors := pendingFunctors + [f];
        queued := queued + [f];
        writers := writers + 1;
      case QuitOther =>
        quit := true;
        writers := writers + 1;
      case WakeupOther =>
        if writers > 0 {
          writers := writers - 1;
          Wakeup();
        }
    }

    /** doPendingFunctors.  During the i-th functor `during(i)` happens.  Exactly the functors pending
        at the swap run, in order; all that is queued meanwhile is left pending, in order. */
    method DoPendingFunctors(during: nat -> seq<PhaseOp<F>>)
      requires Valid() && phase == Handling
      modifies this
      ensures Valid() && phase == Outside && looping == old(looping)
      ensures Snapshot() == Steps(old(Snapshot()),
                [EnterFunctors] + BatchOps(during, |old(pendingFunctors)|) + [LeaveFunctors])
      ensures executed == old(executed) + old(pendingFunctors)
      ensures queued == executed + pendingFunctors && old(queued) <= queued
    {
      BatchScript(Snapshot(), during);
      HandlingInOrder(Snapshot());
      SwapKeeps(Snapshot());
      hide Valid;
      hide Steps;
      hide BatchOps;
      hide Step;
      var functors := SwapPending();
      RunBatch(functors, during);
      DropBatch();
    }

    /** The end of doPendingFunctors: the flag, then the vector's destructor. */
    method DropBatch()
      requires Valid() && phase == Calling && next == |batch|
      modifies this`callingPendingFunctors, this`phase, this`batch, this`next
      ensures Valid() && Snapshot() == Step(old(Snapshot()), LeaveFunctors)
      ensures phase == Outside && queued == executed + pendingFunctors
    {
      LeftInOrder(Snapshot());
      hide Ordered;
      hide Attentive;
      callingPendingFunctors := false;
      phase := Outside;
      batch, next := [], 0;
    }

    method SwapPending() returns (functors: seq<F>)
      requires Valid() && phase == Handling
      modifies this`callingPendingFunctors, this`phase, this`pendingFunctors, this`batch, this`next, this`quiet
      ensures Valid() && Snapshot() == SwappedIn(old(Snapshot()))
      ensures functors == batch && phase == Calling
    {
      SwapKeeps(Snapshot());
      hide *;
      functors := SwapFields();
      Revalidated();
    }

    method SwapFields() returns (functors: seq<F>)
      modifies this`callingPendingFunctors, this`phase, this`pendingFunctors, this`batch, this`next, this`quiet
      ensures Snapshot() == SwappedIn(old(Snapshot()))
      ensures functors == batch && callingPendingFunctors && phase == Calling
    {
      callingPendingFunctors := true;
      phase := Calling;
      functors := pendingFunctors;
      pendingFunctors := [];
      batch, next, quiet := functors, 0, 0;
    }

    lemma Revalidated()
      requires Ordered(Snapshot()) && Attentive(Snapshot()) && callingPendingFunctors == (phase == Calling)
      ensures Valid()
    {
    }

    method RunBatch(functors: seq<F>, during: nat -> seq<PhaseOp<F>>)
      requires Valid() && phase == Calling && batch == functors && next == 0
      modifies this
      ensures Valid() && phase == Calling && looping == old(looping) && batch == functors && next == |functors|
      ensures Snapshot() == Steps(old(Snapshot()), BatchOps(during, |functors|))
      ensures executed == old(executed) + functors && old(queued) <= queued
    {
      ghost var s1 := Snapshot();
      hide *;
      BatchStarts(s1, during);
      for i := 0 to |functors|
        invariant Valid() && phase == Calling && looping == old(looping) && batch == functors && next == i
        invariant Snapshot() == Steps(s1, BatchOps(during, i))
        invariant executed == old(executed) + functors[..i] && old(queued) <= queued
      {
        BatchGrows(s1, during, i);
        Run(functors[i], during(i));
        assert functors[..i + 1] == functors[..i] + [functors[i]];
      }
      assert functors[..|functors|] == functors;
    }

    /** `functor()`. */
    method Run(f: F, during: seq<PhaseOp<F>>)
      requires Valid() && phase == Calling && next < |batch| && f == batch[next]
      modifies this
      ensures Valid() && phase == Calling && looping == old(looping) && batch == old(batch) && next == old(next) + 1
      ensures Snapshot() == Steps(old(Snapshot()), [RunNext] + during)
      ensures executed == old(executed) + [f] && old(queued) <= queued
    {
      ghost var s0 := Snapshot();
      RunOne(f);
      hide *;
      OneStep(s0, RunNext);
      StepsAppend(s0, [RunNext], during);
      PerformAll(during);
    }

    method RunOne(f: F)
      requires Valid() && phase == Calling && next < |batch| && f == batch[next]
      modifies this`executed, this`next
      ensures Valid() && Snapshot() == Step(old(Snapshot()), RunNext)
      ensures next == old(next) + 1 && executed == old(executed) + [f]
    {
      StepKeepsOrdered(Snapshot(), RunNext);
      StepKeepsAttentive(Snapshot(), RunNext);
      hide Ordered, Attentive;
      executed := executed + [f];
      next := next + 1;
    }

    method PerformAll(ops: seq<PhaseOp<F>>)
      requires Valid() && (phase == Handling || phase == Calling)
      modifies this
      ensures Valid() && Snapshot() == Steps(old(Snapshot()), ops)
      ensures phase == old(phase) && looping == old(looping) && batch == old(batch) && next == old(next)
      ensures executed == old(executed) && old(queued) <= queued
    {
      ghost var s0 := Snapshot();
      hide Valid;
      for j := 0 to |ops|
        invariant Valid() && Snapshot() == Steps(s0, ops[..j])
        invariant phase == old(phase) && looping == old(looping) && batch == old(batch) && next == old(next)
        invariant executed == old(executed) && old(queued) <= queued
      {
        assert ops[..j + 1] == ops[..j] + [ops[j]];
        StepsAppend(s0, ops[..j], [ops[j]]);
        OneStep(Snapshot(), ops[j]);
        Perform(ops[j]);
      }
      assert ops[..|ops|] == ops;
    }

    /** One turn of loop()'s while: poll, the event handlers, the functors.  Whatever was queued
        when poll returned, or by a handler, has run when the turn ends. */
    method Turn(handlers: seq<PhaseOp<F>>, wakeupReadable: bool, during: nat -> seq<PhaseOp<F>>)
      requires Valid() && phase == Outside && looping && !quit
      modifies this
      ensures Valid() && phase == Outside && looping
      ensures Snapshot() == Steps(old(Snapshot()), TurnOps(old(Snapshot()), handlers, wakeupReadable, during))
      ensures old(queued) <= executed && queued == executed + pendingFunctors
    {
      TurnScript(Snapshot(), handlers, wakeupReadable, during);
      Poll();
      hide *;
      HandleEvents(handlers, wakeupReadable);
      DoPendingFunctors(during);
    }

    /** The handlers of the active channels, the wakeup channel's first. */
    method HandleEvents(handlers: seq<PhaseOp<F>>, wakeupReadable: bool)
      requires Valid() && phase == Handling
      modifies this
      ensures Valid() && phase == Handling && looping == old(looping)
      ensures Snapshot() ==
        Steps(if wakeupReadable then Step(old(Snapshot()), HandleWakeup) else old(Snapshot()), handlers)
      ensures executed + pendingFunctors == queued && old(queued) <= queued
      ensures Snapshot().q.pending == pendingFunctors
    {
      hide *;
      if wakeupReadable {
        HandleRead();
      }
      PerformAll(handlers);
      InHandling();
    }

    method Poll()
      requires Valid() && phase == Outside && looping && !quit
      modifies this`phase
      ensures Valid() && phase == Handling && Snapshot() == Step(Step(old(Snapshot()), EnterPoll), PollReturn)
    {
      ghost var s := Snapshot();
      StepKeepsOrdered(s, EnterPoll);
      StepKeepsAttentive(s, EnterPoll);
      StepKeepsOrdered(Step(s, EnterPoll), PollReturn);
      StepKeepsAttentive(Step(s, EnterPoll), PollReturn);
      phase := Handling;
    }

    lemma InHandling()
      requires Valid() && phase == Handling
      ensures queued == executed + pendingFunctors && Snapshot().q.pending == pendingFunctors
    {
      HandlingInOrder(Snapshot());
    }
  }
}
