/** The connector (muduo/net/Connector.cpp): one socket after another, each closed or handed over.

    Sockets are numbered in the order connect creates them.  A failed assertion sets `aborted` and ends
    the run.  What connect, SO_ERROR and the self-connect test answer are inputs. */
module Connectors {
  import opened Common

  const INIT_RETRY_DELAY_MS: nat := 500
  const MAX_RETRY_DELAY_MS: nat := 30000

  datatype Status = Disconnected | Connecting | Connected

  datatype Errno =
    | OK | EINPROGRESS | EINTR | EISCONN
    | EAGAIN | EADDRINUSE | EADDRNOTAVAIL | ECONNREFUSED | ENETUNREACH
    | EACCES | EPERM | EAFNOSUPPORT | EALREADY | EBADF | EFAULT | ENOTSOCK | OTHER

  datatype Channel = Channel(socket: nat, registered: bool)

  datatype Task = StartTask | StopTask | ResetTask

  datatype Conn = Conn(
    connect: bool, status: Status, channel: Option<Channel>, delay: nat,
    tasks: seq<Task>,   // the loop's functors that are this connector's
    timers: nat,        // its pending timers; each runs startInLoop
    aborted: bool,
    log: Log)

  /** History; `delays` since the last restart. */
  datatype Log = Log(created: nat, closed: multiset<nat>, handed: multiset<nat>, delays: seq<nat>)

  function NewConn(): Conn {
    Conn(false, Disconnected, None, INIT_RETRY_DELAY_MS, [], 0, false, Log(0, multiset{}, multiset{}, []))
  }

  // ---- Steps --------------------------------------------------------------------------------------------

  function Closed(c: Conn, socket: nat): Conn {
    c.(log := c.log.(closed := c.log.closed + multiset{socket}))
  }

  function AfterRetry(c: Conn, socket: nat): Conn {
    var c1 := Closed(c, socket).(status := Disconnected);
    if !c.connect then c1 else
    c1.(timers := c.timers + 1,
        delay := if 2 * c.delay < MAX_RETRY_DELAY_MS then 2 * c.delay else MAX_RETRY_DELAY_MS,
        log := c1.log.(delays := c1.log.delays + [c.delay]))
  }

  function AfterConnecting(c: Conn, socket: nat): Conn {
    if c.channel != None then c.(status := Connecting, aborted := true)
    else c.(status := Connecting, channel := Some(Channel(socket, true)))
  }

  function AfterConnect(c: Conn, errno: Errno): Conn {
    var socket := c.log.created;
    var c1 := c.(log := c.log.(created := socket + 1));
    match errno
    case OK | EINPROGRESS | EINTR | EISCONN => AfterConnecting(c1, socket)
    case EAGAIN | EADDRINUSE | EADDRNOTAVAIL | ECONNREFUSED | ENETUNREACH => AfterRetry(c1, socket)
    case _ => Closed(c1, socket)
  }

  predicate InProgress(errno: Errno) {
    errno == OK || errno == EINPROGRESS || errno == EINTR || errno == EISCONN
  }

  function AfterStart(c: Conn, errno: Errno): Conn {
    if c.status != Disconnected then c.(aborted := true)
    else if c.connect then AfterConnect(c, errno)
    else c
  }

  function Rewound(c: Conn): Conn {
    c.(status := Disconnected, delay := INIT_RETRY_DELAY_MS, connect := true, log := c.log.(delays := []))
  }

  function AfterRestart(c: Conn, errno: Errno): Conn {
    AfterStart(Rewound(c), errno)
  }

  /** removeAndResetChannel: the channel is unregistered now and destroyed by a functor. */
  function Removed(c: Conn): Conn
    requires c.channel.Some?
  {
    c.(channel := Some(c.channel.value.(registered := false)), tasks := c.tasks + [ResetTask])
  }

  function AfterStop(c: Conn): Conn {
    if c.status == Connecting && c.channel.Some?
    then AfterRetry(Removed(c.(status := Disconnected)), c.channel.value.socket)
    else c
  }

  function AfterReset(c: Conn): Conn {
    if c.channel.Some? && c.channel.value.registered then c.(aborted := true) else c.(channel := None)
  }

  function AfterWrite(c: Conn, failed: bool, selfConnect: bool): Conn {
    if c.status == Connecting && c.channel.Some? then
      var c1, socket := Removed(c), c.channel.value.socket;
      if failed || selfConnect then AfterRetry(c1, socket)
      else if c.connect then c1.(status := Connected, log := c1.log.(handed := c1.log.handed + multiset{socket}))
      else Closed(c1.(status := Connected), socket)
    else if c.status != Disconnected then c.(aborted := true)
    else c
  }

  function AfterError(c: Conn): Conn {
    if c.status == Connecting && c.channel.Some? then AfterRetry(Removed(c), c.channel.value.socket) else c
  }

  datatype Op =
    | Start(errno: Errno)    // start in the loop's thread
    | StartElsewhere
    | Stop
    | Restart(errno: Errno)
    | RunNext(errno: Errno)  // the loop runs the next functor
    | Timer(errno: Errno)
    | Event(error: bool, writable: bool, failed: bool, selfConnect: bool) // the channel's events

  predicate Legal(c: Conn, op: Op) {
    match op
    case RunNext(_) => c.tasks != []
    case Timer(_) => c.timers > 0
    case Event(_, _, _, _) => c.channel.Some? && c.channel.value.registered
    case _ => true
  }

  function RunTask(c: Conn, t: Task, errno: Errno): Conn {
    match t
    case StartTask => AfterStart(c, errno)
    case StopTask => AfterStop(c)
    case ResetTask => AfterReset(c)
  }

  /** One dispatch of the channel: the error callback and then the write callback. */
  function Dispatched(c: Conn, op: Op): Conn
    requires op.Event?
  {
    var c1 := if op.error then AfterError(c) else c;
    if op.writable then AfterWrite(c1, op.failed, op.selfConnect) else c1
  }

  function Step(c: Conn, op: Op): Conn
    requires Legal(c, op)
  {
    if c.aborted then c else
    match op
    case Start(errno) => AfterStart(c.(connect := true), errno)
    case StartElsewhere => c.(connect := true, tasks := c.tasks + [StartTask])
    case Stop => c.(connect := false, tasks := c.tasks + [StopTask])
    case Restart(errno) => AfterRestart(c, errno)
    case RunNext(errno) => RunTask(c.(tasks := c.tasks[1..]), c.tasks[0], errno)
    case Timer(errno) => AfterStart(c.(timers := c.timers - 1), errno)
    case Event(_, _, _, _) => Dispatched(c, op)
  }

  ghost predicate LegalRun(c: Conn, ops: seq<Op>)
    decreases |ops|
  {
    ops == [] || (Legal(c, ops[0]) && LegalRun(Step(c, ops[0]), ops[1..]))
  }

  function Steps(c: Conn, ops: seq<Op>): Conn
    requires LegalRun(c, ops)
    decreases |ops|
  {
    if ops == [] then c else Steps(Step(c, ops[0]), ops[1..])
  }

  // ---- Every socket has one place ----------------------------------------------------------------------------

  predicate Owns(c: Conn, s: nat) {
    c.channel.Some? && c.channel.value.registered && c.channel.value.socket == s
  }

  /** In how many places socket `s` is: with the registered channel, closed, handed over. */
  function Places(c: Conn, s: nat): nat {
    c.log.closed[s] + c.log.handed[s] + if Owns(c, s) then 1 else 0
  }

  ghost predicate Conserved(c: Conn) {
    forall s: nat :: Places(c, s) == if s < c.log.created then 1 else 0
  }

  /** kConnecting means a channel is there; `ResetTask`s and unregistered channels come in pairs. */
  predicate Resets(c: Conn) {
    && (c.status == Connecting ==> c.channel.Some? && c.channel.value.registered)
    && multiset(c.tasks)[ResetTask] == if c.channel.Some? && !c.channel.value.registered then 1 else 0
  }

  /** The k-th delay. */
  function Backoff(k: nat): nat {
    if k == 0 then INIT_RETRY_DELAY_MS
    else if 2 * Backoff(k - 1) < MAX_RETRY_DELAY_MS then 2 * Backoff(k - 1) else MAX_RETRY_DELAY_MS
  }

  predicate Delays(c: Conn) {
    c.delay == Backoff(|c.log.delays|) && forall k | 0 <= k < |c.log.delays| :: c.log.delays[k] == Backoff(k)
  }

  ghost predicate Inv(c: Conn) {
    Conserved(c) && Resets(c) && Delays(c)
  }

  lemma RetryPlaces(c: Conn, socket: nat, s: nat)
    ensures Places(AfterRetry(c, socket), s) == Places(c, s) + if s == socket then 1 else 0
    ensures AfterRetry(c, socket).log.created == c.log.created
  {
  }

  lemma RemovedPlaces(c: Conn, s: nat)
    requires c.channel.Some?
    ensures Places(Removed(c), s) == c.log.closed[s] + c.log.handed[s]
  {
  }

  /** An attempt puts its new socket somewhere and moves no other. */
  /** The three classes of answers. */
  lemma ConnectIs(c: Conn, errno: Errno)
    ensures var socket := c.log.created; var c1 := c.(log := c.log.(created := socket + 1));
      AfterConnect(c, errno) ==
        if errno in {OK, EINPROGRESS, EINTR, EISCONN} then AfterConnecting(c1, socket)
        else if errno in {EAGAIN, EADDRINUSE, EADDRNOTAVAIL, ECONNREFUSED, ENETUNREACH} then AfterRetry(c1, socket)
        else Closed(c1, socket)
  {
    hide AfterConnecting, AfterRetry, Closed;
  }

  lemma ConnectPlaces(c: Conn, errno: Errno, s: nat)
    requires !AfterConnect(c, errno).aborted && !c.aborted
    ensures Places(AfterConnect(c, errno), s) == Places(c, s) + if s == c.log.created then 1 else 0
    ensures AfterConnect(c, errno).log.created == c.log.created + 1
  {
    ConnectIs(c, errno);
    hide AfterConnect;
    RetryPlaces(c.(log := c.log.(created := c.log.created + 1)), c.log.created, s);
    hide AfterRetry;
  }

  lemma StartKeeps(c: Conn, errno: Errno)
    requires Conserved(c) && !c.aborted && !AfterStart(c, errno).aborted
    ensures Conserved(AfterStart(c, errno))
  {
    var c' := AfterStart(c, errno);
    forall s: nat ensures Places(c', s) == if s < c'.log.created then 1 else 0 {
      if c.connect { ConnectPlaces(c, errno, s); }
      hide AfterConnect;
    }
  }

  lemma HandlersKeep(c: Conn, failed: bool, selfConnect: bool)
    requires Conserved(c) && Resets(c) && !c.aborted
    ensures Conserved(AfterStop(c)) && Conserved(AfterError(c)) && Conserved(AfterWrite(c, failed, selfConnect))
  {
    forall s: nat
      ensures Places(AfterStop(c), s) == Places(c, s) && Places(AfterError(c), s) == Places(c, s)
      ensures Places(AfterWrite(c, failed, selfConnect), s) == Places(c, s)
    {
      if c.status == Connecting {
        RemovedPlaces(c, s);
        RetryPlaces(Removed(c), c.channel.value.socket, s);
        RetryPlaces(Removed(c.(status := Disconnected)), c.channel.value.socket, s);
        RemovedPlaces(c.(status := Disconnected), s);
        hide AfterRetry, Removed;
      }
    }
    hide Places;
  }

  /** A state that differs in nothing the places depend on. */
  lemma SamePlaces(c: Conn, c': Conn)
    requires Conserved(c) && c'.channel == c.channel
    requires c'.log.created == c.log.created && c'.log.closed == c.log.closed && c'.log.handed == c.log.handed
    ensures Conserved(c')
  {
    forall s: nat ensures Places(c', s) == if s < c'.log.created then 1 else 0 {
      assert Places(c', s) == Places(c, s);
    }
  }

  /** The write callback finds nothing to do behind an error callback that found something. */
  lemma DispatchIs(c: Conn, op: Op)
    requires op.Event?
    ensures Dispatched(c, op) ==
      if op.error && c.status == Connecting && c.channel.Some? then AfterError(c)
      else if op.writable then AfterWrite(c, op.failed, op.selfConnect)
      else c
  {
  }

  lemma StepKeepsConserved(c: Conn, op: Op)
    requires Conserved(c) && Resets(c) && Legal(c, op) && !Step(c, op).aborted
    ensures Conserved(Step(c, op))
  {
    if c.aborted { return; }
    hide AfterStart, AfterStop, AfterError, AfterWrite, Places;
    match op
    case Start(errno) =>
      SamePlaces(c, c.(connect := true));
      StartKeeps(c.(connect := true), errno);
    case StartElsewhere => SamePlaces(c, Step(c, op));
    case Stop => SamePlaces(c, Step(c, op));
    case Restart(errno) =>
      var c1 := Rewound(c);
      SamePlaces(c, c1);
      StartKeeps(c1, errno);
    case RunNext(errno) => RunKeepsConserved(c, errno);
    case Timer(errno) =>
      SamePlaces(c, c.(timers := c.timers - 1));
      StartKeeps(c.(timers := c.timers - 1), errno);
    case Event(_, _, failed, selfConnect) =>
      DispatchIs(c, op);
      HandlersKeep(c, failed, selfConnect);
  }

  lemma RunKeepsConserved(c: Conn, errno: Errno)
    requires Conserved(c) && Resets(c) && c.tasks != [] && !c.aborted && !Step(c, RunNext(errno)).aborted
    ensures Conserved(Step(c, RunNext(errno)))
  {
    var c1 := c.(tasks := c.tasks[1..]);
    SamePlaces(c, c1);
    match c.tasks[0]
    case StartTask =>
      StartKeeps(c1, errno);
      hide AfterStart, Places;
    case StopTask =>
      forall s: nat ensures Places(AfterStop(c1), s) == Places(c1, s) {
        if c.status == Connecting {
          RetryPlaces(Removed(c1.(status := Disconnected)), c.channel.value.socket, s);
          RemovedPlaces(c1.(status := Disconnected), s);
          hide AfterRetry, Removed;
        }
      }
      hide Places;
    case ResetTask =>
      forall s: nat ensures Places(AfterReset(c1), s) == Places(c1, s) {}
      hide Places;
  }

  lemma RetryKeeps(c: Conn, socket: nat)
    ensures Resets(c.(status := Disconnected)) ==> Resets(AfterRetry(c, socket))
    ensures Delays(c) ==> Delays(AfterRetry(c, socket))
  {
    var k := |c.log.delays|;
    assert Backoff(k + 1) == if 2 * Backoff(k) < MAX_RETRY_DELAY_MS then 2 * Backoff(k) else MAX_RETRY_DELAY_MS;
    hide Backoff;
  }

  lemma ConnectKeeps(c: Conn, errno: Errno)
    requires c.status == Disconnected
    ensures Delays(c) ==> Delays(AfterConnect(c, errno))
    ensures Resets(c) && !c.aborted && !AfterConnect(c, errno).aborted ==> Resets(AfterConnect(c, errno))
  {
    ConnectIs(c, errno);
    hide AfterConnect;
    RetryKeeps(c.(log := c.log.(created := c.log.created + 1)), c.log.created);
    hide AfterRetry, Backoff;
  }

  lemma StartKeepsRest(c: Conn, errno: Errno)
    ensures Delays(c) ==> Delays(AfterStart(c, errno))
    ensures Resets(c) && !c.aborted && !AfterStart(c, errno).aborted ==> Resets(AfterStart(c, errno))
  {
    if c.status == Disconnected { ConnectKeeps(c, errno); }
    hide AfterConnect, Resets, Backoff;
  }

  lemma HandlersKeepRest(c: Conn, failed: bool, selfConnect: bool)
    ensures Delays(c) ==> Delays(AfterStop(c)) && Delays(AfterError(c)) && Delays(AfterWrite(c, failed, selfConnect))
    ensures Resets(c) ==> Resets(AfterStop(c)) && Resets(AfterError(c)) && Resets(AfterWrite(c, failed, selfConnect))
  {
    if c.status == Connecting && c.channel.Some? {
      RetryKeeps(Removed(c), c.channel.value.socket);
      RetryKeeps(Removed(c.(status := Disconnected)), c.channel.value.socket);
    }
    hide AfterRetry, Backoff;
  }

  lemma RunKeepsRest(c: Conn, errno: Errno)
    requires Resets(c) && Delays(c) && c.tasks != [] && !c.aborted && !Step(c, RunNext(errno)).aborted
    ensures Resets(Step(c, RunNext(errno))) && Delays(Step(c, RunNext(errno)))
  {
    var c1 := c.(tasks := c.tasks[1..]);
    assert c.tasks == [c.tasks[0]] + c1.tasks;
    match c.tasks[0]
    case StartTask =>
      StartKeepsRest(c1, errno);
      hide AfterStart, Backoff;
    case StopTask =>
      HandlersKeepRest(c1, false, false);
      hide AfterStop, Backoff;
    case ResetTask =>
      hide Backoff;
  }

  lemma StepKeepsRest(c: Conn, op: Op)
    requires Resets(c) && Delays(c) && Legal(c, op) && !Step(c, op).aborted
    ensures Resets(Step(c, op)) && Delays(Step(c, op))
  {
    if c.aborted { return; }
    hide AfterStart, AfterStop, AfterError, AfterWrite;
    match op
    case Start(errno) => StartKeepsRest(c.(connect := true), errno);
    case Restart(errno) =>
      StartKeepsRest(Rewound(c), errno);
    case RunNext(errno) => RunKeepsRest(c, errno);
    case Timer(errno) => StartKeepsRest(c.(timers := c.timers - 1), errno);
    case Event(_, _, failed, selfConnect) =>
      DispatchIs(c, op);
      HandlersKeepRest(c, failed, selfConnect);
    case _ =>
  }

  // ---- Runs ---------------------------------------------------------------------------------------------------

  lemma {:induction false} AbortStays(c: Conn, ops: seq<Op>)
    requires c.aborted && LegalRun(c, ops)
    ensures Steps(c, ops).aborted
    decreases |ops|
  {
    if ops != [] { AbortStays(Step(c, ops[0]), ops[1..]); }
  }

  lemma {:induction false} StepsKeepInv(c: Conn, ops: seq<Op>)
    requires Inv(c) && LegalRun(c, ops) && !Steps(c, ops).aborted
    ensures Inv(Steps(c, ops))
    decreases |ops|
  {
    hide Conserved, Resets, Delays, Legal;
    if ops != [] {
      var c' := Step(c, ops[0]);
      if c'.aborted { AbortStays(c', ops[1..]); }
      StepKeepsConserved(c, ops[0]);
      StepKeepsRest(c, ops[0]);
      hide Step;
      StepsKeepInv(c', ops[1..]);
    }
  }

  function Pow2(k: nat): nat {
    if k == 0 then 1 else 2 * Pow2(k - 1)
  }

  lemma {:induction false} BackoffIs(k: nat)
    ensures Backoff(k) == if 500 * Pow2(k) < 30000 then 500 * Pow2(k) else 30000
  {
    if k > 0 { BackoffIs(k - 1); }
  }

  /** Over every run, as long as no assertion fails, with any starts, stops and restarts at all: each
      socket created is in exactly one place, and the delays double from 500 ms up to 30 s. */
  lemma EveryRun(ops: seq<Op>, s: nat, k: nat)
    requires LegalRun(NewConn(), ops) && !Steps(NewConn(), ops).aborted
    ensures var c := Steps(NewConn(), ops);
      && c.log.closed[s] + c.log.handed[s] + (if Owns(c, s) then 1 else 0) == (if s < c.log.created then 1 else 0)
      && (k < |c.log.delays| ==> c.log.delays[k] == if 500 * Pow2(k) < 30000 then 500 * Pow2(k) else 30000)
  {
    StepsKeepInv(NewConn(), ops);
    var c := Steps(NewConn(), ops);
    assert Places(c, s) == if s < c.log.created then 1 else 0;
    BackoffIs(k);
    hide Steps;
  }

  // ---- stop ---------------------------------------------------------------------------------------------------

  predicate Starts(op: Op) {
    op.Start? || op.StartElsewhere? || op.Restart?
  }

  lemma StoppedStep(c: Conn, op: Op)
    requires !c.connect && Legal(c, op) && !Starts(op)
    ensures !Step(c, op).connect && Step(c, op).log.handed == c.log.handed && Step(c, op).log.created == c.log.created
  {
  }

  /** After stop and with no later start, no socket is handed over and none is created, whatever timers
      and functors are still pending. */
  lemma {:induction false} StoppedStaysStopped(c: Conn, ops: seq<Op>)
    requires !c.connect && LegalRun(c, ops) && forall op | op in ops :: !Starts(op)
    ensures Steps(c, ops).log.handed == c.log.handed && Steps(c, ops).log.created == c.log.created
    decreases |ops|
  {
    hide Step, Legal;
    if ops != [] {
      StoppedStep(c, ops[0]);
      StoppedStaysStopped(Step(c, ops[0]), ops[1..]);
    }
  }

  // ---- What each step does with sockets ------------------------------------------------------------------------

  /** The step connects: start, restart, or a functor or timer while still wanted. */
  predicate Attempts(c: Conn, op: Op)
    requires Legal(c, op)
  {
    match op
    case Start(_) => true
    case Restart(_) => true
    case Timer(_) => c.connect
    case RunNext(_) => c.tasks[0] == StartTask && c.connect
    case _ => false
  }

  /** The attempt is over at once, and is worth another. */
  predicate Refused(op: Op) {
    (op.Start? || op.Restart? || op.Timer? || op.RunNext?)
    && op.errno in {EAGAIN, EADDRINUSE, EADDRNOTAVAIL, ECONNREFUSED, ENETUNREACH}
  }

  predicate Begun(op: Op) {
    (op.Start? || op.Restart? || op.Timer? || op.RunNext?) && op.errno in {OK, EINPROGRESS, EINTR, EISCONN}
  }

  /** The attempt in progress fails: the error callback came, or SO_ERROR is set, or it met itself. */
  predicate Fails(c: Conn, op: Op) {
    op.Event? && c.status == Connecting && (op.error || (op.writable && (op.failed || op.selfConnect)))
  }

  predicate Succeeds(c: Conn, op: Op) {
    op.Event? && c.status == Connecting && !op.error && op.writable && !op.failed && !op.selfConnect
  }

  /** stopInLoop meets the attempt in progress. */
  predicate Stops(c: Conn, op: Op)
    requires Legal(c, op)
  {
    op.RunNext? && c.tasks[0] == StopTask && c.status == Connecting
  }

  function One(b: bool, s: nat): multiset<nat> {
    if b then multiset{s} else multiset{}
  }

  function SocketOf(c: Conn): nat {
    if c.channel.Some? then c.channel.value.socket else 0
  }

  /** From `c` to `c'`: whether a socket is made, one handed over, the new one or the channel's closed, and a
      timer asked for. */
  predicate Effects(c: Conn, c': Conn, made: bool, handed: bool, wasted: bool, closed: bool, timer: bool) {
    && c'.log.created == c.log.created + (if made then 1 else 0)
    && c'.log.handed == c.log.handed + One(handed, SocketOf(c))
    && c'.log.closed == c.log.closed + One(wasted, c.log.created) + One(closed, SocketOf(c))
    && c'.timers == c.timers + (if timer then 1 else 0)
  }

  /** Every step, on the state before it: it makes a socket exactly if it attempts; hands the channel's over
      exactly if that succeeds and is still wanted; closes the channel's exactly if it fails, is stopped, or
      succeeds unwanted, and the new one's exactly if that did not begin; and asks for a timer exactly if a
      wanted attempt was refused, has failed or is stopped. */
  lemma SocketsExactly(c: Conn, op: Op)
    requires Resets(c) && Legal(c, op) && !c.aborted && !Step(c, op).aborted
    ensures Effects(if op.Timer? then c.(timers := c.timers - 1) else c, Step(c, op),
      Attempts(c, op), Succeeds(c, op) && c.connect,
      Attempts(c, op) && !Begun(op), Fails(c, op) || Stops(c, op) || (Succeeds(c, op) && !c.connect),
      (Attempts(c, op) && Refused(op)) || ((Fails(c, op) || Stops(c, op)) && c.connect))
  {
    hide Effects, AfterStart, AfterStop, AfterReset;
    var c0 := if op.Timer? then c.(timers := c.timers - 1) else c;
    match op
    case Start(errno) =>
      StartSockets(c.(connect := true), errno);
      SameSockets(c, c.(connect := true), Step(c, op), true, !Begun(op), false, Refused(op));
    case Restart(errno) =>
      StartSockets(Rewound(c), errno);
      SameSockets(c, Rewound(c), Step(c, op), true, !Begun(op), false, Refused(op));
    case Timer(errno) => StartSockets(c0, errno);
    case RunNext(errno) => RunSockets(c, errno);
    case Event(_, _, _, _) => EventSockets(c, op);
    case StartElsewhere => NoSockets(c, Step(c, op));
    case Stop => NoSockets(c, Step(c, op));
  }

  /** The fields that Effects reads. */
  predicate SocketsAs(c: Conn, c1: Conn) {
    && c1.channel == c.channel && c1.timers == c.timers
    && c1.log.created == c.log.created && c1.log.closed == c.log.closed && c1.log.handed == c.log.handed
  }

  lemma SameSockets(c: Conn, c1: Conn, c': Conn, made: bool, wasted: bool, closed: bool, timer: bool)
    requires SocketsAs(c, c1) && Effects(c1, c', made, false, wasted, closed, timer)
    ensures Effects(c, c', made, false, wasted, closed, timer)
  {
  }

  lemma NoSockets(c: Conn, c': Conn)
    requires SocketsAs(c, c') || SocketsAs(c.(channel := None), c')
    ensures Effects(c, c', false, false, false, false, false)
  {
  }

  lemma StartSockets(c: Conn, errno: Errno)
    requires !c.aborted && !AfterStart(c, errno).aborted
    ensures Effects(c, AfterStart(c, errno), c.connect, false,
      c.connect && errno !in {OK, EINPROGRESS, EINTR, EISCONN}, false,
      c.connect && errno in {EAGAIN, EADDRINUSE, EADDRNOTAVAIL, ECONNREFUSED, ENETUNREACH})
  {
    hide AfterConnect, Effects;
    if c.connect { ConnectSockets(c, errno); } else { NoSockets(c, c); }
  }

  lemma StopSockets(c: Conn)
    ensures var stops := c.status == Connecting && c.channel.Some?;
      Effects(c, AfterStop(c), false, false, false, stops, stops && c.connect)
  {
  }

  lemma RunSockets(c: Conn, errno: Errno)
    requires Resets(c) && Legal(c, RunNext(errno)) && !c.aborted && !Step(c, RunNext(errno)).aborted
    ensures var op := RunNext(errno);
      Effects(c, Step(c, op), Attempts(c, op), false, Attempts(c, op) && !Begun(op), Stops(c, op),
              (Attempts(c, op) && Refused(op)) || (Stops(c, op) && c.connect))
  {
    var op, c1 := RunNext(errno), c.(tasks := c.tasks[1..]);
    hide Effects;
    if c.tasks[0] == StartTask {
      StartSockets(c1, errno);
      SameSockets(c, c1, AfterStart(c1, errno), c.connect, c.connect && !Begun(op), false, c.connect && Refused(op));
      hide AfterStart;
    } else if c.tasks[0] == StopTask {
      StopSockets(c1);
      SameSockets(c, c1, AfterStop(c1), false, false, Stops(c, op), Stops(c, op) && c.connect);
      hide AfterStop;
    } else {
      NoSockets(c, AfterReset(c1));
    }
  }

  lemma EventSockets(c: Conn, op: Op)
    requires op.Event? && Legal(c, op) && !c.aborted && !Step(c, op).aborted
    ensures Effects(c, Step(c, op), false, Succeeds(c, op) && c.connect, false,
                    Fails(c, op) || (Succeeds(c, op) && !c.connect), Fails(c, op) && c.connect)
  {
    DispatchIs(c, op);
    hide Dispatched;
  }

  lemma ConnectSockets(c: Conn, errno: Errno)
    ensures Effects(c, AfterConnect(c, errno), true, false, errno !in {OK, EINPROGRESS, EINTR, EISCONN}, false,
      c.connect && errno in {EAGAIN, EADDRINUSE, EADDRNOTAVAIL, ECONNREFUSED, ENETUNREACH})
  {
    ConnectIs(c, errno);
    hide AfterConnect;
  }

  /** stop takes effect: over every run that follows it with no later start, no attempt is in progress once
      stopInLoop has run. */
  lemma {:induction false} StopTakesEffect(c: Conn, ops: seq<Op>)
    requires Inv(c) && LegalRun(c, [Stop] + ops) && forall op | op in ops :: !Starts(op)
    ensures var c' := Steps(c, [Stop] + ops); c'.aborted || c'.status != Connecting || StopTask in c'.tasks
  {
    assert ([Stop] + ops)[1..] == ops && ([Stop] + ops)[0] == Stop;
    var c1 := Step(c, Stop);
    assert StopTask in c1.tasks || c1.aborted;
    if !c1.aborted { StoppedSettles(c1, ops); } else { AbortStays(c1, ops); }
  }

  lemma {:induction false} StoppedSettles(c: Conn, ops: seq<Op>)
    requires LegalRun(c, ops) && !c.connect && forall op | op in ops :: !Starts(op)
    requires c.aborted || (Resets(c) && Delays(c))
    requires c.aborted || c.status != Connecting || StopTask in c.tasks
    ensures var c' := Steps(c, ops); c'.aborted || c'.status != Connecting || StopTask in c'.tasks
    decreases |ops|
  {
    if ops != [] {
      StoppedStep(c, ops[0]);
      StopSettlesByStep(c, ops[0]);
      if !Step(c, ops[0]).aborted { StepKeepsRest(c, ops[0]); }
      hide Step, Legal;
      StoppedSettles(Step(c, ops[0]), ops[1..]);
    }
  }

  lemma StopSettlesByStep(c: Conn, op: Op)
    requires Legal(c, op) && !c.connect && !Starts(op) && (c.aborted || Resets(c))
    requires c.aborted || c.status != Connecting || StopTask in c.tasks
    ensures var c' := Step(c, op); c'.aborted || c'.status != Connecting || StopTask in c'.tasks
  {
    assert op.RunNext? ==> c.tasks == [c.tasks[0]] + c.tasks[1..];
  }

  /** start from another thread takes effect: over every run that follows it without a stop, a socket has been
      made or startInLoop is still to run. */
  lemma {:induction false} StartTakesEffect(c: Conn, ops: seq<Op>)
    requires LegalRun(c, [StartElsewhere] + ops) && Stop !in ops
    ensures var c' := Steps(c, [StartElsewhere] + ops);
      c'.aborted || c'.log.created > c.log.created || StartTask in c'.tasks
  {
    assert ([StartElsewhere] + ops)[1..] == ops && ([StartElsewhere] + ops)[0] == StartElsewhere;
    var c1 := Step(c, StartElsewhere);
    assert StartTask in c1.tasks || c1.aborted;
    if !c1.aborted { StartedSettles(c1, ops, c.log.created); } else { AbortStays(c1, ops); }
  }

  lemma {:induction false} StartedSettles(c: Conn, ops: seq<Op>, n: nat)
    requires LegalRun(c, ops) && c.connect && Stop !in ops && n <= c.log.created
    requires c.aborted || c.log.created > n || StartTask in c.tasks
    ensures var c' := Steps(c, ops); c'.aborted || c'.log.created > n || StartTask in c'.tasks
    decreases |ops|
  {
    if ops != [] {
      StartSettlesByStep(c, ops[0]);
      hide Step, Legal;
      StartedSettles(Step(c, ops[0]), ops[1..], n);
    }
  }

  lemma StartSettlesByStep(c: Conn, op: Op)
    requires Legal(c, op) && c.connect && op != Stop
    ensures var c' := Step(c, op);
      && c'.connect && c.log.created <= c'.log.created
      && (StartTask in c.tasks ==> c'.aborted || c'.log.created > c.log.created || StartTask in c'.tasks)
      && (c.aborted ==> c'.aborted)
  {
    assert op.RunNext? ==> c.tasks == [c.tasks[0]] + c.tasks[1..];
  }

  // ---- Overlapping starts ----------------------------------------------------------------------------------------

  /** startInLoop's assertions, its own and connecting's. */
  lemma StartAbortsExactly(c: Conn, errno: Errno)
    requires !c.aborted
    ensures AfterStart(c, errno).aborted <==>
      c.status != Disconnected || (c.connect && InProgress(errno) && c.channel != None)
  {
  }

  /** The step starts an attempt that fails an assertion: one is on, or its channel is not yet gone when
      connect answers that the attempt is in progress. */
  predicate Overlaps(c: Conn, op: Op) {
    match op
    case Start(errno) => c.status != Disconnected || (InProgress(errno) && c.channel != None)
    case Restart(errno) => InProgress(errno) && c.channel != None
    case Timer(errno) => c.status != Disconnected || (c.connect && InProgress(errno) && c.channel != None)
    case RunNext(errno) =>
      c.tasks != [] && c.tasks[0] == StartTask
      && (c.status != Disconnected || (c.connect && InProgress(errno) && c.channel != None))
    case _ => false
  }

  /** A channel has been unregistered by the time its attempt succeeds. */
  predicate Unfinished(c: Conn) {
    c.channel.Some? && c.channel.value.registered ==> c.status != Connected
  }

  lemma StepKeepsUnfinished(c: Conn, op: Op)
    requires Unfinished(c) && Legal(c, op)
    ensures Unfinished(Step(c, op))
  {
  }

  lemma StepAbortsExactly(c: Conn, op: Op)
    requires Resets(c) && Unfinished(c) && Legal(c, op) && !c.aborted
    ensures Step(c, op).aborted <==> Overlaps(c, op)
  {
    match op
    case RunNext(errno) =>
      assert c.tasks == [c.tasks[0]] + c.tasks[1..];
      StartAbortsExactly(c.(tasks := c.tasks[1..]), errno);
      hide AfterStart;
    case Start(errno) =>
      StartAbortsExactly(c.(connect := true), errno);
      hide AfterStart;
    case Restart(errno) =>
      StartAbortsExactly(Rewound(c), errno);
      hide AfterStart;
    case Timer(errno) =>
      StartAbortsExactly(c.(timers := c.timers - 1), errno);
      hide AfterStart;
    case Event(_, _, _, _) => DispatchIs(c, op);
    case _ =>
  }

  ghost predicate Overlapped(c: Conn, ops: seq<Op>)
    requires LegalRun(c, ops)
    decreases |ops|
  {
    ops != [] && (Overlaps(c, ops[0]) || Overlapped(Step(c, ops[0]), ops[1..]))
  }

  lemma {:induction false} AbortsFrom(c: Conn, ops: seq<Op>)
    requires Resets(c) && Delays(c) && Unfinished(c) && !c.aborted && LegalRun(c, ops)
    ensures Steps(c, ops).aborted <==> Overlapped(c, ops)
    decreases |ops|
  {
    hide Step, Overlaps, Legal, Resets, Delays, Unfinished;
    if ops != [] {
      var c' := Step(c, ops[0]);
      StepAbortsExactly(c, ops[0]);
      if c'.aborted {
        AbortStays(c', ops[1..]);
      } else {
        StepKeepsRest(c, ops[0]);
        StepKeepsUnfinished(c, ops[0]);
        AbortsFrom(c', ops[1..]);
      }
    }
  }

  /** Over every run: an assertion of the connector fails exactly if, somewhere in it, a start, a restart
      or a retry timer overlaps an attempt that way. */
  lemma AbortsExactly(ops: seq<Op>)
    requires LegalRun(NewConn(), ops)
    ensures Steps(NewConn(), ops).aborted <==> Overlapped(NewConn(), ops)
  {
    AbortsFrom(NewConn(), ops);
  }

  /** A registered channel is in kConnecting, so that its events are acted on. */
  predicate Attended(c: Conn) {
    c.channel.Some? && c.channel.value.registered ==> c.status == Connecting
  }

  /** Restarting strands the channel of an attempt in progress, and nothing else does. */
  lemma RestartStrandsExactly(c: Conn, errno: Errno)
    requires !c.aborted && Resets(c) && Attended(c) && !AfterRestart(c, errno).aborted
    ensures Attended(AfterRestart(c, errno)) <==> c.status != Connecting
  {
  }

  /** Such a run: the restart's own attempt is refused, and the first one's channel stays in the poller
      with nobody to act on its events. */
  lemma RestartStrands()
    ensures var c1 := Step(NewConn(), Start(EINPROGRESS));
      var c2 := Step(c1, Restart(ECONNREFUSED));
      c1.status == Connecting && !c2.aborted && c2.status == Disconnected && c2.channel == Some(Channel(0, true))
      && Step(c2, Event(false, true, false, false)) == c2
  {
  }

  /** Nothing is about to start an attempt. */
  predicate NoStartPending(c: Conn) {
    c.timers == 0 && StartTask !in c.tasks
  }

  /** start only when no attempt is on or pending, restart not during one, and a removed channel is gone
      before the next attempt. */
  predicate Orderly(c: Conn, op: Op) {
    Legal(c, op) &&
    match op
    case Start(_) => c.status == Disconnected && NoStartPending(c) && c.channel == None
    case StartElsewhere => c.status == Disconnected && NoStartPending(c)
    case Restart(_) => c.status != Connecting && NoStartPending(c) && c.channel == None
    case Timer(_) => c.channel == None
    case _ => true
  }

  predicate ResetsFirst(tasks: seq<Task>) {
    forall i, j | 0 <= i < j < |tasks| && tasks[i] == StartTask :: tasks[j] != ResetTask
  }

  predicate OneStart(c: Conn) {
    && c.timers + multiset(c.tasks)[StartTask] <= 1
    && (c.status != Disconnected ==> NoStartPending(c))
    && ResetsFirst(c.tasks)
  }

  ghost predicate Calm(c: Conn) {
    !c.aborted && Resets(c) && Attended(c) && OneStart(c)
  }

  lemma ResetAppended(c: Conn)
    requires Calm(c) && StartTask !in c.tasks
    ensures ResetsFirst(c.tasks + [ResetTask]) && StartTask !in c.tasks + [ResetTask]
    ensures multiset(c.tasks + [ResetTask])[StartTask] == 0
  {
  }

  lemma CalmRetry(c: Conn, socket: nat)
    requires !c.aborted && Resets(c.(status := Disconnected)) && NoStartPending(c) && ResetsFirst(c.tasks)
    requires c.channel.Some? ==> !c.channel.value.registered
    ensures Calm(AfterRetry(c, socket))
  {
    assert multiset(c.tasks)[StartTask] == 0;
  }

  lemma CalmStart(c: Conn, errno: Errno)
    requires !c.aborted && Resets(c) && Attended(c) && c.status == Disconnected && c.channel == None
        && NoStartPending(c) && ResetsFirst(c.tasks)
    ensures Calm(AfterStart(c, errno))
  {
    assert multiset(c.tasks)[StartTask] == 0;
    CalmRetry(c.(log := c.log.(created := c.log.created + 1)), c.log.created);
    hide AfterRetry;
  }

  lemma CalmHandlers(c: Conn, failed: bool, selfConnect: bool)
    requires Calm(c)
    ensures Calm(AfterStop(c)) && Calm(AfterError(c))
    ensures c.status == Connecting || c.status == Disconnected ==> Calm(AfterWrite(c, failed, selfConnect))
  {
    if c.status == Connecting {
      ResetAppended(c);
      CalmRetry(Removed(c), c.channel.value.socket);
      CalmRetry(Removed(c.(status := Disconnected)), c.channel.value.socket);
      hide AfterRetry, ResetsFirst;
    }
  }

  lemma TailOf(tasks: seq<Task>)
    requires tasks != [] && ResetsFirst(tasks)
    ensures ResetsFirst(tasks[1..])
    ensures multiset(tasks) == multiset{tasks[0]} + multiset(tasks[1..])
    ensures tasks[0] == StartTask ==> multiset(tasks[1..])[ResetTask] == 0
  {
    assert tasks == [tasks[0]] + tasks[1..];
    if tasks[0] == StartTask {
      assert forall j | 0 <= j < |tasks| - 1 :: tasks[1..][j] == tasks[j + 1] && tasks[1..][j] != ResetTask;
    }
  }

  lemma CalmRun(c: Conn, errno: Errno)
    requires Calm(c) && c.tasks != []
    ensures Calm(Step(c, RunNext(errno)))
  {
    hide ResetsFirst;
    var c1 := c.(tasks := c.tasks[1..]);
    TailOf(c.tasks);
    if c.tasks[0] == StartTask {
      assert multiset(c1.tasks)[StartTask] == 0 && StartTask in c.tasks;
      CalmStart(c1, errno);
      hide AfterStart, AfterStop, AfterReset;
    } else if c.tasks[0] == StopTask {
      assert Calm(c1);
      CalmHandlers(c1, false, false);
      hide AfterStart, AfterStop, AfterReset;
    } else {
      hide AfterStart, AfterStop;
    }
  }

  lemma CalmStep(c: Conn, op: Op)
    requires Calm(c) && Orderly(c, op)
    ensures Calm(Step(c, op))
  {
    if op.Start? || op.Restart? || op.Timer? { CalmAttempt(c, op); }
    if op.RunNext? { CalmRun(c, op.errno); }
    if op.Event? { CalmEvent(c, op); }
    if op.StartElsewhere? || op.Stop? { CalmPost(c, op); }
    hide *;
  }

  lemma CalmAttempt(c: Conn, op: Op)
    requires Calm(c) && Orderly(c, op) && (op.Start? || op.Restart? || op.Timer?)
    ensures Calm(Step(c, op))
  {
    hide AfterStart, ResetsFirst;
    match op
    case Start(errno) => CalmStart(c.(connect := true), errno);
    case Restart(errno) =>
      CalmStart(Rewound(c), errno);
    case Timer(errno) =>
      assert multiset(c.tasks)[StartTask] == 0 && c.timers == 1;
      CalmStart(c.(timers := c.timers - 1), errno);
  }

  lemma CalmEvent(c: Conn, op: Op)
    requires Calm(c) && Orderly(c, op) && op.Event?
    ensures Calm(Step(c, op))
  {
    hide AfterError, AfterWrite, ResetsFirst;
    DispatchIs(c, op);
    CalmHandlers(c, op.failed, op.selfConnect);
  }

  lemma CalmPost(c: Conn, op: Op)
    requires Calm(c) && Orderly(c, op) && (op.StartElsewhere? || op.Stop?)
    ensures Calm(Step(c, op))
  {
    assert op.StartElsewhere? ==> multiset(c.tasks)[StartTask] == 0;
  }

  ghost predicate OrderlyRun(c: Conn, ops: seq<Op>)
    decreases |ops|
  {
    ops == [] || (Orderly(c, ops[0]) && OrderlyRun(Step(c, ops[0]), ops[1..]))
  }

  lemma {:induction false} CalmSteps(c: Conn, ops: seq<Op>)
    requires Calm(c) && OrderlyRun(c, ops)
    ensures LegalRun(c, ops) && Calm(Steps(c, ops))
    decreases |ops|
  {
    if ops != [] {
      CalmStep(c, ops[0]);
      CalmSteps(Step(c, ops[0]), ops[1..]);
      hide Step, Calm;
    }
  }

  /** In an orderly run no assertion fails, and a channel is registered exactly in kConnecting. */
  lemma OrderlyRunsNeverAbort(ops: seq<Op>)
    requires OrderlyRun(NewConn(), ops)
    ensures LegalRun(NewConn(), ops)
    ensures var c := Steps(NewConn(), ops);
      !c.aborted && (c.status == Connecting <==> c.channel.Some? && c.channel.value.registered)
  {
    CalmSteps(NewConn(), ops);
  }

  /** stop does not cancel the retry timer: a start before it fires makes it fail startInLoop's
      assertion. */
  lemma StopThenStartAborts()
    ensures var c1 := Step(NewConn(), Start(ECONNREFUSED));
      var c2 := Step(c1, Stop);
      Legal(c2, RunNext(OK)) &&
      var c3 := Step(c2, RunNext(OK));
      var c4 := Step(c3, Start(EINPROGRESS));
      !c4.aborted && Legal(c4, Timer(OK)) && Step(c4, Timer(OK)).aborted
  {
  }

  // ---- The class --------------------------------------------------------------------------------------------------

  class Connector {
    var connect: bool
    var status: Status
    var channel: Option<Channel>
    var retryDelayMs: nat
    var tasks: seq<Task>
    var timers: nat
    var log: Log // the sockets, and the delays asked for

    ghost function Snapshot(): Conn
      reads this
    {
      Conn(connect, status, channel, retryDelayMs, tasks, timers, false, log)
    }

    constructor ()
      ensures Snapshot() == NewConn()
    {
      connect, status, channel, retryDelayMs := false, Disconnected, None, INIT_RETRY_DELAY_MS;
      tasks, timers, log := [], 0, Log(0, multiset{}, multiset{}, []);
    }

    method QueueInLoop(t: Task)
      modifies this`tasks
      ensures tasks == old(tasks) + [t]
    {
      tasks := tasks + [t];
    }

    method Start(inLoopThread: bool, errno: Errno)
      requires inLoopThread ==> !Step(Snapshot(), Op.Start(errno)).aborted
      modifies this
      ensures Snapshot() == Step(old(Snapshot()), if inLoopThread then Op.Start(errno) else StartElsewhere)
    {
      connect := true;
      if inLoopThread {
        StartInLoop(errno);
      } else {
        QueueInLoop(StartTask);
      }
    }

    method StartInLoop(errno: Errno)
      requires !AfterStart(Snapshot(), errno).aborted
      modifies this
      ensures Snapshot() == AfterStart(old(Snapshot()), errno)
    {
      assert status == Disconnected;
      if connect {
        Connect(errno);
      }
    }

    method Stop()
      modifies this`connect, this`tasks
      ensures Snapshot() == Step(old(Snapshot()), Op.Stop)
    {
      connect := false;
      QueueInLoop(StopTask);
    }

    method StopInLoop()
      requires status == Connecting ==> channel.Some?
      modifies this
      ensures Snapshot() == AfterStop(old(Snapshot()))
    {
      if status == Connecting {
        status := Disconnected;
        var sockfd := RemoveAndResetChannel();
        Retry(sockfd);
      }
    }

    method Connect(errno: Errno)
      requires !AfterConnect(Snapshot(), errno).aborted
      modifies this
      ensures Snapshot() == AfterConnect(old(Snapshot()), errno)
    {
      var sockfd := CreateNonblocking();
      match errno
      case OK | EINPROGRESS | EINTR | EISCONN => ConnectingOn(sockfd);
      case EAGAIN | EADDRINUSE | EADDRNOTAVAIL | ECONNREFUSED | ENETUNREACH => Retry(sockfd);
      case _ => Close(sockfd);
    }

    method CreateNonblocking() returns (sockfd: nat)
      modifies this`log
      ensures log == old(log).(created := old(log).created + 1) && sockfd == old(log).created
    {
      sockfd := log.created;
      log := log.(created := log.created + 1);
    }

    method Close(sockfd: nat)
      modifies this`log
      ensures Snapshot() == Closed(old(Snapshot()), sockfd)
    {
      log := log.(closed := log.closed + multiset{sockfd});
    }

    method Restart(errno: Errno)
      requires !AfterRestart(Snapshot(), errno).aborted
      modifies this
      ensures Snapshot() == AfterRestart(old(Snapshot()), errno)
    {
      status := Disconnected;
      retryDelayMs := INIT_RETRY_DELAY_MS;
      log := log.(delays := []);
      connect := true;
      StartInLoop(errno);
    }

    /** connecting. */
    method ConnectingOn(sockfd: nat)
      requires channel == None
      modifies this`status, this`channel
      ensures Snapshot() == AfterConnecting(old(Snapshot()), sockfd)
    {
      status := Connecting;
      channel := Some(Channel(sockfd, false));
      channel := Some(channel.value.(registered := true));
    }

    method RemoveAndResetChannel() returns (sockfd: nat)
      requires channel.Some?
      modifies this`channel, this`tasks
      ensures Snapshot() == Removed(old(Snapshot())) && sockfd == old(channel).value.socket
    {
      channel := Some(channel.value.(registered := false));
      sockfd := channel.value.socket;
      QueueInLoop(ResetTask);
    }

    /** resetChannel; ~Channel asserts that it was removed. */
    method ResetChannel()
      requires !AfterReset(Snapshot()).aborted
      modifies this`channel
      ensures Snapshot() == AfterReset(old(Snapshot()))
    {
      assert channel.Some? ==> !channel.value.registered;
      channel := None;
    }

    /** handleWrite; `failed` is SO_ERROR. */
    method HandleWrite(failed: bool, selfConnect: bool)
      requires (status == Connecting ==> channel.Some?) && !AfterWrite(Snapshot(), failed, selfConnect).aborted
      modifies this
      ensures Snapshot() == AfterWrite(old(Snapshot()), failed, selfConnect)
    {
      if status == Connecting {
        var sockfd := RemoveAndResetChannel();
        if failed {
          Retry(sockfd);
        } else if selfConnect {
          Retry(sockfd);
        } else {
          status := Connected;
          if connect {
            log := log.(handed := log.handed + multiset{sockfd});
          } else {
            Close(sockfd);
          }
        }
      } else {
        assert status == Disconnected;
      }
    }

    method HandleError()
      requires status == Connecting ==> channel.Some?
      modifies this
      ensures Snapshot() == AfterError(old(Snapshot()))
    {
      if status == Connecting {
        var sockfd := RemoveAndResetChannel();
        Retry(sockfd);
      }
    }

    method Retry(sockfd: nat)
      modifies this
      ensures Snapshot() == AfterRetry(old(Snapshot()), sockfd)
    {
      Close(sockfd);
      status := Disconnected;
      if connect {
        timers := timers + 1;
        log := log.(delays := log.delays + [retryDelayMs]);
        var twice := retryDelayMs * 2;
        retryDelayMs := if twice < MAX_RETRY_DELAY_MS then twice else MAX_RETRY_DELAY_MS;
      }
    }

    /** The loop runs the next of the connector's functors. */
    method RunNext(errno: Errno)
      requires tasks != [] && (status == Connecting ==> channel.Some?) && !Step(Snapshot(), Op.RunNext(errno)).aborted
      modifies this
      ensures Snapshot() == Step(old(Snapshot()), Op.RunNext(errno))
    {
      hide AfterStart, AfterReset, AfterStop;
      var t := tasks[0];
      tasks := tasks[1..];
      match t
      case StartTask => StartInLoop(errno);
      case StopTask => StopInLoop();
      case ResetTask => ResetChannel();
    }
  }
}
