/** The output side of a connection (muduo/net/TcpConnection.cpp: send, sendInLoop, handleWrite,
    shutdown, forceClose, handleClose), with the functors it queues on its loop.

    The socket is the bytes the kernel has taken and whether SHUT_WR was issued.  `accepted` collects
    the messages sendInLoop did not drop.  Results of write are inputs.  A call from another thread is
    two steps, its test of state_ and its push, and other threads act in between. */
module Connections {
  import opened Buffers

  type Bytes = seq<Byte>

  datatype Phase = Connecting | Connected | Disconnecting | Disconnected

  /** write's result; Fault is EPIPE or ECONNRESET, Failed any other error. */
  datatype WriteResult = Wrote(n: nat) | WouldBlock | Fault | Failed

  type Thread = nat

  const LOOP: Thread := 0

  datatype Msg = Msg(sender: Thread, data: Bytes)

  datatype Task =
    | SendTask(msg: Msg)
    | ShutdownTask(caller: Thread)
    | ForceCloseTask
    | WriteCompleteTask
    | HighWaterTask(size: nat)

  /** What the user set before the connection was established. */
  datatype Settings = Settings(mark: nat, onWriteComplete: bool, onHighWater: bool)

  datatype Conn = Conn(
    settings: Settings,
    phase: Phase, writing: bool, out: Bytes,
    tasks: seq<Task>,           // the loop's queued functors that are this connection's
    posters: map<Thread, Task>, // calls whose test has passed, and what they will push
    kernel: Bytes, shut: bool,  // the socket
    aborted: bool,              // an assertion failed
    log: Log,
    marks: Marks)

  /** History: the messages of send calls that passed their test, those sendInLoop was given, the bytes
      it accepted, and how many it dropped. */
  datatype Log = Log(asked: seq<Msg>, given: seq<Msg>, accepted: Bytes, lost: nat)

  /** History: whether shutdownInLoop ran, the high-water notifications, and how often the buffer went
      below the mark. */
  datatype Marks = Marks(shutdownRan: bool, notified: nat, falls: nat)

  function NewConn(settings: Settings): Conn {
    Conn(settings, Connecting, false, [], [], map[], [], false, false, Log([], [], [], 0), Marks(false, 0, 0))
  }

  // ---- Steps --------------------------------------------------------------------------------------------

  predicate Direct(c: Conn) {
    c.phase != Disconnected && !c.writing && c.out == []
  }

  function Post(c: Conn, wanted: bool, t: Task): Conn {
    if wanted then c.(tasks := c.tasks + [t]) else c
  }

  function Remaining(data: Bytes, nwrote: int): nat
    requires -1 <= nwrote <= |data|
  {
    if nwrote < 0 then |data| else |data| - nwrote
  }

  /** The `remaining` bytes from data + nwrote; `stray` is the byte before data. */
  function From(data: Bytes, nwrote: int, stray: Byte): (s: Bytes)
    requires -1 <= nwrote <= |data|
    ensures |s| == Remaining(data, nwrote)
    ensures nwrote >= 0 ==> s == data[nwrote..]
  {
    ([stray] + data)[1 + nwrote..1 + nwrote + Remaining(data, nwrote)]
  }

  function Accept(c: Conn, data: Bytes): Conn {
    c.(log := c.log.(accepted := c.log.accepted + data))
  }

  function Lose(c: Conn, data: Bytes): Conn {
    c.(log := c.log.(lost := c.log.lost + |data|))
  }

  function Ask(c: Conn, m: Msg): Conn {
    c.(log := c.log.(asked := c.log.asked + [m]))
  }

  function Give(c: Conn, m: Msg): Conn {
    c.(log := c.log.(given := c.log.given + [m]))
  }

  lemma FromIs(data: Bytes, nwrote: int, stray: Byte)
    requires -1 <= nwrote <= |data|
    ensures From(data, nwrote, stray) == ([stray] + data)[1 + nwrote..1 + nwrote + Remaining(data, nwrote)]
  {
  }

  /** The end of sendInLoop: what remains goes to the output buffer. */
  function Leftover(c: Conn, data: Bytes, nwrote: int, stray: Byte): Conn
    requires -1 <= nwrote <= |data|
  {
    var remaining := Remaining(data, nwrote);
    if remaining == 0 then c else
    HighWaterNoted(c, remaining).(out := c.out + From(data, nwrote, stray), writing := true)
  }

  /** The high-water notification, if the next `remaining` bytes reach the mark. */
  function HighWaterNoted(c: Conn, remaining: nat): Conn {
    var size := |c.out| + remaining;
    var high := c.settings.onHighWater && size >= c.settings.mark && |c.out| < c.settings.mark;
    Post(c, high, HighWaterTask(size)).(marks := c.marks.(notified := c.marks.notified + if high then 1 else 0))
  }

  function AfterSend(c: Conn, data: Bytes, r: WriteResult, stray: Byte): Conn
    requires r.Wrote? ==> r.n <= |data|
  {
    if c.phase == Disconnected then Lose(c, data)
    else if !Direct(c) then Leftover(Accept(c, data), data, 0, stray)
    else match r
      case Wrote(n) =>
        Leftover(Post(c, n == |data| && c.settings.onWriteComplete, WriteCompleteTask).(
          kernel := c.kernel + data[..n], log := Accept(c, data).log), data, n, stray)
      case Fault => Lose(c, data)
      case _ => Leftover(Accept(c, data), data, -1, stray)
  }

  function AfterShutdown(c: Conn): Conn {
    c.(marks := c.marks.(shutdownRan := true), shut := c.shut || !c.writing)
  }

  /** The largest vector of chars. */
  const MAX_SIZE: nat := 0x7fff_ffff_ffff_ffff

  /** write's return value, and that value in a size_t. */
  function Returned(r: WriteResult): int {
    if r.Wrote? then r.n else -1
  }

  function AsSize(x: int): nat {
    x % 0x1_0000_0000_0000_0000
  }

  /** handleWrite keeps write's result in a size_t, and retrieve asserts that it has that many. */
  function AfterWrite(c: Conn, r: WriteResult): Conn
    requires (r.Wrote? ==> r.n <= |c.out|) && |c.out| <= MAX_SIZE
  {
    if !c.writing then c else
    var n := AsSize(Returned(r));
    if n == 0 then c
    else if n > |c.out| then c.(aborted := true)
    else
      var left := c.out[n..];
      var fell := c.settings.onHighWater && |left| < c.settings.mark <= |c.out|;
      var c' := c.(kernel := c.kernel + c.out[..n], out := left,
                      marks := c.marks.(falls := c.marks.falls + if fell then 1 else 0));
      if left != [] then c' else Drained(c')
  }

  lemma SizeOf(c: Conn, r: WriteResult)
    requires (r.Wrote? ==> r.n <= |c.out|) && |c.out| <= MAX_SIZE
    ensures r.Wrote? ==> AsSize(Returned(r)) == r.n
    ensures !r.Wrote? ==> AsSize(Returned(r)) > |c.out|
  {
  }

  function Drained(c: Conn): Conn {
    var c' := Post(c.(writing := false), c.settings.onWriteComplete, WriteCompleteTask);
    if c.phase == Disconnecting then AfterShutdown(c') else c'
  }

  function AfterClose(c: Conn): Conn {
    c.(phase := Disconnected, writing := false)
  }

  predicate Open(c: Conn) {
    c.phase == Connected || c.phase == Disconnecting
  }

  /** A run of a functor; a user callback's calls are further steps, of the loop's thread. */
  function RunTask(c: Conn, t: Task, r: WriteResult, stray: Byte): Conn
    requires t.SendTask? && r.Wrote? ==> r.n <= |t.msg.data|
  {
    match t
    case SendTask(m) => AfterSend(Give(c, m), m.data, r, stray)
    case ShutdownTask(_) => AfterShutdown(c)
    case ForceCloseTask => if Open(c) then AfterClose(c) else c
    case WriteCompleteTask => c
    case HighWaterTask(_) => c
  }

  /** The calls are the loop's thread's, or another's: `t` tests, and sets, and then pushes. */
  datatype Op =
    | Establish
    | Send(data: Bytes, r: WriteResult, stray: Byte)
    | SendElsewhere(t: Thread, data: Bytes)
    | Shutdown
    | ShutdownElsewhere(t: Thread)
    | ForceClose
    | ForceCloseElsewhere(t: Thread)
    | ForceCloseLater                        // forceCloseWithDelay; its timer is a ForceClose
    | Push(t: Thread)
    | Writable(r: WriteResult)
    | PeerClosed
    | RunNext(r: WriteResult, stray: Byte)
    | Destroy

  /** What write may answer. */
  predicate MayAnswer(c: Conn, len: nat, r: WriteResult) {
    (r.Wrote? ==> r.n <= len) && (c.shut && len > 0 ==> r == Fault)
  }

  predicate Legal(c: Conn, op: Op) {
    match op
    case Establish => c.phase == Connecting
    case Send(data, r, _) => MayAnswer(c, |data|, r)
    case SendElsewhere(t, _) => t != LOOP && t !in c.posters
    case ShutdownElsewhere(t) => t != LOOP && t !in c.posters
    case ForceCloseElsewhere(t) => t != LOOP && t !in c.posters
    case Push(t) => t in c.posters
    case Writable(r) => MayAnswer(c, |c.out|, r) && |c.out| <= MAX_SIZE
    case PeerClosed => Open(c)
    case RunNext(r, _) => c.tasks != [] && (c.tasks[0].SendTask? ==> MayAnswer(c, |c.tasks[0].msg.data|, r))
    case _ => true
  }

  function Calling(c: Conn, t: Thread, task: Task): Conn {
    c.(posters := c.posters[t := task])
  }

  function Step(c: Conn, op: Op): Conn
    requires Legal(c, op)
  {
    if c.aborted then c else
    match op
    case Establish => c.(phase := Connected)
    case Send(data, r, stray) =>
      if c.phase == Connected then AfterSend(Give(Ask(c, Msg(LOOP, data)), Msg(LOOP, data)), data, r, stray) else c
    case SendElsewhere(t, data) =>
      if c.phase == Connected then Calling(Ask(c, Msg(t, data)), t, SendTask(Msg(t, data))) else c
    case Shutdown => if c.phase == Connected then AfterShutdown(c.(phase := Disconnecting)) else c
    case ShutdownElsewhere(t) =>
      if c.phase == Connected then Calling(c, t, ShutdownTask(t)).(phase := Disconnecting) else c
    case ForceClose => if Open(c) then Post(c, true, ForceCloseTask).(phase := Disconnecting) else c
    case ForceCloseElsewhere(t) => if Open(c) then Calling(c, t, ForceCloseTask).(phase := Disconnecting) else c
    case ForceCloseLater => if Open(c) then c.(phase := Disconnecting) else c
    case Push(t) => Post(c, true, c.posters[t]).(posters := c.posters - {t})
    case Writable(r) => AfterWrite(c, r)
    case PeerClosed => AfterClose(c)
    case RunNext(r, stray) => RunTask(c.(tasks := c.tasks[1..]), c.tasks[0], r, stray)
    case Destroy => if c.phase == Connected then AfterClose(c) else c
  }

  ghost predicate LegalRun(c: Conn, ops: seq<Op>)
    decreases |ops|
  {
    ops == [] || (Legal(c, ops[0]) && LegalRun(Step(c, ops[0]), ops[1..]))
  }

  function Steps(c: Conn, ops: seq<Op>): Conn
    requires LegalRun(c, ops)
    decreases |ops|
  {
    if ops == [] then c else Steps(Step(c, ops[0]), ops[1..])
  }

  // ---- What every step keeps ---------------------------------------------------------------------------------

  /** The bytes of messages, and of one sender's. */
  function Text(ms: seq<Msg>): Bytes {
    if ms == [] then [] else Text(ms[..|ms| - 1]) + ms[|ms| - 1].data
  }

  function Of(ms: seq<Msg>, t: Thread): Bytes {
    if ms == [] then [] else Of(ms[..|ms| - 1], t) + if ms[|ms| - 1].sender == t then ms[|ms| - 1].data else []
  }

  /** The bytes of sender `t` that wait in the queue, and those it is about to push. */
  function Waiting(tasks: seq<Task>, t: Thread): Bytes {
    if tasks == [] then [] else DataOf(tasks[0], t) + Waiting(tasks[1..], t)
  }

  function DataOf(task: Task, t: Thread): Bytes {
    if task.SendTask? && task.msg.sender == t then task.msg.data else []
  }

  function Posting(posters: map<Thread, Task>, t: Thread): Bytes {
    if t in posters then DataOf(posters[t], t) else []
  }

  lemma OfAppend(ms: seq<Msg>, m: Msg, t: Thread)
    ensures Of(ms + [m], t) == Of(ms, t) + if m.sender == t then m.data else []
    ensures Text(ms + [m]) == Text(ms) + m.data
  {
    assert (ms + [m])[..|ms|] == ms;
  }

  lemma {:induction false} WaitingAppend(tasks: seq<Task>, task: Task, t: Thread)
    ensures Waiting(tasks + [task], t) == Waiting(tasks, t) + DataOf(task, t)
  {
    if tasks == [] {
      assert tasks + [task] == [task] && [task][1..] == [];
    } else {
      hide DataOf;
      WaitingAppend(tasks[1..], task, t);
      assert (tasks + [task])[0] == tasks[0] && (tasks + [task])[1..] == tasks[1..] + [task];
      Associates(DataOf(tasks[0], t), Waiting(tasks[1..], t), DataOf(task, t));
    }
  }

  lemma Associates(x: Bytes, y: Bytes, z: Bytes)
    ensures x + (y + z) == x + y + z
  {
  }

  /** Writing is enabled exactly while there is something to write; what SHUT_WR promises. */
  predicate Flow(c: Conn) {
    && (c.phase != Disconnected ==> (c.writing <==> c.out != []))
    && (c.phase == Disconnected ==> !c.writing)
    && |c.kernel| + |c.out| == |c.log.accepted|
    && (c.shut && c.phase != Disconnected ==> c.out == [])
    && (c.marks.shutdownRan && c.phase == Disconnecting && c.out == [] ==> c.shut)
    && (c.marks.shutdownRan ==> Closing(c))
  }

  predicate Closing(c: Conn) {
    c.phase == Disconnecting || c.phase == Disconnected
  }

  /** Each sender's messages are, in order, those sendInLoop was given, those in the queue, and the one
      it is about to push. */
  ghost predicate Sourced(asked: seq<Msg>, given: seq<Msg>, tasks: seq<Task>, posters: map<Thread, Task>) {
    forall t: Thread :: Of(asked, t) == Of(given, t) + Waiting(tasks, t) + Posting(posters, t)
  }

  /** No thread's send is behind its own shutdown, and shutdown's functor means that the state has
      changed. */
  predicate Ordered(tasks: seq<Task>, posters: map<Thread, Task>, closing: bool) {
    && (forall i, j | 0 <= i < j < |tasks| && tasks[i].ShutdownTask? && tasks[j].SendTask? ::
         tasks[i].caller != tasks[j].msg.sender)
    && (forall i | 0 <= i < |tasks| :: FromElsewhere(tasks[i], closing))
    && (forall t | t in posters :: FromElsewhere(posters[t], closing) && CallOf(posters[t], t))
    && (forall t, i | t in posters && posters[t].SendTask? && 0 <= i < |tasks| :: tasks[i] != ShutdownTask(t))
  }

  predicate FromElsewhere(task: Task, closing: bool) {
    && (task.SendTask? ==> task.msg.sender != LOOP)
    && (task.ShutdownTask? ==> closing && task.caller != LOOP)
  }

  /** A task that thread `t` itself pushes. */
  predicate CallOf(task: Task, t: Thread) {
    && t != LOOP
    && match task
       case SendTask(m) => m.sender == t
       case ShutdownTask(caller) => caller == t
       case _ => task == ForceCloseTask
  }

  ghost predicate Queued(c: Conn) {
    && Sourced(c.log.asked, c.log.given, c.tasks, c.posters)
    && Ordered(c.tasks, c.posters, Closing(c))
  }

  /** What sendInLoop was given it has accepted, or dropped. */
  predicate Accounted(c: Conn) {
    && |c.log.accepted| + c.log.lost == |Text(c.log.given)|
    && (c.log.lost == 0 ==> c.log.accepted == Text(c.log.given))
  }

  /** One notification, then a fall below the mark, then the next. */
  predicate WaterMark(c: Conn) {
    c.settings.onHighWater ==> c.marks.notified == c.marks.falls + if 0 < c.settings.mark <= |c.out| then 1 else 0
  }

  ghost predicate Inv(c: Conn) {
    Flow(c) && Queued(c) && Accounted(c) && WaterMark(c)
  }

  /** The step takes the output buffer to the mark or over it. */
  predicate Crosses(c: Conn, c': Conn) {
    |c.out| < c.settings.mark <= |c'.out|
  }

  lemma LeftoverKeeps(c: Conn, data: Bytes, nwrote: int, stray: Byte)
    requires -1 <= nwrote <= |data|
    ensures var c' := Leftover(c, data, nwrote, stray); var remaining := Remaining(data, nwrote);
      && (WaterMark(c) ==> WaterMark(c'))
      && |c'.out| == |c.out| + remaining && c'.writing == (c.writing || remaining > 0)
      && c' == c.(out := c'.out, writing := c'.writing, tasks := c'.tasks,
                  marks := c.marks.(notified := c'.marks.notified))
      && c'.tasks == c.tasks
        + (if c.settings.onHighWater && Crosses(c, c') then [HighWaterTask(|c'.out|)] else [])
      && c'.marks.notified == c.marks.notified + if c.settings.onHighWater && Crosses(c, c') then 1 else 0
  {
    assert c.tasks + [] == c.tasks;
    hide From;
  }

  lemma SendKeepsWaterMark(c: Conn, data: Bytes, r: WriteResult, stray: Byte)
    requires WaterMark(c) && (r.Wrote? ==> r.n <= |data|)
    ensures WaterMark(AfterSend(c, data, r, stray))
  {
    hide Leftover, From;
    var c1 := Accept(c, data);
    if c.phase == Disconnected || (Direct(c) && r == Fault) {
    } else if !Direct(c) {
      LeftoverKeeps(c1, data, 0, stray);
    } else if r.Wrote? {
      LeftoverKeeps(Post(c, r.n == |data| && c.settings.onWriteComplete, WriteCompleteTask).(
          kernel := c.kernel + data[..r.n], log := Accept(c, data).log), data, r.n, stray);
    } else {
      LeftoverKeeps(c1, data, -1, stray);
    }
  }

  /** The state a send in the loop's thread, or a send's functor, starts sendInLoop in. */
  function Sending(c: Conn, op: Op): Conn
    requires Legal(c, op) && (op.Send? || (op.RunNext? && c.tasks[0].SendTask?))
  {
    if op.Send? then Give(Ask(c, Msg(LOOP, op.data)), Msg(LOOP, op.data))
    else Give(c.(tasks := c.tasks[1..]), c.tasks[0].msg)
  }

  /** Whether the step is one of these, and what is sent. */
  predicate Sends(c: Conn, op: Op)
    requires Legal(c, op)
  {
    !c.aborted && ((op.Send? && c.phase == Connected) || (op.RunNext? && c.tasks[0].SendTask?))
  }

  function Sent(c: Conn, op: Op): Bytes
    requires Legal(c, op) && Sends(c, op)
  {
    if op.Send? then op.data else c.tasks[0].msg.data
  }

  lemma SendStep(c: Conn, op: Op)
    requires Legal(c, op) && Sends(c, op)
    ensures MayAnswer(Sending(c, op), |Sent(c, op)|, op.r)
    ensures Step(c, op) == AfterSend(Sending(c, op), Sent(c, op), op.r, op.stray)
  {
    hide AfterSend;
  }

  lemma StepKeepsWaterMark(c: Conn, op: Op)
    requires WaterMark(c) && Legal(c, op)
    ensures WaterMark(Step(c, op))
  {
    hide AfterSend, AfterWrite;
    if Sends(c, op) {
      SendStep(c, op);
      SendKeepsWaterMark(Sending(c, op), Sent(c, op), op.r, op.stray);
      hide Step;
    } else if op.Writable? {
      WriteKeeps(c, op.r);
      hide WaterMark, Flow;
    }
  }

  lemma WriteKeeps(c: Conn, r: WriteResult)
    requires Legal(c, Writable(r))
    ensures WaterMark(c) ==> WaterMark(AfterWrite(c, r))
    ensures Flow(c) ==> Flow(AfterWrite(c, r))
  {
    SizeOf(c, r);
    hide AsSize;
    if c.writing && r.Wrote? && r.n > 0 {
      var left := c.out[r.n..];
      assert |c.kernel + c.out[..r.n]| + |left| == |c.kernel| + |c.out|;
    }
  }

  lemma SendKeepsFlow(c: Conn, data: Bytes, r: WriteResult, stray: Byte)
    requires Flow(c) && MayAnswer(c, |data|, r)
    ensures Flow(AfterSend(c, data, r, stray))
  {
    hide Leftover, From;
    var c1 := Accept(c, data);
    if c.phase == Disconnected || (Direct(c) && r == Fault) {
    } else if !Direct(c) {
      LeftoverKeeps(c1, data, 0, stray);
    } else if r.Wrote? {
      var c2 := Post(c, r.n == |data| && c.settings.onWriteComplete, WriteCompleteTask).(
          kernel := c.kernel + data[..r.n], log := Accept(c, data).log);
      LeftoverKeeps(c2, data, r.n, stray);
      assert |c2.kernel| + |c2.out| + Remaining(data, r.n) == |c2.log.accepted|;
      assert AfterSend(c, data, r, stray) == Leftover(c2, data, r.n, stray);
    } else {
      LeftoverKeeps(c1, data, -1, stray);
    }
  }

  lemma StepKeepsFlow(c: Conn, op: Op)
    requires Flow(c) && Ordered(c.tasks, c.posters, Closing(c)) && Legal(c, op)
    ensures Flow(Step(c, op))
  {
    hide AfterSend, AfterWrite;
    if Sends(c, op) {
      SendStep(c, op);
      SendKeepsFlow(Sending(c, op), Sent(c, op), op.r, op.stray);
      hide Step, Ordered;
    } else if op.Writable? {
      WriteKeeps(c, op.r);
      hide WaterMark, Flow, Ordered;
    } else {
      assert op.RunNext? ==> FromElsewhere(c.tasks[0], Closing(c));
      hide Ordered;
    }
  }

  // The queue.

  predicate Internal(task: Task) {
    task.WriteCompleteTask? || task.HighWaterTask? || task.ForceCloseTask?
  }

  /** The queue is longer by at most one functor that neither sends nor shuts down. */
  ghost predicate Padded(tasks: seq<Task>, tasks': seq<Task>) {
    tasks' == tasks || exists t :: Internal(t) && tasks' == tasks + [t]
  }

  lemma PaddedKeeps(asked: seq<Msg>, given: seq<Msg>, tasks: seq<Task>, tasks': seq<Task>, posters: map<Thread, Task>,
                    closing: bool)
    requires Padded(tasks, tasks')
    ensures Sourced(asked, given, tasks, posters) ==> Sourced(asked, given, tasks', posters)
    ensures Ordered(tasks, posters, closing) ==> Ordered(tasks', posters, closing)
    ensures forall t: Thread :: Waiting(tasks', t) == Waiting(tasks, t)
  {
    if tasks' != tasks {
      var x :| Internal(x) && tasks' == tasks + [x];
      forall t: Thread ensures Waiting(tasks', t) == Waiting(tasks, t) {
        WaitingAppend(tasks, x, t);
        assert Waiting(tasks, t) + [] == Waiting(tasks, t);
      }
    }
    hide Waiting, Of;
  }

  lemma PushKeepsOrdered(tasks: seq<Task>, posters: map<Thread, Task>, t: Thread, closing: bool)
    requires Ordered(tasks, posters, closing) && t in posters
    ensures Ordered(tasks + [posters[t]], posters - {t}, closing)
  {
  }

  /** A push moves what was about to be pushed to the end of the queue. */
  lemma PushedIsWaiting(tasks: seq<Task>, posters: map<Thread, Task>, t: Thread, s: Thread)
    requires t in posters && CallOf(posters[t], t)
    ensures Waiting(tasks + [posters[t]], s) + Posting(posters - {t}, s) == Waiting(tasks, s) + Posting(posters, s)
  {
    WaitingAppend(tasks, posters[t], s);
    assert s == t ==> Posting(posters, s) == DataOf(posters[t], s) && Posting(posters - {t}, s) == [];
    assert s != t ==> Posting(posters, s) == Posting(posters - {t}, s) && DataOf(posters[t], s) == [];
    hide Waiting, Posting, DataOf;
    var w := Waiting(tasks, s);
    assert w + [] == w && (w + DataOf(posters[t], s)) + [] == w + DataOf(posters[t], s);
  }

  lemma PushKeepsSourced(asked: seq<Msg>, given: seq<Msg>, tasks: seq<Task>, posters: map<Thread, Task>, t: Thread)
    requires Sourced(asked, given, tasks, posters) && t in posters && CallOf(posters[t], t)
    ensures Sourced(asked, given, tasks + [posters[t]], posters - {t})
  {
    var tasks', posters' := tasks + [posters[t]], posters - {t};
    forall s: Thread ensures Of(asked, s) == Of(given, s) + Waiting(tasks', s) + Posting(posters', s) {
      assert Of(asked, s) == Of(given, s) + Waiting(tasks, s) + Posting(posters, s);
      PushedIsWaiting(tasks, posters, t, s);
      hide *;
      Associates(Of(given, s), Waiting(tasks, s), Posting(posters, s));
      Associates(Of(given, s), Waiting(tasks', s), Posting(posters', s));
    }
  }

  lemma CallKeepsSourced(asked: seq<Msg>, given: seq<Msg>, tasks: seq<Task>, posters: map<Thread, Task>, t: Thread,
                         task: Task)
    requires Sourced(asked, given, tasks, posters) && t !in posters && CallOf(task, t)
    ensures Sourced(if task.SendTask? then asked + [task.msg] else asked, given, tasks, posters[t := task])
  {
    forall s: Thread
      ensures Of(if task.SendTask? then asked + [task.msg] else asked, s)
           == Of(given, s) + Waiting(tasks, s) + Posting(posters[t := task], s)
    {
      CalledIsPosting(asked, posters, t, task, s);
      assert Of(asked, s) == Of(given, s) + Waiting(tasks, s) + Posting(posters, s);
      hide *;
      Associates(Of(given, s) + Waiting(tasks, s), Posting(posters, s), DataOf(task, s));
    }
  }

  lemma CalledIsPosting(asked: seq<Msg>, posters: map<Thread, Task>, t: Thread, task: Task, s: Thread)
    requires t !in posters && CallOf(task, t)
    ensures Of(if task.SendTask? then asked + [task.msg] else asked, s) == Of(asked, s) + DataOf(task, s)
    ensures Posting(posters[t := task], s) == Posting(posters, s) + DataOf(task, s)
  {
    if task.SendTask? { OfAppend(asked, task.msg, s); }
    hide Of;
    assert Of(asked, s) + [] == Of(asked, s) && Posting(posters, s) + [] == Posting(posters, s);
  }

  lemma InlineKeepsSourced(asked: seq<Msg>, given: seq<Msg>, tasks: seq<Task>, posters: map<Thread, Task>, m: Msg,
                           closing: bool)
    requires Sourced(asked, given, tasks, posters) && Ordered(tasks, posters, closing) && m.sender == LOOP
    ensures Sourced(asked + [m], given + [m], tasks, posters)
  {
    NothingFromLoop(tasks, closing);
    assert Posting(posters, LOOP) == [];
    forall s: Thread
      ensures Of(asked + [m], s) == Of(given + [m], s) + Waiting(tasks, s) + Posting(posters, s)
    {
      OfAppend(asked, m, s);
      OfAppend(given, m, s);
      assert Of(asked, s) == Of(given, s) + Waiting(tasks, s) + Posting(posters, s);
      hide *;
      var g := Of(given, s);
      if s == LOOP {
        assert g + [] + [] == g && Of(given + [m], s) + [] + [] == Of(given + [m], s);
      } else {
        assert g + [] == g && Of(asked, s) + [] == Of(asked, s);
      }
    }
  }

  lemma {:induction false} NothingFromLoop(tasks: seq<Task>, closing: bool)
    requires forall i | 0 <= i < |tasks| :: FromElsewhere(tasks[i], closing)
    ensures Waiting(tasks, LOOP) == []
  {
    if tasks != [] {
      NothingFromLoop(tasks[1..], closing);
      assert FromElsewhere(tasks[0], closing);
    }
  }

  lemma RunKeepsSourced(asked: seq<Msg>, given: seq<Msg>, tasks: seq<Task>, posters: map<Thread, Task>)
    requires Sourced(asked, given, tasks, posters) && tasks != []
    ensures Sourced(asked, if tasks[0].SendTask? then given + [tasks[0].msg] else given, tasks[1..], posters)
  {
    var given' := if tasks[0].SendTask? then given + [tasks[0].msg] else given;
    forall s: Thread ensures Of(asked, s) == Of(given', s) + Waiting(tasks[1..], s) + Posting(posters, s) {
      GivenGrows(given, tasks, s);
      Regroup(Of(given, s), DataOf(tasks[0], s), Waiting(tasks[1..], s), Posting(posters, s));
      assert Of(asked, s) == Of(given, s) + Waiting(tasks, s) + Posting(posters, s);
      hide *;
    }
  }

  lemma GivenGrows(given: seq<Msg>, tasks: seq<Task>, s: Thread)
    requires tasks != []
    ensures Of(if tasks[0].SendTask? then given + [tasks[0].msg] else given, s) == Of(given, s) + DataOf(tasks[0], s)
    ensures Waiting(tasks, s) == DataOf(tasks[0], s) + Waiting(tasks[1..], s)
  {
    if tasks[0].SendTask? { OfAppend(given, tasks[0].msg, s); }
    hide Of;
    assert Of(given, s) + [] == Of(given, s);
  }

  lemma Regroup(g: Bytes, d: Bytes, w: Bytes, p: Bytes)
    ensures g + (d + w) + p == g + d + w + p
  {
  }

  lemma RunKeepsOrdered(tasks: seq<Task>, posters: map<Thread, Task>, closing: bool)
    requires Ordered(tasks, posters, closing) && tasks != []
    ensures Ordered(tasks[1..], posters, closing)
  {
  }

  lemma EmptySendKeepsBuffer(c: Conn, r: WriteResult, stray: Byte)
    requires r.Wrote? ==> r.n == 0
    ensures AfterSend(c, [], r, stray).out == c.out
  {
  }

  /** The end of sendInLoop, once write has been tried. */
  lemma WrittenThenRest(c: Conn, c1: Conn, data: Bytes, r: WriteResult, stray: Byte)
    requires c.phase != Disconnected && (r.Wrote? ==> r.n <= |data|) && !(Direct(c) && r == Fault)
    requires c1 == if Direct(c) && r.Wrote?
      then Post(c, r.n == |data| && c.settings.onWriteComplete, WriteCompleteTask).(kernel := c.kernel + data[..r.n])
      else c
    ensures AfterSend(c, data, r, stray) ==
      Leftover(Accept(c1, data), data, if !Direct(c) then 0 else if r.Wrote? then r.n else -1, stray)
  {
    hide Leftover;
  }

  /** What sendInLoop leaves alone. */
  lemma SendTouches(c: Conn, data: Bytes, r: WriteResult, stray: Byte)
    requires r.Wrote? ==> r.n <= |data|
    ensures var c' := AfterSend(c, data, r, stray);
      && c'.log.asked == c.log.asked && c'.log.given == c.log.given && c'.posters == c.posters && c'.phase == c.phase
      && c'.settings == c.settings && c'.shut == c.shut && Padded(c.tasks, c'.tasks)
  {
    var c1 := Accept(c, data);
    if c.phase == Disconnected || (Direct(c) && r == Fault) {
    } else if !Direct(c) {
      LeftoverKeeps(c1, data, 0, stray);
    } else if r.Wrote? {
      LeftoverKeeps(Post(c, r.n == |data| && c.settings.onWriteComplete, WriteCompleteTask).(
          kernel := c.kernel + data[..r.n], log := Accept(c, data).log), data, r.n, stray);
    } else {
      LeftoverKeeps(c1, data, -1, stray);
    }
    hide Leftover, From;
    assert Internal(WriteCompleteTask) && Internal(HighWaterTask(|c.out| + |data|));
    assert r.Wrote? ==> Internal(HighWaterTask(|c.out| + Remaining(data, r.n)));
  }

  lemma WriteTouches(c: Conn, r: WriteResult)
    requires Legal(c, Writable(r))
    ensures var c' := AfterWrite(c, r);
      && c'.log == c.log && c'.posters == c.posters && c'.phase == c.phase && c'.settings == c.settings
      && Padded(c.tasks, c'.tasks)
  {
    assert Internal(WriteCompleteTask);
    hide AsSize;
  }

  lemma SendKeepsQueued(c: Conn, op: Op)
    requires Queued(c) && Legal(c, op) && Sends(c, op)
    ensures Queued(Step(c, op))
  {
    var c1 := Sending(c, op);
    if op.Send? {
      InlineKeepsSourced(c.log.asked, c.log.given, c.tasks, c.posters, Msg(LOOP, op.data), Closing(c));
    } else {
      RunKeepsSourced(c.log.asked, c.log.given, c.tasks, c.posters);
      RunKeepsOrdered(c.tasks, c.posters, Closing(c));
    }
    SendStep(c, op);
    SendTouches(c1, Sent(c, op), op.r, op.stray);
    hide Sourced, Ordered, AfterSend, Step, Padded;
    PaddedKeeps(c1.log.asked, c1.log.given, c1.tasks, Step(c, op).tasks, c1.posters, Closing(c1));
  }

  lemma ClosingKeepsOrdered(tasks: seq<Task>, posters: map<Thread, Task>, closing: bool)
    requires Ordered(tasks, posters, closing)
    ensures Ordered(tasks, posters, true)
  {
  }

  lemma CallKeepsOrdered(tasks: seq<Task>, posters: map<Thread, Task>, t: Thread, task: Task, closing: bool,
                         closing': bool)
    requires Ordered(tasks, posters, closing) && CallOf(task, t) && (closing ==> closing')
    requires task.SendTask? ==> !closing
    requires task.ShutdownTask? ==> closing'
    ensures Ordered(tasks, posters[t := task], closing')
  {
    if task.SendTask? {
      forall i | 0 <= i < |tasks| ensures tasks[i] != ShutdownTask(t) { assert FromElsewhere(tasks[i], closing); }
    }
  }

  predicate IsCall(op: Op) {
    op.SendElsewhere? || op.ShutdownElsewhere? || op.ForceCloseElsewhere?
  }

  function CallTask(op: Op): Task
    requires IsCall(op)
  {
    match op
    case SendElsewhere(t, data) => SendTask(Msg(t, data))
    case ShutdownElsewhere(t) => ShutdownTask(t)
    case ForceCloseElsewhere(_) => ForceCloseTask
  }

  lemma CallKeepsQueued(c: Conn, op: Op)
    requires Queued(c) && Legal(c, op) && IsCall(op) && !c.aborted
    ensures Queued(Step(c, op))
  {
    if c.phase == Connected || (op.ForceCloseElsewhere? && Open(c)) {
      var task := CallTask(op);
      CallKeepsSourced(c.log.asked, c.log.given, c.tasks, c.posters, op.t, task);
      CallKeepsOrdered(c.tasks, c.posters, op.t, task, Closing(c), Closing(Step(c, op)));
    }
    hide Sourced, Ordered;
  }

  lemma PushKeepsQueued(c: Conn, t: Thread)
    requires Queued(c) && t in c.posters && !c.aborted
    ensures Queued(Step(c, Push(t)))
  {
    PushKeepsSourced(c.log.asked, c.log.given, c.tasks, c.posters, t);
    PushKeepsOrdered(c.tasks, c.posters, t, Closing(c));
    hide Sourced, Ordered;
  }

  /** A step that at most adds such a functor and moves the state on. */
  lemma OtherKeepsQueued(c: Conn, c': Conn)
    requires Queued(c) && c'.log == c.log && c'.posters == c.posters && (Closing(c) ==> Closing(c'))
        && Padded(c.tasks, c'.tasks)
    ensures Queued(c')
  {
    PaddedKeeps(c.log.asked, c.log.given, c.tasks, c'.tasks, c.posters, Closing(c));
    if Closing(c') { ClosingKeepsOrdered(c'.tasks, c'.posters, Closing(c)); }
    hide Sourced, Ordered, Padded;
  }

  lemma OtherTouches(c: Conn, op: Op)
    requires Legal(c, op) && !Sends(c, op) && !IsCall(op) && !op.Push? && !op.RunNext?
    ensures var c' := Step(c, op);
      c'.log == c.log && c'.posters == c.posters && (Closing(c) ==> Closing(c')) && Padded(c.tasks, c'.tasks)
  {
    if op.Writable? { WriteTouches(c, op.r); }
    assert Internal(ForceCloseTask);
    hide AfterWrite, AfterSend;
  }

  lemma RunTouches(c: Conn, op: Op)
    requires Legal(c, op) && op.RunNext? && !c.tasks[0].SendTask? && !c.aborted
    ensures var c' := Step(c, op);
      c'.log == c.log && c'.posters == c.posters && (Closing(c) ==> Closing(c')) && c'.tasks == c.tasks[1..]
  {
    hide AfterSend;
  }

  lemma RunKeepsQueued(c: Conn, op: Op)
    requires Queued(c) && Legal(c, op) && op.RunNext? && !c.tasks[0].SendTask? && !c.aborted
    ensures Queued(Step(c, op))
  {
    var c1 := c.(tasks := c.tasks[1..]);
    RunKeepsSourced(c.log.asked, c.log.given, c.tasks, c.posters);
    RunKeepsOrdered(c.tasks, c.posters, Closing(c));
    RunTouches(c, op);
    hide Sourced, Ordered, Step;
    OtherKeepsQueued(c1, Step(c, op));
  }

  lemma StepKeepsQueued(c: Conn, op: Op)
    requires Queued(c) && Legal(c, op)
    ensures Queued(Step(c, op))
  {
    if c.aborted {
    } else if Sends(c, op) {
      SendKeepsQueued(c, op);
      hide *;
    } else if IsCall(op) {
      CallKeepsQueued(c, op);
      hide *;
    } else if op.Push? {
      PushKeepsQueued(c, op.t);
      hide *;
    } else if op.RunNext? {
      RunKeepsQueued(c, op);
      hide *;
    } else {
      OtherTouches(c, op);
      OtherKeepsQueued(c, Step(c, op));
      hide *;
    }
  }

  lemma SendKeepsAccounted(c: Conn, m: Msg, r: WriteResult, stray: Byte)
    requires Accounted(c) && (r.Wrote? ==> r.n <= |m.data|)
    ensures Accounted(AfterSend(Give(c, m), m.data, r, stray))
  {
    OfAppend(c.log.given, m, m.sender);
    SendContributes(Give(c, m), m.data, r, stray);
    SendTouches(Give(c, m), m.data, r, stray);
    hide AfterSend, Text, Padded;
  }

  lemma StepKeepsAccounted(c: Conn, op: Op)
    requires Accounted(c) && Legal(c, op)
    ensures Accounted(Step(c, op))
  {
    hide AfterSend, Text;
    if Sends(c, op) {
      SendStep(c, op);
      if op.Send? {
        SendKeepsAccounted(Ask(c, Msg(LOOP, op.data)), Msg(LOOP, op.data), op.r, op.stray);
      } else {
        SendKeepsAccounted(c.(tasks := c.tasks[1..]), c.tasks[0].msg, op.r, op.stray);
      }
      hide Step, Accounted;
    } else if op.Writable? {
      WriteTouches(c, op.r);
      hide AfterWrite, Padded;
    } else {
      hide AfterWrite;
    }
  }

  lemma {:induction false} EveryRun(c: Conn, ops: seq<Op>)
    requires Inv(c) && LegalRun(c, ops)
    ensures Inv(Steps(c, ops))
    decreases |ops|
  {
    hide Step, Flow, Queued, Accounted, WaterMark, Legal;
    if ops != [] {
      StepKeepsInv(c, ops[0]);
      EveryRun(Step(c, ops[0]), ops[1..]);
    }
  }

  lemma StepKeepsInv(c: Conn, op: Op)
    requires Inv(c) && Legal(c, op)
    ensures Inv(Step(c, op))
  {
    StepKeepsFlow(c, op);
    StepKeepsQueued(c, op);
    StepKeepsAccounted(c, op);
    StepKeepsWaterMark(c, op);
    hide Step, Flow, Queued, Accounted, WaterMark, Legal;
  }

  lemma NewIsSound(settings: Settings)
    ensures Inv(NewConn(settings))
  {
  }

  // ---- Callbacks ------------------------------------------------------------------------------------------------

  /** The functors other than this step's own, which has left the queue. */
  function Left(c: Conn, op: Op): seq<Task>
    requires Legal(c, op)
  {
    if op.RunNext? then c.tasks[1..] else c.tasks
  }

  /** The step writes out all there was to write. */
  predicate Completes(c: Conn, op: Op)
    requires Legal(c, op) && (Sends(c, op) || op.Writable?)
  {
    if op.Writable? then c.out != [] && Step(c, op).out == [] else Direct(c) && op.r == Wrote(|Sent(c, op)|)
  }

  /** Each sendInLoop and each handleWrite queues the write-complete callback exactly if it has written out
      everything, and the high-water callback, with the size reached, exactly if it crosses the mark; and
      neither if the user has not set it. */
  lemma CallbacksExactly(c: Conn, op: Op)
    requires Flow(c) && Legal(c, op) && !c.aborted && (Sends(c, op) || op.Writable?)
    ensures var c' := Step(c, op);
      c'.tasks == Left(c, op)
        + (if c.settings.onWriteComplete && Completes(c, op) then [WriteCompleteTask] else [])
        + (if c.settings.onHighWater && Crosses(c, c') then [HighWaterTask(|c'.out|)] else [])
  {
    if op.Writable? {
      WriteCallbacks(c, op.r);
    } else {
      SendStep(c, op);
      SendCallbacks(Sending(c, op), Sent(c, op), op.r, op.stray);
    }
    hide AfterSend, AfterWrite;
  }

  lemma WriteCallbacks(c: Conn, r: WriteResult)
    requires Flow(c) && Legal(c, Writable(r))
    ensures var c' := AfterWrite(c, r);
      && |c'.out| <= |c.out|
      && c'.tasks == c.tasks
        + (if c.settings.onWriteComplete && c.out != [] && c'.out == [] then [WriteCompleteTask] else []) + []
  {
    SizeOf(c, r);
    hide AsSize;
    assert c.tasks + [] == c.tasks && c.tasks + [WriteCompleteTask] + [] == c.tasks + [WriteCompleteTask];
  }

  lemma SendCallbacks(c: Conn, data: Bytes, r: WriteResult, stray: Byte)
    requires r.Wrote? ==> r.n <= |data|
    ensures var c' := AfterSend(c, data, r, stray);
      c'.tasks == c.tasks
        + (if c.settings.onWriteComplete && Direct(c) && r == Wrote(|data|) then [WriteCompleteTask] else [])
        + (if c.settings.onHighWater && Crosses(c, c') then [HighWaterTask(|c'.out|)] else [])
  {
    assert c.tasks + [] == c.tasks;
    if c.phase == Disconnected || (Direct(c) && r == Fault) {
    } else {
      var nwrote := if !Direct(c) then 0 else if r.Wrote? then r.n else -1;
      var c1 := if Direct(c) && r.Wrote?
        then Post(c, r.n == |data| && c.settings.onWriteComplete, WriteCompleteTask).(kernel := c.kernel + data[..r.n])
        else c;
      WrittenThenRest(c, c1, data, r, stray);
      LeftoverKeeps(Accept(c1, data), data, nwrote, stray);
      hide AfterSend, Leftover, From;
    }
  }

  function HighWaters(tasks: seq<Task>): nat {
    if tasks == [] then 0 else HighWaters(tasks[..|tasks| - 1]) + if tasks[|tasks| - 1].HighWaterTask? then 1 else 0
  }

  /** How many high-water functors the run executes. */
  function HighWatersRun(c: Conn, ops: seq<Op>): nat
    requires LegalRun(c, ops)
    decreases |ops|
  {
    if ops == [] then 0 else HighWaterRun(c, ops[0]) + HighWatersRun(Step(c, ops[0]), ops[1..])
  }

  function HighWaterRun(c: Conn, op: Op): nat
    requires Legal(c, op)
  {
    if op.RunNext? && !c.aborted && c.tasks[0].HighWaterTask? then 1 else 0
  }

  lemma HighWatersAppend(tasks: seq<Task>, t: Task)
    ensures HighWaters(tasks + [t]) == HighWaters(tasks) + if t.HighWaterTask? then 1 else 0
  {
    assert (tasks + [t])[..|tasks|] == tasks;
  }

  lemma {:induction false} HighWatersTail(tasks: seq<Task>)
    requires tasks != []
    ensures HighWaters(tasks) == HighWaters(tasks[1..]) + if tasks[0].HighWaterTask? then 1 else 0
  {
    if |tasks| > 1 {
      var n := |tasks| - 1;
      HighWatersTail(tasks[..n]);
      assert tasks[..n][1..] == tasks[1..][..n - 1];
    }
  }

  /** Every notification that is counted is a functor, in the queue or run. */
  lemma NotifiedByStep(c: Conn, op: Op)
    requires Inv(c) && Legal(c, op)
    ensures var c' := Step(c, op);
      c'.marks.notified - c.marks.notified == HighWaterRun(c, op) + HighWaters(c'.tasks) - HighWaters(c.tasks)
  {
    if c.tasks != [] { HighWatersTail(c.tasks); }
    if c.aborted {
    } else if Sends(c, op) || op.Writable? {
      CountedCallbacks(c, op);
      hide Inv, Step, HighWaters;
    } else {
      OthersNotifyNone(c, op);
      hide Inv, Step, HighWaters;
    }
  }

  lemma CountedCallbacks(c: Conn, op: Op)
    requires Flow(c) && Legal(c, op) && !c.aborted && (Sends(c, op) || op.Writable?)
    ensures var c' := Step(c, op);
      c'.marks.notified - c.marks.notified == HighWaters(c'.tasks) - HighWaters(Left(c, op))
  {
    var c', tasks := Step(c, op), Left(c, op);
    CallbacksExactly(c, op);
    NotifiedCrossing(c, op);
    hide Step, HighWaters, Completes;
    HighWatersAppend(tasks, WriteCompleteTask);
    HighWatersAppend(tasks, HighWaterTask(|c'.out|));
    HighWatersAppend(tasks + [WriteCompleteTask], HighWaterTask(|c'.out|));
    assert tasks + [] == tasks && tasks + [WriteCompleteTask] + [] == tasks + [WriteCompleteTask];
  }

  lemma NotifiedCrossing(c: Conn, op: Op)
    requires Flow(c) && Legal(c, op) && !c.aborted && (Sends(c, op) || op.Writable?)
    ensures var c' := Step(c, op);
      c'.marks.notified == c.marks.notified + if c.settings.onHighWater && Crosses(c, c') then 1 else 0
  {
    if op.Writable? {
      WriteCallbacks(c, op.r);
      WriteNotifiesNone(c, op.r);
      hide AfterWrite;
    } else {
      SendStep(c, op);
      SendNotifies(Sending(c, op), Sent(c, op), op.r, op.stray);
      hide Step, AfterSend;
    }
  }

  lemma WriteNotifiesNone(c: Conn, r: WriteResult)
    requires Legal(c, Writable(r))
    ensures AfterWrite(c, r).marks.notified == c.marks.notified
  {
    hide AsSize;
  }

  lemma SendNotifies(c: Conn, data: Bytes, r: WriteResult, stray: Byte)
    requires r.Wrote? ==> r.n <= |data|
    ensures var c' := AfterSend(c, data, r, stray);
      c'.marks.notified == c.marks.notified + if c.settings.onHighWater && Crosses(c, c') then 1 else 0
  {
    if c.phase == Disconnected || (Direct(c) && r == Fault) {
    } else {
      var nwrote := if !Direct(c) then 0 else if r.Wrote? then r.n else -1;
      var c1 := if Direct(c) && r.Wrote?
        then Post(c, r.n == |data| && c.settings.onWriteComplete, WriteCompleteTask).(kernel := c.kernel + data[..r.n])
        else c;
      WrittenThenRest(c, c1, data, r, stray);
      LeftoverKeeps(Accept(c1, data), data, nwrote, stray);
      hide AfterSend, Leftover, From;
    }
  }

  lemma OthersNotifyNone(c: Conn, op: Op)
    requires Queued(c) && Legal(c, op) && !c.aborted && !Sends(c, op) && !op.Writable?
    ensures Step(c, op).marks.notified == c.marks.notified
    ensures HighWaters(Step(c, op).tasks) == HighWaters(Left(c, op))
  {
    hide HighWaters, AfterSend, AfterWrite;
    if op.Push? {
      assert CallOf(c.posters[op.t], op.t);
      HighWatersAppend(c.tasks, c.posters[op.t]);
      hide Queued, Sends;
    } else {
      HighWatersAppend(c.tasks, ForceCloseTask);
      hide Queued;
    }
  }

  lemma {:induction false} NotifiedByRun(c: Conn, ops: seq<Op>)
    requires Inv(c) && LegalRun(c, ops)
    ensures var c' := Steps(c, ops);
      c'.marks.notified - c.marks.notified == HighWatersRun(c, ops) + HighWaters(c'.tasks) - HighWaters(c.tasks)
    decreases |ops|
  {
    if ops != [] {
      hide Inv, Step, Legal, HighWaterRun, HighWaters;
      NotifiedByStep(c, ops[0]);
      StepKeepsInv(c, ops[0]);
      NotifiedByRun(Step(c, ops[0]), ops[1..]);
    }
  }

  /** Over every run: between two high-water notifications the buffer fell below the mark, and a
      notification is outstanding just while the buffer is not below it; each is one functor, run or in
      the queue.  A mark of zero never notifies. */
  lemma HighWaterAlternates(settings: Settings, ops: seq<Op>)
    requires settings.onHighWater && LegalRun(NewConn(settings), ops)
    ensures var c := Steps(NewConn(settings), ops);
      && c.settings == settings && c.marks.notified == c.marks.falls + (if 0 < settings.mark <= |c.out| then 1 else 0)
      && c.marks.notified == HighWatersRun(NewConn(settings), ops) + HighWaters(c.tasks)
  {
    NotifiedByRun(NewConn(settings), ops);
    NewIsSound(settings);
    EveryRun(NewConn(settings), ops);
    SettingsStay(NewConn(settings), ops);
    hide Flow, Queued, Accounted, Steps, LegalRun, HighWatersRun;
  }

  lemma {:induction false} SettingsStay(c: Conn, ops: seq<Op>)
    requires LegalRun(c, ops)
    ensures Steps(c, ops).settings == c.settings
    decreases |ops|
  {
    hide Step, Legal;
    if ops != [] {
      StepKeepsSettings(c, ops[0]);
      SettingsStay(Step(c, ops[0]), ops[1..]);
    }
  }

  lemma StepKeepsSettings(c: Conn, op: Op)
    requires Legal(c, op)
    ensures Step(c, op).settings == c.settings
  {
    hide AfterSend, AfterWrite;
    if Sends(c, op) {
      SendStep(c, op);
      SendTouches(Sending(c, op), Sent(c, op), op.r, op.stray);
      hide Step, Padded;
    } else if op.Writable? {
      WriteTouches(c, op.r);
      hide Padded;
    }
  }

  // ---- The stream ---------------------------------------------------------------------------------------------

  /** The kernel's bytes and then the output buffer's are the accepted messages, in order. */
  predicate Faithful(c: Conn) {
    c.kernel + c.out == c.log.accepted
  }

  /** A direct write fails, but not for good: nwrote stays -1, and what is appended starts one byte
      before the data. */
  predicate Mangles(c: Conn, data: Bytes, r: WriteResult) {
    Direct(c) && (r == WouldBlock || r == Failed) && data != []
  }

  lemma SendKeepsFaithful(c: Conn, data: Bytes, r: WriteResult, stray: Byte)
    requires Faithful(c) && (r.Wrote? ==> r.n <= |data|) && !Mangles(c, data, r)
    ensures Faithful(AfterSend(c, data, r, stray))
  {
    assert |c.kernel + c.out| == |c.log.accepted|;
    SendFaithfulExactly(c, data, r, stray);
    hide AfterSend, From;
  }

  /** sendInLoop keeps the stream, whatever byte lies before the data, exactly when it does not mangle. */
  lemma SendMangledExactly(c: Conn, data: Bytes, r: WriteResult)
    requires Faithful(c) && (r.Wrote? ==> r.n <= |data|)
    ensures (forall stray: Byte :: Faithful(AfterSend(c, data, r, stray))) <==> !Mangles(c, data, r)
  {
    if Mangles(c, data, r) {
      var stray: Byte := if data[0] == 'x' then 'y' else 'x';
      var c' := AfterSend(c, data, r, stray);
      assert c'.out == [] + ([stray] + data)[..|data|];
      assert (c'.kernel + c'.out)[|c.kernel|] == stray;
      assert c.kernel + [] == c.kernel;
      assert c'.log.accepted[|c.kernel|] == data[0];
      assert !Faithful(AfterSend(c, data, r, stray));
    } else {
      forall stray: Byte ensures Faithful(AfterSend(c, data, r, stray)) { SendKeepsFaithful(c, data, r, stray); }
    }
  }

  /** An ordinary full socket: the 'b' that should follow is replaced by the byte before it in memory. */
  lemma FullSocketMangles(settings: Settings)
    ensures var c := Step(NewConn(settings), Establish);
      var c' := AfterSend(c, ['b'], WouldBlock, '?');
      c'.log.accepted == ['b'] && c'.kernel == [] && c'.out == ['?']
  {
    var data: Bytes := ['b'];
    assert (['?'] + data)[0..1] == ['?'];
  }

  /** A failed write in handleWrite ends the program: it becomes a huge unsigned count, which is not zero,
      and retrieve asserts that it has so much.  Nothing else makes its assertion fail. */
  lemma WriteAbortsExactly(c: Conn, r: WriteResult)
    requires !c.aborted && Legal(c, Writable(r))
    ensures AfterWrite(c, r).aborted <==> c.writing && !r.Wrote?
  {
    SizeOf(c, r);
    hide AsSize;
  }

  /** A full socket is enough, after an ordinary short write. */
  lemma FullSocketAborts()
    ensures var c1 := Step(NewConn(PLAIN), Establish);
      var c2 := Step(c1, Send(['a', 'b'], Wrote(1), '?'));
      Legal(c2, Writable(WouldBlock)) && !c2.aborted && Step(c2, Writable(WouldBlock)).aborted
  {
    OneOfTwoWritten();
    var c2 := Step(Step(NewConn(PLAIN), Establish), Send(['a', 'b'], Wrote(1), '?'));
    WriteAbortsExactly(c2, WouldBlock);
    hide AfterWrite;
  }

  lemma ShortWrite(c: Conn)
    requires Direct(c) && c.settings == PLAIN
    ensures AfterSend(c, ['a', 'b'], Wrote(1), '?') ==
      c.(kernel := c.kernel + ['a'], out := ['b'], writing := true,
         log := c.log.(accepted := c.log.accepted + ['a', 'b']))
  {
    var data: Bytes := ['a', 'b'];
    assert data[1..] == ['b'] && data[..1] == ['a'];
    assert c.out + From(data, 1, '?') == ['b'];
    hide From;
  }

  lemma OneOfTwoWritten()
    ensures var c2 := Step(Step(NewConn(PLAIN), Establish), Send(['a', 'b'], Wrote(1), '?'));
      && c2.kernel == ['a'] && c2.out == ['b'] && c2.writing && c2.log.accepted == ['a', 'b'] && c2.phase == Connected
      && c2.tasks == [] && c2.posters == map[] && !c2.shut && !c2.aborted && c2.settings == PLAIN
  {
    hide AfterSend;
    var c1 := Step(NewConn(PLAIN), Establish);
    ShortWrite(Give(Ask(c1, Msg(LOOP, ['a', 'b'])), Msg(LOOP, ['a', 'b'])));
  }

  /** What a send puts into the stream, and what it should. */
  function Contributed(c: Conn, data: Bytes, r: WriteResult, stray: Byte): Bytes {
    if c.phase == Disconnected || (Direct(c) && r == Fault) then []
    else if Direct(c) && !r.Wrote? then From(data, -1, stray)
    else data
  }

  function Accepted(c: Conn, data: Bytes, r: WriteResult): Bytes {
    if c.phase == Disconnected || (Direct(c) && r == Fault) then [] else data
  }

  lemma WriteContributes(c: Conn, data: Bytes, n: nat, stray: Byte)
    requires Direct(c) && n <= |data|
    ensures var c' := AfterSend(c, data, Wrote(n), stray);
      c'.kernel + c'.out == c.kernel + c.out + data && c'.log == c.log.(accepted := c.log.accepted + data)
  {
    hide From;
    assert data == data[..n] + data[n..];
    assert (c.kernel + data[..n]) + ([] + data[n..]) == (c.kernel + []) + data;
    assert n == |data| ==> (c.kernel + data[..n]) + [] == (c.kernel + []) + data;
  }

  lemma BufferContributes(c: Conn, data: Bytes, r: WriteResult, stray: Byte)
    requires r.Wrote? ==> r.n <= |data|
    requires c.phase != Disconnected && (Direct(c) ==> r == WouldBlock || r == Failed)
    ensures var c', x := AfterSend(c, data, r, stray), if Direct(c) then From(data, -1, stray) else data;
      c'.kernel + c'.out == c.kernel + c.out + x && c'.log == c.log.(accepted := c.log.accepted + data)
  {
    hide From;
    var x := if Direct(c) then From(data, -1, stray) else data;
    assert c.kernel + (c.out + x) == c.kernel + c.out + x;
    assert data[0..] == data && c.out + [] == c.out;
  }

  lemma SendContributes(c: Conn, data: Bytes, r: WriteResult, stray: Byte)
    requires r.Wrote? ==> r.n <= |data|
    ensures var c' := AfterSend(c, data, r, stray);
      && c'.kernel + c'.out == c.kernel + c.out + Contributed(c, data, r, stray)
      && c'.log.accepted == c.log.accepted + Accepted(c, data, r)
      && |Contributed(c, data, r, stray)| == |Accepted(c, data, r)|
      && c'.log.lost + |Accepted(c, data, r)| == c.log.lost + |data|
  {
    hide From, Leftover;
    if c.phase == Disconnected || (Direct(c) && r == Fault) {
      assert c.kernel + c.out + [] == c.kernel + c.out && c.log.accepted + [] == c.log.accepted;
    } else if Direct(c) && r.Wrote? {
      WriteContributes(c, data, r.n, stray);
      hide AfterSend;
    } else {
      BufferContributes(c, data, r, stray);
      hide AfterSend;
    }
  }

  predicate Corrupts(c: Conn, op: Op) {
    !c.aborted &&
    match op
    case Send(data, r, stray) => c.phase == Connected && Contributed(c, data, r, stray) != Accepted(c, data, r)
    case RunNext(r, stray) =>
      && c.tasks != [] && c.tasks[0].SendTask?
      && Contributed(c, c.tasks[0].msg.data, r, stray) != Accepted(c, c.tasks[0].msg.data, r)
    case _ => false
  }

  lemma AppendsAgree(a: Bytes, b: Bytes, x: Bytes, y: Bytes)
    requires |a| == |b| && |x| == |y|
    ensures a + x == b + y <==> a == b && x == y
  {
    if a + x == b + y {
      assert a == (a + x)[..|a|] && b == (b + y)[..|b|];
      assert x == (a + x)[|a|..] && y == (b + y)[|b|..];
    }
  }

  lemma SendFaithfulExactly(c: Conn, data: Bytes, r: WriteResult, stray: Byte)
    requires |c.kernel| + |c.out| == |c.log.accepted| && (r.Wrote? ==> r.n <= |data|)
    ensures Faithful(AfterSend(c, data, r, stray)) <==>
        Faithful(c) && Contributed(c, data, r, stray) == Accepted(c, data, r)
  {
    SendContributes(c, data, r, stray);
    AppendsAgree(c.kernel + c.out, c.log.accepted, Contributed(c, data, r, stray), Accepted(c, data, r));
    hide AfterSend, Contributed, Accepted;
  }

  /** A step that corrupts spoils the stream for good; every other keeps it as it is. */
  lemma StepFaithfulExactly(c: Conn, op: Op)
    requires Flow(c) && Legal(c, op)
    ensures Faithful(Step(c, op)) <==> Faithful(c) && !Corrupts(c, op)
  {
    hide AfterSend, AfterWrite, From;
    if Sends(c, op) {
      SendStep(c, op);
      SendFaithfulExactly(Sending(c, op), Sent(c, op), op.r, op.stray);
      hide Step;
    } else if op.Writable? {
      WriteKeepsFaithful(c, op.r);
    }
  }

  lemma WriteKeepsFaithful(c: Conn, r: WriteResult)
    requires Legal(c, Writable(r))
    ensures Faithful(AfterWrite(c, r)) <==> Faithful(c)
  {
    SizeOf(c, r);
    hide AsSize;
    if c.writing && r.Wrote? && r.n > 0 {
      assert c.out == c.out[..r.n] + c.out[r.n..];
      assert (c.kernel + c.out[..r.n]) + c.out[r.n..] == c.kernel + c.out;
    }
  }

  ghost predicate Corrupted(c: Conn, ops: seq<Op>)
    requires LegalRun(c, ops)
    decreases |ops|
  {
    ops != [] && (Corrupts(c, ops[0]) || Corrupted(Step(c, ops[0]), ops[1..]))
  }

  lemma {:induction false} FaithfulExactly(c: Conn, ops: seq<Op>)
    requires Inv(c) && LegalRun(c, ops)
    ensures Faithful(Steps(c, ops)) <==> Faithful(c) && !Corrupted(c, ops)
    decreases |ops|
  {
    if ops != [] {
      assert Flow(c);
      hide Step, Flow, Inv, Legal, Faithful, Corrupts;
      StepKeepsInv(c, ops[0]);
      StepFaithfulExactly(c, ops[0]);
      FaithfulExactly(Step(c, ops[0]), ops[1..]);
    }
  }

  /** The stream and the half-close, over every run.  The kernel's bytes and then the buffer are the
      accepted messages in order, exactly unless a direct write that failed has put other bytes there;
      no byte is lost or made in any case.  Up to the close, SHUT_WR is only issued once nothing is left
      to write; and once shutdownInLoop has run, it has been issued just then. */
  lemma HalfClose(settings: Settings, ops: seq<Op>)
    requires LegalRun(NewConn(settings), ops)
    ensures var c := Steps(NewConn(settings), ops);
      && (c.kernel + c.out == c.log.accepted <==> !Corrupted(NewConn(settings), ops))
      && |c.kernel| + |c.out| == |c.log.accepted|
      && (c.phase != Disconnected ==> (c.writing <==> c.out != []))
      && (c.shut && c.phase != Disconnected ==> |c.kernel| == |c.log.accepted|)
      && (c.marks.shutdownRan && c.phase == Disconnecting ==> (c.shut <==> |c.kernel| == |c.log.accepted|))
  {
    NewIsSound(settings);
    EveryRun(NewConn(settings), ops);
    FaithfulExactly(NewConn(settings), ops);
    hide Steps, LegalRun, Corrupted, Queued, Accounted, WaterMark;
  }

  const PLAIN: Settings := Settings(1000, false, false)

  /** After the close SHUT_WR may be issued with bytes unwritten: handleClose turned writing off. */
  lemma ClosedShutsUnflushed()
    ensures var c1 := Step(NewConn(PLAIN), Establish);
      var c2 := Step(c1, Send(['a', 'b'], Wrote(1), '?'));
      var c4 := Step(Step(Step(c2, ShutdownElsewhere(1)), Push(1)), PeerClosed);
      Legal(c4, RunNext(Wrote(0), '?')) &&
      var c5 := Step(c4, RunNext(Wrote(0), '?'));
      c5.shut && c5.kernel == ['a'] && c5.log.accepted == ['a', 'b']
  {
    OneOfTwoWritten();
    var c2 := Step(Step(NewConn(PLAIN), Establish), Send(['a', 'b'], Wrote(1), '?'));
    hide AfterSend;
    assert Step(Step(c2, ShutdownElsewhere(1)), Push(1)).tasks == [ShutdownTask(1)];
  }

  /** The step that issues SHUT_WR does so with every accepted byte written exactly unless the connection
      is closed with something left in its buffer. */
  lemma ShutIsCompleteExactly(c: Conn, op: Op)
    requires Inv(c) && Legal(c, op) && !c.shut && Step(c, op).shut
    ensures |Step(c, op).kernel| == |Step(c, op).log.accepted| <==> (c.phase == Disconnected ==> c.out == [])
  {
    StepKeepsFlow(c, op);
    if c.phase == Disconnected { ClosedKeepsBuffer(c, op); } else { ShutKeepsOpen(c, op); }
    hide Step, Queued, Accounted, WaterMark;
  }

  lemma ClosedKeepsBuffer(c: Conn, op: Op)
    requires Flow(c) && c.phase == Disconnected && Legal(c, op)
    ensures Step(c, op).out == c.out && Step(c, op).phase == Disconnected
  {
    hide From, Leftover;
  }

  lemma ShutKeepsOpen(c: Conn, op: Op)
    requires Legal(c, op) && !c.shut && Step(c, op).shut && c.phase != Disconnected
    ensures Step(c, op).phase != Disconnected
  {
    hide AfterSend;
    if Sends(c, op) {
      SendStep(c, op);
      SendKeepsShut(Sending(c, op), Sent(c, op), op.r, op.stray);
    }
    hide AsSize;
  }

  lemma SendKeepsShut(c: Conn, data: Bytes, r: WriteResult, stray: Byte)
    requires r.Wrote? ==> r.n <= |data|
    ensures AfterSend(c, data, r, stray).shut == c.shut
  {
    SendTouches(c, data, r, stray);
    hide AfterSend, Padded;
  }

  /** After SHUT_WR nothing more is ever written. */
  lemma ShutStepIsFinal(c: Conn, op: Op)
    requires Flow(c) && c.shut && Legal(c, op)
    ensures Step(c, op).shut && Step(c, op).kernel == c.kernel
  {
    hide AfterSend, AsSize;
    if Sends(c, op) {
      SendStep(c, op);
      ShutSendWritesNothing(Sending(c, op), Sent(c, op), op.r, op.stray);
    }
  }

  lemma ShutSendWritesNothing(c: Conn, data: Bytes, r: WriteResult, stray: Byte)
    requires MayAnswer(c, |data|, r) && c.shut
    ensures AfterSend(c, data, r, stray).kernel == c.kernel && AfterSend(c, data, r, stray).shut
  {
    hide From;
    if data == [] { assert c.kernel + [] == c.kernel; }
  }

  lemma {:induction false} ShutIsFinal(c: Conn, ops: seq<Op>)
    requires Inv(c) && c.shut && LegalRun(c, ops)
    ensures Steps(c, ops).shut && Steps(c, ops).kernel == c.kernel
    decreases |ops|
  {
    if ops != [] {
      assert Flow(c);
      hide Step, Flow, Inv, Legal;
      ShutStepIsFinal(c, ops[0]);
      StepKeepsInv(c, ops[0]);
      ShutIsFinal(Step(c, ops[0]), ops[1..]);
    }
  }

  // ---- send, then shutdown, from another thread -------------------------------------------------------------------

  lemma {:induction false} NothingWaits(tasks: seq<Task>, t: Thread)
    requires forall j | 0 <= j < |tasks| && tasks[j].SendTask? :: tasks[j].msg.sender != t
    ensures Waiting(tasks, t) == []
  {
    if tasks != [] { NothingWaits(tasks[1..], t); }
  }

  /** The three ways to SHUT_WR: shutdown in the loop's thread, handleWrite draining the buffer, and
      shutdown's functor. */
  predicate Issues(c: Conn, op: Op) {
    && !c.aborted && !c.shut
    && match op
       case Shutdown => c.phase == Connected && !c.writing
       case Writable(r) => c.writing && c.phase == Disconnecting && c.out != [] && r == Wrote(|c.out|)
       case RunNext(_, _) => c.tasks != [] && c.tasks[0].ShutdownTask? && !c.writing
       case _ => false
  }

  /** Something of sender `t` is in the queue, or about to be pushed. */
  predicate Pending(c: Conn, t: Thread) {
    Waiting(c.tasks, t) != [] || Posting(c.posters, t) != []
  }

  lemma IssuesExactly(c: Conn, op: Op)
    requires Flow(c) && Legal(c, op) && !c.shut
    ensures Step(c, op).shut <==> Issues(c, op)
  {
    hide AfterSend, AfterWrite;
    if Sends(c, op) {
      SendStep(c, op);
      SendKeepsShut(Sending(c, op), Sent(c, op), op.r, op.stray);
      hide Step;
    } else if op.Writable? && !c.aborted {
      DrainIssues(c, op.r);
    }
  }

  lemma DrainIssues(c: Conn, r: WriteResult)
    requires Flow(c) && Legal(c, Writable(r)) && !c.shut && !c.aborted
    ensures AfterWrite(c, r).shut <==> Issues(c, Writable(r))
  {
    SizeOf(c, r);
    hide AsSize;
  }

  /** What issues SHUT_WR leaves in the queue and with the posters all that is there.  Behind a thread's
      shutdown functor that is none of its own sends; by the other two ways its own may be left too. */
  lemma ShutRoutes(c: Conn, op: Op, t: Thread)
    requires Inv(c) && Legal(c, op) && Issues(c, op)
    ensures var c' := Step(c, op);
      && c'.shut && c'.log == c.log && Waiting(c'.tasks, t) == Waiting(c.tasks, t) && c'.posters == c.posters
    ensures op.RunNext? && c.tasks[0].caller == t ==> !Pending(c, t)
  {
    IssuesExactly(c, op);
    ShutRoute(c, op);
    if op.RunNext? {
      OwnSendsAreAhead(c);
      RunTouches(c, op);
      assert Waiting(c.tasks, t) == [] + Waiting(c.tasks[1..], t);
      hide Inv, Step, Waiting;
    } else {
      OtherTouches(c, op);
      PaddedKeeps([], [], c.tasks, Step(c, op).tasks, map[], false);
      hide Inv, Step, Waiting;
    }
  }

  lemma ShutRoute(c: Conn, op: Op)
    requires Legal(c, op) && !c.shut && Step(c, op).shut
    ensures !c.aborted && (op == Shutdown || op.Writable? || (op.RunNext? && c.tasks[0].ShutdownTask?)) && !Sends(c, op)
  {
    hide AfterSend;
    if Sends(c, op) {
      SendStep(c, op);
      SendKeepsShut(Sending(c, op), Sent(c, op), op.r, op.stray);
    }
    hide AsSize;
  }

  lemma OwnSendsAreAhead(c: Conn)
    requires Queued(c) && c.tasks != [] && c.tasks[0].ShutdownTask?
    ensures Waiting(c.tasks[1..], c.tasks[0].caller) == [] && Posting(c.posters, c.tasks[0].caller) == []
  {
    var t := c.tasks[0].caller;
    assert forall j | 0 <= j < |c.tasks| - 1 :: c.tasks[1..][j] == c.tasks[j + 1];
    NothingWaits(c.tasks[1..], t);
  }

  /** Over every run: a thread's sends are, in the queue, ahead of its own shutdown; and having called
      shutdown it is not about to push one. */
  lemma ProgramOrder(settings: Settings, ops: seq<Op>, i: nat, t: Thread)
    requires LegalRun(NewConn(settings), ops)
    requires var c := Steps(NewConn(settings), ops); i < |c.tasks| && c.tasks[i] == ShutdownTask(t)
    ensures var c := Steps(NewConn(settings), ops);
      && (forall j | i < j < |c.tasks| && c.tasks[j].SendTask? :: c.tasks[j].msg.sender != t)
      && Posting(c.posters, t) == [] && Closing(c)
  {
    NewIsSound(settings);
    EveryRun(NewConn(settings), ops);
    var c := Steps(NewConn(settings), ops);
    hide Steps, LegalRun, Flow, Accounted, WaterMark, Sourced;
    assert FromElsewhere(c.tasks[i], Closing(c));
  }

  /** SHUT_WR overtakes sends of `t`: what they asked for has not all come to sendInLoop, and from then on
      nothing is written, and nothing more asked for, whatever follows. */
  lemma OvertakenExactly(settings: Settings, ops: seq<Op>, op: Op, later: seq<Op>, t: Thread)
    requires LegalRun(NewConn(settings), ops)
    requires var c := Steps(NewConn(settings), ops); !c.shut && Legal(c, op) && LegalRun(Step(c, op), later)
    ensures var c := Steps(NewConn(settings), ops); var c' := Step(c, op); var end := Steps(c', later);
      && (c'.shut && Of(c'.log.asked, t) != Of(c'.log.given, t) <==> Issues(c, op) && Pending(c, t))
      && (c'.shut ==> end.kernel == c'.kernel && end.log.asked == c'.log.asked)
  {
    NewIsSound(settings);
    EveryRun(NewConn(settings), ops);
    var c := Steps(NewConn(settings), ops);
    IssuesExactly(c, op);
    StepKeepsInv(c, op);
    if Issues(c, op) {
      ShutRoutes(c, op, t);
      SenderFacts(c, t);
      hide Steps;
      ShutIsFinal(Step(c, op), later);
      IssuerCloses(c, op);
      NoneAskLater(Step(c, op), later);
    }
    hide *;
  }

  lemma IssuerCloses(c: Conn, op: Op)
    requires Inv(c) && Legal(c, op) && Issues(c, op)
    ensures Closing(Step(c, op))
  {
    if op.Writable? { WriteTouches(c, op.r); }
    assert op.RunNext? ==> FromElsewhere(c.tasks[0], Closing(c));
    hide AfterWrite, AfterSend;
  }

  /** A state that has left Connected does not come back, and takes no message. */
  lemma {:induction false} NoneAskLater(c: Conn, ops: seq<Op>)
    requires Closing(c) && LegalRun(c, ops)
    ensures Closing(Steps(c, ops)) && Steps(c, ops).log.asked == c.log.asked
    decreases |ops|
  {
    if ops != [] {
      NoneAsks(c, ops[0]);
      hide Step, Legal;
      NoneAskLater(Step(c, ops[0]), ops[1..]);
    }
  }

  lemma NoneAsks(c: Conn, op: Op)
    requires Closing(c) && Legal(c, op)
    ensures Closing(Step(c, op)) && Step(c, op).log.asked == c.log.asked
  {
    if Sends(c, op) {
      SendStep(c, op);
      SendTouches(Sending(c, op), Sent(c, op), op.r, op.stray);
      hide AfterSend, AfterWrite, Padded;
    } else if op.Writable? {
      WriteTouches(c, op.r);
      hide AfterSend, AfterWrite;
    } else {
      hide AfterSend, AfterWrite;
    }
  }

  /** Each sender's bytes are, in order, those given to sendInLoop, those that wait in the queue and those
      about to be pushed; and what was given is, up to what was dropped, in the kernel and the buffer, in
      order.  So after SHUT_WR, up to the close, all that was given is in the kernel for good, exactly if
      nothing was dropped. */
  lemma SendersInOrder(settings: Settings, ops: seq<Op>, later: seq<Op>, t: Thread)
    requires LegalRun(NewConn(settings), ops) && LegalRun(Steps(NewConn(settings), ops), later)
    ensures var c := Steps(NewConn(settings), ops);
      && Of(c.log.asked, t) == Of(c.log.given, t) + Waiting(c.tasks, t) + Posting(c.posters, t)
      && |c.kernel| + |c.out| + c.log.lost == |Text(c.log.given)|
      && (c.log.lost == 0 && !Corrupted(NewConn(settings), ops) ==> c.kernel + c.out == Text(c.log.given))
      && (c.shut && c.phase != Disconnected ==>
           && Steps(c, later).kernel == c.kernel
           && (|Steps(c, later).kernel| == |Text(c.log.given)| <==> c.log.lost == 0)
           && (Of(c.log.asked, t) == Of(c.log.given, t) <==> !Pending(c, t)))
  {
    NewIsSound(settings);
    EveryRun(NewConn(settings), ops);
    FaithfulExactly(NewConn(settings), ops);
    var c := Steps(NewConn(settings), ops);
    if c.shut { ShutIsFinal(c, later); }
    SenderFacts(c, t);
    hide Steps, LegalRun, Corrupted, Waiting, WaterMark, Posting, Of, Text, Queued, Pending;
  }

  lemma SenderFacts(c: Conn, t: Thread)
    requires Queued(c)
    ensures Of(c.log.asked, t) == Of(c.log.given, t) + Waiting(c.tasks, t) + Posting(c.posters, t)
    ensures Of(c.log.asked, t) == Of(c.log.given, t) <==> !Pending(c, t)
  {
    var g, w, p := Of(c.log.given, t), Waiting(c.tasks, t), Posting(c.posters, t);
    assert Of(c.log.asked, t) == g + w + p;
    assert |g + w + p| == |g| + |w| + |p|;
    hide Of, Waiting, Posting, Ordered, Sourced;
    if w == [] && p == [] { assert g + [] + [] == g; }
  }

  /** One thread's run that overtakes: the loop took the first send alone, wrote half of it, and found the
      socket writable before it came to the second. */
  lemma SecondSendIsOvertaken()
    ensures var c1 := Called(Step(NewConn(PLAIN), Establish), SendElsewhere(1, ['a', 'b']));
      Legal(c1, RunNext(Wrote(1), '?')) &&
      var c2 := Step(c1, RunNext(Wrote(1), '?'));
      c2.posters == map[] &&
      var c3 := Called(c2, SendElsewhere(1, ['c']));
      c3.posters == map[] &&
      var c4 := Called(c3, ShutdownElsewhere(1));
      Legal(c4, Writable(Wrote(1))) &&
      var c5 := Step(c4, Writable(Wrote(1)));
      c5.phase == Disconnecting && c5.shut && c5.kernel == ['a', 'b'] && Waiting(c5.tasks, 1) == ['c']
  {
    HalfWritten();
    var c2 := Step(Called(Step(NewConn(PLAIN), Establish), SendElsewhere(1, ['a', 'b'])), RunNext(Wrote(1), '?'));
    hide Step, Called;
    SecondIsCalled(c2);
    var c3 := Called(c2, SendElsewhere(1, ['c']));
    ShutdownIsCalled(c3);
    Overtake(Called(c3, ShutdownElsewhere(1)));
  }

  /** A call of thread 1's that is not interrupted. */
  function Called(c: Conn, op: Op): Conn
    requires c.posters == map[] && IsCall(op) && op.t == 1
  {
    var c' := Step(c, op);
    if 1 in c'.posters then Step(c', Push(1)) else c'
  }

  lemma HalfWritten()
    ensures var c1 := Called(Step(NewConn(PLAIN), Establish), SendElsewhere(1, ['a', 'b']));
      Legal(c1, RunNext(Wrote(1), '?')) &&
      var c2 := Step(c1, RunNext(Wrote(1), '?'));
      && c2.kernel == ['a'] && c2.out == ['b'] && c2.writing && c2.tasks == [] && c2.phase == Connected
      && !c2.shut && !c2.aborted && c2.posters == map[] && c2.settings == PLAIN
  {
    hide AfterSend;
    var data: Bytes := ['a', 'b'];
    var c1 := Called(Step(NewConn(PLAIN), Establish), SendElsewhere(1, data));
    assert c1.tasks == [SendTask(Msg(1, data))] && c1.posters == map[];
    assert c1.tasks[1..] == [];
    ShortWrite(Give(c1.(tasks := []), Msg(1, data)));
  }

  lemma SecondIsCalled(c2: Conn)
    requires c2.tasks == [] && c2.phase == Connected && c2.posters == map[] && !c2.aborted
    ensures var c3 := Called(c2, SendElsewhere(1, ['c']));
      c3 == c2.(tasks := [SendTask(Msg(1, ['c']))], log := c3.log)
  {
  }

  lemma ShutdownIsCalled(c3: Conn)
    requires c3.tasks == [SendTask(Msg(1, ['c']))] && c3.phase == Connected && c3.posters == map[] && !c3.aborted
    ensures Called(c3, ShutdownElsewhere(1)) ==
      c3.(phase := Disconnecting, tasks := [SendTask(Msg(1, ['c'])), ShutdownTask(1)])
  {
    assert c3.tasks + [ShutdownTask(1)] == [SendTask(Msg(1, ['c'])), ShutdownTask(1)];
  }

  lemma Overtake(c4: Conn)
    requires c4.kernel == ['a'] && c4.out == ['b'] && c4.writing && c4.phase == Disconnecting && !c4.shut && !c4.aborted
    requires c4.settings == PLAIN && c4.tasks == [SendTask(Msg(1, ['c'])), ShutdownTask(1)]
    ensures Legal(c4, Writable(Wrote(1))) &&
      var c5 := Step(c4, Writable(Wrote(1)));
      c5.phase == Disconnecting && c5.shut && c5.kernel == ['a', 'b'] && Waiting(c5.tasks, 1) == ['c']
  {
    SizeOf(c4, Wrote(1));
    hide AsSize;
    assert c4.tasks[1..] == [ShutdownTask(1)] && c4.tasks[1..][1..] == [];
    assert c4.out[1..] == [] && c4.out[..1] == ['b'];
    assert Waiting(c4.tasks, 1) == ['c'] + ([] + Waiting(c4.tasks[1..][1..], 1));
  }

  /** Two threads' run: the first one's send passes its test, the second one's shutdown goes by, and the
      send is pushed behind it. */
  lemma OtherSendIsOvertaken()
    ensures var c1 := Step(Step(NewConn(PLAIN), Establish), SendElsewhere(1, ['a']));
      var c3 := Step(Step(Step(c1, ShutdownElsewhere(2)), Push(2)), Push(1));
      c3.tasks == [ShutdownTask(2), SendTask(Msg(1, ['a']))] && Legal(c3, RunNext(Wrote(0), '?')) &&
      var c4 := Step(c3, RunNext(Wrote(0), '?'));
      c4.phase == Disconnecting && c4.shut && c4.kernel == [] && Waiting(c4.tasks, 1) == ['a']
  {
    hide AfterSend, AfterWrite, Waiting;
    var c1 := Step(Step(NewConn(PLAIN), Establish), SendElsewhere(1, ['a']));
    assert c1.posters == map[1 := SendTask(Msg(1, ['a']))];
    ShutdownPassesBy(c1);
    assert [ShutdownTask(2), SendTask(Msg(1, ['a']))][1..] == [SendTask(Msg(1, ['a']))];
    OneWaits(Msg(1, ['a']));
  }

  lemma ShutdownPassesBy(c1: Conn)
    requires !c1.aborted && c1.posters == map[1 := SendTask(Msg(1, ['a']))] && c1.phase == Connected && c1.tasks == []
    ensures var c3 := Step(Step(Step(c1, ShutdownElsewhere(2)), Push(2)), Push(1));
      c3 == c1.(phase := Disconnecting, posters := map[], tasks := [ShutdownTask(2), SendTask(Msg(1, ['a']))])
  {
    hide AfterSend, AfterWrite;
    var c2 := Step(Step(c1, ShutdownElsewhere(2)), Push(2));
    assert c2.posters == c1.posters && c2.tasks == [ShutdownTask(2)];
  }

  lemma OneWaits(m: Msg)
    ensures Waiting([SendTask(m)], m.sender) == m.data
  {
    assert [SendTask(m)][1..] == [] && m.data + [] == m.data;
  }

  // ---- Closing ----------------------------------------------------------------------------------------------------

  /** The calls and events after which the connection takes no message. */
  predicate Closes(op: Op) {
    || op == Shutdown || op.ShutdownElsewhere?
    || op == ForceClose || op.ForceCloseElsewhere? || op == ForceCloseLater
    || op == PeerClosed || op == Destroy
  }

  /** After any of them, whoever calls it, the connection never takes a message again. */
  lemma ClosingIsFinal(c: Conn, op: Op, ops: seq<Op>)
    requires Legal(c, op) && Closes(op) && c.phase != Connecting && !c.aborted && LegalRun(Step(c, op), ops)
    ensures Closing(Steps(Step(c, op), ops)) && Steps(Step(c, op), ops).log.asked == c.log.asked
  {
    assert Closing(Step(c, op)) && Step(c, op).log.asked == c.log.asked by { hide AfterSend, AfterWrite; }
    NoneAskLater(Step(c, op), ops);
  }

  /** A forced close is done, or its functor is in the queue or about to be pushed. */
  ghost predicate ForceClosing(c: Conn) {
    && c.phase != Connecting
    && (c.aborted || c.phase == Disconnected || ForceCloseTask in c.tasks
        || exists t :: t in c.posters && c.posters[t] == ForceCloseTask)
  }

  /** forceClose is not forgotten: over every run that follows it the connection is closed, or will be when
      its functor has run. */
  lemma ForceCloseCloses(c: Conn, op: Op, ops: seq<Op>)
    requires Legal(c, op) && (op == ForceClose || op.ForceCloseElsewhere?) && Open(c) && LegalRun(Step(c, op), ops)
    ensures ForceClosing(Steps(Step(c, op), ops))
  {
    if op.ForceCloseElsewhere? && !c.aborted {
      assert Step(c, op).posters[op.t] == ForceCloseTask;
    }
    hide AfterSend, AfterWrite;
    StaysForceClosing(Step(c, op), ops);
  }

  lemma {:induction false} StaysForceClosing(c: Conn, ops: seq<Op>)
    requires ForceClosing(c) && LegalRun(c, ops)
    ensures ForceClosing(Steps(c, ops))
    decreases |ops|
  {
    if ops != [] {
      hide Step, Legal, ForceClosing;
      ForceClosingByStep(c, ops[0]);
      StaysForceClosing(Step(c, ops[0]), ops[1..]);
    }
  }

  lemma ForceClosingByStep(c: Conn, op: Op)
    requires ForceClosing(c) && Legal(c, op)
    ensures ForceClosing(Step(c, op))
  {
    hide AfterSend, AfterWrite;
    var c' := Step(c, op);
    assert op.RunNext? ==> c.tasks == [c.tasks[0]] + c.tasks[1..];
    if Sends(c, op) {
      SendStep(c, op);
      SendTouches(Sending(c, op), Sent(c, op), op.r, op.stray);
      hide Step;
    } else if op.Writable? {
      WriteTouches(c, op.r);
    } else if !c.aborted && (exists t :: t in c.posters && c.posters[t] == ForceCloseTask) {
      var t :| t in c.posters && c.posters[t] == ForceCloseTask;
      assert op == Push(t) ==> ForceCloseTask in c'.tasks;
      assert op != Push(t) ==> t in c'.posters && c'.posters[t] == ForceCloseTask;
    }
  }

  // ---- What the kernel takes --------------------------------------------------------------------------------------

  /** What write answers in this step, if it is called and succeeds. */
  function Answer(c: Conn, op: Op): nat
    requires Legal(c, op)
  {
    if c.aborted then 0
    else if op.Writable? then (if c.writing && op.r.Wrote? then op.r.n else 0)
    else if Sends(c, op) then (if Direct(c) && op.r.Wrote? then op.r.n else 0)
    else 0
  }

  function Answers(c: Conn, ops: seq<Op>): nat
    requires LegalRun(c, ops)
    decreases |ops|
  {
    if ops == [] then 0 else Answer(c, ops[0]) + Answers(Step(c, ops[0]), ops[1..])
  }

  /** Over every run the kernel's bytes only grow, by what write has answered. */
  lemma {:induction false} KernelTakesAnswers(c: Conn, ops: seq<Op>)
    requires LegalRun(c, ops)
    ensures var c' := Steps(c, ops); c.kernel <= c'.kernel && |c'.kernel| == |c.kernel| + Answers(c, ops)
    decreases |ops|
  {
    if ops != [] {
      hide Step, Legal, Answer;
      KernelTakesAnswer(c, ops[0]);
      KernelTakesAnswers(Step(c, ops[0]), ops[1..]);
    }
  }

  lemma KernelTakesAnswer(c: Conn, op: Op)
    requires Legal(c, op)
    ensures var c' := Step(c, op); c.kernel <= c'.kernel && |c'.kernel| == |c.kernel| + Answer(c, op)
  {
    if Sends(c, op) {
      SendStep(c, op);
      SendTakesAnswer(Sending(c, op), Sent(c, op), op.r, op.stray);
      hide Step, AfterSend;
    } else if op.Writable? {
      SizeOf(c, op.r);
      hide AsSize, AfterSend;
    } else {
      hide AfterSend, AfterWrite;
    }
  }

  lemma SendTakesAnswer(c: Conn, data: Bytes, r: WriteResult, stray: Byte)
    requires r.Wrote? ==> r.n <= |data|
    ensures var c' := AfterSend(c, data, r, stray);
      && c.kernel <= c'.kernel && |c'.kernel| == |c.kernel| + if Direct(c) && r.Wrote? then r.n else 0
  {
    hide From;
  }

  // ---- The class --------------------------------------------------------------------------------------------------

  class TcpConnection {
    const settings: Settings
    var phase: Phase
    var writing: bool
    var outputBuffer: Buffer
    var tasks: seq<Task>
    var posters: map<Thread, Task>
    var aborted: bool
    ghost var kernel: Bytes
    ghost var shut: bool
    ghost var log: Log
    ghost var marks: Marks

    ghost predicate Valid()
      reads this, outputBuffer
    {
      outputBuffer.Valid()
    }

    ghost function Snapshot(): Conn
      requires Valid()
      reads this, outputBuffer
    {
      Conn(settings, phase, writing, outputBuffer.Contents(), tasks, posters, kernel, shut, aborted, log, marks)
    }

    constructor (settings: Settings)
      ensures Valid() && fresh(outputBuffer) && Snapshot() == NewConn(settings)
    {
      this.settings := settings;
      phase, writing, tasks, posters, aborted := Connecting, false, [], map[], false;
      outputBuffer := new Buffer(INITIAL_SIZE);
      kernel, shut := [], false;
      log, marks := Log([], [], [], 0), Marks(false, 0, 0);
    }

    /** sockets::write: the count, or -1. */
    method Write(data: Bytes, r: WriteResult) returns (n: int)
      requires r.Wrote? ==> r.n <= |data|
      modifies this`kernel
      ensures kernel == old(kernel) + if r.Wrote? then data[..r.n] else []
      ensures n == if r.Wrote? then r.n else -1
    {
      match r
      case Wrote(count) =>
        n := count;
        kernel := kernel + data[..count];
      case _ => n := -1;
    }

    method QueueInLoop(t: Task)
      modifies this`tasks
      ensures tasks == old(tasks) + [t]
    {
      tasks := tasks + [t];
    }

    method NoteHighWater(remaining: nat)
      requires Valid()
      modifies this`tasks, this`marks
      ensures Snapshot() == HighWaterNoted(old(Snapshot()), remaining)
    {
      var oldLen := outputBuffer.ReadableBytes();
      if oldLen + remaining >= settings.mark && oldLen < settings.mark && settings.onHighWater {
        QueueInLoop(HighWaterTask(oldLen + remaining));
        marks := marks.(notified := marks.notified + 1);
      }
    }

    /** The second half of sendInLoop.  `memory` is the byte before the data and the data. */
    method AppendRest(ghost data: Bytes, memory: Bytes, nwrote: int, remaining: nat, ghost stray: Byte)
      requires Valid() && memory == [stray] + data && -1 <= nwrote <= |data| && remaining == Remaining(data, nwrote)
      modifies this`tasks, this`marks, this`writing, outputBuffer
      ensures Valid() && Snapshot() == Leftover(old(Snapshot()), data, nwrote, stray)
    {
      if remaining > 0 {
        ghost var rest := From(data, nwrote, stray);
        hide From, HighWaterNoted;
        NoteHighWater(remaining);
        assert memory[1 + nwrote..1 + nwrote + remaining] == rest by { FromIs(data, nwrote, stray); }
        outputBuffer.Append(memory[1 + nwrote..1 + nwrote + remaining]);
        if !writing {
          writing := true;
        }
      }
    }

    /** The branch of sendInLoop that writes at once. */
    method WriteDirectly(data: Bytes, r: WriteResult) returns (nwrote: int, remaining: nat, faultError: bool)
      requires Valid() && (r.Wrote? ==> r.n <= |data|)
      modifies this`kernel, this`tasks
      ensures Snapshot() == if !r.Wrote? then old(Snapshot()) else
        Post(old(Snapshot()), r.n == |data| && settings.onWriteComplete, WriteCompleteTask).(
          kernel := old(kernel) + data[..r.n])
      ensures nwrote == (if r.Wrote? then r.n else -1) && remaining == Remaining(data, nwrote)
          && faultError == (r == Fault)
    {
      remaining, faultError := |data|, false;
      nwrote := Write(data, r);
      if nwrote >= 0 {
        remaining := |data| - nwrote;
        if remaining == 0 && settings.onWriteComplete {
          QueueInLoop(WriteCompleteTask);
        }
      } else if r != WouldBlock {
        if r == Fault {
          faultError := true;
        }
      }
    }

    method SendInLoop(data: Bytes, r: WriteResult, stray: Byte)
      requires Valid() && (r.Wrote? ==> r.n <= |data|)
      modifies this, outputBuffer
      ensures Valid() && outputBuffer == old(outputBuffer)
      ensures Snapshot() == AfterSend(old(Snapshot()), data, r, stray)
    {
      hide Leftover, From;
      var nwrote, remaining, faultError := 0, |data|, false;
      if phase == Disconnected {
        log := log.(lost := log.lost + |data|);
        return;
      }
      if !writing && outputBuffer.ReadableBytes() == 0 {
        nwrote, remaining, faultError := WriteDirectly(data, r);
      }
      if faultError {
        log := log.(lost := log.lost + |data|);
      } else {
        WrittenThenRest(old(Snapshot()), Snapshot(), data, r, stray);
        hide AfterSend, Post;
        AcceptRest(data, nwrote, remaining, stray);
      }
    }

    method AcceptRest(data: Bytes, nwrote: int, remaining: nat, stray: Byte)
      requires Valid() && -1 <= nwrote <= |data| && remaining == Remaining(data, nwrote)
      modifies this`log, this`tasks, this`marks, this`writing, outputBuffer
      ensures Valid() && Snapshot() == Leftover(Accept(old(Snapshot()), data), data, nwrote, stray)
    {
      hide Leftover;
      log := log.(accepted := log.accepted + data);
      AppendRest(data, [stray] + data, nwrote, remaining, stray);
    }

    /** send(StringPiece).  In a thread `t` other than the loop's the message is copied, and what is left
        to do is Push(t). */
    method Send(message: Bytes, t: Thread, r: WriteResult, stray: Byte)
      requires Valid() && !aborted && if t == LOOP then MayAnswer(Snapshot(), |message|, r) else t !in posters
      modifies this, outputBuffer
      ensures Valid() && outputBuffer == old(outputBuffer)
      ensures Snapshot() ==
        Step(old(Snapshot()), if t == LOOP then Op.Send(message, r, stray) else SendElsewhere(t, message))
    {
      hide AfterSend;
      if phase == Connected {
        log := log.(asked := log.asked + [Msg(t, message)]);
        if t == LOOP {
          log := log.(given := log.given + [Msg(t, message)]);
          SendInLoop(message, r, stray);
        } else {
          posters := posters[t := SendTask(Msg(t, message))];
        }
      }
    }

    /** queueInLoop, at the end of another thread's call. */
    method Push(t: Thread)
      requires Valid() && !aborted && t in posters
      modifies this`tasks, this`posters
      ensures Valid() && Snapshot() == Step(old(Snapshot()), Op.Push(t))
    {
      QueueInLoop(posters[t]);
      posters := posters - {t};
    }

    /** send(Buffer*): takes all of `buf`, unless the connection is not connected.  `buf` may be the
        connection's own output buffer unless there is something in it to send. */
    method SendBuffer(buf: Buffer, t: Thread, r: WriteResult, stray: Byte)
      requires Valid() && !aborted && buf.Valid()
      requires buf == outputBuffer && phase == Connected ==> buf.Contents() == []
      requires if t == LOOP then MayAnswer(Snapshot(), |buf.Contents()|, r) else t !in posters
      modifies this, outputBuffer, buf`readerIndex, buf`writerIndex
      ensures Valid() && buf.Valid() && outputBuffer == old(outputBuffer)
      ensures Snapshot() == Step(old(Snapshot()),
        if t == LOOP then Op.Send(old(buf.Contents()), r, stray) else SendElsewhere(t, old(buf.Contents())))
      ensures buf.Contents() == if old(phase) == Connected then [] else old(buf.Contents())
    {
      hide AfterSend;
      if phase == Connected {
        log := log.(asked := log.asked + [Msg(t, buf.Contents())]);
        if t == LOOP {
          log := log.(given := log.given + [Msg(t, buf.Contents())]);
          SendContents(buf, r, stray);
        } else {
          var message := buf.RetrieveAllAsString();
          posters := posters[t := SendTask(Msg(t, message))];
        }
      }
    }

    method SendContents(buf: Buffer, r: WriteResult, stray: Byte)
      requires Valid() && buf.Valid() && (r.Wrote? ==> r.n <= |buf.Contents()|)
      requires buf == outputBuffer ==> buf.Contents() == []
      modifies this, outputBuffer, buf`readerIndex, buf`writerIndex
      ensures Valid() && buf.Valid() && outputBuffer == old(outputBuffer) && buf.Contents() == []
      ensures Snapshot() == AfterSend(old(Snapshot()), old(buf.Contents()), r, stray)
    {
      hide AfterSend;
      if buf == outputBuffer { EmptySendKeepsBuffer(Snapshot(), r, stray); }
      SendInLoop(buf.Contents(), r, stray);
      buf.RetrieveAll();
    }

    method ShutdownInLoop()
      requires Valid()
      modifies this`shut, this`marks
      ensures Valid() && Snapshot() == AfterShutdown(old(Snapshot()))
    {
      marks := marks.(shutdownRan := true);
      if !writing {
        shut := true;
      }
    }

    /** Up to the push, as Send. */
    method Shutdown(t: Thread)
      requires Valid() && !aborted && (t != LOOP ==> t !in posters)
      modifies this`phase, this`posters, this`shut, this`marks
      ensures Valid()
      ensures Snapshot() == Step(old(Snapshot()), if t == LOOP then Op.Shutdown else ShutdownElsewhere(t))
    {
      if phase == Connected {
        phase := Disconnecting;
        if t == LOOP {
          ShutdownInLoop();
        } else {
          posters := posters[t := ShutdownTask(t)];
        }
      }
    }

    /** Up to the push, as Send; it queues in the loop's thread too. */
    method ForceClose(t: Thread)
      requires Valid() && !aborted && (t != LOOP ==> t !in posters)
      modifies this`phase, this`tasks, this`posters
      ensures Valid()
      ensures Snapshot() == Step(old(Snapshot()), if t == LOOP then Op.ForceClose else ForceCloseElsewhere(t))
    {
      if phase == Connected || phase == Disconnecting {
        phase := Disconnecting;
        if t == LOOP {
          QueueInLoop(ForceCloseTask);
        } else {
          posters := posters[t := ForceCloseTask];
        }
      }
    }

    /** handleClose, up to its callbacks. */
    method HandleClose()
      requires Valid() && Open(Snapshot())
      modifies this`phase, this`writing
      ensures Valid() && Snapshot() == AfterClose(old(Snapshot()))
    {
      phase := Disconnected;
      writing := false;
    }

    method ForceCloseInLoop()
      requires Valid()
      modifies this`phase, this`writing
      ensures Valid() && Snapshot() == RunTask(old(Snapshot()), ForceCloseTask, Failed, '?')
    {
      if phase == Connected || phase == Disconnecting {
        HandleClose();
      }
    }

    /** The branch of handleWrite for a buffer that has become empty. */
    method FinishWriting()
      requires Valid()
      modifies this`writing, this`tasks, this`shut, this`marks
      ensures Valid() && Snapshot() == Drained(old(Snapshot()))
    {
      writing := false;
      if settings.onWriteComplete {
        QueueInLoop(WriteCompleteTask);
      }
      if phase == Disconnecting {
        ShutdownInLoop();
      }
    }

    method HandleWrite(r: WriteResult)
      requires Valid() && !aborted && (r.Wrote? ==> r.n <= |outputBuffer.Contents()|)
          && |outputBuffer.Contents()| <= MAX_SIZE
      modifies this, outputBuffer
      ensures Valid() && outputBuffer == old(outputBuffer)
      ensures Snapshot() == AfterWrite(old(Snapshot()), r)
    {
      hide Drained, AsSize;
      if writing {
        SizeOf(Snapshot(), r);
        ghost var before := outputBuffer.Contents();
        var returned := Write(outputBuffer.Contents(), r);
        var n := AsSize(returned);
        if n > 0 {
          if n <= outputBuffer.ReadableBytes() {
            outputBuffer.Retrieve(n);
            ghost var left := outputBuffer.Contents();
            var fell := settings.onHighWater && |left| < settings.mark <= |before|;
            marks := marks.(falls := marks.falls + if fell then 1 else 0);
            if outputBuffer.ReadableBytes() == 0 {
              FinishWriting();
            }
          } else {
            // retrieve's assertion
            aborted := true;
          }
        }
      }
    }

    method ConnectEstablished()
      requires Valid() && !aborted && phase == Connecting
      modifies this`phase
      ensures Valid() && Snapshot() == Step(old(Snapshot()), Establish)
    {
      phase := Connected;
    }

    /** connectDestroyed, up to the removal of the channel. */
    method ConnectDestroyed()
      requires Valid() && !aborted
      modifies this`phase, this`writing
      ensures Valid() && Snapshot() == Step(old(Snapshot()), Destroy)
    {
      if phase == Connected {
        phase := Disconnected;
        writing := false;
      }
    }

    /** The loop runs the next of the connection's functors. */
    method RunNext(r: WriteResult, stray: Byte)
      requires Valid() && !aborted && Legal(Snapshot(), Op.RunNext(r, stray))
      modifies this, outputBuffer
      ensures Valid() && outputBuffer == old(outputBuffer)
      ensures Snapshot() == Step(old(Snapshot()), Op.RunNext(r, stray))
    {
      hide AfterSend;
      var t := tasks[0];
      tasks := tasks[1..];
      match t
      case SendTask(m) =>
        log := log.(given := log.given + [m]);
        SendInLoop(m.data, r, stray);
      case ShutdownTask(_) => ShutdownInLoop();
      case ForceCloseTask => ForceCloseInLoop();
      case WriteCompleteTask =>
      case HighWaterTask(_) =>
    }
  }
}
