/** The life of a server's connections across its loops (muduo/net/TcpServer.cpp: newConnection,
    removeConnection, removeConnectionInLoop; muduo/net/TcpConnection.cpp: connectEstablished,
    connectDestroyed, handleClose, forceClose, shutdown, send; muduo/net/Channel.cpp: tie).

    Loop 0 is the server's base loop; the others, any number of them, are I/O loops.  A step is what
    one thread does between two points where another may act; a run is any sequence of steps.  User
    code acts through the public API, on any thread, on any connection it can hold a pointer to. */
module Lifecycle {
  import opened FunctorQueues

  type ConnId = nat

  datatype ConnState = Connecting | Connected | Disconnecting | Disconnected

  datatype Conn = Conn(
    loop: nat,
    state: ConnState,
    registered: bool,     // its channel is in the loop's poller (addedToLoop_)
    watching: bool,       // its channel has events
    established: nat,     // how often connectEstablished ran
    closed: nat,          // how often closeCallback_ fired
    erased: nat,          // how often connections_.erase removed it
    destroyed: nat)       // how often connectDestroyed ran

  /** What loops queue.  Raw is a functor bound to a plain `this` (shutdownInLoop, sendInLoop); the
      others hold a shared_ptr.  `late` is history: it was pushed after the connection had left
      connections_, so behind its connectDestroyed. */
  datatype Functor =
    | Establish(c: ConnId)
    | Remove(c: ConnId)
    | Destroy(c: ConnId)
    | ForceClose(c: ConnId)
    | Notify(c: ConnId)
    | Raw(c: ConnId, late: bool)

  datatype LoopState = LoopState(
    q: FunctorQueue<Functor>,
    phase: Phase,
    active: set<ConnId>,  // activeChannels_ of this turn
    todo: set<ConnId>)    // those whose handleEvent is still to come

  datatype World = World(
    conns: map<ConnId, Conn>,      // TcpConnection objects not destructed
    connections: set<ConnId>,      // TcpServer::connections_
    nextConnId: ConnId,
    loops: seq<LoopState>,
    users: set<ConnId>,            // connections user code keeps a TcpConnectionPtr to
    calls: multiset<Call>)

  /** A thread inside send, shutdown or forceClose: it has tested state_, and set it, and has not yet
      pushed its functor.  It holds a TcpConnectionPtr for as long as the call lasts. */
  datatype Call = PlainCall(c: ConnId) | ForceCloseCall(c: ConnId)

  datatype EventKind = PeerClosed | OtherEvent

  datatype Op =
    | Accept(ioLoop: nat)
    | PollReturn(l: nat, active: set<ConnId>)
    | Event(l: nat, c: ConnId, kind: EventKind)
    | EnterFunctors(l: nat)
    | RunNext(l: nat)
    | LeaveFunctors(l: nat)
    | UserForceClose(c: ConnId)
    | UserForceCloseWithDelay(c: ConnId)
    | UserShutdown(c: ConnId, inLoop: bool)
    | UserSend(c: ConnId, inLoop: bool)
    | Push(call: Call)             // queueInLoop, at the end of the call
    | PostNotify(c: ConnId)
    | SetInterest(c: ConnId, watching: bool)
    | UserHold(c: ConnId)
    | UserDrop(c: ConnId)
    | Destruct(c: ConnId)

  function Server(ioLoops: nat): (w: World)
    ensures Inv(w)
  {
    World(map[], {}, 1, seq(ioLoops + 1, _ => LoopState(FunctorQueue([], [], 0), Outside, {}, {})), {}, multiset{})
  }

  // ---- Who holds a connection -----------------------------------------------------------------------

  predicate HoldsFunctor(f: Functor, c: ConnId) {
    f.c == c && !f.Raw?
  }

  /** Some shared_ptr to the connection exists: the server's map, user code, a call, a queued functor,
      or a functor of a batch whose vector has not been destroyed. */
  ghost predicate Held(w: World, c: ConnId) {
    || c in w.connections
    || c in w.users
    || PlainCall(c) in w.calls || ForceCloseCall(c) in w.calls
    || exists l, f :: 0 <= l < |w.loops| && f in w.loops[l].q.pending + w.loops[l].q.batch && HoldsFunctor(f, c)
  }

  // ---- Steps ------------------------------------------------------------------------------------------

  function Posted(w: World, l: nat, f: Functor): World {
    if l < |w.loops| then w.(loops := w.loops[l := w.loops[l].(q := w.loops[l].q.Pushed(f))]) else w
  }

  function SetConn(w: World, c: ConnId, conn: Conn): World {
    w.(conns := w.conns[c := conn])
  }

  function WithEstablished(w: World, c: ConnId): World
    requires c in w.conns
  {
    SetConn(w, c, w.conns[c].(state := Connected, registered := true, watching := true,
                              established := w.conns[c].established + 1))
  }

  function WithDestroyed(w: World, c: ConnId): World
    requires c in w.conns
  {
    var conn := w.conns[c];
    SetConn(w, c, conn.(state := if conn.state == Connected then Disconnected else conn.state,
                        watching := if conn.state == Connected then false else conn.watching,
                        registered := false, destroyed := conn.destroyed + 1))
  }

  function WithRemoved(w: World, c: ConnId): World
    requires c in w.conns
  {
    var conn := w.conns[c];
    Posted(SetConn(w, c, conn.(erased := conn.erased + if c in w.connections then 1 else 0))
             .(connections := w.connections - {c}),
           conn.loop, Destroy(c))
  }

  /** handleClose, down to its callbacks. */
  function Closed(w: World, c: ConnId): World
    requires c in w.conns
  {
    SetConn(w, c, w.conns[c].(state := Disconnected, watching := false, closed := w.conns[c].closed + 1))
  }

  /** handleClose on loop `l`: the close callback is TcpServer::removeConnection, which runs at once
      when `l` is the base loop. */
  function WithClosed(w: World, l: nat, c: ConnId): World
    requires c in w.conns
  {
    if l == 0 then WithRemoved(Closed(w, c), c) else Posted(Closed(w, c), 0, Remove(c))
  }

  predicate Open(conn: Conn) {
    conn.state == Connected || conn.state == Disconnecting
  }

  /** A TcpConnection made and entered in connections_, not yet handed to its loop. */
  function Entered(w: World, ioLoop: nat): World {
    SetConn(w, w.nextConnId, Conn(ioLoop, Connecting, false, false, 0, 0, 0, 0))
      .(nextConnId := w.nextConnId + 1, connections := w.connections + {w.nextConnId})
  }

  function WithAccepted(w: World, ioLoop: nat): World
    requires ioLoop < |w.loops|
  {
    var w' := Entered(w, ioLoop);
    if ioLoop == 0 then WithEstablished(w', w.nextConnId) else Posted(w', ioLoop, Establish(w.nextConnId))
  }

  function WithRun(w: World, l: nat, f: Functor): World
    requires f.c in w.conns
  {
    match f
    case Establish(c) => WithEstablished(w, c)
    case Remove(c) => WithRemoved(w, c)
    case Destroy(c) => WithDestroyed(w, c)
    case ForceClose(c) => if Open(w.conns[c]) then WithClosed(w, l, c) else w
    case Notify(_) => w
    case Raw(_, _) => w
  }

  function SetLoop(w: World, l: nat, s: LoopState): World
    requires l < |w.loops|
  {
    w.(loops := w.loops[l := s])
  }

  /** The channels loop `l`'s poll can report. */
  predicate Reportable(w: World, l: nat, c: ConnId) {
    c in w.conns && w.conns[c].loop == l && w.conns[c].registered && w.conns[c].watching
  }

  ghost predicate Enabled(w: World, op: Op) {
    match op
    case Accept(ioLoop) => ioLoop < |w.loops| && w.loops[0].phase == Handling
    case PollReturn(l, active) =>
      l < |w.loops| && w.loops[l].phase == Outside && forall c | c in active :: Reportable(w, l, c)
    case Event(l, c, _) => l < |w.loops| && w.loops[l].phase == Handling && c in w.loops[l].todo
    case EnterFunctors(l) => l < |w.loops| && w.loops[l].phase == Handling && w.loops[l].todo == {}
    case RunNext(l) => l < |w.loops| && w.loops[l].phase == Calling && w.loops[l].q.next < |w.loops[l].q.batch|
    case LeaveFunctors(l) => l < |w.loops| && w.loops[l].phase == Calling && w.loops[l].q.next == |w.loops[l].q.batch|
    case UserForceClose(c) => Held(w, c)
    case UserForceCloseWithDelay(c) => Held(w, c)
    case UserShutdown(c, _) => Held(w, c)
    case UserSend(c, _) => Held(w, c)
    case Push(call) => call in w.calls
    case PostNotify(c) => Held(w, c)
    case SetInterest(c, _) => Held(w, c) && c in w.conns && Open(w.conns[c])
    case UserHold(c) => Held(w, c)
    case UserDrop(c) => true
    case Destruct(c) => c in w.conns && !Held(w, c)
  }

  /** What the source asserts, or needs in order not to touch a destroyed object, at this step. */
  ghost predicate Safe(w: World, op: Op) {
    match op
    case Event(l, c, kind) =>
      // the Channel object exists, and handleClose finds an open connection
      c in w.conns && w.conns[c].registered && (kind == PeerClosed ==> Open(w.conns[c]))
    case RunNext(l) =>
      0 <= l < |w.loops| && w.loops[l].q.next < |w.loops[l].q.batch|
        && SafeFunctor(w, l, w.loops[l].q.batch[w.loops[l].q.next])
    case Destruct(c) =>
      // ~TcpConnection and ~Channel
      && c in w.conns && w.conns[c].state == Disconnected && !w.conns[c].registered
      && (forall l | 0 <= l < |w.loops| :: Forgotten(w.loops[l], c))
    case UserForceClose(c) => c in w.conns
    case UserForceCloseWithDelay(c) => c in w.conns
    case UserShutdown(c, _) => c in w.conns
    case UserSend(c, _) => c in w.conns
    case Push(call) => call.c in w.conns
    case PostNotify(c) => c in w.conns
    case _ => true
  }

  ghost predicate SafeFunctor(w: World, l: nat, f: Functor)
    requires l < |w.loops|
  {
    && f.c in w.conns
    && match f
       case Establish(c) => w.conns[c].loop == l && w.conns[c].state == Connecting && w.conns[c].established == 0
       case Remove(c) => l == 0 && c in w.connections
       case Destroy(c) =>
         // remove()'s isNoneEvent, and removeChannel's assertion: not inside event handling
         && w.conns[c].loop == l && w.conns[c].registered && !w.conns[c].watching && w.conns[c].destroyed == 0
         && c !in w.connections && w.loops[l].phase != Handling
       case ForceClose(c) => w.conns[c].loop == l
       case Notify(c) => w.conns[c].loop == l
       case Raw(c, _) => w.conns[c].loop == l
  }

  predicate Late(f: Functor) {
    f.Raw? && f.late
  }

  /** The loop has nothing to do with the connection, but for late plain functors. */
  ghost predicate Forgotten(s: LoopState, c: ConnId) {
    && (s.phase == Handling ==> c !in s.active)
    && (forall f | f in s.q.Waiting() && f.c == c :: Late(f))
  }

  /** The functor a call pushes. */
  function Pushed(w: World, call: Call): Functor
    requires call.c in w.conns
  {
    match call
    case PlainCall(c) => Raw(c, w.conns[c].erased != 0)
    case ForceCloseCall(c) => ForceClose(c)
  }

  function Step(w: World, op: Op): World
    requires Enabled(w, op) && Safe(w, op)
  {
    match op
    case Accept(ioLoop) => WithAccepted(w, ioLoop)
    case PollReturn(l, active) => SetLoop(w, l, w.loops[l].(phase := Handling, active := active, todo := active))
    case Event(l, c, kind) =>
      var w' := SetLoop(w, l, w.loops[l].(todo := w.loops[l].todo - {c}));
      if kind == PeerClosed then WithClosed(w', l, c) else w'
    case EnterFunctors(l) =>
      SetLoop(w, l, w.loops[l].(phase := Calling, q := w.loops[l].q.Swapped()))
    case RunNext(l) =>
      WithRun(SetLoop(w, l, w.loops[l].(q := w.loops[l].q.Advanced())), l, w.loops[l].q.batch[w.loops[l].q.next])
    case LeaveFunctors(l) =>
      SetLoop(w, l, w.loops[l].(phase := Outside, q := w.loops[l].q.Finished()))
    case UserForceClose(c) =>
      if Open(w.conns[c]) then
        SetConn(w, c, w.conns[c].(state := Disconnecting)).(calls := w.calls + multiset{ForceCloseCall(c)})
      else w
    case UserForceCloseWithDelay(c) =>
      if Open(w.conns[c]) then SetConn(w, c, w.conns[c].(state := Disconnecting)) else w
    case UserShutdown(c, inLoop) =>
      if w.conns[c].state == Connected then
        var w' := SetConn(w, c, w.conns[c].(state := Disconnecting));
        if inLoop then w' else w'.(calls := w.calls + multiset{PlainCall(c)})
      else w
    case UserSend(c, inLoop) =>
      if w.conns[c].state == Connected && !inLoop then w.(calls := w.calls + multiset{PlainCall(c)}) else w
    case Push(call) =>
      Posted(w.(calls := w.calls - multiset{call}), w.conns[call.c].loop, Pushed(w, call))
    case PostNotify(c) => Posted(w, w.conns[c].loop, Notify(c))
    case SetInterest(c, watching) => SetConn(w, c, w.conns[c].(watching := watching))
    case UserHold(c) => w.(users := w.users + {c})
    case UserDrop(c) => w.(users := w.users - {c})
    case Destruct(c) => w.(conns := w.conns - {c})
  }

  // ---- The invariant ------------------------------------------------------------------------------------

  /** How often `f` is still to run on loop `l`. */
  ghost function Count(loops: seq<LoopState>, l: nat, f: Functor): nat {
    if l < |loops| then multiset(loops[l].q.Waiting())[f] else 0
  }

  /** A connection's progress accounts for every functor that names it. */
  ghost predicate ConnInv(k: Conn, inMap: bool, establish: nat, remove: nat, destroy: nat) {
    && k.established + establish == 1
    && k.closed == k.erased + remove
    && k.erased == k.destroyed + destroy
    && k.closed <= 1
    && (k.erased == 0 <==> inMap)
    && (k.established == 0 ==> k.state == Connecting && k.closed == 0 && !k.registered && !k.watching)
    && (k.established == 1 && k.closed == 0 ==> Open(k) && k.registered)
    && (k.closed == 1 ==> k.established == 1 && k.state == Disconnected && !k.watching
                          && (k.registered <==> k.destroyed == 0))
  }

  ghost predicate ConnsInv(w: World) {
    && w.connections <= w.conns.Keys && w.users <= w.conns.Keys
    && forall c | c in w.conns ::
         && c < w.nextConnId && w.conns[c].loop < |w.loops|
         && ConnInv(w.conns[c], c in w.connections, Count(w.loops, w.conns[c].loop, Establish(c)),
                    Count(w.loops, 0, Remove(c)), Count(w.loops, w.conns[c].loop, Destroy(c)))
  }

  /** Queued functors name live connections, on the right loop; plain `this` only undestroyed ones,
      except for the late ones. */
  ghost predicate FunctorInv(w: World, l: nat, f: Functor) {
    && f.c < w.nextConnId
    && (f.c in w.conns || Late(f))
    && (f.c in w.conns ==>
          && (if f.Remove? then l == 0 else w.conns[f.c].loop == l)
          && (f.Raw? ==>
               && w.conns[f.c].established == 1
               && if f.late then w.conns[f.c].erased == 1 else w.conns[f.c].destroyed == 0))
  }

  ghost predicate QueueInv(w: World, l: nat, q: FunctorQueue<Functor>) {
    && q.next <= |q.batch|
    && (forall f | f in q.Waiting() :: FunctorInv(w, l, f))
    && (forall f | f in q.pending + q.batch && !f.Raw? :: f.c in w.conns)
    && RawFirst(q.Waiting())
  }

  /** No functor on a plain `this` waits behind the connection's connectDestroyed, but the late ones. */
  ghost predicate RawFirst(fs: seq<Functor>) {
    forall i, j | 0 <= i < j < |fs| && fs[i].Destroy? :: fs[j] != Raw(fs[i].c, false)
  }

  ghost predicate PhaseInv(w: World, l: nat, s: LoopState) {
    && (s.phase != Calling ==> s.q.batch == [])
    && (s.phase == Handling ==>
          && s.todo <= s.active
          && (forall c | c in s.active :: c in w.conns && w.conns[c].loop == l && w.conns[c].registered)
          && (forall c | c in s.todo :: w.conns[c].closed == 0 && w.conns[c].established == 1))
  }

  ghost predicate LoopsInv(w: World) {
    && |w.loops| > 0
    && forall l | 0 <= l < |w.loops| :: QueueInv(w, l, w.loops[l].q) && PhaseInv(w, l, w.loops[l])
  }

  ghost predicate Core(w: World) {
    ConnsInv(w) && LoopsInv(w)
  }

  /** Calls under way are on connections that have been established. */
  ghost predicate CallsInv(w: World) {
    forall call | call in w.calls :: call.c in w.conns && w.conns[call.c].established > 0
  }

  ghost predicate Inv(w: World) {
    Core(w) && CallsInv(w)
  }

  // ---- Every enabled step is safe --------------------------------------------------------------------------

  lemma WaitingIsCounted(loops: seq<LoopState>, l: nat, f: Functor)
    requires l < |loops| && f in loops[l].q.Waiting()
    ensures Count(loops, l, f) > 0
  {
  }

  lemma WaitingIsHeld(q: FunctorQueue<Functor>, f: Functor)
    requires f in q.Waiting()
    ensures f in q.pending + q.batch
  {
  }

  /** A registered channel's connection always has an owner: no poller refers to a destroyed one. */
  lemma RegisteredIsHeld(w: World, c: ConnId)
    requires Core(w) && c in w.conns && w.conns[c].registered
    ensures Held(w, c)
  {
    var k := w.conns[c];
    if c !in w.connections {
      assert Count(w.loops, k.loop, Destroy(c)) > 0;
      assert Destroy(c) in w.loops[k.loop].q.Waiting();
      WaitingIsHeld(w.loops[k.loop].q, Destroy(c));
      assert HoldsFunctor(Destroy(c), c);
    }
  }

  lemma HeldIsLive(w: World, c: ConnId)
    requires Inv(w) && Held(w, c)
    ensures c in w.conns
  {
  }

  lemma FunctorIsSafe(w: World, l: nat, f: Functor)
    requires Core(w) && l < |w.loops| && w.loops[l].phase == Calling && f in w.loops[l].q.Waiting()
    ensures SafeFunctor(w, l, f) <==> f.c in w.conns || !Late(f)
  {
    WaitingIsCounted(w.loops, l, f);
    assert FunctorInv(w, l, f);
  }

  /** No functor of the loop holds the connection. */
  ghost predicate HoldsNone(s: LoopState, c: ConnId) {
    forall f | f in s.q.pending + s.q.batch && !f.Raw? :: f.c != c
  }

  lemma UnheldAt(w: World, c: ConnId, l: nat)
    requires !Held(w, c) && l < |w.loops|
    ensures HoldsNone(w.loops[l], c)
  {
    forall f | f in w.loops[l].q.pending + w.loops[l].q.batch && !f.Raw? ensures f.c != c {
      assert HoldsFunctor(f, c) <==> f.c == c;
    }
  }

  lemma ForgottenAt(w: World, c: ConnId, l: nat)
    requires l < |w.loops| && QueueInv(w, l, w.loops[l].q) && PhaseInv(w, l, w.loops[l]) && HoldsNone(w.loops[l], c)
    requires c in w.conns && w.conns[c].destroyed != 0 && !w.conns[c].registered
    ensures Forgotten(w.loops[l], c)
  {
    var q := w.loops[l].q;
    forall f | f in q.Waiting() && f.c == c ensures Late(f) {
      WaitingIsHeld(q, f);
      assert FunctorInv(w, l, f);
    }
  }

  lemma UnheldIsOver(w: World, c: ConnId)
    requires Core(w) && c in w.conns && !Held(w, c)
    ensures w.conns[c].state == Disconnected && !w.conns[c].registered && w.conns[c].destroyed != 0
  {
    if w.conns[c].registered { RegisteredIsHeld(w, c); }
    ConnFacts(w, c);
    hide LoopsInv, ConnsInv, Count;
  }

  lemma LoopFacts(w: World, l: nat)
    requires LoopsInv(w) && l < |w.loops|
    ensures QueueInv(w, l, w.loops[l].q) && PhaseInv(w, l, w.loops[l])
  {
  }

  lemma DestructIsSafe(w: World, c: ConnId)
    requires Core(w) && Enabled(w, Destruct(c))
    ensures Safe(w, Destruct(c))
  {
    DestructEnabled(w, c);
    assert LoopsInv(w);
    hide *;
    UnheldIsOver(w, c);
    forall l | 0 <= l < |w.loops| ensures Forgotten(w.loops[l], c) {
      UnheldAt(w, c, l);
      LoopFacts(w, l);
      ForgottenAt(w, c, l);
    }
    DestructSafe(w, c);
  }

  lemma DestructSafe(w: World, c: ConnId)
    requires c in w.conns && w.conns[c].state == Disconnected && !w.conns[c].registered
    requires forall l | 0 <= l < |w.loops| :: Forgotten(w.loops[l], c)
    ensures Safe(w, Destruct(c))
  {
    hide Forgotten;
  }

  /** The one step that touches a destroyed object: running a plain functor that was pushed after its
      connection had left connections_, when the connection is gone. */
  ghost predicate Dangles(w: World, op: Op) {
    op.RunNext? && Enabled(w, op) &&
    var f := w.loops[op.l].q.batch[w.loops[op.l].q.next];
    Late(f) && f.c !in w.conns
  }

  /** The assertions of the source hold, and no step touches a destroyed object, in any state that
      satisfies the invariant, with exactly that exception. */
  lemma EnabledIsSafe(w: World, op: Op)
    requires Inv(w) && Enabled(w, op)
    ensures Safe(w, op) <==> !Dangles(w, op)
  {
    match op
    case RunNext(l) =>
      var q := w.loops[l].q;
      var f := q.batch[q.next];
      QueueIsFifo(q, f);
      FunctorIsSafe(w, l, f);
    case Destruct(c) => DestructIsSafe(w, c);
    case Event(l, c, kind) => assert PhaseInv(w, l, w.loops[l]);
    case UserForceClose(c) => HeldIsLive(w, c);
    case UserForceCloseWithDelay(c) => HeldIsLive(w, c);
    case UserShutdown(c, _) => HeldIsLive(w, c);
    case UserSend(c, _) => HeldIsLive(w, c);
    case PostNotify(c) => HeldIsLive(w, c);
    case _ =>
  }

  // ---- Every step keeps the invariant -------------------------------------------------------------------------

  lemma PostedCount(w: World, l: nat, f: Functor)
    requires l < |w.loops|
    ensures forall k, g ::
        Count(Posted(w, l, f).loops, k, g) == Count(w.loops, k, g) + if k == l && g == f then 1 else 0
  {
    QueueIsFifo(w.loops[l].q, f);
    var ws := w.loops[l].q.Waiting();
    assert multiset(ws + [f]) == multiset(ws) + multiset{f};
  }

  /** A step that leaves what loop `l` has waiting leaves the counts. */
  lemma SameCount(loops: seq<LoopState>, l: nat, s: LoopState)
    requires l < |loops| && s.q.Waiting() == loops[l].q.Waiting()
    ensures forall k, g :: Count(loops[l := s], k, g) == Count(loops, k, g)
  {
  }

  /** Running a functor takes it, and nothing else, off the count. */
  lemma AdvancedCount(loops: seq<LoopState>, l: nat, s: LoopState)
    requires l < |loops| && loops[l].q.next < |loops[l].q.batch| && s.q == loops[l].q.Advanced()
    ensures var f := loops[l].q.batch[loops[l].q.next];
            forall k, g :: Count(loops[l := s], k, g) == Count(loops, k, g) - if k == l && g == f then 1 else 0
  {
    var q := loops[l].q;
    var f := q.batch[q.next];
    QueueIsFifo(q, f);
    assert multiset([f] + q.Advanced().Waiting()) == multiset{f} + multiset(q.Advanced().Waiting());
    assert multiset(q.Waiting())[f] > 0;
  }

  lemma PostKeepsQueue(w: World, l: nat, q: FunctorQueue<Functor>, f: Functor)
    requires QueueInv(w, l, q) && FunctorInv(w, l, f)
    requires f.Raw? && !f.late ==> Destroy(f.c) !in q.Waiting()
    ensures QueueInv(w, l, q.Pushed(f))
  {
    QueueIsFifo(q, f);
    assert forall g :: g in q.Pushed(f).Waiting() <==> g in q.Waiting() || g == f;
  }

  lemma PostKeepsLoops(w: World, l: nat, f: Functor)
    requires LoopsInv(w) && l < |w.loops| && FunctorInv(w, l, f)
    requires f.Raw? && !f.late ==> Count(w.loops, l, Destroy(f.c)) == 0
    ensures LoopsInv(Posted(w, l, f))
  {
    var w' := Posted(w, l, f);
    PostKeepsQueue(w, l, w.loops[l].q, f);
    forall k | 0 <= k < |w'.loops| ensures QueueInv(w', k, w'.loops[k].q) && PhaseInv(w', k, w'.loops[k]) {
      assert QueueInv(w, k, w.loops[k].q) && PhaseInv(w, k, w.loops[k]);
      QueueFrame(w, w', k, w'.loops[k].q);
    }
  }

  lemma QueueFrame(w: World, w': World, l: nat, q: FunctorQueue<Functor>)
    requires QueueInv(w, l, q) && w'.conns == w.conns && w'.nextConnId == w.nextConnId
    ensures QueueInv(w', l, q)
  {
    assert forall f :: FunctorInv(w, l, f) ==> FunctorInv(w', l, f);
  }

  /** Changing one connection's record, when no functor and no poller minds. */
  lemma SetConnKeepsLoops(w: World, c: ConnId, k: Conn)
    requires LoopsInv(w) && c in w.conns && k.loop == w.conns[c].loop && k.loop < |w.loops|
    requires var s := w.loops[k.loop];
      && ((k.established == 1 && k.destroyed == 0) || Raw(c, false) !in s.q.Waiting())
      && ((k.established == 1 && k.erased == 1) || Raw(c, true) !in s.q.Waiting())
      && (s.phase == Handling ==>
           && (c in s.active ==> k.registered)
           && (c in s.todo ==> k.closed == 0 && k.established == 1))
    ensures LoopsInv(SetConn(w, c, k))
  {
    var w' := SetConn(w, c, k);
    assert w'.loops == w.loops && |w.loops| > 0;
    forall l | 0 <= l < |w.loops| ensures QueueInv(w', l, w.loops[l].q) && PhaseInv(w', l, w.loops[l]) {
      LoopFacts(w, l);
      hide QueueInv, PhaseInv, LoopsInv, FunctorQueue.Waiting;
      SetConnKeepsQueue(w, c, k, l);
      SetConnKeepsPhase(w, c, k, l);
    }
    hide QueueInv, PhaseInv;
  }

  lemma SetConnKeepsQueue(w: World, c: ConnId, k: Conn, l: nat)
    requires c in w.conns && k.loop == w.conns[c].loop && l < |w.loops| && QueueInv(w, l, w.loops[l].q)
    requires l == k.loop ==> (k.established == 1 && k.destroyed == 0) || Raw(c, false) !in w.loops[l].q.Waiting()
    requires l == k.loop ==> (k.established == 1 && k.erased == 1) || Raw(c, true) !in w.loops[l].q.Waiting()
    ensures QueueInv(SetConn(w, c, k), l, w.loops[l].q)
  {
    hide FunctorQueue.Waiting, RawFirst;
    var q := w.loops[l].q;
    forall f | f in q.Waiting() ensures FunctorInv(SetConn(w, c, k), l, f) {
      assert FunctorInv(w, l, f);
      assert f.Raw? ==> f == Raw(f.c, f.late);
    }
  }

  lemma SetConnKeepsPhase(w: World, c: ConnId, k: Conn, l: nat)
    requires c in w.conns && k.loop == w.conns[c].loop && l < |w.loops| && PhaseInv(w, l, w.loops[l])
    requires var s := w.loops[l];
      l == k.loop && s.phase == Handling ==>
        && (c in s.active ==> k.registered)
        && (c in s.todo ==> k.closed == 0 && k.established == 1)
    ensures PhaseInv(SetConn(w, c, k), l, w.loops[l])
  {
  }

  lemma SetLoopKeepsLoops(w: World, l: nat, s: LoopState)
    requires LoopsInv(w) && l < |w.loops| && QueueInv(w, l, s.q) && PhaseInv(w, l, s)
    ensures LoopsInv(SetLoop(w, l, s))
  {
    var w' := SetLoop(w, l, s);
    forall k | 0 <= k < |w'.loops| ensures QueueInv(w', k, w'.loops[k].q) && PhaseInv(w', k, w'.loops[k]) {
      assert QueueInv(w, k, w.loops[k].q) && PhaseInv(w, k, w.loops[k]);
      QueueFrame(w, w', k, w'.loops[k].q);
    }
  }

  lemma RawFirstTail(f: Functor, rest: seq<Functor>)
    requires RawFirst([f] + rest)
    ensures RawFirst(rest)
    ensures f.Destroy? ==> Raw(f.c, false) !in rest
  {
    var fs := [f] + rest;
    forall i, j | 0 <= i < j < |rest| && rest[i].Destroy? ensures rest[j] != Raw(rest[i].c, false) {
      assert fs[i + 1] == rest[i] && fs[j + 1] == rest[j];
    }
    forall j | f.Destroy? && 0 <= j < |rest| ensures rest[j] != Raw(f.c, false) {
      assert fs[0] == f && fs[j + 1] == rest[j];
    }
  }

  lemma AdvancedKeepsQueue(w: World, l: nat, q: FunctorQueue<Functor>)
    requires QueueInv(w, l, q) && q.next < |q.batch|
    ensures QueueInv(w, l, q.Advanced())
    ensures q.batch[q.next].Destroy? ==> Raw(q.batch[q.next].c, false) !in q.Advanced().Waiting()
  {
    var f := q.batch[q.next];
    var rest := q.Advanced().Waiting();
    QueueIsFifo(q, f);
    RawFirstTail(f, rest);
    assert forall g | g in rest :: g in [f] + rest;
    hide FunctorInv;
  }

  lemma NoneWaits(loops: seq<LoopState>, l: nat, f: Functor)
    requires l < |loops| && Count(loops, l, f) == 0
    ensures f !in loops[l].q.Waiting()
  {
  }

  /** Only connection `c`, and functors naming it, differ from a state that had the invariant. */
  ghost predicate OnlyChanges(w0: World, w: World, c: ConnId) {
    && |w.loops| == |w0.loops| && w.users == w0.users && w0.nextConnId <= w.nextConnId
    && w.conns.Keys == w0.conns.Keys + {c}
    && (forall d | d in w0.conns && d != c :: w.conns[d] == w0.conns[d])
    && (forall d | d != c :: d in w.connections <==> d in w0.connections)
    && (forall k, g: Functor | g.c != c :: Count(w.loops, k, g) == Count(w0.loops, k, g))
  }

  lemma ConnsInvFrom(w0: World, w: World, c: ConnId)
    requires ConnsInv(w0) && OnlyChanges(w0, w, c)
    requires c < w.nextConnId && w.conns[c].loop < |w.loops|
    requires ConnInv(w.conns[c], c in w.connections, Count(w.loops, w.conns[c].loop, Establish(c)),
                     Count(w.loops, 0, Remove(c)), Count(w.loops, w.conns[c].loop, Destroy(c)))
    ensures ConnsInv(w)
  {
    forall d | d in w.conns && d != c
      ensures d < w.nextConnId && w.conns[d].loop < |w.loops|
      ensures ConnInv(w.conns[d], d in w.connections, Count(w.loops, w.conns[d].loop, Establish(d)),
                      Count(w.loops, 0, Remove(d)), Count(w.loops, w.conns[d].loop, Destroy(d)))
    {
      assert d in w0.conns;
    }
  }

  lemma PostedOnlyChanges(w: World, l: nat, f: Functor)
    requires l < |w.loops| && f.c in w.conns
    ensures OnlyChanges(w, Posted(w, l, f), f.c)
  {
    PostedCount(w, l, f);
  }

  lemma SetConnOnlyChanges(w: World, c: ConnId, k: Conn, inMap: bool)
    requires c in w.conns
    ensures var connections := if inMap then w.connections + {c} else w.connections - {c};
      OnlyChanges(w, SetConn(w, c, k).(connections := connections), c)
    ensures OnlyChanges(w, SetConn(w, c, k), c)
  {
  }

  lemma OnlyChangesTwice(w0: World, w1: World, w2: World, c: ConnId)
    requires OnlyChanges(w0, w1, c) && OnlyChanges(w1, w2, c)
    ensures OnlyChanges(w0, w2, c)
  {
  }

  // Each function of the source, in turn.

  lemma NobodyNames(w: World, c: ConnId)
    requires LoopsInv(w) && w.nextConnId <= c
    ensures forall l: nat, f: Functor | f.c == c :: Count(w.loops, l, f) == 0
  {
    forall l: nat, f: Functor | f.c == c ensures Count(w.loops, l, f) == 0 {
      if l < |w.loops| {
        assert QueueInv(w, l, w.loops[l].q);
        assert forall g | g in w.loops[l].q.Waiting() :: FunctorInv(w, l, g) && g.c < w.nextConnId;
        assert f !in w.loops[l].q.Waiting();
      }
    }
  }

  /** A loop's part of the invariant reads the records of the connections it names, and no others. */
  lemma SameNamed(w: World, w': World, l: nat, s: LoopState)
    requires QueueInv(w, l, s.q) && PhaseInv(w, l, s)
    requires w.nextConnId <= w'.nextConnId
    requires forall f | f in s.q.Waiting() ::
        if f.c in w'.conns then f.c in w.conns && w'.conns[f.c] == w.conns[f.c] else Late(f)
    requires forall f | f in s.q.pending + s.q.batch && !f.Raw? :: f.c in w'.conns
    requires s.phase == Handling ==> forall c | c in s.active :: c in w'.conns && w'.conns[c] == w.conns[c]
    ensures QueueInv(w', l, s.q) && PhaseInv(w', l, s)
  {
    forall f | f in s.q.Waiting() ensures FunctorInv(w', l, f) {
      assert FunctorInv(w, l, f);
    }
  }

  lemma NewConnKeepsLoops(w: World, w': World, c: ConnId)
    requires LoopsInv(w) && c == w.nextConnId && c !in w.conns && c in w'.conns && w'.loops == w.loops
        && c < w'.nextConnId
    requires w'.conns == w.conns[c := w'.conns[c]]
    ensures LoopsInv(w')
  {
    forall l | 0 <= l < |w.loops| ensures QueueInv(w', l, w'.loops[l].q) && PhaseInv(w', l, w'.loops[l]) {
      assert QueueInv(w, l, w.loops[l].q) && PhaseInv(w, l, w.loops[l]);
      assert forall f | f in w.loops[l].q.Waiting() :: FunctorInv(w, l, f);
      SameNamed(w, w', l, w.loops[l]);
    }
  }

  lemma EnteredOnlyChanges(w: World, ioLoop: nat)
    ensures OnlyChanges(w, Entered(w, ioLoop), w.nextConnId)
  {
    hide Count;
  }

  lemma EnteredChanges(w: World, ioLoop: nat)
    requires Core(w) && ioLoop < |w.loops|
    ensures LoopsInv(Entered(w, ioLoop)) && OnlyChanges(w, Entered(w, ioLoop), w.nextConnId)
    ensures forall l: nat, f: Functor | f.c == w.nextConnId :: Count(Entered(w, ioLoop).loops, l, f) == 0
  {
    assert w.nextConnId !in w.conns;
    hide LoopsInv;
    hide ConnsInv;
    hide OnlyChanges;
    hide Count;
    NewConnKeepsLoops(w, Entered(w, ioLoop), w.nextConnId);
    EnteredOnlyChanges(w, ioLoop);
    NobodyNames(w, w.nextConnId);
  }

  lemma EnteredOnBaseKeepsLoops(w: World)
    requires Core(w)
    ensures LoopsInv(WithEstablished(Entered(w, 0), w.nextConnId))
  {
    var c := w.nextConnId;
    var w1 := Entered(w, 0);
    EnteredChanges(w, 0);
    FreshIsInactive(w, c);
    NoneWaits(w1.loops, 0, Raw(c, false));
    NoneWaits(w1.loops, 0, Raw(c, true));
    SetConnKeepsLoops(w1, c, WithEstablished(w1, c).conns[c]);
  }

  lemma EnteredOnBase(w: World)
    requires Core(w)
    ensures Core(WithEstablished(Entered(w, 0), w.nextConnId))
  {
    var c := w.nextConnId;
    var w1 := Entered(w, 0);
    var w2 := WithEstablished(w1, c);
    EnteredOnBaseKeepsLoops(w);
    EnteredChanges(w, 0);
    SetConnOnlyChanges(w1, c, w2.conns[c], true);
    OnlyChangesTwice(w, w1, w2, c);
    hide LoopsInv;
    hide ConnsInv;
    hide OnlyChanges;
    hide Count;
    ConnsInvFrom(w, w2, c);
  }

  lemma EnteredOnIo(w: World, ioLoop: nat)
    requires Core(w) && 0 < ioLoop < |w.loops|
    ensures Core(Posted(Entered(w, ioLoop), ioLoop, Establish(w.nextConnId)))
  {
    var c := w.nextConnId;
    var w1 := Entered(w, ioLoop);
    var w2 := Posted(w1, ioLoop, Establish(c));
    EnteredChanges(w, ioLoop);
    PostedOnlyChanges(w1, ioLoop, Establish(c));
    OnlyChangesTwice(w, w1, w2, c);
    PostKeepsLoops(w1, ioLoop, Establish(c));
    PostedCount(w1, ioLoop, Establish(c));
    hide LoopsInv;
    hide ConnsInv;
    hide OnlyChanges;
    hide Count;
    ConnsInvFrom(w, w2, c);
  }

  lemma AcceptKeepsInv(w: World, ioLoop: nat)
    requires Core(w) && ioLoop < |w.loops|
    ensures Core(WithAccepted(w, ioLoop))
  {
    if ioLoop == 0 { EnteredOnBase(w); } else { EnteredOnIo(w, ioLoop); }
  }

  lemma FreshIsInactive(w: World, c: ConnId)
    requires LoopsInv(w) && c !in w.conns
    ensures forall l | 0 <= l < |w.loops| && w.loops[l].phase == Handling ::
        c !in w.loops[l].active && c !in w.loops[l].todo
  {
    assert forall l | 0 <= l < |w.loops| :: PhaseInv(w, l, w.loops[l]);
  }

  /** After loop `l` has taken `f` off its queue: `w` is `w0` with the batch advanced. */
  ghost predicate Taken(w0: World, w: World, l: nat, f: Functor) {
    && Core(w0) && LoopsInv(w) && l < |w.loops| && w == w0.(loops := w.loops) && |w.loops| == |w0.loops|
    && f.c in w0.conns && f in w0.loops[l].q.Waiting() && w.loops[l].phase == Calling && w0.loops[l].phase == Calling
    && (forall k, g :: Count(w.loops, k, g) == Count(w0.loops, k, g) - if k == l && g == f then 1 else 0)
    && (f.Destroy? ==> Raw(f.c, false) !in w.loops[l].q.Waiting())
    && FunctorInv(w0, l, f)
  }

  lemma NoRawUnless(w: World, l: nat, c: ConnId)
    requires LoopsInv(w) && l < |w.loops| && c in w.conns
    ensures w.conns[c].established != 1 || w.conns[c].destroyed != 0 ==> Raw(c, false) !in w.loops[l].q.Waiting()
    ensures w.conns[c].established != 1 || w.conns[c].erased != 1 ==> Raw(c, true) !in w.loops[l].q.Waiting()
  {
    assert QueueInv(w, l, w.loops[l].q);
    assert forall f | f in w.loops[l].q.Waiting() :: FunctorInv(w, l, f);
  }

  lemma TakenOnlyChanges(w0: World, w: World, l: nat, f: Functor)
    requires Taken(w0, w, l, f)
    ensures OnlyChanges(w0, w, f.c)
  {
    hide Core;
    hide LoopsInv;
    hide Count;
  }

  /** What the functor just taken tells about its connection. */
  lemma TakenFacts(w0: World, w: World, l: nat, f: Functor)
    requires Taken(w0, w, l, f)
    ensures ConnsInv(w0) && LoopsInv(w) && OnlyChanges(w0, w, f.c)
    ensures f.c in w.conns && f.c < w.nextConnId && w.conns[f.c] == w0.conns[f.c]
        && (f.c in w.connections <==> f.c in w0.connections)
    ensures |w.loops| == |w0.loops| && w.conns[f.c].loop < |w.loops| && w.loops[l].phase == Calling
    ensures if f.Remove? then l == 0 else w.conns[f.c].loop == l
    ensures Count(w0.loops, l, f) > 0
    ensures forall k, g :: Count(w.loops, k, g) == Count(w0.loops, k, g) - if k == l && g == f then 1 else 0
    ensures f.Destroy? ==> Raw(f.c, false) !in w.loops[l].q.Waiting()
    ensures w.connections == w0.connections
    ensures var c := f.c; var k := w.conns[c];
            ConnInv(k, c in w.connections, Count(w0.loops, k.loop, Establish(c)), Count(w0.loops, 0, Remove(c)),
                    Count(w0.loops, k.loop, Destroy(c)))
  {
    TakenOnlyChanges(w0, w, l, f);
    WaitingIsCounted(w0.loops, l, f);
    ConnFacts(w0, f.c);
    hide LoopsInv;
    hide ConnsInv;
    hide OnlyChanges;
    hide ConnInv;
    hide Count;
  }

  lemma EstablishKeepsLoops(w: World, c: ConnId)
    requires LoopsInv(w) && c in w.conns && w.conns[c].loop < |w.loops| && w.loops[w.conns[c].loop].phase == Calling
    requires w.conns[c].established == 0
    ensures LoopsInv(WithEstablished(w, c))
  {
    NoRawUnless(w, w.conns[c].loop, c);
    SetConnKeepsLoops(w, c, WithEstablished(w, c).conns[c]);
  }

  lemma EstablishKeepsInv(w0: World, w: World, l: nat, c: ConnId)
    requires Taken(w0, w, l, Establish(c))
    ensures Core(WithEstablished(w, c))
  {
    hide Taken;
    hide Count;
    hide LoopsInv;
    hide ConnsInv;
    hide OnlyChanges;
    TakenFacts(w0, w, l, Establish(c));
    var w' := WithEstablished(w, c);
    SetConnOnlyChanges(w, c, w'.conns[c], c in w.connections);
    OnlyChangesTwice(w0, w, w', c);
    EstablishKeepsLoops(w, c);
    ConnsInvFrom(w0, w', c);
  }

  lemma DestroyKeepsInv(w0: World, w: World, l: nat, c: ConnId)
    requires Taken(w0, w, l, Destroy(c))
    ensures Core(WithDestroyed(w, c))
  {
    hide Taken;
    hide Count;
    hide LoopsInv;
    hide ConnsInv;
    hide OnlyChanges;
    TakenFacts(w0, w, l, Destroy(c));
    var w' := WithDestroyed(w, c);
    SetConnOnlyChanges(w, c, w'.conns[c], c in w.connections);
    OnlyChangesTwice(w0, w, w', c);
    SetConnKeepsLoops(w, c, w'.conns[c]);
    ConnsInvFrom(w0, w', c);
  }

  /** The connection has closed, and nothing has yet been done about it, but for the change of record
      and functor count that `w` has over `w0`. */
  ghost predicate EraseReady(w0: World, w: World, c: ConnId) {
    && ConnsInv(w0) && LoopsInv(w) && OnlyChanges(w0, w, c) && c in w.conns && c < w.nextConnId
    && w.connections == w0.connections && c in w.connections && w.conns[c].loop < |w.loops|
    && var k := w.conns[c];
    && k.established == 1 && k.closed == 1 && k.erased == 0 && k.destroyed == 0
    && k.state == Disconnected && !k.watching && k.registered
    && Count(w.loops, k.loop, Establish(c)) == 0 && Count(w.loops, 0, Remove(c)) == 0
    && Count(w.loops, k.loop, Destroy(c)) == 0
  }

  lemma ConnFacts(w: World, c: ConnId)
    requires ConnsInv(w) && c in w.conns
    ensures c < w.nextConnId && w.conns[c].loop < |w.loops|
    ensures ConnInv(w.conns[c], c in w.connections, Count(w.loops, w.conns[c].loop, Establish(c)),
                    Count(w.loops, 0, Remove(c)), Count(w.loops, w.conns[c].loop, Destroy(c)))
  {
  }

  lemma RemovedIsReady(w0: World, w: World, l: nat, c: ConnId)
    requires Taken(w0, w, l, Remove(c))
    ensures EraseReady(w0, w, c)
  {
    hide Taken;
    hide Count;
    hide LoopsInv;
    hide ConnsInv;
    hide OnlyChanges;
    TakenFacts(w0, w, l, Remove(c));
  }

  lemma RemovedKeepsInv(w0: World, w: World, l: nat, c: ConnId)
    requires Taken(w0, w, l, Remove(c))
    ensures Core(WithRemoved(w, c))
  {
    RemovedIsReady(w0, w, l, c);
    ErasedKeepsInv(w0, w, c);
  }

  function Erased(w: World, c: ConnId): World
    requires c in w.conns
  {
    SetConn(w, c, w.conns[c].(erased := 1)).(connections := w.connections - {c})
  }

  lemma ErasedKeepsLoops(w0: World, w: World, c: ConnId)
    requires EraseReady(w0, w, c)
    ensures LoopsInv(Erased(w, c))
  {
    NotClosedAgain(w, c);
    SetConnKeepsLoops(w, c, w.conns[c].(erased := 1));
    ConnectionsFrame(SetConn(w, c, w.conns[c].(erased := 1)), Erased(w, c));
  }

  /** removeConnectionInLoop, when the close has been counted (inline, or by the Remove functor
      just taken) and the erase has not. */
  lemma ErasedKeepsInv(w0: World, w: World, c: ConnId)
    requires EraseReady(w0, w, c)
    ensures Core(WithRemoved(w, c))
  {
    var w2 := Posted(Erased(w, c), w.conns[c].loop, Destroy(c));
    ErasedIs(w0, w, c);
    ErasedChanges(w0, w, c);
    ErasedLoops(w0, w, c);
    ErasedRecord(w0, w, c);
    assert ConnsInv(w0) && w.conns[c].loop < |w.loops|;
    assert c in w2.conns && w2.conns[c].loop < |w2.loops| && c < w2.nextConnId;
    hide *;
    ConnsInvFrom(w0, w2, c);
    CoreIs(w2);
  }

  lemma ErasedIs(w0: World, w: World, c: ConnId)
    requires EraseReady(w0, w, c)
    ensures c in w.conns && WithRemoved(w, c) == Posted(Erased(w, c), w.conns[c].loop, Destroy(c))
  {
    hide LoopsInv, ConnsInv, OnlyChanges, Count, Posted;
  }

  lemma ErasedChanges(w0: World, w: World, c: ConnId)
    requires EraseReady(w0, w, c)
    ensures OnlyChanges(w0, Posted(Erased(w, c), w.conns[c].loop, Destroy(c)), c)
  {
    var w1 := Erased(w, c);
    SetConnOnlyChanges(w, c, w1.conns[c], false);
    PostedOnlyChanges(w1, w.conns[c].loop, Destroy(c));
    hide LoopsInv, ConnsInv, OnlyChanges, Count, Posted;
    assert w1 == SetConn(w, c, w1.conns[c]).(connections := w.connections - {c});
    OnlyChangesTwice(w0, w, w1, c);
    OnlyChangesTwice(w0, w1, Posted(w1, w.conns[c].loop, Destroy(c)), c);
  }

  lemma ErasedLoops(w0: World, w: World, c: ConnId)
    requires EraseReady(w0, w, c)
    ensures LoopsInv(Posted(Erased(w, c), w.conns[c].loop, Destroy(c)))
  {
    ErasedKeepsLoops(w0, w, c);
    hide LoopsInv, ConnsInv, OnlyChanges, Count, Posted;
    PostKeepsLoops(Erased(w, c), w.conns[c].loop, Destroy(c));
  }

  lemma ErasedRecord(w0: World, w: World, c: ConnId)
    requires EraseReady(w0, w, c)
    ensures var w2 := Posted(Erased(w, c), w.conns[c].loop, Destroy(c)); var k := w2.conns[c];
      ConnInv(k, c in w2.connections, Count(w2.loops, k.loop, Establish(c)), Count(w2.loops, 0, Remove(c)),
        Count(w2.loops, k.loop, Destroy(c)))
  {
    hide LoopsInv, ConnsInv, OnlyChanges;
    PostedCount(Erased(w, c), w.conns[c].loop, Destroy(c));
    hide Count;
  }

  lemma ConnectionsFrame(w: World, w': World)
    requires LoopsInv(w) && w'.conns == w.conns && w'.loops == w.loops && w'.nextConnId == w.nextConnId
    ensures LoopsInv(w')
  {
    forall l | 0 <= l < |w.loops| ensures QueueInv(w', l, w'.loops[l].q) && PhaseInv(w', l, w'.loops[l]) {
      assert QueueInv(w, l, w.loops[l].q) && PhaseInv(w, l, w.loops[l]);
      QueueFrame(w, w', l, w.loops[l].q);
    }
  }

  lemma NotClosedAgain(w: World, c: ConnId)
    requires LoopsInv(w) && c in w.conns && w.conns[c].loop < |w.loops| && w.conns[c].closed != 0
    ensures var s := w.loops[w.conns[c].loop]; s.phase == Handling ==> c !in s.todo
  {
    assert PhaseInv(w, w.conns[c].loop, w.loops[w.conns[c].loop]);
  }

  lemma ClosedKeepsLoops(w: World, c: ConnId)
    requires LoopsInv(w) && c in w.conns && w.conns[c].loop < |w.loops|
    requires w.conns[c].established == 1 && w.conns[c].destroyed == 0 && w.conns[c].registered
    requires w.loops[w.conns[c].loop].phase == Handling ==> c !in w.loops[w.conns[c].loop].todo
    ensures LoopsInv(Closed(w, c))
  {
    SetConnKeepsLoops(w, c, Closed(w, c).conns[c]);
  }

  lemma ClosedIsReady(w: World, c: ConnId)
    requires Core(w) && c in w.conns && Open(w.conns[c])
    requires w.conns[c].loop < |w.loops|
    requires w.loops[w.conns[c].loop].phase == Handling ==> c !in w.loops[w.conns[c].loop].todo
    ensures EraseReady(w, Closed(w, c), c)
  {
    hide LoopsInv;
    hide ConnsInv;
    hide Count;
    hide OnlyChanges;
    ConnFacts(w, c);
    ClosedKeepsLoops(w, c);
    SetConnOnlyChanges(w, c, Closed(w, c).conns[c], true);
  }

  lemma CloseElsewhereKeepsInv(w: World, w1: World, c: ConnId)
    requires EraseReady(w, w1, c) && w1.conns[c].loop != 0
    ensures Core(Posted(w1, 0, Remove(c)))
  {
    var w2 := Posted(w1, 0, Remove(c));
    assert OnlyChanges(w, w2, c) by {
      PostedOnlyChanges(w1, 0, Remove(c));
      OnlyChangesTwice(w, w1, w2, c);
    }
    PostKeepsLoops(w1, 0, Remove(c));
    PostedCount(w1, 0, Remove(c));
    hide LoopsInv;
    hide ConnsInv;
    hide OnlyChanges;
    hide Count;
    ConnsInvFrom(w, w2, c);
  }

  /** handleClose of an open connection whose event has been taken off the loop's list. */
  lemma HandleCloseKeepsInv(w: World, l: nat, c: ConnId)
    requires Core(w) && c in w.conns && w.conns[c].loop == l && l < |w.loops| && Open(w.conns[c])
    requires w.loops[l].phase == Handling ==> c !in w.loops[l].todo
    ensures Core(WithClosed(w, l, c))
  {
    ClosedIsReady(w, c);
    if l == 0 {
      ErasedKeepsInv(w, Closed(w, c), c);
    } else {
      CloseElsewhereKeepsInv(w, Closed(w, c), c);
    }
  }

  /** Counting does not see what is not about a connection's life. */
  lemma PostKeepsConns(w: World, l: nat, f: Functor)
    requires ConnsInv(w) && l < |w.loops| && f.c in w.conns && (f.ForceClose? || f.Notify? || f.Raw?)
    ensures ConnsInv(Posted(w, l, f))
  {
    PostedCount(w, l, f);
    PostedOnlyChanges(w, l, f);
    ConnFacts(w, f.c);
    hide ConnsInv;
    hide ConnInv;
    hide OnlyChanges;
    hide Count;
    hide Posted;
    ConnsInvFrom(w, Posted(w, l, f), f.c);
  }

  lemma PostKeepsInv(w: World, l: nat, f: Functor)
    requires Core(w) && l < |w.loops| && FunctorInv(w, l, f) && f.c in w.conns && (f.ForceClose? || f.Notify? || f.Raw?)
    requires f.Raw? && !f.late ==> Count(w.loops, l, Destroy(f.c)) == 0
    ensures Core(Posted(w, l, f))
  {
    PostKeepsLoops(w, l, f);
    PostKeepsConns(w, l, f);
  }

  /** The user's requests only move an open connection to kDisconnecting, or change its interest. */
  lemma SetStateKeepsLoops(w: World, c: ConnId, k: Conn)
    requires Core(w) && c in w.conns && Open(w.conns[c]) && Open(k)
    requires k == w.conns[c].(state := k.state, watching := k.watching)
    ensures LoopsInv(SetConn(w, c, k))
  {
    ConnFacts(w, c);
    hide ConnsInv;
    assert PhaseInv(w, k.loop, w.loops[k.loop]) && QueueInv(w, k.loop, w.loops[k.loop].q);
    NoRawUnless(w, k.loop, c);
    SetConnKeepsLoops(w, c, k);
  }

  lemma SetStateKeepsInv(w: World, c: ConnId, k: Conn)
    requires Core(w) && c in w.conns && Open(w.conns[c]) && Open(k)
    requires k == w.conns[c].(state := k.state, watching := k.watching)
    ensures Core(SetConn(w, c, k))
  {
    SetStateKeepsLoops(w, c, k);
    ConnFacts(w, c);
    SetConnOnlyChanges(w, c, k, c in w.connections);
    hide LoopsInv;
    hide ConnsInv;
    hide OnlyChanges;
    hide Count;
    ConnsInvFrom(w, SetConn(w, c, k), c);
  }

  lemma SetLoopKeepsInv(w: World, l: nat, s: LoopState)
    requires Core(w) && l < |w.loops| && s.q.Waiting() == w.loops[l].q.Waiting()
    requires QueueInv(w, l, s.q) && PhaseInv(w, l, s)
    ensures Core(SetLoop(w, l, s))
  {
    SetLoopKeepsLoops(w, l, s);
    SameCount(w.loops, l, s);
    hide LoopsInv;
    hide Count;
    ConnsFrame(w, SetLoop(w, l, s));
  }

  lemma ConnsFrame(w0: World, w: World)
    requires ConnsInv(w0) && w == w0.(loops := w.loops) && |w.loops| == |w0.loops|
    requires forall k, g :: Count(w.loops, k, g) == Count(w0.loops, k, g)
    ensures ConnsInv(w)
  {
  }

  lemma SwappedKeepsQueue(w: World, l: nat, q: FunctorQueue<Functor>)
    requires QueueInv(w, l, q) && (q.batch == [] || q.next == |q.batch|)
    ensures q.batch == [] ==> QueueInv(w, l, q.Swapped()) && q.Swapped().Waiting() == q.Waiting()
    ensures q.next == |q.batch| ==> QueueInv(w, l, q.Finished()) && q.Finished().Waiting() == q.Waiting()
  {
    assert q.batch == [] ==> q.Swapped().Waiting() == q.Waiting();
    assert q.next == |q.batch| ==> q.Finished().Waiting() == q.Waiting();
  }

  lemma RunFunctorKeepsInv(w0: World, w: World, l: nat, f: Functor)
    requires Taken(w0, w, l, f) && f.c in w.conns
    ensures Core(WithRun(w, l, f))
  {
    hide Taken;
    hide Core;
    match f
    case Establish(c) => EstablishKeepsInv(w0, w, l, c);
    case Remove(c) => RemovedKeepsInv(w0, w, l, c);
    case Destroy(c) => DestroyKeepsInv(w0, w, l, c);
    case ForceClose(c) => ForceCloseKeepsInv(w0, w, l, c);
    case Notify(c) => HarmlessKeepsInv(w0, w, l, f);
    case Raw(c, _) => HarmlessKeepsInv(w0, w, l, f);
  }

  lemma RunNextKeepsInv(w: World, l: nat)
    requires Core(w) && Enabled(w, RunNext(l)) && Safe(w, RunNext(l))
    ensures Core(Step(w, RunNext(l)))
  {
    var s := w.loops[l];
    var w' := SetLoop(w, l, s.(q := s.q.Advanced()));
    TakeKeeps(w, l);
    hide Taken;
    hide Core;
    hide WithRun;
    RunFunctorKeepsInv(w, w', l, s.q.batch[s.q.next]);
  }

  lemma TakeKeepsLoops(w: World, l: nat)
    requires LoopsInv(w) && Enabled(w, RunNext(l))
    ensures var s := w.loops[l]; var f := s.q.batch[s.q.next];
            var w' := SetLoop(w, l, s.(q := s.q.Advanced()));
      && LoopsInv(w') && FunctorInv(w, l, f) && f in s.q.Waiting()
      && (f.Destroy? ==> Raw(f.c, false) !in w'.loops[l].q.Waiting())
  {
    var s := w.loops[l];
    var f := s.q.batch[s.q.next];
    QueueIsFifo(s.q, f);
    assert QueueInv(w, l, s.q) && PhaseInv(w, l, s);
    AdvancedKeepsQueue(w, l, s.q);
    SetLoopKeepsLoops(w, l, s.(q := s.q.Advanced()));
    hide FunctorInv;
    hide LoopsInv;
  }

  lemma TakeKeeps(w: World, l: nat)
    requires Core(w) && Enabled(w, RunNext(l)) && w.loops[l].q.batch[w.loops[l].q.next].c in w.conns
    ensures var s := w.loops[l];
            Taken(w, SetLoop(w, l, s.(q := s.q.Advanced())), l, s.q.batch[s.q.next])
  {
    hide LoopsInv;
    hide ConnsInv;
    hide FunctorInv;
    hide Count;
    TakeKeepsLoops(w, l);
    AdvancedCount(w.loops, l, w.loops[l].(q := w.loops[l].q.Advanced()));
  }

  lemma HarmlessKeepsInv(w0: World, w: World, l: nat, f: Functor)
    requires Taken(w0, w, l, f) && !f.Establish? && !f.Remove? && !f.Destroy?
    ensures Core(w)
  {
    hide Taken;
    hide Count;
    hide LoopsInv;
    hide ConnsInv;
    hide OnlyChanges;
    hide ConnInv;
    TakenFacts(w0, w, l, f);
    ConnsInvFrom(w0, w, f.c);
  }

  lemma ForceCloseKeepsInv(w0: World, w: World, l: nat, c: ConnId)
    requires Taken(w0, w, l, ForceClose(c))
    ensures c in w.conns && Core(if Open(w.conns[c]) then WithClosed(w, l, c) else w)
  {
    HarmlessKeepsInv(w0, w, l, ForceClose(c));
    assert c in w.conns && w.conns[c].loop == l && l < |w.loops| && w.loops[l].phase == Calling by {
      TakenFacts(w0, w, l, ForceClose(c));
    }
    hide Taken;
    hide Core;
    if Open(w.conns[c]) {
      HandleCloseKeepsInv(w, l, c);
    }
  }

  lemma HandledKeepsInv(w: World, l: nat, c: ConnId)
    requires Core(w) && l < |w.loops|
    ensures Core(SetLoop(w, l, w.loops[l].(todo := w.loops[l].todo - {c})))
  {
    assert QueueInv(w, l, w.loops[l].q) && PhaseInv(w, l, w.loops[l]);
    SetLoopKeepsInv(w, l, w.loops[l].(todo := w.loops[l].todo - {c}));
  }

  lemma EventKeepsInv(w: World, l: nat, c: ConnId, kind: EventKind)
    requires Core(w) && Enabled(w, Event(l, c, kind)) && Safe(w, Event(l, c, kind))
    ensures Core(Step(w, Event(l, c, kind)))
  {
    HandledKeepsInv(w, l, c);
    assert PhaseInv(w, l, w.loops[l]);
    hide Core;
    if kind == PeerClosed {
      HandleCloseKeepsInv(SetLoop(w, l, w.loops[l].(todo := w.loops[l].todo - {c})), l, c);
    }
  }

  lemma PhaseChangeKeepsInv(w: World, op: Op)
    requires Core(w) && Enabled(w, op) && (op.EnterFunctors? || op.LeaveFunctors?)
    ensures Core(Step(w, op))
  {
    var l := op.l;
    assert QueueInv(w, l, w.loops[l].q) && PhaseInv(w, l, w.loops[l]);
    SwappedKeepsQueue(w, l, w.loops[l].q);
    var s := if op.EnterFunctors? then w.loops[l].(phase := Calling, q := w.loops[l].q.Swapped())
             else w.loops[l].(phase := Outside, q := w.loops[l].q.Finished());
    SetLoopKeepsInv(w, l, s);
  }

  lemma PollReturnKeepsInv(w: World, l: nat, active: set<ConnId>)
    requires Core(w) && Enabled(w, PollReturn(l, active))
    ensures Core(Step(w, PollReturn(l, active)))
  {
    var s := w.loops[l].(phase := Handling, active := active, todo := active);
    assert QueueInv(w, l, w.loops[l].q) && PhaseInv(w, l, w.loops[l]);
    forall c | c in active ensures w.conns[c].closed == 0 && w.conns[c].established == 1 {
      ConnFacts(w, c);
    }
    SetLoopKeepsInv(w, l, s);
  }

  lemma CallsKeepCore(w: World, calls: multiset<Call>)
    requires Core(w)
    ensures Core(w.(calls := calls))
  {
    ConnectionsFrame(w, w.(calls := calls));
  }

  /** What a call pushes, whatever has happened to the connection since its test. */
  lemma PushedFunctor(w: World, call: Call)
    requires ConnsInv(w) && call.c in w.conns && w.conns[call.c].established > 0
    ensures w.conns[call.c].loop < |w.loops| && FunctorInv(w, w.conns[call.c].loop, Pushed(w, call))
    ensures var f := Pushed(w, call); f.Raw? && !f.late ==> Count(w.loops, w.conns[call.c].loop, Destroy(f.c)) == 0
  {
    ConnFacts(w, call.c);
    hide ConnsInv;
    PushedFits(w, call, Count(w.loops, w.conns[call.c].loop, Establish(call.c)), Count(w.loops, 0, Remove(call.c)),
               Count(w.loops, w.conns[call.c].loop, Destroy(call.c)));
    hide Count, ConnInv, FunctorInv;
  }

  lemma PushedFits(w: World, call: Call, establish: nat, remove: nat, destroy: nat)
    requires call.c in w.conns && call.c < w.nextConnId && w.conns[call.c].established > 0
    requires ConnInv(w.conns[call.c], call.c in w.connections, establish, remove, destroy)
    ensures FunctorInv(w, w.conns[call.c].loop, Pushed(w, call))
    ensures var f := Pushed(w, call); f.Raw? && !f.late ==> destroy == 0
    ensures Pushed(w, call).c == call.c
  {
  }

  lemma PushKeepsInv(w: World, call: Call)
    requires Core(w) && call.c in w.conns && w.conns[call.c].established > 0
    ensures Core(Posted(w.(calls := w.calls - multiset{call}), w.conns[call.c].loop, Pushed(w, call)))
  {
    var w1 := w.(calls := w.calls - multiset{call});
    CallsKeepCore(w, w1.calls);
    PushedFunctor(w1, call);
    hide LoopsInv, ConnsInv, Count, FunctorInv;
    PostKeepsInv(w1, w.conns[call.c].loop, Pushed(w, call));
  }

  lemma NotifyKeepsInv(w: World, c: ConnId)
    requires Core(w) && c in w.conns
    ensures Core(Posted(w, w.conns[c].loop, Notify(c)))
  {
    ConnFacts(w, c);
    hide LoopsInv;
    hide ConnsInv;
    hide Count;
    PostKeepsInv(w, w.conns[c].loop, Notify(c));
  }

  lemma UserCallKeepsInv(w: World, op: Op)
    requires Core(w) && Enabled(w, op) && Safe(w, op)
    requires op.UserForceClose? || op.UserForceCloseWithDelay? || op.UserShutdown? || op.SetInterest? || op.UserSend?
    ensures Core(Step(w, op))
  {
    hide Core;
    hide Held;
    var c := op.c;
    var k := w.conns[c];
    if Open(k) {
      if op.UserSend? {
        CallsKeepCore(w, w.calls + multiset{PlainCall(c)});
      } else {
        var k' := if op.SetInterest? then k.(watching := op.watching) else k.(state := Disconnecting);
        SetStateKeepsInv(w, c, k');
        CallsKeepCore(SetConn(w, c, k'), w.calls + multiset{ForceCloseCall(c)});
        CallsKeepCore(SetConn(w, c, k'), w.calls + multiset{PlainCall(c)});
      }
    }
  }

  lemma UsersKeepInv(w: World, users: set<ConnId>)
    requires Core(w) && users <= w.conns.Keys
    ensures Core(w.(users := users))
  {
    ConnectionsFrame(w, w.(users := users));
  }

  lemma DestructKeepsQueue(w: World, w': World, c: ConnId, l: nat, q: FunctorQueue<Functor>)
    requires QueueInv(w, l, q)
    requires forall f | f in q.pending + q.batch && !f.Raw? :: f.c != c
    requires forall f | f in q.Waiting() && f.c == c :: Late(f)
    requires w'.conns == w.conns - {c} && w'.nextConnId == w.nextConnId
    ensures QueueInv(w', l, q)
  {
    hide FunctorQueue.Waiting, RawFirst;
    forall f | f in q.Waiting() ensures FunctorInv(w', l, f) {
      assert FunctorInv(w, l, f);
    }
  }

  lemma DestructKeepsPhase(w: World, w': World, c: ConnId, l: nat, s: LoopState)
    requires PhaseInv(w, l, s) && (s.phase == Handling ==> c !in s.active)
    requires w'.conns == w.conns - {c}
    ensures PhaseInv(w', l, s)
  {
  }

  lemma DestructKeepsLoop(w: World, w': World, c: ConnId, l: nat)
    requires l < |w.loops| && QueueInv(w, l, w.loops[l].q) && PhaseInv(w, l, w.loops[l])
    requires HoldsNone(w.loops[l], c) && Forgotten(w.loops[l], c)
    requires w'.conns == w.conns - {c} && w'.nextConnId == w.nextConnId
    ensures QueueInv(w', l, w.loops[l].q) && PhaseInv(w', l, w.loops[l])
  {
    hide QueueInv, PhaseInv, Late;
    DestructKeepsQueue(w, w', c, l, w.loops[l].q);
    DestructKeepsPhase(w, w', c, l, w.loops[l]);
  }

  lemma DestructKeepsLoops(w: World, w': World, c: ConnId)
    requires LoopsInv(w) && !Held(w, c) && forall l | 0 <= l < |w.loops| :: Forgotten(w.loops[l], c)
    requires w'.conns == w.conns - {c} && w'.loops == w.loops && w'.nextConnId == w.nextConnId
    ensures LoopsInv(w')
  {
    forall l | 0 <= l < |w.loops| ensures QueueInv(w', l, w'.loops[l].q) && PhaseInv(w', l, w'.loops[l]) {
      LoopFacts(w, l);
      UnheldAt(w, c, l);
      hide Held, HoldsNone, Forgotten, QueueInv, PhaseInv;
      DestructKeepsLoop(w, w', c, l);
    }
    hide Held, Forgotten, QueueInv, PhaseInv;
  }

  lemma DestructKeepsInv(w: World, c: ConnId)
    requires Core(w) && Enabled(w, Destruct(c)) && Safe(w, Destruct(c))
    ensures Core(Step(w, Destruct(c)))
  {
    assert ConnsInv(w) && LoopsInv(w) && !Held(w, c);
    DestructIs(w, c);
    hide *;
    UnheldUsers(w, c);
    DestructKeepsLoops(w, Step(w, Destruct(c)), c);
    DestructKeepsConns(w, c);
    CoreIs(Step(w, Destruct(c)));
  }

  lemma DestructIs(w: World, c: ConnId)
    requires Enabled(w, Destruct(c)) && Safe(w, Destruct(c))
    ensures Step(w, Destruct(c)) == w.(conns := w.conns - {c})
    ensures forall l | 0 <= l < |w.loops| :: Forgotten(w.loops[l], c)
  {
    hide Forgotten, Held;
  }

  lemma CoreIs(w: World)
    requires ConnsInv(w) && LoopsInv(w)
    ensures Core(w)
  {
  }

  lemma UnheldUsers(w: World, c: ConnId)
    requires !Held(w, c)
    ensures c !in w.connections && c !in w.users && PlainCall(c) !in w.calls && ForceCloseCall(c) !in w.calls
  {
  }

  lemma DestructKeepsConns(w: World, c: ConnId)
    requires ConnsInv(w) && c !in w.connections && c !in w.users && PlainCall(c) !in w.calls
        && ForceCloseCall(c) !in w.calls
    ensures ConnsInv(w.(conns := w.conns - {c}))
  {
    hide Count;
    hide ConnInv;
  }

  /** Every step of every thread keeps the invariant. */
  lemma StepKeepsInv(w: World, op: Op)
    requires Inv(w) && Enabled(w, op) && Safe(w, op)
    ensures Inv(Step(w, op))
  {
    StepKeepsCore(w, op);
    StepKeepsCalls(w, op);
    hide Core, CallsInv, Enabled, Safe, Step;
  }

  /** No connection is lost, or goes back to not being established. */
  ghost predicate Onward(w: World, w': World) {
    forall c | c in w.conns :: c in w'.conns && w.conns[c].established <= w'.conns[c].established
  }

  lemma RunIsOnward(w: World, l: nat, f: Functor)
    requires f.c in w.conns
    ensures Onward(w, WithRun(w, l, f)) && WithRun(w, l, f).calls == w.calls
  {
  }

  lemma AcceptIsOnward(w: World, ioLoop: nat)
    requires ConnsInv(w) && ioLoop < |w.loops|
    ensures Onward(w, WithAccepted(w, ioLoop)) && WithAccepted(w, ioLoop).calls == w.calls
  {
    assert w.nextConnId !in w.conns;
    hide ConnsInv;
  }

  lemma CallsFrame(w: World, w': World)
    requires CallsInv(w) && Onward(w, w') && w'.calls == w.calls
    ensures CallsInv(w')
  {
  }

  lemma OpenIsEstablished(w: World, c: ConnId)
    requires ConnsInv(w) && c in w.conns && Open(w.conns[c])
    ensures w.conns[c].established > 0
  {
    ConnFacts(w, c);
    hide ConnsInv, Count;
  }

  lemma AddedCall(w: World, w': World, call: Call)
    requires CallsInv(w) && Onward(w, w') && call.c in w.conns && w.conns[call.c].established > 0
    requires w'.calls == w.calls + multiset{call} || w'.calls == w.calls
    ensures CallsInv(w')
  {
  }

  function CallOf(op: Op): Call
    requires op.UserForceClose? || op.UserShutdown? || op.UserSend?
  {
    if op.UserForceClose? then ForceCloseCall(op.c) else PlainCall(op.c)
  }

  lemma UserCallAdds(w: World, op: Op)
    requires Enabled(w, op) && Safe(w, op) && (op.UserForceClose? || op.UserShutdown? || op.UserSend?)
    ensures op.c in w.conns && Onward(w, Step(w, op))
    ensures Step(w, op).calls == w.calls || (Open(w.conns[op.c]) && Step(w, op).calls == w.calls + multiset{CallOf(op)})
  {
    hide Held;
  }

  lemma UserCallKeepsCalls(w: World, op: Op)
    requires Inv(w) && Enabled(w, op) && Safe(w, op) && (op.UserForceClose? || op.UserShutdown? || op.UserSend?)
    ensures CallsInv(Step(w, op))
  {
    assert CallsInv(w) && ConnsInv(w);
    UserCallAdds(w, op);
    assert CallOf(op).c == op.c;
    hide *;
    if Open(w.conns[op.c]) {
      OpenIsEstablished(w, op.c);
      AddedCall(w, Step(w, op), CallOf(op));
    } else {
      CallsFrame(w, Step(w, op));
    }
  }

  lemma PushKeepsCalls(w: World, call: Call)
    requires CallsInv(w) && call in w.calls
    ensures CallsInv(Step(w, Push(call)))
  {
    assert w.calls - multiset{call} <= w.calls;
  }

  lemma EventIsOnward(w: World, op: Op)
    requires Enabled(w, op) && Safe(w, op)
    requires op.PollReturn? || op.Event? || op.EnterFunctors? || op.LeaveFunctors?
    ensures Onward(w, Step(w, op)) && Step(w, op).calls == w.calls
  {
    hide Held;
  }

  lemma OtherIsOnward(w: World, op: Op)
    requires Enabled(w, op) && Safe(w, op)
    requires op.UserForceCloseWithDelay? || op.PostNotify? || op.SetInterest? || op.UserHold? || op.UserDrop?
    ensures Onward(w, Step(w, op)) && Step(w, op).calls == w.calls
  {
    hide Held;
  }

  lemma RunNextIsOnward(w: World, l: nat)
    requires Enabled(w, RunNext(l)) && Safe(w, RunNext(l))
    ensures Onward(w, Step(w, RunNext(l))) && Step(w, RunNext(l)).calls == w.calls
  {
    var s := w.loops[l];
    RunIsOnward(SetLoop(w, l, s.(q := s.q.Advanced())), l, s.q.batch[s.q.next]);
    hide WithRun;
  }

  lemma DestructKeepsCalls(w: World, c: ConnId)
    requires CallsInv(w) && Enabled(w, Destruct(c)) && Safe(w, Destruct(c))
    ensures CallsInv(Step(w, Destruct(c)))
  {
    assert PlainCall(c) !in w.calls && ForceCloseCall(c) !in w.calls;
    hide Held;
    forall call | call in w.calls ensures call.c != c {}
  }

  lemma StepKeepsCalls(w: World, op: Op)
    requires Inv(w) && Enabled(w, op) && Safe(w, op)
    ensures CallsInv(Step(w, op))
  {
    assert CallsInv(w) && ConnsInv(w);
    match op {
      case Accept(ioLoop) =>
        AcceptIsOnward(w, ioLoop);
        assert Step(w, op) == WithAccepted(w, ioLoop);
      case PollReturn(_, _) => EventIsOnward(w, op);
      case Event(_, _, _) => EventIsOnward(w, op);
      case EnterFunctors(_) => EventIsOnward(w, op);
      case LeaveFunctors(_) => EventIsOnward(w, op);
      case RunNext(l) => RunNextIsOnward(w, l);
      case UserForceClose(_) => UserCallKeepsCalls(w, op);
      case UserShutdown(_, _) => UserCallKeepsCalls(w, op);
      case UserSend(_, _) => UserCallKeepsCalls(w, op);
      case Push(call) => PushKeepsCalls(w, call);
      case Destruct(c) => DestructKeepsCalls(w, c);
      case _ => OtherIsOnward(w, op);
    }
    hide *;
    if Onward(w, Step(w, op)) && Step(w, op).calls == w.calls {
      CallsFrame(w, Step(w, op));
    }
  }

  lemma UserKeepsCore(w: World, op: Op)
    requires Inv(w) && Enabled(w, op) && Safe(w, op) && (op.UserHold? || op.UserDrop?)
    ensures Core(Step(w, op))
  {
    assert Core(w) by { hide Core; }
    hide *;
    UsersAre(w, op);
    UsersAreLive(w);
    if op.UserHold? { HeldIsLive(w, op.c); }
    UsersKeepInv(w, Step(w, op).users);
  }

  lemma UsersAre(w: World, op: Op)
    requires Enabled(w, op) && Safe(w, op) && (op.UserHold? || op.UserDrop?)
    ensures Step(w, op) == w.(users := Step(w, op).users)
    ensures if op.UserHold? then Held(w, op.c) && Step(w, op).users == w.users + {op.c}
        else Step(w, op).users == w.users - {op.c}
  {
    hide Held;
  }

  lemma UsersAreLive(w: World)
    requires Core(w)
    ensures w.users <= w.conns.Keys
  {
    hide LoopsInv;
  }

  lemma CallPushKeepsCore(w: World, call: Call)
    requires Inv(w) && Enabled(w, Push(call)) && Safe(w, Push(call))
    ensures Core(Step(w, Push(call)))
  {
    hide Core;
    PushKeepsInv(w, call);
  }

  lemma AcceptKeepsCore(w: World, ioLoop: nat)
    requires Core(w) && Enabled(w, Accept(ioLoop)) && Safe(w, Accept(ioLoop))
    ensures Core(Step(w, Accept(ioLoop)))
  {
    hide Core;
    AcceptKeepsInv(w, ioLoop);
  }

  lemma NotifyKeepsCore(w: World, c: ConnId)
    requires Core(w) && Enabled(w, PostNotify(c)) && Safe(w, PostNotify(c))
    ensures Core(Step(w, PostNotify(c)))
  {
    hide Core;
    NotifyKeepsInv(w, c);
  }

  lemma StepKeepsCore(w: World, op: Op)
    requires Inv(w) && Enabled(w, op) && Safe(w, op)
    ensures Core(Step(w, op))
  {
    assert Core(w);
    hide *;
    match op
    case Accept(ioLoop) => AcceptKeepsCore(w, ioLoop);
    case PollReturn(l, active) => PollReturnKeepsInv(w, l, active);
    case Event(l, c, kind) => EventKeepsInv(w, l, c, kind);
    case EnterFunctors(l) => PhaseChangeKeepsInv(w, op);
    case RunNext(l) => RunNextKeepsInv(w, l);
    case LeaveFunctors(l) => PhaseChangeKeepsInv(w, op);
    case UserForceClose(c) => UserCallKeepsInv(w, op);
    case UserForceCloseWithDelay(c) => UserCallKeepsInv(w, op);
    case UserShutdown(c, _) => UserCallKeepsInv(w, op);
    case UserSend(c, _) => UserCallKeepsInv(w, op);
    case Push(call) => CallPushKeepsCore(w, call);
    case PostNotify(c) => NotifyKeepsCore(w, c);
    case SetInterest(c, _) => UserCallKeepsInv(w, op);
    case UserHold(c) => UserKeepsCore(w, op);
    case UserDrop(c) => UserKeepsCore(w, op);
    case Destruct(c) => DestructKeepsInv(w, c);
  }

  /** Any run: steps that are not enabled where they stand are skipped, and a step that is not safe
      ends it. */
  ghost function Steps(w: World, ops: seq<Op>): World
    requires Inv(w)
    decreases |ops|
  {
    if ops == [] then w
    else if !Enabled(w, ops[0]) then Steps(w, ops[1..])
    else if !Safe(w, ops[0]) then w
    else
      StepKeepsInv(w, ops[0]);
      Steps(Step(w, ops[0]), ops[1..])
  }

  lemma {:induction false} StepsKeepInv(w: World, ops: seq<Op>)
    requires Inv(w)
    ensures Inv(Steps(w, ops))
    decreases |ops|
  {
    if ops != [] {
      if !Enabled(w, ops[0]) {
        StepsKeepInv(w, ops[1..]);
      } else if Safe(w, ops[0]) {
        StepKeepsInv(w, ops[0]);
        StepsKeepInv(Step(w, ops[0]), ops[1..]);
      }
    }
  }

  /** The life of every connection, in every run of a server with any number of I/O loops.  It is
      established once; it closes at most once, and only then leaves connections_, once; only then is
      it destroyed, once.  While a poller knows its channel something owns it.  And whatever may
      happen next, no assertion of the source fails and nothing touches a destroyed object, but for a
      late plain functor whose connection is gone. */
  lemma EveryRun(ioLoops: nat, ops: seq<Op>)
    ensures var w := Steps(Server(ioLoops), ops);
      && (forall c | c in w.conns ::
            var k := w.conns[c];
            && k.established + Count(w.loops, k.loop, Establish(c)) == 1
            && k.destroyed <= k.erased <= k.closed <= k.established <= 1
            && (c in w.connections <==> k.erased == 0)
            && (k.registered ==> Held(w, c))
            && (k.registered <==> k.established == 1 && k.destroyed == 0))
      && (forall op | Enabled(w, op) :: Safe(w, op) <==> !Dangles(w, op))
  {
    var w := Steps(Server(ioLoops), ops);
    StepsKeepInv(Server(ioLoops), ops);
    forall op | Enabled(w, op) ensures Safe(w, op) <==> !Dangles(w, op) {
      EnabledIsSafe(w, op);
    }
    forall c | c in w.conns
      ensures var k := w.conns[c];
            && k.established + Count(w.loops, k.loop, Establish(c)) == 1
            && k.destroyed <= k.erased <= k.closed <= k.established <= 1
            && (c in w.connections <==> k.erased == 0)
            && (k.registered ==> Held(w, c))
            && (k.registered <==> k.established == 1 && k.destroyed == 0)
    {
      ConnFacts(w, c);
      if w.conns[c].registered { RegisteredIsHeld(w, c); }
    }
  }

  /** When no functor about the connection is left, its life is complete: established, and gone from
      the map and the poller exactly if it closed. */
  lemma Settled(w: World, c: ConnId)
    requires Inv(w) && c in w.conns
    requires forall l, f | 0 <= l < |w.loops| && f in w.loops[l].q.Waiting() && f.c == c :: f.Raw?
    ensures w.conns[c].established == 1
    ensures w.conns[c].closed == 1 <==> c !in w.connections
    ensures w.conns[c].closed == 1 <==> w.conns[c].destroyed == 1
    ensures w.conns[c].closed == 1 <==> !w.conns[c].registered
  {
    ConnFacts(w, c);
    NotWaiting(w, w.conns[c].loop, Establish(c));
    NotWaiting(w, w.conns[c].loop, Destroy(c));
    NotWaiting(w, 0, Remove(c));
    hide *;
    SettledRecord(w.conns[c], c in w.connections);
  }

  lemma NotWaiting(w: World, l: nat, f: Functor)
    requires forall l, g | 0 <= l < |w.loops| && g in w.loops[l].q.Waiting() && g.c == f.c :: g.Raw?
    requires !f.Raw?
    ensures Count(w.loops, l, f) == 0
  {
    if l < |w.loops| { assert f !in w.loops[l].q.Waiting(); }
  }

  lemma SettledRecord(k: Conn, inMap: bool)
    requires ConnInv(k, inMap, 0, 0, 0)
    ensures k.established == 1 && (k.closed == 1 <==> !inMap) && (k.closed == 1 <==> k.destroyed == 1)
    ensures k.closed == 1 <==> !k.registered
  {
  }

  /** The connection has closed, or is gone. */
  predicate HasClosed(w: World, c: ConnId) {
    c < w.nextConnId && (c in w.conns ==> w.conns[c].closed != 0)
  }

  lemma CloseLasts(w: World, op: Op, c: ConnId)
    requires Enabled(w, op) && Safe(w, op) && HasClosed(w, c)
    ensures HasClosed(Step(w, op), c)
  {
    RecordsAdvance(w, op, c);
    hide Enabled, Safe, Step;
  }

  /** handleClose twice on one connection is what the assertion in it forbids.  Over every run that follows
      a close, by the peer or by force, the connection stays closed for as long as it exists, and no
      handler of it can find a close again. */
  lemma {:induction false} CloseIsOnce(w: World, ops: seq<Op>, c: ConnId)
    requires Inv(w) && HasClosed(w, c)
    ensures var t := Steps(w, ops);
      && (c in t.conns ==> t.conns[c].closed == 1 && t.conns[c].state == Disconnected)
      && (forall l :: !Enabled(t, Event(l, c, PeerClosed)))
    decreases |ops|
  {
    if ops == [] || (Enabled(w, ops[0]) && !Safe(w, ops[0])) {
      ClosedFacts(w, c);
    } else if !Enabled(w, ops[0]) {
      CloseIsOnce(w, ops[1..], c);
    } else {
      StepKeepsInv(w, ops[0]);
      CloseLasts(w, ops[0], c);
      CloseIsOnce(Step(w, ops[0]), ops[1..], c);
    }
    hide *;
  }

  lemma ClosedRecord(w: World, c: ConnId)
    requires Inv(w) && c in w.conns && w.conns[c].closed != 0
    ensures w.conns[c].closed == 1 && w.conns[c].state == Disconnected
  {
    ConnFacts(w, c);
    hide Count, ConnsInv;
  }

  lemma ClosedFacts(w: World, c: ConnId)
    requires Inv(w) && HasClosed(w, c)
    ensures c in w.conns ==> w.conns[c].closed == 1 && w.conns[c].state == Disconnected
    ensures forall l :: !Enabled(w, Event(l, c, PeerClosed))
  {
    hide Inv, Count, Enabled, ConnsInv;
    if c in w.conns { ClosedRecord(w, c); }
    forall l: nat ensures !Enabled(w, Event(l, c, PeerClosed)) {
      if Enabled(w, Event(l, c, PeerClosed)) { EnabledIsSafe(w, Event(l, c, PeerClosed)); }
    }
  }

  // ---- What is asked for happens -----------------------------------------------------------------------------

  function Rank(state: ConnState): nat {
    match state
    case Connecting => 0
    case Connected => 1
    case Disconnecting => 2
    case Disconnected => 3
  }

  /** The connection has come at least so far, or is gone. */
  predicate Reached(w: World, c: ConnId, rank: nat) {
    c < w.nextConnId && (c in w.conns ==> Rank(w.conns[c].state) >= rank)
  }

  lemma ReachedByRun(w: World, l: nat, f: Functor, c: ConnId, rank: nat)
    requires f.c in w.conns && Reached(w, c, rank) && (f.Establish? ==> w.conns[f.c].state == Connecting)
    ensures Reached(WithRun(w, l, f), c, rank) && Reached(WithClosed(w, l, f.c), c, rank)
  {
  }

  lemma ReachedByStep(w: World, op: Op, c: ConnId, rank: nat)
    requires Enabled(w, op) && Safe(w, op) && Reached(w, c, rank)
    ensures Reached(Step(w, op), c, rank)
  {
    if op.RunNext? {
      var f := w.loops[op.l].q.batch[w.loops[op.l].q.next];
      ReachedByRun(SetLoop(w, op.l, w.loops[op.l].(q := w.loops[op.l].q.Advanced())), op.l, f, c, rank);
    } else if op.Event? {
      var w' := SetLoop(w, op.l, w.loops[op.l].(todo := w.loops[op.l].todo - {op.c}));
      ReachedByRun(w', op.l, ForceClose(op.c), c, rank);
    }
    hide Held, WithRun, WithClosed;
  }

  /** state_ only advances, over every run. */
  lemma {:induction false} StateAdvances(w: World, ops: seq<Op>, c: ConnId, rank: nat)
    requires Inv(w) && Reached(w, c, rank)
    ensures Reached(Steps(w, ops), c, rank)
    decreases |ops|
  {
    hide Inv, Enabled, Safe, Step, Reached;
    if ops != [] && !Enabled(w, ops[0]) {
      StateAdvances(w, ops[1..], c, rank);
    } else if ops != [] && Safe(w, ops[0]) {
      StepKeepsInv(w, ops[0]);
      ReachedByStep(w, ops[0], c, rank);
      StateAdvances(Step(w, ops[0]), ops[1..], c, rank);
    }
  }

  /** A send or a shutdown of the connection does nothing. */
  ghost predicate TakesNoCall(w: World, c: ConnId) {
    forall inLoop | c in w.conns && Held(w, c) ::
      Step(w, UserSend(c, inLoop)) == w && Step(w, UserShutdown(c, inLoop)) == w
  }

  lemma PastConnected(w: World, c: ConnId)
    requires Reached(w, c, 2)
    ensures TakesNoCall(w, c)
  {
    hide Held;
  }

  lemma ClosingCallReaches(w: World, op: Op, c: ConnId, inLoop: bool)
    requires Enabled(w, op) && Safe(w, op) && c in w.conns && c < w.nextConnId && w.conns[c].state != Connecting
    requires op == UserForceClose(c) || op == UserForceCloseWithDelay(c) || op == UserShutdown(c, inLoop)
    ensures Reached(Step(w, op), c, 2)
  {
    hide Held;
  }

  /** After shutdown, forceClose or forceCloseWithDelay on an established connection, no send and no
      shutdown has any effect, whatever happens in between. */
  lemma ClosingIsFinal(w: World, op: Op, ops: seq<Op>, c: ConnId, inLoop: bool)
    requires Inv(w) && Enabled(w, op) && Safe(w, op) && c in w.conns && w.conns[c].state != Connecting
    requires op == UserForceClose(c) || op == UserForceCloseWithDelay(c) || op == UserShutdown(c, inLoop)
    ensures Inv(Step(w, op)) && TakesNoCall(Steps(Step(w, op), ops), c)
  {
    StepKeepsInv(w, op);
    assert c < w.nextConnId by { assert ConnsInv(w); }
    hide *;
    ClosingCallReaches(w, op, c, inLoop);
    StateAdvances(Step(w, op), ops, c, 2);
    PastConnected(Steps(Step(w, op), ops), c);
  }

  /** `f` is in the loop's queue, or in its batch and has not run. */
  ghost predicate Waits(loops: seq<LoopState>, l: nat, f: Functor) {
    l < |loops| && f in loops[l].q.Waiting()
  }

  lemma WaitsThroughPost(w: World, k: nat, g: Functor, l: nat, f: Functor)
    requires Waits(w.loops, l, f)
    ensures Waits(Posted(w, k, g).loops, l, f)
  {
    if k < |w.loops| { QueueIsFifo(w.loops[k].q, g); }
  }

  lemma PostWaits(w: World, l: nat, f: Functor)
    requires l < |w.loops|
    ensures Waits(Posted(w, l, f).loops, l, f)
  {
    QueueIsFifo(w.loops[l].q, f);
    assert (w.loops[l].q.Waiting() + [f])[|w.loops[l].q.Waiting()|] == f;
  }

  /** The thread a send, shutdown or forceClose is called on goes on to push a functor exactly if the state
      allows the call and it is not done on the spot; and what is pushed, or posted, waits on the
      connection's own loop, behind all that waits there. */
  lemma CallsExactly(w: World, op: Op)
    requires Inv(w) && Enabled(w, op) && Safe(w, op)
    requires op.UserSend? || op.UserShutdown? || op.UserForceClose? || op.UserForceCloseWithDelay?
    ensures Step(w, op).calls == w.calls +
      match op
      case UserSend(c, inLoop) =>
        if Rank(w.conns[c].state) == 1 && !inLoop then multiset{PlainCall(c)} else multiset{}
      case UserShutdown(c, inLoop) =>
        if Rank(w.conns[c].state) == 1 && !inLoop then multiset{PlainCall(c)} else multiset{}
      case UserForceClose(c) => if Rank(w.conns[c].state) in {1, 2} then multiset{ForceCloseCall(c)} else multiset{}
      case _ => multiset{}
  {
    hide Held, Inv;
  }

  function QueueOf(w: World, l: nat): seq<Functor> {
    if l < |w.loops| then w.loops[l].q.Waiting() else []
  }

  lemma PushedWaits(w: World, op: Op)
    requires Inv(w) && Enabled(w, op) && Safe(w, op) && (op.Push? || op.PostNotify?)
    ensures var c := if op.Push? then op.call.c else op.c;
      && c in w.conns && w.conns[c].loop < |w.loops|
      && QueueOf(Step(w, op), w.conns[c].loop) == QueueOf(w, w.conns[c].loop)
        + [if op.PostNotify? then Notify(c) else if op.call.PlainCall? then Raw(c, c !in w.connections)
          else ForceClose(c)]
  {
    var c := if op.Push? then op.call.c else op.c;
    hide Inv, Enabled, Safe, Step;
    if op.Push? {
      PushIs(w, op.call);
      ErasedIfOut(w, c);
      LoopExists(w, c);
      PushAdds(w, op.call, c !in w.connections);
    } else {
      NotifyIs(w, c);
      LoopExists(w, c);
      NotifyAdds(w, c);
    }
    hide QueueOf, Posted;
  }

  lemma NotifyAdds(w: World, c: ConnId)
    requires c in w.conns && w.conns[c].loop < |w.loops|
    ensures var l := w.conns[c].loop; QueueOf(Posted(w, l, Notify(c)), l) == QueueOf(w, l) + [Notify(c)]
  {
    QueueIsFifo(w.loops[w.conns[c].loop].q, Notify(c));
  }

  lemma NotifyIs(w: World, c: ConnId)
    requires Enabled(w, PostNotify(c)) && Safe(w, PostNotify(c))
    ensures c in w.conns && Step(w, PostNotify(c)) == Posted(w, w.conns[c].loop, Notify(c))
  {
    hide Posted, Held;
  }

  lemma PushAdds(w: World, call: Call, late: bool)
    requires call.c in w.conns && w.conns[call.c].loop < |w.loops| && (late <==> w.conns[call.c].erased != 0)
    ensures var l := w.conns[call.c].loop; var f := if call.PlainCall? then Raw(call.c, late) else ForceClose(call.c);
      QueueOf(Posted(w.(calls := w.calls - multiset{call}), l, Pushed(w, call)), l) == QueueOf(w, l) + [f]
  {
    QueueIsFifo(w.loops[w.conns[call.c].loop].q, Pushed(w, call));
  }

  /** poll may report a connection exactly while its interest is on. */
  lemma InterestDecides(w: World, c: ConnId, watching: bool)
    requires Inv(w) && Enabled(w, SetInterest(c, watching)) && Safe(w, SetInterest(c, watching))
    ensures c in w.conns
    ensures Reportable(Step(w, SetInterest(c, watching)), w.conns[c].loop, c) <==> watching
  {
    hide Inv, Enabled, Safe, Step;
    InterestIs(w, c, watching);
    OpenIsRegistered(w, c);
  }

  lemma InterestIs(w: World, c: ConnId, watching: bool)
    requires Enabled(w, SetInterest(c, watching)) && Safe(w, SetInterest(c, watching))
    ensures c in w.conns && Open(w.conns[c])
    ensures Step(w, SetInterest(c, watching)) == SetConn(w, c, w.conns[c].(watching := watching))
  {
    hide Held;
  }

  lemma OpenIsRegistered(w: World, c: ConnId)
    requires Inv(w) && c in w.conns && Open(w.conns[c])
    ensures w.conns[c].registered
  {
    ConnFacts(w, c);
    hide Inv, Count, ConnsInv;
  }

  lemma ErasedIfOut(w: World, c: ConnId)
    requires Inv(w) && c in w.conns
    ensures w.conns[c].erased != 0 <==> c !in w.connections
  {
    ConnFacts(w, c);
    hide Inv, Count;
  }

  lemma WaitsThroughRun(w: World, k: nat, g: Functor, l: nat, f: Functor)
    requires g.c in w.conns && Waits(w.loops, l, f)
    ensures Waits(WithRun(w, k, g).loops, l, f)
  {
    WaitsThroughClose(w, k, g.c, l, f);
    WaitsThroughPost(w, w.conns[g.c].loop, Destroy(g.c), l, f);
    hide Waits;
  }

  lemma WaitsThroughClose(w: World, k: nat, c: ConnId, l: nat, f: Functor)
    requires c in w.conns && Waits(w.loops, l, f)
    ensures Waits(WithClosed(w, k, c).loops, l, f)
  {
    WaitsThroughPost(w, w.conns[c].loop, Destroy(c), l, f);
    WaitsThroughPost(w, 0, Remove(c), l, f);
    hide Waits;
  }

  lemma WaitsThroughAccept(w: World, ioLoop: nat, l: nat, f: Functor)
    requires ioLoop < |w.loops| && Waits(w.loops, l, f)
    ensures Waits(WithAccepted(w, ioLoop).loops, l, f)
  {
    WaitsThroughPost(Entered(w, ioLoop), ioLoop, Establish(w.nextConnId), l, f);
    hide Waits;
  }

  /** The loop's own steps: only running it takes a functor out. */
  lemma WaitsThroughLoop(w: World, op: Op, l: nat, f: Functor)
    requires LoopsInv(w) && Enabled(w, op) && Waits(w.loops, l, f)
    requires op.PollReturn? || op.EnterFunctors? || op.LeaveFunctors?
    ensures Safe(w, op) && Waits(Step(w, op).loops, l, f)
  {
    QueueFacts(w, op.l);
    QueueIsFifo(w.loops[op.l].q, f);
    hide LoopsInv, Reportable;
  }

  lemma QueueFacts(w: World, l: nat)
    requires LoopsInv(w) && l < |w.loops|
    ensures w.loops[l].phase != Calling ==> w.loops[l].q.batch == [] && w.loops[l].q.next == 0
  {
    assert QueueInv(w, l, w.loops[l].q) && PhaseInv(w, l, w.loops[l]);
    hide RawFirst, FunctorInv;
  }

  lemma WaitsThroughNext(w: World, k: nat, l: nat, f: Functor)
    requires Enabled(w, RunNext(k)) && Safe(w, RunNext(k)) && Waits(w.loops, l, f)
    ensures Waits(Step(w, RunNext(k)).loops, l, f) || (k == l && w.loops[k].q.batch[w.loops[k].q.next] == f)
  {
    var g := w.loops[k].q.batch[w.loops[k].q.next];
    var w' := SetLoop(w, k, w.loops[k].(q := w.loops[k].q.Advanced()));
    QueueIsFifo(w.loops[k].q, f);
    if k != l || g != f {
      assert Waits(w'.loops, l, f);
      WaitsThroughRun(w', k, g, l, f);
    }
    hide Waits, WithRun;
  }

  lemma WaitsByStep(w: World, op: Op, l: nat, f: Functor)
    requires Inv(w) && Enabled(w, op) && Safe(w, op) && Waits(w.loops, l, f)
    ensures Waits(Step(w, op).loops, l, f) || (op == RunNext(l) && w.loops[l].q.batch[w.loops[l].q.next] == f)
  {
    assert LoopsInv(w);
    hide Inv, LoopsInv, Enabled, Safe, Step, Waits;
    match op
    case Accept(_) => WaitsThroughEvent(w, op, l, f);
    case Event(_, _, _) => WaitsThroughEvent(w, op, l, f);
    case PollReturn(_, _) => WaitsThroughLoop(w, op, l, f);
    case EnterFunctors(_) => WaitsThroughLoop(w, op, l, f);
    case LeaveFunctors(_) => WaitsThroughLoop(w, op, l, f);
    case RunNext(k) => WaitsThroughNext(w, k, l, f);
    case Push(_) => WaitsThroughPush(w, op, l, f);
    case PostNotify(_) => WaitsThroughPush(w, op, l, f);
    case _ => QueuesStay(w, op);
  }

  lemma WaitsThroughEvent(w: World, op: Op, l: nat, f: Functor)
    requires Enabled(w, op) && Safe(w, op) && (op.Accept? || op.Event?) && Waits(w.loops, l, f)
    ensures Waits(Step(w, op).loops, l, f)
  {
    if op.Accept? {
      WaitsThroughAccept(w, op.ioLoop, l, f);
      hide Waits, WithAccepted;
    } else {
      var w' := SetLoop(w, op.l, w.loops[op.l].(todo := w.loops[op.l].todo - {op.c}));
      assert Waits(w'.loops, l, f);
      WaitsThroughClose(w', op.l, op.c, l, f);
      hide Waits, WithClosed;
    }
  }

  lemma WaitsThroughPush(w: World, op: Op, l: nat, f: Functor)
    requires Enabled(w, op) && Safe(w, op) && (op.Push? || op.PostNotify?) && Waits(w.loops, l, f)
    ensures Waits(Step(w, op).loops, l, f)
  {
    hide Held, Waits, Posted;
    if op.Push? {
      WaitsThroughPost(w.(calls := w.calls - multiset{op.call}), w.conns[op.call.c].loop, Pushed(w, op.call), l, f);
    } else {
      WaitsThroughPost(w, w.conns[op.c].loop, Notify(op.c), l, f);
    }
  }

  /** The other steps queue and run nothing. */
  lemma QueuesStay(w: World, op: Op)
    requires Enabled(w, op) && Safe(w, op)
    requires !op.Accept? && !op.PollReturn? && !op.EnterFunctors? && !op.LeaveFunctors? && !op.RunNext?
    requires !op.Event? && !op.Push? && !op.PostNotify?
    ensures Step(w, op).loops == w.loops
  {
    hide Held;
  }

  /** A forced close is done, or the call is about to push its functor, or that waits on the right loop. */
  ghost predicate ForceClosing(w: World, c: ConnId) {
    && c < w.nextConnId
    && (c in w.conns ==>
         && w.conns[c].established != 0
         && (w.conns[c].closed != 0 || ForceCloseCall(c) in w.calls || Waits(w.loops, w.conns[c].loop, ForceClose(c))))
  }

  /** Records only advance. */
  ghost predicate Advanced(w: World, t: World, c: ConnId) {
    && c < t.nextConnId
    && (c in t.conns ==>
         && c in w.conns && t.conns[c].loop == w.conns[c].loop
         && w.conns[c].established <= t.conns[c].established && w.conns[c].closed <= t.conns[c].closed)
  }

  lemma RunAdvances(w: World, l: nat, f: Functor, c: ConnId)
    requires f.c in w.conns && c < w.nextConnId
    ensures Advanced(w, WithRun(w, l, f), c) && Advanced(w, WithClosed(w, l, f.c), c)
  {
  }

  lemma OthersAdvance(w: World, op: Op, c: ConnId)
    requires Enabled(w, op) && Safe(w, op) && c < w.nextConnId && !op.RunNext? && !op.Event?
    ensures Advanced(w, Step(w, op), c)
  {
    hide Held, WithRun, WithClosed, SafeFunctor, Forgotten, Reportable;
  }

  lemma RecordsAdvance(w: World, op: Op, c: ConnId)
    requires Enabled(w, op) && Safe(w, op) && c < w.nextConnId
    ensures Advanced(w, Step(w, op), c)
  {
    hide Held, WithRun, WithClosed;
    if op.RunNext? {
      var f := w.loops[op.l].q.batch[w.loops[op.l].q.next];
      RunAdvances(SetLoop(w, op.l, w.loops[op.l].(q := w.loops[op.l].q.Advanced())), op.l, f, c);
    } else if op.Event? {
      RunAdvances(SetLoop(w, op.l, w.loops[op.l].(todo := w.loops[op.l].todo - {op.c})), op.l, ForceClose(op.c), c);
    } else {
      OthersAdvance(w, op, c);
      hide Step, Enabled, Safe;
    }
  }

  /** The functor closes its connection, unless something else has. */
  lemma ForceCloseRuns(w: World, l: nat, c: ConnId)
    requires Inv(w) && Enabled(w, RunNext(l)) && Safe(w, RunNext(l)) && c in w.conns
    requires w.conns[c].established != 0 && w.conns[c].closed == 0
    requires w.loops[l].q.batch[w.loops[l].q.next] == ForceClose(c)
    ensures c in Step(w, RunNext(l)).conns && Step(w, RunNext(l)).conns[c].closed != 0
  {
    NotClosedIsOpen(w, c);
    hide Inv, Open;
    ForceCloseWorks(SetLoop(w, l, w.loops[l].(q := w.loops[l].q.Advanced())), l, c);
    hide WithRun;
  }

  lemma ForceCloseWorks(w: World, l: nat, c: ConnId)
    requires c in w.conns && Open(w.conns[c])
    ensures c in WithRun(w, l, ForceClose(c)).conns && WithRun(w, l, ForceClose(c)).conns[c].closed != 0
  {
  }

  lemma NotClosedIsOpen(w: World, c: ConnId)
    requires Inv(w) && c in w.conns && w.conns[c].established != 0 && w.conns[c].closed == 0
    ensures Open(w.conns[c])
  {
    ConnFacts(w, c);
    hide Inv, ConnsInv, Count;
  }

  lemma CallsStay(w: World, op: Op, call: Call)
    requires Enabled(w, op) && Safe(w, op) && call in w.calls
    ensures call in Step(w, op).calls || op == Push(call)
  {
    hide Held;
  }

  lemma ForceClosingByStep(w: World, op: Op, c: ConnId)
    requires Inv(w) && Enabled(w, op) && Safe(w, op) && ForceClosing(w, c)
    ensures ForceClosing(Step(w, op), c)
  {
    RecordsAdvance(w, op, c);
    hide Inv, Enabled, Safe, Step, Waits;
    if c in Step(w, op).conns && w.conns[c].closed == 0 {
      if ForceCloseCall(c) in w.calls {
        CallsStay(w, op, ForceCloseCall(c));
        if op == Push(ForceCloseCall(c)) { ForceCloseIsPushed(w, c); }
      } else {
        WaitingForceClose(w, op, c);
      }
    }
  }

  lemma WaitingForceClose(w: World, op: Op, c: ConnId)
    requires Inv(w) && Enabled(w, op) && Safe(w, op) && c in w.conns && c in Step(w, op).conns
    requires w.conns[c].established != 0 && w.conns[c].closed == 0 && Waits(w.loops, w.conns[c].loop, ForceClose(c))
    ensures Step(w, op).conns[c].closed != 0 || Waits(Step(w, op).loops, w.conns[c].loop, ForceClose(c))
  {
    var l := w.conns[c].loop;
    hide Inv, Enabled, Safe, Step, Waits;
    WaitsByStep(w, op, l, ForceClose(c));
    if !Waits(Step(w, op).loops, l, ForceClose(c)) { ForceCloseRuns(w, l, c); }
  }

  lemma ForceCloseIsPushed(w: World, c: ConnId)
    requires Inv(w) && Enabled(w, Push(ForceCloseCall(c))) && Safe(w, Push(ForceCloseCall(c)))
    ensures c in w.conns && Waits(Step(w, Push(ForceCloseCall(c))).loops, w.conns[c].loop, ForceClose(c))
  {
    PushIs(w, ForceCloseCall(c));
    LoopExists(w, c);
    hide *;
    PostWaits(w.(calls := w.calls - multiset{ForceCloseCall(c)}), w.conns[c].loop, ForceClose(c));
  }

  lemma PushIs(w: World, call: Call)
    requires Enabled(w, Push(call)) && Safe(w, Push(call))
    ensures call.c in w.conns
    ensures Step(w, Push(call)) == Posted(w.(calls := w.calls - multiset{call}), w.conns[call.c].loop, Pushed(w, call))
    ensures call.ForceCloseCall? ==> Pushed(w, call) == ForceClose(call.c)
  {
    hide Posted;
  }

  lemma LoopExists(w: World, c: ConnId)
    requires Inv(w) && c in w.conns
    ensures w.conns[c].loop < |w.loops|
  {
    assert ConnsInv(w);
    hide ConnInv, Count, LoopsInv;
  }

  lemma {:induction false} StaysForceClosing(w: World, ops: seq<Op>, c: ConnId)
    requires Inv(w) && ForceClosing(w, c)
    ensures ForceClosing(Steps(w, ops), c)
    decreases |ops|
  {
    hide Inv, Enabled, Safe, Step, ForceClosing;
    if ops != [] && !Enabled(w, ops[0]) {
      StaysForceClosing(w, ops[1..], c);
    } else if ops != [] && Safe(w, ops[0]) {
      StepKeepsInv(w, ops[0]);
      ForceClosingByStep(w, ops[0], c);
      StaysForceClosing(Step(w, ops[0]), ops[1..], c);
    }
  }

  /** forceClose on an open connection is not forgotten: over every run that follows, the connection has
      closed, or its functor is about to be pushed, or waits on its loop; and when it runs it closes. */
  lemma ForceCloseCloses(w: World, c: ConnId, ops: seq<Op>)
    requires Inv(w) && Enabled(w, UserForceClose(c)) && Safe(w, UserForceClose(c)) && Open(w.conns[c])
    ensures Inv(Step(w, UserForceClose(c)))
    ensures ForceClosing(Steps(Step(w, UserForceClose(c)), ops), c)
  {
    StepKeepsInv(w, UserForceClose(c));
    assert ConnsInv(w);
    ConnFacts(w, c);
    OpenIsEstablished(w, c);
    assert ForceClosing(Step(w, UserForceClose(c)), c) by { hide Inv, ConnsInv, Count, Held; }
    StaysForceClosing(Step(w, UserForceClose(c)), ops, c);
    hide *;
  }

  // ---- Plain functors pushed late ------------------------------------------------------------------------------

  /** A send or shutdown from another thread pushes a late functor exactly if its connection has left
      connections_ since the call tested its state; one that is not late is always safe to run. */
  lemma LateExactly(w: World, c: ConnId)
    requires Inv(w) && PlainCall(c) in w.calls
    ensures c in w.conns && (Late(Pushed(w, PlainCall(c))) <==> c !in w.connections)
  {
    ConnFacts(w, c);
    hide Core, ConnsInv, Count;
  }

  /** When a late functor comes to run, it finds its connection alive, however promptly connections
      without a holder are destructed, exactly if somebody holds it then: the user, a call under way, or
      a functor that is queued or in a batch not yet destroyed.  A step can only destruct what nobody
      holds, so this is EnabledIsSafe at such a functor, read for the holder; KeptIsAlive carries it over
      runs. */
  lemma LateIsSafeExactly(w: World, l: nat)
    requires Inv(w) && Enabled(w, RunNext(l)) && Late(w.loops[l].q.batch[w.loops[l].q.next])
    ensures var c := w.loops[l].q.batch[w.loops[l].q.next].c;
      Safe(w, RunNext(l)) && !Enabled(w, Destruct(c)) <==> Held(w, c)
  {
    var c := w.loops[l].q.batch[w.loops[l].q.next].c;
    hide Inv, Held, Safe;
    EnabledIsSafe(w, RunNext(l));
    if Held(w, c) { HeldIsLive(w, c); }
    DestructEnabled(w, c);
    DanglesIs(w, l);
    hide *;
  }

  lemma DestructEnabled(w: World, c: ConnId)
    ensures Enabled(w, Destruct(c)) <==> c in w.conns && !Held(w, c)
  {
    hide Held;
  }

  lemma DanglesIs(w: World, l: nat)
    requires Enabled(w, RunNext(l))
    ensures l < |w.loops| && w.loops[l].q.next < |w.loops[l].q.batch|
    ensures var f := w.loops[l].q.batch[w.loops[l].q.next]; Dangles(w, RunNext(l)) <==> Late(f) && f.c !in w.conns
  {
  }

  /** In particular, if the caller keeps its pointer until the functor has run. */
  lemma {:induction false} KeptIsAlive(w: World, ops: seq<Op>, c: ConnId)
    requires Inv(w) && c in w.users && UserDrop(c) !in ops
    ensures c in Steps(w, ops).users && c in Steps(w, ops).conns
    decreases |ops|
  {
    if ops == [] {
      HeldIsLive(w, c);
    } else if !Enabled(w, ops[0]) {
      KeptIsAlive(w, ops[1..], c);
    } else if !Safe(w, ops[0]) {
      HeldIsLive(w, c);
    } else {
      StepKeepsInv(w, ops[0]);
      KeptByStep(w, ops[0], c);
      KeptIsAlive(Step(w, ops[0]), ops[1..], c);
    }
  }

  lemma KeptByStep(w: World, op: Op, c: ConnId)
    requires Enabled(w, op) && Safe(w, op) && c in w.users && op != UserDrop(c)
    ensures c in Step(w, op).users
  {
    hide Held;
  }

  ghost predicate Reaches(w: World, w': World) {
    Inv(w) && exists ops :: Steps(w, ops) == w'
  }

  lemma StepsFrom(w: World, op: Op, rest: seq<Op>)
    requires Inv(w) && Enabled(w, op) && Safe(w, op) && Inv(Step(w, op))
    ensures Steps(w, [op] + rest) == Steps(Step(w, op), rest)
  {
    hide Inv, Enabled, Safe, Step;
    assert ([op] + rest)[0] == op && ([op] + rest)[1..] == rest;
  }

  lemma ReachesBy(w: World, op: Op, next: World, w': World)
    requires Enabled(w, op) && Safe(w, op) && next == Step(w, op)
    requires Inv(next) ==> Reaches(next, w')
    ensures Inv(w) ==> Reaches(w, w')
  {
    hide Inv, Enabled, Safe, Step;
    if Inv(w) {
      StepKeepsInv(w, op);
      var rest :| Steps(next, rest) == w';
      StepsFrom(w, op, rest);
      assert Steps(w, [op] + rest) == w';
    }
  }

  /** A server without I/O loops and its first connection. */
  function Solo(k: Conn, inMap: bool, q: FunctorQueue<Functor>, phase: Phase, active: set<ConnId>, todo: set<ConnId>,
                calls: multiset<Call>): World
  {
    World(map[1 := k], if inMap then {1} else {}, 2, [LoopState(q, phase, active, todo)], {}, calls)
  }

  const IDLE: FunctorQueue<Functor> := FunctorQueue([], [], 0)
  const OPENED: Conn := Conn(0, Connected, true, true, 1, 0, 0, 0)
  const CLOSED: Conn := Conn(0, Disconnected, true, false, 1, 1, 1, 0)
  const DESTROYED: Conn := Conn(0, Disconnected, false, false, 1, 1, 1, 1)
  const AWAIT: FunctorQueue<Functor> := FunctorQueue([Raw(1, true)], [], 0)
  const CALL: multiset<Call> := multiset{PlainCall(1)}

  const W1: World := Server(0).(loops := [LoopState(IDLE, Handling, {}, {})])
  const W2: World := Solo(OPENED, true, IDLE, Handling, {}, {}, multiset{})
  const W3: World := Solo(OPENED, true, IDLE, Handling, {}, {}, CALL)
  const W4: World := Solo(OPENED, true, IDLE, Calling, {}, {}, CALL)
  const W5: World := Solo(OPENED, true, IDLE, Outside, {}, {}, CALL)
  const W6: World := Solo(OPENED, true, IDLE, Handling, {1}, {1}, CALL)
  const W7: World := Solo(CLOSED, false, FunctorQueue([Destroy(1)], [], 0), Handling, {1}, {}, CALL)
  const W8: World := Solo(CLOSED, false, FunctorQueue([], [Destroy(1)], 0), Calling, {1}, {}, CALL)
  const W9: World := Solo(DESTROYED, false, FunctorQueue([], [Destroy(1)], 1), Calling, {1}, {}, CALL)
  const W10: World := Solo(DESTROYED, false, IDLE, Outside, {1}, {}, CALL)
  const W11: World := Solo(DESTROYED, false, AWAIT, Outside, {1}, {}, multiset{})
  const W12: World := World(map[], {}, 2, [LoopState(AWAIT, Outside, {1}, {})], {}, multiset{})
  const W13: World := World(map[], {}, 2, [LoopState(AWAIT, Handling, {}, {})], {}, multiset{})
  const GONE: World :=
    World(map[], {}, 2, [LoopState(FunctorQueue([], [Raw(1, true)], 0), Calling, {}, {})], {}, multiset{})

  ghost predicate Goes(w: World, op: Op, next: World) {
    Enabled(w, op) && Safe(w, op) && Step(w, op) == next
  }

  lemma FirstConnection()
    ensures Goes(Server(0), PollReturn(0, {}), W1) && Goes(W1, Accept(0), W2)
  {
  }

  lemma SendIsUnderWay()
    ensures Goes(W2, UserSend(1, false), W3)
  {
    assert 1 in W2.connections;
  }

  lemma LoopTurns()
    ensures Goes(W3, EnterFunctors(0), W4) && Goes(W4, LeaveFunctors(0), W5) && Goes(W5, PollReturn(0, {1}), W6)
  {
  }

  lemma PeerCloses()
    ensures Goes(W6, Event(0, 1, PeerClosed), W7) && Goes(W7, EnterFunctors(0), W8)
  {
    assert IDLE.pending + [Destroy(1)] == [Destroy(1)];
    assert W6.loops[0].todo - {1} == {};
    assert IDLE.Pushed(Destroy(1)) == W7.loops[0].q;
    var w := Step(W6, Event(0, 1, PeerClosed));
    assert w.conns == W7.conns && w.connections == W7.connections;
    assert w.loops == W7.loops;
  }

  lemma LoopDestroys()
    ensures Goes(W8, RunNext(0), W9) && Goes(W9, LeaveFunctors(0), W10)
  {
  }

  lemma CallerPushes()
    ensures Goes(W10, Push(PlainCall(1)), W11)
  {
    assert CALL - CALL == multiset{};
    assert IDLE.pending + [Raw(1, true)] == [Raw(1, true)];
    assert IDLE.Pushed(Raw(1, true)) == AWAIT;
    var w := Step(W10, Push(PlainCall(1)));
    assert w.calls == W11.calls && w.conns == W11.conns;
    assert w.loops == W11.loops;
  }

  lemma ObjectGoes()
    ensures Goes(W11, Destruct(1), W12)
  {
    assert forall f: Functor :: HoldsFunctor(f, 1) ==> f !in W11.loops[0].q.pending + W11.loops[0].q.batch;
  }

  lemma LoopTurnsAgain()
    ensures Goes(W12, PollReturn(0, {}), W13) && Goes(W13, EnterFunctors(0), GONE)
  {
  }

  lemma GoneDangles()
    ensures Dangles(GONE, RunNext(0)) && !Safe(GONE, RunNext(0))
  {
  }

  lemma ReachesItself(w: World)
    ensures Inv(w) ==> Reaches(w, w)
  {
    hide Inv;
    if Inv(w) { assert Steps(w, []) == w; }
  }

  lemma GoesReaches(w: World, op: Op, next: World, w': World)
    requires Goes(w, op, next) && (Inv(next) ==> Reaches(next, w'))
    ensures Inv(w) ==> Reaches(w, w')
  {
    hide Enabled, Safe, Step, Inv, Reaches;
    ReachesBy(w, op, next, w');
  }

  /** Such a run: another thread's send passes its test; the peer closes, and the loop erases and
      destroys the connection; the thread pushes its functor and returns; the functor's object is gone
      when it runs. */
  lemma LateSendDangles()
    ensures Reaches(Server(0), GONE) && Dangles(GONE, RunNext(0)) && !Safe(GONE, RunNext(0))
  {
    FirstConnection(); SendIsUnderWay(); LoopTurns(); PeerCloses(); LoopDestroys(); CallerPushes(); ObjectGoes();
    LoopTurnsAgain(); GoneDangles();
    hide *;
    ReachesItself(GONE);
    GoesReaches(W13, EnterFunctors(0), GONE, GONE);
    GoesReaches(W12, PollReturn(0, {}), W13, GONE);
    GoesReaches(W11, Destruct(1), W12, GONE);
    GoesReaches(W10, Push(PlainCall(1)), W11, GONE);
    GoesReaches(W9, LeaveFunctors(0), W10, GONE);
    GoesReaches(W8, RunNext(0), W9, GONE);
    GoesReaches(W7, EnterFunctors(0), W8, GONE);
    GoesReaches(W6, Event(0, 1, PeerClosed), W7, GONE);
    GoesReaches(W5, PollReturn(0, {1}), W6, GONE);
    GoesReaches(W4, LeaveFunctors(0), W5, GONE);
    GoesReaches(W3, EnterFunctors(0), W4, GONE);
    GoesReaches(W2, UserSend(1, false), W3, GONE);
    GoesReaches(W1, Accept(0), W2, GONE);
    GoesReaches(Server(0), PollReturn(0, {}), W1, GONE);
  }

  // ---- The class ------------------------------------------------------------------------------------------------

  /** Taking the next functor off the batch leaves it safe to run. */
  lemma TakenIsSafe(w: World, l: nat)
    requires Inv(w) && Enabled(w, RunNext(l)) && !Dangles(w, RunNext(l))
    ensures l < |w.loops| && w.loops[l].q.next < |w.loops[l].q.batch| && Safe(w, RunNext(l))
    ensures var s := w.loops[l]; var f := s.q.batch[s.q.next];
            var w' := SetLoop(w, l, s.(q := s.q.Advanced()));
      && SafeFunctor(w', l, f) && f.c in w'.conns && w'.conns[f.c].loop < |w'.loops|
      && (f.ForceClose? && Open(w'.conns[f.c]) ==> f.c in w'.connections)
      && Step(w, RunNext(l)) == WithRun(w', l, f)
  {
    DanglesIs(w, l);
    EnabledIsSafe(w, RunNext(l));
    var c := w.loops[l].q.batch[w.loops[l].q.next].c;
    assert ConnsInv(w);
    hide Inv, ConnsInv, Count, Dangles, Held;
    RunNextIs(w, l);
    hide Enabled, Safe, Step, SafeFunctor, WithRun;
    ConnFacts(w, c);
  }

  lemma RunNextIs(w: World, l: nat)
    requires Enabled(w, RunNext(l)) && Safe(w, RunNext(l))
    ensures l < |w.loops| && w.loops[l].q.next < |w.loops[l].q.batch|
    ensures var s := w.loops[l]; var f := s.q.batch[s.q.next];
            var w' := SetLoop(w, l, s.(q := s.q.Advanced()));
      SafeFunctor(w', l, f) && f.c in w.conns && Step(w, RunNext(l)) == WithRun(w', l, f)
  {
    hide Held, WithRun;
  }

  /** The server with its loops' queues and its connections' records; the methods are the source's
      functions, run by the thread of the loop named. */
  class TcpServer {
    var conns: map<ConnId, Conn>
    var connections: set<ConnId>
    var nextConnId: ConnId
    var loops: seq<LoopState>
    var users: set<ConnId>
    var calls: multiset<Call>

    ghost function Snapshot(): World
      reads this
    {
      World(conns, connections, nextConnId, loops, users, calls)
    }

    constructor (ioLoops: nat)
      ensures Snapshot() == Server(ioLoops) && Inv(Snapshot())
    {
      conns, connections, nextConnId, users, calls := map[], {}, 1, {}, multiset{};
      loops := seq(ioLoops + 1, _ => LoopState(FunctorQueue([], [], 0), Outside, {}, {}));
    }

    method QueueInLoop(l: nat, f: Functor)
      requires l < |loops|
      modifies this`loops
      ensures Snapshot() == Posted(old(Snapshot()), l, f)
    {
      loops := loops[l := loops[l].(q := loops[l].q.Pushed(f))];
    }

    /** TcpServer::newConnection, on the base loop. */
    method NewConnection(ioLoop: nat)
      requires Inv(Snapshot()) && ioLoop < |loops|
      modifies this`conns, this`connections, this`nextConnId, this`loops
      ensures Inv(Snapshot()) && Snapshot() == WithAccepted(old(Snapshot()), ioLoop)
    {
      AcceptKeepsInv(Snapshot(), ioLoop);
      AcceptIsOnward(Snapshot(), ioLoop);
      CallsFrame(Snapshot(), WithAccepted(Snapshot(), ioLoop));
      hide Core, CallsInv;
      var c := EnterConnection(ioLoop);
      if ioLoop == 0 {
        ConnectEstablished(c);
      } else {
        QueueInLoop(ioLoop, Establish(c));
      }
    }

    /** The new TcpConnection and its entry in connections_. */
    method EnterConnection(ioLoop: nat) returns (c: ConnId)
      modifies this`conns, this`connections, this`nextConnId
      ensures c == old(nextConnId) && Snapshot() == Entered(old(Snapshot()), ioLoop)
    {
      c := nextConnId;
      nextConnId := nextConnId + 1;
      conns := conns[c := Conn(ioLoop, Connecting, false, false, 0, 0, 0, 0)];
      connections := connections + {c};
    }

    /** TcpConnection::connectEstablished. */
    method ConnectEstablished(c: ConnId)
      requires c in conns && conns[c].state == Connecting
      modifies this`conns
      ensures Snapshot() == WithEstablished(old(Snapshot()), c)
    {
      var k := conns[c];
      conns := conns[c := k.(state := Connected, registered := true, watching := true,
                             established := k.established + 1)];
    }

    /** TcpConnection::connectDestroyed; removing the channel needs its interest to be empty. */
    method ConnectDestroyed(c: ConnId)
      requires c in conns && conns[c].registered && !conns[c].watching
      modifies this`conns
      ensures Snapshot() == WithDestroyed(old(Snapshot()), c)
    {
      var k := conns[c];
      if k.state == Connected {
        k := k.(state := Disconnected, watching := false);
      }
      assert !k.watching;
      conns := conns[c := k.(registered := false, destroyed := k.destroyed + 1)];
    }

    /** TcpServer::removeConnectionInLoop; the erase finds exactly one entry. */
    method RemoveConnectionInLoop(c: ConnId)
      requires c in conns && c in connections && conns[c].loop < |loops|
      modifies this`conns, this`connections, this`loops
      ensures Snapshot() == WithRemoved(old(Snapshot()), c)
    {
      assert c in connections;
      connections := connections - {c};
      conns := conns[c := conns[c].(erased := conns[c].erased + 1)];
      QueueInLoop(conns[c].loop, Destroy(c));
    }

    /** TcpConnection::handleClose, whose close callback is TcpServer::removeConnection. */
    method HandleClose(l: nat, c: ConnId)
      requires c in conns && c in connections && Open(conns[c]) && conns[c].loop < |loops| && |loops| > 0
      modifies this`conns, this`connections, this`loops
      ensures Snapshot() == WithClosed(old(Snapshot()), l, c)
    {
      assert conns[c].state == Connected || conns[c].state == Disconnecting;
      conns := conns[c := conns[c].(state := Disconnected, watching := false, closed := conns[c].closed + 1)];
      if l == 0 {
        RemoveConnectionInLoop(c);
      } else {
        QueueInLoop(0, Remove(c));
      }
    }

    /** `functor()`: what each callee requires is what the source asserts. */
    method RunFunctor(l: nat, f: Functor)
      requires l < |loops| && SafeFunctor(Snapshot(), l, f) && conns[f.c].loop < |loops|
      requires f.ForceClose? && Open(conns[f.c]) ==> f.c in connections
      modifies this`conns, this`connections, this`loops
      ensures Snapshot() == WithRun(old(Snapshot()), l, f)
    {
      match f
      case Establish(c) => ConnectEstablished(c);
      case Remove(c) => RemoveConnectionInLoop(c);
      case Destroy(c) => ConnectDestroyed(c);
      case ForceClose(c) => if Open(conns[c]) { HandleClose(l, c); }
      case Notify(_) =>
      case Raw(_, _) =>
    }

    /** The next functor of doPendingFunctors on loop `l`; no assertion on the way can fail, unless the
        functor's object is gone. */
    method RunNextFunctor(l: nat)
      requires Inv(Snapshot()) && Enabled(Snapshot(), RunNext(l)) && !Dangles(Snapshot(), RunNext(l))
      modifies this`conns, this`connections, this`loops
      ensures Inv(Snapshot())
      ensures Safe(old(Snapshot()), RunNext(l)) && Snapshot() == Step(old(Snapshot()), RunNext(l))
    {
      ghost var w := Snapshot();
      TakenIsSafe(w, l);
      StepKeepsInv(w, RunNext(l));
      hide *;
      TakeAndRun(l);
    }

    method TakeAndRun(l: nat)
      requires l < |loops| && loops[l].q.next < |loops[l].q.batch|
      requires var f := loops[l].q.batch[loops[l].q.next];
               var w := SetLoop(Snapshot(), l, loops[l].(q := loops[l].q.Advanced()));
               && SafeFunctor(w, l, f) && f.c in conns && conns[f.c].loop < |loops|
               && (f.ForceClose? && Open(conns[f.c]) ==> f.c in connections)
      modifies this`conns, this`connections, this`loops
      ensures Snapshot() == WithRun(SetLoop(old(Snapshot()), l, old(loops)[l].(q := old(loops)[l].q.Advanced())), l,
                                    old(loops[l].q.batch[loops[l].q.next]))
    {
      hide SafeFunctor, WithRun;
      var f := TakeFunctor(l);
      RunFunctor(l, f);
    }

    method TakeFunctor(l: nat) returns (f: Functor)
      requires l < |loops| && loops[l].q.next < |loops[l].q.batch|
      modifies this`loops
      ensures f == old(loops[l].q.batch[loops[l].q.next])
      ensures Snapshot() == SetLoop(old(Snapshot()), l, old(loops)[l].(q := old(loops)[l].q.Advanced()))
    {
      f := loops[l].q.batch[loops[l].q.next];
      loops := loops[l := loops[l].(q := loops[l].q.Advanced())];
    }
  }
}
