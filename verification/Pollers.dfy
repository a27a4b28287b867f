/** The two pollers (muduo/net/PollPoller.cpp, muduo/net/EPollPoller.cpp) and the channels they keep
    (muduo/net/Channel.cpp).

    Both poller states are functions of the updates and removals, written over any type of channel
    names; a failed assertion, or an epoll_ctl the kernel would refuse, is None.  Each is coupled to
    one abstract record of who is registered with what interest. */
module Pollers {
  import opened Common

  /** The read bits (POLLIN, POLLPRI) and the write bit are only ever set and cleared together. */
  datatype Events = Events(reading: bool, writing: bool)

  const NO_EVENTS: Events := Events(false, false)

  /** The bits of a received event mask. */
  datatype Flag = In | Pri | Out | Hup | RdHup | Err | Nval

  /** A channel's fields that pollers use. */
  datatype Chan = Chan(fd: nat, events: Events, index: int)

  datatype Op<C> = Update(channel: C, events: Events) | Remove(channel: C)

  // ---- The abstract record --------------------------------------------------------------------------------

  /** `bare` are the registered channels whose only update had no events, `gone` those once removed. */
  datatype Registry<C(==)> = Registry(fds: map<C, nat>, live: map<int, C>, interest: map<int, Events>,
    bare: set<C>, gone: set<C>)

  predicate Live<C(==)>(a: Registry<C>, c: C) {
    c in a.fds && a.fds[c] in a.live && a.live[a.fds[c]] == c
  }

  predicate Sound<C(==)>(a: Registry<C>) {
    && a.interest.Keys == a.live.Keys
    && (forall fd | fd in a.live :: a.live[fd] in a.fds && a.fds[a.live[fd]] == fd)
  }

  function Registered<C(==)>(a: Registry<C>, op: Op<C>): Registry<C>
    requires op.channel in a.fds
  {
    var c := op.channel;
    var fd := a.fds[c];
    match op
    case Update(_, e) =>
      a.(live := a.live[fd := c], interest := a.interest[fd := e],
         bare := if !Live(a, c) && e == NO_EVENTS then a.bare + {c} else a.bare - {c})
    case Remove(_) =>
      a.(live := a.live - {fd}, interest := a.interest - {fd}, bare := a.bare - {c}, gone := a.gone + {c})
  }

  /** What PollPoller accepts: no channel back after its removal, none removed that never had events. */
  predicate PollAccepts<C(==)>(a: Registry<C>, op: Op<C>) {
    op.channel in a.fds &&
    match op
    case Update(c, _) => Live(a, c) || (a.fds[c] !in a.live && c !in a.gone)
    case Remove(c) => Live(a, c) && a.fds[c] in a.interest && a.interest[a.fds[c]] == NO_EVENTS && c !in a.bare
  }

  /** What EPollPoller accepts. */
  predicate EpollAccepts<C(==)>(a: Registry<C>, op: Op<C>) {
    op.channel in a.fds &&
    match op
    case Update(c, _) => Live(a, c) || a.fds[c] !in a.live
    case Remove(c) => Live(a, c) && a.fds[c] in a.interest && a.interest[a.fds[c]] == NO_EVENTS
  }

  // ---- PollPoller --------------------------------------------------------------------------------------------

  datatype PollFd = PollFd(fd: int, events: Events, revents: set<Flag>)

  datatype PollState<C> = PollState(chans: map<C, Chan>, pollfds: seq<PollFd>, channels: map<int, C>)

  /** The fd that poll ignores in the place of `fd`; its own inverse. */
  function Negated(fd: int): (r: int)
    ensures fd == -r - 1 && (fd >= 0 <==> r < 0)
  {
    -fd - 1
  }

  function FdOf(slot: PollFd): (fd: int)
    ensures fd >= 0
  {
    if slot.fd < 0 then Negated(slot.fd) else slot.fd
  }

  function Indexed<C(==)>(chans: map<C, Chan>, c: C, i: int): map<C, Chan>
    requires c in chans
  {
    chans[c := chans[c].(index := i)]
  }

  /** updateChannel, once the channel's events are `e`. */
  function PollUpdate<C(==)>(s: PollState<C>, c: C, e: Events): Option<PollState<C>>
    requires c in s.chans
  {
    var ch := s.chans[c].(events := e);
    if ch.index < 0 then
      if ch.fd in s.channels then None else
      Some(PollState(s.chans[c := ch.(index := |s.pollfds|)], s.pollfds + [PollFd(ch.fd, e, {})],
        s.channels[ch.fd := c]))
    else
      if !(ch.fd in s.channels && s.channels[ch.fd] == c && ch.index < |s.pollfds|) then None else
      if s.pollfds[ch.index].fd != ch.fd && s.pollfds[ch.index].fd != Negated(ch.fd) then None else
      var fd := if e == NO_EVENTS then Negated(ch.fd) else ch.fd;
      Some(s.(chans := s.chans[c := ch], pollfds := s.pollfds[ch.index := PollFd(fd, e, {})]))
  }

  /** removeChannel: the last slot takes the removed one's place. */
  function PollRemove<C(==)>(s: PollState<C>, c: C): Option<PollState<C>>
    requires c in s.chans
  {
    var ch := s.chans[c];
    var last := |s.pollfds| - 1;
    if !(ch.fd in s.channels && s.channels[ch.fd] == c && ch.events == NO_EVENTS && 0 <= ch.index <= last)
      then None else
    if s.pollfds[ch.index].fd != Negated(ch.fd) || s.pollfds[ch.index].events != ch.events then None else
    var channels := s.channels - {ch.fd};
    if ch.index == last then Some(s.(pollfds := s.pollfds[..last], channels := channels)) else
    var end := FdOf(s.pollfds[last]);
    if !(end in channels && channels[end] in s.chans) then None else
    Some(PollState(Indexed(s.chans, channels[end], ch.index), s.pollfds[ch.index := s.pollfds[last]][..last], channels))
  }

  function PollStep<C(==)>(s: PollState<C>, op: Op<C>): Option<PollState<C>> {
    if op.channel !in s.chans then None else
    match op
    case Update(c, e) => PollUpdate(s, c, e)
    case Remove(c) => PollRemove(s, c)
  }

  predicate SlotOf<C(==)>(a: Registry<C>, s: PollState<C>, fd: int)
    requires Sound(a) && fd in a.live && a.live[fd] in s.chans
  {
    var c := a.live[fd];
    var ch := s.chans[c];
    && ch.fd == fd && ch.events == a.interest[fd] && 0 <= ch.index < |s.pollfds|
    && s.pollfds[ch.index].events == a.interest[fd]
    && s.pollfds[ch.index].fd == if a.interest[fd] == NO_EVENTS && c !in a.bare then Negated(fd) else fd
  }

  predicate OwnerOf<C(==)>(a: Registry<C>, s: PollState<C>, i: int)
    requires Sound(a) && s.chans.Keys == a.fds.Keys && 0 <= i < |s.pollfds|
  {
    var fd := FdOf(s.pollfds[i]);
    fd in a.live && s.chans[a.live[fd]].index == i
  }

  /** The map, the array and the back-indices are one bijection; a slot is negated exactly when its
      channel was updated to no events after it had been added. */
  predicate PollCoupled<C(==)>(a: Registry<C>, s: PollState<C>) {
    && Sound(a)
    && s.chans.Keys == a.fds.Keys && (forall c | c in s.chans :: s.chans[c].fd == a.fds[c])
    && s.channels == a.live
    && (forall c | c in s.chans :: s.chans[c].index < 0 <==> !Live(a, c) && c !in a.gone)
    && (forall fd | fd in a.live :: SlotOf(a, s, fd))
    && (forall i | 0 <= i < |s.pollfds| :: OwnerOf(a, s, i))
  }

  /** PollPoller's assertions hold exactly when the step is one it accepts. */
  lemma PollAcceptsExactly<C>(a: Registry<C>, s: PollState<C>, op: Op<C>)
    requires PollCoupled(a, s)
    ensures PollStep(s, op).Some? <==> PollAccepts(a, op)
  {
    if op.channel in a.fds && Live(a, op.channel) {
      assert SlotOf(a, s, a.fds[op.channel]);
      if op.Remove? && s.chans[op.channel].index < |s.pollfds| - 1 {
        assert OwnerOf(a, s, |s.pollfds| - 1);
      }
    }
  }

  /** An accepted update makes its channel a live one. */
  lemma UpdateRegisters<C>(a: Registry<C>, c: C, e: Events)
    requires Sound(a) && c in a.fds && (Live(a, c) || a.fds[c] !in a.live)
    ensures var a' := Registered(a, Update(c, e)); var fd := a.fds[c];
      && a' == a.(live := a.live[fd := c], interest := a.interest[fd := e], bare := a'.bare)
      && Sound(a') && (forall k :: Live(a', k) <==> k == c || Live(a, k))
  {
  }

  lemma PollUpdateOwners<C>(a: Registry<C>, s: PollState<C>, c: C, e: Events, i: nat)
    requires PollCoupled(a, s) && PollStep(s, Update(c, e)).Some? && Sound(Registered(a, Update(c, e)))
    requires i < |PollStep(s, Update(c, e)).value.pollfds|
    ensures var s' := PollStep(s, Update(c, e)).value;
      s'.chans.Keys == a.fds.Keys && OwnerOf(Registered(a, Update(c, e)), s', i)
  {
    assert i < |s.pollfds| ==> OwnerOf(a, s, i);
    if Live(a, c) { assert SlotOf(a, s, a.fds[c]); }
  }

  lemma PollUpdateSlots<C>(a: Registry<C>, s: PollState<C>, c: C, e: Events, fd: int)
    requires PollCoupled(a, s) && PollStep(s, Update(c, e)).Some? && Sound(Registered(a, Update(c, e)))
    requires fd in Registered(a, Update(c, e)).live
    ensures var a', s' := Registered(a, Update(c, e)), PollStep(s, Update(c, e)).value;
      a'.live[fd] in s'.chans && SlotOf(a', s', fd)
  {
    assert fd in a.live ==> SlotOf(a, s, fd);
    if Live(a, c) { assert SlotOf(a, s, a.fds[c]) && OwnerOf(a, s, s.chans[c].index); }
  }

  lemma PollUpdateRest<C>(a: Registry<C>, s: PollState<C>, c: C, e: Events)
    requires PollCoupled(a, s) && PollStep(s, Update(c, e)).Some?
    ensures var a', s' := Registered(a, Update(c, e)), PollStep(s, Update(c, e)).value;
      && Sound(a')
      && s'.chans.Keys == a'.fds.Keys && (forall k | k in s'.chans :: s'.chans[k].fd == a'.fds[k])
      && s'.channels == a'.live
      && (forall k | k in s'.chans :: s'.chans[k].index < 0 <==> !Live(a', k) && k !in a'.gone)
  {
    PollAcceptsExactly(a, s, Update(c, e));
    UpdateRegisters(a, c, e);
    if Live(a, c) { assert SlotOf(a, s, a.fds[c]) && s.channels[a.fds[c] := c] == s.channels; }
    hide SlotOf, OwnerOf, Registered, Sound;
  }

  lemma PollUpdateKeeps<C>(a: Registry<C>, s: PollState<C>, c: C, e: Events)
    requires PollCoupled(a, s) && PollStep(s, Update(c, e)).Some?
    ensures PollCoupled(Registered(a, Update(c, e)), PollStep(s, Update(c, e)).value)
  {
    var a', s' := Registered(a, Update(c, e)), PollStep(s, Update(c, e)).value;
    PollUpdateRest(a, s, c, e);
    hide SlotOf, OwnerOf, PollStep, Registered;
    forall i | 0 <= i < |s'.pollfds| ensures OwnerOf(a', s', i) { PollUpdateOwners(a, s, c, e, i); }
    forall fd | fd in a'.live ensures a'.live[fd] in s'.chans && SlotOf(a', s', fd) { PollUpdateSlots(a, s, c, e, fd); }
  }

  /** Swap-removal, on the slots below the last. */
  lemma PollRemoveOwners<C>(a: Registry<C>, s: PollState<C>, c: C, i: nat)
    requires PollCoupled(a, s) && PollStep(s, Remove(c)).Some? && i < |s.pollfds| - 1
    ensures var s' := PollStep(s, Remove(c)).value;
      i < |s'.pollfds| && s'.chans.Keys == a.fds.Keys && Sound(Registered(a, Remove(c)))
        && OwnerOf(Registered(a, Remove(c)), s', i)
  {
    assert OwnerOf(a, s, i) && OwnerOf(a, s, |s.pollfds| - 1) && OwnerOf(a, s, s.chans[c].index);
    assert SlotOf(a, s, a.fds[c]);
  }

  lemma PollRemoveSlots<C>(a: Registry<C>, s: PollState<C>, c: C, fd: int)
    requires PollCoupled(a, s) && PollStep(s, Remove(c)).Some? && fd in a.live && fd != a.fds[c]
    ensures var s' := PollStep(s, Remove(c)).value;
      a.live[fd] in s'.chans && Sound(Registered(a, Remove(c))) && SlotOf(Registered(a, Remove(c)), s', fd)
  {
    assert SlotOf(a, s, fd) && SlotOf(a, s, a.fds[c]);
    assert OwnerOf(a, s, s.chans[a.live[fd]].index) && OwnerOf(a, s, |s.pollfds| - 1);
  }

  lemma PollRemoveKeeps<C>(a: Registry<C>, s: PollState<C>, c: C)
    requires PollCoupled(a, s) && PollStep(s, Remove(c)).Some?
    ensures PollCoupled(Registered(a, Remove(c)), PollStep(s, Remove(c)).value)
  {
    var a', s' := Registered(a, Remove(c)), PollStep(s, Remove(c)).value;
    forall i | 0 <= i < |s'.pollfds| ensures OwnerOf(a', s', i) {
      PollRemoveOwners(a, s, c, i);
    }
    forall fd | fd in a'.live ensures a'.live[fd] in s'.chans && SlotOf(a', s', fd) {
      PollRemoveSlots(a, s, c, fd);
    }
    PollRemoveRest(a, s, c);
    hide SlotOf, OwnerOf, PollStep;
  }

  lemma PollRemoveRest<C>(a: Registry<C>, s: PollState<C>, c: C)
    requires PollCoupled(a, s) && PollStep(s, Remove(c)).Some?
    ensures var a', s' := Registered(a, Remove(c)), PollStep(s, Remove(c)).value;
      && s'.chans.Keys == a'.fds.Keys && (forall k | k in s'.chans :: s'.chans[k].fd == a'.fds[k])
      && s'.channels == a'.live && |s'.pollfds| == |s.pollfds| - 1
      && (forall k | k in s'.chans :: s'.chans[k].index < 0 <==> !Live(a', k) && k !in a'.gone)
  {
    assert OwnerOf(a, s, |s.pollfds| - 1);
    hide SlotOf;
  }

  // ---- EPollPoller -----------------------------------------------------------------------------------------

  const NEW: int := -1
  const ADDED: int := 1
  const DELETED: int := 2

  datatype Ctl = Add | Mod | Del

  /** `kernel` is the epoll instance's interest set. */
  datatype EpollState<C> = EpollState(chans: map<C, Chan>, channels: map<int, C>, kernel: map<int, (C, Events)>)

  /** epoll_ctl: ADD wants the fd absent, MOD and DEL want it present. */
  function EpollCtl<C(==)>(s: EpollState<C>, op: Ctl, c: C): Option<EpollState<C>>
    requires c in s.chans
  {
    var ch := s.chans[c];
    match op
    case Add => if ch.fd in s.kernel then None else Some(s.(kernel := s.kernel[ch.fd := (c, ch.events)]))
    case Mod => if ch.fd in s.kernel then Some(s.(kernel := s.kernel[ch.fd := (c, ch.events)])) else None
    case Del => if ch.fd in s.kernel then Some(s.(kernel := s.kernel - {ch.fd})) else None
  }

  function EpollUpdate<C(==)>(s: EpollState<C>, c: C, e: Events): Option<EpollState<C>>
    requires c in s.chans
  {
    var ch := s.chans[c].(events := e);
    var s1 := s.(chans := s.chans[c := ch]);
    var known := ch.fd in s.channels && s.channels[ch.fd] == c;
    if ch.index == NEW then
      if ch.fd in s.channels then None else
      EpollCtl(s1.(chans := Indexed(s1.chans, c, ADDED), channels := s1.channels[ch.fd := c]), Add, c)
    else if ch.index == DELETED then
      if !known then None else EpollCtl(s1.(chans := Indexed(s1.chans, c, ADDED)), Add, c)
    else
      if !known || ch.index != ADDED then None
      else if e == NO_EVENTS then EpollCtl(s1.(chans := Indexed(s1.chans, c, DELETED)), Del, c)
      else EpollCtl(s1, Mod, c)
  }

  function EpollRemove<C(==)>(s: EpollState<C>, c: C): Option<EpollState<C>>
    requires c in s.chans
  {
    var ch := s.chans[c];
    if !(ch.fd in s.channels && s.channels[ch.fd] == c && ch.events == NO_EVENTS) then None else
    if ch.index != ADDED && ch.index != DELETED then None else
    var s1 := s.(chans := Indexed(s.chans, c, NEW), channels := s.channels - {ch.fd});
    if ch.index == ADDED then EpollCtl(s1, Del, c) else Some(s1)
  }

  function EpollStep<C(==)>(s: EpollState<C>, op: Op<C>): Option<EpollState<C>> {
    if op.channel !in s.chans then None else
    match op
    case Update(c, e) => EpollUpdate(s, c, e)
    case Remove(c) => EpollRemove(s, c)
  }

  /** The map is the registry's, and a channel is kNew unless it is registered. */
  predicate EpollIndexed<C(==)>(a: Registry<C>, s: EpollState<C>) {
    && Sound(a)
    && s.chans.Keys == a.fds.Keys && (forall c | c in s.chans :: s.chans[c].fd == a.fds[c])
    && s.channels == a.live
    && (forall c | c in s.chans :: if Live(a, c) then s.chans[c].index in {ADDED, DELETED} else s.chans[c].index == NEW)
  }

  /** A registered channel is kAdded while the kernel has its fd, with its events, and otherwise kDeleted
      with none; the kernel has no other fd. */
  predicate EpollWatched<C(==)>(a: Registry<C>, s: EpollState<C>)
    requires EpollIndexed(a, s)
  {
    && (forall fd | fd in a.live :: s.chans[a.live[fd]].events == a.interest[fd])
    && (forall fd | fd in a.live && s.chans[a.live[fd]].index == ADDED ::
         fd in s.kernel && s.kernel[fd] == (a.live[fd], a.interest[fd]))
    && (forall fd | fd in a.live && s.chans[a.live[fd]].index == DELETED ::
         fd !in s.kernel && a.interest[fd] == NO_EVENTS)
    && (forall fd | fd in s.kernel :: fd in a.live)
  }

  predicate EpollCoupled<C(==)>(a: Registry<C>, s: EpollState<C>) {
    EpollIndexed(a, s) && EpollWatched(a, s)
  }

  /** EPollPoller's assertions hold, and its epoll_ctl calls are legal, exactly when the step is one it
      accepts. */
  lemma EpollAcceptsExactly<C>(a: Registry<C>, s: EpollState<C>, op: Op<C>)
    requires EpollCoupled(a, s)
    ensures EpollStep(s, op).Some? <==> EpollAccepts(a, op)
  {
    if op.channel in a.fds && Live(a, op.channel) {
      assert s.chans[op.channel].events == a.interest[a.fds[op.channel]];
    }
  }

  lemma EpollUpdateDoes<C>(a: Registry<C>, s: EpollState<C>, c: C, e: Events)
    requires EpollCoupled(a, s) && c in s.chans && EpollUpdate(s, c, e).Some?
    ensures var fd := a.fds[c];
      var index := if s.chans[c].index == ADDED && e == NO_EVENTS then DELETED else ADDED;
      EpollUpdate(s, c, e).value == EpollState(
        s.chans[c := Chan(fd, e, index)], s.channels[fd := c],
        if index == ADDED then s.kernel[fd := (c, e)] else s.kernel - {fd})
  {
    var fd := a.fds[c];
    if Live(a, c) {
      assert s.channels[fd := c] == s.channels;
    }
    var s' := EpollUpdate(s, c, e).value;
    var index := if s.chans[c].index == ADDED && e == NO_EVENTS then DELETED else ADDED;
    assert s'.chans == s.chans[c := Chan(fd, e, index)];
  }

  lemma EpollUpdateIndexed<C>(a: Registry<C>, s: EpollState<C>, c: C, e: Events)
    requires EpollCoupled(a, s) && c in s.chans && EpollUpdate(s, c, e).Some?
    ensures EpollIndexed(Registered(a, Update(c, e)), EpollUpdate(s, c, e).value)
  {
    EpollUpdateDoes(a, s, c, e);
    EpollAcceptsExactly(a, s, Update(c, e));
    UpdateRegisters(a, c, e);
    hide EpollUpdate, Registered, EpollWatched, Live, Sound;
  }

  lemma EpollUpdateKeeps<C>(a: Registry<C>, s: EpollState<C>, c: C, e: Events)
    requires EpollCoupled(a, s) && c in s.chans && EpollUpdate(s, c, e).Some?
    ensures EpollCoupled(Registered(a, Update(c, e)), EpollUpdate(s, c, e).value)
  {
    EpollUpdateDoes(a, s, c, e);
    EpollUpdateIndexed(a, s, c, e);
    hide EpollUpdate;
  }

  lemma EpollRemoveKeeps<C>(a: Registry<C>, s: EpollState<C>, c: C)
    requires EpollCoupled(a, s) && c in s.chans && EpollRemove(s, c).Some?
    ensures EpollCoupled(Registered(a, Remove(c)), EpollRemove(s, c).value)
  {
    var a', s' := Registered(a, Remove(c)), EpollRemove(s, c).value;
    var fd := a.fds[c];
    assert s'.channels == a'.live;
    assert s'.chans == s.chans[c := s'.chans[c]] && s'.chans[c].fd == fd && s'.chans[c].index == NEW;
    assert s'.kernel == s.kernel - {fd};
    hide EpollRemove;
  }

  lemma EpollStepKeeps<C>(a: Registry<C>, s: EpollState<C>, op: Op<C>)
    requires EpollCoupled(a, s) && EpollStep(s, op).Some?
    ensures EpollCoupled(Registered(a, op), EpollStep(s, op).value)
  {
    hide EpollUpdate, EpollRemove, EpollCoupled;
    match op
    case Update(c, e) => EpollUpdateKeeps(a, s, c, e);
    case Remove(c) => EpollRemoveKeeps(a, s, c);
  }

  // ---- Runs ---------------------------------------------------------------------------------------------------

  /** None once an assertion has failed or the kernel has refused. */
  function PollRun<C(==)>(s: PollState<C>, ops: seq<Op<C>>): Option<PollState<C>>
    decreases |ops|
  {
    if ops == [] then Some(s) else
    match PollStep(s, ops[0])
    case None => None
    case Some(s') => PollRun(s', ops[1..])
  }

  function EpollRun<C(==)>(s: EpollState<C>, ops: seq<Op<C>>): Option<EpollState<C>>
    decreases |ops|
  {
    if ops == [] then Some(s) else
    match EpollStep(s, ops[0])
    case None => None
    case Some(s') => EpollRun(s', ops[1..])
  }

  function Registers<C(==)>(a: Registry<C>, ops: seq<Op<C>>): Registry<C>
    requires forall op | op in ops :: op.channel in a.fds
    decreases |ops|
  {
    if ops == [] then a else Registers(Registered(a, ops[0]), ops[1..])
  }

  predicate PollTrace<C(==)>(a: Registry<C>, ops: seq<Op<C>>)
    decreases |ops|
  {
    ops == [] || (PollAccepts(a, ops[0]) && PollTrace(Registered(a, ops[0]), ops[1..]))
  }

  predicate EpollTrace<C(==)>(a: Registry<C>, ops: seq<Op<C>>)
    decreases |ops|
  {
    ops == [] || (EpollAccepts(a, ops[0]) && EpollTrace(Registered(a, ops[0]), ops[1..]))
  }

  lemma {:induction false} TraceNamesChannels<C>(a: Registry<C>, ops: seq<Op<C>>)
    requires EpollTrace(a, ops)
    ensures forall op | op in ops :: op.channel in a.fds
    decreases |ops|
  {
    if ops != [] {
      TraceNamesChannels(Registered(a, ops[0]), ops[1..]);
      assert forall op | op in ops :: op == ops[0] || op in ops[1..];
    }
  }

  lemma {:induction false} PollTraceIsEpollTrace<C>(a: Registry<C>, ops: seq<Op<C>>)
    requires PollTrace(a, ops)
    ensures EpollTrace(a, ops)
    decreases |ops|
  {
    if ops != [] { PollTraceIsEpollTrace(Registered(a, ops[0]), ops[1..]); }
  }

  lemma {:induction false} PollRunsExactly<C>(a: Registry<C>, s: PollState<C>, ops: seq<Op<C>>)
    requires PollCoupled(a, s)
    ensures PollRun(s, ops).Some? <==> PollTrace(a, ops)
    ensures PollTrace(a, ops) && (forall op | op in ops :: op.channel in a.fds) ==>
      PollCoupled(Registers(a, ops), PollRun(s, ops).value)
    decreases |ops|
  {
    hide PollStep, PollCoupled, Registered, PollAccepts;
    if ops != [] {
      PollAcceptsExactly(a, s, ops[0]);
      if PollStep(s, ops[0]).Some? {
        if ops[0].Update? {
          PollUpdateKeeps(a, s, ops[0].channel, ops[0].events);
        } else {
          PollRemoveKeeps(a, s, ops[0].channel);
        }
        RegisteredFds(a, ops[0]);
        PollRunsExactly(Registered(a, ops[0]), PollStep(s, ops[0]).value, ops[1..]);
        assert forall op | op in ops[1..] :: op in ops;
      }
    }
  }

  lemma {:induction false} EpollRunsExactly<C>(a: Registry<C>, s: EpollState<C>, ops: seq<Op<C>>)
    requires EpollCoupled(a, s)
    ensures EpollRun(s, ops).Some? <==> EpollTrace(a, ops)
    ensures EpollTrace(a, ops) && (forall op | op in ops :: op.channel in a.fds) ==>
      EpollCoupled(Registers(a, ops), EpollRun(s, ops).value)
    decreases |ops|
  {
    hide EpollStep, EpollCoupled, Registered, EpollAccepts;
    if ops != [] {
      EpollAcceptsExactly(a, s, ops[0]);
      if EpollStep(s, ops[0]).Some? {
        EpollStepKeeps(a, s, ops[0]);
        RegisteredFds(a, ops[0]);
        EpollRunsExactly(Registered(a, ops[0]), EpollStep(s, ops[0]).value, ops[1..]);
        assert forall op | op in ops[1..] :: op in ops;
      }
    }
  }

  lemma RegisteredFds<C>(a: Registry<C>, op: Op<C>)
    ensures PollAccepts(a, op) || EpollAccepts(a, op) ==> op.channel in a.fds && Registered(a, op).fds == a.fds
  {
  }

  // ---- The two agree --------------------------------------------------------------------------------------------

  /** What poll is asked to watch, and what epoll is. */
  predicate PollWatches<C(==)>(s: PollState<C>, fd: nat, e: Events) {
    exists i | 0 <= i < |s.pollfds| :: s.pollfds[i].fd == fd && s.pollfds[i].events == e
  }

  predicate EpollWatches<C(==)>(s: EpollState<C>, fd: nat, c: C, e: Events) {
    fd in s.kernel && s.kernel[fd] == (c, e)
  }

  function Fresh<C(==)>(fds: map<C, nat>): map<C, Chan> {
    map c | c in fds :: Chan(fds[c], NO_EVENTS, -1)
  }

  /** From the same new channels, PollPoller goes through a run exactly when no channel comes back after
      its removal or is removed without ever having had events; then EPollPoller does too, and the
      kernel is asked to watch the same descriptors for the same events in both. */
  lemma PollersAgree<C>(fds: map<C, nat>, ops: seq<Op<C>>, fd: nat, e: Events)
    requires e != NO_EVENTS
    ensures var a := Registry(fds, map[], map[], {}, {});
      var p, q := PollRun(PollState(Fresh(fds), [], map[]), ops), EpollRun(EpollState(Fresh(fds), map[], map[]), ops);
      && (p.Some? <==> PollTrace(a, ops))
      && (q.Some? <==> EpollTrace(a, ops))
      && (p.Some? ==>
           && q.Some? && p.value.channels == q.value.channels
           && (PollWatches(p.value, fd, e) <==>
                fd in q.value.channels && EpollWatches(q.value, fd, q.value.channels[fd], e)))
  {
    var a := Registry(fds, map[], map[], {}, {});
    var s, t := PollState(Fresh(fds), [], map[]), EpollState(Fresh(fds), map[], map[]);
    PollRunsExactly(a, s, ops);
    EpollRunsExactly(a, t, ops);
    if PollRun(s, ops).Some? {
      PollTraceIsEpollTrace(a, ops);
      TraceNamesChannels(a, ops);
      SameWatch(Registers(a, ops), PollRun(s, ops).value, EpollRun(t, ops).value, fd, e);
    }
  }

  lemma SameWatch<C>(a: Registry<C>, s: PollState<C>, t: EpollState<C>, fd: nat, e: Events)
    requires PollCoupled(a, s) && EpollCoupled(a, t) && e != NO_EVENTS
    ensures PollWatches(s, fd, e) <==> fd in a.live && a.interest[fd] == e
    ensures fd in a.live && a.interest[fd] == e <==> fd in a.live && EpollWatches(t, fd, a.live[fd], e)
  {
    if fd in a.live { assert SlotOf(a, s, fd); }
    if i :| 0 <= i < |s.pollfds| && s.pollfds[i].fd == fd && s.pollfds[i].events == e {
      assert OwnerOf(a, s, i);
      assert SlotOf(a, s, fd);
    }
  }

  /** The removed channel keeps its index, so PollPoller takes its next update for a change: an assertion
      fails, whatever the events. */
  lemma ReturningChannelAborts<C>(a: Registry<C>, s: PollState<C>, c: C, e: Events)
    requires PollCoupled(a, s) && PollAccepts(a, Remove(c))
    ensures PollStep(s, Remove(c)).Some? && PollStep(PollStep(s, Remove(c)).value, Update(c, e)).None?
  {
    PollAcceptsExactly(a, s, Remove(c));
    PollRemoveKeeps(a, s, c);
    hide PollStep, PollCoupled;
    PollAcceptsExactly(Registered(a, Remove(c)), PollStep(s, Remove(c)).value, Update(c, e));
  }

  function Updates<C>(c: C, es: seq<Events>): (ops: seq<Op<C>>)
    ensures |ops| == |es|
    ensures forall op | op in ops :: op.channel == c
  {
    seq(|es|, i requires 0 <= i < |es| => Update(c, es[i]))
  }

  /** A new channel's first update does not negate its slot.  So after any updates that end with no
      events, removeChannel's assertion holds exactly when there was more than that one. */
  lemma RemovableExactly<C>(a: Registry<C>, s: PollState<C>, c: C, es: seq<Events>)
    requires PollCoupled(a, s) && PollAccepts(a, Update(c, NO_EVENTS)) && !Live(a, c)
    requires es != [] && es[|es| - 1] == NO_EVENTS
    ensures PollRun(s, Updates(c, es) + [Remove(c)]).Some? <==> |es| > 1
  {
    var first := Registered(a, Update(c, es[0]));
    var ops := Updates(c, es) + [Remove(c)];
    PollRunsExactly(a, s, ops);
    assert PollAccepts(a, ops[0]);
    assert ops[1..] == Updates(c, es[1..]) + [Remove(c)];
    if |es| == 1 {
      assert PollTrace(first, [Remove(c)]) <==> PollAccepts(first, Remove(c)) by {
        assert [Remove(c)][1..] == [];
      }
      assert Updates(c, es[1..]) == [];
      assert ops[1..] == [Remove(c)];
    } else {
      UpdatesThenRemove(first, c, es[1..]);
    }
  }

  /** One channel, descriptor 3, disabled and then removed. */
  lemma BareChannelAborts()
    ensures var s := PollState(map['c' := Chan(3, NO_EVENTS, -1)], [], map[]);
      && PollStep(s, Update('c', NO_EVENTS)).Some?
      && PollStep(PollStep(s, Update('c', NO_EVENTS)).value, Remove('c')).None?
  {
  }

  /** The same channel, enabled, disabled, removed and enabled. */
  lemma ReturnAborts()
    ensures var s := PollState(map['c' := Chan(3, NO_EVENTS, -1)], [], map[]);
      var ops := [Update('c', Events(true, false)), Update('c', NO_EVENTS), Remove('c')];
      PollRun(s, ops).Some? && PollStep(PollRun(s, ops).value, Update('c', Events(true, false))).None?
  {
    var s := PollState(map['c' := Chan(3, NO_EVENTS, -1)], [], map[]);
    var s1 := PollStep(s, Update('c', Events(true, false))).value;
    assert s1.pollfds == [PollFd(3, Events(true, false), {})];
    var s2 := PollStep(s1, Update('c', NO_EVENTS)).value;
    assert s2.pollfds == [PollFd(-4, NO_EVENTS, {})];
    var s3 := PollStep(s2, Remove('c')).value;
    assert PollRun(s3, []) == Some(s3);
    assert PollRun(s2, [Remove('c')]) == Some(s3);
    var later: seq<Op<char>> := [Update('c', NO_EVENTS), Remove('c')];
    assert later[1..] == [Remove('c')];
    assert PollRun(s1, later) == Some(s3);
    assert [Update('c', Events(true, false)), Update('c', NO_EVENTS), Remove('c')][1..] == later;
  }

  lemma {:induction false} UpdatesThenRemove<C>(a: Registry<C>, c: C, es: seq<Events>)
    requires Live(a, c) && es != [] && es[|es| - 1] == NO_EVENTS
    ensures PollTrace(a, Updates(c, es) + [Remove(c)])
    decreases |es|
  {
    var ops := Updates(c, es) + [Remove(c)];
    var a' := Registered(a, ops[0]);
    assert ops[1..] == Updates(c, es[1..]) + [Remove(c)];
    if |es| == 1 {
      assert Updates(c, es[1..]) == [];
      assert ops[1..] == [Remove(c)] && [Remove(c)][1..] == [];
      assert PollAccepts(a', Remove(c));
    } else {
      UpdatesThenRemove(a', c, es[1..]);
    }
  }

  // ---- What poll reports ----------------------------------------------------------------------------------------

  /** poll's count: the slots with something in revents. */
  function Hits(pollfds: seq<PollFd>): nat {
    if pollfds == [] then 0
    else Hits(pollfds[..|pollfds| - 1]) + if pollfds[|pollfds| - 1].revents != {} then 1 else 0
  }

  /** The channels of those slots, in slot order. */
  function Ready<C>(pollfds: seq<PollFd>, channels: map<int, C>): seq<C> {
    if pollfds == [] then [] else
    var last := pollfds[|pollfds| - 1];
    Ready(pollfds[..|pollfds| - 1], channels)
      + if last.revents != {} && last.fd in channels then [channels[last.fd]] else []
  }

  lemma {:induction false} NoMoreHits<C>(pollfds: seq<PollFd>, channels: map<int, C>, i: nat)
    requires i <= |pollfds|
    ensures Hits(pollfds[..i]) <= Hits(pollfds)
    ensures Hits(pollfds[..i]) == Hits(pollfds) ==> Ready(pollfds[..i], channels) == Ready(pollfds, channels)
  {
    if i < |pollfds| {
      NoMoreHits(pollfds[..|pollfds| - 1], channels, i);
      assert pollfds[..|pollfds| - 1][..i] == pollfds[..i];
    } else {
      assert pollfds[..i] == pollfds;
    }
  }

  lemma NoHits<C>(channels: map<int, C>)
    ensures Ready([], channels) == [] && Hits([]) == 0
  {
  }

  lemma OneMore<C>(pollfds: seq<PollFd>, channels: map<int, C>, i: nat)
    requires i < |pollfds|
    ensures Hits(pollfds[..i + 1]) == Hits(pollfds[..i]) + if pollfds[i].revents != {} then 1 else 0
    ensures Ready(pollfds[..i + 1], channels) ==
      Ready(pollfds[..i], channels)
        + if pollfds[i].revents != {} && pollfds[i].fd in channels then [channels[pollfds[i].fd]] else []
  {
    assert pollfds[..i + 1][..i] == pollfds[..i];
  }

  lemma NoHitsAfter<C>(pollfds: seq<PollFd>, channels: map<int, C>, i: nat)
    requires i <= |pollfds| && Hits(pollfds[..i]) == Hits(pollfds)
    ensures forall k | i <= k < |pollfds| :: pollfds[k].revents == {}
  {
    forall k | i <= k < |pollfds| ensures pollfds[k].revents == {} {
      NoMoreHits(pollfds, channels, k + 1);
      NoMoreHits(pollfds[..k], channels, i);
      assert pollfds[..k][..i] == pollfds[..i];
      OneMore(pollfds, channels, k);
    }
  }

  /** The kernel looks past negative descriptors. */
  predicate Polled(pollfds: seq<PollFd>) {
    forall i | 0 <= i < |pollfds| && pollfds[i].fd < 0 :: pollfds[i].revents == {}
  }

  lemma {:induction false} ReadyMembers<C>(a: Registry<C>, s: PollState<C>, n: nat, c: C)
    requires PollCoupled(a, s) && Polled(s.pollfds) && n <= |s.pollfds|
    ensures c in Ready(s.pollfds[..n], s.channels) <==>
      Live(a, c) && s.chans[c].index < n && s.pollfds[s.chans[c].index].revents != {}
  {
    if n == 0 {
      if Live(a, c) { assert SlotOf(a, s, a.fds[c]); }
    } else {
      ReadyMembers(a, s, n - 1, c);
      assert s.pollfds[..n][..n - 1] == s.pollfds[..n - 1];
      assert OwnerOf(a, s, n - 1);
      if Live(a, c) { assert SlotOf(a, s, a.fds[c]); }
      hide Ready;
    }
  }

  ghost predicate Distinct<C>(r: seq<C>) {
    forall i, j | 0 <= i < j < |r| :: r[i] != r[j]
  }

  lemma {:induction false} ReadyOnce<C>(a: Registry<C>, s: PollState<C>, n: nat)
    requires PollCoupled(a, s) && Polled(s.pollfds) && n <= |s.pollfds|
    ensures Distinct(Ready(s.pollfds[..n], s.channels))
  {
    if n > 0 {
      ReadyOnce(a, s, n - 1);
      var last, before := s.pollfds[n - 1], Ready(s.pollfds[..n - 1], s.channels);
      assert s.pollfds[..n][..n - 1] == s.pollfds[..n - 1];
      if last.revents != {} && last.fd in s.channels {
        var c := s.channels[last.fd];
        ReadyMembers(a, s, n - 1, c);
        assert OwnerOf(a, s, n - 1);
        assert Ready(s.pollfds[..n], s.channels) == before + [c];
        assert forall i | 0 <= i < |before| :: before[i] in before;
      } else {
        assert Ready(s.pollfds[..n], s.channels) == before;
      }
    }
  }

  /** What the scan relies on: the assertions of fillActiveChannels hold, and no channel is met twice. */
  lemma HitsAreKnown<C>(a: Registry<C>, s: PollState<C>)
    requires PollCoupled(a, s) && Polled(s.pollfds)
    ensures forall i | 0 <= i < |s.pollfds| && s.pollfds[i].revents != {} ::
      s.pollfds[i].fd in s.channels && s.channels[s.pollfds[i].fd] in s.chans
        && s.chans[s.channels[s.pollfds[i].fd]].fd == s.pollfds[i].fd
    ensures forall i, j | 0 <= i < j < |s.pollfds| && s.pollfds[i].revents != {} && s.pollfds[j].revents != {} ::
      s.channels[s.pollfds[i].fd] != s.channels[s.pollfds[j].fd]
  {
    forall i | 0 <= i < |s.pollfds| && s.pollfds[i].revents != {}
      ensures s.pollfds[i].fd in s.channels && s.channels[s.pollfds[i].fd] in s.chans
      ensures s.chans[s.channels[s.pollfds[i].fd]].fd == s.pollfds[i].fd
          && s.chans[s.channels[s.pollfds[i].fd]].index == i
    {
      assert OwnerOf(a, s, i);
    }
  }

  /** fillActiveChannels' result: exactly the registered channels with something in revents, each once. */
  lemma ReadyExactly<C>(a: Registry<C>, s: PollState<C>)
    requires PollCoupled(a, s) && Polled(s.pollfds)
    ensures var r := Ready(s.pollfds, s.channels);
      && (forall c | c in s.chans :: c in r <==> Live(a, c) && s.pollfds[s.chans[c].index].revents != {})
      && Distinct(r)
  {
    assert s.pollfds[..|s.pollfds|] == s.pollfds;
    ReadyOnce(a, s, |s.pollfds|);
    forall c | c in s.chans
      ensures c in Ready(s.pollfds, s.channels) <==> Live(a, c) && s.pollfds[s.chans[c].index].revents != {}
    {
      ReadyMembers(a, s, |s.pollfds|, c);
      if Live(a, c) { assert SlotOf(a, s, a.fds[c]); }
    }
  }

  // ---- Channel --------------------------------------------------------------------------------------------------

  datatype Call = CloseCall | ErrorCall | ReadCall | WriteCall

  /** handleEventWithGuard, with the callbacks that the user has set. */
  function Dispatch(r: set<Flag>, callbacks: set<Call>): seq<Call> {
    Maybe(Hup in r && In !in r && CloseCall in callbacks, CloseCall)
    + Maybe((Err in r || Nval in r) && ErrorCall in callbacks, ErrorCall)
    + Maybe((In in r || Pri in r || RdHup in r) && ReadCall in callbacks, ReadCall)
    + Maybe(Out in r && WriteCall in callbacks, WriteCall)
  }

  function Maybe(made: bool, call: Call): seq<Call> {
    if made then [call] else []
  }

  /** The masks on which each callback is due, and the order of callbacks. */
  predicate Due(r: set<Flag>, call: Call) {
    match call
    case CloseCall => Hup in r && In !in r
    case ErrorCall => r * {Err, Nval} != {}
    case ReadCall => r * {In, Pri, RdHup} != {}
    case WriteCall => Out in r
  }

  function Turn(call: Call): nat {
    match call
    case CloseCall => 0
    case ErrorCall => 1
    case ReadCall => 2
    case WriteCall => 3
  }

  /** Each callback that is set and due, no other, once, and in turn. */
  ghost predicate Answers(calls: seq<Call>, r: set<Flag>, callbacks: set<Call>) {
    && (forall call: Call :: call in calls <==> call in callbacks && Due(r, call))
    && (forall i, j | 0 <= i < j < |calls| :: Turn(calls[i]) < Turn(calls[j]))
  }

  /** The same of the callbacks whose turn comes before `turn`. */
  ghost predicate AnswersBefore(calls: seq<Call>, r: set<Flag>, callbacks: set<Call>, turn: nat) {
    && (forall call: Call :: call in calls <==> Turn(call) < turn && call in callbacks && Due(r, call))
    && (forall i, j | 0 <= i < j < |calls| :: Turn(calls[i]) < Turn(calls[j]))
  }

  lemma NextTurn(calls: seq<Call>, r: set<Flag>, callbacks: set<Call>, call: Call, made: bool)
    requires AnswersBefore(calls, r, callbacks, Turn(call)) && (made <==> call in callbacks && Due(r, call))
    ensures AnswersBefore(calls + Maybe(made, call), r, callbacks, Turn(call) + 1)
  {
    forall i | 0 <= i < |calls| ensures Turn(calls[i]) < Turn(call) { assert calls[i] in calls; }
    assert calls + [] == calls;
    hide Due;
  }

  lemma FourTurns(r: set<Flag>, callbacks: set<Call>, close: bool, error: bool, read: bool, write: bool)
    requires close <==> CloseCall in callbacks && Due(r, CloseCall)
    requires error <==> ErrorCall in callbacks && Due(r, ErrorCall)
    requires read <==> ReadCall in callbacks && Due(r, ReadCall)
    requires write <==> WriteCall in callbacks && Due(r, WriteCall)
    ensures Answers(Maybe(close, CloseCall) + Maybe(error, ErrorCall) + Maybe(read, ReadCall) + Maybe(write, WriteCall),
                    r, callbacks)
  {
    hide Due, Maybe, Answers;
    var d1 := [] + Maybe(close, CloseCall);
    assert d1 == Maybe(close, CloseCall);
    var d2 := d1 + Maybe(error, ErrorCall);
    var d3 := d2 + Maybe(read, ReadCall);
    NextTurn([], r, callbacks, CloseCall, close);
    hide AnswersBefore;
    NextTurn(d1, r, callbacks, ErrorCall, error);
    NextTurn(d2, r, callbacks, ReadCall, read);
    NextTurn(d3, r, callbacks, WriteCall, write);
    AllTurns(d3 + Maybe(write, WriteCall), r, callbacks);
  }

  /** On every mask. */
  lemma DispatchExactly(r: set<Flag>, callbacks: set<Call>)
    ensures Answers(Dispatch(r, callbacks), r, callbacks)
  {
    DueOn(r);
    hide Due, Maybe, Answers;
    FourTurns(r, callbacks, Hup in r && In !in r && CloseCall in callbacks,
      (Err in r || Nval in r) && ErrorCall in callbacks,
      (In in r || Pri in r || RdHup in r) && ReadCall in callbacks,
      Out in r && WriteCall in callbacks);
  }

  lemma AllTurns(calls: seq<Call>, r: set<Flag>, callbacks: set<Call>)
    requires AnswersBefore(calls, r, callbacks, 4)
    ensures Answers(calls, r, callbacks)
  {
  }

  predicate Before(calls: seq<Call>, a: Call, b: Call) {
    exists i, j | 0 <= i < j < |calls| :: calls[i] == a && calls[j] == b
  }

  /** The read callback runs after the close callback exactly on these masks; the other way round, never. */
  lemma CloseThenReadExactly(r: set<Flag>, callbacks: set<Call>)
    ensures Before(Dispatch(r, callbacks), CloseCall, ReadCall) <==>
        CloseCall in callbacks && ReadCall in callbacks && Hup in r && In !in r && (Pri in r || RdHup in r)
    ensures !Before(Dispatch(r, callbacks), ReadCall, CloseCall)
  {
    var d := Dispatch(r, callbacks);
    DispatchExactly(r, callbacks);
    if CloseCall in callbacks && ReadCall in callbacks && Hup in r && In !in r && (Pri in r || RdHup in r) {
      assert CloseCall in d && ReadCall in d by { hide Dispatch; DueOn(r); }
      var i :| 0 <= i < |d| && d[i] == CloseCall;
      var j :| 0 <= j < |d| && d[j] == ReadCall;
      assert Turn(d[i]) < Turn(d[j]);
    }
    assert Before(d, CloseCall, ReadCall) ==> CloseCall in d && ReadCall in d;
    if CloseCall in d && ReadCall in d { DueOn(r); }
    hide Dispatch;
  }

  lemma DueOn(r: set<Flag>)
    ensures Due(r, ReadCall) <==> In in r || Pri in r || RdHup in r
    ensures Due(r, ErrorCall) <==> Err in r || Nval in r
    ensures (Due(r, CloseCall) <==> Hup in r && In !in r) && (Due(r, WriteCall) <==> Out in r)
  {
    assert forall f | f in {In, Pri, RdHup} && f in r :: f in r * {In, Pri, RdHup};
    assert forall f | f in {Err, Nval} && f in r :: f in r * {Err, Nval};
  }

  /** A peer that hangs up, reported with RDHUP and without IN. */
  lemma HangupClosesThenReads()
    ensures Dispatch({Hup, RdHup}, {CloseCall, ErrorCall, ReadCall, WriteCall}) == [CloseCall, ReadCall]
  {
  }

  class Channel {
    const fd: nat
    var events: Events
    var revents: set<Flag>
    var index: int
    var tied: bool
    var eventHandling: bool
    var callbacks: set<Call>  // those that are set

    constructor (fd: nat)
      ensures this.fd == fd && events == NO_EVENTS && index == -1 && !tied && !eventHandling && callbacks == {}
    {
      this.fd := fd;
      events, revents, index, tied, eventHandling, callbacks := NO_EVENTS, {}, -1, false, false, {};
    }

    /** handleEvent; `alive` says whether the tied object can be locked.  Returns the callbacks made. */
    method HandleEvent(alive: bool) returns (calls: seq<Call>)
      requires !eventHandling
      modifies this`eventHandling
      ensures calls == (if tied && !alive then [] else Dispatch(revents, callbacks)) && !eventHandling
      ensures if tied && !alive then calls == [] else Answers(calls, revents, callbacks)
    {
      calls := [];
      if tied {
        if alive {
          calls := HandleEventWithGuard();
        }
      } else {
        calls := HandleEventWithGuard();
      }
    }

    method HandleEventWithGuard() returns (calls: seq<Call>)
      modifies this`eventHandling
      ensures calls == Dispatch(revents, callbacks) && Answers(calls, revents, callbacks) && !eventHandling
    {
      DispatchExactly(revents, callbacks);
      hide Answers;
      eventHandling := true;
      calls := [];
      if Hup in revents && In !in revents {
        if CloseCall in callbacks { calls := calls + [CloseCall]; }
      }
      ghost var close := Maybe(Hup in revents && In !in revents && CloseCall in callbacks, CloseCall);
      assert calls == close;
      if Err in revents || Nval in revents {
        if ErrorCall in callbacks { calls := calls + [ErrorCall]; }
      }
      ghost var error := Maybe((Err in revents || Nval in revents) && ErrorCall in callbacks, ErrorCall);
      assert calls == close + error;
      if In in revents || Pri in revents || RdHup in revents {
        if ReadCall in callbacks { calls := calls + [ReadCall]; }
      }
      ghost var read := Maybe((In in revents || Pri in revents || RdHup in revents) && ReadCall in callbacks, ReadCall);
      assert calls == close + error + read;
      if Out in revents {
        if WriteCall in callbacks { calls := calls + [WriteCall]; }
      }
      eventHandling := false;
    }
  }

  // ---- The classes ------------------------------------------------------------------------------------------------

  class PollPoller {
    var pollfds: seq<PollFd>
    var channels: map<int, Channel>
    ghost var known: set<Channel> // the loop's channels, registered or not

    ghost function Snapshot(): PollState<Channel>
      reads this, known
    {
      PollState(map c | c in known :: Chan(c.fd, c.events, c.index), pollfds, channels)
    }

    method UpdateChannel(channel: Channel)
      requires channel in known && PollStep(Snapshot(), Update(channel, channel.events)).Some?
      modifies this`pollfds, this`channels, channel`index
      ensures Some(Snapshot()) == PollStep(old(Snapshot()), Update(channel, channel.events))
    {
      ghost var s := Snapshot();
      if channel.index < 0 {
        assert channel.fd !in channels;
        var pfd := PollFd(channel.fd, channel.events, {});
        pollfds := pollfds + [pfd];
        var idx := |pollfds| - 1;
        channel.index := idx;
        channels := channels[pfd.fd := channel];
      } else {
        assert channel.fd in channels && channels[channel.fd] == channel;
        var idx := channel.index;
        assert 0 <= idx < |pollfds|;
        assert pollfds[idx].fd == channel.fd || pollfds[idx].fd == -1 - channel.fd;
        pollfds := pollfds[idx := PollFd(channel.fd, channel.events, {})];
        if channel.events == NO_EVENTS {
          pollfds := pollfds[idx := pollfds[idx].(fd := -1 - channel.fd)];
        }
      }
      ghost var s' := PollStep(s, Update(channel, channel.events)).value;
      assert Snapshot().chans == s'.chans;
      assert Snapshot().pollfds == s'.pollfds && Snapshot().channels == s'.channels;
    }

    method RemoveChannel(channel: Channel)
      requires channel in known && PollStep(Snapshot(), Remove(channel)).Some?
      modifies this`pollfds, this`channels, known`index
      ensures Some(Snapshot()) == PollStep(old(Snapshot()), Remove(channel))
    {
      ghost var s := Snapshot();
      assert channel.fd in channels && channels[channel.fd] == channel;
      assert channel.events == NO_EVENTS;
      var idx := channel.index;
      assert 0 <= idx < |pollfds|;
      assert pollfds[idx].fd == -1 - channel.fd && pollfds[idx].events == channel.events;
      channels := channels - {channel.fd};
      if idx == |pollfds| - 1 {
        pollfds := pollfds[..|pollfds| - 1];
        assert Snapshot().chans == s.chans;
      } else {
        var channelAtEnd := pollfds[|pollfds| - 1].fd;
        pollfds := pollfds[idx := pollfds[|pollfds| - 1]][|pollfds| - 1 := pollfds[idx]];
        if channelAtEnd < 0 {
          channelAtEnd := -channelAtEnd - 1;
        }
        channels[channelAtEnd].index := idx;
        pollfds := pollfds[..|pollfds| - 1];
        assert pollfds == s.pollfds[idx := s.pollfds[|s.pollfds| - 1]][..|s.pollfds| - 1];
        assert Snapshot().chans == Indexed(s.chans, channels[channelAtEnd], idx);
      }
    }

    lemma ScanIsSafe(a: Registry<Channel>)
      requires PollCoupled(a, Snapshot()) && Polled(pollfds)
      ensures forall i | 0 <= i < |pollfds| && pollfds[i].revents != {} ::
        pollfds[i].fd in channels && channels[pollfds[i].fd] in known && channels[pollfds[i].fd].fd == pollfds[i].fd
      ensures forall i, j | 0 <= i < j < |pollfds| && pollfds[i].revents != {} && pollfds[j].revents != {} ::
        channels[pollfds[i].fd] != channels[pollfds[j].fd]
    {
      HitsAreKnown(a, Snapshot());
    }

    /** The scan stops once `numEvents` slots were seen; poll has just filled in revents. */
    method FillActiveChannels(numEvents: nat, ghost a: Registry<Channel>) returns (active: seq<Channel>)
      requires PollCoupled(a, Snapshot()) && Polled(pollfds) && numEvents == Hits(pollfds)
      modifies known`revents
      ensures active == Ready(pollfds, channels)
      ensures forall i | 0 <= i < |pollfds| && pollfds[i].revents != {} ::
        pollfds[i].fd in channels && channels[pollfds[i].fd].revents == pollfds[i].revents
    {
      hide *;
      ScanIsSafe(a);
      active := [];
      assert pollfds[..0] == [] && Ready([], channels) == [] && Hits([]) == 0 by { NoHits(channels); }
      var left, i := numEvents, 0;
      while i < |pollfds| && left > 0
        invariant 0 <= i <= |pollfds|
        invariant active == Ready(pollfds[..i], channels) && left + Hits(pollfds[..i]) == numEvents
        invariant forall k | 0 <= k < i && pollfds[k].revents != {} ::
            channels[pollfds[k].fd].revents == pollfds[k].revents
      {
        OneMore(pollfds, channels, i);
        NoMoreHits(pollfds, channels, i + 1);
        var pfd := pollfds[i];
        if pfd.revents != {} {
          left := left - 1;
          assert pfd.fd in channels;
          var channel := channels[pfd.fd];
          assert channel.fd == pfd.fd;
          channel.revents := pfd.revents;
          active := active + [channel];
        }
        i := i + 1;
      }
      assert pollfds[..|pollfds|] == pollfds;
      NoMoreHits(pollfds, channels, i);
      NoHitsAfter(pollfds, channels, i);
    }
  }

  class EPollPoller {
    var channels: map<int, Channel>
    var eventsSize: nat          // events_.size()
    ghost var kernel: map<int, (Channel, Events)>
    ghost var known: set<Channel>

    ghost function Snapshot(): EpollState<Channel>
      reads this, known
    {
      EpollState(map c | c in known :: Chan(c.fd, c.events, c.index), channels, kernel)
    }

    /** update: the epoll_ctl call, which is legal. */
    method Ctl(operation: Ctl, channel: Channel)
      requires channel in known && EpollCtl(Snapshot(), operation, channel).Some?
      modifies this`kernel
      ensures Some(Snapshot()) == EpollCtl(old(Snapshot()), operation, channel)
    {
      ghost var s := Snapshot();
      match operation {
        case Add => kernel := kernel[channel.fd := (channel, channel.events)];
        case Mod => kernel := kernel[channel.fd := (channel, channel.events)];
        case Del => kernel := kernel - {channel.fd};
      }
      assert Snapshot().chans == s.chans;
    }

    method UpdateChannel(channel: Channel)
      requires channel in known && EpollStep(Snapshot(), Update(channel, channel.events)).Some?
      modifies this`channels, this`kernel, channel`index
      ensures Some(Snapshot()) == EpollStep(old(Snapshot()), Update(channel, channel.events))
    {
      ghost var s := Snapshot();
      var index := channel.index;
      var fd := channel.fd;
      assert s.chans[channel := s.chans[channel]] == s.chans;
      if index == NEW || index == DELETED {
        if index == NEW {
          assert fd !in channels;
          channels := channels[fd := channel];
        } else {
          assert fd in channels && channels[fd] == channel;
        }
        channel.index := ADDED;
        assert Snapshot().chans == Indexed(s.chans, channel, ADDED);
        Ctl(Add, channel);
      } else {
        assert fd in channels && channels[fd] == channel && index == ADDED;
        if channel.events == NO_EVENTS {
          Ctl(Del, channel);
          channel.index := DELETED;
          assert Snapshot().chans == Indexed(s.chans, channel, DELETED);
        } else {
          Ctl(Mod, channel);
        }
      }
    }

    method RemoveChannel(channel: Channel)
      requires channel in known && EpollStep(Snapshot(), Remove(channel)).Some?
      modifies this`channels, this`kernel, channel`index
      ensures Some(Snapshot()) == EpollStep(old(Snapshot()), Remove(channel))
    {
      ghost var s := Snapshot();
      var fd := channel.fd;
      assert fd in channels && channels[fd] == channel && channel.events == NO_EVENTS;
      var index := channel.index;
      assert index == ADDED || index == DELETED;
      channels := channels - {fd};
      if index == ADDED {
        Ctl(Del, channel);
      }
      channel.index := NEW;
      assert Snapshot().chans == Indexed(s.chans, channel, NEW);
    }

    /** poll, on what epoll_wait returned: entries of the interest set, each at most once, and no more
        than fit.  A full event list is doubled. */
    method FillActiveChannels(events: seq<(Channel, set<Flag>)>, ghost a: Registry<Channel>)
      returns (active: seq<Channel>)
      requires EpollCoupled(a, Snapshot()) && |events| <= eventsSize
      requires forall e | e in events :: e.0 in known && e.0.fd in kernel && kernel[e.0.fd].0 == e.0
      requires forall i, j | 0 <= i < j < |events| :: events[i].0 != events[j].0
      modifies this`eventsSize, known`revents
      ensures |active| == |events|
      ensures forall i | 0 <= i < |events| :: active[i] == events[i].0 && active[i].revents == events[i].1
      ensures forall c | c in known && c !in active :: c.revents == old(c.revents)
      ensures eventsSize == if 0 < |events| == old(eventsSize) then 2 * old(eventsSize) else old(eventsSize)
    {
      ghost var s := Snapshot();
      active := [];
      for i := 0 to |events|
        invariant Snapshot() == s && eventsSize == old(eventsSize)
        invariant |active| == i
        invariant forall k | 0 <= k < i :: active[k] == events[k].0 && active[k].revents == events[k].1
        invariant forall c | c in known && c !in active :: c.revents == old(c.revents)
      {
        var channel := events[i].0;
        assert events[i] in events;
        assert channel.fd in channels && channels[channel.fd] == channel;
        channel.revents := events[i].1;
        active := active + [channel];
      }
      if 0 < |events| && |events| == eventsSize {
        eventsSize := eventsSize * 2;
      }
    }
  }
}
