/** Connections from accept to close() across a base loop and any number of I/O
    loops, each a thread of its own: src/TcpServer.cc, src/TcpConnection.cc,
    src/Channel.cc and src/EPollPoller.cc put together.

    A step is what one thread does between two points where another can see the
    difference: a poll, the choice of the next active channel, one callback, one
    functor. Kernel answers and user calls are arbitrary. */
module Lifecycle {
  import opened Names
  import opened Epoll
  import opened Server
  import opened ConnStates

  // ----------------------------------------------------------------- state

  /** An entry of activeChannels_: the listening channel or a connection's. */
  datatype Item = AcceptItem | ConnItem(c: ConnId, revents: Mask)

  datatype Phase = Polling | Dispatching | Calling

  /** Inside handleEventWithGuard the guard keeps the connection alive. */
  datatype Handler = NoHandler | InHandler(c: ConnId, rest: seq<Callback>)

  datatype LoopState = LoopState(
    phase: Phase, active: seq<Item>, handler: Handler,
    batch: seq<Functor>, pending: seq<Functor>, poller: PollerState<ConnId>)

  /** A connection; the counters are history. */
  datatype Peer = Peer(
    loop: LoopId, state: ConnState, ch: ChannelState<ConnId>,
    adds: nat,          // EPOLL_CTL_ADD issued for it
    dels: nat,          // EPOLL_CTL_DEL issued for it
    established: nat,   // times connectEstablished has run
    closes: nat,        // times handleClose has run
    destroys: nat,      // times connectDestroyed has run
    freed: bool)

  datatype World = World(
    server: ServerState, peers: map<ConnId, Peer>, loops: seq<LoopState>,
    lockFailures: nat)  // dispatches that found the tied connection gone

  const IDLE_LOOP := LoopState(Polling, [], NoHandler, [], [], PollerState(map[], map[], 0))

  function Init(name: string, ipPort: string, numIo: nat): World {
    World(ServerState(name, ipPort, numIo, 0, 1, map[]), map[], seq(numIo + 1, _ => IDLE_LOOP), 0)
  }

  // -------------------------------------------------------------- ownership

  /** How many copies of a functor a loop still has to run. */
  function Count(l: LoopState, f: Functor): nat {
    multiset(l.batch)[f] + multiset(l.pending)[f]
  }

  ghost predicate InSomeQueue(w: World, c: ConnId) {
    exists l :: 0 <= l < |w.loops| &&
      (Count(w.loops[l], Established(c)) > 0 || Count(w.loops[l], RemoveInLoop(c)) > 0 || Count(w.loops[l], Destroyed(c)) > 0)
  }

  ghost predicate InSomeHandler(w: World, c: ConnId) {
    exists l :: 0 <= l < |w.loops| && w.loops[l].handler.InHandler? && w.loops[l].handler.c == c
  }

  /** Some shared_ptr of the library's own refers to the connection. */
  ghost predicate Held(w: World, c: ConnId) {
    Owns(w.server, c) || InSomeQueue(w, c) || InSomeHandler(w, c)
  }

  // --------------------------------------------------------------- actions

  function SetLoop(w: World, l: LoopId, s: LoopState): World
    requires l < |w.loops|
  {
    w.(loops := w.loops[l := s])
  }

  function Push(w: World, l: LoopId, f: Functor): World
    requires l < |w.loops|
  {
    SetLoop(w, l, w.loops[l].(pending := w.loops[l].pending + [f]))
  }

  predicate Known(w: World, c: ConnId) {
    c in w.peers && w.peers[c].loop < |w.loops|
  }

  /** channel_->update() with a new mask. */
  function SubmitMask(w: World, c: ConnId, mask: Mask): World
    requires Known(w, c)
  {
    var p := w.peers[c];
    var (q, ch) := Updated(w.loops[p.loop].poller, p.ch.(events := mask));
    var p' := p.(ch := ch,
                 adds := if p.ch.index != Added then p.adds + 1 else p.adds,
                 dels := if p.ch.index == Added && IsNone(mask) then p.dels + 1 else p.dels);
    SetLoop(w, p.loop, w.loops[p.loop].(poller := q)).(peers := w.peers[c := p'])
  }

  function MarkEstablished(w: World, c: ConnId): World
    requires Known(w, c)
  {
    w.(peers := w.peers[c := w.peers[c].(state := Connected, established := w.peers[c].established + 1)])
  }

  function DoEstablished(w: World, c: ConnId): World
    requires Known(w, c)
  {
    SubmitMask(MarkEstablished(w, c), c, WithReading(w.peers[c].ch.events))
  }

  /** Runs on the base loop. */
  function DoRemoveInLoop(w: World, c: ConnId): World
    requires Known(w, c)
  {
    Push(w.(server := Erase(w.server, c)), w.peers[c].loop, Destroyed(c))
  }

  function DoDestroyed(w: World, c: ConnId): World
    requires Known(w, c)
  {
    var p := w.peers[c];
    var p1 := if p.state == Connected then p.(state := Disconnected, ch := p.ch.(events := NONE_EVENT)) else p;
    var (q, ch) := Removed(w.loops[p.loop].poller, p1.ch);
    var p2 := p1.(ch := ch, destroys := p.destroys + 1,
                  dels := if p1.ch.index == Added then p1.dels + 1 else p1.dels);
    SetLoop(w, p.loop, w.loops[p.loop].(poller := q)).(peers := w.peers[c := p2])
  }

  /** The record part of handleClose: the mask is cleared without telling epoll. */
  function MarkClosed(w: World, c: ConnId): World
    requires Known(w, c)
  {
    var p := w.peers[c];
    w.(peers := w.peers[c := p.(state := Disconnected, ch := p.ch.(events := NONE_EVENT), closes := p.closes + 1)])
  }

  /** The server is told at once on the base loop, through its queue from any other. */
  function DoClose(w: World, c: ConnId): World
    requires Known(w, c) && |w.loops| > 0
  {
    var w1 := MarkClosed(w, c);
    if w.peers[c].loop == BASE then DoRemoveInLoop(w1, c) else Push(w1, BASE, RemoveInLoop(c))
  }

  /** newConnection up to the hand-over: numbered, named, owned by the server. */
  function Create(w: World, fd: int): World
    requires w.server.Ok()
  {
    var (server, c, loop) := Register(w.server);
    var p := Peer(loop, Connecting, ChannelState(c, fd, NONE_EVENT, New), 0, 0, 0, 0, 0, false);
    w.(server := server, peers := w.peers[c := p])
  }

  /** The I/O loop establishes it: at once if it is the base loop. */
  function DoAccept(w: World, fd: int): World
    requires w.server.Ok() && |w.loops| == w.server.numIo + 1
  {
    var (_, c, loop) := Register(w.server);
    var w1 := Create(w, fd);
    if loop == BASE then DoEstablished(w1, c) else Push(w1, loop, Established(c))
  }

  // ----------------------------------------------------------------- steps

  /** What a callback meets: end of stream, a backlog drained, or neither. */
  datatype Outcome = Nothing | EndOfStream | Drained

  datatype Step =
    | PollStep(l: LoopId, items: seq<Item>)
    | AcceptStep(fd: int)
    | AcceptFails
    | BeginEvent(l: LoopId)
    | CallbackStep(l: LoopId, o: Outcome)
    | EndEvent(l: LoopId)
    | SwapStep(l: LoopId)
    | FunctorStep(l: LoopId)
    | EndBatch(l: LoopId)
    | UserShutdown(c: ConnId)
    | UserBacklog(c: ConnId)
    | UserQueue(l: LoopId)
    | FreeStep(c: ConnId)

  /** epoll_wait hands back user pointers of registered channels, each once. */
  ghost predicate Reportable(l: LoopState, items: seq<Item>) {
    && (forall i :: 0 <= i < |items| && items[i].ConnItem? ==>
         exists fd :: fd in l.poller.kernel && l.poller.kernel[fd].ptr == items[i].c)
    && (forall i, j :: 0 <= i < j < |items| && items[i].ConnItem? && items[j].ConnItem? ==> items[i].c != items[j].c)
  }

  ghost predicate Enabled(w: World, s: Step) {
    match s
    case PollStep(l, items) =>
      && l < |w.loops| && w.loops[l].phase == Polling && Reportable(w.loops[l], items)
      && (l != BASE ==> AcceptItem !in items)
    // accept4 returns an fd that is not open; the counter is an int
    case AcceptStep(fd) =>
      && |w.loops| == w.server.numIo + 1 && w.server.Ok() && w.server.nextConnId <= INT_MAX
      && NextItem(w.loops[BASE], AcceptItem)
      && forall c :: c in w.peers && !w.peers[c].freed ==> w.peers[c].ch.fd != fd
    case AcceptFails => |w.loops| > 0 && NextItem(w.loops[BASE], AcceptItem)
    case BeginEvent(l) =>
      && l < |w.loops| && w.loops[l].phase == Dispatching && w.loops[l].handler == NoHandler
      && w.loops[l].active != [] && w.loops[l].active[0].ConnItem?
    case CallbackStep(l, o) =>
      && l < |w.loops| && w.loops[l].handler.InHandler? && w.loops[l].handler.rest != []
      && Known(w, w.loops[l].handler.c)
    case EndEvent(l) => l < |w.loops| && w.loops[l].handler.InHandler? && w.loops[l].handler.rest == []
    case SwapStep(l) =>
      l < |w.loops| && w.loops[l].phase == Dispatching && w.loops[l].handler == NoHandler && w.loops[l].active == []
    case FunctorStep(l) =>
      && l < |w.loops| && w.loops[l].phase == Calling && w.loops[l].batch != []
      && (w.loops[l].batch[0] != UserFunctor ==> Known(w, w.loops[l].batch[0].c))
    case EndBatch(l) => l < |w.loops| && w.loops[l].phase == Calling && w.loops[l].batch == []
    case UserShutdown(c) => c in w.peers
    // sendInLoop only ever runs on the connection's own loop thread, once it is up
    case UserBacklog(c) => Known(w, c) && w.peers[c].state != Connecting && w.loops[w.peers[c].loop].phase != Polling
    case UserQueue(l) => l < |w.loops|
    case FreeStep(c) => c in w.peers && !w.peers[c].freed && !Held(w, c)
  }

  predicate NextItem(l: LoopState, item: Item) {
    l.phase == Dispatching && l.handler == NoHandler && l.active != [] && l.active[0] == item
  }

  function PopItem(w: World, l: LoopId): World
    requires l < |w.loops| && w.loops[l].active != []
  {
    SetLoop(w, l, w.loops[l].(active := w.loops[l].active[1..]))
  }

  function DoCallback(w: World, c: ConnId, cb: Callback, o: Outcome): World
    requires Known(w, c)
  {
    match cb
    case CloseCb => DoClose(w, c)
    case ErrorCb => w
    case ReadCb => if o == EndOfStream then DoClose(w, c) else w
    case WriteCb =>
      if IsWriting(w.peers[c].ch.events) && o == Drained
      then SubmitMask(w, c, WithoutWriting(w.peers[c].ch.events)) else w
  }

  function DoFunctor(w: World, f: Functor): World
    requires f != UserFunctor ==> Known(w, f.c)
  {
    match f
    case Established(c) => DoEstablished(w, c)
    case RemoveInLoop(c) => DoRemoveInLoop(w, c)
    case Destroyed(c) => DoDestroyed(w, c)
    case UserFunctor => w
  }

  ghost function Do(w: World, s: Step): World
    requires Enabled(w, s)
  {
    match s
    case PollStep(l, items) => SetLoop(w, l, w.loops[l].(phase := Dispatching, active := items))
    case AcceptStep(fd) => DoAccept(PopItem(w, BASE), fd)
    case AcceptFails => PopItem(w, BASE)
    case BeginEvent(l) =>
      var item := w.loops[l].active[0];
      var rest := w.loops[l].(active := w.loops[l].active[1..]);
      if Held(w, item.c)
      then SetLoop(w, l, rest.(handler := InHandler(item.c, Callbacks(item.revents))))
      else SetLoop(w, l, rest).(lockFailures := w.lockFailures + 1)
    case CallbackStep(l, o) =>
      var h := w.loops[l].handler;
      var w1 := SetLoop(w, l, w.loops[l].(handler := InHandler(h.c, h.rest[1..])));
      DoCallback(w1, h.c, h.rest[0], o)
    case EndEvent(l) => SetLoop(w, l, w.loops[l].(handler := NoHandler))
    case SwapStep(l) =>
      SetLoop(w, l, w.loops[l].(phase := Calling, batch := w.loops[l].pending, pending := []))
    case FunctorStep(l) =>
      var w1 := SetLoop(w, l, w.loops[l].(batch := w.loops[l].batch[1..]));
      DoFunctor(w1, w.loops[l].batch[0])
    case EndBatch(l) => SetLoop(w, l, w.loops[l].(phase := Polling))
    case UserShutdown(c) =>
      if w.peers[c].state == Connected
      then w.(peers := w.peers[c := w.peers[c].(state := Disconnecting)]) else w
    case UserBacklog(c) =>
      if w.peers[c].state != Disconnected && !IsWriting(w.peers[c].ch.events)
      then SubmitMask(w, c, WithWriting(w.peers[c].ch.events)) else w
    case UserQueue(l) => Push(w, l, UserFunctor)
    case FreeStep(c) => w.(peers := w.peers[c := w.peers[c].(freed := true)])
  }

  ghost predicate Legal(w: World, steps: seq<Step>)
    decreases |steps|
  {
    steps == [] || (Enabled(w, steps[0]) && Legal(Do(w, steps[0]), steps[1..]))
  }

  ghost function Run(w: World, steps: seq<Step>): World
    requires Legal(w, steps)
    decreases |steps|
  {
    if steps == [] then w else Run(Do(w, steps[0]), steps[1..])
  }
}
