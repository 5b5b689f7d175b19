/** What every run of a live server guarantees about its connections. */
module LifecycleTheorems {
  import opened Names
  import opened Epoll
  import opened Server
  import opened ConnStates
  import opened Lifecycle
  import opened LifecycleInv
  import opened LifecycleSteps

  /** The state a server is in after some run. */
  ghost predicate Reached(w: World) {
    exists name: string, ipPort: string, numIo: nat, steps ::
      |ipPort| <= 21 && Legal(Init(name, ipPort, numIo), steps) && Run(Init(name, ipPort, numIo), steps) == w
  }

  lemma ReachedInv(w: World)
    requires Reached(w)
    ensures Inv(w)
  {
    var name: string, ipPort: string, numIo: nat, steps :|
      |ipPort| <= 21 && Legal(Init(name, ipPort, numIo), steps) && Run(Init(name, ipPort, numIo), steps) == w;
    InitInv(name, ipPort, numIo);
    InvRun(Init(name, ipPort, numIo), steps);
  }

  /** No dangling registration: whatever epoll or a poller's map points to is a
      connection that still exists and that the server or a queued destroy on its
      own loop keeps; the lock taken at dispatch never failed, nor any epoll_ctl. */
  lemma NoDanglingRegistration(w: World, l: LoopId, fd: int)
    requires Reached(w) && l < |w.loops|
    ensures var p := w.loops[l].poller;
            && p.failures == 0 && w.lockFailures == 0
            && (fd in p.kernel <==> fd in p.channels)
            && (fd in p.kernel ==>
                  var c := p.kernel[fd].ptr;
                  && p.channels[fd] == c && c in w.peers && !w.peers[c].freed
                  && w.peers[c].loop == l && w.peers[c].ch.fd == fd
                  && (Owns(w.server, c) || Count(w.loops[l], Destroyed(c)) > 0))
  {
    ReachedInv(w);
    var p := w.loops[l].poller;
    assert PollerOk(w, l);
    if fd in p.kernel {
      assert ConnInv(w, p.kernel[fd].ptr);
    }
    if fd in p.channels {
      assert ConnInv(w, p.channels[fd]);
    }
  }

  /** Repeated close is harmless: however often handleClose has run, a connection
      is added to epoll at most once and dropped at most once, and exactly once
      each by the time it is freed. */
  lemma OneAddOneDel(w: World, c: ConnId)
    requires Reached(w) && c in w.peers
    ensures var p := w.peers[c];
            && p.dels <= p.adds <= 1 && p.adds == p.established
            && (p.dels == 1 ==> p.closes > 0)
            && (p.freed ==> p.adds == 1 && p.dels == 1)
            && (p.ch.index == Added <==> p.adds == 1 && p.dels == 0)
            && (p.dels == 1 <==> p.destroys > 0)
  {
    ReachedInv(w);
    assert ConnInv(w, c);
  }

  /** Conservation: every handleClose is answered by one removeConnectionInLoop and
      one connectDestroyed. What has not been answered yet is in the queues. */
  lemma ClosesAreAnswered(w: World, c: ConnId)
    requires Reached(w) && c in w.peers
    ensures Known(w, c)
    ensures var p := w.peers[c];
            p.closes == p.destroys + Count(w.loops[BASE], RemoveInLoop(c)) + Count(w.loops[p.loop], Destroyed(c))
    ensures w.peers[c].freed ==> w.peers[c].closes == w.peers[c].destroys > 0
  {
    ReachedInv(w);
    assert ConnInv(w, c);
  }

  /** A late erase or destroy touches its own connection only, even when other
      connections have come and gone under the same fd. */
  lemma TeardownIsPrivate(w: World, l: LoopId, d: ConnId)
    requires Reached(w) && Enabled(w, FunctorStep(l)) && w.loops[l].batch[0] != UserFunctor
    requires d in w.peers && d != w.loops[l].batch[0].c
    ensures var w' := Do(w, FunctorStep(l));
            && Known(w, d) && Known(w', d) && w'.peers[d] == w.peers[d]
            && (Owns(w'.server, d) <==> Owns(w.server, d))
            && (Registered(w', d) <==> Registered(w, d))
            && (Mapped(w', d) <==> Mapped(w, d))
  {
    ReachedInv(w);
    var w' := Do(w, FunctorStep(l));
    InvStep(w, FunctorStep(l));
    HeadPlaced(w, l);
    FunctorSparesOthers(PopFunctor(w, l), w.loops[l].batch[0], d);
    StageTellsRegistration(w, d);
    StageTellsRegistration(w', d);
    assert PeersOk(w);
    EraseRemovesOnlyItself(w.server, w.loops[l].batch[0].c, d);
  }

  lemma StageTellsRegistration(w: World, d: ConnId)
    requires Inv(w) && d in w.peers
    ensures Known(w, d)
    ensures (Registered(w, d) <==> w.peers[d].ch.index == Added) && (Mapped(w, d) <==> w.peers[d].ch.index == Added)
  {
    assert ConnInv(w, d);
  }

  lemma FunctorSparesOthers(w: World, f: Functor, d: ConnId)
    requires f != UserFunctor && Known(w, f.c) && d in w.peers && d != f.c
    ensures var w' := DoFunctor(w, f);
            d in w'.peers && w'.peers[d] == w.peers[d]
            && w'.server == if f.RemoveInLoop? then Erase(w.server, f.c) else w.server
  {
  }

  /** connectDestroyed finds a connection that has been established, once, has
      closed, and has left the server's map; connectEstablished finds a new one. */
  lemma DestroyedAfterEstablished(w: World, l: LoopId)
    requires Reached(w) && Enabled(w, FunctorStep(l)) && w.loops[l].batch[0] != UserFunctor
    ensures var f := w.loops[l].batch[0];
            var p := w.peers[f.c];
            && (f.Destroyed? ==>
                  p.loop == l && p.state == Disconnected && p.established == 1 && p.closes > 0 && !Owns(w.server, f.c))
            && (f.Established? ==> p.loop == l && p.state == Connecting && p.established == 0 && Owns(w.server, f.c))
            && !p.freed
  {
    ReachedInv(w);
    var f := w.loops[l].batch[0];
    HeadPlaced(w, l);
    if f.Established? {
      HeadEstablished(w, l);
    } else {
      HeadTeardown(w, l);
    }
  }

  /** Nothing is running and nothing is queued anywhere. */
  ghost predicate Quiescent(w: World) {
    forall l :: 0 <= l < |w.loops| ==> w.loops[l].phase == Polling && w.loops[l].pending == []
  }

  /** Quiescent agreement: the server's map and the pollers hold the same
      connections, all of them up, each registered once, under its own loop and
      fd; and whoever is not in the map is referred to by nobody. */
  lemma QuiescentAgreement(w: World, c: ConnId)
    requires Reached(w) && Quiescent(w) && c in w.peers
    ensures Known(w, c)
    ensures Owns(w.server, c) <==> Registered(w, c)
    ensures Owns(w.server, c) <==> w.peers[c].state == Connected || w.peers[c].state == Disconnecting
    ensures !Owns(w.server, c) ==> !Held(w, c)
    ensures forall n :: n in w.server.connections ==>
              w.server.connections[n] in w.peers && Owns(w.server, w.server.connections[n])
    ensures forall l, fd :: 0 <= l < |w.loops| && fd in w.loops[l].poller.kernel && w.loops[l].poller.kernel[fd].ptr == c ==>
              l == w.peers[c].loop && fd == w.peers[c].ch.fd
  {
    ReachedInv(w);
    QuietLoops(w);
    assert ConnInv(w, c) && ServerOk(w);
    forall l, fd | 0 <= l < |w.loops| && fd in w.loops[l].poller.kernel && w.loops[l].poller.kernel[fd].ptr == c
      ensures l == w.peers[c].loop && fd == w.peers[c].ch.fd
    {
      assert PollerOk(w, l);
    }
  }

  lemma QuietLoops(w: World)
    requires Inv(w) && Quiescent(w)
    ensures forall l, f :: 0 <= l < |w.loops| ==> Count(w.loops[l], f) == 0
    ensures forall l :: 0 <= l < |w.loops| ==> w.loops[l].handler == NoHandler
  {
    forall l | 0 <= l < |w.loops|
      ensures w.loops[l].handler == NoHandler && w.loops[l].batch == [] && w.loops[l].pending == []
    {
      assert ShapeOk(w, l);
    }
  }

  // ---------------------------------------------------- dispatch stability

  /** Same connections on the same loops, same counters of the server's, and
      every loop in the phase it was. */
  ghost predicate SameRoster(w: World, w': World) {
    && w'.peers.Keys == w.peers.Keys
    && (forall d :: d in w.peers ==> w'.peers[d].loop == w.peers[d].loop && w'.peers[d].ch.fd == w.peers[d].ch.fd)
    && w'.server == w.server.(connections := w'.server.connections)
    && |w'.loops| == |w.loops|
    && (forall m :: 0 <= m < |w.loops| ==> w'.loops[m].phase == w.loops[m].phase)
  }

  lemma UpdateRoster(w: World, c: ConnId, mask: Mask)
    requires Known(w, c)
    ensures SameRoster(w, SubmitMask(w, c, mask))
  {
  }

  lemma CloseRoster(w: World, c: ConnId)
    requires Known(w, c) && |w.loops| > 0
    ensures SameRoster(w, DoClose(w, c))
  {
  }

  lemma CallbackRoster(w: World, c: ConnId, cb: Callback, o: Outcome)
    requires Known(w, c)
    ensures SameRoster(w, DoCallback(w, c, cb, o))
  {
    CloseRoster(w, c);
    UpdateRoster(w, c, WithoutWriting(w.peers[c].ch.events));
  }

  lemma FunctorRoster(w: World, f: Functor)
    requires f != UserFunctor ==> Known(w, f.c)
    ensures SameRoster(w, DoFunctor(w, f))
  {
    if f.Established? {
      UpdateRoster(MarkEstablished(w, f.c), f.c, WithReading(w.peers[f.c].ch.events));
    }
  }

  /** c is still registered. */
  predicate StillAdded(w: World, c: ConnId) {
    c in w.peers && w.peers[c].ch.index == Added
  }

  lemma UpdateKeepsAdded(w: World, c: ConnId, mask: Mask, d: ConnId)
    requires Known(w, c) && StillAdded(w, d) && !IsNone(mask)
    ensures StillAdded(SubmitMask(w, c, mask), d)
  {
  }

  lemma CloseKeepsAdded(w: World, c: ConnId, d: ConnId)
    requires Known(w, c) && |w.loops| > 0 && StillAdded(w, d)
    ensures StillAdded(DoClose(w, c), d)
  {
  }

  lemma CallbackKeepsAdded(w: World, c: ConnId, cb: Callback, o: Outcome, d: ConnId)
    requires Known(w, c) && StillAdded(w, d)
    requires w.peers[c].ch.events == NONE_EVENT || IsReading(w.peers[c].ch.events)
    ensures StillAdded(DoCallback(w, c, cb, o), d)
  {
    CloseKeepsAdded(w, c, d);
    if IsReading(w.peers[c].ch.events) {
      StopWriting(w.peers[c].ch.events);
      UpdateKeepsAdded(w, c, WithoutWriting(w.peers[c].ch.events), d);
    }
  }

  lemma FunctorKeepsAdded(w: World, f: Functor, d: ConnId)
    requires f != UserFunctor ==> Known(w, f.c)
    requires StillAdded(w, d) && f != Destroyed(d)
    ensures StillAdded(DoFunctor(w, f), d)
  {
    if f.Established? {
      assert !IsNone(WithReading(w.peers[f.c].ch.events));
      UpdateKeepsAdded(MarkEstablished(w, f.c), f.c, WithReading(w.peers[f.c].ch.events), d);
    }
  }

  lemma EventsOfPeer(w: World, c: ConnId)
    requires Inv(w) && c in w.peers
    ensures w.peers[c].ch.events == NONE_EVENT || IsReading(w.peers[c].ch.events)
    ensures w.peers[c].state != Connecting && w.peers[c].state != Disconnected ==> IsReading(w.peers[c].ch.events)
  {
    assert ConnInv(w, c);
  }

  /** c stays registered with loop l, which stays in its dispatch phase. */
  ghost predicate StaysOn(w: World, w': World, l: LoopId, c: ConnId) {
    && l < |w'.loops| && w'.loops[l].phase == Dispatching
    && OnLoop(w', l, c) && c in w.peers && w'.peers[c].ch.fd == w.peers[c].ch.fd
  }

  ghost predicate DispatchedOn(w: World, l: LoopId, c: ConnId) {
    l < |w.loops| && w.loops[l].phase == Dispatching && OnLoop(w, l, c)
  }

  lemma RosterStaysOn(w: World, w': World, l: LoopId, c: ConnId)
    requires DispatchedOn(w, l, c) && SameRoster(w, w') && StillAdded(w', c)
    ensures StaysOn(w, w', l, c)
  {
  }

  lemma DispatchCallback(w: World, m: LoopId, o: Outcome, l: LoopId, c: ConnId)
    requires Enabled(w, CallbackStep(m, o)) && DispatchedOn(w, l, c)
    requires var e := w.peers[w.loops[m].handler.c].ch.events; e == NONE_EVENT || IsReading(e)
    ensures StaysOn(w, Do(w, CallbackStep(m, o)), l, c)
  {
    var h := w.loops[m].handler;
    var w1 := SetLoop(w, m, w.loops[m].(handler := InHandler(h.c, h.rest[1..])));
    CallbackRoster(w1, h.c, h.rest[0], o);
    CallbackKeepsAdded(w1, h.c, h.rest[0], o, c);
    RosterStaysOn(w1, Do(w, CallbackStep(m, o)), l, c);
  }

  /** Destroys run between dispatches, so none of them is c's. */
  lemma DispatchFunctor(w: World, m: LoopId, l: LoopId, c: ConnId)
    requires Enabled(w, FunctorStep(m)) && DispatchedOn(w, l, c)
    requires var f := w.loops[m].batch[0]; f.Destroyed? ==> f.c in w.peers && w.peers[f.c].loop == m
    ensures StaysOn(w, Do(w, FunctorStep(m)), l, c)
  {
    var f := w.loops[m].batch[0];
    FunctorRoster(PopFunctor(w, m), f);
    FunctorKeepsAdded(PopFunctor(w, m), f, c);
    RosterStaysOn(PopFunctor(w, m), Do(w, FunctorStep(m)), l, c);
  }

  lemma DispatchBacklog(w: World, d: ConnId, l: LoopId, c: ConnId)
    requires Enabled(w, UserBacklog(d)) && DispatchedOn(w, l, c)
    requires w.peers[d].state != Disconnected ==> IsReading(w.peers[d].ch.events)
    ensures StaysOn(w, Do(w, UserBacklog(d)), l, c)
  {
    if w.peers[d].state != Disconnected {
      var mask := WithWriting(w.peers[d].ch.events);
      StopWriting(w.peers[d].ch.events);
      UpdateRoster(w, d, mask);
      UpdateKeepsAdded(w, d, mask, c);
      RosterStaysOn(w, SubmitMask(w, d, mask), l, c);
    }
  }

  lemma DispatchAccept(w: World, fd: int, l: LoopId, c: ConnId)
    requires Enabled(w, AcceptStep(fd)) && DispatchedOn(w, l, c) && PeersOk(w)
    ensures StaysOn(w, Do(w, AcceptStep(fd)), l, c)
  {
    var (w1, d) := (Create(PopItem(w, BASE), fd), w.server.nextConnId);
    assert c != d && DispatchedOn(w1, l, c);
    if w1.peers[d].loop == BASE {
      UpdateRoster(MarkEstablished(w1, d), d, WithReading(NONE_EVENT));
      UpdateKeepsAdded(MarkEstablished(w1, d), d, WithReading(NONE_EVENT), c);
    }
  }

  lemma DispatchPlain(w: World, s: Step, l: LoopId, c: ConnId)
    requires Enabled(w, s) && DispatchedOn(w, l, c) && s != SwapStep(l)
    requires !s.AcceptStep? && !s.CallbackStep? && !s.FunctorStep? && !s.UserBacklog?
    ensures StaysOn(w, Do(w, s), l, c)
  {
  }

  /** While a loop dispatches, nobody deregisters a connection of its. */
  lemma DispatchStep(w: World, s: Step, l: LoopId, c: ConnId)
    requires Inv(w) && Enabled(w, s) && DispatchedOn(w, l, c) && s != SwapStep(l)
    ensures StaysOn(w, Do(w, s), l, c)
  {
    if s.AcceptStep? {
      DispatchAccept(w, s.fd, l, c);
    } else if s.CallbackStep? {
      EventsOfPeer(w, w.loops[s.l].handler.c);
      DispatchCallback(w, s.l, s.o, l, c);
    } else if s.FunctorStep? {
      if w.loops[s.l].batch[0] != UserFunctor { HeadPlaced(w, s.l); }
      DispatchFunctor(w, s.l, l, c);
    } else if s.UserBacklog? {
      EventsOfPeer(w, s.c);
      DispatchBacklog(w, s.c, l, c);
    } else {
      DispatchPlain(w, s, l, c);
    }
  }

  lemma {:induction false} DispatchRun(w: World, steps: seq<Step>, l: LoopId, c: ConnId)
    requires Inv(w) && Legal(w, steps) && l < |w.loops| && w.loops[l].phase == Dispatching
    requires SwapStep(l) !in steps && OnLoop(w, l, c)
    ensures var w' := Run(w, steps); Inv(w') && OnLoop(w', l, c) && w'.peers[c].ch.fd == w.peers[c].ch.fd
    decreases |steps|
  {
    if steps != [] {
      DispatchStep(w, steps[0], l, c);
      InvStep(w, steps[0]);
      DispatchRun(Do(w, steps[0]), steps[1..], l, c);
    }
  }

  /** From the poll to the end of the dispatch loop, which is where the loop takes
      its queue, every connection the poll listed stays registered with that loop
      and is not freed, whatever closes meanwhile and on whichever thread. */
  lemma DispatchStability(w: World, l: LoopId, items: seq<Item>, steps: seq<Step>, i: nat)
    requires Reached(w) && Enabled(w, PollStep(l, items)) && i < |items| && items[i].ConnItem?
    requires Legal(Do(w, PollStep(l, items)), steps) && SwapStep(l) !in steps
    ensures var w' := Run(Do(w, PollStep(l, items)), steps);
            && OnLoop(w', l, items[i].c) && !w'.peers[items[i].c].freed
            && Known(w', items[i].c) && Registered(w', items[i].c)
  {
    ReachedInv(w);
    InvStep(w, PollStep(l, items));
    var w1 := Do(w, PollStep(l, items));
    ListedIsHeld(w1, l, i);
    DispatchRun(w1, steps, l, items[i].c);
    var w' := Run(w1, steps);
    assert ConnInv(w', items[i].c);
  }

  /** What is counted as a failed lock: the connection is gone, no handler is entered,
      and nothing but the active list moves on. */
  lemma LostDispatch(w: World, l: LoopId)
    requires Enabled(w, BeginEvent(l)) && !Held(w, w.loops[l].active[0].c)
    ensures var w' := Do(w, BeginEvent(l));
            && w'.lockFailures == w.lockFailures + 1 && w'.peers == w.peers && w'.server == w.server
            && w'.loops[l] == w.loops[l].(active := w.loops[l].active[1..])
  {
  }

  /** Every dispatch finds the connection it is for: the lock is taken, and the
      callbacks are those of the mask epoll reported. */
  lemma DispatchFindsItAlive(w: World, l: LoopId)
    requires Reached(w) && Enabled(w, BeginEvent(l))
    ensures var item := w.loops[l].active[0];
            && Held(w, item.c) && item.c in w.peers && !w.peers[item.c].freed && w.peers[item.c].loop == l
            && Do(w, BeginEvent(l)).loops[l].handler == InHandler(item.c, Callbacks(item.revents))
  {
    ReachedInv(w);
    ListedIsHeld(w, l, 0);
    BeginHeld(w, l);
    assert ConnInv(w, w.loops[l].active[0].c);
  }

  // ----------------------------------------------------- names and loops

  /** newConnection's assignment into the map never displaces a connection. */
  lemma AcceptDisplacesNobody(w: World, fd: int, d: ConnId)
    requires Reached(w) && Enabled(w, AcceptStep(fd)) && d in w.peers
    ensures w.server.NameOf(w.server.nextConnId) !in w.server.connections
    ensures Owns(Do(w, AcceptStep(fd)).server, d) <==> Owns(w.server, d)
  {
    ReachedInv(w);
    assert PeersOk(w);
    RegisterInserts(w.server, d);
  }

  ghost predicate DealtInTurn(w: World) {
    && w.server.nextConnId > 0
    && w.server.next == NextAfter(w.server.numIo, w.server.nextConnId - 1)
    && forall c :: c in w.peers ==> 0 < c && w.peers[c].loop == NextLoop(w.server.numIo, NextAfter(w.server.numIo, c - 1)).0
  }

  lemma DealtRoster(w: World, w': World)
    requires DealtInTurn(w) && SameRoster(w, w')
    ensures DealtInTurn(w') && w'.server.numIo == w.server.numIo
  {
  }

  lemma DealtCallback(w: World, l: LoopId, o: Outcome)
    requires DealtInTurn(w) && Enabled(w, CallbackStep(l, o))
    ensures DealtInTurn(Do(w, CallbackStep(l, o))) && Do(w, CallbackStep(l, o)).server.numIo == w.server.numIo
  {
    var h := w.loops[l].handler;
    var w1 := SetLoop(w, l, w.loops[l].(handler := InHandler(h.c, h.rest[1..])));
    CallbackRoster(w1, h.c, h.rest[0], o);
    DealtRoster(w1, DoCallback(w1, h.c, h.rest[0], o));
  }

  lemma DealtFunctor(w: World, l: LoopId)
    requires DealtInTurn(w) && Enabled(w, FunctorStep(l))
    ensures DealtInTurn(Do(w, FunctorStep(l))) && Do(w, FunctorStep(l)).server.numIo == w.server.numIo
  {
    var w1 := PopFunctor(w, l);
    FunctorRoster(w1, w.loops[l].batch[0]);
    DealtRoster(w1, DoFunctor(w1, w.loops[l].batch[0]));
  }

  lemma DealtBacklog(w: World, d: ConnId)
    requires DealtInTurn(w) && Enabled(w, UserBacklog(d))
    ensures DealtInTurn(Do(w, UserBacklog(d))) && Do(w, UserBacklog(d)).server.numIo == w.server.numIo
  {
    var mask := WithWriting(w.peers[d].ch.events);
    UpdateRoster(w, d, mask);
    DealtRoster(w, SubmitMask(w, d, mask));
  }

  lemma DealtStep(w: World, s: Step)
    requires DealtInTurn(w) && Enabled(w, s)
    ensures DealtInTurn(Do(w, s)) && Do(w, s).server.numIo == w.server.numIo
  {
    match s
    case AcceptStep(fd) => DealtAccept(PopItem(w, BASE), fd);
    case CallbackStep(l, o) => DealtCallback(w, l, o);
    case FunctorStep(l) => DealtFunctor(w, l);
    case UserBacklog(d) => DealtBacklog(w, d);
    case _ => DealtPlain(w, s);
  }

  lemma DealtPlain(w: World, s: Step)
    requires DealtInTurn(w) && Enabled(w, s)
    requires !s.AcceptStep? && !s.CallbackStep? && !s.FunctorStep? && !s.UserBacklog?
    ensures DealtInTurn(Do(w, s)) && Do(w, s).server.numIo == w.server.numIo
  {
    var w' := Do(w, s);
    assert w'.server == w.server && w'.peers.Keys == w.peers.Keys;
  }

  lemma DealtAccept(w: World, fd: int)
    requires DealtInTurn(w) && w.server.Ok() && |w.loops| == w.server.numIo + 1
    ensures DealtInTurn(DoAccept(w, fd)) && DoAccept(w, fd).server.numIo == w.server.numIo
  {
    var (w1, c) := (Create(w, fd), w.server.nextConnId);
    assert DealtInTurn(w1);
    if w1.peers[c].loop == BASE {
      UpdateRoster(MarkEstablished(w1, c), c, WithReading(NONE_EVENT));
    }
  }

  lemma {:induction false} DealtRun(w: World, steps: seq<Step>)
    requires DealtInTurn(w) && Legal(w, steps)
    ensures DealtInTurn(Run(w, steps)) && Run(w, steps).server.numIo == w.server.numIo
    decreases |steps|
  {
    if steps != [] {
      DealtStep(w, steps[0]);
      DealtRun(Do(w, steps[0]), steps[1..]);
    }
  }

  /** The k-th connection lives on I/O loop k mod n, for good. */
  lemma ConnectionsDealtInTurn(name: string, ipPort: string, numIo: nat, steps: seq<Step>, c: ConnId)
    requires |ipPort| <= 21 && Legal(Init(name, ipPort, numIo), steps)
    requires c in Run(Init(name, ipPort, numIo), steps).peers
    ensures c > 0
    ensures Run(Init(name, ipPort, numIo), steps).peers[c].loop == if numIo == 0 then BASE else 1 + (c - 1) % numIo
  {
    DealtRun(Init(name, ipPort, numIo), steps);
    RoundRobin(numIo, c - 1);
  }
}
