/** The invariant of the connection lifecycle and its preservation by every step. */
module LifecycleInv {
  import opened Names
  import opened Epoll
  import opened Server
  import opened ConnStates
  import opened Lifecycle

  // ------------------------------------------------------------- invariant

  /** The stages of one connection: what its fields, its entry in the server's
      map, the functors queued for it and its registration say together. */
  predicate Stage(p: Peer, owned: bool, nE: nat, nR: nat, nD: nat, registered: bool, mapped: bool) {
    && p.ch.index != Deleted
    && (registered <==> p.ch.index == Added) && (mapped <==> p.ch.index == Added)
    && match p.state
       case Connecting =>
         && nE == 1 && nR == 0 && nD == 0 && owned && !registered && !p.freed
         && p.ch.events == NONE_EVENT && p.adds == 0 && p.dels == 0 && p.established == 0 && p.closes == 0 && p.destroys == 0
       case Disconnected =>
         && nE == 0 && p.ch.events == NONE_EVENT && p.adds == 1 && p.established == 1
         && p.closes > 0 && p.closes == nR + nD + p.destroys && (registered <==> p.destroys == 0)
         && (owned ==> nR > 0 && nD == 0 && registered)
         && (registered ==> p.dels == 0 && !p.freed && (owned || nD > 0))
         && (!registered ==> p.dels == 1)
         && (p.freed ==> nR == 0 && nD == 0)
       case _ =>
         && nE == 0 && nR == 0 && nD == 0 && owned && registered && !p.freed
         && IsReading(p.ch.events) && p.adds == 1 && p.dels == 0 && p.established == 1 && p.closes == 0 && p.destroys == 0
  }

  ghost predicate Registered(w: World, c: ConnId)
    requires Known(w, c)
  {
    var p := w.peers[c];
    var k := w.loops[p.loop].poller.kernel;
    p.ch.fd in k && k[p.ch.fd].ptr == c
  }

  ghost predicate Mapped(w: World, c: ConnId)
    requires Known(w, c)
  {
    var p := w.peers[c];
    var m := w.loops[p.loop].poller.channels;
    p.ch.fd in m && m[p.ch.fd] == c
  }

  ghost predicate ConnInv(w: World, c: ConnId)
    requires Known(w, c) && |w.loops| > 0
  {
    var p := w.peers[c];
    Stage(p, Owns(w.server, c),
          Count(w.loops[p.loop], Established(c)), Count(w.loops[BASE], RemoveInLoop(c)),
          Count(w.loops[p.loop], Destroyed(c)), Registered(w, c), Mapped(w, c))
  }

  /** c is registered with loop l, under fd. */
  predicate OnLoop(w: World, l: LoopId, c: ConnId) {
    c in w.peers && w.peers[c].loop == l && w.peers[c].ch.index == Added
  }

  ghost predicate PollerOk(w: World, l: LoopId)
    requires l < |w.loops|
  {
    var p := w.loops[l].poller;
    && p.failures == 0
    && (forall fd :: fd in p.kernel ==> OnLoop(w, l, p.kernel[fd].ptr) && w.peers[p.kernel[fd].ptr].ch.fd == fd)
    && (forall fd :: fd in p.channels ==> OnLoop(w, l, p.channels[fd]) && w.peers[p.channels[fd]].ch.fd == fd)
  }

  ghost predicate ShapeOk(w: World, l: LoopId)
    requires l < |w.loops|
  {
    var s := w.loops[l];
    && (s.phase != Dispatching ==> s.active == [] && s.handler == NoHandler)
    && (s.phase != Calling ==> s.batch == [])
    && (forall i :: 0 <= i < |s.active| && s.active[i].ConnItem? ==> OnLoop(w, l, s.active[i].c))
    && (s.handler.InHandler? ==> OnLoop(w, l, s.handler.c))
  }

  /** Functors wait on the loop that has to run them. */
  ghost predicate QueuesOk(w: World, l: LoopId)
    requires l < |w.loops|
  {
    forall f :: Count(w.loops[l], f) > 0 && f != UserFunctor ==>
      f.c in w.peers && (if f.RemoveInLoop? then l == BASE else w.peers[f.c].loop == l)
  }

  ghost predicate FdsOk(w: World) {
    forall c, d :: c in w.peers && d in w.peers && c != d && !w.peers[c].freed && !w.peers[d].freed ==>
      w.peers[c].ch.fd != w.peers[d].ch.fd
  }

  ghost predicate ServerOk(w: World) {
    && NamesOk(w.server) && w.server.nextConnId <= INT_MAX + 1
    && (forall n :: n in w.server.connections ==> w.server.connections[n] in w.peers)
  }

  ghost predicate PeersOk(w: World) {
    forall c :: c in w.peers ==>
      c < w.server.nextConnId && w.peers[c].loop < |w.loops| && w.peers[c].ch.self == c
  }

  /** Everything but the stage of connection c. */
  ghost predicate InvBut(w: World, c: ConnId) {
    && |w.loops| == w.server.numIo + 1 && w.lockFailures == 0
    && ServerOk(w) && PeersOk(w) && FdsOk(w)
    && (forall l :: 0 <= l < |w.loops| ==> PollerOk(w, l) && ShapeOk(w, l) && QueuesOk(w, l))
    && (forall d :: d in w.peers && d != c ==> ConnInv(w, d))
  }

  ghost predicate Inv(w: World) {
    && |w.loops| == w.server.numIo + 1 && w.lockFailures == 0
    && ServerOk(w) && PeersOk(w) && FdsOk(w)
    && (forall l :: 0 <= l < |w.loops| ==> PollerOk(w, l) && ShapeOk(w, l) && QueuesOk(w, l))
    && (forall d :: d in w.peers ==> ConnInv(w, d))
  }

  // ------------------------------------------------------------ bookkeeping

  lemma CountPush(l: LoopState, f: Functor, g: Functor)
    ensures Count(l.(pending := l.pending + [f]), g) == Count(l, g) + (if f == g then 1 else 0)
  {
  }

  lemma CountPop(l: LoopState, g: Functor)
    requires l.batch != []
    ensures Count(l.(batch := l.batch[1..]), g) == Count(l, g) - (if l.batch[0] == g then 1 else 0)
  {
    assert l.batch == [l.batch[0]] + l.batch[1..];
  }

  lemma CountSwap(l: LoopState, p: Phase, g: Functor)
    requires l.batch == []
    ensures Count(l.(phase := p, batch := l.pending, pending := []), g) == Count(l, g)
  {
  }

  // --------------------------------------------------------------- frames

  /** What the loops say about registered channels survives any change outside
      the loops that keeps each channel's loop, fd and index. */
  lemma LoopsUnmoved(w: World, w': World, m: LoopId)
    requires m < |w.loops| && w'.loops == w.loops
    requires forall d :: d in w.peers ==>
               && d in w'.peers && w'.peers[d].loop == w.peers[d].loop
               && w'.peers[d].ch.fd == w.peers[d].ch.fd && w'.peers[d].ch.index == w.peers[d].ch.index
    requires PollerOk(w, m) && ShapeOk(w, m) && QueuesOk(w, m)
    ensures PollerOk(w', m) && ShapeOk(w', m) && QueuesOk(w', m)
  {
  }

  /** The stage of a connection depends on its own record, its own entry, its
      own functors and its own registration. */
  lemma ConnUnmoved(w: World, w': World, d: ConnId)
    requires Known(w, d) && |w'.loops| == |w.loops| && ConnInv(w, d)
    requires d in w'.peers && w'.peers[d] == w.peers[d]
    requires Owns(w'.server, d) <==> Owns(w.server, d)
    requires forall m :: 0 <= m < |w.loops| ==>
               && w'.loops[m].poller == w.loops[m].poller
               && Count(w'.loops[m], Established(d)) == Count(w.loops[m], Established(d))
               && Count(w'.loops[m], RemoveInLoop(d)) == Count(w.loops[m], RemoveInLoop(d))
               && Count(w'.loops[m], Destroyed(d)) == Count(w.loops[m], Destroyed(d))
    ensures ConnInv(w', d)
  {
  }

  // ---------------------------------------------------------------- queues

  /** f may wait on loop l. */
  predicate Fits(w: World, l: LoopId, f: Functor) {
    f != UserFunctor ==> f.c in w.peers && (if f.RemoveInLoop? then l == BASE else w.peers[f.c].loop == l)
  }

  lemma PushLoop(w: World, l: LoopId, f: Functor, m: LoopId)
    requires l < |w.loops| && m < |w.loops| && Fits(w, l, f)
    requires PollerOk(w, m) && ShapeOk(w, m) && QueuesOk(w, m)
    ensures var w' := Push(w, l, f); PollerOk(w', m) && ShapeOk(w', m) && QueuesOk(w', m)
  {
    var w' := Push(w, l, f);
    forall g: Functor | Count(w'.loops[m], g) > 0 && g != UserFunctor
      ensures Fits(w', m, g)
    {
      if l == m { CountPush(w.loops[l], f, g); }
    }
  }

  /** Other connections do not notice a push. */
  lemma PushOther(w: World, l: LoopId, f: Functor, d: ConnId)
    requires l < |w.loops| && Known(w, d) && ConnInv(w, d)
    requires f != UserFunctor ==> f.c != d
    ensures ConnInv(Push(w, l, f), d)
  {
    CountPush(w.loops[l], f, Established(d));
    CountPush(w.loops[l], f, RemoveInLoop(d));
    CountPush(w.loops[l], f, Destroyed(d));
    ConnUnmoved(w, Push(w, l, f), d);
  }

  lemma PushKeeps(w: World, l: LoopId, f: Functor, but: ConnId)
    requires InvBut(w, but) && l < |w.loops| && Fits(w, l, f)
    requires f != UserFunctor ==> f.c == but
    ensures InvBut(Push(w, l, f), but)
  {
    forall m | 0 <= m < |w.loops|
      ensures var w' := Push(w, l, f); PollerOk(w', m) && ShapeOk(w', m) && QueuesOk(w', m)
    {
      PushLoop(w, l, f, m);
    }
    forall d | d in w.peers && d != but
      ensures ConnInv(Push(w, l, f), d)
    {
      PushOther(w, l, f, d);
    }
  }

  // ------------------------------------------- registering, deregistering

  /** A new record for c and a new poller state for its loop. */
  function Replace(w: World, c: ConnId, p: Peer, q: PollerState<ConnId>): World
    requires Known(w, c)
  {
    SetLoop(w, w.peers[c].loop, w.loops[w.peers[c].loop].(poller := q)).(peers := w.peers[c := p])
  }

  /** Until c is freed its fd is its own: no other channel is registered under it. */
  lemma FdIsMine(w: World, c: ConnId)
    requires InvBut(w, c) && Known(w, c) && !w.peers[c].freed
    ensures var (p, q) := (w.peers[c], w.loops[w.peers[c].loop].poller);
            && (p.ch.fd in q.kernel ==> q.kernel[p.ch.fd].ptr == c && p.ch.index == Added)
            && (p.ch.fd in q.channels ==> q.channels[p.ch.fd] == c && p.ch.index == Added)
  {
    var p := w.peers[c];
    var q := w.loops[p.loop].poller;
    assert PollerOk(w, p.loop);
    if p.ch.fd in q.kernel && q.kernel[p.ch.fd].ptr != c {
      RegisteredIsLive(w, c, q.kernel[p.ch.fd].ptr);
    }
    if p.ch.fd in q.channels && q.channels[p.ch.fd] != c {
      RegisteredIsLive(w, c, q.channels[p.ch.fd]);
    }
  }

  lemma RegisteredIsLive(w: World, but: ConnId, d: ConnId)
    requires InvBut(w, but) && d in w.peers && d != but && w.peers[d].ch.index == Added
    ensures !w.peers[d].freed
  {
    assert ConnInv(w, d);
  }

  /** The new poller state differs at c's fd only, and there agrees with c's index. */
  ghost predicate OwnEntryOnly(w: World, c: ConnId, p: Peer, q: PollerState<ConnId>)
    requires Known(w, c)
  {
    var o := w.peers[c];
    && p.loop == o.loop && p.ch.fd == o.ch.fd && p.ch.self == c && p.freed == o.freed
    && q.failures == 0
    && (forall fd :: fd != o.ch.fd ==> SameAt(w.loops[o.loop].poller, q, fd))
    && (if p.ch.index == Added
        then o.ch.fd in q.kernel && q.kernel[o.ch.fd].ptr == c && o.ch.fd in q.channels && q.channels[o.ch.fd] == c
        else o.ch.fd !in q.kernel && o.ch.fd !in q.channels)
  }

  /** No dispatch on its loop refers to c. */
  ghost predicate NotDispatched(w: World, c: ConnId)
    requires Known(w, c)
  {
    var s := w.loops[w.peers[c].loop];
    && (forall i :: 0 <= i < |s.active| && s.active[i].ConnItem? ==> s.active[i].c != c)
    && (s.handler.InHandler? ==> s.handler.c != c)
  }

  lemma ReplacePoller(w: World, c: ConnId, p: Peer, q: PollerState<ConnId>, m: LoopId)
    requires Known(w, c) && m < |w.loops| && OwnEntryOnly(w, c, p, q) && PollerOk(w, m)
    ensures PollerOk(Replace(w, c, p, q), m)
  {
    var w' := Replace(w, c, p, q);
    var fd := p.ch.fd;
    var k, k' := w.loops[m].poller, w'.loops[m].poller;
    forall f | f in k'.kernel
      ensures OnLoop(w', m, k'.kernel[f].ptr) && w'.peers[k'.kernel[f].ptr].ch.fd == f
    {
      if m == p.loop && f != fd { assert SameAt(k, k', f); }
    }
    forall f | f in k'.channels
      ensures OnLoop(w', m, k'.channels[f]) && w'.peers[k'.channels[f]].ch.fd == f
    {
      if m == p.loop && f != fd { assert SameAt(k, k', f); }
    }
  }

  lemma ReplaceLoop(w: World, c: ConnId, p: Peer, q: PollerState<ConnId>, m: LoopId)
    requires Known(w, c) && m < |w.loops| && OwnEntryOnly(w, c, p, q)
    requires PollerOk(w, m) && ShapeOk(w, m) && QueuesOk(w, m)
    requires p.ch.index == Added || NotDispatched(w, c)
    ensures var w' := Replace(w, c, p, q); PollerOk(w', m) && ShapeOk(w', m) && QueuesOk(w', m)
  {
    var w' := Replace(w, c, p, q);
    ReplacePoller(w, c, p, q, m);
    assert ShapeOk(w', m);
    forall g: Functor
      ensures Count(w'.loops[m], g) == Count(w.loops[m], g)
    {
    }
  }

  lemma ReplaceOther(w: World, c: ConnId, p: Peer, q: PollerState<ConnId>, d: ConnId)
    requires InvBut(w, c) && Known(w, c) && OwnEntryOnly(w, c, p, q) && d in w.peers && d != c
    requires !w.peers[c].freed
    ensures ConnInv(Replace(w, c, p, q), d)
  {
    var w' := Replace(w, c, p, q);
    assert ConnInv(w, d);
    FdIsMine(w, c);
    var o := w.peers[d];
    if o.loop == p.loop {
      if o.ch.fd != p.ch.fd {
        assert SameAt(w.loops[p.loop].poller, q, o.ch.fd);
      } else {
        assert !Registered(w, d) && !Mapped(w, d);
      }
    }
    assert Registered(w', d) == Registered(w, d) && Mapped(w', d) == Mapped(w, d);
  }

  lemma ReplaceKeeps(w: World, c: ConnId, p: Peer, q: PollerState<ConnId>)
    requires InvBut(w, c) && Known(w, c) && !w.peers[c].freed && OwnEntryOnly(w, c, p, q)
    requires p.ch.index == Added || NotDispatched(w, c)
    ensures InvBut(Replace(w, c, p, q), c)
  {
    var w' := Replace(w, c, p, q);
    forall m | 0 <= m < |w.loops|
      ensures PollerOk(w', m) && ShapeOk(w', m) && QueuesOk(w', m)
    {
      ReplaceLoop(w, c, p, q, m);
    }
    forall d | d in w'.peers && d != c
      ensures ConnInv(w', d)
    {
      ReplaceOther(w, c, p, q, d);
    }
  }
}
