/** Every step of the lifecycle keeps its invariant. */
module LifecycleSteps {
  import opened Names
  import opened Epoll
  import opened Server
  import opened ConnStates
  import opened Lifecycle
  import opened LifecycleInv

  lemma Whole(w: World, c: ConnId)
    requires InvBut(w, c) && (c in w.peers ==> ConnInv(w, c))
    ensures Inv(w)
  {
  }

  lemma Part(w: World, c: ConnId)
    requires Inv(w)
    ensures InvBut(w, c)
  {
  }

  // --------------------------------------------------- steps on one record

  /** A change of c's record that leaves its registration alone. */
  lemma PeerKeeps(w: World, c: ConnId, p: Peer)
    requires InvBut(w, c) && Known(w, c) && !w.peers[c].freed
    requires var o := w.peers[c];
             && p.loop == o.loop && p.freed == o.freed
             && p.ch.fd == o.ch.fd && p.ch.self == o.ch.self && p.ch.index == o.ch.index
             && (Registered(w, c) <==> o.ch.index == Added) && (Mapped(w, c) <==> o.ch.index == Added)
    ensures InvBut(w.(peers := w.peers[c := p]), c)
  {
    FdIsMine(w, c);
    var q := w.loops[p.loop].poller;
    assert PollerOk(w, p.loop);
    ReplaceKeeps(w, c, p, q);
    assert w.loops[p.loop := w.loops[p.loop].(poller := q)] == w.loops;
    assert Replace(w, c, p, q) == w.(peers := w.peers[c := p]);
  }

  /** It changes what the poller holds for its own fd only. */
  lemma SubmitOwnEntry(w: World, c: ConnId, mask: Mask)
    requires InvBut(w, c) && Known(w, c) && !w.peers[c].freed && !IsNone(mask)
    requires w.peers[c].ch.index != Deleted
    requires (Registered(w, c) <==> w.peers[c].ch.index == Added) && (Mapped(w, c) <==> w.peers[c].ch.index == Added)
    ensures var o := w.peers[c];
            var (q, ch) := Updated(w.loops[o.loop].poller, o.ch.(events := mask));
            OwnEntryOnly(w, c, SubmitMask(w, c, mask).peers[c], q) && ch.index == Added
  {
    FdIsMine(w, c);
    var o := w.peers[c];
    var (q, ch) := Updated(w.loops[o.loop].poller, o.ch.(events := mask));
    assert PollerOk(w, o.loop);
    forall fd | fd != o.ch.fd
      ensures SameAt(w.loops[o.loop].poller, q, fd)
    {
      OtherFdsUntouched(w.loops[o.loop].poller, o.ch.(events := mask), fd);
    }
  }

  /** An update that (re)submits a mask for a connection that is not freed. */
  lemma SubmitKeeps(w: World, c: ConnId, mask: Mask)
    requires InvBut(w, c) && Known(w, c) && !w.peers[c].freed && !IsNone(mask)
    requires w.peers[c].ch.index != Deleted
    requires (Registered(w, c) <==> w.peers[c].ch.index == Added) && (Mapped(w, c) <==> w.peers[c].ch.index == Added)
    ensures var w' := SubmitMask(w, c, mask);
            && InvBut(w', c) && Known(w', c) && Registered(w', c) && Mapped(w', c)
  {
    var o := w.peers[c];
    var (q, _) := Updated(w.loops[o.loop].poller, o.ch.(events := mask));
    var p := SubmitMask(w, c, mask).peers[c];
    SubmitOwnEntry(w, c, mask);
    ReplaceKeeps(w, c, p, q);
    assert SubmitMask(w, c, mask) == Replace(w, c, p, q);
  }

  /** Created and handed to its loop, with nothing queued for it any more. */
  ghost predicate Fresh(w: World, c: ConnId)
    requires Known(w, c) && |w.loops| > 0
  {
    var p := w.peers[c];
    && Owns(w.server, c) && !Registered(w, c) && !Mapped(w, c)
    && p.state == Connecting && p.ch.index == New && p.ch.events == NONE_EVENT
    && p.adds == 0 && p.dels == 0 && p.established == 0 && p.closes == 0 && p.destroys == 0 && !p.freed
    && Count(w.loops[p.loop], Established(c)) == 0 && Count(w.loops[p.loop], Destroyed(c)) == 0
    && Count(w.loops[BASE], RemoveInLoop(c)) == 0
  }

  lemma EstablishBut(w: World, c: ConnId)
    requires InvBut(w, c) && Known(w, c) && Fresh(w, c)
    ensures var w' := DoEstablished(w, c); InvBut(w', c) && Known(w', c) && Registered(w', c) && Mapped(w', c)
  {
    MarkEstablishedBut(w, c);
    SubmitKeeps(MarkEstablished(w, c), c, WithReading(w.peers[c].ch.events));
  }

  lemma MarkEstablishedBut(w: World, c: ConnId)
    requires InvBut(w, c) && Known(w, c) && Fresh(w, c)
    ensures var w1 := MarkEstablished(w, c);
            && InvBut(w1, c) && Known(w1, c) && !Registered(w1, c) && !Mapped(w1, c)
            && !w1.peers[c].freed && w1.peers[c].ch == w.peers[c].ch
  {
    PeerKeeps(w, c, MarkEstablished(w, c).peers[c]);
  }

  lemma EstablishStage(w: World, c: ConnId)
    requires Known(w, c) && |w.loops| > 0 && Fresh(w, c)
    requires var w' := DoEstablished(w, c); Known(w', c) && Registered(w', c) && Mapped(w', c)
    ensures ConnInv(DoEstablished(w, c), c)
  {
    var w' := DoEstablished(w, c);
    SameCounts(w, w');
    var p := w.peers[c];
    assert w'.peers[c] == p.(state := Connected, established := 1, adds := 1,
                             ch := p.ch.(events := READ_EVENT, index := Added));
  }

  lemma EstablishKeeps(w: World, c: ConnId)
    requires InvBut(w, c) && Known(w, c) && Fresh(w, c)
    ensures Inv(DoEstablished(w, c))
  {
    EstablishBut(w, c);
    EstablishStage(w, c);
    Whole(DoEstablished(w, c), c);
  }

  /** A poller update moves no functor. */
  lemma SameCounts(w: World, w': World)
    requires |w.loops| == |w'.loops|
    requires forall l :: 0 <= l < |w.loops| ==>
               w'.loops[l].batch == w.loops[l].batch && w'.loops[l].pending == w.loops[l].pending
    ensures forall l, f :: 0 <= l < |w.loops| ==> Count(w'.loops[l], f) == Count(w.loops[l], f)
  {
  }

  /** Erasing c's entry in the server's map disturbs nobody else. */
  lemma EraseKeeps(w: World, c: ConnId)
    requires InvBut(w, c) && c in w.peers
    ensures InvBut(w.(server := Erase(w.server, c)), c) && !Owns(Erase(w.server, c), c)
  {
    var w' := w.(server := Erase(w.server, c));
    EraseRemovesOnlyItself(w.server, c, c);
    forall d | d in w.peers && d != c
      ensures ConnInv(w', d)
    {
      EraseRemovesOnlyItself(w.server, c, d);
      ConnUnmoved(w, w', d);
    }
    forall m | 0 <= m < |w.loops|
      ensures PollerOk(w', m) && ShapeOk(w', m) && QueuesOk(w', m)
    {
      LoopsUnmoved(w, w', m);
    }
  }

  /** A closed connection of which one close is being dealt with: the functor that
      answers it has been taken off its queue or is not queued yet. */
  ghost predicate Closed(w: World, c: ConnId)
    requires Known(w, c) && |w.loops| > 0
  {
    var p := w.peers[c];
    && p.state == Disconnected && p.ch.events == NONE_EVENT && p.ch.index != Deleted && !p.freed
    && p.adds == 1 && p.established == 1 && p.closes > 0
    && (Registered(w, c) <==> p.ch.index == Added) && (Mapped(w, c) <==> p.ch.index == Added)
    && p.dels == (if p.ch.index == Added then 0 else 1)
    && Count(w.loops[p.loop], Established(c)) == 0
    && p.closes == Count(w.loops[BASE], RemoveInLoop(c)) + Count(w.loops[p.loop], Destroyed(c)) + p.destroys + 1
    && (p.ch.index == Added <==> p.destroys == 0)
  }

  lemma RemoveKeeps(w: World, c: ConnId)
    requires InvBut(w, c) && Known(w, c) && Closed(w, c)
    ensures Inv(DoRemoveInLoop(w, c))
  {
    EraseKeeps(w, c);
    var w1 := w.(server := Erase(w.server, c));
    var l := w.peers[c].loop;
    PushKeeps(w1, l, Destroyed(c), c);
    var w' := DoRemoveInLoop(w, c);
    CountPush(w.loops[l], Destroyed(c), Destroyed(c));
    CountPush(w.loops[l], Destroyed(c), Established(c));
    CountPush(w.loops[l], Destroyed(c), RemoveInLoop(c));
    assert ConnInv(w', c);
    Whole(w', c);
  }

  lemma MarkClosedStage(w: World, c: ConnId)
    requires Known(w, c) && |w.loops| > 0 && ConnInv(w, c) && w.peers[c].ch.index == Added
    ensures var w1 := MarkClosed(w, c);
            Known(w1, c) && Closed(w1, c) && (!Owns(w1.server, c) ==> Count(w1.loops[w1.peers[c].loop], Destroyed(c)) > 0)
            && (Owns(w1.server, c) ==> Count(w1.loops[w1.peers[c].loop], Destroyed(c)) == 0)
  {
  }

  lemma TellBaseStage(w: World, c: ConnId)
    requires Known(w, c) && |w.loops| > 0 && Closed(w, c) && w.peers[c].loop != BASE && w.peers[c].ch.index == Added
    requires !Owns(w.server, c) ==> Count(w.loops[w.peers[c].loop], Destroyed(c)) > 0
    requires Owns(w.server, c) ==> Count(w.loops[w.peers[c].loop], Destroyed(c)) == 0
    ensures ConnInv(Push(w, BASE, RemoveInLoop(c)), c)
  {
    CountPush(w.loops[BASE], RemoveInLoop(c), RemoveInLoop(c));
  }

  lemma CloseKeeps(w: World, c: ConnId)
    requires Inv(w) && Known(w, c) && w.peers[c].ch.index == Added
    ensures Inv(DoClose(w, c))
  {
    Part(w, c);
    var w1 := MarkClosed(w, c);
    MarkClosedStage(w, c);
    PeerKeeps(w, c, w1.peers[c]);
    if w.peers[c].loop == BASE {
      RemoveKeeps(w1, c);
    } else {
      PushKeeps(w1, BASE, RemoveInLoop(c), c);
      TellBaseStage(w1, c);
      Whole(DoClose(w, c), c);
    }
  }

  lemma DestroyKeeps(w: World, c: ConnId)
    requires InvBut(w, c) && Known(w, c) && Closed(w, c) && !Owns(w.server, c)
    requires w.loops[w.peers[c].loop].phase == Calling
    ensures Inv(DoDestroyed(w, c))
  {
    FdIsMine(w, c);
    var o := w.peers[c];
    var (q, ch) := Removed(w.loops[o.loop].poller, o.ch);
    var p := DoDestroyed(w, c).peers[c];
    assert PollerOk(w, o.loop) && ShapeOk(w, o.loop);
    forall fd | fd != o.ch.fd
      ensures SameAt(w.loops[o.loop].poller, q, fd)
    {
      OtherFdsUntouched(w.loops[o.loop].poller, o.ch, fd);
    }
    ReplaceKeeps(w, c, p, q);
    var w' := DoDestroyed(w, c);
    assert w' == Replace(w, c, p, q);
    SameCounts(w, w');
    assert ConnInv(w', c);
    Whole(w', c);
  }

  /** An update of a connection that is up changes its mask and nothing else. */
  lemma UpdateKeeps(w: World, c: ConnId, mask: Mask)
    requires Inv(w) && Known(w, c) && IsReading(mask)
    requires w.peers[c].state == Connected || w.peers[c].state == Disconnecting
    ensures Inv(SubmitMask(w, c, mask))
  {
    Part(w, c);
    UpIsRegistered(w, c);
    SubmitKeeps(w, c, mask);
    StageAfterUpdate(w, c, mask);
    Whole(SubmitMask(w, c, mask), c);
  }

  lemma UpIsRegistered(w: World, c: ConnId)
    requires Known(w, c) && |w.loops| > 0 && ConnInv(w, c)
    requires w.peers[c].state == Connected || w.peers[c].state == Disconnecting
    ensures w.peers[c].ch.index == Added && !w.peers[c].freed && Registered(w, c) && Mapped(w, c)
  {
  }

  lemma StageAfterUpdate(w: World, c: ConnId, mask: Mask)
    requires Known(w, c) && |w.loops| > 0 && ConnInv(w, c) && IsReading(mask)
    requires w.peers[c].state == Connected || w.peers[c].state == Disconnecting
    requires var w' := SubmitMask(w, c, mask);
             && Known(w', c) && Registered(w', c) && Mapped(w', c)
    ensures ConnInv(SubmitMask(w, c, mask), c)
  {
    SameCounts(w, SubmitMask(w, c, mask));
    var p := w.peers[c];
    assert SubmitMask(w, c, mask).peers[c] == p.(ch := p.ch.(events := mask));
  }

  // ---------------------------------------------------------- new records

  ghost predicate FdIsFree(w: World, fd: int) {
    forall c :: c in w.peers && !w.peers[c].freed ==> w.peers[c].ch.fd != fd
  }

  lemma CreateBut(w: World, fd: int)
    requires Inv(w) && w.server.nextConnId <= INT_MAX && FdIsFree(w, fd)
    ensures InvBut(Create(w, fd), w.server.nextConnId)
  {
    var w1 := Create(w, fd);
    RegisterKeepsNames(w.server);
    forall m | 0 <= m < |w.loops|
      ensures PollerOk(w1, m) && ShapeOk(w1, m) && QueuesOk(w1, m)
    {
      LoopsUnmoved(w, w1, m);
    }
    forall d | d in w.peers
      ensures ConnInv(w1, d)
    {
      RegisterInserts(w.server, d);
      ConnUnmoved(w, w1, d);
    }
    CreateServer(w, fd);
  }

  lemma CreateServer(w: World, fd: int)
    requires ServerOk(w) && PeersOk(w) && FdsOk(w) && w.server.nextConnId <= INT_MAX && FdIsFree(w, fd)
    requires |w.loops| == w.server.numIo + 1
    ensures ServerOk(Create(w, fd)) && PeersOk(Create(w, fd)) && FdsOk(Create(w, fd))
  {
    RegisterKeepsNames(w.server);
  }

  /** Nothing can be queued or registered yet for a number not given out. */
  lemma CreateFresh(w: World, fd: int)
    requires Inv(w) && w.server.nextConnId <= INT_MAX && FdIsFree(w, fd)
    ensures var (w1, c) := (Create(w, fd), w.server.nextConnId);
            Known(w1, c) && Fresh(w1, c)
  {
    var (w1, c) := (Create(w, fd), w.server.nextConnId);
    RegisterKeepsNames(w.server);
    assert c !in w.peers by { assert PeersOk(w); }
    var l := w1.peers[c].loop;
    assert PollerOk(w, l) && QueuesOk(w, l) && QueuesOk(w, BASE);
    assert Count(w.loops[l], Established(c)) == 0 && Count(w.loops[l], Destroyed(c)) == 0;
    assert Count(w.loops[BASE], RemoveInLoop(c)) == 0;
  }

  lemma FreshStage(w: World, c: ConnId)
    requires Known(w, c) && |w.loops| > 0 && Fresh(w, c)
    ensures ConnInv(Push(w, w.peers[c].loop, Established(c)), c)
  {
    var l := w.peers[c].loop;
    CountPush(w.loops[l], Established(c), Established(c));
    CountPush(w.loops[l], Established(c), Destroyed(c));
    CountPush(w.loops[l], Established(c), RemoveInLoop(c));
  }

  lemma AcceptKeeps(w: World, fd: int)
    requires Inv(w) && w.server.nextConnId <= INT_MAX && FdIsFree(w, fd)
    ensures Inv(DoAccept(w, fd))
  {
    var (w1, c) := (Create(w, fd), w.server.nextConnId);
    CreateBut(w, fd);
    CreateFresh(w, fd);
    if w1.peers[c].loop == BASE {
      EstablishKeeps(w1, c);
    } else {
      PushKeeps(w1, w1.peers[c].loop, Established(c), c);
      FreshStage(w1, c);
      Whole(DoAccept(w, fd), c);
    }
  }

  function Freed(w: World, c: ConnId): World
    requires c in w.peers
  {
    w.(peers := w.peers[c := w.peers[c].(freed := true)])
  }

  lemma FreeBut(w: World, c: ConnId)
    requires Inv(w) && c in w.peers
    ensures InvBut(Freed(w, c), c)
  {
    var w' := Freed(w, c);
    forall m | 0 <= m < |w.loops|
      ensures PollerOk(w', m) && ShapeOk(w', m) && QueuesOk(w', m)
    {
      LoopsUnmoved(w, w', m);
    }
    forall d | d in w.peers && d != c
      ensures ConnInv(w', d)
    {
      ConnUnmoved(w, w', d);
    }
    FreeFds(w, c);
  }

  lemma FreeFds(w: World, c: ConnId)
    requires c in w.peers && FdsOk(w) && PeersOk(w) && ServerOk(w)
    ensures FdsOk(Freed(w, c)) && PeersOk(Freed(w, c)) && ServerOk(Freed(w, c))
  {
  }

  lemma FreeKeeps(w: World, c: ConnId)
    requires Inv(w) && c in w.peers && !w.peers[c].freed && !Held(w, c)
    ensures Inv(Freed(w, c))
  {
    UnheldIsGone(w, c);
    FreeBut(w, c);
    Whole(Freed(w, c), c);
  }

  /** Nobody refers to it: then it has closed and left its poller. */
  lemma UnheldIsGone(w: World, c: ConnId)
    requires Inv(w) && c in w.peers && !w.peers[c].freed && !Held(w, c)
    ensures w.peers[c].state == Disconnected && w.peers[c].ch.index == New
    ensures ConnInv(Freed(w, c), c)
  {
    assert ConnInv(w, c);
    var p := w.peers[c];
    assert Count(w.loops[p.loop], Established(c)) == 0;
    assert Count(w.loops[p.loop], Destroyed(c)) == 0;
    assert Count(w.loops[BASE], RemoveInLoop(c)) == 0;
  }

  // ------------------------------------------------- steps of a loop thread

  /** s holds no more functors than t, and those of others than `but` unchanged. */
  ghost predicate FewerFor(s: LoopState, t: LoopState, but: ConnId) {
    && (forall f: Functor :: Count(s, f) <= Count(t, f))
    && (forall f: Functor :: f != UserFunctor && f.c != but ==> Count(s, f) == Count(t, f))
  }

  /** A loop moves on without touching its poller or any functor but `but`'s. */
  lemma LoopKeeps(w: World, l: LoopId, s: LoopState, but: ConnId)
    requires InvBut(w, but) && l < |w.loops| && s.poller == w.loops[l].poller
    requires FewerFor(s, w.loops[l], but)
    requires ShapeOk(SetLoop(w, l, s), l)
    ensures InvBut(SetLoop(w, l, s), but)
  {
    var w' := SetLoop(w, l, s);
    forall m | 0 <= m < |w.loops|
      ensures PollerOk(w', m) && ShapeOk(w', m) && QueuesOk(w', m)
    {
      LoopMoved(w, l, s, m);
    }
    forall d | d in w.peers && d != but
      ensures ConnInv(w', d)
    {
      ConnUnmoved(w, w', d);
    }
  }

  lemma LoopMoved(w: World, l: LoopId, s: LoopState, m: LoopId)
    requires l < |w.loops| && m < |w.loops| && s.poller == w.loops[l].poller
    requires forall f: Functor :: Count(s, f) <= Count(w.loops[l], f)
    requires ShapeOk(SetLoop(w, l, s), l)
    requires PollerOk(w, m) && ShapeOk(w, m) && QueuesOk(w, m)
    ensures var w' := SetLoop(w, l, s); PollerOk(w', m) && ShapeOk(w', m) && QueuesOk(w', m)
  {
  }

  /** The same when no functor moves at all. */
  lemma LoopMoves(w: World, l: LoopId, s: LoopState)
    requires Inv(w) && l < |w.loops| && s.poller == w.loops[l].poller
    requires forall f: Functor :: Count(s, f) == Count(w.loops[l], f)
    requires ShapeOk(SetLoop(w, l, s), l)
    ensures Inv(SetLoop(w, l, s))
  {
    var w' := SetLoop(w, l, s);
    forall c
      ensures InvBut(w', c)
    {
      Part(w, c);
      LoopKeeps(w, l, s, c);
    }
    assert InvBut(w', w.server.nextConnId);
    assert PeersOk(w');
  }

  // ------------------------------------------------------------ every step

  /** A registered connection is owned by the server or by a functor queued to
      destroy it on its own loop; so a dispatch finds it alive. */
  lemma RegisteredIsHeld(w: World, c: ConnId)
    requires Inv(w) && c in w.peers && w.peers[c].ch.index == Added
    ensures Owns(w.server, c) || Count(w.loops[w.peers[c].loop], Destroyed(c)) > 0
    ensures Held(w, c)
  {
    assert ConnInv(w, c);
  }

  lemma PopItemKeeps(w: World, l: LoopId)
    requires Inv(w) && l < |w.loops| && w.loops[l].active != [] && w.loops[l].phase == Dispatching
    ensures Inv(PopItem(w, l))
  {
    var s := w.loops[l].(active := w.loops[l].active[1..]);
    assert ShapeOk(w, l);
    assert ShapeOk(SetLoop(w, l, s), l);
    LoopMoves(w, l, s);
  }

  lemma PollKeeps(w: World, l: LoopId, items: seq<Item>)
    requires Inv(w) && Enabled(w, PollStep(l, items))
    ensures Inv(Do(w, PollStep(l, items)))
  {
    var s := w.loops[l].(phase := Dispatching, active := items);
    assert PollerOk(w, l) && ShapeOk(w, l);
    LoopMoves(w, l, s);
  }

  /** The lock is taken and the handler entered. */
  lemma BeginHeld(w: World, l: LoopId)
    requires Enabled(w, BeginEvent(l)) && Held(w, w.loops[l].active[0].c)
    ensures var item := w.loops[l].active[0];
            Do(w, BeginEvent(l)) == SetLoop(w, l, w.loops[l].(active := w.loops[l].active[1..],
                                                              handler := InHandler(item.c, Callbacks(item.revents))))
  {
  }

  lemma BeginShape(w: World, l: LoopId, h: Handler)
    requires l < |w.loops| && ShapeOk(w, l) && w.loops[l].active != [] && h.InHandler? && OnLoop(w, l, h.c)
    ensures ShapeOk(SetLoop(w, l, w.loops[l].(active := w.loops[l].active[1..], handler := h)), l)
  {
  }

  lemma BeginMoves(w: World, l: LoopId, h: Handler)
    requires Inv(w) && l < |w.loops| && w.loops[l].phase == Dispatching && w.loops[l].active != []
    requires h.InHandler? && OnLoop(w, l, h.c)
    ensures Inv(SetLoop(w, l, w.loops[l].(active := w.loops[l].active[1..], handler := h)))
  {
    BeginShape(w, l, h);
    LoopMoves(w, l, w.loops[l].(active := w.loops[l].active[1..], handler := h));
  }

  lemma BeginKeeps(w: World, l: LoopId)
    requires Inv(w) && Enabled(w, BeginEvent(l))
    ensures Inv(Do(w, BeginEvent(l)))
  {
    var item := w.loops[l].active[0];
    ListedIsHeld(w, l, 0);
    BeginHeld(w, l);
    BeginMoves(w, l, InHandler(item.c, Callbacks(item.revents)));
  }

  lemma ListedIsHeld(w: World, l: LoopId, i: nat)
    requires Inv(w) && l < |w.loops| && i < |w.loops[l].active| && w.loops[l].active[i].ConnItem?
    ensures OnLoop(w, l, w.loops[l].active[i].c) && Held(w, w.loops[l].active[i].c)
  {
    assert ShapeOk(w, l);
    RegisteredIsHeld(w, w.loops[l].active[i].c);
  }

  lemma EndBatchKeeps(w: World, l: LoopId)
    requires Inv(w) && Enabled(w, EndBatch(l))
    ensures Inv(Do(w, EndBatch(l)))
  {
    assert ShapeOk(w, l);
    LoopMoves(w, l, w.loops[l].(phase := Polling));
  }

  lemma HandlerKeeps(w: World, l: LoopId, h: Handler)
    requires Inv(w) && l < |w.loops| && w.loops[l].handler.InHandler?
    requires h.InHandler? ==> h.c == w.loops[l].handler.c
    ensures Inv(SetLoop(w, l, w.loops[l].(handler := h)))
  {
    assert ShapeOk(w, l);
    LoopMoves(w, l, w.loops[l].(handler := h));
  }

  lemma StopWriting(m: Mask)
    requires IsReading(m)
    ensures IsReading(WithoutWriting(m)) && IsReading(WithWriting(m))
  {
  }

  lemma CallbackKeeps(w: World, l: LoopId, o: Outcome)
    requires Inv(w) && Enabled(w, CallbackStep(l, o))
    ensures Inv(Do(w, CallbackStep(l, o)))
  {
    var h := w.loops[l].handler;
    var w1 := SetLoop(w, l, w.loops[l].(handler := InHandler(h.c, h.rest[1..])));
    HandlerKeeps(w, l, InHandler(h.c, h.rest[1..]));
    assert ShapeOk(w, l);
    CallbackBodyKeeps(w1, h.c, h.rest[0], o);
  }

  /** A connection that asks for writability is up, and one that is up asks for reading. */
  lemma AskingIsUp(w: World, c: ConnId)
    requires Known(w, c) && |w.loops| > 0 && ConnInv(w, c)
    requires IsWriting(w.peers[c].ch.events) || (w.peers[c].state != Connecting && w.peers[c].state != Disconnected)
    ensures w.peers[c].state == Connected || w.peers[c].state == Disconnecting
    ensures IsReading(w.peers[c].ch.events)
  {
  }

  lemma WriteInterestKeeps(w: World, c: ConnId)
    requires Inv(w) && Known(w, c) && IsReading(w.peers[c].ch.events)
    requires w.peers[c].state == Connected || w.peers[c].state == Disconnecting
    ensures Inv(SubmitMask(w, c, WithoutWriting(w.peers[c].ch.events)))
    ensures Inv(SubmitMask(w, c, WithWriting(w.peers[c].ch.events)))
  {
    StopWriting(w.peers[c].ch.events);
    UpdateKeeps(w, c, WithoutWriting(w.peers[c].ch.events));
    UpdateKeeps(w, c, WithWriting(w.peers[c].ch.events));
  }

  lemma CallbackBodyKeeps(w: World, c: ConnId, cb: Callback, o: Outcome)
    requires Inv(w) && Known(w, c) && w.peers[c].ch.index == Added
    ensures Inv(DoCallback(w, c, cb, o))
  {
    if cb == CloseCb || (cb == ReadCb && o == EndOfStream) {
      CloseKeeps(w, c);
    } else if cb == WriteCb && o == Drained && IsWriting(w.peers[c].ch.events) {
      AskingIsUp(w, c);
      WriteInterestKeeps(w, c);
    }
  }

  lemma SwapKeeps(w: World, l: LoopId)
    requires Inv(w) && Enabled(w, SwapStep(l))
    ensures Inv(Do(w, SwapStep(l)))
  {
    var s := w.loops[l].(phase := Calling, batch := w.loops[l].pending, pending := []);
    assert ShapeOk(w, l);
    forall f: Functor
      ensures Count(s, f) == Count(w.loops[l], f)
    {
      CountSwap(w.loops[l], Calling, f);
    }
    LoopMoves(w, l, s);
  }

  /** The loop takes the next functor off its batch. */
  function PopFunctor(w: World, l: LoopId): World
    requires l < |w.loops| && w.loops[l].batch != []
  {
    SetLoop(w, l, w.loops[l].(batch := w.loops[l].batch[1..]))
  }

  lemma HeadCounts(w: World, l: LoopId)
    requires l < |w.loops| && w.loops[l].batch != []
    ensures Count(w.loops[l], w.loops[l].batch[0]) > 0
    ensures forall f :: Count(PopFunctor(w, l).loops[l], f) == Count(w.loops[l], f) - (if w.loops[l].batch[0] == f then 1 else 0)
  {
    forall f: Functor
      ensures Count(PopFunctor(w, l).loops[l], f) == Count(w.loops[l], f) - (if w.loops[l].batch[0] == f then 1 else 0)
    {
      CountPop(w.loops[l], f);
    }
  }

  lemma PopShape(w: World, l: LoopId)
    requires l < |w.loops| && w.loops[l].batch != [] && w.loops[l].phase == Calling && ShapeOk(w, l)
    ensures ShapeOk(PopFunctor(w, l), l)
  {
  }

  lemma PopFewer(t: LoopState, but: ConnId)
    requires t.batch != [] && (t.batch[0] != UserFunctor ==> t.batch[0].c == but)
    ensures FewerFor(t.(batch := t.batch[1..]), t, but)
  {
    forall f: Functor
      ensures Count(t.(batch := t.batch[1..]), f) == Count(t, f) - (if t.batch[0] == f then 1 else 0)
    {
      CountPop(t, f);
    }
  }

  lemma PopFunctorKeeps(w: World, l: LoopId, but: ConnId)
    requires Inv(w) && l < |w.loops| && w.loops[l].batch != [] && w.loops[l].phase == Calling
    requires w.loops[l].batch[0] != UserFunctor ==> w.loops[l].batch[0].c == but
    ensures InvBut(PopFunctor(w, l), but)
  {
    PopFewer(w.loops[l], but);
    PopShape(w, l);
    Part(w, but);
    LoopKeeps(w, l, w.loops[l].(batch := w.loops[l].batch[1..]), but);
  }

  /** What the head functor finds: its connection is at the stage it expects. */
  lemma HeadPlaced(w: World, l: LoopId)
    requires Inv(w) && l < |w.loops| && w.loops[l].batch != [] && w.loops[l].batch[0] != UserFunctor
    ensures var f := w.loops[l].batch[0];
            && Known(w, f.c) && ConnInv(w, f.c)
            && (if f.RemoveInLoop? then l == BASE else w.peers[f.c].loop == l)
  {
    HeadCounts(w, l);
    assert QueuesOk(w, l);
  }

  lemma PopEstablished(w: World, l: LoopId, c: ConnId)
    requires l < |w.loops| && w.loops[l].batch != [] && w.loops[l].batch[0] == Established(c)
    requires Known(w, c) && w.peers[c].loop == l && ConnInv(w, c)
    ensures Known(PopFunctor(w, l), c) && Fresh(PopFunctor(w, l), c)
  {
    HeadCounts(w, l);
  }

  lemma HeadEstablished(w: World, l: LoopId)
    requires Inv(w) && l < |w.loops| && w.loops[l].batch != [] && w.loops[l].batch[0].Established?
    ensures Known(PopFunctor(w, l), w.loops[l].batch[0].c) && Fresh(PopFunctor(w, l), w.loops[l].batch[0].c)
  {
    HeadPlaced(w, l);
    PopEstablished(w, l, w.loops[l].batch[0].c);
  }

  lemma PopTeardown(w: World, l: LoopId, c: ConnId)
    requires l < |w.loops| && w.loops[l].batch != [] && Known(w, c) && ConnInv(w, c)
    requires (w.loops[l].batch[0] == RemoveInLoop(c) && l == BASE)
             || (w.loops[l].batch[0] == Destroyed(c) && w.peers[c].loop == l)
    ensures Known(PopFunctor(w, l), c) && Closed(PopFunctor(w, l), c)
    ensures w.loops[l].batch[0].Destroyed? ==> !Owns(w.server, c)
  {
    HeadCounts(w, l);
  }

  lemma HeadTeardown(w: World, l: LoopId)
    requires Inv(w) && l < |w.loops| && w.loops[l].batch != []
    requires w.loops[l].batch[0].RemoveInLoop? || w.loops[l].batch[0].Destroyed?
    ensures var (c, w1) := (w.loops[l].batch[0].c, PopFunctor(w, l));
            && Known(w1, c) && Closed(w1, c)
            && (w.loops[l].batch[0].Destroyed? ==> w.peers[c].loop == l && !Owns(w.server, c))
  {
    HeadPlaced(w, l);
    PopTeardown(w, l, w.loops[l].batch[0].c);
  }

  lemma FunctorKeeps(w: World, l: LoopId)
    requires Inv(w) && Enabled(w, FunctorStep(l))
    ensures Inv(Do(w, FunctorStep(l)))
  {
    var f := w.loops[l].batch[0];
    var w1 := PopFunctor(w, l);
    if f == UserFunctor {
      UserFunctorKeeps(w, l);
    } else {
      PopFunctorKeeps(w, l, f.c);
      match f
      case Established(c) => HeadEstablished(w, l); EstablishKeeps(w1, c);
      case RemoveInLoop(c) => HeadTeardown(w, l); RemoveKeeps(w1, c);
      case Destroyed(c) => HeadTeardown(w, l); DestroyKeeps(w1, c);
    }
  }

  lemma UserFunctorKeeps(w: World, l: LoopId)
    requires Inv(w) && l < |w.loops| && w.loops[l].batch != [] && w.loops[l].phase == Calling
    requires w.loops[l].batch[0] == UserFunctor
    ensures Inv(PopFunctor(w, l))
  {
    var w1 := PopFunctor(w, l);
    var spare := w.server.nextConnId;
    PopFunctorKeeps(w, l, spare);
    assert PeersOk(w);
    Whole(w1, spare);
  }

  lemma QueueKeeps(w: World, l: LoopId)
    requires Inv(w) && l < |w.loops|
    ensures Inv(Push(w, l, UserFunctor))
  {
    var spare := w.server.nextConnId;
    Part(w, spare);
    PushKeeps(w, l, UserFunctor, spare);
    assert PeersOk(w);
    Whole(Push(w, l, UserFunctor), spare);
  }

  lemma ShutdownKeeps(w: World, c: ConnId)
    requires Inv(w) && c in w.peers && w.peers[c].state == Connected
    ensures Inv(w.(peers := w.peers[c := w.peers[c].(state := Disconnecting)]))
  {
    Part(w, c);
    assert ConnInv(w, c);
    var p := w.peers[c].(state := Disconnecting);
    PeerKeeps(w, c, p);
    var w' := w.(peers := w.peers[c := p]);
    assert ConnInv(w', c);
    Whole(w', c);
  }

  lemma BacklogDoes(w: World, c: ConnId)
    requires Enabled(w, UserBacklog(c))
    ensures Do(w, UserBacklog(c)) == w
            || (w.peers[c].state != Disconnected && w.peers[c].state != Connecting
                && Do(w, UserBacklog(c)) == SubmitMask(w, c, WithWriting(w.peers[c].ch.events)))
  {
  }

  lemma BacklogKeeps(w: World, c: ConnId)
    requires Inv(w) && Enabled(w, UserBacklog(c))
    ensures Inv(Do(w, UserBacklog(c)))
  {
    BacklogDoes(w, c);
    if w.peers[c].state != Disconnected && w.peers[c].state != Connecting {
      AskingIsUp(w, c);
      WriteInterestKeeps(w, c);
    }
  }

  lemma InvStep(w: World, s: Step)
    requires Inv(w) && Enabled(w, s)
    ensures Inv(Do(w, s))
  {
    match s
    case PollStep(l, items) => PollKeeps(w, l, items);
    case AcceptStep(fd) =>
      PopItemKeeps(w, BASE);
      AcceptKeeps(PopItem(w, BASE), fd);
    case AcceptFails => PopItemKeeps(w, BASE);
    case BeginEvent(l) => BeginKeeps(w, l);
    case CallbackStep(l, o) => CallbackKeeps(w, l, o);
    case EndEvent(l) => HandlerKeeps(w, l, NoHandler);
    case SwapStep(l) => SwapKeeps(w, l);
    case FunctorStep(l) => FunctorKeeps(w, l);
    case EndBatch(l) => EndBatchKeeps(w, l);
    case UserShutdown(c) => if w.peers[c].state == Connected { ShutdownKeeps(w, c); }
    case UserBacklog(c) => BacklogKeeps(w, c);
    case UserQueue(l) => QueueKeeps(w, l);
    case FreeStep(c) => FreeKeeps(w, c);
  }

  lemma InitInv(name: string, ipPort: string, numIo: nat)
    requires |ipPort| <= 21
    ensures Inv(Init(name, ipPort, numIo))
  {
  }

  lemma {:induction false} InvRun(w: World, steps: seq<Step>)
    requires Inv(w) && Legal(w, steps)
    ensures Inv(Run(w, steps))
    decreases |steps|
  {
    if steps != [] {
      InvStep(w, steps[0]);
      InvRun(Do(w, steps[0]), steps[1..]);
    }
  }
}
