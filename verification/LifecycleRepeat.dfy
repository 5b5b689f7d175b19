/** handleClose can run again in a later poll, exactly for connections that do
    not live on the server's own loop. */
module LifecycleRepeat {
  import opened Names
  import opened Epoll
  import opened Server
  import opened ConnStates
  import opened Lifecycle
  import opened LifecycleInv
  import opened LifecycleSteps
  import opened LifecycleTheorems

  /** c has closed, is still in the epoll set, and its loop is about to poll:
      the state from which CloseCanRepeat closes it again. */
  ghost predicate AwaitsRepeat(w: World, c: ConnId) {
    && Known(w, c) && w.peers[c].state == Disconnected && w.peers[c].ch.index == Added
    && w.loops[w.peers[c].loop].phase == Polling
  }

  predicate Up(w: World, c: ConnId) {
    c in w.peers && (w.peers[c].state == Connected || w.peers[c].state == Disconnecting)
  }

  // ------------------------------------------------- a hang-up is reported

  lemma HangUpPolled(w: World, c: ConnId)
    requires Inv(w) && Known(w, c) && w.peers[c].ch.index == Added && w.loops[w.peers[c].loop].phase == Polling
    ensures var (l, s1) := (w.peers[c].loop, PollStep(w.peers[c].loop, [ConnItem(c, EPOLLHUP)]));
            && Enabled(w, s1) && Inv(Do(w, s1))
            && Do(w, s1) == SetLoop(w, l, w.loops[l].(phase := Dispatching, active := [ConnItem(c, EPOLLHUP)]))
            && w.loops[l].handler == NoHandler
  {
    StageTellsRegistration(w, c);
    assert ShapeOk(w, w.peers[c].loop);
    InvStep(w, PollStep(w.peers[c].loop, [ConnItem(c, EPOLLHUP)]));
  }

  lemma HangUpCallbacks()
    ensures Callbacks(EPOLLHUP) == [CloseCb]
  {
  }

  lemma HangUpBegun(w: World, l: LoopId, c: ConnId)
    requires Inv(w) && l < |w.loops| && w.loops[l].phase == Dispatching && w.loops[l].handler == NoHandler
    requires w.loops[l].active == [ConnItem(c, EPOLLHUP)]
    ensures Enabled(w, BeginEvent(l)) && Inv(Do(w, BeginEvent(l)))
    ensures Do(w, BeginEvent(l)) == SetLoop(w, l, w.loops[l].(active := [], handler := InHandler(c, [CloseCb])))
  {
    ListedIsHeld(w, l, 0);
    BeginHeld(w, l);
    assert w.loops[l].active[1..] == [];
    InvStep(w, BeginEvent(l));
    HangUpCallbacks();
  }

  /** A hang-up is reported and its handling begins. */
  lemma HangUpReported(w: World, c: ConnId)
    requires Inv(w) && Known(w, c) && w.peers[c].ch.index == Added && w.loops[w.peers[c].loop].phase == Polling
    ensures var (l, s1) := (w.peers[c].loop, PollStep(w.peers[c].loop, [ConnItem(c, EPOLLHUP)]));
            && Enabled(w, s1) && Enabled(Do(w, s1), BeginEvent(l))
            && var w2 := Do(Do(w, s1), BeginEvent(l));
               && Inv(w2) && w2.peers == w.peers && |w2.loops| == |w.loops|
               && w2.loops[l].handler == InHandler(c, [CloseCb]) && w2.loops[l].active == []
  {
    HangUpPolled(w, c);
    HangUpBegun(Do(w, PollStep(w.peers[c].loop, [ConnItem(c, EPOLLHUP)])), w.peers[c].loop, c);
  }

  lemma CallbackIsClose(w: World, l: LoopId, c: ConnId)
    requires Known(w, c) && l < |w.loops| && w.loops[l].handler == InHandler(c, [CloseCb])
    ensures Enabled(w, CallbackStep(l, Nothing))
    ensures Do(w, CallbackStep(l, Nothing)) == DoClose(SetLoop(w, l, w.loops[l].(handler := InHandler(c, []))), c)
  {
    assert [CloseCb][1..] == [];
  }

  lemma ThreeSteps(w: World, s1: Step, s2: Step, s3: Step)
    requires Enabled(w, s1) && Enabled(Do(w, s1), s2) && Enabled(Do(Do(w, s1), s2), s3)
    ensures Legal(w, [s1, s2, s3]) && Run(w, [s1, s2, s3]) == Do(Do(Do(w, s1), s2), s3)
  {
    var w1 := Do(w, s1);
    var w2 := Do(w1, s2);
    assert [s1, s2, s3][1..] == [s2, s3] && [s2, s3][1..] == [s3] && [s3][1..] == [];
    assert Legal(Do(w2, s3), []) && Run(w2, [s3]) == Do(w2, s3);
    assert Run(w1, [s2, s3]) == Do(w2, s3);
  }

  /** handleClose does repeat: a closed connection that is not destroyed yet is
      still in the epoll set, and reporting it runs handleClose again. */
  lemma CloseCanRepeat(w: World, c: ConnId)
    requires Reached(w) && AwaitsRepeat(w, c)
    ensures var l := w.peers[c].loop;
            var again := [PollStep(l, [ConnItem(c, EPOLLHUP)]), BeginEvent(l), CallbackStep(l, Nothing)];
            Legal(w, again) && c in Run(w, again).peers
            && Run(w, again).peers[c].closes == w.peers[c].closes + 1
  {
    ReachedInv(w);
    var l := w.peers[c].loop;
    var s1 := PollStep(l, [ConnItem(c, EPOLLHUP)]);
    HangUpReported(w, c);
    CallbackIsClose(Do(Do(w, s1), BeginEvent(l)), l, c);
    ThreeSteps(w, s1, BeginEvent(l), CallbackStep(l, Nothing));
  }

  // ------------------------------------------- the queues of the base loop

  /** On the base loop the server is told at once, so no removal is queued for its
      own connections, and a destroy waits only while the loop still dispatches. */
  ghost predicate BaseTidy(w: World) {
    && |w.loops| > 0
    && forall c :: c in w.peers && w.peers[c].loop == BASE ==>
         && RemoveInLoop(c) !in w.loops[BASE].batch && RemoveInLoop(c) !in w.loops[BASE].pending
         && (w.loops[BASE].phase != Dispatching ==> Destroyed(c) !in w.loops[BASE].pending)
  }

  /** It is about the base loop's queues and phase and nothing else. */
  lemma TidySame(w: World, w': World)
    requires BaseTidy(w) && |w'.loops| == |w.loops|
    requires forall c :: c in w'.peers ==> c in w.peers && w'.peers[c].loop == w.peers[c].loop
    requires var (b, b') := (w.loops[BASE], w'.loops[BASE]);
             b'.pending == b.pending && b'.batch == b.batch && (b'.phase == Dispatching <==> b.phase == Dispatching)
    ensures BaseTidy(w')
  {
  }

  lemma TidyPush(w: World, l: LoopId, f: Functor)
    requires BaseTidy(w) && l < |w.loops|
    requires l == BASE && f != UserFunctor && f.c in w.peers && w.peers[f.c].loop == BASE ==>
               f.Destroyed? && w.loops[BASE].phase == Dispatching
    ensures BaseTidy(Push(w, l, f))
  {
  }

  lemma TidyClose(w: World, c: ConnId)
    requires BaseTidy(w) && Known(w, c) && (w.peers[c].loop == BASE ==> w.loops[BASE].phase == Dispatching)
    ensures BaseTidy(DoClose(w, c))
  {
    var w1 := MarkClosed(w, c);
    TidySame(w, w1);
    if w.peers[c].loop == BASE {
      var w2 := w1.(server := Erase(w1.server, c));
      TidySame(w1, w2);
      TidyPush(w2, BASE, Destroyed(c));
    } else {
      TidyPush(w1, BASE, RemoveInLoop(c));
    }
  }

  lemma TidyCallbackBody(w: World, c: ConnId, cb: Callback, o: Outcome)
    requires BaseTidy(w) && Known(w, c) && (w.peers[c].loop == BASE ==> w.loops[BASE].phase == Dispatching)
    ensures BaseTidy(DoCallback(w, c, cb, o))
  {
    if cb == WriteCb {
      TidySame(w, SubmitMask(w, c, WithoutWriting(w.peers[c].ch.events)));
    } else {
      TidyClose(w, c);
    }
  }

  lemma TidyCallback(w: World, l: LoopId, o: Outcome)
    requires BaseTidy(w) && Inv(w) && Enabled(w, CallbackStep(l, o))
    ensures BaseTidy(Do(w, CallbackStep(l, o)))
  {
    var h := w.loops[l].handler;
    var w1 := SetLoop(w, l, w.loops[l].(handler := InHandler(h.c, h.rest[1..])));
    assert ShapeOk(w, l);
    TidySame(w, w1);
    TidyCallbackBody(w1, h.c, h.rest[0], o);
  }

  lemma TidyPop(w: World, l: LoopId)
    requires BaseTidy(w) && l < |w.loops| && w.loops[l].batch != []
    ensures BaseTidy(PopFunctor(w, l))
  {
    assert forall g :: g in w.loops[l].batch[1..] ==> g in w.loops[l].batch;
  }

  lemma TidyRemove(w: World, c: ConnId)
    requires BaseTidy(w) && Known(w, c) && w.peers[c].loop != BASE
    ensures BaseTidy(DoRemoveInLoop(w, c))
  {
    var w1 := w.(server := Erase(w.server, c));
    TidySame(w, w1);
    TidyPush(w1, w.peers[c].loop, Destroyed(c));
  }

  lemma TidyRegistration(w: World, c: ConnId)
    requires BaseTidy(w) && Known(w, c)
    ensures BaseTidy(DoEstablished(w, c)) && BaseTidy(DoDestroyed(w, c))
  {
    TidySame(w, DoEstablished(w, c));
    TidySame(w, DoDestroyed(w, c));
  }

  lemma TidyFunctor(w: World, l: LoopId)
    requires BaseTidy(w) && Inv(w) && Enabled(w, FunctorStep(l))
    ensures BaseTidy(Do(w, FunctorStep(l)))
  {
    var f := w.loops[l].batch[0];
    TidyPop(w, l);
    if f.RemoveInLoop? {
      HeadPlaced(w, l);
      assert f in w.loops[BASE].batch;
      TidyRemove(PopFunctor(w, l), f.c);
    } else if f != UserFunctor {
      TidyRegistration(PopFunctor(w, l), f.c);
    }
  }

  lemma TidyAccept(w: World, fd: int)
    requires BaseTidy(w) && Inv(w) && Enabled(w, AcceptStep(fd))
    ensures BaseTidy(Do(w, AcceptStep(fd)))
  {
    var (w1, c) := (Create(PopItem(w, BASE), fd), w.server.nextConnId);
    NewcomerHasNoFunctors(w, BASE);
    assert BaseTidy(w1);
    if w1.peers[c].loop == BASE {
      TidySame(w1, DoEstablished(w1, c));
    } else {
      TidyPush(w1, w1.peers[c].loop, Established(c));
    }
  }

  lemma NewcomerHasNoFunctors(w: World, l: LoopId)
    requires Inv(w) && l < |w.loops|
    ensures forall f :: f in w.loops[l].batch || f in w.loops[l].pending ==>
              f != UserFunctor ==> f.c != w.server.nextConnId
  {
    forall f | (f in w.loops[l].batch || f in w.loops[l].pending) && f != UserFunctor
      ensures f.c != w.server.nextConnId
    {
      assert Count(w.loops[l], f) > 0;
      assert QueuesOk(w, l) && PeersOk(w);
    }
  }

  lemma TidySwap(w: World, l: LoopId)
    requires BaseTidy(w) && Inv(w) && Enabled(w, SwapStep(l))
    ensures BaseTidy(Do(w, SwapStep(l)))
  {
    assert ShapeOk(w, l);
  }

  lemma TidyPlain(w: World, s: Step)
    requires BaseTidy(w) && Enabled(w, s)
    requires s.PollStep? || s.AcceptFails? || s.BeginEvent? || s.EndEvent? || s.EndBatch? || s.UserShutdown? || s.FreeStep?
    ensures BaseTidy(Do(w, s))
  {
    var w' := Do(w, s);
    assert forall c :: c in w'.peers ==> c in w.peers && w'.peers[c].loop == w.peers[c].loop;
    assert w'.loops[BASE].pending == w.loops[BASE].pending && w'.loops[BASE].batch == w.loops[BASE].batch;
    assert w'.loops[BASE].phase == Dispatching || w.loops[BASE].phase != Dispatching;
  }

  lemma TidyBacklog(w: World, c: ConnId)
    requires BaseTidy(w) && Enabled(w, UserBacklog(c))
    ensures BaseTidy(Do(w, UserBacklog(c)))
  {
    TidySame(w, SubmitMask(w, c, WithWriting(w.peers[c].ch.events)));
  }

  lemma TidyStep(w: World, s: Step)
    requires BaseTidy(w) && Inv(w) && Enabled(w, s)
    ensures BaseTidy(Do(w, s))
  {
    match s
    case CallbackStep(l, o) => TidyCallback(w, l, o);
    case FunctorStep(l) => TidyFunctor(w, l);
    case AcceptStep(fd) => TidyAccept(w, fd);
    case UserQueue(l) => TidyPush(w, l, UserFunctor);
    case SwapStep(l) => TidySwap(w, l);
    case UserBacklog(c) => TidyBacklog(w, c);
    case _ => TidyPlain(w, s);
  }

  lemma {:induction false} TidyRun(w: World, steps: seq<Step>)
    requires BaseTidy(w) && Inv(w) && Legal(w, steps)
    ensures BaseTidy(Run(w, steps))
    decreases |steps|
  {
    if steps != [] {
      TidyStep(w, steps[0]);
      InvStep(w, steps[0]);
      TidyRun(Do(w, steps[0]), steps[1..]);
    }
  }

  // ----------------------------------- the listening channel is on the base loop

  ghost predicate AcceptsOnBase(w: World) {
    forall l :: 0 < l < |w.loops| ==> AcceptItem !in w.loops[l].active
  }

  ghost predicate SameActive(w: World, w': World) {
    |w'.loops| == |w.loops| && forall l :: 0 <= l < |w.loops| ==> w'.loops[l].active == w.loops[l].active
  }

  lemma CallbackActive(w: World, c: ConnId, cb: Callback, o: Outcome)
    requires Known(w, c)
    ensures SameActive(w, DoCallback(w, c, cb, o))
  {
  }

  lemma FunctorActive(w: World, f: Functor)
    requires f != UserFunctor ==> Known(w, f.c)
    ensures SameActive(w, DoFunctor(w, f))
  {
  }

  lemma AcceptActive(w: World, fd: int)
    requires w.server.Ok() && |w.loops| == w.server.numIo + 1
    ensures SameActive(w, DoAccept(w, fd))
  {
  }

  lemma AcceptsOnBaseStep(w: World, s: Step)
    requires AcceptsOnBase(w) && Enabled(w, s)
    ensures AcceptsOnBase(Do(w, s))
  {
    match s
    case CallbackStep(l, o) =>
      var h := w.loops[l].handler;
      CallbackActive(SetLoop(w, l, w.loops[l].(handler := InHandler(h.c, h.rest[1..]))), h.c, h.rest[0], o);
    case FunctorStep(l) => FunctorActive(PopFunctor(w, l), w.loops[l].batch[0]);
    case AcceptStep(fd) => AcceptActive(PopItem(w, BASE), fd);
    case _ =>
  }

  lemma {:induction false} AcceptsOnBaseRun(w: World, steps: seq<Step>)
    requires AcceptsOnBase(w) && Legal(w, steps)
    ensures AcceptsOnBase(Run(w, steps))
    decreases |steps|
  {
    if steps != [] {
      AcceptsOnBaseStep(w, steps[0]);
      AcceptsOnBaseRun(Do(w, steps[0]), steps[1..]);
    }
  }

  lemma ReachedTidy(w: World)
    requires Reached(w)
    ensures Inv(w) && BaseTidy(w) && DealtInTurn(w) && AcceptsOnBase(w)
  {
    var name: string, ipPort: string, numIo: nat, steps :|
      |ipPort| <= 21 && Legal(Init(name, ipPort, numIo), steps) && Run(Init(name, ipPort, numIo), steps) == w;
    InitInv(name, ipPort, numIo);
    InvRun(Init(name, ipPort, numIo), steps);
    TidyRun(Init(name, ipPort, numIo), steps);
    DealtRun(Init(name, ipPort, numIo), steps);
    AcceptsOnBaseRun(Init(name, ipPort, numIo), steps);
  }

  // ----------------------------------------------- on the base loop: never again

  lemma TidyNeverRepeats(w: World, c: ConnId)
    requires Inv(w) && BaseTidy(w) && c in w.peers && w.peers[c].loop == BASE
    ensures !AwaitsRepeat(w, c)
  {
    assert ConnInv(w, c) && ShapeOk(w, BASE);
    assert Count(w.loops[BASE], RemoveInLoop(c)) == 0;
    if w.loops[BASE].phase == Polling {
      assert Count(w.loops[BASE], Destroyed(c)) == 0;
    }
  }

  /** A connection on the base loop is gone from the epoll set by the time its
      loop polls again: it is closed in one dispatch only. */
  lemma BaseLoopNeverRepeats(w: World, c: ConnId)
    requires Reached(w) && Known(w, c) && w.peers[c].loop == BASE
    requires w.peers[c].state == Disconnected && w.loops[BASE].phase == Polling
    ensures w.peers[c].ch.index == New && !Registered(w, c) && !Held(w, c)
  {
    ReachedTidy(w);
    TidyNeverRepeats(w, c);
    assert ConnInv(w, c);
    NobodyHolds(w, c);
  }

  lemma NobodyQueues(w: World, l: LoopId, c: ConnId)
    requires Inv(w) && BaseTidy(w) && c in w.peers && w.peers[c].loop == BASE && l < |w.loops|
    requires w.peers[c].state == Disconnected && w.loops[BASE].phase == Polling
    ensures Count(w.loops[l], Established(c)) == 0 && Count(w.loops[l], RemoveInLoop(c)) == 0
    ensures Count(w.loops[l], Destroyed(c)) == 0
  {
    assert ConnInv(w, c) && ShapeOk(w, BASE);
    assert QueuesOk(w, l);
  }

  lemma NobodyHolds(w: World, c: ConnId)
    requires Inv(w) && BaseTidy(w) && c in w.peers && w.peers[c].loop == BASE
    requires w.peers[c].state == Disconnected && w.loops[BASE].phase == Polling && w.peers[c].ch.index != Added
    ensures !Held(w, c)
  {
    assert ConnInv(w, c);
    forall l | 0 <= l < |w.loops|
      ensures w.loops[l].handler.InHandler? ==> w.loops[l].handler.c != c
      ensures Count(w.loops[l], Established(c)) == 0 && Count(w.loops[l], RemoveInLoop(c)) == 0
      ensures Count(w.loops[l], Destroyed(c)) == 0
    {
      assert ShapeOk(w, l);
      NobodyQueues(w, l, c);
    }
  }

  // --------------------------------------------- on any other loop: it can

  /** A connection that is up is registered, owned, and not about to be destroyed. */
  lemma UpIsClean(w: World, c: ConnId)
    requires Inv(w) && Up(w, c)
    ensures Known(w, c) && Registered(w, c) && w.peers[c].ch.index == Added && Owns(w.server, c)
    ensures Count(w.loops[w.peers[c].loop], Destroyed(c)) == 0
    ensures w.loops[w.peers[c].loop].handler == NoHandler || w.loops[w.peers[c].loop].phase == Dispatching
  {
    assert ConnInv(w, c) && ShapeOk(w, w.peers[c].loop);
  }

  /** c is registered with loop l, not the server's, whether it is up or has closed
      already, and nothing on l is going to destroy it. */
  ghost predicate Lingers(w: World, l: LoopId, c: ConnId) {
    && Inv(w) && AcceptsOnBase(w) && 0 < l < |w.loops|
    && c in w.peers && w.peers[c].loop == l && w.peers[c].state != Connecting
    && w.peers[c].ch.index == Added && Count(w.loops[l], Destroyed(c)) == 0
  }

  /** A later state in which c lingers still, closed if it was. */
  ghost predicate LingersOn(w: World, w': World, l: LoopId, c: ConnId) {
    Lingers(w', l, c) && c in w.peers && (w.peers[c].state == Disconnected ==> w'.peers[c].state == Disconnected)
  }

  lemma UpLingers(w: World, c: ConnId)
    requires Inv(w) && AcceptsOnBase(w) && Up(w, c) && w.peers[c].loop != BASE
    ensures Known(w, c) && Lingers(w, w.peers[c].loop, c)
  {
    UpIsClean(w, c);
  }

  /** How much l has to do before it polls again. */
  function PhaseRank(p: Phase): nat {
    match p
    case Polling => 0
    case Calling => 1
    case Dispatching => 2
  }

  function HandlerWork(h: Handler): nat {
    if h.InHandler? then 1 + |h.rest| else 0
  }

  predicate Nearer(a: LoopState, b: LoopState) {
    if b.phase != a.phase then PhaseRank(b.phase) < PhaseRank(a.phase)
    else if |b.active| != |a.active| then |b.active| < |a.active|
    else if HandlerWork(b.handler) != HandlerWork(a.handler) then HandlerWork(b.handler) < HandlerWork(a.handler)
    else |b.batch| < |a.batch|
  }

  /** A step that leaves c's record alone, brings l nearer to its poll, and queues
      nothing that would destroy c there. */
  ghost predicate OwnStep(w: World, w': World, l: LoopId, c: ConnId) {
    && l < |w.loops| == |w'.loops| && (c in w.peers ==> c in w'.peers && w'.peers[c] == w.peers[c])
    && Count(w'.loops[l], Destroyed(c)) == Count(w.loops[l], Destroyed(c))
    && Nearer(w.loops[l], w'.loops[l])
  }

  lemma OwnStepLingers(w: World, s: Step, l: LoopId, c: ConnId)
    requires Lingers(w, l, c) && Enabled(w, s) && OwnStep(w, Do(w, s), l, c)
    ensures LingersOn(w, Do(w, s), l, c)
  {
    InvStep(w, s);
    AcceptsOnBaseStep(w, s);
  }

  lemma CloseOffBase(w: World, d: ConnId, c: ConnId)
    requires Known(w, d) && w.peers[d].loop != BASE && c in w.peers
    ensures var (w', l) := (DoClose(w, d), w.peers[d].loop);
            && |w'.loops| == |w.loops| && w'.loops[l] == w.loops[l]
            && c in w'.peers && w'.peers[c].loop == w.peers[c].loop && w'.peers[c].ch.index == w.peers[c].ch.index
            && w'.peers[c].state == if c == d then Disconnected else w.peers[c].state
  {
  }

  lemma CallbackDoes(w: World, l: LoopId)
    requires l < |w.loops| && w.loops[l].handler.InHandler? && w.loops[l].handler.rest != []
    requires Known(w, w.loops[l].handler.c)
    ensures Enabled(w, CallbackStep(l, Nothing))
    ensures var h := w.loops[l].handler; var w1 := SetLoop(w, l, w.loops[l].(handler := InHandler(h.c, h.rest[1..])));
            Do(w, CallbackStep(l, Nothing)) == if h.rest[0] == CloseCb then DoClose(w1, h.c) else w1
  {
  }

  /** A callback on l may close c, or another connection of l. */
  lemma CallbackLingers(w: World, l: LoopId, c: ConnId)
    requires Lingers(w, l, c) && w.loops[l].handler.InHandler? && w.loops[l].handler.rest != []
    ensures Enabled(w, CallbackStep(l, Nothing)) && LingersOn(w, Do(w, CallbackStep(l, Nothing)), l, c)
    ensures var w' := Do(w, CallbackStep(l, Nothing)); var h := w.loops[l].handler;
            && Nearer(w.loops[l], w'.loops[l])
            && (h.c == c && h.rest[0] == CloseCb ==> w'.peers[c].state == Disconnected)
  {
    var h := w.loops[l].handler;
    assert ShapeOk(w, l) && PeersOk(w);
    CallbackDoes(w, l);
    InvStep(w, CallbackStep(l, Nothing));
    AcceptsOnBaseStep(w, CallbackStep(l, Nothing));
    CloseOffBase(SetLoop(w, l, w.loops[l].(handler := InHandler(h.c, h.rest[1..]))), h.c, c);
  }

  lemma EndDoes(w: World, l: LoopId, c: ConnId)
    requires l < |w.loops| && w.loops[l].handler.InHandler? && w.loops[l].handler.rest == []
    ensures Enabled(w, EndEvent(l)) && OwnStep(w, Do(w, EndEvent(l)), l, c)
  {
  }

  lemma EndLingers(w: World, l: LoopId, c: ConnId)
    requires Lingers(w, l, c) && w.loops[l].handler.InHandler? && w.loops[l].handler.rest == []
    ensures Enabled(w, EndEvent(l)) && LingersOn(w, Do(w, EndEvent(l)), l, c)
    ensures Nearer(w.loops[l], Do(w, EndEvent(l)).loops[l])
  {
    EndDoes(w, l, c);
    OwnStepLingers(w, EndEvent(l), l, c);
  }

  lemma BeginDoes(w: World, l: LoopId, c: ConnId)
    requires Enabled(w, BeginEvent(l)) && Held(w, w.loops[l].active[0].c)
    ensures OwnStep(w, Do(w, BeginEvent(l)), l, c)
  {
    BeginHeld(w, l);
  }

  lemma BeginLingers(w: World, l: LoopId, c: ConnId)
    requires Lingers(w, l, c) && w.loops[l].phase == Dispatching && w.loops[l].handler == NoHandler && w.loops[l].active != []
    ensures Enabled(w, BeginEvent(l)) && LingersOn(w, Do(w, BeginEvent(l)), l, c)
    ensures Nearer(w.loops[l], Do(w, BeginEvent(l)).loops[l])
  {
    assert w.loops[l].active[0] != AcceptItem;
    ListedIsHeld(w, l, 0);
    BeginDoes(w, l, c);
    OwnStepLingers(w, BeginEvent(l), l, c);
  }

  lemma SwapDoes(w: World, l: LoopId, c: ConnId)
    requires l < |w.loops| && w.loops[l].phase == Dispatching && w.loops[l].handler == NoHandler && w.loops[l].active == []
    requires w.loops[l].batch == []
    ensures Enabled(w, SwapStep(l)) && OwnStep(w, Do(w, SwapStep(l)), l, c)
  {
    CountSwap(w.loops[l], Calling, Destroyed(c));
  }

  lemma SwapLingers(w: World, l: LoopId, c: ConnId)
    requires Lingers(w, l, c) && w.loops[l].phase == Dispatching && w.loops[l].handler == NoHandler && w.loops[l].active == []
    ensures Enabled(w, SwapStep(l)) && LingersOn(w, Do(w, SwapStep(l)), l, c)
    ensures Nearer(w.loops[l], Do(w, SwapStep(l)).loops[l])
  {
    assert ShapeOk(w, l);
    SwapDoes(w, l, c);
    OwnStepLingers(w, SwapStep(l), l, c);
  }

  lemma PrependStep(w: World, s: Step, rest: seq<Step>)
    requires Enabled(w, s) && Legal(Do(w, s), rest)
    ensures Legal(w, [s] + rest) && Run(w, [s] + rest) == Run(Do(w, s), rest)
  {
    assert ([s] + rest)[1..] == rest;
  }

  lemma ConcatHead(steps: seq<Step>, more: seq<Step>)
    requires steps != []
    ensures (steps + more)[0] == steps[0] && (steps + more)[1..] == steps[1..] + more
  {
  }

  lemma {:induction false} RunConcat(w: World, steps: seq<Step>, more: seq<Step>)
    requires Legal(w, steps) && Legal(Run(w, steps), more)
    ensures Legal(w, steps + more) && Run(w, steps + more) == Run(Run(w, steps), more)
    decreases |steps|
  {
    if steps == [] {
      assert steps + more == more;
    } else {
      ConcatHead(steps, more);
      RunConcat(Do(w, steps[0]), steps[1..], more);
    }
  }

  predicate IsAnothers(f: Functor, c: ConnId) {
    !f.RemoveInLoop? && (f != UserFunctor ==> f.c != c)
  }

  /** The functors in l's batch belong to other connections. */
  lemma HeadIsAnothers(w: World, l: LoopId, c: ConnId)
    requires Lingers(w, l, c) && w.loops[l].phase == Calling && w.loops[l].batch != []
    ensures Enabled(w, FunctorStep(l)) && IsAnothers(w.loops[l].batch[0], c)
  {
    var f := w.loops[l].batch[0];
    HeadCounts(w, l);
    if f != UserFunctor {
      HeadPlaced(w, l);
      if f.Established? { HeadEstablished(w, l); }
    }
  }

  lemma FunctorDoes(w: World, l: LoopId, c: ConnId)
    requires Enabled(w, FunctorStep(l)) && IsAnothers(w.loops[l].batch[0], c)
    ensures OwnStep(w, Do(w, FunctorStep(l)), l, c)
  {
    CountPop(w.loops[l], Destroyed(c));
    FunctorLeaves(PopFunctor(w, l), w.loops[l].batch[0], l, c);
  }

  lemma FunctorLeaves(w: World, f: Functor, l: LoopId, c: ConnId)
    requires (f != UserFunctor ==> Known(w, f.c)) && IsAnothers(f, c) && l < |w.loops|
    ensures var w' := DoFunctor(w, f);
            && |w'.loops| == |w.loops| && w'.loops[l] == w.loops[l].(poller := w'.loops[l].poller)
            && (c in w.peers ==> c in w'.peers && w'.peers[c] == w.peers[c])
  {
  }

  lemma FunctorLingers(w: World, l: LoopId, c: ConnId)
    requires Lingers(w, l, c) && w.loops[l].phase == Calling && w.loops[l].batch != []
    ensures Enabled(w, FunctorStep(l)) && LingersOn(w, Do(w, FunctorStep(l)), l, c)
    ensures Nearer(w.loops[l], Do(w, FunctorStep(l)).loops[l])
  {
    HeadIsAnothers(w, l, c);
    FunctorDoes(w, l, c);
    OwnStepLingers(w, FunctorStep(l), l, c);
  }

  lemma EndBatchDoes(w: World, l: LoopId, c: ConnId)
    requires l < |w.loops| && w.loops[l].phase == Calling && w.loops[l].batch == []
    ensures Enabled(w, EndBatch(l)) && OwnStep(w, Do(w, EndBatch(l)), l, c)
  {
  }

  lemma EndBatchLingers(w: World, l: LoopId, c: ConnId)
    requires Lingers(w, l, c) && w.loops[l].phase == Calling && w.loops[l].batch == []
    ensures Enabled(w, EndBatch(l)) && LingersOn(w, Do(w, EndBatch(l)), l, c)
    ensures Nearer(w.loops[l], Do(w, EndBatch(l)).loops[l])
  {
    EndBatchDoes(w, l, c);
    OwnStepLingers(w, EndBatch(l), l, c);
  }

  lemma NextCall(w: World, l: LoopId, c: ConnId) returns (s: Step)
    requires Lingers(w, l, c) && w.loops[l].phase == Calling
    ensures Enabled(w, s) && LingersOn(w, Do(w, s), l, c) && Nearer(w.loops[l], Do(w, s).loops[l])
  {
    if w.loops[l].batch == [] {
      s := EndBatch(l);
      EndBatchLingers(w, l, c);
    } else {
      s := FunctorStep(l);
      FunctorLingers(w, l, c);
    }
  }

  lemma NextCallback(w: World, l: LoopId, c: ConnId) returns (s: Step)
    requires Lingers(w, l, c) && w.loops[l].handler.InHandler?
    ensures Enabled(w, s) && LingersOn(w, Do(w, s), l, c) && Nearer(w.loops[l], Do(w, s).loops[l])
  {
    if w.loops[l].handler.rest == [] {
      s := EndEvent(l);
      EndLingers(w, l, c);
    } else {
      s := CallbackStep(l, Nothing);
      CallbackLingers(w, l, c);
    }
  }

  lemma NextDispatch(w: World, l: LoopId, c: ConnId) returns (s: Step)
    requires Lingers(w, l, c) && w.loops[l].phase == Dispatching && w.loops[l].handler == NoHandler
    ensures Enabled(w, s) && LingersOn(w, Do(w, s), l, c) && Nearer(w.loops[l], Do(w, s).loops[l])
  {
    if w.loops[l].active == [] {
      s := SwapStep(l);
      SwapLingers(w, l, c);
    } else {
      s := BeginEvent(l);
      BeginLingers(w, l, c);
    }
  }

  /** What l does next on its own, when it is not about to poll. */
  lemma NextOfLoop(w: World, l: LoopId, c: ConnId) returns (s: Step)
    requires Lingers(w, l, c) && w.loops[l].phase != Polling
    ensures Enabled(w, s) && LingersOn(w, Do(w, s), l, c) && Nearer(w.loops[l], Do(w, s).loops[l])
  {
    if w.loops[l].phase == Calling {
      s := NextCall(w, l, c);
    } else if w.loops[l].handler.InHandler? {
      s := NextCallback(w, l, c);
    } else {
      s := NextDispatch(w, l, c);
    }
  }

  /** Wherever l is, it gets to its poll before the base loop acts. */
  lemma {:induction false} ToPoll(w: World, l: LoopId, c: ConnId) returns (steps: seq<Step>)
    requires Lingers(w, l, c)
    ensures Legal(w, steps) && LingersOn(w, Run(w, steps), l, c) && Run(w, steps).loops[l].phase == Polling
    decreases PhaseRank(w.loops[l].phase), |w.loops[l].active|, HandlerWork(w.loops[l].handler), |w.loops[l].batch|
  {
    if w.loops[l].phase == Polling {
      steps := [];
    } else {
      var s := NextOfLoop(w, l, c);
      var rest := ToPoll(Do(w, s), l, c);
      PrependStep(w, s, rest);
      steps := [s] + rest;
    }
  }

  /** A hang-up is reported and handled. */
  lemma CloseReported(w: World, l: LoopId, c: ConnId) returns (steps: seq<Step>)
    requires Lingers(w, l, c) && w.loops[l].phase == Polling
    ensures Legal(w, steps) && Lingers(Run(w, steps), l, c) && Run(w, steps).peers[c].state == Disconnected
  {
    var s1 := PollStep(l, [ConnItem(c, EPOLLHUP)]);
    HangUpReported(w, c);
    var w1 := Do(w, s1);
    var w2 := Do(w1, BeginEvent(l));
    AcceptsOnBaseStep(w, s1);
    AcceptsOnBaseStep(w1, BeginEvent(l));
    CallbackLingers(w2, l, c);
    steps := [s1, BeginEvent(l), CallbackStep(l, Nothing)];
    ThreeSteps(w, s1, BeginEvent(l), CallbackStep(l, Nothing));
  }

  /** l gets to its poll; if c is still up there it is closed, and l polls again. */
  lemma OffBaseRepeats(w: World, l: LoopId, c: ConnId) returns (steps: seq<Step>)
    requires Lingers(w, l, c)
    ensures Legal(w, steps) && AwaitsRepeat(Run(w, steps), c)
  {
    steps := ToPoll(w, l, c);
    var v := Run(w, steps);
    if v.peers[c].state != Disconnected {
      var close := CloseReported(v, l, c);
      var rest := ToPoll(Run(v, close), l, c);
      RunConcat(v, close, rest);
      RunConcat(w, steps, close + rest);
      steps := steps + (close + rest);
    }
  }

  lemma OnBaseNeverRepeats(w: World, c: ConnId, steps: seq<Step>)
    requires Reached(w) && Known(w, c) && w.peers[c].loop == BASE && Legal(w, steps)
    ensures !AwaitsRepeat(Run(w, steps), c)
  {
    ReachedTidy(w);
    InvRun(w, steps);
    TidyRun(w, steps);
    DealtRun(w, steps);
    if c in Run(w, steps).peers {
      TidyNeverRepeats(Run(w, steps), c);
    }
  }

  ghost predicate CanRepeat(w: World, c: ConnId) {
    exists steps :: Legal(w, steps) && AwaitsRepeat(Run(w, steps), c)
  }

  /** The condition is exact: from any reached state, a connection that is up can
      be closed and then closed again in a later poll if and only if it does not
      live on the server's own loop. */
  lemma RepeatExactlyOffBase(w: World, c: ConnId)
    requires Reached(w) && Up(w, c)
    ensures CanRepeat(w, c) <==> w.peers[c].loop != BASE
  {
    ReachedTidy(w);
    UpIsClean(w, c);
    if w.peers[c].loop == BASE {
      if CanRepeat(w, c) {
        var steps :| Legal(w, steps) && AwaitsRepeat(Run(w, steps), c);
        OnBaseNeverRepeats(w, c, steps);
        assert false;
      }
    } else {
      UpLingers(w, c);
      var steps := OffBaseRepeats(w, w.peers[c].loop, c);
      assert Legal(w, steps);
    }
  }

  // ------------------------------------------------------------ it happens

  /** One connection is accepted. */
  lemma FirstAccept(name: string, ipPort: string, numIo: nat, fd: int)
    requires |ipPort| <= 21 && numIo > 0
    ensures var steps := [PollStep(BASE, [AcceptItem]), AcceptStep(fd)];
            && Legal(Init(name, ipPort, numIo), steps)
            && var w := Run(Init(name, ipPort, numIo), steps);
               && Known(w, 1) && w.peers[1].loop == 1 && w.peers[1].state == Connecting
               && w.loops[1] == IDLE_LOOP.(pending := [Established(1)])
  {
    var w := Init(name, ipPort, numIo);
    var (s1, s2) := (PollStep(BASE, [AcceptItem]), AcceptStep(fd));
    var w1 := Do(w, s1);
    assert Enabled(w1, s2);
    PrependStep(w1, s2, []);
    PrependStep(w, s1, [s2] + []);
    assert [s1] + ([s2] + []) == [s1, s2];
  }

  /** Its own loop establishes it and goes back to its poll. */
  lemma FirstEstablished(w: World)
    requires Known(w, 1) && w.peers[1].loop == 1 && w.loops[1] == IDLE_LOOP.(pending := [Established(1)])
    ensures var steps := [PollStep(1, []), SwapStep(1), FunctorStep(1), EndBatch(1)];
            && Legal(w, steps)
            && var w' := Run(w, steps);
               Up(w', 1) && Known(w', 1) && w'.peers[1].loop == 1 && w'.loops[1].phase == Polling
  {
    var w1 := Do(w, PollStep(1, []));
    var w2 := Do(w1, SwapStep(1));
    var w3 := Do(w2, FunctorStep(1));
    PrependStep(w3, EndBatch(1), []);
    PrependStep(w2, FunctorStep(1), [EndBatch(1)] + []);
    PrependStep(w1, SwapStep(1), [FunctorStep(1)] + ([EndBatch(1)] + []));
    PrependStep(w, PollStep(1, []), [SwapStep(1)] + ([FunctorStep(1)] + ([EndBatch(1)] + [])));
    assert [PollStep(1, [])] + ([SwapStep(1)] + ([FunctorStep(1)] + ([EndBatch(1)] + []))) ==
           [PollStep(1, []), SwapStep(1), FunctorStep(1), EndBatch(1)];
  }

  /** A run that brings the first connection up, on a loop of its own. */
  lemma FirstUp(name: string, ipPort: string, numIo: nat, fd: int) returns (steps: seq<Step>)
    requires |ipPort| <= 21 && numIo > 0
    ensures Legal(Init(name, ipPort, numIo), steps)
    ensures var w := Run(Init(name, ipPort, numIo), steps);
            Inv(w) && AcceptsOnBase(w) && Up(w, 1) && w.peers[1].loop == 1
  {
    var w := Init(name, ipPort, numIo);
    var s1 := [PollStep(BASE, [AcceptItem]), AcceptStep(fd)];
    var s2 := [PollStep(1, []), SwapStep(1), FunctorStep(1), EndBatch(1)];
    FirstAccept(name, ipPort, numIo, fd);
    FirstEstablished(Run(w, s1));
    RunConcat(w, s1, s2);
    steps := s1 + s2;
    InitInv(name, ipPort, numIo);
    InvRun(w, steps);
    AcceptsOnBaseRun(w, steps);
  }

  /** handleClose has run before, and one more poll runs it again. */
  ghost predicate ClosedTwice(w: World, c: ConnId, again: seq<Step>) {
    && AwaitsRepeat(w, c) && Legal(w, again) && c in Run(w, again).peers
    && Run(w, again).peers[c].closes == w.peers[c].closes + 1 > 1
  }

  lemma RunReaches(name: string, ipPort: string, numIo: nat, steps: seq<Step>)
    requires |ipPort| <= 21 && Legal(Init(name, ipPort, numIo), steps)
    ensures Reached(Run(Init(name, ipPort, numIo), steps))
  {
  }

  /** So it does happen, on every server whose connections have loops of their
      own: a run in which the first connection closes in two polls. */
  lemma RepeatedCloseHappens(name: string, ipPort: string, numIo: nat, fd: int)
    returns (steps: seq<Step>, again: seq<Step>)
    requires |ipPort| <= 21 && numIo > 0
    ensures Legal(Init(name, ipPort, numIo), steps)
    ensures ClosedTwice(Run(Init(name, ipPort, numIo), steps), 1, again)
  {
    var w := Init(name, ipPort, numIo);
    var s1 := FirstUp(name, ipPort, numIo, fd);
    UpLingers(Run(w, s1), 1);
    var s2 := OffBaseRepeats(Run(w, s1), 1, 1);
    RunConcat(w, s1, s2);
    steps := s1 + s2;
    RunReaches(name, ipPort, numIo, steps);
    again := RepeatOnce(Run(w, steps), 1);
  }

  lemma RepeatOnce(w: World, c: ConnId) returns (again: seq<Step>)
    requires Reached(w) && AwaitsRepeat(w, c)
    ensures ClosedTwice(w, c, again)
  {
    CloseCanRepeat(w, c);
    ReachedInv(w);
    assert ConnInv(w, c);
    var l := w.peers[c].loop;
    again := [PollStep(l, [ConnItem(c, EPOLLHUP)]), BeginEvent(l), CallbackStep(l, Nothing)];
  }
}
