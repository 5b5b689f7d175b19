/** The lifecycle's actions are those of the code: each is what TcpServer's methods
    do to the server and the queues, and what Connection's events do to a
    connection's state, mask and registration. */
module Projection {
  import opened Posix
  import opened Epoll
  import opened Server
  import opened ConnStates
  import opened Lifecycle
  import C = Connection
  import ConnectionRuns

  // ------------------------------------------------------------ the server

  ghost function SceneOf(w: World): Scene {
    Scene(w.server,
          map c | c in w.peers :: Home(w.peers[c].loop, w.peers[c].ch.fd),
          seq(|w.loops|, i requires 0 <= i < |w.loops| => w.loops[i].pending))
  }

  ghost predicate Sound(w: World) {
    w.server.Ok() && |w.loops| == w.server.numIo + 1 && forall c :: c in w.peers ==> Known(w, c)
  }

  lemma SoundScene(w: World)
    requires Sound(w)
    ensures SceneOf(w).Ok()
  {
  }

  lemma PushIsEnqueue(w: World, l: LoopId, f: Functor)
    requires l < |w.loops|
    ensures SceneOf(Push(w, l, f)) == Enqueue(SceneOf(w), l, f)
  {
    var (s, t) := (SceneOf(Push(w, l, f)), Enqueue(SceneOf(w), l, f));
    assert s.homes == t.homes;
    assert s.pending == t.pending;
  }

  /** A change of masks, registrations and states shows in none of them. */
  lemma SameScene(w: World, w': World)
    requires w'.server == w.server && |w'.loops| == |w.loops| && w'.peers.Keys == w.peers.Keys
    requires forall i :: 0 <= i < |w.loops| ==> w'.loops[i].pending == w.loops[i].pending
    requires forall c :: c in w.peers ==> w'.peers[c].loop == w.peers[c].loop && w'.peers[c].ch.fd == w.peers[c].ch.fd
    ensures SceneOf(w') == SceneOf(w)
  {
    assert SceneOf(w').homes == SceneOf(w).homes;
    assert SceneOf(w').pending == SceneOf(w).pending;
  }

  lemma CreateScene(w: World, fd: int)
    requires Sound(w)
    ensures var (server, c, loop) := Register(w.server);
            SceneOf(Create(w, fd)) == SceneOf(w).(server := server, homes := SceneOf(w).homes[c := Home(loop, fd)])
  {
    var (_, c, loop) := Register(w.server);
    assert SceneOf(Create(w, fd)).homes == SceneOf(w).homes[c := Home(loop, fd)];
  }

  /** An accept does to the server, the connections and the queues what
      newConnection does. */
  lemma AcceptIsNewConnection(w: World, fd: int)
    requires Sound(w)
    ensures SceneOf(w).Ok()
    ensures var (s, c, establishNow) := Accepted(SceneOf(w), fd);
            && SceneOf(DoAccept(w, fd)) == s
            && (establishNow ==> Known(Create(w, fd), c) && DoAccept(w, fd) == DoEstablished(Create(w, fd), c))
  {
    SoundScene(w);
    CreateScene(w, fd);
    var (_, c, loop) := Register(w.server);
    if loop == BASE {
      SameScene(Create(w, fd), DoAccept(w, fd));
    } else {
      PushIsEnqueue(Create(w, fd), loop, Established(c));
    }
  }

  lemma RemoveIsRemoveInLoop(w: World, c: ConnId)
    requires Sound(w) && c in w.peers
    ensures SceneOf(w).Ok() && SceneOf(DoRemoveInLoop(w, c)) == RemovedInLoop(SceneOf(w), c)
  {
    SoundScene(w);
    var w1 := w.(server := Erase(w.server, c));
    assert SceneOf(w1) == SceneOf(w).(server := w1.server);
    PushIsEnqueue(w1, w.peers[c].loop, Destroyed(c));
  }

  /** A close asks the server what removeConnection asks it, in place on the base
      loop and through its queue from any other. */
  lemma CloseAsksRemoval(w: World, c: ConnId)
    requires Sound(w) && c in w.peers
    ensures SceneOf(w).Ok() && SceneOf(DoClose(w, c)) == RemovalAsked(SceneOf(w), c, w.peers[c].loop == BASE)
  {
    SoundScene(w);
    var w1 := MarkClosed(w, c);
    SameScene(w, w1);
    if w.peers[c].loop == BASE {
      RemoveIsRemoveInLoop(w1, c);
    } else {
      PushIsEnqueue(w1, BASE, RemoveInLoop(c));
    }
  }

  // -------------------------------------------------------- the connection

  /** The world holds connection c as `conn` does. */
  ghost predicate Shows(w: World, c: ConnId, conn: C.Conn) {
    && Known(w, c)
    && w.peers[c].state == conn.state && w.peers[c].ch.events == conn.events && w.peers[c].closes == conn.closes
    && SlotOf(w.loops[w.peers[c].loop].poller, w.peers[c].ch) == conn.slot
  }

  /** What an event of one connection is to the world. */
  datatype Image = Runs(f: Functor) | Handles(cb: Callback, o: Outcome) | Calls(s: Step) | Unseen

  function ImageOf(c: ConnId, conn: C.Conn, e: C.Event): Image
    requires C.Allowed(conn, e)
  {
    match e
    case EstablishedEv => Runs(Established(c))
    case DestroyedEv => Runs(Destroyed(c))
    case CloseEv => Handles(CloseCb, Nothing)
    case ReadEv(o) => Handles(ReadCb, if o == ReadBytes([]) then EndOfStream else Nothing)
    case WriteEv(o) => Handles(WriteCb, if 0 < o.n == |conn.output| then Drained else Nothing)
    case ShutdownEv => Calls(UserShutdown(c))
    case ForeignShutdownEv => Calls(UserShutdown(c))
    // a send shows only when it starts to ask for writability
    case _ => if C.Apply(conn, e).events != conn.events then Calls(UserBacklog(c)) else Unseen
  }

  ghost predicate Possible(w: World, c: ConnId, i: Image) {
    Known(w, c) && |w.loops| > 0
    && match i
       case Runs(f) => f == Established(c) || f == Destroyed(c)
       case Calls(s) => Enabled(w, s)
       case _ => true
  }

  ghost function Effect(w: World, c: ConnId, i: Image): World
    requires Possible(w, c, i)
  {
    match i
    case Runs(f) => DoFunctor(w, f)
    case Handles(cb, o) => DoCallback(w, c, cb, o)
    case Calls(s) => Do(w, s)
    case Unseen => w
  }

  lemma SubmitShows(w: World, c: ConnId, conn: C.Conn, mask: Mask)
    requires Shows(w, c, conn)
    ensures Shows(SubmitMask(w, c, mask), c, C.Submit(conn, mask))
  {
    var p := w.peers[c];
    UpdatedSlot(w.loops[p.loop].poller, p.ch.(events := mask));
  }

  lemma EstablishShows(w: World, c: ConnId, conn: C.Conn)
    requires Shows(w, c, conn)
    ensures Shows(DoEstablished(w, c), c, C.ConnectEstablished(conn))
  {
    SubmitShows(MarkEstablished(w, c), c, conn.(state := Connected), WithReading(conn.events));
  }

  lemma DestroyShows(w: World, c: ConnId, conn: C.Conn)
    requires Shows(w, c, conn)
    ensures Shows(DoDestroyed(w, c), c, C.ConnectDestroyed(conn))
  {
    var p := w.peers[c];
    var ch := if p.state == Connected then p.ch.(events := NONE_EVENT) else p.ch;
    RemovedSlot(w.loops[p.loop].poller, ch);
  }

  lemma CloseShows(w: World, c: ConnId, conn: C.Conn)
    requires Shows(w, c, conn) && |w.loops| > 0
    ensures Shows(DoClose(w, c), c, C.HandleClose(conn))
  {
  }

  lemma ReadShows(w: World, c: ConnId, conn: C.Conn, o: ReadOutcome)
    requires Shows(w, c, conn) && |w.loops| > 0
    ensures Shows(DoCallback(w, c, ReadCb, if o == ReadBytes([]) then EndOfStream else Nothing), c, C.HandleRead(conn, o))
  {
    CloseShows(w, c, conn);
  }

  lemma WriteShows(w: World, c: ConnId, conn: C.Conn, o: WriteOutcome)
    requires Shows(w, c, conn) && C.HandleWriteLegal(conn, o)
    ensures Shows(DoCallback(w, c, WriteCb, if 0 < o.n == |conn.output| then Drained else Nothing), c,
                  C.HandleWrite(conn, o))
  {
    if IsWriting(conn.events) && 0 < o.n == |conn.output| {
      var d := conn.(wire := conn.wire + conn.output[..o.n], output := conn.output[o.n..]);
      assert d.output == [];
      SubmitShows(w, c, conn, WithoutWriting(conn.events));
    }
  }

  predicate SameMask(conn: C.Conn, d: C.Conn) {
    d.state == conn.state && d.events == conn.events && d.slot == conn.slot && d.closes == conn.closes
  }

  predicate StartsWriting(conn: C.Conn, d: C.Conn) {
    var e := C.Submit(conn, WithWriting(conn.events));
    && conn.state != Disconnected && !IsWriting(conn.events)
    && d.state == conn.state && d.events == e.events != conn.events && d.slot == e.slot && d.closes == conn.closes
  }

  /** A send either leaves mask and slot alone or turns write interest on. */
  lemma SendMask(conn: C.Conn, msg: Bytes, o: WriteOutcome)
    requires C.SendLegal(conn, msg, o)
    ensures var d := C.SendInLoop(conn, msg, o);
            SameMask(conn, d) || StartsWriting(conn, d)
  {
    var m := conn.events;
    if !IsWriting(m) {
      assert WithWriting(m) != m by { assert IsWriting(WithWriting(m)); }
    }
  }

  lemma SendShows(w: World, c: ConnId, conn: C.Conn, d: C.Conn)
    requires Shows(w, c, conn) && ConnectionRuns.InterestInv(conn) && conn.state != Connecting
    requires SameMask(conn, d) || StartsWriting(conn, d)
    requires d.events != conn.events ==> Enabled(w, UserBacklog(c))
    ensures Shows(if d.events != conn.events then Do(w, UserBacklog(c)) else w, c, d)
  {
    if d.events != conn.events {
      SubmitShows(w, c, conn, WithWriting(conn.events));
    }
  }

  lemma QueuedTaskShows(w: World, c: ConnId, conn: C.Conn, o: WriteOutcome)
    requires Shows(w, c, conn) && ConnectionRuns.InterestInv(conn) && C.Allowed(conn, C.RunTaskEv(o))
    requires Possible(w, c, ImageOf(c, conn, C.RunTaskEv(o)))
    ensures Shows(Effect(w, c, ImageOf(c, conn, C.RunTaskEv(o))), c, C.RunTask(conn, o))
  {
    var d := conn.(batch := conn.batch[1..]);
    if conn.batch[0].SendTask? {
      SendMask(d, conn.batch[0].msg, o);
      if conn.state == Connecting {
        assert ConnectionRuns.Inert(conn.batch[0]);
      } else {
        SendShows(w, c, conn, C.RunTask(conn, o));
      }
    }
  }

  lemma RunningSendShows(w: World, c: ConnId, conn: C.Conn, o: WriteOutcome)
    requires Shows(w, c, conn) && ConnectionRuns.InterestInv(conn) && C.Allowed(conn, C.SendRunEv(o))
    requires Possible(w, c, ImageOf(c, conn, C.SendRunEv(o)))
    ensures Shows(Effect(w, c, ImageOf(c, conn, C.SendRunEv(o))), c, C.Apply(conn, C.SendRunEv(o)))
  {
    SendMask(conn.(calling := None), conn.calling.value, o);
    SendShows(w, c, conn, C.Apply(conn, C.SendRunEv(o)));
  }

  lemma PlainShows(w: World, c: ConnId, conn: C.Conn, e: C.Event)
    requires Shows(w, c, conn) && C.Allowed(conn, e) && Possible(w, c, ImageOf(c, conn, e))
    requires !e.EstablishedEv? && !e.DestroyedEv? && !e.CloseEv? && !e.ReadEv? && !e.WriteEv? && !e.SendRunEv? && !e.RunTaskEv?
    ensures Shows(Effect(w, c, ImageOf(c, conn, e)), c, C.Apply(conn, e))
  {
    ConnectionRuns.CallLeavesMask(conn, e);
  }

  /** Whatever happens to one connection is, as far as its state, its mask and its
      registration go, one action of the lifecycle or nothing. */
  lemma EventsProject(w: World, c: ConnId, conn: C.Conn, e: C.Event)
    requires Shows(w, c, conn) && ConnectionRuns.InterestInv(conn) && C.Allowed(conn, e)
    requires Possible(w, c, ImageOf(c, conn, e))
    ensures Shows(Effect(w, c, ImageOf(c, conn, e)), c, C.Apply(conn, e))
  {
    match e
    case EstablishedEv => EstablishShows(w, c, conn);
    case DestroyedEv => DestroyShows(w, c, conn);
    case CloseEv => CloseShows(w, c, conn);
    case ReadEv(o) => ReadShows(w, c, conn, o);
    case WriteEv(o) => WriteShows(w, c, conn, o);
    case SendRunEv(o) => RunningSendShows(w, c, conn, o);
    case RunTaskEv(o) => QueuedTaskShows(w, c, conn, o);
    case _ => PlainShows(w, c, conn, e);
  }
}
