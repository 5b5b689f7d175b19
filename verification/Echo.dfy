/** The echo server of example/testserver.cc closes the loop between the two
    buffers of a connection. */
module Echo {
  import opened Posix
  import opened Buffers
  import opened Epoll
  import opened ConnStates
  import opened Connection
  import opened ConnectionRuns
  import opened ConnectionLaws
  import opened TcpConnections

  /** onMessage: everything in the input buffer is taken out and sent. */
  function OnMessage(c: Conn, o: WriteOutcome): Conn
    requires c.state == Connected ==> SendLegal(c.(input := []), c.input, o)
  {
    Send(c.(input := []), c.input, o)
  }

  class EchoServer {
    constructor () {}

    method HandleMessage(conn: TcpConnection, o: WriteOutcome)
      requires conn.Valid()
      requires conn.state == Connected ==> SendLegal(conn.View().(input := []), conn.View().input, o)
      modifies conn, conn.channel, conn.channel.poller, conn.inputBuffer, conn.outputBuffer, conn.outputBuffer.data
      ensures conn.Valid() && conn.View() == OnMessage(old(conn.View()), o)
    {
      ghost var c := conn.View();
      var msg := conn.inputBuffer.RetrieveAllAsString();
      assert conn.View() == c.(input := []);
      conn.Send(msg, true, o);
    }
  }

  // ----------------------------------------------------------------- runs

  /** What happens to an echo connection: data arrives and is echoed at once, or
      the loop does something that involves no user call. */
  datatype EchoEvent = Arrive(ro: ReadOutcome, wo: WriteOutcome) | Quietly(e: Event)

  /** The echo server makes no calls of its own outside onMessage. */
  predicate NoUserCall(e: Event) {
    || e.EstablishedEv? || e.WriteEv? || e.CloseEv? || e.DestroyedEv?
    || e.OtherTaskEv? || e.SwapEv? || e.RunTaskEv?
  }

  predicate EchoAllowed(c: Conn, e: EchoEvent) {
    match e
    case Quietly(q) => NoUserCall(q) && Allowed(c, q)
    case Arrive(ro, wo) =>
      && Allowed(c, ReadEv(ro))
      && var d := HandleRead(c, ro);
         d.state == Connected ==> SendLegal(d.(input := []), d.input, wo)
  }

  function EchoApply(c: Conn, e: EchoEvent): Conn
    requires EchoAllowed(c, e)
  {
    match e
    case Quietly(q) => Apply(c, q)
    case Arrive(ro, wo) =>
      var d := HandleRead(c, ro);
      if ro.ReadBytes? && ro.data != [] then OnMessage(d, wo) else d
  }

  /** The echo of this arrival was dropped by a faulted write. */
  predicate Faulted(c: Conn, e: EchoEvent)
    requires EchoAllowed(c, e)
  {
    && e.Arrive? && c.state == Connected && e.ro.ReadBytes? && e.ro.data != []
    && WritesDirectly(c) && IsFault(e.wo)
  }

  /** That is, told by `write` alone: the chunk met a broken pipe or a reset. */
  lemma FaultIsPipeOrReset(c: Conn, e: EchoEvent)
    requires EchoAllowed(c, e)
    ensures Faulted(c, e) <==>
            && e.Arrive? && c.state == Connected && e.ro.ReadBytes? && e.ro.data != []
            && OutputIdle(c) && e.wo.n <= 0 && (e.wo.errno == EPipe || e.wo.errno == EConnReset)
  {
    if e.Arrive? {
      SameTests(c, e.wo);
    }
  }

  /** What an echo event is to the connection: the arrival is read, taken out of the
      input buffer whole, and given to send(). */
  function EventsOf(c: Conn, e: EchoEvent): seq<Event> {
    match e
    case Quietly(q) => [q]
    case Arrive(ro, wo) =>
      if ro.ReadFailed? || ro.data == [] then [ReadEv(ro)]
      else
        var msg := c.input + ro.data;
        [ReadEv(ro), TakeInput(|msg|), SendCheckEv(msg)] + if c.state == Connected then [SendRunEv(wo)] else []
  }

  lemma OneEvent(c: Conn, e: Event, fs: seq<Event>)
    requires Allowed(c, e) && Legal(Apply(c, e), fs)
    ensures Legal(c, [e] + fs) && Connection.Run(c, [e] + fs) == Connection.Run(Apply(c, e), fs)
  {
    assert ([e] + fs)[1..] == fs;
  }

  /** So an echo run is a run of the connection, and all that holds of those holds. */
  lemma EchoIsARun(c: Conn, e: EchoEvent)
    requires EchoAllowed(c, e)
    ensures Legal(c, EventsOf(c, e)) && Connection.Run(c, EventsOf(c, e)) == EchoApply(c, e)
  {
    match e
    case Quietly(q) => OneEvent(c, q, []);
    case Arrive(ro, wo) =>
      if ro.ReadFailed? || ro.data == [] {
        OneEvent(c, ReadEv(ro), []);
      } else {
        ArrivalIsARun(c, ro, wo);
      }
  }

  lemma ArrivalIsARun(c: Conn, ro: ReadOutcome, wo: WriteOutcome)
    requires EchoAllowed(c, Arrive(ro, wo)) && ro.ReadBytes? && ro.data != []
    ensures var es := EventsOf(c, Arrive(ro, wo)); Legal(c, es) && Connection.Run(c, es) == EchoApply(c, Arrive(ro, wo))
  {
    var msg := c.input + ro.data;
    var c1 := Apply(c, ReadEv(ro));
    var c2 := Apply(c1, TakeInput(|msg|));
    var c3 := Apply(c2, SendCheckEv(msg));
    var last := if c.state == Connected then [SendRunEv(wo)] else [];
    assert c2 == c1.(input := []);
    if c.state == Connected {
      assert c3.(calling := None) == c2;
      OneEvent(c3, SendRunEv(wo), []);
      assert last == [SendRunEv(wo)] + [];
    }
    OneEvent(c2, SendCheckEv(msg), last);
    OneEvent(c1, TakeInput(|msg|), [SendCheckEv(msg)] + last);
    OneEvent(c, ReadEv(ro), [TakeInput(|msg|)] + ([SendCheckEv(msg)] + last));
    assert [ReadEv(ro)] + ([TakeInput(|msg|)] + ([SendCheckEv(msg)] + last)) == EventsOf(c, Arrive(ro, wo));
  }

  ghost predicate EchoLegal(c: Conn, es: seq<EchoEvent>)
    decreases |es|
  {
    es == [] || (EchoAllowed(c, es[0]) && EchoLegal(EchoApply(c, es[0]), es[1..]))
  }

  ghost function EchoRun(c: Conn, es: seq<EchoEvent>): Conn
    requires EchoLegal(c, es)
    decreases |es|
  {
    if es == [] then c else EchoRun(EchoApply(c, es[0]), es[1..])
  }

  ghost predicate NoFault(c: Conn, es: seq<EchoEvent>)
    requires EchoLegal(c, es)
    decreases |es|
  {
    es == [] || (!Faulted(c, es[0]) && NoFault(EchoApply(c, es[0]), es[1..]))
  }

  ghost predicate EchoInv(c: Conn) {
    && c.input == [] && c.state != Disconnecting && c.calling == None
    && AllInert(c.batch) && AllInert(c.pending)
    && c.wire + c.output <= c.received
    && (c.state != Disconnected ==> c.wire + c.output == c.received)
  }

  lemma SendEchoes(c: Conn, msg: Bytes, o: WriteOutcome)
    requires EchoInv(c) && c.state == Connected && SendLegal(c, msg, o) && Keeps(c, o)
    ensures var d := SendInLoop(c.(received := c.received + msg), msg, o); EchoInv(d) && d.state == Connected
  {
    var r := c.(received := c.received + msg);
    var d := SendInLoop(r, msg, o);
    SendKeepsStream(r, msg, o);
    assert d.wire + d.output == c.received + msg;
  }

  lemma DrainKeepsEcho(c: Conn, o: WriteOutcome)
    requires EchoInv(c) && HandleWriteLegal(c, o)
    ensures EchoInv(HandleWrite(c, o))
  {
    if IsWriting(c.events) && o.n > 0 {
      Shift(c.wire, c.output, o.n);
      assert HandleWrite(c, o).wire + HandleWrite(c, o).output == c.wire + c.output;
    }
  }

  lemma QuietlyKeepsEcho(c: Conn, e: Event)
    requires EchoInv(c) && NoUserCall(e) && Allowed(c, e)
    ensures EchoInv(Apply(c, e))
  {
    if e.WriteEv? {
      DrainKeepsEcho(c, e.wo);
    } else if e.RunTaskEv? {
      assert Inert(c.batch[0]);
      InertTaskKeepsEcho(c, e.wo);
    }
  }

  lemma EchoStep(c: Conn, e: EchoEvent)
    requires EchoInv(c) && EchoAllowed(c, e) && !Faulted(c, e)
    ensures EchoInv(EchoApply(c, e))
  {
    match e
    case Quietly(q) =>
      QuietlyKeepsEcho(c, q);
    case Arrive(ro, wo) =>
      if ro.ReadBytes? && ro.data != [] {
        assert c.input + ro.data == ro.data;
        if c.state == Connected {
          SendEchoes(c, ro.data, wo);
        }
      }
  }

  lemma InertTaskKeepsEcho(c: Conn, o: WriteOutcome)
    requires EchoInv(c) && Allowed(c, RunTaskEv(o)) && Inert(c.batch[0])
    ensures EchoInv(RunTask(c, o))
  {
    var d := c.(batch := c.batch[1..]);
    assert AllInert(d.batch);
    if c.batch[0].SendTask? {
      EmptySend(d, o);
    }
  }

  lemma {:induction false} EchoRunInv(c: Conn, es: seq<EchoEvent>)
    requires EchoInv(c) && EchoLegal(c, es) && NoFault(c, es)
    ensures EchoInv(EchoRun(c, es))
    decreases |es|
  {
    if es != [] {
      EchoStep(c, es[0]);
      EchoRunInv(EchoApply(c, es[0]), es[1..]);
    }
  }

  /** End to end: until a write faults, what the kernel has been given is a prefix
      of what was received, and while the connection is up the two differ by
      exactly the output buffer. */
  lemma EchoEndToEnd(cfg: Config, es: seq<EchoEvent>)
    requires EchoLegal(NewConn(cfg), es) && NoFault(NewConn(cfg), es)
    ensures var c := EchoRun(NewConn(cfg), es);
            && c.wire <= c.received
            && (c.state == Connected ==> c.wire + c.output == c.received && c.input == [])
  {
    EchoRunInv(NewConn(cfg), es);
    var c := EchoRun(NewConn(cfg), es);
    assert c.wire <= c.wire + c.output;
  }

  // ------------------------------------------------- the restriction is exact

  /** What every echo run keeps, faults included: the loop never carries a task
      that matters, and no byte goes out that did not come in. */
  ghost predicate AnyEchoInv(c: Conn) {
    && InterestInv(c)
    && c.input == [] && c.state != Disconnecting && c.calling == None
    && AllInert(c.batch) && AllInert(c.pending)
    && |c.wire| + |c.output| <= |c.received|
  }

  /** A fault has dropped bytes for good. */
  ghost predicate Lossy(c: Conn) {
    AnyEchoInv(c) && |c.wire| + |c.output| < |c.received|
  }

  ghost function Missing(c: Conn): int {
    |c.received| - |c.wire| - |c.output|
  }

  /** What AnyEchoInv says, without the registration. */
  ghost predicate Unmoved(c: Conn, d: Conn) {
    && d.input == c.input && d.state != Disconnecting && d.calling == c.calling
    && AllInert(d.batch) && AllInert(d.pending)
    && d.received == c.received && |d.wire| + |d.output| == |c.wire| + |c.output|
  }

  lemma AnyTask(c: Conn, o: WriteOutcome)
    requires AnyEchoInv(c) && Allowed(c, RunTaskEv(o))
    ensures Unmoved(c, RunTask(c, o))
  {
    var d := c.(batch := c.batch[1..]);
    assert Inert(c.batch[0]) && AllInert(d.batch);
    if c.batch[0].SendTask? {
      EmptySend(d, o);
    }
  }

  lemma AnyDrain(c: Conn, o: WriteOutcome)
    requires AnyEchoInv(c) && HandleWriteLegal(c, o)
    ensures Unmoved(c, HandleWrite(c, o))
  {
  }

  lemma AnyPlain(c: Conn, e: Event)
    requires AnyEchoInv(c) && NoUserCall(e) && Allowed(c, e) && !e.RunTaskEv? && !e.WriteEv?
    ensures Unmoved(c, Apply(c, e))
  {
  }

  lemma AnyQuietStep(c: Conn, e: Event)
    requires AnyEchoInv(c) && NoUserCall(e) && Allowed(c, e)
    ensures AnyEchoInv(Apply(c, e)) && Missing(Apply(c, e)) == Missing(c)
  {
    InterestStep(c, e);
    if e.RunTaskEv? {
      AnyTask(c, e.wo);
    } else if e.WriteEv? {
      AnyDrain(c, e.wo);
    } else {
      AnyPlain(c, e);
    }
  }

  /** What arrives is sent whole or lost whole. */
  lemma AnySend(c: Conn, msg: Bytes, wo: WriteOutcome)
    requires InterestInv(c) && SendLegal(c, msg, wo)
    requires c.state == Connected && c.input == [] && c.calling == None && AllInert(c.batch) && AllInert(c.pending)
    requires |c.wire| + |c.output| + |msg| <= |c.received|
    ensures var d := SendInLoop(c, msg, wo);
            && AnyEchoInv(d) && Missing(d) == Missing(c) - (if Keeps(c, wo) then |msg| else 0)
  {
    SendInterest(c, msg, wo);
    SendBytes(c, msg, wo);
    var extra := SendQueues(c, msg, wo);
  }

  /** An arrival is taken on or lost whole. */
  lemma AnyArrival(c: Conn, ro: ReadOutcome, wo: WriteOutcome)
    requires AnyEchoInv(c) && EchoAllowed(c, Arrive(ro, wo))
    ensures var d := EchoApply(c, Arrive(ro, wo));
            && AnyEchoInv(d) && Missing(d) >= Missing(c)
            && (Faulted(c, Arrive(ro, wo)) ==> Missing(d) > Missing(c))
  {
    var r := HandleRead(c, ro);
    InterestStep(c, ReadEv(ro));
    if ro.ReadBytes? && ro.data != [] {
      assert r.input == ro.data;
      if r.state == Connected {
        AnySend(r.(input := []), ro.data, wo);
      }
    }
  }

  lemma AnyEchoStep(c: Conn, e: EchoEvent)
    requires AnyEchoInv(c) && EchoAllowed(c, e)
    ensures AnyEchoInv(EchoApply(c, e)) && Missing(EchoApply(c, e)) >= Missing(c)
    ensures Faulted(c, e) ==> Lossy(EchoApply(c, e))
  {
    match e
    case Quietly(q) => AnyQuietStep(c, q);
    case Arrive(ro, wo) => AnyArrival(c, ro, wo);
  }

  lemma {:induction false} AnyEchoRun(c: Conn, es: seq<EchoEvent>)
    requires AnyEchoInv(c) && EchoLegal(c, es)
    ensures AnyEchoInv(EchoRun(c, es)) && Missing(EchoRun(c, es)) >= Missing(c)
    ensures !NoFault(c, es) ==> Lossy(EchoRun(c, es))
    decreases |es|
  {
    if es != [] {
      AnyEchoStep(c, es[0]);
      AnyEchoRun(EchoApply(c, es[0]), es[1..]);
    }
  }

  ghost predicate BreaksPrefix(c: Conn, fs: seq<EchoEvent>) {
    EchoLegal(c, fs) && NoFault(c, fs) && !(EchoRun(c, fs).wire <= EchoRun(c, fs).received)
  }

  lemma PrependEcho(c: Conn, e: EchoEvent, fs: seq<EchoEvent>)
    requires EchoAllowed(c, e) && !Faulted(c, e) && BreaksPrefix(EchoApply(c, e), fs)
    ensures BreaksPrefix(c, [e] + fs)
  {
    assert ([e] + fs)[1..] == fs;
  }

  /** The kernel has been given something that is not what came in. */
  lemma BrokenAlready(c: Conn)
    requires !(c.wire <= c.received)
    ensures BreaksPrefix(c, [])
  {
  }

  /** The byte after what is owed is not the byte received there. */
  ghost predicate Spoiled(c: Conn) {
    var k := |c.wire + c.output| - 1;
    0 <= k < |c.received| && (c.wire + c.output)[k] != c.received[k]
  }

  /** Once it is with the kernel the prefix is broken. */
  lemma DrainSpoiled(c: Conn) returns (fs: seq<EchoEvent>)
    requires AnyEchoInv(c) && c.state == Connected && c.batch == [] && Spoiled(c)
    ensures BreaksPrefix(c, fs)
  {
    if c.output == [] {
      assert c.wire + c.output == c.wire;
      BrokenAlready(c);
      fs := [];
    } else {
      var e := Quietly(WriteEv(WriteOutcome(|c.output|, EOther)));
      var d := EchoApply(c, e);
      assert c.output[..|c.output|] == c.output;
      assert d.wire == c.wire + c.output && d.received == c.received;
      BrokenAlready(d);
      PrependEcho(c, e, []);
      fs := [e] + [];
    }
  }

  /** The byte that comes in next, chosen to differ from the one that was lost. */
  ghost function Spoiler(c: Conn): Byte
    requires Lossy(c)
  {
    if c.received[|c.wire + c.output|] == 0 then 1 else 0
  }

  const TAKEN_WHOLE := WriteOutcome(1, EOther)

  lemma SpoilerArrives(c: Conn)
    requires Lossy(c) && c.state == Connected && c.batch == []
    ensures var e := Arrive(ReadBytes([Spoiler(c)]), TAKEN_WHOLE);
            && EchoAllowed(c, e) && !Faulted(c, e)
            && var d := EchoApply(c, e);
               AnyEchoInv(d) && d.state == Connected && d.batch == [] && Spoiled(d)
  {
    var b := Spoiler(c);
    var e := Arrive(ReadBytes([b]), TAKEN_WHOLE);
    assert c.input + [b] == [b];
    var t := HandleRead(c, ReadBytes([b])).(input := []);
    assert SendLegal(t, [b], TAKEN_WHOLE) && Keeps(t, TAKEN_WHOLE);
    AnyArrival(c, e.ro, e.wo);
    SendSpoils(c, t, b);
  }

  lemma SendSpoils(c: Conn, t: Conn, b: Byte)
    requires Lossy(c) && b == Spoiler(c) && SendLegal(t, [b], TAKEN_WHOLE) && Keeps(t, TAKEN_WHOLE)
    requires t == c.(received := c.received + [b], input := [])
    ensures var d := SendInLoop(t, [b], TAKEN_WHOLE); d.state == c.state && d.batch == c.batch && Spoiled(d)
  {
    var d := SendInLoop(t, [b], TAKEN_WHOLE);
    SendKeepsStream(t, [b], TAKEN_WHOLE);
    var extra := SendQueues(t, [b], TAKEN_WHOLE);
    assert d.wire + d.output == c.wire + c.output + [b] && d.received == c.received + [b];
  }

  lemma SpoilIdle(c: Conn) returns (fs: seq<EchoEvent>)
    requires Lossy(c) && c.state == Connected && c.batch == []
    ensures BreaksPrefix(c, fs)
  {
    var e := Arrive(ReadBytes([Spoiler(c)]), TAKEN_WHOLE);
    SpoilerArrives(c);
    var rest := DrainSpoiled(EchoApply(c, e));
    PrependEcho(c, e, rest);
    fs := [e] + rest;
  }

  /** The loop finishes its batch first. */
  lemma {:induction false} Spoil(c: Conn) returns (fs: seq<EchoEvent>)
    requires Lossy(c) && c.state == Connected
    ensures BreaksPrefix(c, fs)
    decreases |c.batch|
  {
    if c.batch == [] {
      fs := SpoilIdle(c);
    } else {
      var q := RunTaskEv(WriteOutcome(0, EOther));
      assert Inert(c.batch[0]);
      AnyQuietStep(c, q);
      RunTaskStands(c, q.wo);
      var rest := Spoil(Apply(c, q));
      PrependEcho(c, Quietly(q), rest);
      fs := [Quietly(q)] + rest;
    }
  }

  lemma RunTaskStands(c: Conn, o: WriteOutcome)
    requires Allowed(c, RunTaskEv(o))
    ensures RunTask(c, o).state == c.state && RunTask(c, o).batch == c.batch[1..]
  {
    if c.batch[0].SendTask? {
      var extra := SendQueues(c.(batch := c.batch[1..]), c.batch[0].msg, o);
    }
  }

  /** The restriction to runs without a faulted write is exact. A connection that
      is still up echoes a prefix of its input in every fault-free continuation if
      and only if no write has faulted so far. */
  lemma EchoPrefixExact(cfg: Config, es: seq<EchoEvent>)
    requires EchoLegal(NewConn(cfg), es) && EchoRun(NewConn(cfg), es).state == Connected
    ensures var c := EchoRun(NewConn(cfg), es);
            NoFault(NewConn(cfg), es) <==> (forall fs :: !BreaksPrefix(c, fs))
  {
    var c := EchoRun(NewConn(cfg), es);
    AnyEchoRun(NewConn(cfg), es);
    if NoFault(NewConn(cfg), es) {
      EchoRunInv(NewConn(cfg), es);
      forall fs | EchoLegal(c, fs) && NoFault(c, fs)
        ensures !BreaksPrefix(c, fs)
      {
        EchoRunInv(c, fs);
        var d := EchoRun(c, fs);
        assert d.wire <= d.wire + d.output;
      }
    } else {
      var fs := Spoil(c);
      assert BreaksPrefix(c, fs);
    }
  }

  /** The faulted write loses its chunk whole and leaves the output idle. */
  lemma FaultLoses(c: Conn, e: EchoEvent)
    requires EchoInv(c) && EchoAllowed(c, e) && Faulted(c, e)
    ensures c.wire == c.received
    ensures var d := EchoApply(c, e);
            && d.state == Connected && d.batch == [] && d.calling == None && d.input == [] && WritesDirectly(d)
            && d.wire == c.wire && d.received == c.received + e.ro.data
  {
    var data := e.ro.data;
    assert c.wire + c.output == c.wire && c.input + data == data;
    var t := c.(received := c.received + data);
    SendBytes(t, data, e.wo);
    var extra := SendQueues(t, data, e.wo);
    assert EchoApply(c, e) == SendInLoop(t, data, e.wo);
  }

  lemma WholeArrival(c: Conn, data: Bytes)
    requires c.state == Connected && c.batch == [] && c.calling == None && c.input == [] && WritesDirectly(c)
    requires data != []
    ensures var e := Arrive(ReadBytes(data), WriteOutcome(|data|, EOther));
            && EchoAllowed(c, e) && !Faulted(c, e)
            && EchoApply(c, e).wire == c.wire + data && EchoApply(c, e).received == c.received + data
  {
    var (t, wo) := (c.(received := c.received + data), WriteOutcome(|data|, EOther));
    assert c.input + data == data && data[..|data|] == data;
    SendBytes(t, data, wo);
    var extra := SendQueues(t, data, wo);
    assert EchoApply(c, Arrive(ReadBytes(data), wo)) == SendInLoop(t, data, wo);
  }

  /** A faulted write, from any state a fault-free run can reach, loses its chunk,
      and the next chunk that begins differently comes out in its place. */
  lemma FaultedWriteBreaksEcho(cfg: Config, es: seq<EchoEvent>, e1: EchoEvent, data: Bytes)
    requires EchoLegal(NewConn(cfg), es) && NoFault(NewConn(cfg), es)
    requires EchoAllowed(EchoRun(NewConn(cfg), es), e1) && Faulted(EchoRun(NewConn(cfg), es), e1)
    requires data != [] && data[0] != e1.ro.data[0]
    ensures var c := EchoRun(NewConn(cfg), es);
            var (d, e2) := (EchoApply(c, e1), Arrive(ReadBytes(data), WriteOutcome(|data|, EOther)));
            EchoAllowed(d, e2) && !Faulted(d, e2) && !(EchoApply(d, e2).wire <= EchoApply(d, e2).received)
  {
    var c := EchoRun(NewConn(cfg), es);
    EchoRunInv(NewConn(cfg), es);
    FaultLoses(c, e1);
    WholeArrival(EchoApply(c, e1), data);
    var (wire, received) := (c.wire + data, c.wire + e1.ro.data + data);
    assert wire[|c.wire|] == data[0] && received[|c.wire|] == e1.ro.data[0];
  }
}
