/** What holds after every run of a connection: no byte lost, write interest
    exactly while there is a backlog, flow-control callbacks exactly at crossings. */
module ConnectionRuns {
  import opened Posix
  import opened Epoll
  import opened ConnStates
  import opened Connection

  // -------------------------------------------------------------- stream

  /** The messages taken on, end to end, in the order they were offered. */
  function Kept(offers: seq<Offer>): Bytes {
    if offers == [] then []
    else
      var last := offers[|offers| - 1];
      Kept(offers[..|offers| - 1]) + if last.kept then last.msg else []
  }

  lemma KeptSnoc(offers: seq<Offer>, o: Offer)
    ensures Kept(offers + [o]) == Kept(offers) + if o.kept then o.msg else []
  {
    assert (offers + [o])[..|offers|] == offers;
  }

  ghost predicate StreamInv(c: Conn) {
    c.wire + c.output == Kept(c.offers)
  }

  /** Moving bytes from the head of a queue to the end of what precedes it. */
  lemma Shift(w: Bytes, q: Bytes, k: nat)
    requires k <= |q|
    ensures (w + q[..k]) + q[k..] == w + q
  {
    assert q == q[..k] + q[k..];
  }

  lemma SendBytes(c: Conn, msg: Bytes, o: WriteOutcome)
    requires SendLegal(c, msg, o)
    ensures var (d, n) := (SendInLoop(c, msg, o), DirectlyTaken(c, o));
            && n <= |msg| && (c.output == [] || n == 0)
            && d.wire == c.wire + msg[..n]
            && d.output == c.output + (if Keeps(c, o) then msg[n..] else [])
            && (!Keeps(c, o) ==> n == 0)
  {
    if c.state != Disconnected {
      var d := c.(offers := SendInLoop(c, msg, o).offers, lateSends := SendInLoop(c, msg, o).lateSends);
      var n := DirectlyTaken(c, o);
      var e := WriteThrough(d, msg, o);
      assert e.wire == c.wire + msg[..n] && e.output == c.output;
      if Keeps(c, o) && n < |msg| {
        assert Backlog(e, msg[n..]).output == c.output + msg[n..];
      }
    }
  }

  /** Sending an empty message sends nothing. */
  lemma EmptySend(c: Conn, o: WriteOutcome)
    requires SendLegal(c, [], o)
    ensures var d := SendInLoop(c, [], o);
            d == c.(offers := c.offers + [Offer([], Keeps(c, o))])
  {
    assert c.wire + [][..0] == c.wire;
  }

  /** A message is taken on whole or dropped whole, and joins the stream behind
      everything taken on before. */
  lemma SendKeepsStream(c: Conn, msg: Bytes, o: WriteOutcome)
    requires SendLegal(c, msg, o)
    ensures var d := SendInLoop(c, msg, o);
            d.wire + d.output == c.wire + c.output + if Keeps(c, o) then msg else []
  {
    SendBytes(c, msg, o);
    var n := DirectlyTaken(c, o);
    if c.output == [] {
      Shift(c.wire, msg, n);
      assert c.wire + c.output == c.wire && c.output + msg[n..] == msg[n..];
    } else {
      assert msg[..n] == [] && msg[n..] == msg;
    }
  }

  lemma SendStream(c: Conn, msg: Bytes, o: WriteOutcome)
    requires StreamInv(c) && SendLegal(c, msg, o)
    ensures StreamInv(SendInLoop(c, msg, o))
  {
    SendKeepsStream(c, msg, o);
    KeptSnoc(c.offers, Offer(msg, Keeps(c, o)));
  }

  lemma HandleWriteStream(c: Conn, o: WriteOutcome)
    requires StreamInv(c) && HandleWriteLegal(c, o)
    ensures StreamInv(HandleWrite(c, o))
  {
    if IsWriting(c.events) && o.n > 0 {
      Shift(c.wire, c.output, o.n);
    }
  }

  lemma RunTaskStream(c: Conn, o: WriteOutcome)
    requires StreamInv(c) && Allowed(c, RunTaskEv(o))
    ensures StreamInv(RunTask(c, o))
  {
    if c.batch[0].SendTask? {
      SendStream(c.(batch := c.batch[1..]), c.batch[0].msg, o);
    }
  }

  /** Events that neither send nor write, nor run a task. */
  predicate IsPlain(e: Event) {
    !e.SendRunEv? && !e.WriteEv? && !e.RunTaskEv?
  }

  /** The outbound stream of a connection and its callbacks. */
  datatype OutputSide = OutputSide(
    cfg: Config, wire: Bytes, output: Bytes, offers: seq<Offer>, highWaters: nat, completes: nat)

  function OutputOf(c: Conn): OutputSide {
    OutputSide(c.cfg, c.wire, c.output, c.offers, c.highWaters, c.completes)
  }

  /** They leave it alone. */
  lemma PlainLeavesOutput(c: Conn, e: Event)
    requires Allowed(c, e) && IsPlain(e)
    ensures OutputOf(Apply(c, e)) == OutputOf(c)
  {
  }

  lemma StreamStep(c: Conn, e: Event)
    requires StreamInv(c) && Allowed(c, e)
    ensures StreamInv(Apply(c, e))
  {
    match e
    case SendRunEv(o) => SendStream(c.(calling := None), c.calling.value, o);
    case WriteEv(o) => HandleWriteStream(c, o);
    case RunTaskEv(o) => RunTaskStream(c, o);
    case _ => PlainLeavesOutput(c, e);
  }

  lemma {:induction false} StreamRun(c: Conn, es: seq<Event>)
    requires StreamInv(c) && Legal(c, es)
    ensures StreamInv(Run(c, es))
    decreases |es|
  {
    if es != [] {
      StreamStep(c, es[0]);
      StreamRun(Apply(c, es[0]), es[1..]);
    }
  }

  /** Outbound stream integrity: after any run, with any partial writes and
      errors, the bytes the kernel took followed by the output buffer are the
      messages taken on, each whole, in order, once. */
  lemma StreamIntegrity(cfg: Config, es: seq<Event>)
    requires Legal(NewConn(cfg), es)
    ensures var c := Run(NewConn(cfg), es); c.wire + c.output == Kept(c.offers)
  {
    StreamRun(NewConn(cfg), es);
  }

  // ------------------------------------------------------ write interest

  /** Tasks that cannot touch the stream or the socket's write side. */
  predicate Inert(t: Task) {
    !t.ShutdownTask? && (t.SendTask? ==> t.msg == [])
  }

  predicate AllInert(ts: seq<Task>) {
    forall i :: 0 <= i < |ts| ==> Inert(ts[i])
  }

  /** A send queues at most one functor, a callback, and leaves alone everything
      that is not about output. */
  lemma SendQueues(c: Conn, msg: Bytes, o: WriteOutcome) returns (extra: seq<Task>)
    requires SendLegal(c, msg, o)
    ensures var d := SendInLoop(c, msg, o);
            && d.batch == c.batch && d.pending == c.pending + extra
            && d.calling == c.calling && d.sending == c.sending && d.stopping == c.stopping && d.state == c.state
            && d.fins == c.fins && d.dirtyFins == c.dirtyFins && d.input == c.input && d.received == c.received
    ensures |extra| <= 1 && AllInert(extra)
  {
    extra := [];
    if c.state != Disconnected {
      var d := c.(offers := SendInLoop(c, msg, o).offers, lateSends := SendInLoop(c, msg, o).lateSends);
      var n := DirectlyTaken(c, o);
      var e := WriteThrough(d, msg, o);
      if Keeps(c, o) && n < |msg| {
        extra := BacklogQueues(e, msg[n..]);
      } else if e.pending != d.pending {
        extra := [WriteComplete];
      }
    }
  }

  lemma BacklogQueues(c: Conn, rest: Bytes) returns (extra: seq<Task>)
    ensures Backlog(c, rest).pending == c.pending + extra && |extra| <= 1 && AllInert(extra)
  {
    extra := if Backlog(c, rest).pending == c.pending then [] else [HighWater(|c.output| + |rest|)];
  }

  predicate SlotConsistent(s: Slot) {
    && s.failures == 0
    && (s.index == Added <==> s.kernel.Some?)
    && (s.index != New <==> s.mapped)
  }

  predicate InterestInv(c: Conn) {
    && SlotConsistent(c.slot)
    && match c.state
       case Connecting =>
         && c.events == NONE_EVENT && c.slot == UNREGISTERED && c.output == []
         && AllInert(c.batch) && AllInert(c.pending) && c.calling == None && c.sending == [] && !c.stopping
       case Disconnected => c.events == NONE_EVENT
       case _ =>
         && c.slot == Slot(Added, true, Some(c.events), 0)
         && c.events == if c.output != [] then READ_EVENT | WRITE_EVENT else READ_EVENT
  }

  /** The two masks a live connection submits. */
  lemma Masks()
    ensures WithReading(NONE_EVENT) == READ_EVENT && WithWriting(READ_EVENT) == READ_EVENT | WRITE_EVENT
    ensures WithoutWriting(READ_EVENT | WRITE_EVENT) == READ_EVENT
    ensures IsWriting(READ_EVENT | WRITE_EVENT) && !IsWriting(READ_EVENT) && !IsWriting(NONE_EVENT)
    ensures !IsNone(READ_EVENT) && !IsNone(READ_EVENT | WRITE_EVENT)
  {
  }

  lemma BacklogInterest(c: Conn, rest: Bytes)
    requires InterestInv(c) && (c.state == Connected || c.state == Disconnecting) && rest != []
    ensures InterestInv(Backlog(c, rest))
  {
    Masks();
    if c.output == [] {
      assert c.events == READ_EVENT;
    } else {
      assert IsWriting(c.events);
    }
  }

  lemma SendInterest(c: Conn, msg: Bytes, o: WriteOutcome)
    requires InterestInv(c) && SendLegal(c, msg, o) && c.state != Connecting
    ensures InterestInv(SendInLoop(c, msg, o))
    ensures SendInLoop(c, msg, o).state == c.state
  {
    if c.state != Disconnected {
      var d := c.(offers := SendInLoop(c, msg, o).offers, lateSends := SendInLoop(c, msg, o).lateSends);
      var n := DirectlyTaken(c, o);
      var e := WriteThrough(d, msg, o);
      assert InterestInv(e);
      if Keeps(c, o) && n < |msg| { BacklogInterest(e, msg[n..]); }
    }
  }

  lemma FinishWritingInterest(c: Conn)
    requires c.state == Connected || c.state == Disconnecting
    requires c.output == [] && c.events == READ_EVENT | WRITE_EVENT && c.slot == Slot(Added, true, Some(c.events), 0)
    ensures InterestInv(FinishWriting(c))
  {
    Masks();
  }

  lemma HandleWriteInterest(c: Conn, o: WriteOutcome)
    requires InterestInv(c) && HandleWriteLegal(c, o)
    ensures InterestInv(HandleWrite(c, o))
  {
    Masks();
    if IsWriting(c.events) && o.n > 0 {
      var d := c.(wire := c.wire + c.output[..o.n], output := c.output[o.n..]);
      assert c.events == READ_EVENT | WRITE_EVENT;
      if d.output == [] { FinishWritingInterest(d); }
    }
  }

  lemma RunTaskInterest(c: Conn, o: WriteOutcome)
    requires InterestInv(c) && Allowed(c, RunTaskEv(o))
    ensures InterestInv(RunTask(c, o))
  {
    var d := c.(batch := c.batch[1..]);
    if c.state == Connecting {
      assert Inert(c.batch[0]);
    } else if c.batch[0].SendTask? {
      SendInterest(d, c.batch[0].msg, o);
    }
  }

  lemma EstablishedInterest(c: Conn)
    requires InterestInv(c) && c.state == Connecting
    ensures InterestInv(ConnectEstablished(c))
  {
    Masks();
  }

  /** A connection that is closed, or being closed, only has to keep its slot in order. */
  lemma ClosingInterest(c: Conn)
    requires InterestInv(c) && c.state != Connecting
    ensures InterestInv(HandleClose(c))
    ensures c.state == Disconnected ==> InterestInv(ConnectDestroyed(c))
  {
  }

  /** The user's and other threads' calls, and the loop's own bookkeeping. */
  predicate IsCall(e: Event) {
    IsPlain(e) && !e.EstablishedEv? && !e.DestroyedEv? && !e.CloseEv? && !e.ReadEv?
  }

  datatype MaskSide = MaskSide(events: Mask, slot: Slot, output: Bytes)

  function MaskOf(c: Conn): MaskSide {
    MaskSide(c.events, c.slot, c.output)
  }

  lemma CallLeavesMask(c: Conn, e: Event)
    requires Allowed(c, e) && IsCall(e)
    ensures MaskOf(Apply(c, e)) == MaskOf(c)
    ensures Apply(c, e).state == c.state || (c.state == Connected && Apply(c, e).state == Disconnecting)
  {
  }

  lemma CallWhileConnecting(c: Conn, e: Event)
    requires InterestInv(c) && c.state == Connecting && Allowed(c, e) && IsCall(e)
    ensures InterestInv(Apply(c, e))
  {
  }

  lemma CallInterest(c: Conn, e: Event)
    requires InterestInv(c) && Allowed(c, e) && IsCall(e)
    ensures InterestInv(Apply(c, e))
  {
    if c.state == Connecting {
      CallWhileConnecting(c, e);
    } else {
      CallLeavesMask(c, e);
    }
  }

  lemma InterestStep(c: Conn, e: Event)
    requires InterestInv(c) && Allowed(c, e)
    ensures InterestInv(Apply(c, e))
  {
    match e
    case SendRunEv(o) => SendInterest(c.(calling := None), c.calling.value, o);
    case WriteEv(o) => HandleWriteInterest(c, o);
    case RunTaskEv(o) => RunTaskInterest(c, o);
    case EstablishedEv => EstablishedInterest(c);
    case DestroyedEv => ClosingInterest(c);
    case CloseEv => ClosingInterest(c);
    case ReadEv(o) => ClosingInterest(c);
    case _ => CallInterest(c, e);
  }

  lemma {:induction false} InterestRun(c: Conn, es: seq<Event>)
    requires InterestInv(c) && Legal(c, es)
    ensures InterestInv(Run(c, es))
    decreases |es|
  {
    if es != [] {
      InterestStep(c, es[0]);
      InterestRun(Apply(c, es[0]), es[1..]);
    }
  }

  /** While a connection is up or half closed, these are one and the same: it
      wants to write, it has a backlog, epoll watches the fd for writability.
      Reads are watched throughout, and no epoll_ctl has ever been refused. */
  lemma WriteInterestIsBacklog(cfg: Config, es: seq<Event>)
    requires Legal(NewConn(cfg), es)
    ensures var c := Run(NewConn(cfg), es);
            && c.slot.failures == 0
            && (c.state == Connected || c.state == Disconnecting ==>
                  && c.slot.kernel.Some?
                  && c.slot.kernel.value & EPOLLIN != 0 && c.slot.kernel.value & EPOLLPRI != 0
                  && (IsWriting(c.events) <==> c.output != [])
                  && (c.slot.kernel.value & EPOLLOUT != 0 <==> c.output != []))
  {
    InterestRun(NewConn(cfg), es);
    LiveMasks();
  }

  lemma LiveMasks()
    ensures READ_EVENT & EPOLLIN != 0 && READ_EVENT & EPOLLPRI != 0 && READ_EVENT & EPOLLOUT == 0
    ensures (READ_EVENT | WRITE_EVENT) & EPOLLIN != 0 && (READ_EVENT | WRITE_EVENT) & EPOLLPRI != 0
    ensures (READ_EVENT | WRITE_EVENT) & EPOLLOUT != 0
  {
  }

  // ---------------------------------------------------------- after a close

  const UNREGISTERED := Slot(New, false, None, 0)

  /** disableAll in handleClose tells epoll nothing: the fd of a connection that
      was up stays registered, with the mask it had. */
  lemma CloseLeavesKernelInterest(cfg: Config, es: seq<Event>)
    requires Legal(NewConn(cfg), es)
    requires var s := Run(NewConn(cfg), es).state; s == Connected || s == Disconnecting
    ensures var c := Run(NewConn(cfg), es);
            HandleClose(c).slot == Slot(Added, true, Some(c.events), 0) && IsNone(HandleClose(c).events)
            && IsReading(c.events)
  {
    InterestRun(NewConn(cfg), es);
  }

  lemma ClosedStep(c: Conn, e: Event)
    requires InterestInv(c) && c.state == Disconnected && Allowed(c, e)
    ensures var d := Apply(c, e);
            && d.state == Disconnected && d.wire == c.wire && d.output == c.output
            && d.slot == if e.DestroyedEv? then UNREGISTERED else c.slot
  {
  }

  lemma {:induction false} ClosedRun(c: Conn, es: seq<Event>)
    requires InterestInv(c) && c.state == Disconnected && Legal(c, es)
    ensures var d := Run(c, es);
            && d.state == Disconnected && d.wire == c.wire && d.output == c.output
            && d.slot == if DestroyedEv in es then UNREGISTERED else c.slot
    decreases |es|
  {
    if es != [] {
      ClosedStep(c, es[0]);
      InterestStep(c, es[0]);
      ClosedRun(Apply(c, es[0]), es[1..]);
      assert DestroyedEv in es <==> es[0] == DestroyedEv || DestroyedEv in es[1..];
    }
  }

  /** However often a closed connection is reported, closed or sent to again, it
      stays closed and sends nothing, and its registration stays as it is until
      connectDestroyed takes it away for good. */
  lemma AfterClose(cfg: Config, es: seq<Event>, fs: seq<Event>)
    requires Legal(NewConn(cfg), es) && Run(NewConn(cfg), es).state == Disconnected
    requires Legal(Run(NewConn(cfg), es), fs)
    ensures var (c, d) := (Run(NewConn(cfg), es), Run(Run(NewConn(cfg), es), fs));
            && d.state == Disconnected && d.wire == c.wire && d.output == c.output
            && d.slot == if DestroyedEv in fs then UNREGISTERED else c.slot
  {
    InterestRun(NewConn(cfg), es);
    ClosedRun(Run(NewConn(cfg), es), fs);
  }

  // -------------------------------------------------------- flow control

  /** The backlog has gone from below the mark to the mark or above. */
  predicate Crossing(c: Conn, d: Conn) {
    |c.output| < c.cfg.mark <= |d.output|
  }

  /** Bytes have gone to the kernel and none is left. */
  predicate Emptied(c: Conn, d: Conn) {
    |c.wire| < |d.wire| && d.output == []
  }

  ghost function Crossings(c: Conn, es: seq<Event>): nat
    requires Legal(c, es)
    decreases |es|
  {
    if es == [] then 0
    else (if Crossing(c, Apply(c, es[0])) then 1 else 0) + Crossings(Apply(c, es[0]), es[1..])
  }

  ghost function Emptyings(c: Conn, es: seq<Event>): nat
    requires Legal(c, es)
    decreases |es|
  {
    if es == [] then 0
    else (if Emptied(c, Apply(c, es[0])) then 1 else 0) + Emptyings(Apply(c, es[0]), es[1..])
  }

  ghost predicate FlowCounts(c: Conn, d: Conn) {
    && d.cfg == c.cfg
    && d.highWaters == c.highWaters + (if c.cfg.hasHighWater && Crossing(c, d) then 1 else 0)
    && d.completes == c.completes + (if c.cfg.hasWriteComplete && Emptied(c, d) then 1 else 0)
  }

  lemma SendFlow(c: Conn, msg: Bytes, o: WriteOutcome)
    requires SendLegal(c, msg, o)
    ensures FlowCounts(c, SendInLoop(c, msg, o))
  {
    SendBytes(c, msg, o);
  }

  lemma HandleWriteFlow(c: Conn, o: WriteOutcome)
    requires HandleWriteLegal(c, o)
    ensures FlowCounts(c, HandleWrite(c, o))
  {
  }

  lemma RunTaskFlow(c: Conn, o: WriteOutcome)
    requires Allowed(c, RunTaskEv(o))
    ensures FlowCounts(c, RunTask(c, o))
  {
    if c.batch[0].SendTask? {
      SendFlow(c.(batch := c.batch[1..]), c.batch[0].msg, o);
    }
  }

  lemma FlowStep(c: Conn, e: Event)
    requires Allowed(c, e)
    ensures FlowCounts(c, Apply(c, e))
  {
    match e
    case SendRunEv(o) => SendFlow(c.(calling := None), c.calling.value, o);
    case WriteEv(o) => HandleWriteFlow(c, o);
    case RunTaskEv(o) => RunTaskFlow(c, o);
    case _ => PlainLeavesOutput(c, e);
  }

  /** A callback that is counted is queued, behind everything queued before, the
      high-water one with the backlog it is about; nothing else queues either. */
  ghost predicate QueuesCallbacks(c: Conn, d: Conn) {
    && c.pending <= d.pending
    && (d.highWaters > c.highWaters ==> d.pending == c.pending + [HighWater(|d.output|)])
    && (d.completes > c.completes ==> d.pending == c.pending + [WriteComplete])
    && (d.highWaters == c.highWaters && d.completes == c.completes ==>
          forall i :: |c.pending| <= i < |d.pending| ==> !d.pending[i].HighWater? && !d.pending[i].WriteComplete?)
  }

  lemma BacklogQueuesCallbacks(c: Conn, rest: Bytes)
    ensures QueuesCallbacks(c, Backlog(c, rest))
  {
  }

  lemma WriteThroughQueuesCallbacks(c: Conn, msg: Bytes, o: WriteOutcome)
    requires SendLegal(c, msg, o)
    ensures QueuesCallbacks(c, WriteThrough(c, msg, o))
    ensures DirectlyTaken(c, o) < |msg| ==>
              WriteThrough(c, msg, o).pending == c.pending && WriteThrough(c, msg, o).completes == c.completes
  {
  }

  lemma SendQueuesCallbacks(c: Conn, msg: Bytes, o: WriteOutcome)
    requires SendLegal(c, msg, o)
    ensures QueuesCallbacks(c, SendInLoop(c, msg, o))
  {
    if c.state != Disconnected {
      var d := c.(offers := SendInLoop(c, msg, o).offers, lateSends := SendInLoop(c, msg, o).lateSends);
      WriteThroughQueuesCallbacks(d, msg, o);
      var n := DirectlyTaken(c, o);
      if Keeps(c, o) && n < |msg| { BacklogQueuesCallbacks(WriteThrough(d, msg, o), msg[n..]); }
    }
  }

  lemma HandleWriteQueuesCallbacks(c: Conn, o: WriteOutcome)
    requires HandleWriteLegal(c, o)
    ensures QueuesCallbacks(c, HandleWrite(c, o))
  {
  }

  lemma RunTaskQueuesCallbacks(c: Conn, o: WriteOutcome)
    requires Allowed(c, RunTaskEv(o))
    ensures QueuesCallbacks(c, RunTask(c, o))
  {
    if c.batch[0].SendTask? {
      SendQueuesCallbacks(c.(batch := c.batch[1..]), c.batch[0].msg, o);
    }
  }

  lemma PlainQueuesCallbacks(c: Conn, e: Event)
    requires Allowed(c, e) && IsPlain(e) && !e.SwapEv?
    ensures QueuesCallbacks(c, Apply(c, e))
  {
    PlainLeavesOutput(c, e);
  }

  lemma CallbacksAreQueued(c: Conn, e: Event)
    requires Allowed(c, e) && !e.SwapEv?
    ensures QueuesCallbacks(c, Apply(c, e))
  {
    match e
    case SendRunEv(o) => SendQueuesCallbacks(c.(calling := None), c.calling.value, o);
    case WriteEv(o) => HandleWriteQueuesCallbacks(c, o);
    case RunTaskEv(o) => RunTaskQueuesCallbacks(c, o);
    case _ => PlainQueuesCallbacks(c, e);
  }

  /** High-water callbacks are exactly the upward crossings of the mark, and
      write-complete callbacks exactly the steps that hand bytes to the kernel
      and leave none behind. */
  lemma {:induction false} CallbacksCount(c: Conn, es: seq<Event>)
    requires Legal(c, es)
    ensures var d := Run(c, es);
            && d.highWaters == c.highWaters + (if c.cfg.hasHighWater then Crossings(c, es) else 0)
            && d.completes == c.completes + (if c.cfg.hasWriteComplete then Emptyings(c, es) else 0)
    decreases |es|
  {
    if es != [] {
      FlowStep(c, es[0]);
      CallbacksCount(Apply(c, es[0]), es[1..]);
    }
  }

  /** Without a step that leaves the backlog below the mark there is no second
      callback: a drain lies between any two. */
  lemma {:induction false} DrainBetweenHighWaters(c: Conn, es: seq<Event>)
    requires Legal(c, es) && c.cfg.mark <= |c.output|
    requires forall k :: 0 <= k <= |es| && Legal(c, es[..k]) ==> c.cfg.mark <= |Run(c, es[..k]).output|
    ensures Run(c, es).highWaters == c.highWaters
    decreases |es|
  {
    if es != [] {
      var d := Apply(c, es[0]);
      FlowStep(c, es[0]);
      PrefixLegal(c, es, 1);
      assert Run(c, es[..1]) == d by { assert es[..1][1..] == []; }
      forall k | 0 <= k <= |es[1..]| && Legal(d, es[1..][..k])
        ensures d.cfg.mark <= |Run(d, es[1..][..k]).output|
      {
        assert es[..k + 1][1..] == es[1..][..k];
        assert Legal(c, es[..k + 1]);
      }
      DrainBetweenHighWaters(d, es[1..]);
    }
  }

  lemma {:induction false} PrefixLegal(c: Conn, es: seq<Event>, k: nat)
    requires Legal(c, es) && k <= |es|
    ensures Legal(c, es[..k])
    decreases |es|
  {
    if k > 0 {
      PrefixLegal(Apply(c, es[0]), es[1..], k - 1);
      assert es[..k][1..] == es[1..][..k - 1];
    }
  }

  /** When a write-complete callback is queued, every byte taken on is with the kernel. */
  lemma CompleteMeansSent(c: Conn, e: Event)
    requires StreamInv(c) && Allowed(c, e) && Apply(c, e).completes > c.completes
    ensures Apply(c, e).wire == Kept(Apply(c, e).offers)
  {
    FlowStep(c, e);
    StreamStep(c, e);
    assert Apply(c, e).wire + [] == Apply(c, e).wire;
  }
}
