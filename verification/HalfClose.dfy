/** When shutdown() is a proper TCP half-close (section 3.6 of RFC 9293): the FIN
    goes out once, after every byte taken on, and nothing is sent behind it. The
    code promises this under conditions that are found here exactly. */
module HalfClose {
  import opened Posix
  import opened Epoll
  import opened ConnStates
  import opened Connection
  import opened ConnectionRuns

  /** A second FIN, a FIN with bytes unsent, or a message taken up behind a FIN. */
  predicate Violated(c: Conn) {
    c.fins > 1 || c.dirtyFins > 0 || c.lateSends > 0
  }

  predicate AllEmpty(msgs: seq<Bytes>) {
    forall i :: 0 <= i < |msgs| ==> msgs[i] == []
  }

  /** A send() in progress on the loop thread that will send nothing. */
  predicate Harmless(calling: Option<Bytes>) {
    calling == None || calling.value == []
  }

  /** shutdown() on the loop thread: with an idle output the FIN leaves at once,
      so no message may be queued at all; with a backlog it leaves at the next
      drain, which comes after the running batch and before the queue is taken. */
  predicate SafeLocal(c: Conn) {
    && AllInert(c.pending) && AllEmpty(c.sending)
    && (c.output == [] ==> AllInert(c.batch))
  }

  /** shutdown() on another thread: the early state change lets a drain send the
      FIN before the queued part runs, so there must be nothing to drain, now or
      by the time that part is queued. */
  predicate SafeForeign(c: Conn) {
    && c.output == [] && Harmless(c.calling)
    && AllInert(c.batch) && AllInert(c.pending) && AllEmpty(c.sending)
  }

  predicate EffectiveShutdownIsSafe(c: Conn, e: Event) {
    c.state == Connected ==>
      && (e.ShutdownEv? ==> SafeLocal(c))
      && (e.ForeignShutdownEv? ==> SafeForeign(c))
  }

  ghost predicate Guarded(c: Conn, es: seq<Event>)
    requires Legal(c, es)
    decreases |es|
  {
    es == [] || (EffectiveShutdownIsSafe(c, es[0]) && Guarded(Apply(c, es[0]), es[1..]))
  }

  // ------------------------------------------------------------- soundness

  predicate NoShutdownIn(ts: seq<Task>) {
    forall i :: 0 <= i < |ts| ==> !ts[i].ShutdownTask?
  }

  predicate Clean(c: Conn) {
    c.fins == 0 && c.dirtyFins == 0 && c.lateSends == 0
  }

  /** No shutdown has been called. */
  predicate Quiet(c: Conn) {
    c.state != Disconnecting && Clean(c) && NoShutdownIn(c.batch) && NoShutdownIn(c.pending) && !c.stopping
  }

  predicate Closing(s: ConnState) {
    s == Disconnecting || s == Disconnected
  }

  /** No send that is still under way outside the queue has anything to send. */
  predicate NothingUnderWay(c: Conn) {
    Closing(c.state) && Harmless(c.calling) && AllEmpty(c.sending)
  }

  /** A loop-thread shutdown waits for the backlog while a batch adds to it. */
  predicate Filling(c: Conn) {
    && c.state == Disconnecting && Clean(c) && c.output != [] && c.calling == None && AllEmpty(c.sending)
    && AllInert(c.pending) && NoShutdownIn(c.batch) && !c.stopping
  }

  /** One ShutdownTask among tasks that do not matter. */
  predicate OneShutdown(ts: seq<Task>, k: nat) {
    && k < |ts| && ts[k].ShutdownTask?
    && (forall i :: 0 <= i < |ts| && i != k ==> Inert(ts[i]))
  }

  /** A foreign shutdown has set the state and not queued its task yet. */
  predicate Armed(c: Conn) {
    NothingUnderWay(c) && Clean(c) && c.output == [] && c.stopping && AllInert(c.batch) && AllInert(c.pending)
  }

  /** The functor is queued and the loop has not taken the queue yet. */
  predicate Queued(c: Conn, k: nat) {
    NothingUnderWay(c) && Clean(c) && c.output == [] && !c.stopping && AllInert(c.batch) && OneShutdown(c.pending, k)
  }

  /** The loop is running the batch that holds the functor. */
  predicate InBatch(c: Conn, k: nat) {
    NothingUnderWay(c) && Clean(c) && c.output == [] && !c.stopping && OneShutdown(c.batch, k) && AllInert(c.pending)
  }

  /** Nothing that is left can break the half-close. */
  predicate Settled(c: Conn) {
    && NothingUnderWay(c) && !c.stopping && AllInert(c.batch) && AllInert(c.pending)
    && c.dirtyFins == 0 && c.lateSends == 0
    && (c.fins == 0 || (c.fins == 1 && c.output == []))
  }

  ghost predicate Good(c: Conn) {
    || Quiet(c)
    || Filling(c)
    || Armed(c)
    || (exists k: nat :: Queued(c, k))
    || (exists k: nat :: InBatch(c, k))
    || Settled(c)
  }

  lemma QuietSend(c: Conn, msg: Bytes, o: WriteOutcome)
    requires Quiet(c) && SendLegal(c, msg, o)
    ensures Quiet(SendInLoop(c, msg, o))
  {
    var extra := SendQueues(c, msg, o);
  }

  lemma QuietShutdown(c: Conn)
    requires InterestInv(c) && Quiet(c) && c.state == Connected
    ensures SafeLocal(c) && c.calling == None ==> Good(Shutdown(c))
    ensures SafeForeign(c) ==> Good(ForeignShutdownSet(c))
  {
    if SafeLocal(c) && c.calling == None {
      assert if c.output == [] then Settled(Shutdown(c)) else Filling(Shutdown(c));
    }
    if SafeForeign(c) {
      assert Armed(ForeignShutdownSet(c));
    }
  }

  lemma QuietTask(c: Conn, o: WriteOutcome)
    requires Quiet(c) && Allowed(c, RunTaskEv(o))
    ensures Quiet(RunTask(c, o))
  {
    var d := c.(batch := c.batch[1..]);
    assert !c.batch[0].ShutdownTask? && NoShutdownIn(d.batch);
    if c.batch[0].SendTask? { QuietSend(d, c.batch[0].msg, o); }
  }

  lemma QuietWrite(c: Conn, o: WriteOutcome)
    requires Quiet(c) && HandleWriteLegal(c, o)
    ensures Quiet(HandleWrite(c, o))
  {
  }

  lemma QuietPlain(c: Conn, e: Event)
    requires Quiet(c) && Allowed(c, e) && IsPlain(e)
    requires c.state == Connected ==> !e.ShutdownEv? && !e.ForeignShutdownEv?
    ensures Quiet(Apply(c, e))
  {
  }

  /** Everything but a shutdown that takes effect. */
  lemma QuietOtherwise(c: Conn, e: Event)
    requires Quiet(c) && Allowed(c, e)
    requires c.state == Connected ==> !e.ShutdownEv? && !e.ForeignShutdownEv?
    ensures Quiet(Apply(c, e))
  {
    match e
    case SendRunEv(o) => QuietSend(c.(calling := None), c.calling.value, o);
    case RunTaskEv(o) => QuietTask(c, o);
    case WriteEv(o) => QuietWrite(c, o);
    case _ => QuietPlain(c, e);
  }

  lemma QuietStep(c: Conn, e: Event)
    requires InterestInv(c) && Quiet(c) && Allowed(c, e) && EffectiveShutdownIsSafe(c, e)
    ensures Good(Apply(c, e))
  {
    if c.state == Connected && (e.ShutdownEv? || e.ForeignShutdownEv?) {
      QuietShutdown(c);
    } else {
      QuietOtherwise(c, e);
    }
  }

  lemma FillingStep(c: Conn, e: Event)
    requires InterestInv(c) && Filling(c) && Allowed(c, e)
    ensures Good(Apply(c, e))
  {
    if c.batch == [] {
      assert Settled(c);
      SettledStep(c, e);
    } else if e.RunTaskEv? && c.batch[0].SendTask? {
      var d := c.(batch := c.batch[1..]);
      var extra := SendQueues(d, c.batch[0].msg, e.wo);
      SendBytes(d, c.batch[0].msg, e.wo);
      assert Filling(Apply(c, e));
    } else {
      assert Filling(Apply(c, e));
    }
  }

  /** With nothing under way and nothing unsent, a step that is not the FIN's own
      changes nothing that matters. */
  ghost predicate Idle(c: Conn, d: Conn) {
    && NothingUnderWay(d) && d.output == [] && d.stopping == c.stopping
    && d.fins == c.fins && d.dirtyFins == c.dirtyFins && d.lateSends == c.lateSends
    && d.batch == c.batch && c.pending <= d.pending
    && (forall i :: |c.pending| <= i < |d.pending| ==> Inert(d.pending[i]))
  }

  lemma IdlePlain(c: Conn, e: Event)
    requires NothingUnderWay(c) && c.output == [] && Allowed(c, e) && IsPlain(e)
    requires !e.SwapEv? && !e.ForeignShutdownPushEv?
    ensures Idle(c, Apply(c, e))
  {
  }

  lemma IdleStep(c: Conn, e: Event)
    requires InterestInv(c) && NothingUnderWay(c) && c.output == [] && Allowed(c, e)
    requires !e.RunTaskEv? && !e.SwapEv? && !e.ForeignShutdownPushEv?
    ensures Idle(c, Apply(c, e))
  {
    if e.SendRunEv? {
      EmptySend(c.(calling := None), e.wo);
    } else if e.WriteEv? {
      assert !IsWriting(c.events);
    } else {
      IdlePlain(c, e);
    }
  }

  lemma IdleTask(c: Conn, o: WriteOutcome)
    requires InterestInv(c) && NothingUnderWay(c) && c.output == [] && Allowed(c, RunTaskEv(o)) && Inert(c.batch[0])
    ensures Idle(c.(batch := c.batch[1..]), RunTask(c, o))
  {
    var d := c.(batch := c.batch[1..]);
    if c.batch[0].SendTask? {
      EmptySend(d, o);
    }
  }

  lemma ArmedStep(c: Conn, e: Event)
    requires InterestInv(c) && Armed(c) && Allowed(c, e)
    ensures Good(Apply(c, e))
  {
    var d := Apply(c, e);
    if e.ForeignShutdownPushEv? {
      assert Queued(d, |c.pending|);
    } else {
      if e.RunTaskEv? {
        IdleTask(c, e.wo);
      } else if !e.SwapEv? {
        IdleStep(c, e);
      }
      assert Armed(d);
    }
  }

  lemma QueuedStep(c: Conn, k: nat, e: Event)
    requires InterestInv(c) && Queued(c, k) && Allowed(c, e)
    ensures Good(Apply(c, e))
  {
    var d := Apply(c, e);
    if e.SwapEv? {
      assert InBatch(d, k);
    } else if e.RunTaskEv? {
      IdleTask(c, e.wo);
      assert Queued(d, k);
    } else {
      IdleStep(c, e);
      assert Queued(d, k);
    }
  }

  lemma InBatchStep(c: Conn, k: nat, e: Event)
    requires InterestInv(c) && InBatch(c, k) && Allowed(c, e)
    ensures Good(Apply(c, e))
  {
    var d := Apply(c, e);
    if e.RunTaskEv? {
      if k == 0 {
        assert Settled(d);
      } else {
        IdleTask(c, e.wo);
        assert d.batch == c.batch[1..];
        assert InBatch(d, k - 1);
      }
    } else {
      IdleStep(c, e);
      assert InBatch(d, k);
    }
  }

  /** A drain may send the one FIN that is due. */
  lemma SettledWrite(c: Conn, o: WriteOutcome)
    requires InterestInv(c) && Settled(c) && Allowed(c, WriteEv(o))
    ensures Settled(HandleWrite(c, o))
  {
  }

  lemma SettledTask(c: Conn, o: WriteOutcome)
    requires InterestInv(c) && Settled(c) && Allowed(c, RunTaskEv(o))
    ensures Settled(RunTask(c, o))
  {
    if c.batch[0].SendTask? {
      EmptySend(c.(batch := c.batch[1..]), o);
    }
  }

  lemma SettledPlain(c: Conn, e: Event)
    requires Settled(c) && Allowed(c, e) && IsPlain(e)
    ensures Settled(Apply(c, e))
  {
  }

  lemma SettledStep(c: Conn, e: Event)
    requires InterestInv(c) && Settled(c) && Allowed(c, e)
    ensures Settled(Apply(c, e))
  {
    match e
    case SendRunEv(o) => EmptySend(c.(calling := None), o);
    case RunTaskEv(o) => SettledTask(c, o);
    case WriteEv(o) => SettledWrite(c, o);
    case _ => SettledPlain(c, e);
  }

  lemma GoodStep(c: Conn, e: Event)
    requires InterestInv(c) && Good(c) && Allowed(c, e) && EffectiveShutdownIsSafe(c, e)
    ensures Good(Apply(c, e))
  {
    if Quiet(c) {
      QuietStep(c, e);
    } else if Filling(c) {
      FillingStep(c, e);
    } else if Armed(c) {
      ArmedStep(c, e);
    } else if k: nat :| Queued(c, k) {
      QueuedStep(c, k, e);
    } else if k: nat :| InBatch(c, k) {
      InBatchStep(c, k, e);
    } else {
      SettledStep(c, e);
    }
  }

  lemma {:induction false} GoodRun(c: Conn, es: seq<Event>)
    requires InterestInv(c) && Good(c) && Legal(c, es) && Guarded(c, es)
    ensures Good(Run(c, es))
    decreases |es|
  {
    if es != [] {
      GoodStep(c, es[0]);
      InterestStep(c, es[0]);
      GoodRun(Apply(c, es[0]), es[1..]);
    }
  }

  lemma GoodIsClean(c: Conn)
    requires Good(c)
    ensures !Violated(c)
  {
  }

  /** Every run in which each shutdown that takes effect meets its condition is a
      proper half-close. */
  lemma HalfCloseOrdering(cfg: Config, es: seq<Event>)
    requires Legal(NewConn(cfg), es) && Guarded(NewConn(cfg), es)
    ensures !Violated(Run(NewConn(cfg), es))
  {
    GoodRun(NewConn(cfg), es);
    GoodIsClean(Run(NewConn(cfg), es));
  }

  predicate IsForeign(e: Event) {
    e.ForeignSendEv? || e.ForeignSendPushEv? || e.ForeignShutdownEv? || e.ForeignShutdownPushEv?
  }

  lemma {:induction false} LocalRunsAreGuarded(c: Conn, es: seq<Event>)
    requires Legal(c, es) && AllInert(c.batch) && AllInert(c.pending) && c.sending == []
    requires forall i :: 0 <= i < |es| ==> !IsForeign(es[i])
    ensures Guarded(c, es)
    decreases |es|
  {
    if es != [] {
      assert !IsForeign(es[0]);
      LocalKeepsInert(c, es[0]);
      LocalRunsAreGuarded(Apply(c, es[0]), es[1..]);
    }
  }

  lemma SendKeepsInert(c: Conn, msg: Bytes, o: WriteOutcome)
    requires SendLegal(c, msg, o) && AllInert(c.batch) && AllInert(c.pending)
    ensures AllInert(SendInLoop(c, msg, o).batch) && AllInert(SendInLoop(c, msg, o).pending)
    ensures SendInLoop(c, msg, o).sending == c.sending
  {
    var extra := SendQueues(c, msg, o);
  }

  lemma TaskKeepsInert(c: Conn, o: WriteOutcome)
    requires Allowed(c, RunTaskEv(o)) && AllInert(c.batch) && AllInert(c.pending)
    ensures AllInert(RunTask(c, o).batch) && AllInert(RunTask(c, o).pending)
    ensures RunTask(c, o).sending == c.sending
  {
    var d := c.(batch := c.batch[1..]);
    assert AllInert(d.batch);
    if c.batch[0].SendTask? {
      SendKeepsInert(d, c.batch[0].msg, o);
    }
  }

  lemma WriteKeepsInert(c: Conn, o: WriteOutcome)
    requires HandleWriteLegal(c, o) && AllInert(c.batch) && AllInert(c.pending)
    ensures AllInert(HandleWrite(c, o).batch) && AllInert(HandleWrite(c, o).pending)
    ensures HandleWrite(c, o).sending == c.sending
  {
  }

  lemma LocalKeepsInert(c: Conn, e: Event)
    requires Allowed(c, e) && AllInert(c.batch) && AllInert(c.pending) && c.sending == [] && !IsForeign(e)
    ensures AllInert(Apply(c, e).batch) && AllInert(Apply(c, e).pending) && Apply(c, e).sending == []
  {
    if e.SendRunEv? {
      SendKeepsInert(c.(calling := None), c.calling.value, e.wo);
    } else if e.RunTaskEv? {
      TaskKeepsInert(c, e.wo);
    } else if e.WriteEv? {
      WriteKeepsInert(c, e.wo);
    }
  }

  /** In particular every run whose send and shutdown calls are all made on the
      connection's own loop thread. */
  lemma LoopThreadHalfClose(cfg: Config, es: seq<Event>)
    requires Legal(NewConn(cfg), es)
    requires forall i :: 0 <= i < |es| ==> !IsForeign(es[i])
    ensures !Violated(Run(NewConn(cfg), es))
  {
    LocalRunsAreGuarded(NewConn(cfg), es);
    HalfCloseOrdering(cfg, es);
  }

  // ----------------------------------------------- nothing behind the FIN

  predicate CountersAtMost(c: Conn, d: Conn) {
    c.fins <= d.fins && c.dirtyFins <= d.dirtyFins && c.lateSends <= d.lateSends
  }

  lemma SendCounters(c: Conn, msg: Bytes, o: WriteOutcome)
    requires SendLegal(c, msg, o)
    ensures CountersAtMost(c, SendInLoop(c, msg, o))
  {
  }

  lemma HandleWriteCounters(c: Conn, o: WriteOutcome)
    requires HandleWriteLegal(c, o)
    ensures CountersAtMost(c, HandleWrite(c, o))
  {
  }

  lemma RunTaskCounters(c: Conn, o: WriteOutcome)
    requires Allowed(c, RunTaskEv(o))
    ensures CountersAtMost(c, RunTask(c, o))
  {
    if c.batch[0].SendTask? {
      SendCounters(c.(batch := c.batch[1..]), c.batch[0].msg, o);
    }
  }

  lemma CountersStep(c: Conn, e: Event)
    requires Allowed(c, e)
    ensures CountersAtMost(c, Apply(c, e))
  {
    if e.SendRunEv? {
      SendCounters(c.(calling := None), c.calling.value, e.wo);
    } else if e.RunTaskEv? {
      RunTaskCounters(c, e.wo);
    } else if e.WriteEv? {
      HandleWriteCounters(c, e.wo);
    }
  }

  lemma {:induction false} CountersGrow(c: Conn, es: seq<Event>)
    requires Legal(c, es)
    ensures CountersAtMost(c, Run(c, es))
    decreases |es|
  {
    if es != [] {
      CountersStep(c, es[0]);
      CountersGrow(Apply(c, es[0]), es[1..]);
    }
  }

  lemma SendBehindFin(c: Conn, msg: Bytes, o: WriteOutcome)
    requires SendLegal(c, msg, o) && c.fins > 0 && c.output == []
    requires SendInLoop(c, msg, o).lateSends == c.lateSends
    ensures SendInLoop(c, msg, o).output == [] && SendInLoop(c, msg, o).wire == c.wire
  {
    SendBytes(c, msg, o);
  }

  lemma FinTask(c: Conn, o: WriteOutcome)
    requires Allowed(c, RunTaskEv(o)) && c.fins > 0 && c.output == [] && c.lateSends == RunTask(c, o).lateSends
    ensures RunTask(c, o).output == [] && RunTask(c, o).wire == c.wire
  {
    if c.batch[0].SendTask? { SendBehindFin(c.(batch := c.batch[1..]), c.batch[0].msg, o); }
  }

  lemma FinStep(c: Conn, e: Event)
    requires InterestInv(c) && Allowed(c, e) && c.fins > 0 && c.output == []
    requires c.lateSends == Apply(c, e).lateSends
    ensures Apply(c, e).output == [] && Apply(c, e).wire == c.wire
  {
    match e
    case SendRunEv(o) => SendBehindFin(c.(calling := None), c.calling.value, o);
    case RunTaskEv(o) => FinTask(c, o);
    case WriteEv(o) => assert !IsWriting(c.events);
    case _ => PlainLeavesOutput(c, e);
  }

  lemma FirstFin(c: Conn, e: Event)
    requires InterestInv(c) && Allowed(c, e) && c.fins < Apply(c, e).fins
    requires c.dirtyFins == Apply(c, e).dirtyFins
    ensures Apply(c, e).output == []
  {
    if e.SendRunEv? {
      var extra := SendQueues(c.(calling := None), c.calling.value, e.wo);
      assert false;
    } else if e.RunTaskEv? {
      var d := c.(batch := c.batch[1..]);
      if c.batch[0].SendTask? {
        var extra := SendQueues(d, c.batch[0].msg, e.wo);
        assert false;
      }
    }
  }

  lemma {:induction false} FinMeansEmpty(c: Conn, es: seq<Event>)
    requires InterestInv(c) && Legal(c, es) && !Violated(Run(c, es))
    requires c.fins > 0 ==> c.output == []
    ensures Run(c, es).fins > 0 ==> Run(c, es).output == []
    decreases |es|
  {
    if es != [] {
      var d := Apply(c, es[0]);
      CountersStep(c, es[0]);
      CountersGrow(d, es[1..]);
      InterestStep(c, es[0]);
      if c.fins > 0 {
        FinStep(c, es[0]);
      } else if d.fins > 0 {
        FirstFin(c, es[0]);
      }
      FinMeansEmpty(d, es[1..]);
    }
  }

  /** The three counters say it all: as long as they are clean, a FIN that is out
      is the last thing the kernel gets. */
  lemma NoBytesBehindFin(cfg: Config, es: seq<Event>, e: Event)
    requires Legal(NewConn(cfg), es) && Allowed(Run(NewConn(cfg), es), e)
    requires Run(NewConn(cfg), es).fins > 0 && !Violated(Apply(Run(NewConn(cfg), es), e))
    ensures var c := Run(NewConn(cfg), es); Apply(c, e).wire == c.wire && Apply(c, e).output == c.output == []
  {
    var c := Run(NewConn(cfg), es);
    CountersStep(c, e);
    FinMeansEmpty(NewConn(cfg), es);
    InterestRun(NewConn(cfg), es);
    FinStep(c, e);
  }

  // --------------------------------------------------- the FIN does go out

  /** Half closed, nothing left to send, and no part of a shutdown still to run. */
  predicate FinDue(c: Conn) {
    c.state == Disconnecting && c.output == [] && !c.stopping && NoShutdownIn(c.batch) && NoShutdownIn(c.pending)
  }

  predicate FinSent(c: Conn) {
    FinDue(c) ==> c.fins > 0
  }

  lemma SendKeepsFinSent(c: Conn, msg: Bytes, o: WriteOutcome)
    requires FinSent(c) && SendLegal(c, msg, o)
    ensures FinSent(SendInLoop(c, msg, o))
  {
    var extra := SendQueues(c, msg, o);
    SendBytes(c, msg, o);
    var d := SendInLoop(c, msg, o);
    if FinDue(d) {
      assert forall i :: 0 <= i < |c.pending| ==> d.pending[i] == c.pending[i];
      assert c.output == [];
    }
  }

  lemma TaskKeepsFinSent(c: Conn, o: WriteOutcome)
    requires InterestInv(c) && FinSent(c) && Allowed(c, RunTaskEv(o))
    ensures FinSent(RunTask(c, o))
  {
    var d := c.(batch := c.batch[1..]);
    if c.batch[0].ShutdownTask? {
    } else {
      assert NoShutdownIn(d.batch) ==> NoShutdownIn(c.batch) by { assert c.batch == [c.batch[0]] + d.batch; }
      if c.batch[0].SendTask? { SendKeepsFinSent(d, c.batch[0].msg, o); }
    }
  }

  lemma WriteKeepsFinSent(c: Conn, o: WriteOutcome)
    requires InterestInv(c) && FinSent(c) && HandleWriteLegal(c, o)
    ensures FinSent(HandleWrite(c, o))
  {
  }

  lemma PlainKeepsFinSent(c: Conn, e: Event)
    requires InterestInv(c) && FinSent(c) && Allowed(c, e) && !e.SendRunEv? && !e.RunTaskEv? && !e.WriteEv?
    ensures FinSent(Apply(c, e))
  {
    var d := Apply(c, e);
    if e.ForeignShutdownPushEv? {
      assert d.pending[|c.pending|].ShutdownTask?;
    } else if FinDue(d) {
      assert |c.pending| <= |d.pending| ==> forall i :: 0 <= i < |c.pending| ==> d.pending[i] == c.pending[i];
    }
  }

  lemma {:induction false} FinSentRun(c: Conn, es: seq<Event>)
    requires InterestInv(c) && FinSent(c) && Legal(c, es)
    ensures FinSent(Run(c, es))
    decreases |es|
  {
    if es != [] {
      var e := es[0];
      InterestStep(c, e);
      if e.SendRunEv? {
        SendKeepsFinSent(c.(calling := None), c.calling.value, e.wo);
      } else if e.RunTaskEv? {
        TaskKeepsFinSent(c, e.wo);
      } else if e.WriteEv? {
        WriteKeepsFinSent(c, e.wo);
      } else {
        PlainKeepsFinSent(c, e);
      }
      FinSentRun(Apply(c, e), es[1..]);
    }
  }

  /** A half-closed connection with nothing left to send or to run has sent its
      FIN; if every shutdown that took effect met its condition, just the one. */
  lemma FinGoesOut(cfg: Config, es: seq<Event>)
    requires Legal(NewConn(cfg), es) && FinDue(Run(NewConn(cfg), es))
    ensures Run(NewConn(cfg), es).fins > 0
    ensures Guarded(NewConn(cfg), es) ==> Run(NewConn(cfg), es).fins == 1
  {
    FinSentRun(NewConn(cfg), es);
    if Guarded(NewConn(cfg), es) {
      HalfCloseOrdering(cfg, es);
    }
  }
}
