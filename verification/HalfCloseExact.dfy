/** The conditions of HalfClose are exact: from every reachable state in which a
    call of shutdown() misses its condition, some run of the loop breaks the
    half-close. */
module HalfCloseExact {
  import opened Posix
  import opened Epoll
  import opened ConnStates
  import opened Connection
  import opened ConnectionRuns
  import opened HalfClose

  /** A write on a full socket buffer. */
  const BLOCKED := WriteOutcome(-1, EWouldBlock)

  // ------------------------------------------- a shutdown has not happened yet

  predicate QuietWhileUp(c: Conn) {
    c.state == Connecting || c.state == Connected ==> Quiet(c)
  }

  lemma ShutdownEndsUp(c: Conn, e: Event)
    requires Allowed(c, e)
    ensures c.state == Connected && (e.ShutdownEv? || e.ForeignShutdownEv?) ==> Apply(c, e).state == Disconnecting
    ensures Closing(c.state) ==> Closing(Apply(c, e).state)
  {
    if Closing(c.state) { ClosingStays(c, e); }
  }

  lemma QuietWhileUpStep(c: Conn, e: Event)
    requires QuietWhileUp(c) && Allowed(c, e)
    ensures QuietWhileUp(Apply(c, e))
  {
    ShutdownEndsUp(c, e);
    if !Closing(c.state) && !(c.state == Connected && (e.ShutdownEv? || e.ForeignShutdownEv?)) {
      QuietOtherwise(c, e);
    }
  }

  lemma {:induction false} QuietWhileUpRun(c: Conn, es: seq<Event>)
    requires QuietWhileUp(c) && Legal(c, es)
    ensures QuietWhileUp(Run(c, es))
    decreases |es|
  {
    if es != [] {
      QuietWhileUpStep(c, es[0]);
      QuietWhileUpRun(Apply(c, es[0]), es[1..]);
    }
  }

  // ------------------------------------------------------ building bad runs

  lemma Prepend(c: Conn, e: Event, fs: seq<Event>)
    requires Allowed(c, e) && Legal(Apply(c, e), fs)
    ensures Legal(c, [e] + fs) && Run(c, [e] + fs) == Run(Apply(c, e), fs)
  {
    assert ([e] + fs)[1..] == fs;
  }

  /** What no step of the loop thread takes back: queued work, and calls of other
      threads that have still to queue theirs. */
  predicate Behind(c: Conn, d: Conn) {
    && c.pending <= d.pending && c.sending == d.sending && c.stopping == d.stopping
    && (NoShutdownIn(c.pending) ==> NoShutdownIn(d.pending))
  }

  /** A half-closed connection whose loop thread is not inside send(). */
  predicate Ready(c: Conn) {
    InterestInv(c) && c.state == Disconnecting && c.calling == None
  }

  lemma SendBlocked(c: Conn, msg: Bytes)
    requires InterestInv(c) && c.state == Disconnecting
    ensures SendLegal(c, msg, BLOCKED)
    ensures var d := SendInLoop(c, msg, BLOCKED);
            && d.output == c.output + msg && d.batch == c.batch && Behind(c, d) && d.calling == c.calling
            && d.state == c.state && CountersAtMost(c, d)
            && (c.fins > 0 && c.output == [] && msg != [] ==> Violated(d))
  {
    SendBytes(c, msg, BLOCKED);
    assert msg[0..] == msg;
    var extra := SendQueues(c, msg, BLOCKED);
  }

  /** One task of the batch, every write of which blocks. */
  lemma RunBlocked(c: Conn)
    requires Ready(c) && c.batch != []
    ensures Allowed(c, RunTaskEv(BLOCKED))
    ensures var d := Apply(c, RunTaskEv(BLOCKED));
            && Ready(d) && d.batch == c.batch[1..] && Behind(c, d) && CountersAtMost(c, d)
            && d.output == c.output + (if c.batch[0].SendTask? then c.batch[0].msg else [])
            && (c.fins > 0 && c.output == [] && !Inert(c.batch[0]) ==> Violated(d))
  {
    if c.batch[0].SendTask? {
      SendBlocked(c.(batch := c.batch[1..]), c.batch[0].msg);
    }
    InterestStep(c, RunTaskEv(BLOCKED));
  }

  /** The loop finishes its batch without the kernel taking a byte. */
  lemma {:induction false} FinishBatch(c: Conn) returns (fs: seq<Event>)
    requires Ready(c) && NoShutdownIn(c.batch)
    ensures Legal(c, fs)
    ensures var d := Run(c, fs);
            && Ready(d) && d.batch == [] && Behind(c, d) && CountersAtMost(c, d)
            && (d.output == [] <==> c.output == [] && AllInert(c.batch))
    decreases |c.batch|
  {
    if c.batch == [] {
      fs := [];
    } else {
      RunBlocked(c);
      var d := Apply(c, RunTaskEv(BLOCKED));
      var rest := FinishBatch(d);
      Prepend(c, RunTaskEv(BLOCKED), rest);
      fs := [RunTaskEv(BLOCKED)] + rest;
      assert AllInert(c.batch) <==> Inert(c.batch[0]) && AllInert(d.batch);
    }
  }

  /** With a FIN out and nothing left to send, any task that is not inert is a
      second FIN or a message behind the first. */
  lemma {:induction false} BreakInBatch(c: Conn) returns (fs: seq<Event>)
    requires Ready(c) && c.fins > 0 && c.output == [] && !AllInert(c.batch)
    ensures Legal(c, fs) && Violated(Run(c, fs))
    decreases |c.batch|
  {
    RunBlocked(c);
    var d := Apply(c, RunTaskEv(BLOCKED));
    if !Inert(c.batch[0]) {
      Prepend(c, RunTaskEv(BLOCKED), []);
      fs := [RunTaskEv(BLOCKED)] + [];
    } else {
      assert exists i :: 0 <= i < |d.batch| && !Inert(d.batch[i]) by {
        var i :| 0 <= i < |c.batch| && !Inert(c.batch[i]);
        assert d.batch[i - 1] == c.batch[i];
      }
      var rest := BreakInBatch(d);
      Prepend(c, RunTaskEv(BLOCKED), rest);
      fs := [RunTaskEv(BLOCKED)] + rest;
    }
  }

  lemma BreakInQueue(c: Conn) returns (fs: seq<Event>)
    requires Ready(c) && c.fins > 0 && c.output == [] && c.batch == [] && !AllInert(c.pending)
    ensures Legal(c, fs) && Violated(Run(c, fs))
  {
    InterestStep(c, SwapEv);
    var rest := BreakInBatch(Apply(c, SwapEv));
    Prepend(c, SwapEv, rest);
    fs := [SwapEv] + rest;
  }

  /** A bad task is queued, or another thread is about to queue one. */
  predicate Loaded(c: Conn) {
    !AllInert(c.pending) || c.stopping || !AllEmpty(c.sending)
  }

  lemma LoadedStays(c: Conn, d: Conn)
    requires Loaded(c) && Behind(c, d)
    ensures Loaded(d)
  {
    if !AllInert(c.pending) {
      var i :| 0 <= i < |c.pending| && !Inert(c.pending[i]);
      assert d.pending[i] == c.pending[i];
    }
  }

  /** Another thread finishes its send() or shutdown() call. */
  lemma LoadQueue(c: Conn) returns (e: Event)
    requires Ready(c) && Loaded(c) && AllInert(c.pending)
    ensures Allowed(c, e)
    ensures var d := Apply(c, e);
            && Ready(d) && !AllInert(d.pending) && d.fins == c.fins && d.output == c.output && d.batch == c.batch
            && (!AllEmpty(c.sending) && NoShutdownIn(c.pending) ==> d.stopping == c.stopping && NoShutdownIn(d.pending))
  {
    if !AllEmpty(c.sending) {
      var i: nat :| i < |c.sending| && c.sending[i] != [];
      e := ForeignSendPushEv(i);
    } else {
      e := ForeignShutdownPushEv;
    }
    InterestStep(c, e);
    var d := Apply(c, e);
    assert !Inert(d.pending[|c.pending|]);
  }

  /** The FIN is out, the batch done, and something bad is on its way. */
  lemma BreakLoaded(c: Conn) returns (fs: seq<Event>)
    requires Ready(c) && c.fins > 0 && c.output == [] && c.batch == [] && Loaded(c)
    ensures Legal(c, fs) && Violated(Run(c, fs))
  {
    if AllInert(c.pending) {
      var e := LoadQueue(c);
      var rest := BreakInQueue(Apply(c, e));
      Prepend(c, e, rest);
      fs := [e] + rest;
    } else {
      fs := BreakInQueue(c);
    }
  }

  /** The FIN is out and something bad waits behind the batch. */
  lemma BreakAfterFin(c: Conn) returns (fs: seq<Event>)
    requires Ready(c) && c.fins > 0 && c.output == [] && NoShutdownIn(c.batch) && AllInert(c.batch) && Loaded(c)
    ensures Legal(c, fs) && Violated(Run(c, fs))
  {
    var gs := FinishBatch(c);
    var d := Run(c, gs);
    LoadedStays(c, d);
    var hs := BreakLoaded(d);
    RunConcat(c, gs, hs);
    fs := gs + hs;
  }

  lemma Drain(c: Conn) returns (e: Event)
    requires Ready(c) && c.batch == [] && c.output != []
    ensures Allowed(c, e)
    ensures var d := Apply(c, e); Ready(d) && d.output == [] && d.fins > 0 && d.batch == [] && Behind(c, d)
  {
    e := WriteEv(WriteOutcome(|c.output|, EOther));
    InterestStep(c, e);
  }

  /** A backlog will be drained, and the FIN sent, before the queue is taken. */
  lemma BreakByDrain(c: Conn) returns (fs: seq<Event>)
    requires Ready(c) && NoShutdownIn(c.batch) && Loaded(c)
    requires c.output != [] || !AllInert(c.batch)
    ensures Legal(c, fs) && Violated(Run(c, fs))
  {
    var gs := FinishBatch(c);
    var d := Run(c, gs);
    var drain := Drain(d);
    var e := Apply(d, drain);
    LoadedStays(c, d);
    LoadedStays(d, e);
    var hs := BreakLoaded(e);
    Prepend(d, drain, hs);
    RunConcat(c, gs, [drain] + hs);
    fs := gs + ([drain] + hs);
  }

  // -------------------------------------- a foreign shutdown that is under way

  /** A message is queued: the loop takes it up as a backlog. */
  lemma BreakQueued(c: Conn) returns (fs: seq<Event>)
    requires Ready(c) && NoShutdownIn(c.batch) && NoShutdownIn(c.pending) && c.stopping
    requires c.output == [] && AllInert(c.batch) && !AllInert(c.pending)
    ensures Legal(c, fs) && Violated(Run(c, fs))
  {
    var gs := FinishBatch(c);
    var d := Run(c, gs);
    NotInertPrefix(c.pending, d.pending);
    InterestStep(d, SwapEv);
    var hs := BreakByDrain(Apply(d, SwapEv));
    Prepend(d, SwapEv, hs);
    RunConcat(c, gs, [SwapEv] + hs);
    fs := gs + ([SwapEv] + hs);
  }

  lemma NotInertPrefix(ts: seq<Task>, us: seq<Task>)
    requires ts <= us && !AllInert(ts)
    ensures !AllInert(us)
  {
    var i :| 0 <= i < |ts| && !Inert(ts[i]);
    assert us[i] == ts[i];
  }

  lemma BreakStopping(c: Conn) returns (fs: seq<Event>)
    requires Ready(c) && NoShutdownIn(c.batch) && NoShutdownIn(c.pending) && c.stopping
    requires c.output != [] || !AllInert(c.batch) || !AllInert(c.pending) || !AllEmpty(c.sending)
    ensures Legal(c, fs) && Violated(Run(c, fs))
  {
    if c.output != [] || !AllInert(c.batch) {
      fs := BreakByDrain(c);
    } else if !AllInert(c.pending) {
      fs := BreakQueued(c);
    } else {
      var e := LoadQueue(c);
      var rest := BreakQueued(Apply(c, e));
      Prepend(c, e, rest);
      fs := [e] + rest;
    }
  }

  /** The send() the loop thread is in comes first. */
  lemma BreakForeign(c: Conn) returns (fs: seq<Event>)
    requires InterestInv(c) && c.state == Disconnecting && c.stopping
    requires NoShutdownIn(c.batch) && NoShutdownIn(c.pending) && !SafeForeign(c)
    ensures Legal(c, fs) && Violated(Run(c, fs))
  {
    if c.calling == None {
      fs := BreakStopping(c);
    } else {
      var e := SendRunEv(BLOCKED);
      SendBlocked(c.(calling := None), c.calling.value);
      InterestStep(c, e);
      var d := Apply(c, e);
      if !AllInert(c.pending) { NotInertPrefix(c.pending, d.pending); }
      var rest := BreakStopping(d);
      Prepend(c, e, rest);
      fs := [e] + rest;
    }
  }

  // ------------------------------------------------------------ exactness

  ghost predicate EveryContinuationIsClean(c: Conn) {
    forall fs :: Legal(c, fs) ==> !Violated(Run(c, fs))
  }

  lemma {:induction false} ClosingIsGuarded(c: Conn, fs: seq<Event>)
    requires Closing(c.state) && Legal(c, fs)
    ensures Guarded(c, fs)
    decreases |fs|
  {
    if fs != [] {
      ClosingStays(c, fs[0]);
      ClosingIsGuarded(Apply(c, fs[0]), fs[1..]);
    }
  }

  lemma ClosingStays(c: Conn, e: Event)
    requires Closing(c.state) && Allowed(c, e)
    ensures Closing(Apply(c, e).state)
  {
  }

  lemma GoodStaysClean(c: Conn)
    requires InterestInv(c) && Good(c) && Closing(c.state)
    ensures EveryContinuationIsClean(c)
  {
    forall fs | Legal(c, fs)
      ensures !Violated(Run(c, fs))
    {
      ClosingIsGuarded(c, fs);
      GoodRun(c, fs);
      GoodIsClean(Run(c, fs));
    }
  }

  /** shutdown() on the loop thread is a proper half-close, whatever follows, if
      and only if no non-empty message is queued, or about to be, that a FIN could
      overtake. */
  lemma LocalShutdownExact(cfg: Config, es: seq<Event>)
    requires Legal(NewConn(cfg), es) && Run(NewConn(cfg), es).state == Connected
    requires Run(NewConn(cfg), es).calling == None
    ensures var c := Run(NewConn(cfg), es);
            SafeLocal(c) <==> EveryContinuationIsClean(Apply(c, ShutdownEv))
  {
    var c := Run(NewConn(cfg), es);
    InterestRun(NewConn(cfg), es);
    QuietWhileUpRun(NewConn(cfg), es);
    InterestStep(c, ShutdownEv);
    var d := Apply(c, ShutdownEv);
    if SafeLocal(c) {
      QuietShutdown(c);
      GoodStaysClean(d);
    } else {
      var fs;
      if c.output == [] && !AllInert(c.batch) {
        fs := BreakInBatch(d);
      } else if c.output == [] {
        fs := BreakAfterFin(d);
      } else {
        fs := BreakByDrain(d);
      }
      assert Legal(d, fs) && Violated(Run(d, fs));
    }
  }

  /** shutdown() on another thread is one if and only if there is no backlog and
      nothing queued or under way that will make one. */
  lemma ForeignShutdownExact(cfg: Config, es: seq<Event>)
    requires Legal(NewConn(cfg), es) && Run(NewConn(cfg), es).state == Connected
    ensures var c := Run(NewConn(cfg), es);
            SafeForeign(c) <==> EveryContinuationIsClean(Apply(c, ForeignShutdownEv))
  {
    var c := Run(NewConn(cfg), es);
    InterestRun(NewConn(cfg), es);
    QuietWhileUpRun(NewConn(cfg), es);
    InterestStep(c, ForeignShutdownEv);
    var d := Apply(c, ForeignShutdownEv);
    if SafeForeign(c) {
      QuietShutdown(c);
      GoodStaysClean(d);
    } else {
      var fs := BreakForeign(d);
      assert Legal(d, fs) && Violated(Run(d, fs));
    }
  }

  // ---------------------------------------------------- a run with two FINs

  /** What a one-byte backlog queues, if the mark is one byte. */
  function Warning(cfg: Config): seq<Task> {
    if cfg.hasHighWater && cfg.mark == 1 then [HighWater(1)] else []
  }

  /** One byte is sent, the kernel is full, and another thread shuts down. */
  function Backlogged(b: Byte): seq<Event> {
    [EstablishedEv, SendCheckEv([b]), SendRunEv(BLOCKED), ForeignShutdownEv]
  }

  /** The other thread queues its functor, the byte drains, the loop takes its
      queue and comes to that functor. */
  function DrainThenRun(cfg: Config): seq<Event> {
    [ForeignShutdownPushEv, WriteEv(WriteOutcome(1, EOther)), SwapEv]
    + (if Warning(cfg) == [] then [] else [RunTaskEv(BLOCKED)]) + [RunTaskEv(BLOCKED)]
  }

  lemma OneSend(c: Conn, b: Byte)
    requires InterestInv(c) && c.state == Connected && c.calling == None && c.output == []
    requires c.pending == [] && c.batch == []
    ensures var es := [SendCheckEv([b]), SendRunEv(BLOCKED)];
            && Legal(c, es)
            && var d := Run(c, es);
               && InterestInv(d) && d.state == Connected && d.calling == None && d.output == [b] && d.cfg == c.cfg
               && d.pending == Warning(c.cfg) && d.batch == [] && d.fins == c.fins && d.stopping == c.stopping
  {
    var d := Apply(c, SendCheckEv([b]));
    InterestStep(c, SendCheckEv([b]));
    OneByteBacklog(d.(calling := None), b);
    InterestStep(d, SendRunEv(BLOCKED));
    Prepend(d, SendRunEv(BLOCKED), []);
    Prepend(c, SendCheckEv([b]), [SendRunEv(BLOCKED)] + []);
    assert [SendCheckEv([b])] + ([SendRunEv(BLOCKED)] + []) == [SendCheckEv([b]), SendRunEv(BLOCKED)];
  }

  lemma SendAndShutdown(cfg: Config, b: Byte)
    ensures Legal(NewConn(cfg), Backlogged(b))
    ensures var c := Run(NewConn(cfg), Backlogged(b));
            && Ready(c) && c.stopping && c.output == [b] && c.batch == [] && c.fins == 0
            && c.pending == Warning(cfg) && c.cfg == cfg
  {
    var send := [SendCheckEv([b]), SendRunEv(BLOCKED)];
    var up := Apply(NewConn(cfg), EstablishedEv);
    InterestStep(NewConn(cfg), EstablishedEv);
    OneSend(up, b);
    var c := Run(up, send);
    InterestStep(c, ForeignShutdownEv);
    Prepend(c, ForeignShutdownEv, []);
    RunConcat(up, send, [ForeignShutdownEv] + []);
    Prepend(NewConn(cfg), EstablishedEv, send + ([ForeignShutdownEv] + []));
    assert [EstablishedEv] + (send + ([ForeignShutdownEv] + [])) == Backlogged(b);
  }

  lemma OneByteBacklog(c: Conn, b: Byte)
    requires InterestInv(c) && c.state == Connected && c.output == [] && c.pending == [] && c.batch == []
    ensures SendLegal(c, [b], BLOCKED)
    ensures var d := SendInLoop(c, [b], BLOCKED);
            && d.output == [b] && d.pending == Warning(c.cfg) && d.cfg == c.cfg
            && d.batch == [] && d.fins == c.fins && d.stopping == c.stopping && d.state == Connected
  {
    SendBytes(c, [b], BLOCKED);
    var extra := SendQueues(c, [b], BLOCKED);
    assert [b][0..] == [b];
  }

  /** The drain sends the first FIN. */
  lemma OneByteDrains(c: Conn)
    requires Ready(c) && |c.output| == 1 && c.batch == [] && !c.stopping
    ensures var e := WriteEv(WriteOutcome(1, EOther));
            && Allowed(c, e)
            && var d := Apply(c, e);
               && Ready(d) && d.output == [] && d.fins == c.fins + 1 && d.batch == [] && c.pending <= d.pending
  {
    InterestStep(c, WriteEv(WriteOutcome(1, EOther)));
  }

  /** The functor sends the second. */
  lemma ShutdownRuns(c: Conn)
    requires Ready(c) && c.output == [] && c.batch != [] && c.batch[0] == ShutdownTask
    ensures Allowed(c, RunTaskEv(BLOCKED)) && Apply(c, RunTaskEv(BLOCKED)).fins == c.fins + 1
  {
  }

  lemma WarningRuns(c: Conn)
    requires Ready(c) && c.batch != [] && c.batch[0].HighWater?
    ensures Allowed(c, RunTaskEv(BLOCKED)) && Apply(c, RunTaskEv(BLOCKED)) == c.(batch := c.batch[1..])
  {
  }

  lemma RunsToShutdown(c: Conn, warning: seq<Task>) returns (fs: seq<Event>)
    requires Ready(c) && c.output == [] && warning + [ShutdownTask] <= c.batch
    requires warning == [] || (|warning| == 1 && warning[0].HighWater?)
    ensures fs == (if warning == [] then [] else [RunTaskEv(BLOCKED)]) + [RunTaskEv(BLOCKED)]
    ensures Legal(c, fs) && Run(c, fs).fins == c.fins + 1
  {
    assert (warning + [ShutdownTask])[|warning|] == c.batch[|warning|];
    if warning == [] {
      ShutdownRuns(c);
      Prepend(c, RunTaskEv(BLOCKED), []);
      fs := [RunTaskEv(BLOCKED)] + [];
    } else {
      assert c.batch[0] == (warning + [ShutdownTask])[0] == warning[0];
      WarningRuns(c);
      var d := Apply(c, RunTaskEv(BLOCKED));
      ShutdownRuns(d);
      Prepend(d, RunTaskEv(BLOCKED), []);
      Prepend(c, RunTaskEv(BLOCKED), [RunTaskEv(BLOCKED)] + []);
      fs := [RunTaskEv(BLOCKED)] + ([RunTaskEv(BLOCKED)] + []);
    }
  }

  lemma SecondFin(cfg: Config, c: Conn)
    requires Ready(c) && c.stopping && |c.output| == 1 && c.batch == [] && c.pending == Warning(cfg)
    ensures Legal(c, DrainThenRun(cfg)) && Run(c, DrainThenRun(cfg)).fins == c.fins + 2
  {
    var drain := WriteEv(WriteOutcome(1, EOther));
    InterestStep(c, ForeignShutdownPushEv);
    var c1 := Apply(c, ForeignShutdownPushEv);
    OneByteDrains(c1);
    var c2 := Apply(c1, drain);
    InterestStep(c2, SwapEv);
    var fs := RunsToShutdown(Apply(c2, SwapEv), Warning(cfg));
    Prepend(c2, SwapEv, fs);
    Prepend(c1, drain, [SwapEv] + fs);
    Prepend(c, ForeignShutdownPushEv, [drain] + ([SwapEv] + fs));
    assert [ForeignShutdownPushEv] + ([drain] + ([SwapEv] + fs)) == DrainThenRun(cfg);
  }

  /** A backlog, a shutdown on another thread, one drain: the FIN is sent by the
      drain and again by the queued functor. */
  lemma ForeignShutdownFinsTwice(cfg: Config, b: Byte)
    ensures var es := Backlogged(b) + DrainThenRun(cfg);
            Legal(NewConn(cfg), es) && Run(NewConn(cfg), es).fins == 2
    ensures Legal(NewConn(cfg), Backlogged(b)) && !EveryContinuationIsClean(Run(NewConn(cfg), Backlogged(b)))
  {
    SendAndShutdown(cfg, b);
    var c := Run(NewConn(cfg), Backlogged(b));
    SecondFin(cfg, c);
    RunConcat(NewConn(cfg), Backlogged(b), DrainThenRun(cfg));
    assert Violated(Run(c, DrainThenRun(cfg)));
  }
}
