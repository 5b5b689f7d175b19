/** What a connection does, told by the calls made to it and the answers of the
    kernel alone, and the accounts that balance over every run: nothing handed to
    send(), queued, or read from the socket is lost, repeated or reordered. */
module ConnectionLaws {
  import opened Posix
  import opened Epoll
  import opened ConnStates
  import opened Connection
  import opened ConnectionRuns

  // ------------------------------------------------------------- one send

  /** Nothing is waiting to be written, and epoll is not asked for writability. */
  predicate OutputIdle(c: Conn) {
    c.events & EPOLLOUT == 0 && c.output == []
  }

  /** What becomes of a message, by the return value and errno of `write`: it is
      dropped by a closed connection, and by a broken pipe or a reset met when it
      went straight to the socket; by nothing else. */
  predicate Drops(c: Conn, o: WriteOutcome) {
    || c.state == Disconnected
    || (OutputIdle(c) && o.n <= 0 && (o.errno == EPipe || o.errno == EConnReset))
  }

  /** Bytes that go straight to the socket. */
  function Through(c: Conn, o: WriteOutcome): nat {
    if c.state != Disconnected && OutputIdle(c) && o.n > 0 then o.n else 0
  }

  lemma SameTests(c: Conn, o: WriteOutcome)
    ensures WritesDirectly(c) <==> c.state != Disconnected && OutputIdle(c)
    ensures Keeps(c, o) <==> !Drops(c, o)
    ensures DirectlyTaken(c, o) == Through(c, o)
  {
    MaskBits(c.events);
  }

  /** sendInLoop takes a message on whole or drops it whole, and `write` alone says
      how much of it has gone out. */
  lemma SendLaw(c: Conn, msg: Bytes, o: WriteOutcome)
    requires SendLegal(c, msg, o)
    ensures Through(c, o) <= |msg|
    ensures var d := SendInLoop(c, msg, o);
            && d.wire + d.output == c.wire + c.output + (if Drops(c, o) then [] else msg)
            && d.wire == c.wire + msg[..Through(c, o)]
            && (d.wire + d.output == c.wire + c.output <==> msg == [] || Drops(c, o))
  {
    SameTests(c, o);
    SendBytes(c, msg, o);
    SendKeepsStream(c, msg, o);
    var d := SendInLoop(c, msg, o);
    assert |d.wire + d.output| == |c.wire + c.output| + if Drops(c, o) then 0 else |msg|;
    assert c.wire + c.output + [] == c.wire + c.output;
  }

  /** The four errnos told apart, on an idle connection: a broken pipe and a reset
      lose the byte, a full socket buffer and any other error keep it. */
  lemma SendOnError(c: Conn, b: Byte)
    requires c.state != Disconnected && OutputIdle(c)
    ensures forall e: Errno :: SendLegal(c, [b], WriteOutcome(-1, e))
    ensures SendInLoop(c, [b], WriteOutcome(-1, EPipe)).output == []
    ensures SendInLoop(c, [b], WriteOutcome(-1, EConnReset)).output == []
    ensures SendInLoop(c, [b], WriteOutcome(-1, EWouldBlock)).output == [b]
    ensures SendInLoop(c, [b], WriteOutcome(-1, EOther)).output == [b]
    ensures forall e: Errno :: SendInLoop(c, [b], WriteOutcome(-1, e)).wire == c.wire
  {
    forall e: Errno
      ensures SendLegal(c, [b], WriteOutcome(-1, e))
      ensures SendInLoop(c, [b], WriteOutcome(-1, e)).wire == c.wire
      ensures SendInLoop(c, [b], WriteOutcome(-1, e)).output == if e == EPipe || e == EConnReset then [] else [b]
    {
      var o := WriteOutcome(-1, e);
      SameTests(c, o);
      SendBytes(c, [b], o);
    }
  }

  // ------------------------------------------------- one read, write, close

  /** Data joins the unread input, end of stream closes, an error changes nothing. */
  lemma ReadLaw(c: Conn, o: ReadOutcome)
    ensures var d := HandleRead(c, o);
            match o
            case ReadFailed(_) => d == c
            case ReadBytes(data) =>
              && d.input == c.input + data && d.received == c.received + data
              && (data == [] ==> d.state == Disconnected && d.events == 0 && d.closes == c.closes + 1)
              && (data != [] ==> d.state == c.state && d.events == c.events && d.closes == c.closes)
  {
    if o.ReadBytes? && o.data == [] {
      assert c.input + o.data == c.input && c.received + o.data == c.received;
    }
  }

  /** Bytes of the backlog that a writability event hands over. */
  function Drained(c: Conn, o: WriteOutcome): nat {
    if c.events & EPOLLOUT != 0 && o.n > 0 then o.n else 0
  }

  /** The kernel is given exactly what `write` says it took, from the head of the
      backlog. Only when that empties it is writability given up, and only then is
      the FIN of a half-closed connection sent. */
  lemma WriteLaw(c: Conn, o: WriteOutcome)
    requires HandleWriteLegal(c, o)
    ensures Drained(c, o) <= |c.output|
    ensures var (d, n) := (HandleWrite(c, o), Drained(c, o));
            && d.wire == c.wire + c.output[..n] && d.output == c.output[n..] && d.state == c.state
            && (d.events & EPOLLOUT == 0 <==> c.events & EPOLLOUT == 0 || (n > 0 && n == |c.output|))
            && (d.fins == c.fins + if n > 0 && n == |c.output| && c.state == Disconnecting then 1 else 0)
  {
    MaskBits(c.events);
    MaskBits(WithoutWriting(c.events));
    assert c.wire + c.output[..0] == c.wire;
  }

  /** What each event does to the state. */
  lemma StateLaw(c: Conn, e: Event)
    requires Allowed(c, e)
    ensures Apply(c, e).state ==
            if e.EstablishedEv? then Connected
            else if e.CloseEv? || e == ReadEv(ReadBytes([])) || (e.DestroyedEv? && c.state == Connected) then Disconnected
            else if (e.ShutdownEv? || e.ForeignShutdownEv?) && c.state == Connected then Disconnecting
            else c.state
  {
    if e.SendRunEv? {
      var extra := SendQueues(c.(calling := None), c.calling.value, e.wo);
    } else if e.RunTaskEv? {
      if c.batch[0].SendTask? {
        var extra := SendQueues(c.(batch := c.batch[1..]), c.batch[0].msg, e.wo);
      }
    } else if e.WriteEv? {
      WriteLaw(c, e.wo);
    }
  }

  /** connectDestroyed takes the channel out of the poller, and closes a connection
      that is still up, but not one that is half closed. */
  lemma DestroyLaw(c: Conn)
    requires SlotConsistent(c.slot)
    ensures var d := ConnectDestroyed(c);
            && d.slot == UNREGISTERED
            && d.state == (if c.state == Connected then Disconnected else c.state)
            && d.events == (if c.state == Connected then 0 else c.events)
            && d.closes == c.closes && d.wire == c.wire && d.output == c.output && d.input == c.input
  {
  }

  // --------------------------------------------------------------- the FIN

  /** The events that make the call of shutdownWrite. */
  predicate SendsFin(c: Conn, e: Event)
    requires Allowed(c, e)
  {
    match e
    case ShutdownEv => c.state == Connected && c.events & EPOLLOUT == 0
    case RunTaskEv(_) => c.batch[0].ShutdownTask? && c.events & EPOLLOUT == 0
    case WriteEv(o) => c.state == Disconnecting && Drained(c, o) > 0 && Drained(c, o) == |c.output|
    case _ => false
  }

  /** The message an event hands to sendInLoop. */
  function OfferedBy(c: Conn, e: Event): seq<Bytes>
    requires Allowed(c, e)
  {
    match e
    case SendRunEv(_) => [c.calling.value]
    case RunTaskEv(_) => if c.batch[0].SendTask? then [c.batch[0].msg] else []
    case _ => []
  }

  datatype FinSide = FinSide(fins: nat, dirtyFins: nat, lateSends: nat)

  function FinsOf(c: Conn): FinSide {
    FinSide(c.fins, c.dirtyFins, c.lateSends)
  }

  /** The counters that the half-close theorems speak of are what they say: FINs
      sent, FINs sent with bytes still unsent, non-empty messages taken up behind one. */
  ghost predicate FinsCounted(c: Conn, e: Event)
    requires Allowed(c, e)
  {
    var d := Apply(c, e);
    FinsOf(d) == FinSide(
      c.fins + (if SendsFin(c, e) then 1 else 0),
      c.dirtyFins + (if SendsFin(c, e) && d.output != [] then 1 else 0),
      c.lateSends + (if c.fins > 0 && c.state != Disconnected && OfferedBy(c, e) != [] && OfferedBy(c, e) != [[]] then 1 else 0))
  }

  lemma SendLeavesFins(c: Conn, msg: Bytes, o: WriteOutcome)
    requires SendLegal(c, msg, o)
    ensures FinsOf(SendInLoop(c, msg, o))
         == FinSide(c.fins, c.dirtyFins, if c.fins > 0 && c.state != Disconnected && msg != [] then c.lateSends + 1 else c.lateSends)
  {
  }

  lemma TaskFins(c: Conn, o: WriteOutcome)
    requires Allowed(c, RunTaskEv(o))
    ensures FinsCounted(c, RunTaskEv(o))
  {
    MaskBits(c.events);
    if c.batch[0].SendTask? { SendLeavesFins(c.(batch := c.batch[1..]), c.batch[0].msg, o); }
  }

  lemma WriteFins(c: Conn, o: WriteOutcome)
    requires Allowed(c, WriteEv(o))
    ensures FinsCounted(c, WriteEv(o))
  {
    WriteLaw(c, o);
    WriteCleanly(c, o);
  }

  lemma WriteCleanly(c: Conn, o: WriteOutcome)
    requires HandleWriteLegal(c, o)
    ensures HandleWrite(c, o).dirtyFins == c.dirtyFins && HandleWrite(c, o).lateSends == c.lateSends
  {
  }

  lemma PlainFins(c: Conn, e: Event)
    requires Allowed(c, e) && IsPlain(e)
    ensures FinsCounted(c, e)
  {
    MaskBits(c.events);
  }

  lemma FinLaw(c: Conn, e: Event)
    requires Allowed(c, e)
    ensures FinsCounted(c, e)
  {
    match e
    case SendRunEv(o) => SendLeavesFins(c.(calling := None), c.calling.value, o);
    case RunTaskEv(o) => TaskFins(c, o);
    case WriteEv(o) => WriteFins(c, o);
    case _ => PlainFins(c, e);
  }

  // ---------------------------------------------------------------- accounts

  /** What an event, or a run of them, adds to each account. */
  datatype Tally = Tally(
    called: seq<Bytes>,     // messages given to send() on the loop thread while connected
    taken: seq<Bytes>,      // those that came to sendInLoop
    foreign: seq<Bytes>,    // messages given to send() on other threads while connected
    posted: seq<Bytes>,     // those queued, in lock order
    queued: seq<Task>,      // everything queued
    ran: seq<Task>,         // everything the loop ran
    offered: seq<Bytes>,    // messages handed to sendInLoop
    accepted: Bytes,        // bytes of those that were not dropped
    given: Bytes,           // bytes `write` took
    delivered: Bytes,       // bytes `readv` delivered
    consumed: Bytes,        // bytes the user took out of the input buffer
    closes: nat)            // times the connection was closed

  function DropsOf(c: Conn, e: Event): bool
    requires Allowed(c, e)
  {
    match e
    case SendRunEv(o) => Drops(c, o)
    case RunTaskEv(o) => Drops(c, o)
    case _ => false
  }

  function GivenBy(c: Conn, e: Event): Bytes
    requires Allowed(c, e)
  {
    match e
    case SendRunEv(o) => Head(c.calling.value, Through(c, o))
    case RunTaskEv(o) => if c.batch[0].SendTask? then Head(c.batch[0].msg, Through(c, o)) else []
    case WriteEv(o) => Head(c.output, Drained(c, o))
    case _ => []
  }

  function Head(s: Bytes, n: nat): Bytes {
    if n <= |s| then s[..n] else s
  }

  /** The callbacks that an event makes due. */
  function DueBy(c: Conn, d: Conn): seq<Task> {
    (if c.cfg.hasHighWater && Crossing(c, d) then [HighWater(|d.output|)] else [])
    + (if c.cfg.hasWriteComplete && Emptied(c, d) then [WriteComplete] else [])
  }

  function QueuedBy(c: Conn, e: Event): seq<Task>
    requires Allowed(c, e)
  {
    match e
    case ForeignSendPushEv(i) => [SendTask(c.sending[i])]
    case ForeignShutdownPushEv => [ShutdownTask]
    case OtherTaskEv => [OtherTask]
    case _ => DueBy(c, Apply(c, e))
  }

  function CalledBy(c: Conn, e: Event): seq<Bytes> {
    if e.SendCheckEv? && c.state == Connected then [e.msg] else []
  }

  function TakenBy(c: Conn, e: Event): seq<Bytes>
    requires Allowed(c, e)
  {
    if e.SendRunEv? then [c.calling.value] else []
  }

  function ForeignBy(c: Conn, e: Event): seq<Bytes> {
    if e.ForeignSendEv? && c.state == Connected then [e.msg] else []
  }

  function PostedBy(c: Conn, e: Event): seq<Bytes>
    requires Allowed(c, e)
  {
    if e.ForeignSendPushEv? then [c.sending[e.i]] else []
  }

  function RanBy(c: Conn, e: Event): seq<Task>
    requires Allowed(c, e)
  {
    if e.RunTaskEv? then [c.batch[0]] else []
  }

  function AcceptedBy(c: Conn, e: Event): Bytes
    requires Allowed(c, e)
  {
    if OfferedBy(c, e) == [] || DropsOf(c, e) then [] else OfferedBy(c, e)[0]
  }

  function DeliveredBy(e: Event): Bytes {
    if e.ReadEv? && e.ro.ReadBytes? then e.ro.data else []
  }

  function ConsumedBy(c: Conn, e: Event): Bytes {
    if e.TakeInput? then Head(c.input, e.len) else []
  }

  function ClosesBy(e: Event): nat {
    if e.CloseEv? || e == ReadEv(ReadBytes([])) then 1 else 0
  }

  function TallyOf(c: Conn, e: Event): Tally
    requires Allowed(c, e)
  {
    Tally(CalledBy(c, e), TakenBy(c, e), ForeignBy(c, e), PostedBy(c, e), QueuedBy(c, e), RanBy(c, e),
          OfferedBy(c, e), AcceptedBy(c, e), GivenBy(c, e), DeliveredBy(e), ConsumedBy(c, e), ClosesBy(e))
  }

  function Plus(t: Tally, u: Tally): Tally {
    Tally(t.called + u.called, t.taken + u.taken, t.foreign + u.foreign, t.posted + u.posted,
          t.queued + u.queued, t.ran + u.ran, t.offered + u.offered, t.accepted + u.accepted,
          t.given + u.given, t.delivered + u.delivered, t.consumed + u.consumed, t.closes + u.closes)
  }

  const NOTHING := Tally([], [], [], [], [], [], [], [], [], [], [], 0)

  ghost function Tallied(c: Conn, es: seq<Event>): Tally
    requires Legal(c, es)
    decreases |es|
  {
    if es == [] then NOTHING else Plus(TallyOf(c, es[0]), Tallied(Apply(c, es[0]), es[1..]))
  }

  function InCall(c: Conn): seq<Bytes> {
    if c.calling.Some? then [c.calling.value] else []
  }

  function Messages(offers: seq<Offer>): seq<Bytes> {
    if offers == [] then [] else Messages(offers[..|offers| - 1]) + [offers[|offers| - 1].msg]
  }

  /** The messages among tasks. */
  function Sends(ts: seq<Task>): seq<Bytes> {
    if ts == [] then [] else (if ts[0].SendTask? then [ts[0].msg] else []) + Sends(ts[1..])
  }

  ghost predicate CallsAre(c: Conn, called: seq<Bytes>, taken: seq<Bytes>, foreign: seq<Bytes>, posted: seq<Bytes>, d: Conn) {
    && InCall(c) + called == taken + InCall(d)
    && multiset(c.sending) + multiset(foreign) == multiset(posted) + multiset(d.sending)
  }

  /** send(): what was called has been taken up or is just being. */
  ghost predicate CallsBalance(c: Conn, t: Tally, d: Conn) {
    CallsAre(c, t.called, t.taken, t.foreign, t.posted, d)
  }

  /** The loop's queue: what was queued has run or waits, in order; the messages in
      it are those that other threads posted. */
  ghost predicate QueueBalance(c: Conn, t: Tally, d: Conn) {
    && QueueIs(c, t.queued, t.ran, d)
    && Sends(t.queued) == t.posted
  }

  /** sendInLoop is handed what came to it from send() and from the queue. */
  ghost predicate OffersBalance(c: Conn, t: Tally, d: Conn) {
    && Messages(d.offers) == Messages(c.offers) + t.offered
    && multiset(t.offered) == multiset(t.taken) + multiset(Sends(t.ran))
  }

  ghost predicate BytesBalance(c: Conn, t: Tally, d: Conn) {
    && OutputIs(c, t.accepted, t.given, d)
    && InputIs(c, t.delivered, t.consumed, t.closes, d)
  }

  // -------------------------------------------------- one event balances

  datatype CallSide = CallSide(calling: Option<Bytes>, sending: seq<Bytes>)

  function CallsOf(c: Conn): CallSide {
    CallSide(c.calling, c.sending)
  }

  lemma TaskLeavesCalls(c: Conn, o: WriteOutcome)
    requires Allowed(c, RunTaskEv(o))
    ensures CallsOf(RunTask(c, o)) == CallsOf(c)
  {
    if c.batch[0].SendTask? {
      var extra := SendQueues(c.(batch := c.batch[1..]), c.batch[0].msg, o);
    }
  }

  lemma WriteLeavesCalls(c: Conn, o: WriteOutcome)
    requires HandleWriteLegal(c, o)
    ensures CallsOf(HandleWrite(c, o)) == CallsOf(c)
  {
  }

  lemma OthersLeaveCalls(c: Conn, e: Event)
    requires Allowed(c, e) && IsPlain(e) && !e.SendCheckEv? && !e.ForeignSendEv? && !e.ForeignSendPushEv?
    ensures CallsOf(Apply(c, e)) == CallsOf(c)
  {
  }

  lemma PushTakesOne(msgs: seq<Bytes>, i: nat)
    requires i < |msgs|
    ensures multiset(msgs) == multiset([msgs[i]]) + multiset(msgs[..i] + msgs[i + 1..])
  {
    assert msgs == msgs[..i] + [msgs[i]] + msgs[i + 1..];
  }

  lemma RunLeavesCalls(c: Conn, o: WriteOutcome)
    requires Allowed(c, SendRunEv(o))
    ensures CallsOf(Apply(c, SendRunEv(o))) == CallSide(None, c.sending)
  {
    var extra := SendQueues(c.(calling := None), c.calling.value, o);
  }

  lemma QuietCalls(c: Conn, d: Conn)
    requires CallsOf(d) == CallsOf(c)
    ensures CallsAre(c, [], [], [], [], d)
  {
  }

  lemma CheckedCall(c: Conn, msg: Bytes)
    requires c.calling == None
    ensures CallsAre(c, CalledBy(c, SendCheckEv(msg)), [], [], [], SendCheck(c, msg))
  {
  }

  lemma RunningCall(c: Conn, o: WriteOutcome)
    requires Allowed(c, SendRunEv(o))
    ensures CallsAre(c, [], [c.calling.value], [], [], Apply(c, SendRunEv(o)))
  {
    RunLeavesCalls(c, o);
  }

  lemma ForeignCall(c: Conn, msg: Bytes)
    ensures CallsAre(c, [], [], ForeignBy(c, ForeignSendEv(msg)), [], ForeignSendCheck(c, msg))
  {
    Bags2(c.sending, [msg]);
  }

  lemma PostedCall(c: Conn, i: nat)
    requires i < |c.sending|
    ensures CallsAre(c, [], [], [], [c.sending[i]], ForeignSendPush(c, i))
  {
    PushTakesOne(c.sending, i);
  }

  lemma CallsStep(c: Conn, e: Event)
    requires Allowed(c, e)
    ensures CallsAre(c, CalledBy(c, e), TakenBy(c, e), ForeignBy(c, e), PostedBy(c, e), Apply(c, e))
  {
    match e
    case SendCheckEv(msg) => CheckedCall(c, msg);
    case SendRunEv(o) => RunningCall(c, o);
    case ForeignSendEv(msg) => ForeignCall(c, msg);
    case ForeignSendPushEv(i) => PostedCall(c, i);
    case RunTaskEv(o) =>
      TaskLeavesCalls(c, o);
      QuietCalls(c, Apply(c, e));
    case WriteEv(o) =>
      WriteLeavesCalls(c, o);
      QuietCalls(c, Apply(c, e));
    case _ =>
      OthersLeaveCalls(c, e);
      QuietCalls(c, Apply(c, e));
  }

  lemma MessagesSnoc(offers: seq<Offer>, o: Offer)
    ensures Messages(offers + [o]) == Messages(offers) + [o.msg]
  {
    assert (offers + [o])[..|offers|] == offers;
  }

  /** A message offered is logged as it is. */
  lemma SendIsOffered(c: Conn, msg: Bytes, o: WriteOutcome)
    requires SendLegal(c, msg, o)
    ensures Messages(SendInLoop(c, msg, o).offers) == Messages(c.offers) + [msg]
  {
    assert SendInLoop(c, msg, o).offers == c.offers + [Offer(msg, Keeps(c, o))];
    MessagesSnoc(c.offers, Offer(msg, Keeps(c, o)));
  }

  lemma OffersStep(c: Conn, e: Event)
    requires Allowed(c, e)
    ensures Messages(Apply(c, e).offers) == Messages(c.offers) + OfferedBy(c, e)
  {
    match e
    case SendRunEv(o) => SendIsOffered(c.(calling := None), c.calling.value, o);
    case RunTaskEv(o) =>
      if c.batch[0].SendTask? { SendIsOffered(c.(batch := c.batch[1..]), c.batch[0].msg, o); }
    case WriteEv(o) =>
    case _ => PlainLeavesOutput(c, e);
  }

  /** What an event queues beyond the callbacks it makes due. */
  lemma DueIsQueued(c: Conn, e: Event)
    requires Allowed(c, e) && (e.SendRunEv? || e.RunTaskEv? || e.WriteEv?)
    ensures Apply(c, e).pending == c.pending + DueBy(c, Apply(c, e))
  {
    FlowStep(c, e);
    CallbacksAreQueued(c, e);
    OnlyCallbacks(c, e);
  }

  lemma OnlyCallbacks(c: Conn, e: Event)
    requires Allowed(c, e) && (e.SendRunEv? || e.RunTaskEv? || e.WriteEv?)
    ensures var d := Apply(c, e);
            && (d.highWaters == c.highWaters && d.completes == c.completes ==> d.pending == c.pending)
            && !(Crossing(c, d) && Emptied(c, d))
  {
    match e
    case SendRunEv(o) => SendOnlyCallbacks(c.(calling := None), c.calling.value, o);
    case RunTaskEv(o) =>
      if c.batch[0].SendTask? { SendOnlyCallbacks(c.(batch := c.batch[1..]), c.batch[0].msg, o); }
    case WriteEv(o) => WriteOnlyCallbacks(c, o);
  }

  lemma SendOnlyCallbacks(c: Conn, msg: Bytes, o: WriteOutcome)
    requires SendLegal(c, msg, o)
    ensures var d := SendInLoop(c, msg, o);
            d.highWaters == c.highWaters && d.completes == c.completes ==> d.pending == c.pending
  {
    if c.state != Disconnected {
      var d := c.(offers := SendInLoop(c, msg, o).offers, lateSends := SendInLoop(c, msg, o).lateSends);
      var n := DirectlyTaken(c, o);
      var e := WriteThrough(d, msg, o);
      assert e.completes == c.completes ==> e.pending == c.pending;
      if Keeps(c, o) && n < |msg| { BacklogOnlyCallbacks(e, msg[n..]); }
    }
  }

  lemma BacklogOnlyCallbacks(c: Conn, rest: Bytes)
    ensures Backlog(c, rest).completes == c.completes
    ensures Backlog(c, rest).highWaters == c.highWaters ==> Backlog(c, rest).pending == c.pending
  {
  }

  lemma FinishOnlyCallbacks(c: Conn)
    ensures FinishWriting(c).completes == c.completes ==> FinishWriting(c).pending == c.pending
  {
  }

  lemma WriteOnlyCallbacks(c: Conn, o: WriteOutcome)
    requires HandleWriteLegal(c, o)
    ensures HandleWrite(c, o).completes == c.completes ==> HandleWrite(c, o).pending == c.pending
  {
    if IsWriting(c.events) && o.n > 0 {
      FinishOnlyCallbacks(c.(wire := c.wire + c.output[..o.n], output := c.output[o.n..]));
    }
  }

  lemma PlainQueues(c: Conn, e: Event)
    requires Allowed(c, e) && IsPlain(e)
    ensures QueueIs(c, QueuedBy(c, e), [], Apply(c, e))
  {
    PlainLeavesOutput(c, e);
    if e.SwapEv? {
      assert c.batch + c.pending + [] == [] + (c.pending + []);
    } else {
      PlainGrows(c, e);
      GrownQueue(c, QueuedBy(c, e), Apply(c, e));
    }
  }

  lemma PlainGrows(c: Conn, e: Event)
    requires Allowed(c, e) && IsPlain(e) && !e.SwapEv?
    ensures Apply(c, e).batch == c.batch && Apply(c, e).pending == c.pending + QueuedBy(c, e)
  {
    PlainLeavesOutput(c, e);
  }

  lemma SendLeavesBatch(c: Conn, e: Event)
    requires Allowed(c, e) && (e.SendRunEv? || e.RunTaskEv? || e.WriteEv?)
    ensures Apply(c, e).batch == if e.RunTaskEv? then c.batch[1..] else c.batch
  {
    if e.SendRunEv? {
      var extra := SendQueues(c.(calling := None), c.calling.value, e.wo);
    } else if e.RunTaskEv? {
      if c.batch[0].SendTask? {
        var extra := SendQueues(c.(batch := c.batch[1..]), c.batch[0].msg, e.wo);
      }
    }
  }

  predicate QueueIs(c: Conn, queued: seq<Task>, ran: seq<Task>, d: Conn) {
    c.batch + c.pending + queued == ran + (d.batch + d.pending)
  }

  lemma GrownQueue(c: Conn, queued: seq<Task>, d: Conn)
    requires d.batch == c.batch && d.pending == c.pending + queued
    ensures QueueIs(c, queued, [], d)
  {
  }

  lemma PoppedQueue(c: Conn, queued: seq<Task>, d: Conn)
    requires c.batch != [] && d.batch == c.batch[1..] && d.pending == c.pending + queued
    ensures QueueIs(c, queued, [c.batch[0]], d)
  {
    assert c.batch == [c.batch[0]] + c.batch[1..];
  }

  lemma QueueStep(c: Conn, e: Event)
    requires Allowed(c, e)
    ensures QueueIs(c, QueuedBy(c, e), RanBy(c, e), Apply(c, e))
  {
    if IsPlain(e) {
      PlainQueues(c, e);
    } else {
      DueIsQueued(c, e);
      SendLeavesBatch(c, e);
      if e.RunTaskEv? {
        PoppedQueue(c, QueuedBy(c, e), Apply(c, e));
      } else {
        GrownQueue(c, QueuedBy(c, e), Apply(c, e));
      }
    }
  }

  lemma OneSend(t: Task)
    ensures Sends([t]) == if t.SendTask? then [t.msg] else []
  {
    assert [t][1..] == [];
  }

  lemma {:induction false} SendsConcat(ts: seq<Task>, us: seq<Task>)
    ensures Sends(ts + us) == Sends(ts) + Sends(us)
  {
    if ts == [] {
      assert ts + us == us;
    } else {
      assert (ts + us)[1..] == ts[1..] + us;
      SendsConcat(ts[1..], us);
    }
  }

  lemma DueSendsNothing(c: Conn, d: Conn)
    ensures Sends(DueBy(c, d)) == []
  {
    OneSend(HighWater(|d.output|));
    OneSend(WriteComplete);
    SendsConcat(if c.cfg.hasHighWater && Crossing(c, d) then [HighWater(|d.output|)] else [],
                if c.cfg.hasWriteComplete && Emptied(c, d) then [WriteComplete] else []);
  }

  lemma PostsStep(c: Conn, e: Event)
    requires Allowed(c, e)
    ensures QueueBalance(c, TallyOf(c, e), Apply(c, e))
  {
    QueueStep(c, e);
    match e
    case ForeignSendPushEv(i) => OneSend(SendTask(c.sending[i]));
    case ForeignShutdownPushEv => OneSend(ShutdownTask);
    case OtherTaskEv => OneSend(OtherTask);
    case _ => DueSendsNothing(c, Apply(c, e));
  }

  lemma TakenStep(c: Conn, e: Event)
    requires Allowed(c, e)
    ensures OffersBalance(c, TallyOf(c, e), Apply(c, e))
  {
    OffersStep(c, e);
    if e.RunTaskEv? { OneSend(c.batch[0]); }
  }

  predicate OutputIs(c: Conn, accepted: Bytes, given: Bytes, d: Conn) {
    d.wire + d.output == c.wire + c.output + accepted && d.wire == c.wire + given
  }

  lemma TaskOutput(c: Conn, o: WriteOutcome)
    requires Allowed(c, RunTaskEv(o))
    ensures OutputIs(c, AcceptedBy(c, RunTaskEv(o)), GivenBy(c, RunTaskEv(o)), RunTask(c, o))
  {
    if c.batch[0].SendTask? { SendLaw(c.(batch := c.batch[1..]), c.batch[0].msg, o); }
  }

  lemma WriteOutput(c: Conn, o: WriteOutcome)
    requires Allowed(c, WriteEv(o))
    ensures OutputIs(c, AcceptedBy(c, WriteEv(o)), GivenBy(c, WriteEv(o)), HandleWrite(c, o))
  {
    WriteLaw(c, o);
    Shift(c.wire, c.output, Drained(c, o));
  }

  lemma OutputStep(c: Conn, e: Event)
    requires Allowed(c, e)
    ensures OutputIs(c, AcceptedBy(c, e), GivenBy(c, e), Apply(c, e))
  {
    match e
    case SendRunEv(o) => SendLaw(c.(calling := None), c.calling.value, o);
    case RunTaskEv(o) => TaskOutput(c, o);
    case WriteEv(o) => WriteOutput(c, o);
    case _ => PlainLeavesOutput(c, e);
  }

  datatype InputSide = InputSide(input: Bytes, received: Bytes, closes: nat)

  function InputOf(c: Conn): InputSide {
    InputSide(c.input, c.received, c.closes)
  }

  lemma SendLeavesInput(c: Conn, e: Event)
    requires Allowed(c, e) && (e.SendRunEv? || e.RunTaskEv? || e.WriteEv?)
    ensures InputOf(Apply(c, e)) == InputOf(c)
  {
    match e
    case SendRunEv(o) => SendKeepsInput(c.(calling := None), c.calling.value, o);
    case RunTaskEv(o) =>
      if c.batch[0].SendTask? { SendKeepsInput(c.(batch := c.batch[1..]), c.batch[0].msg, o); }
    case WriteEv(o) =>
  }

  lemma SendKeepsInput(c: Conn, msg: Bytes, o: WriteOutcome)
    requires SendLegal(c, msg, o)
    ensures InputOf(SendInLoop(c, msg, o)) == InputOf(c)
  {
  }

  lemma OthersLeaveInput(c: Conn, e: Event)
    requires Allowed(c, e) && IsPlain(e) && !e.ReadEv? && !e.TakeInput? && !e.CloseEv?
    ensures InputOf(Apply(c, e)) == InputOf(c)
  {
  }

  predicate InputIs(c: Conn, delivered: Bytes, consumed: Bytes, closes: nat, d: Conn) {
    d.received == c.received + delivered && c.input + delivered == consumed + d.input && d.closes == c.closes + closes
  }

  lemma ReadBalances(c: Conn, o: ReadOutcome)
    requires Allowed(c, ReadEv(o))
    ensures InputIs(c, DeliveredBy(ReadEv(o)), [], ClosesBy(ReadEv(o)), HandleRead(c, o))
  {
    ReadLaw(c, o);
  }

  lemma TakeBalances(c: Conn, len: nat)
    requires Allowed(c, TakeInput(len))
    ensures InputIs(c, [], ConsumedBy(c, TakeInput(len)), 0, Apply(c, TakeInput(len)))
  {
    if len < |c.input| { assert c.input == c.input[..len] + c.input[len..]; }
  }

  lemma InputStep(c: Conn, e: Event)
    requires Allowed(c, e)
    ensures InputIs(c, DeliveredBy(e), ConsumedBy(c, e), ClosesBy(e), Apply(c, e))
  {
    if e.ReadEv? {
      ReadBalances(c, e.ro);
    } else if e.TakeInput? {
      TakeBalances(c, e.len);
    } else if e.SendRunEv? || e.RunTaskEv? || e.WriteEv? {
      SendLeavesInput(c, e);
    } else if !e.CloseEv? {
      OthersLeaveInput(c, e);
    }
  }

  // ----------------------------------------------------- every run balances

  /** What goes in on the right comes out on the left: two stretches make one. */
  lemma Through2<T>(a: seq<T>, p: seq<T>, x: seq<T>, b: seq<T>, q: seq<T>, y: seq<T>, c: seq<T>)
    requires a + p == x + b && b + q == y + c
    ensures a + (p + q) == (x + y) + c
  {
    assert a + (p + q) == (a + p) + q == (x + b) + q == x + (b + q) == x + (y + c) == (x + y) + c;
  }

  lemma Grows2<T>(a: seq<T>, p: seq<T>, b: seq<T>, q: seq<T>, c: seq<T>)
    requires b == a + p && c == b + q
    ensures c == a + (p + q)
  {
  }

  lemma Bags2<T>(p: seq<T>, q: seq<T>)
    ensures multiset(p + q) == multiset(p) + multiset(q)
  {
  }

  lemma BagThrough2<T>(a: multiset<T>, p: multiset<T>, x: multiset<T>, b: multiset<T>, q: multiset<T>, y: multiset<T>, c: multiset<T>)
    requires a + p == x + b && b + q == y + c
    ensures a + (p + q) == (x + y) + c
  {
    assert a + (p + q) == (a + p) + q == (x + b) + q == x + (b + q) == x + (y + c) == (x + y) + c;
  }

  lemma CallsTrans(c: Conn, t: Tally, d: Conn, u: Tally, f: Conn)
    requires CallsBalance(c, t, d) && CallsBalance(d, u, f)
    ensures CallsBalance(c, Plus(t, u), f)
  {
    Through2(InCall(c), t.called, t.taken, InCall(d), u.called, u.taken, InCall(f));
    Bags2(t.foreign, u.foreign);
    Bags2(t.posted, u.posted);
    BagThrough2(multiset(c.sending), multiset(t.foreign), multiset(t.posted), multiset(d.sending),
                multiset(u.foreign), multiset(u.posted), multiset(f.sending));
  }

  lemma QueueTrans(c: Conn, t: Tally, d: Conn, u: Tally, f: Conn)
    requires QueueBalance(c, t, d) && QueueBalance(d, u, f)
    ensures QueueBalance(c, Plus(t, u), f)
  {
    SendsConcat(t.queued, u.queued);
    Through2(c.batch + c.pending, t.queued, t.ran, d.batch + d.pending, u.queued, u.ran, f.batch + f.pending);
  }

  lemma OffersTrans(c: Conn, t: Tally, d: Conn, u: Tally, f: Conn)
    requires OffersBalance(c, t, d) && OffersBalance(d, u, f)
    ensures OffersBalance(c, Plus(t, u), f)
  {
    Grows2(Messages(c.offers), t.offered, Messages(d.offers), u.offered, Messages(f.offers));
    SendsConcat(t.ran, u.ran);
    Bags2(t.offered, u.offered);
    Bags2(t.taken, u.taken);
    Bags2(Sends(t.ran), Sends(u.ran));
  }

  lemma BytesTrans(c: Conn, t: Tally, d: Conn, u: Tally, f: Conn)
    requires BytesBalance(c, t, d) && BytesBalance(d, u, f)
    ensures BytesBalance(c, Plus(t, u), f)
  {
    Grows2(c.wire + c.output, t.accepted, d.wire + d.output, u.accepted, f.wire + f.output);
    Grows2(c.wire, t.given, d.wire, u.given, f.wire);
    Grows2(c.received, t.delivered, d.received, u.delivered, f.received);
    Through2(c.input, t.delivered, t.consumed, d.input, u.delivered, u.consumed, f.input);
  }

  lemma {:induction false} RunBalances(c: Conn, es: seq<Event>)
    requires Legal(c, es)
    ensures var (t, d) := (Tallied(c, es), Run(c, es));
            CallsBalance(c, t, d) && QueueBalance(c, t, d) && OffersBalance(c, t, d) && BytesBalance(c, t, d)
    decreases |es|
  {
    if es == [] {
      NothingBalances(c);
    } else {
      var d := Apply(c, es[0]);
      var (t, u) := (TallyOf(c, es[0]), Tallied(d, es[1..]));
      CallsStep(c, es[0]);
      PostsStep(c, es[0]);
      TakenStep(c, es[0]);
      OutputStep(c, es[0]);
      InputStep(c, es[0]);
      RunBalances(d, es[1..]);
      CallsTrans(c, t, d, u, Run(d, es[1..]));
      QueueTrans(c, t, d, u, Run(d, es[1..]));
      OffersTrans(c, t, d, u, Run(d, es[1..]));
      BytesTrans(c, t, d, u, Run(d, es[1..]));
    }
  }

  lemma NothingBalances(c: Conn)
    ensures CallsBalance(c, NOTHING, c) && QueueBalance(c, NOTHING, c) && OffersBalance(c, NOTHING, c)
    ensures BytesBalance(c, NOTHING, c)
  {
    assert InCall(c) + [] == [] + InCall(c);
    assert c.batch + c.pending + [] == [] + (c.batch + c.pending);
    assert Messages(c.offers) + [] == Messages(c.offers);
    assert c.wire + c.output + [] == c.wire + c.output && c.wire + [] == c.wire;
    assert c.received + [] == c.received && c.input + [] == [] + c.input;
  }

  // --------------------------------------------------------------- theorems

  /** Inbound stream integrity: what the user has taken out of the input buffer,
      then what is still in it, is what the socket delivered, in order, once. */
  lemma InboundIntegrity(cfg: Config, es: seq<Event>)
    requires Legal(NewConn(cfg), es)
    ensures var (t, c) := (Tallied(NewConn(cfg), es), Run(NewConn(cfg), es));
            t.consumed + c.input == t.delivered == c.received
  {
    RunBalances(NewConn(cfg), es);
    FromNothing(Tallied(NewConn(cfg), es).delivered);
  }

  lemma QueueOfPosts(t: Tally, ran: seq<Task>, batch: seq<Task>, pending: seq<Task>)
    requires t.queued == ran + (batch + pending)
    ensures Sends(t.queued) == Sends(ran) + Sends(batch) + Sends(pending)
  {
    SendsConcat(ran, batch + pending);
    SendsConcat(batch, pending);
  }

  lemma BagFromNothing<T>(a: multiset<T>, b: multiset<T>)
    requires multiset{} + a == b
    ensures a == b
  {
  }

  /** What starts with nothing in it. */
  lemma NewBalances(cfg: Config, t: Tally, c: Conn)
    requires CallsBalance(NewConn(cfg), t, c) && QueueBalance(NewConn(cfg), t, c) && OffersBalance(NewConn(cfg), t, c)
    ensures t.called == t.taken + InCall(c) && multiset(t.foreign) == multiset(t.posted) + multiset(c.sending)
    ensures t.queued == t.ran + (c.batch + c.pending) && Messages(c.offers) == t.offered
  {
    FromNothing(t.called);
    FromNothing(t.queued);
    FromNothing(t.offered);
    BagFromNothing(multiset(t.foreign), multiset(t.posted) + multiset(c.sending));
  }

  /** Every message given to send() arrives. On the loop thread it comes to
      sendInLoop before anything else; from another thread it is queued once, and
      the messages taken up so far, then those of the batch, then those of the queue
      are all that were queued, in lock order. sendInLoop is handed exactly these. */
  lemma EverySendArrives(cfg: Config, es: seq<Event>)
    requires Legal(NewConn(cfg), es)
    ensures var (t, c) := (Tallied(NewConn(cfg), es), Run(NewConn(cfg), es));
            && t.called == t.taken + InCall(c)
            && multiset(t.foreign) == multiset(t.posted) + multiset(c.sending)
            && t.posted == Sends(t.ran) + Sends(c.batch) + Sends(c.pending)
            && Messages(c.offers) == t.offered
            && multiset(t.offered) == multiset(t.taken) + multiset(Sends(t.ran))
  {
    RunBalances(NewConn(cfg), es);
    var (t, c) := (Tallied(NewConn(cfg), es), Run(NewConn(cfg), es));
    NewBalances(cfg, t, c);
    QueueOfPosts(t, t.ran, c.batch, c.pending);
  }

  lemma FromNothing<T>(s: seq<T>)
    ensures [] + s == s && [] + [] + s == s
  {
  }

  /** Outbound: the bytes of the messages handed to sendInLoop that were not dropped
      are with the kernel or in the output buffer, in order, and the kernel has just
      what `write` says it took. */
  lemma OutboundIntegrity(cfg: Config, es: seq<Event>)
    requires Legal(NewConn(cfg), es)
    ensures var (t, c) := (Tallied(NewConn(cfg), es), Run(NewConn(cfg), es));
            t.given == c.wire && t.given + c.output == t.accepted
  {
    RunBalances(NewConn(cfg), es);
    FromNothing(Tallied(NewConn(cfg), es).accepted);
    FromNothing(Tallied(NewConn(cfg), es).given);
  }

  /** The loop runs what is queued on it for the connection in order, once, and each
      close tells the server once. */
  lemma TasksInOrder(cfg: Config, es: seq<Event>)
    requires Legal(NewConn(cfg), es)
    ensures var (t, c) := (Tallied(NewConn(cfg), es), Run(NewConn(cfg), es));
            t.queued == t.ran + (c.batch + c.pending) && c.closes == t.closes
  {
    RunBalances(NewConn(cfg), es);
    FromNothing(Tallied(NewConn(cfg), es).queued);
  }
}
