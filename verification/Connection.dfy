/** One TcpConnection against a nondeterministic kernel and user code: the state
    its methods work on, what each does to it, and the runs they can make up
    (src/TcpConnection.cc). */
module Connection {
  import opened Posix
  import opened Epoll
  import opened ConnStates

  /** What a connection puts into its loop's queue. `OtherTask` is anybody else's. */
  datatype Task = SendTask(msg: Bytes) | ShutdownTask | WriteComplete | HighWater(backlog: nat) | OtherTask

  /** A message handed to sendInLoop, and whether it was taken on or dropped. */
  datatype Offer = Offer(msg: Bytes, kept: bool)

  datatype Config = Config(mark: nat, hasHighWater: bool, hasWriteComplete: bool)

  datatype Conn = Conn(
    cfg: Config,
    state: ConnState,
    events: Mask,          // channel_->events_
    slot: Slot,            // the channel's index and what epoll holds for its fd
    input: Bytes,
    output: Bytes,
    batch: seq<Task>,      // the rest of the batch the loop is running
    pending: seq<Task>,    // the loop's pendingFunctors_
    // calls in progress: past the look at state_, not yet at what it leads to
    calling: Option<Bytes>,  // send() on the loop thread
    sending: seq<Bytes>,     // send() on other threads
    stopping: bool,          // shutdown() on another thread, state set, functor not queued
    // what the outside world has seen
    received: Bytes,       // bytes read from the socket
    wire: Bytes,           // bytes the kernel took
    offers: seq<Offer>,    // calls of sendInLoop, in order
    fins: nat,             // calls of shutdownWrite
    dirtyFins: nat,        // ... made while bytes were still unsent
    lateSends: nat,        // non-empty messages taken up by sendInLoop after a FIN
    highWaters: nat,       // high-water callbacks queued
    completes: nat,        // write-complete callbacks queued
    closes: nat)           // calls of closeCallback_

  function NewConn(cfg: Config): Conn {
    Conn(cfg, Connecting, NONE_EVENT, Slot(New, false, None, 0), [], [], [], [], None, [], false,
         [], [], [], 0, 0, 0, 0, 0, 0)
  }

  function Queue(c: Conn, t: Task): Conn {
    c.(pending := c.pending + [t])
  }

  /** channel_->update() after the mask has become `events`. */
  function Submit(c: Conn, events: Mask): Conn {
    c.(events := events, slot := UpdateSlot(c.slot, events))
  }

  function ConnectEstablished(c: Conn): Conn {
    Submit(c.(state := Connected), WithReading(c.events))
  }

  // ------------------------------------------------------------ send path

  /** sendInLoop goes straight to the socket only when nothing is waiting. */
  predicate WritesDirectly(c: Conn) {
    c.state != Disconnected && !IsWriting(c.events) && c.output == []
  }

  predicate SendLegal(c: Conn, msg: Bytes, o: WriteOutcome) {
    WritesDirectly(c) ==> WriteLegal(o, |msg|)
  }

  function DirectlyTaken(c: Conn, o: WriteOutcome): nat {
    if WritesDirectly(c) then Taken(o) else 0
  }

  /** Only a fault on a direct write, or a closed connection, drops a message. */
  predicate Keeps(c: Conn, o: WriteOutcome) {
    c.state != Disconnected && !(WritesDirectly(c) && IsFault(o))
  }

  /** The direct write and its completion callback. */
  function WriteThrough(c: Conn, msg: Bytes, o: WriteOutcome): (d: Conn)
    requires SendLegal(c, msg, o)
    ensures d == c.(wire := d.wire, pending := d.pending, completes := d.completes)
  {
    var n := DirectlyTaken(c, o);
    var d := c.(wire := c.wire + msg[..n]);
    if 0 < n == |msg| && c.cfg.hasWriteComplete then
      Queue(d.(completes := d.completes + 1), WriteComplete)
    else d
  }

  /** What could not be written joins the backlog and asks for writability. */
  function Backlog(c: Conn, rest: Bytes): (d: Conn)
    ensures d == c.(output := d.output, pending := d.pending, highWaters := d.highWaters,
                    events := d.events, slot := d.slot)
  {
    var d := if |c.output| < c.cfg.mark <= |c.output| + |rest| && c.cfg.hasHighWater then
               Queue(c.(highWaters := c.highWaters + 1), HighWater(|c.output| + |rest|))
             else c;
    var e := d.(output := d.output + rest);
    if IsWriting(e.events) then e else Submit(e, WithWriting(e.events))
  }

  function SendInLoop(c: Conn, msg: Bytes, o: WriteOutcome): Conn
    requires SendLegal(c, msg, o)
  {
    var d := c.(offers := c.offers + [Offer(msg, Keeps(c, o))],
                lateSends := if c.state != Disconnected && c.fins > 0 && msg != [] then c.lateSends + 1 else c.lateSends);
    if c.state == Disconnected then d
    else
      var n := DirectlyTaken(c, o);
      var e := WriteThrough(d, msg, o);
      if Keeps(c, o) && n < |msg| then Backlog(e, msg[n..]) else e
  }

  /** send() on the connection's own loop thread. */
  function Send(c: Conn, msg: Bytes, o: WriteOutcome): Conn
    requires c.state == Connected ==> SendLegal(c, msg, o)
  {
    if c.state == Connected then SendInLoop(c, msg, o) else c
  }

  /** send() on any other thread. */
  function ForeignSend(c: Conn, msg: Bytes): Conn {
    if c.state == Connected then Queue(c, SendTask(msg)) else c
  }

  // ------------------------------------------------------------- shutdown

  function ShutdownInLoop(c: Conn): Conn {
    if IsWriting(c.events) then c
    else c.(fins := c.fins + 1, dirtyFins := if c.output == [] then c.dirtyFins else c.dirtyFins + 1)
  }

  function Shutdown(c: Conn): Conn {
    if c.state == Connected then ShutdownInLoop(c.(state := Disconnecting)) else c
  }

  /** The state changes at once, the rest of the work is queued. */
  function ForeignShutdown(c: Conn): Conn {
    if c.state == Connected then Queue(c.(state := Disconnecting), ShutdownTask) else c
  }

  // -------------------------------------------- calls, one action at a time

  /** The look at state_ in send() on the loop thread; sendInLoop is next. */
  function SendCheck(c: Conn, msg: Bytes): Conn {
    if c.state == Connected then c.(calling := Some(msg)) else c
  }

  /** The look at state_ in send() on another thread; the queueing is next. */
  function ForeignSendCheck(c: Conn, msg: Bytes): Conn {
    if c.state == Connected then c.(sending := c.sending + [msg]) else c
  }

  function ForeignSendPush(c: Conn, i: nat): Conn
    requires i < |c.sending|
  {
    Queue(c.(sending := c.sending[..i] + c.sending[i + 1..]), SendTask(c.sending[i]))
  }

  /** The look at state_ and the store to it in shutdown() on another thread. */
  function ForeignShutdownSet(c: Conn): Conn {
    if c.state == Connected then c.(state := Disconnecting, stopping := true) else c
  }

  function ForeignShutdownPush(c: Conn): Conn {
    Queue(c.(stopping := false), ShutdownTask)
  }

  /** A call that is not interrupted is its actions in a row. */
  lemma CallsAreTheirActions(c: Conn, msg: Bytes, o: WriteOutcome)
    requires c.calling == None && !c.stopping && (c.state == Connected ==> SendLegal(c, msg, o))
    ensures c.state == Connected ==> SendInLoop(SendCheck(c, msg).(calling := None), msg, o) == Send(c, msg, o)
    ensures c.state == Connected ==> ForeignSendPush(ForeignSendCheck(c, msg), |c.sending|) == ForeignSend(c, msg)
    ensures c.state == Connected ==> ForeignShutdownPush(ForeignShutdownSet(c)) == ForeignShutdown(c)
    ensures c.state != Connected ==>
              && SendCheck(c, msg) == Send(c, msg, o) && ForeignSendCheck(c, msg) == ForeignSend(c, msg)
              && ForeignShutdownSet(c) == ForeignShutdown(c)
  {
    var s := c.sending + [msg];
    assert s[..|c.sending|] + s[|c.sending| + 1..] == c.sending;
  }

  // ------------------------------------------------------------- handlers

  function HandleClose(c: Conn): Conn {
    c.(state := Disconnected, events := NONE_EVENT, closes := c.closes + 1)
  }

  /** The message callback is user code and follows as events of its own. */
  function HandleRead(c: Conn, o: ReadOutcome): Conn {
    match o
    case ReadFailed(_) => c
    case ReadBytes(data) =>
      if data == [] then HandleClose(c)
      else c.(input := c.input + data, received := c.received + data)
  }

  predicate HandleWriteLegal(c: Conn, o: WriteOutcome) {
    IsWriting(c.events) ==> WriteLegal(o, |c.output|)
  }

  /** The backlog is gone: stop asking for writability, and shut down if that is due. */
  function FinishWriting(c: Conn): (d: Conn)
    ensures d == c.(events := d.events, slot := d.slot, pending := d.pending, completes := d.completes,
                    fins := d.fins, dirtyFins := d.dirtyFins)
  {
    var e := Submit(c, WithoutWriting(c.events));
    var f := if c.cfg.hasWriteComplete then Queue(e.(completes := e.completes + 1), WriteComplete) else e;
    if f.state == Disconnecting then ShutdownInLoop(f) else f
  }

  function HandleWrite(c: Conn, o: WriteOutcome): Conn
    requires HandleWriteLegal(c, o)
  {
    if !IsWriting(c.events) || o.n <= 0 then c
    else
      var d := c.(wire := c.wire + c.output[..o.n], output := c.output[o.n..]);
      if d.output == [] then FinishWriting(d) else d
  }

  function ConnectDestroyed(c: Conn): Conn {
    var d := if c.state == Connected then c.(state := Disconnected, events := NONE_EVENT) else c;
    d.(slot := RemoveSlot(d.slot))
  }

  // ----------------------------------------------------------------- runs

  datatype Event =
    | EstablishedEv
    | ReadEv(ro: ReadOutcome)
    | WriteEv(wo: WriteOutcome)
    | CloseEv
    | DestroyedEv
    | TakeInput(len: nat)                       // the user retrieves from the input buffer
    | SendCheckEv(msg: Bytes)                   // user code on the loop thread calls send()
    | SendRunEv(wo: WriteOutcome)               // ... and sendInLoop runs
    | ShutdownEv                                // user code on the loop thread calls shutdown()
    | ForeignSendEv(msg: Bytes)                 // another thread calls send()
    | ForeignSendPushEv(i: nat)                 // ... and queues the message
    | ForeignShutdownEv                         // another thread calls shutdown()
    | ForeignShutdownPushEv                     // ... and queues the functor
    | OtherTaskEv                               // anybody queues on the same loop
    | SwapEv                                    // the loop takes its queue as a batch
    | RunTaskEv(wo: WriteOutcome)               // the loop runs the next task of the batch

  /** The handlers run when no batch does; tasks run only in a batch; the loop
      thread finishes the send() it is in. A channel gets events only once it is
      registered. */
  predicate Allowed(c: Conn, e: Event) {
    match e
    case EstablishedEv => c.calling == None && c.state == Connecting
    case ReadEv(_) => c.calling == None && c.batch == [] && c.state != Connecting
    case WriteEv(o) => c.calling == None && c.batch == [] && c.state != Connecting && HandleWriteLegal(c, o)
    case CloseEv => c.calling == None && c.batch == [] && c.state != Connecting
    // the server destroys only connections that have closed
    case DestroyedEv => c.calling == None && c.state == Disconnected
    case TakeInput(_) => c.calling == None
    case SendCheckEv(_) => c.calling == None
    case SendRunEv(o) => c.calling.Some? && SendLegal(c, c.calling.value, o)
    case ShutdownEv => c.calling == None
    case ForeignSendPushEv(i) => i < |c.sending|
    case ForeignShutdownPushEv => c.stopping
    case SwapEv => c.calling == None && c.batch == []
    case RunTaskEv(o) =>
      c.calling == None && c.batch != [] && (c.batch[0].SendTask? ==> SendLegal(c, c.batch[0].msg, o))
    case _ => true
  }

  function RunTask(c: Conn, o: WriteOutcome): Conn
    requires Allowed(c, RunTaskEv(o))
  {
    var d := c.(batch := c.batch[1..]);
    match c.batch[0]
    case SendTask(msg) => SendInLoop(d, msg, o)
    case ShutdownTask => ShutdownInLoop(d)
    case _ => d
  }

  function Apply(c: Conn, e: Event): Conn
    requires Allowed(c, e)
  {
    match e
    case EstablishedEv => ConnectEstablished(c)
    case ReadEv(o) => HandleRead(c, o)
    case WriteEv(o) => HandleWrite(c, o)
    case CloseEv => HandleClose(c)
    case DestroyedEv => ConnectDestroyed(c)
    case TakeInput(len) => c.(input := if len < |c.input| then c.input[len..] else [])
    case SendCheckEv(msg) => SendCheck(c, msg)
    case SendRunEv(o) => SendInLoop(c.(calling := None), c.calling.value, o)
    case ShutdownEv => Shutdown(c)
    case ForeignSendEv(msg) => ForeignSendCheck(c, msg)
    case ForeignSendPushEv(i) => ForeignSendPush(c, i)
    case ForeignShutdownEv => ForeignShutdownSet(c)
    case ForeignShutdownPushEv => ForeignShutdownPush(c)
    case OtherTaskEv => Queue(c, OtherTask)
    case SwapEv => c.(batch := c.pending, pending := [])
    case RunTaskEv(o) => RunTask(c, o)
  }

  ghost predicate Legal(c: Conn, es: seq<Event>)
    decreases |es|
  {
    es == [] || (Allowed(c, es[0]) && Legal(Apply(c, es[0]), es[1..]))
  }

  ghost function Run(c: Conn, es: seq<Event>): Conn
    requires Legal(c, es)
    decreases |es|
  {
    if es == [] then c else Run(Apply(c, es[0]), es[1..])
  }

  lemma {:induction false} RunConcat(c: Conn, es: seq<Event>, fs: seq<Event>)
    requires Legal(c, es) && Legal(Run(c, es), fs)
    ensures Legal(c, es + fs) && Run(c, es + fs) == Run(Run(c, es), fs)
    decreases |es|
  {
    if es == [] {
      assert es + fs == fs;
    } else {
      RunConcat(Apply(c, es[0]), es[1..], fs);
      assert (es + fs)[1..] == es[1..] + fs;
    }
  }
}
