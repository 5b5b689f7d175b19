/** The methods of src/TcpConnection.cc over real buffers, a real channel and a
    real poller, each proved to do what Connection says it does. */
module TcpConnections {
  import opened Posix
  import opened Buffers
  import opened Epoll
  import opened ConnStates
  import opened Connection

  class TcpConnection {
    const cfg: Config
    const channel: Channel
    const inputBuffer: Buffer
    const outputBuffer: Buffer
    var state: ConnState
    /** This connection's view of the queue of its loop. */
    var batch: seq<Task>
    var pending: seq<Task>

    ghost var calling: Option<Bytes>
    ghost var sending: seq<Bytes>
    ghost var stopping: bool
    ghost var received: Bytes
    ghost var wire: Bytes
    ghost var offers: seq<Offer>
    ghost var fins: nat
    ghost var dirtyFins: nat
    ghost var lateSends: nat
    ghost var highWaters: nat
    ghost var completes: nat
    ghost var closes: nat

    ghost predicate Valid()
      reads this, inputBuffer, outputBuffer
    {
      && inputBuffer != outputBuffer && inputBuffer.data != outputBuffer.data
      && inputBuffer.Valid() && outputBuffer.Valid()
    }

    ghost function View(): Conn
      requires Valid()
      reads this, channel, channel.poller, inputBuffer, inputBuffer.data, outputBuffer, outputBuffer.data
    {
      Conn(cfg, state, channel.events, SlotOf(channel.poller.View(), channel.View()),
           inputBuffer.Contents(), outputBuffer.Contents(), batch, pending, calling, sending, stopping,
           received, wire, offers, fins, dirtyFins, lateSends, highWaters, completes, closes)
    }

    /** `sockfd` is an fd the poller does not know. */
    constructor (cfg: Config, poller: EPollPoller, sockfd: int)
      requires sockfd !in poller.channels && sockfd !in poller.kernel && poller.failures == 0
      ensures Valid() && View() == NewConn(cfg)
      ensures channel.poller == poller && channel.fd == sockfd
    {
      this.cfg := cfg;
      channel := new Channel(poller, sockfd);
      inputBuffer := new Buffer(INITIAL_SIZE);
      outputBuffer := new Buffer(INITIAL_SIZE);
      state := Connecting;
      batch, pending := [], [];
      calling, sending, stopping := None, [], false;
      received, wire, offers := [], [], [];
      fins, dirtyFins, lateSends, highWaters, completes, closes := 0, 0, 0, 0, 0, 0;
    }

    /** loop_->queueInLoop from the loop's own thread or another. */
    method QueueInLoop(t: Task)
      requires Valid()
      modifies this`pending
      ensures Valid() && View() == Queue(old(View()), t)
    {
      pending := pending + [t];
    }

    method ConnectEstablished()
      requires Valid()
      modifies this, channel, channel.poller
      ensures Valid() && View() == Connection.ConnectEstablished(old(View())) && channel.tied
    {
      state := Connected;
      channel.Tie();
      UpdatedSlot(channel.poller.View(), channel.View().(events := WithReading(channel.events)));
      channel.EnableReading();
    }

    /** `o` is what `write` answers if the call comes to make one. */
    method SendInLoop(data: Bytes, o: WriteOutcome)
      requires Valid() && SendLegal(View(), data, o)
      modifies this, channel, channel.poller, outputBuffer, outputBuffer.data
      ensures Valid() && (outputBuffer.data == old(outputBuffer.data) || fresh(outputBuffer.data))
      ensures View() == Connection.SendInLoop(old(View()), data, o)
    {
      ghost var c := View();
      RecordOffer(data, o);
      ghost var d := View();
      if state == Disconnected {
        return;
      }
      var nwrote, faultError := DirectWrite(data, o);
      ghost var e := View();
      assert faultError == !Keeps(c, o) && e == Connection.WriteThrough(d, data, o);
      if !faultError && |data| - nwrote > 0 {
        Backlog(data[nwrote..]);
        assert View() == Connection.Backlog(e, data[nwrote..]);
      }
    }

    /** History only: what sendInLoop was asked to send, and what becomes of it. */
    ghost method RecordOffer(data: Bytes, o: WriteOutcome)
      requires Valid()
      modifies this`offers, this`lateSends
      ensures Valid()
      ensures var c := old(View());
              View() == c.(offers := c.offers + [Offer(data, Keeps(c, o))],
                           lateSends := if c.state != Disconnected && c.fins > 0 && data != []
                                        then c.lateSends + 1 else c.lateSends)
    {
      offers := offers + [Offer(data, Keeps(View(), o))];
      if state != Disconnected && fins > 0 && data != [] {
        lateSends := lateSends + 1;
      }
    }

    /** Straight to the socket if nothing is waiting, not at all otherwise. */
    method DirectWrite(data: Bytes, o: WriteOutcome) returns (nwrote: nat, faultError: bool)
      requires Valid() && SendLegal(View(), data, o) && state != Disconnected
      modifies this`wire, this`pending, this`completes
      ensures Valid() && View() == Connection.WriteThrough(old(View()), data, o)
      ensures nwrote == DirectlyTaken(old(View()), o)
      ensures faultError == (WritesDirectly(old(View())) && IsFault(o))
    {
      nwrote, faultError := 0, false;
      var queued := outputBuffer.ReadableBytes();
      if !IsWriting(channel.events) && queued == 0 {
        nwrote, faultError := WriteThrough(data, o);
      } else {
        assert wire + data[..0] == wire;
      }
    }

    /** The write itself, and what sendInLoop makes of its answer. */
    method WriteThrough(data: Bytes, o: WriteOutcome) returns (nwrote: nat, faultError: bool)
      requires Valid() && WritesDirectly(View()) && WriteLegal(o, |data|)
      modifies this`wire, this`pending, this`completes
      ensures Valid() && View() == Connection.WriteThrough(old(View()), data, o)
      ensures nwrote == Posix.Taken(o) && faultError == IsFault(o)
    {
      nwrote, faultError := 0, false;
      if o.n > 0 {
        nwrote := o.n;
        wire := wire + data[..nwrote];
        if |data| - nwrote == 0 && cfg.hasWriteComplete {
          completes := completes + 1;
          QueueInLoop(WriteComplete);
        }
      } else {
        assert wire + data[..0] == wire;
        if o.errno != EWouldBlock {
          if o.errno == EPipe || o.errno == EConnReset {
            faultError := true;
          }
        }
      }
    }

    /** The tail of sendInLoop: high-water check, append, ask for writability. */
    method Backlog(rest: Bytes)
      requires Valid()
      modifies this`pending, this`highWaters, channel, channel.poller, outputBuffer, outputBuffer.data
      ensures Valid() && (outputBuffer.data == old(outputBuffer.data) || fresh(outputBuffer.data))
      ensures View() == Connection.Backlog(old(View()), rest)
    {
      WarnHighWater(|rest|);
      AppendAndWatch(rest);
    }

    method AppendAndWatch(rest: Bytes)
      requires Valid()
      modifies channel, channel.poller, outputBuffer, outputBuffer.data
      ensures Valid() && (outputBuffer.data == old(outputBuffer.data) || fresh(outputBuffer.data))
      ensures var e := old(View()).(output := old(View()).output + rest);
              View() == if IsWriting(e.events) then e else Submit(e, WithWriting(e.events))
    {
      AppendOutput(rest);
      WatchForWriting();
    }

    method WatchForWriting()
      requires Valid()
      modifies channel, channel.poller
      ensures Valid()
      ensures View() == if IsWriting(old(View()).events) then old(View())
                        else Submit(old(View()), WithWriting(old(View()).events))
    {
      if !IsWriting(channel.events) {
        EnableWriting();
      }
    }

    /** The high-water callback is queued when this append takes the backlog
        from below the mark to the mark or above. */
    method WarnHighWater(remaining: nat)
      requires Valid()
      modifies this`pending, this`highWaters
      ensures Valid()
      ensures var c := old(View());
              View() == if |c.output| < cfg.mark <= |c.output| + remaining && cfg.hasHighWater
                        then Queue(c.(highWaters := c.highWaters + 1), HighWater(|c.output| + remaining)) else c
    {
      var oldLen := outputBuffer.ReadableBytes();
      if oldLen + remaining >= cfg.mark && oldLen < cfg.mark && cfg.hasHighWater {
        highWaters := highWaters + 1;
        QueueInLoop(HighWater(oldLen + remaining));
      }
    }

    method AppendOutput(rest: Bytes)
      requires Valid()
      modifies outputBuffer, outputBuffer.data
      ensures Valid() && (outputBuffer.data == old(outputBuffer.data) || fresh(outputBuffer.data))
      ensures View() == old(View()).(output := old(View()).output + rest)
    {
      outputBuffer.Append(rest);
    }

    /** channel_->enableWriting() */
    method EnableWriting()
      requires Valid()
      modifies channel, channel.poller
      ensures Valid() && View() == Submit(old(View()), WithWriting(old(View()).events))
    {
      UpdatedSlot(channel.poller.View(), channel.View().(events := WithWriting(channel.events)));
      channel.EnableWriting();
    }

    /** channel_->disableWriting() */
    method DisableWriting()
      requires Valid()
      modifies channel, channel.poller
      ensures Valid() && View() == Submit(old(View()), WithoutWriting(old(View()).events))
    {
      UpdatedSlot(channel.poller.View(), channel.View().(events := WithoutWriting(channel.events)));
      channel.DisableWriting();
    }

    /** Off the loop thread the message is copied into a queued functor. */
    method Send(buf: Bytes, inLoopThread: bool, o: WriteOutcome)
      requires Valid()
      requires inLoopThread && state == Connected ==> SendLegal(View(), buf, o)
      modifies this, channel, channel.poller, outputBuffer, outputBuffer.data
      ensures Valid() && (outputBuffer.data == old(outputBuffer.data) || fresh(outputBuffer.data))
      ensures inLoopThread ==> View() == Connection.Send(old(View()), buf, o)
      ensures !inLoopThread ==> View() == ForeignSend(old(View()), buf)
    {
      if state == Connected {
        if inLoopThread {
          SendInLoop(buf, o);
        } else {
          QueueInLoop(SendTask(buf));
        }
      }
    }

    method Shutdown(inLoopThread: bool)
      requires Valid()
      modifies this
      ensures Valid()
      ensures inLoopThread ==> View() == Connection.Shutdown(old(View()))
      ensures !inLoopThread ==> View() == ForeignShutdown(old(View()))
    {
      if state == Connected {
        state := Disconnecting;
        if inLoopThread {
          ShutdownInLoop();
        } else {
          QueueInLoop(ShutdownTask);
        }
      }
    }

    method ShutdownInLoop()
      requires Valid()
      modifies this`fins, this`dirtyFins
      ensures Valid() && View() == Connection.ShutdownInLoop(old(View()))
    {
      if !IsWriting(channel.events) {
        if outputBuffer.Contents() != [] {
          dirtyFins := dirtyFins + 1;
        }
        fins := fins + 1;
      }
    }

    /** `messageArrived` stands for the call of messageCallback_, which is up to
        the user; the caller makes it. */
    method HandleRead(o: ReadOutcome) returns (messageArrived: bool)
      requires Valid()
      requires o.ReadBytes? ==> |o.data| <= ReadCapacity(inputBuffer.Shape())
      modifies this, channel, inputBuffer, inputBuffer.data
      ensures Valid() && (inputBuffer.data == old(inputBuffer.data) || fresh(inputBuffer.data))
      ensures View() == Connection.HandleRead(old(View()), o)
      ensures messageArrived <==> o.ReadBytes? && o.data != []
    {
      var n, savedErrno := inputBuffer.ReadFd(o);
      messageArrived := n > 0;
      if n > 0 {
        received := received + o.data;
      } else if n == 0 {
        assert inputBuffer.Contents() == old(inputBuffer.Contents());
        HandleClose();
      }
    }

    method HandleWrite(o: WriteOutcome)
      requires Valid() && HandleWriteLegal(View(), o)
      modifies this, channel, channel.poller, outputBuffer
      ensures Valid() && outputBuffer.data == old(outputBuffer.data)
      ensures View() == Connection.HandleWrite(old(View()), o)
    {
      if IsWriting(channel.events) {
        var n, savedErrno, taken := outputBuffer.WriteFd(o);
        if n > 0 {
          wire := wire + taken;
          outputBuffer.Retrieve(n);
          var left := outputBuffer.ReadableBytes();
          if left == 0 {
            FinishWriting();
          }
        }
      }
    }

    /** The backlog is gone. */
    method FinishWriting()
      requires Valid() && outputBuffer.Contents() == []
      modifies this, channel, channel.poller
      ensures Valid()
      ensures View() == Connection.FinishWriting(old(View()))
    {
      ghost var c := View();
      DisableWriting();
      assert View() == Submit(c, WithoutWriting(c.events));
      NotifyComplete();
      if state == Disconnecting {
        ShutdownInLoop();
      }
    }

    /** writeCompleteCallback_ is queued, if there is one. */
    method NotifyComplete()
      requires Valid()
      modifies this`pending, this`completes
      ensures Valid()
      ensures var c := old(View());
              View() == if c.cfg.hasWriteComplete then Queue(c.(completes := c.completes + 1), WriteComplete) else c
    {
      if cfg.hasWriteComplete {
        completes := completes + 1;
        QueueInLoop(WriteComplete);
      }
    }

    /** closeCallback_, the server's removeConnection, is the caller's to make. */
    method HandleClose()
      requires Valid()
      modifies this, channel
      ensures Valid() && View() == Connection.HandleClose(old(View()))
    {
      state := Disconnected;
      channel.DisableEverything();
      closes := closes + 1;
    }

    method ConnectDestroyed()
      requires Valid()
      modifies this, channel, channel.poller
      ensures Valid() && View() == Connection.ConnectDestroyed(old(View()))
    {
      if state == Connected {
        state := Disconnected;
        channel.DisableEverything();
      }
      RemovedSlot(channel.poller.View(), channel.View());
      channel.RemoveFromPoller();
    }

    /** The loop runs the next functor of its batch. */
    method RunTask(o: WriteOutcome)
      requires Valid() && Allowed(View(), RunTaskEv(o))
      modifies this, channel, channel.poller, outputBuffer, outputBuffer.data
      ensures Valid() && (outputBuffer.data == old(outputBuffer.data) || fresh(outputBuffer.data))
      ensures View() == Connection.RunTask(old(View()), o)
    {
      var t := batch[0];
      batch := batch[1..];
      match t {
        case SendTask(msg) => SendInLoop(msg, o);
        case ShutdownTask => ShutdownInLoop();
        case _ =>
      }
    }
  }
}
