/** Channel and EPollPoller: a registration automaton that mirrors the state of
    the kernel's epoll set (src/EPollPoller.cc, include/Channel.h, src/Channel.cc). */
module Epoll {
  import opened Posix

  // ---------------------------------------------------------------- masks

  type Mask = bv32

  const EPOLLIN: Mask := 0x001
  const EPOLLPRI: Mask := 0x002
  const EPOLLOUT: Mask := 0x004
  const EPOLLERR: Mask := 0x008
  const EPOLLHUP: Mask := 0x010

  const NONE_EVENT: Mask := 0
  const READ_EVENT: Mask := EPOLLIN | EPOLLPRI
  const WRITE_EVENT: Mask := EPOLLOUT

  predicate IsWriting(m: Mask) {
    m & WRITE_EVENT != 0
  }

  predicate IsReading(m: Mask) {
    m & READ_EVENT != 0
  }

  predicate IsNone(m: Mask) {
    m == NONE_EVENT
  }

  function WithReading(m: Mask): Mask {
    m | READ_EVENT
  }

  function WithoutReading(m: Mask): Mask {
    m & !READ_EVENT
  }

  function WithWriting(m: Mask): Mask {
    m | WRITE_EVENT
  }

  function WithoutWriting(m: Mask): Mask {
    m & !WRITE_EVENT
  }

  /** What a channel asks epoll for, bit by bit: the bits a report is dispatched on. */
  lemma MaskBits(m: Mask)
    ensures IsWriting(m) <==> m & EPOLLOUT != 0
    ensures IsReading(m) <==> m & EPOLLIN != 0 || m & EPOLLPRI != 0
    ensures IsNone(m) <==> m == 0
    ensures WithWriting(m) & EPOLLOUT != 0 && WithoutWriting(m) & EPOLLOUT == 0
    ensures WithReading(m) & EPOLLIN != 0 && WithReading(m) & EPOLLPRI != 0
    ensures WithoutReading(m) & EPOLLIN == 0 && WithoutReading(m) & EPOLLPRI == 0
  {
  }

  /** Every other bit stays as it was. */
  lemma WritingKeepsBits(m: Mask, bit: Mask)
    requires bit & EPOLLOUT == 0
    ensures WithWriting(m) & bit == m & bit && WithoutWriting(m) & bit == m & bit
  {
  }

  lemma ReadingKeepsBits(m: Mask, bit: Mask)
    requires bit & (EPOLLIN | EPOLLPRI) == 0
    ensures WithReading(m) & bit == m & bit && WithoutReading(m) & bit == m & bit
  {
  }

  // ------------------------------------------------------------ dispatch

  datatype Callback = CloseCb | ErrorCb | ReadCb | WriteCb

  /** The callbacks handleEventWithGuard makes for a reported mask, in order. */
  function Callbacks(revents: Mask): seq<Callback> {
    (if revents & EPOLLHUP != 0 && revents & EPOLLIN == 0 then [CloseCb] else [])
    + (if revents & EPOLLERR != 0 then [ErrorCb] else [])
    + (if revents & (EPOLLIN | EPOLLPRI) != 0 then [ReadCb] else [])
    + (if revents & EPOLLOUT != 0 then [WriteCb] else [])
  }

  /** The order in which callbacks are made. */
  function Rank(cb: Callback): nat {
    match cb
    case CloseCb => 0
    case ErrorCb => 1
    case ReadCb => 2
    case WriteCb => 3
  }

  /** Which callbacks a report makes. */
  lemma DispatchExactly(revents: Mask)
    ensures CloseCb in Callbacks(revents) <==> revents & EPOLLHUP != 0 && revents & EPOLLIN == 0
    ensures ErrorCb in Callbacks(revents) <==> revents & EPOLLERR != 0
    ensures ReadCb in Callbacks(revents) <==> revents & EPOLLIN != 0 || revents & EPOLLPRI != 0
    ensures WriteCb in Callbacks(revents) <==> revents & EPOLLOUT != 0
  {
    assert revents & (EPOLLIN | EPOLLPRI) != 0 <==> revents & EPOLLIN != 0 || revents & EPOLLPRI != 0;
  }

  /** Each at most once, and a close before anything else. */
  lemma DispatchInOrder(revents: Mask)
    ensures forall i, j :: 0 <= i < j < |Callbacks(revents)| ==>
              Rank(Callbacks(revents)[i]) < Rank(Callbacks(revents)[j])
  {
  }

  /** What is asked for is what is answered: a report of one bit makes the one
      callback that bit is for. */
  lemma OneBitReports()
    ensures Callbacks(EPOLLOUT) == [WriteCb] && Callbacks(EPOLLIN) == [ReadCb] && Callbacks(EPOLLPRI) == [ReadCb]
    ensures Callbacks(EPOLLHUP) == [CloseCb] && Callbacks(EPOLLERR) == [ErrorCb] && Callbacks(NONE_EVENT) == []
  {
  }

  /** A single report can make the close callback and then the read callback,
      whose end-of-stream closes again: exactly for a hang-up with urgent data
      and no ordinary input. */
  lemma CloseThenRead(revents: Mask)
    ensures (CloseCb in Callbacks(revents) && ReadCb in Callbacks(revents))
            <==> (revents & EPOLLHUP != 0 && revents & EPOLLIN == 0 && revents & EPOLLPRI != 0)
  {
    DispatchExactly(revents);
  }

  // ----------------------------------------------------------- automaton

  datatype Index = New | Added | Deleted

  datatype ChannelState<P> = ChannelState(self: P, fd: int, events: Mask, index: Index)

  /** One entry of the epoll set: the mask and the user pointer handed back. */
  datatype Registration<P> = Registration(mask: Mask, ptr: P)

  /** The poller's fd map, the kernel's interest set, and how many epoll_ctl
      calls the kernel has refused. */
  datatype PollerState<P> = PollerState(channels: map<int, P>, kernel: map<int, Registration<P>>, failures: nat)

  datatype CtlOp = CtlAdd | CtlMod | CtlDel

  /** The kernel refuses to add an fd it has and to change or drop one it lacks. */
  function EpollCtl<P>(p: PollerState<P>, op: CtlOp, ch: ChannelState<P>): PollerState<P> {
    if (op == CtlAdd) == (ch.fd in p.kernel) then p.(failures := p.failures + 1)
    else if op == CtlDel then p.(kernel := p.kernel - {ch.fd})
    else p.(kernel := p.kernel[ch.fd := Registration(ch.events, ch.self)])
  }

  function Updated<P>(p: PollerState<P>, ch: ChannelState<P>): (PollerState<P>, ChannelState<P>) {
    if ch.index != Added then
      var q := if ch.index == New then p.(channels := p.channels[ch.fd := ch.self]) else p;
      (EpollCtl(q, CtlAdd, ch), ch.(index := Added))
    else if IsNone(ch.events) then
      (EpollCtl(p, CtlDel, ch), ch.(index := Deleted))
    else
      (EpollCtl(p, CtlMod, ch), ch)
  }

  function Removed<P>(p: PollerState<P>, ch: ChannelState<P>): (PollerState<P>, ChannelState<P>) {
    var q := p.(channels := p.channels - {ch.fd});
    (if ch.index == Added then EpollCtl(q, CtlDel, ch) else q, ch.(index := New))
  }

  predicate HasChannel<P(==)>(p: PollerState<P>, ch: ChannelState<P>) {
    ch.fd in p.channels && p.channels[ch.fd] == ch.self
  }

  /** A poller has at most one of the channels with the same fd, the last one that
      was new to it: another channel on a reused fd is not mistaken for it. */
  lemma OneChannelPerFd<P>(p: PollerState<P>, ch: ChannelState<P>, other: ChannelState<P>)
    requires ch.fd == other.fd && ch.self != other.self
    ensures !(HasChannel(p, ch) && HasChannel(p, other))
    ensures ch.index == New ==> HasChannel(Updated(p, ch).0, ch) && !HasChannel(Updated(p, ch).0, other)
  {
  }

  // ---------------------------------------------------- one fd in isolation

  /** Everything the automaton reads or writes for one channel. */
  datatype Slot = Slot(index: Index, mapped: bool, kernel: Option<Mask>, failures: nat)

  function SlotOf<P>(p: PollerState<P>, ch: ChannelState<P>): Slot {
    Slot(ch.index, ch.fd in p.channels,
         if ch.fd in p.kernel then Some(p.kernel[ch.fd].mask) else None,
         p.failures)
  }

  function CtlSlot(s: Slot, op: CtlOp, mask: Mask): Slot {
    if (op == CtlAdd) == s.kernel.Some? then s.(failures := s.failures + 1)
    else s.(kernel := if op == CtlDel then None else Some(mask))
  }

  function UpdateSlot(s: Slot, mask: Mask): Slot {
    if s.index != Added then
      CtlSlot(s.(mapped := s.mapped || s.index == New), CtlAdd, mask).(index := Added)
    else if IsNone(mask) then
      CtlSlot(s, CtlDel, mask).(index := Deleted)
    else
      CtlSlot(s, CtlMod, mask)
  }

  function RemoveSlot(s: Slot): Slot {
    var t := s.(mapped := false);
    (if s.index == Added then CtlSlot(t, CtlDel, NONE_EVENT) else t).(index := New)
  }

  /** On a channel's own fd the map-level operations are the slot automaton. */
  lemma UpdatedSlot<P>(p: PollerState<P>, ch: ChannelState<P>)
    ensures SlotOf(Updated(p, ch).0, Updated(p, ch).1) == UpdateSlot(SlotOf(p, ch), ch.events)
  {
  }

  lemma RemovedSlot<P>(p: PollerState<P>, ch: ChannelState<P>)
    ensures SlotOf(Removed(p, ch).0, Removed(p, ch).1) == RemoveSlot(SlotOf(p, ch))
  {
  }

  /** Two poller states that agree on what they hold for one fd. */
  ghost predicate SameAt<P>(p: PollerState<P>, q: PollerState<P>, fd: int) {
    && (fd in q.channels <==> fd in p.channels)
    && (fd in q.kernel <==> fd in p.kernel)
    && (fd in p.channels ==> q.channels[fd] == p.channels[fd])
    && (fd in p.kernel ==> q.kernel[fd] == p.kernel[fd])
  }

  /** On every other fd they change nothing. */
  lemma OtherFdsUntouched<P>(p: PollerState<P>, ch: ChannelState<P>, fd: int)
    requires fd != ch.fd
    ensures SameAt(p, Updated(p, ch).0, fd)
    ensures SameAt(p, Removed(p, ch).0, fd)
  {
  }

  // ------------------------------------------------------------- classes

  class EPollPoller {
    var channels: map<int, Channel>
    /** Stands for the epoll instance behind epollfd_. */
    var kernel: map<int, Registration<Channel>>
    var failures: nat

    constructor ()
      ensures View() == PollerState(map[], map[], 0)
    {
      channels, kernel, failures := map[], map[], 0;
    }

    function View(): PollerState<Channel>
      reads this
    {
      PollerState(channels, kernel, failures)
    }

    method UpdateChannel(channel: Channel)
      modifies this, channel`index
      ensures (View(), channel.View()) == Updated(old(View()), old(channel.View()))
    {
      var index := channel.index;
      if index == New || index == Deleted {
        if index == New {
          channels := channels[channel.fd := channel];
        }
        channel.index := Added;
        Update(CtlAdd, channel);
      } else {
        if channel.IsNoneEvent() {
          Update(CtlDel, channel);
          channel.index := Deleted;
        } else {
          Update(CtlMod, channel);
        }
      }
    }

    method RemoveChannel(channel: Channel)
      modifies this, channel`index
      ensures (View(), channel.View()) == Removed(old(View()), old(channel.View()))
    {
      channels := channels - {channel.fd};
      if channel.index == Added {
        Update(CtlDel, channel);
      }
      channel.index := New;
    }

    /** epoll_ctl, with the kernel's refusals counted. */
    method Update(op: CtlOp, channel: Channel)
      modifies this`kernel, this`failures
      ensures View() == EpollCtl(old(View()), op, channel.View())
    {
      match op {
        case CtlAdd =>
          if channel.fd in kernel {
            failures := failures + 1;
          } else {
            kernel := kernel[channel.fd := Registration(channel.events, channel)];
          }
        case CtlMod =>
          if channel.fd in kernel {
            kernel := kernel[channel.fd := Registration(channel.events, channel)];
          } else {
            failures := failures + 1;
          }
        case CtlDel =>
          if channel.fd in kernel {
            kernel := kernel - {channel.fd};
          } else {
            failures := failures + 1;
          }
      }
    }

    method HasChannelFor(channel: Channel) returns (has: bool)
      ensures has == HasChannel(View(), channel.View())
    {
      has := channel.fd in channels && channels[channel.fd] == channel;
    }

    /** What epoll_wait reported becomes the active list, each channel carrying
        the mask reported for it. The kernel reports a registration once. */
    method FillActiveChannels(events: seq<Registration<Channel>>) returns (active: seq<Channel>)
      requires forall i, j :: 0 <= i < j < |events| ==> events[i].ptr != events[j].ptr
      modifies (set e | e in events :: e.ptr)`revents
      ensures |active| == |events|
      ensures forall i :: 0 <= i < |events| ==> active[i] == events[i].ptr && active[i].revents == events[i].mask
    {
      active := [];
      for i := 0 to |events|
        invariant |active| == i
        invariant forall k :: 0 <= k < i ==> active[k] == events[k].ptr && active[k].revents == events[k].mask
      {
        var channel := events[i].ptr;
        channel.revents := events[i].mask;
        active := active + [channel];
      }
    }
  }

  class Channel {
    const poller: EPollPoller
    const fd: int
    var events: Mask
    var revents: Mask
    var index: Index
    var tied: bool

    constructor (poller: EPollPoller, fd: int)
      ensures this.poller == poller && View() == ChannelState(this, fd, NONE_EVENT, New) && !tied
    {
      this.poller, this.fd := poller, fd;
      events, revents, index, tied := NONE_EVENT, NONE_EVENT, New, false;
    }

    function View(): ChannelState<Channel>
      reads this
    {
      ChannelState(this, fd, events, index)
    }

    predicate IsNoneEvent()
      reads this
    {
      events == NONE_EVENT
    }

    method Tie()
      modifies this`tied
      ensures tied
    {
      tied := true;
    }

    method EnableReading()
      modifies this`events, this`index, poller
      ensures (poller.View(), View())
           == Updated(old(poller.View()), old(View()).(events := WithReading(old(events))))
    {
      events := events | READ_EVENT;
      poller.UpdateChannel(this);
    }

    method DisableReading()
      modifies this`events, this`index, poller
      ensures (poller.View(), View())
           == Updated(old(poller.View()), old(View()).(events := WithoutReading(old(events))))
    {
      events := events & !READ_EVENT;
      poller.UpdateChannel(this);
    }

    method EnableWriting()
      modifies this`events, this`index, poller
      ensures (poller.View(), View())
           == Updated(old(poller.View()), old(View()).(events := WithWriting(old(events))))
    {
      events := events | WRITE_EVENT;
      poller.UpdateChannel(this);
    }

    method DisableWriting()
      modifies this`events, this`index, poller
      ensures (poller.View(), View())
           == Updated(old(poller.View()), old(View()).(events := WithoutWriting(old(events))))
    {
      events := events & !WRITE_EVENT;
      poller.UpdateChannel(this);
    }

    /** Clears the mask and, unlike the other four, tells nobody. */
    method DisableEverything()
      modifies this`events
      ensures View() == old(View()).(events := NONE_EVENT)
    {
      events := NONE_EVENT;
    }

    method RemoveFromPoller()
      modifies this`index, poller
      ensures (poller.View(), View()) == Removed(old(poller.View()), old(View()))
    {
      poller.RemoveChannel(this);
    }

    /** Dispatch of the mask last reported. `alive` is whether the weak pointer
        set by tie() can still be locked; `calls` are the callbacks made. */
    method HandleEvent(alive: bool) returns (calls: seq<Callback>)
      ensures calls == if tied && !alive then [] else Callbacks(revents)
    {
      calls := [];
      if tied {
        if alive {
          calls := HandleEventWithGuard();
        }
      } else {
        calls := HandleEventWithGuard();
      }
    }

    method HandleEventWithGuard() returns (calls: seq<Callback>)
      ensures calls == Callbacks(revents)
    {
      calls := [];
      if revents & EPOLLHUP != 0 && revents & EPOLLIN == 0 {
        calls := calls + [CloseCb];
      }
      if revents & EPOLLERR != 0 {
        calls := calls + [ErrorCb];
      }
      if revents & (EPOLLIN | EPOLLPRI) != 0 {
        calls := calls + [ReadCb];
      }
      if revents & EPOLLOUT != 0 {
        calls := calls + [WriteCb];
      }
    }
  }
}
