/** The registration automaton mirrors the kernel: proved over every sequence of
    operations on any set of channels with distinct fds. */
module KernelMirror {
  import opened Epoll

  datatype ChannelOp = EnableReading | DisableReading | EnableWriting | DisableWriting | DisableAll | Remove

  function NewEvents(m: Mask, op: ChannelOp): Mask {
    match op
    case EnableReading => WithReading(m)
    case DisableReading => WithoutReading(m)
    case EnableWriting => WithWriting(m)
    case DisableWriting => WithoutWriting(m)
    case DisableAll => NONE_EVENT
    case Remove => m
  }

  /** A poller, the channels that use it, and the mask each last submitted. */
  datatype Bench<P> = Bench(p: PollerState<P>, chs: map<P, ChannelState<P>>, submitted: map<P, Mask>)

  function Apply<P>(b: Bench<P>, k: P, op: ChannelOp): (r: Bench<P>)
    requires k in b.chs
    ensures r.chs.Keys == b.chs.Keys
  {
    var ch := b.chs[k].(events := NewEvents(b.chs[k].events, op));
    match op
    case DisableAll => b.(chs := b.chs[k := ch])
    case Remove =>
      var (q, d) := Removed(b.p, ch);
      b.(p := q, chs := b.chs[k := d])
    case _ =>
      var (q, d) := Updated(b.p, ch);
      b.(p := q, chs := b.chs[k := d], submitted := b.submitted[k := ch.events])
  }

  function Run<P>(b: Bench<P>, script: seq<(P, ChannelOp)>): (r: Bench<P>)
    requires forall i :: 0 <= i < |script| ==> script[i].0 in b.chs
    ensures r.chs.Keys == b.chs.Keys
  {
    if script == [] then b
    else
      var last := |script| - 1;
      Apply(Run(b, script[..last]), script[last].0, script[last].1)
  }

  /** Channels with pairwise distinct fds. */
  ghost predicate DistinctFds<P>(chs: map<P, ChannelState<P>>) {
    && (forall k :: k in chs ==> chs[k].self == k)
    && (forall j, k :: j in chs && k in chs && j != k ==> chs[j].fd != chs[k].fd)
  }

  /** The kernel and the fd map agree with the index of channel k. */
  ghost predicate MirrorOf<P>(b: Bench<P>, k: P)
    requires k in b.chs
  {
    var ch := b.chs[k];
    && (ch.index == Added <==> ch.fd in b.p.kernel)
    && (ch.index == Added ==> k in b.submitted && b.p.kernel[ch.fd] == Registration(b.submitted[k], k))
    && (ch.index != New <==> HasChannel(b.p, ch))
    && (ch.index == New ==> ch.fd !in b.p.channels)
  }

  ghost predicate Mirror<P>(b: Bench<P>) {
    && DistinctFds(b.chs)
    && b.p.failures == 0
    && (forall k :: k in b.chs ==> MirrorOf(b, k))
    && (forall f :: f in b.p.kernel ==> b.p.kernel[f].ptr in b.chs && b.chs[b.p.kernel[f].ptr].fd == f)
  }

  /** Nothing is registered and every channel is new. */
  ghost predicate Blank<P>(b: Bench<P>) {
    && DistinctFds(b.chs)
    && b.p == PollerState(map[], map[], 0)
    && forall k :: k in b.chs ==> b.chs[k].index == New
  }

  /** Channels with other fds do not notice a change of poller state that is
      local to one fd. */
  lemma OthersUnmoved<P>(b: Bench<P>, r: Bench<P>, k: P)
    requires Mirror(b) && k in b.chs && r.chs.Keys == b.chs.Keys
    requires r.chs[k].fd == b.chs[k].fd && r.chs[k].self == k
    requires forall j :: j in b.chs && j != k ==>
               r.chs[j] == b.chs[j] && (j in b.submitted ==> j in r.submitted && r.submitted[j] == b.submitted[j])
    requires r.p.failures == 0 && MirrorOf(r, k)
    requires forall f :: f != b.chs[k].fd ==> SameAt(b.p, r.p, f)
    requires b.chs[k].fd in r.p.kernel ==> r.p.kernel[b.chs[k].fd].ptr == k
    ensures Mirror(r)
  {
    forall j | j in r.chs
      ensures MirrorOf(r, j)
    {
      assert MirrorOf(b, j);
      assert j != k ==> SameAt(b.p, r.p, b.chs[j].fd);
    }
    forall f | f in r.p.kernel
      ensures r.p.kernel[f].ptr in r.chs && r.chs[r.p.kernel[f].ptr].fd == f
    {
      assert f != b.chs[k].fd ==> SameAt(b.p, r.p, f);
    }
  }

  lemma UpdateMirrorsOwn<P>(b: Bench<P>, k: P, events: Mask)
    requires Mirror(b) && k in b.chs
    ensures var (q, d) := Updated(b.p, b.chs[k].(events := events));
            var r := b.(p := q, chs := b.chs[k := d], submitted := b.submitted[k := events]);
            && MirrorOf(r, k) && q.failures == 0 && d.fd == b.chs[k].fd && d.self == k
            && (d.fd in q.kernel ==> q.kernel[d.fd].ptr == k)
  {
    assert MirrorOf(b, k);
  }

  lemma UpdateKeepsMirror<P>(b: Bench<P>, k: P, events: Mask)
    requires Mirror(b) && k in b.chs
    ensures var (q, d) := Updated(b.p, b.chs[k].(events := events));
            Mirror(b.(p := q, chs := b.chs[k := d], submitted := b.submitted[k := events]))
  {
    var ch := b.chs[k].(events := events);
    var (q, d) := Updated(b.p, ch);
    UpdateMirrorsOwn(b, k, events);
    forall f | f != ch.fd
      ensures SameAt(b.p, q, f)
    {
      OtherFdsUntouched(b.p, ch, f);
    }
    OthersUnmoved(b, b.(p := q, chs := b.chs[k := d], submitted := b.submitted[k := events]), k);
  }

  lemma RemoveKeepsMirror<P>(b: Bench<P>, k: P, events: Mask)
    requires Mirror(b) && k in b.chs
    ensures var (q, d) := Removed(b.p, b.chs[k].(events := events));
            Mirror(b.(p := q, chs := b.chs[k := d]))
  {
    var ch := b.chs[k].(events := events);
    var (q, d) := Removed(b.p, ch);
    var r := b.(p := q, chs := b.chs[k := d]);
    assert MirrorOf(b, k);
    assert MirrorOf(r, k);
    OthersUnmoved(b, r, k);
  }

  lemma SilenceKeepsMirror<P>(b: Bench<P>, k: P, events: Mask)
    requires Mirror(b) && k in b.chs
    ensures Mirror(b.(chs := b.chs[k := b.chs[k].(events := events)]))
  {
    var r := b.(chs := b.chs[k := b.chs[k].(events := events)]);
    assert MirrorOf(b, k);
    assert MirrorOf(r, k);
    OthersUnmoved(b, r, k);
  }

  lemma MirrorStep<P>(b: Bench<P>, k: P, op: ChannelOp)
    requires Mirror(b) && k in b.chs
    ensures Mirror(Apply(b, k, op))
  {
    var events := NewEvents(b.chs[k].events, op);
    UpdateKeepsMirror(b, k, events);
    RemoveKeepsMirror(b, k, events);
    SilenceKeepsMirror(b, k, events);
  }

  /** After any sequence of channel operations: a channel is in the kernel set
      iff its index says so, under its own pointer and with the mask it last
      submitted; hasChannel agrees with the index; no epoll_ctl ever failed. */
  lemma {:induction false} MirrorAlways<P>(b: Bench<P>, script: seq<(P, ChannelOp)>)
    requires Blank(b)
    requires forall i :: 0 <= i < |script| ==> script[i].0 in b.chs
    ensures Mirror(Run(b, script))
  {
    if script != [] {
      var last := |script| - 1;
      MirrorAlways(b, script[..last]);
      MirrorStep(Run(b, script[..last]), script[last].0, script[last].1);
    }
  }

  /** disableAll leaves the kernel alone: whatever it watched, it still watches. */
  lemma DisableAllIsSilent<P>(b: Bench<P>, k: P)
    requires Mirror(b) && k in b.chs && b.chs[k].index == Added
    ensures var r := Apply(b, k, DisableAll);
            && r.p == b.p && IsNone(r.chs[k].events)
            && r.p.kernel[r.chs[k].fd] == Registration(b.submitted[k], k)
  {
  }

  /** An update that leaves nothing to ask for takes the fd out of the epoll set,
      but not out of the poller's map; any other puts its mask into the kernel. */
  lemma UpdateReaches<P>(b: Bench<P>, k: P, op: ChannelOp)
    requires Mirror(b) && k in b.chs && op != Remove && op != DisableAll
    ensures var (p, ch) := (Apply(b, k, op).p, Apply(b, k, op).chs[k]);
            && HasChannel(p, ch) && ch.events == NewEvents(b.chs[k].events, op)
            && (ch.events != 0 || b.chs[k].index != Added ==>
                  ch.index == Added && ch.fd in p.kernel && p.kernel[ch.fd] == Registration(ch.events, k))
            && (ch.events == 0 && b.chs[k].index == Added ==> ch.index == Deleted && ch.fd !in p.kernel)
  {
    var ch := b.chs[k].(events := NewEvents(b.chs[k].events, op));
    assert MirrorOf(b, k);
    UpdatedReaches(b.p, b.chs[k], ch.events);
    assert Apply(b, k, op).p == Updated(b.p, ch).0 && Apply(b, k, op).chs[k] == Updated(b.p, ch).1;
  }

  lemma UpdatedReaches<P>(p: PollerState<P>, ch: ChannelState<P>, events: Mask)
    requires ch.index == Added <==> ch.fd in p.kernel
    requires ch.index != New <==> HasChannel(p, ch)
    ensures var (q, d) := Updated(p, ch.(events := events));
            && HasChannel(q, d) && d.events == events && d.fd == ch.fd && d.self == ch.self
            && (events != 0 || ch.index != Added ==>
                  d.index == Added && ch.fd in q.kernel && q.kernel[ch.fd] == Registration(events, ch.self))
            && (events == 0 && ch.index == Added ==> d.index == Deleted && ch.fd !in q.kernel)
  {
  }

  /** The masks the four updates submit, bit by bit; the two that enable something
      never submit an empty one. */
  lemma SubmittedBits(m: Mask)
    ensures NewEvents(m, EnableWriting) & EPOLLOUT != 0 && NewEvents(m, EnableWriting) != 0
    ensures NewEvents(m, DisableWriting) & EPOLLOUT == 0
    ensures NewEvents(m, EnableReading) & EPOLLIN != 0 && NewEvents(m, EnableReading) & EPOLLPRI != 0
    ensures NewEvents(m, EnableReading) != 0
    ensures NewEvents(m, DisableReading) & EPOLLIN == 0 && NewEvents(m, DisableReading) & EPOLLPRI == 0
  {
    MaskBits(m);
    EnabledIsSomething(m);
  }

  lemma EnabledIsSomething(m: Mask)
    ensures WithReading(m) != 0 && WithWriting(m) != 0
  {
  }

  /** The bits an update does not name stay those of the channel's mask before. */
  lemma UpdatesKeepOtherBits(m: Mask, bit: Mask, op: ChannelOp)
    requires op == EnableWriting || op == DisableWriting ==> bit & EPOLLOUT == 0
    requires op == EnableReading || op == DisableReading ==> bit & (EPOLLIN | EPOLLPRI) == 0
    requires op != DisableAll
    ensures NewEvents(m, op) & bit == m & bit
  {
    if op == EnableWriting || op == DisableWriting { WritingKeepsBits(m, bit); }
    if op == EnableReading || op == DisableReading { ReadingKeepsBits(m, bit); }
  }

  /** disableAll forgets the mask and tells nobody; remove tells everybody and
      forgets nothing but the registration. */
  lemma TheOtherTwo<P>(b: Bench<P>, k: P)
    requires Mirror(b) && k in b.chs
    ensures var r := Apply(b, k, DisableAll); r.p == b.p && r.chs[k] == b.chs[k].(events := 0)
    ensures var r := Apply(b, k, Remove);
            && r.chs[k] == b.chs[k].(index := New)
            && r.chs[k].fd !in r.p.kernel && r.chs[k].fd !in r.p.channels && !HasChannel(r.p, r.chs[k])
  {
    assert MirrorOf(b, k);
    MirrorStep(b, k, Remove);
    assert MirrorOf(Apply(b, k, Remove), k);
  }
}
