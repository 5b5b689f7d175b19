/** The growable byte queue of include/Buffer.h and src/Buffer.cc. */
module Buffers {
  import opened Posix

  const CHEAP_PREPEND: nat := 8
  const INITIAL_SIZE: nat := 1024
  const EXTRA_SIZE: nat := 65536

  /** The three numbers that decide every branch of the buffer. */
  datatype Layout = Layout(size: nat, reader: nat, writer: nat) {

    ghost predicate Ok() {
      && CHEAP_PREPEND <= reader <= writer <= size
      && CHEAP_PREPEND + INITIAL_SIZE <= size
      && (reader == writer ==> reader == CHEAP_PREPEND)
    }

    function Readable(): nat
      requires reader <= writer
    {
      writer - reader
    }

    function Writable(): nat
      requires writer <= size
    {
      size - writer
    }
  }

  const FRESH_LAYOUT: Layout :=
    Layout(CHEAP_PREPEND + INITIAL_SIZE, CHEAP_PREPEND, CHEAP_PREPEND)

  function MakeSpaceLayout(l: Layout, len: nat): Layout
    requires l.reader <= l.writer <= l.size
  {
    if l.reader + l.Writable() < len + CHEAP_PREPEND then
      l.(size := l.writer + len)
    else
      l.(reader := CHEAP_PREPEND, writer := CHEAP_PREPEND + l.Readable())
  }

  function EnsureLayout(l: Layout, len: nat): Layout
    requires l.reader <= l.writer <= l.size
  {
    if l.Writable() < len then MakeSpaceLayout(l, len) else l
  }

  function AppendLayout(l: Layout, len: nat): Layout
    requires l.reader <= l.writer <= l.size
  {
    var e := EnsureLayout(l, len);
    e.(writer := e.writer + len)
  }

  function RetrieveLayout(l: Layout, len: nat): Layout
    requires l.reader <= l.writer
  {
    if len < l.Readable() then l.(reader := l.reader + len)
    else l.(reader := CHEAP_PREPEND, writer := CHEAP_PREPEND)
  }

  /** How much the iovec handed to `readv` can take: the free tail, and the
      stack area only when that tail is smaller than the stack area. */
  function ReadCapacity(l: Layout): nat
    requires l.writer <= l.size
  {
    if l.Writable() < EXTRA_SIZE then l.Writable() + EXTRA_SIZE else l.Writable()
  }

  function ReadLayout(l: Layout, n: nat): Layout
    requires l.reader <= l.writer <= l.size
  {
    if n <= l.Writable() then l.(writer := l.writer + n)
    else AppendLayout(l.(writer := l.size), n - l.Writable())
  }

  /** Space is made only when the tail is too small, and then by sliding down if
      what is readable and what is to come fit behind the prepend area, by growing
      to the last byte needed if they do not. Nothing readable is given up. */
  lemma SpaceIsMadeWhenNeeded(l: Layout, len: nat)
    requires l.Ok()
    ensures var e := EnsureLayout(l, len);
            && len <= e.Writable() && e.Readable() == l.Readable() && l.size <= e.size
            && (e == l <==> len <= l.Writable())
            && (e.size > l.size <==> l.Readable() + len > l.size - 8)
            && (e.size > l.size ==> e.reader == l.reader && e.Writable() == len)
            && (e.size == l.size && e != l ==> e.reader == 8)
  {
  }

  /** A read can always deliver 64K, and no more than that beyond the free tail. */
  lemma ReadCapacityLaw(l: Layout)
    requires l.Ok()
    ensures 65536 <= ReadCapacity(l) && l.Writable() <= ReadCapacity(l) <= l.Writable() + 65536
    ensures ReadCapacity(l) == l.Writable() <==> l.Writable() >= 65536
    ensures ReadCapacity(l) > l.Writable() ==> ReadCapacity(l) == l.Writable() + 65536
  {
  }

  // ---------------------------------------------------------------- runs

  datatype Op = AppendOp(len: nat) | RetrieveOp(len: nat) | ReadOp(len: nat)

  function Step(l: Layout, op: Op): Layout
    requires l.reader <= l.writer <= l.size
  {
    match op
    case AppendOp(n) => AppendLayout(l, n)
    case RetrieveOp(n) => RetrieveLayout(l, n)
    case ReadOp(n) => ReadLayout(l, n)
  }

  /** The layout of a new buffer after a sequence of operations. */
  function Run(ops: seq<Op>): (l: Layout)
    ensures l.Ok()
  {
    if ops == [] then FRESH_LAYOUT else Step(Run(ops[..|ops| - 1]), ops[|ops| - 1])
  }

  /** The largest contents held at any point of that sequence. */
  function Peak(ops: seq<Op>): nat {
    if ops == [] then 0 else Max(Peak(ops[..|ops| - 1]), Run(ops).Readable())
  }

  /** Growth happens only when reclaimed plus free space is too small, so the
      contents no longer fit the initial space, and the new size is at most twice
      the new contents plus six. */
  predicate Grown(a: Layout)
    requires a.reader <= a.writer
  {
    a.Readable() > INITIAL_SIZE && a.size <= 2 * a.Readable() + 6
  }

  lemma AppendGrowth(l: Layout, len: nat)
    requires l.Ok()
    ensures var a := AppendLayout(l, len); a.Readable() == l.Readable() + len && (a.size == l.size || Grown(a))
  {
  }

  lemma ReadGrowth(l: Layout, n: nat)
    requires l.Ok()
    ensures var a := ReadLayout(l, n); a.Readable() == l.Readable() + n && (a.size == l.size || Grown(a))
  {
    if n > l.Writable() {
      AppendGrowth(l.(writer := l.size), n - l.Writable());
    }
  }

  /** The largest allocation that contents of at most `peak` bytes can lead to. */
  function Ceiling(peak: nat): nat {
    if peak <= INITIAL_SIZE then CHEAP_PREPEND + INITIAL_SIZE else 2 * peak + 6
  }

  /** Over any sequence of operations the allocation stays at its initial 1032
      bytes as long as the contents have never exceeded 1024, and within twice the
      largest contents ever held plus six from then on. */
  lemma {:induction false} CapacityBound(ops: seq<Op>)
    ensures Run(ops).size <= Ceiling(Peak(ops))
  {
    if ops != [] {
      var before, op := ops[..|ops| - 1], ops[|ops| - 1];
      CapacityBound(before);
      match op
      case AppendOp(n) => AppendGrowth(Run(before), n);
      case ReadOp(n) => ReadGrowth(Run(before), n);
      case RetrieveOp(n) =>
    }
  }

  lemma RunSnoc(ops: seq<Op>, op: Op)
    ensures Run(ops + [op]) == Step(Run(ops), op)
    ensures Peak(ops + [op]) == Max(Peak(ops), Step(Run(ops), op).Readable())
  {
    assert (ops + [op])[..|ops|] == ops;
  }

  /** Every ceiling is reached, so none can be lowered: up to 1024 bytes by one
      append; beyond, fill the buffer to one byte less, leave one, append again. */
  lemma CapacityBoundTight(peak: nat) returns (ops: seq<Op>)
    ensures Peak(ops) == peak && Run(ops).size == Ceiling(peak)
  {
    if peak <= INITIAL_SIZE {
      RunSnoc([], AppendOp(peak));
      ops := [] + [AppendOp(peak)];
    } else {
      var fill, drain := AppendOp(peak - 1), RetrieveOp(peak - 2);
      RunSnoc([], fill);
      assert Run([] + [fill]) == Layout(peak + 7, 8, peak + 7);
      RunSnoc([] + [fill], drain);
      assert Run([] + [fill] + [drain]) == Layout(peak + 7, peak + 6, peak + 7);
      RunSnoc([] + [fill] + [drain], fill);
      ops := [] + [fill] + [drain] + [fill];
    }
  }

  // --------------------------------------------------------------- class

  class Buffer {
    var data: array<Byte>
    var reader: nat
    var writer: nat

    function Shape(): Layout
      reads this
    {
      Layout(data.Length, reader, writer)
    }

    ghost predicate Valid()
      reads this
    {
      Shape().Ok()
    }

    /** The queue the buffer stands for. */
    ghost function Contents(): Bytes
      requires Valid()
      reads this, data
    {
      data[reader..writer]
    }

    /** The size argument is accepted and ignored, as in the source. */
    constructor (initialSize: nat)
      ensures Valid() && Contents() == [] && Shape() == FRESH_LAYOUT == Layout(1032, 8, 8) && fresh(data)
    {
      data := new Byte[CHEAP_PREPEND + INITIAL_SIZE](_ => 0);
      reader := CHEAP_PREPEND;
      writer := CHEAP_PREPEND;
    }

    method ReadableBytes() returns (n: nat)
      requires Valid()
      ensures n == |Contents()|
    {
      n := writer - reader;
    }

    method Retrieve(len: nat)
      requires Valid()
      modifies this
      ensures Valid() && data == old(data)
      ensures Shape() == RetrieveLayout(old(Shape()), len)
      ensures Contents() == if len < |old(Contents())| then old(Contents())[len..] else []
    {
      if len < writer - reader {
        reader := reader + len;
      } else {
        RetrieveAll();
      }
    }

    method RetrieveAll()
      requires Valid()
      modifies this
      ensures Valid() && data == old(data)
      ensures Shape() == FRESH_LAYOUT.(size := old(Shape()).size)
      ensures Contents() == []
    {
      reader := CHEAP_PREPEND;
      writer := CHEAP_PREPEND;
    }

    method RetrieveAllAsString() returns (s: Bytes)
      requires Valid()
      modifies this
      ensures Valid() && data == old(data)
      ensures s == old(Contents()) && Contents() == []
      ensures Shape() == FRESH_LAYOUT.(size := old(Shape()).size)
    {
      var n := ReadableBytes();
      s := RetrieveAsString(n);
    }

    /** The source copies `len` bytes from the reader on without comparing them with
        what is readable; it only must not run past the allocation. */
    method RetrieveAsString(len: nat) returns (s: Bytes)
      requires Valid() && len <= |Contents()| + Shape().Writable()
      modifies this
      ensures Valid() && data == old(data) && |s| == len
      ensures len <= |old(Contents())| ==> s + Contents() == old(Contents())
      ensures len > |old(Contents())| ==> old(Contents()) <= s && Contents() == []
      ensures Shape() == RetrieveLayout(old(Shape()), len)
    {
      s := data[reader..reader + len];
      ghost var was := Contents();
      if len <= |was| {
        assert s == was[..len] && was == was[..len] + was[len..];
      } else {
        assert s[..|was|] == was;
      }
      Retrieve(len);
    }

    method EnsureWritableBytes(len: nat)
      requires Valid()
      modifies this, data
      ensures Valid() && (data == old(data) || fresh(data))
      ensures Contents() == old(Contents()) && len <= Shape().Writable()
      ensures Shape() == EnsureLayout(old(Shape()), len)
    {
      if data.Length - writer < len {
        MakeSpace(len);
      }
    }

    method MakeSpace(len: nat)
      requires Valid() && Shape().Writable() < len
      modifies this, data
      ensures Valid() && (data == old(data) || fresh(data))
      ensures Contents() == old(Contents()) && len <= Shape().Writable()
      ensures Shape() == MakeSpaceLayout(old(Shape()), len)
    {
      if reader + (data.Length - writer) < len + CHEAP_PREPEND {
        Resize(writer + len);
      } else {
        SlideDown();
        assert writer - reader == |Contents()| == old(writer - reader);
      }
    }

    /** Compaction in place by an upward copy. The destination must lie strictly
        below the source, which is what std::copy asks for (section 28.6.1 of
        C++17) and what the branch taken in MakeSpace guarantees. */
    method SlideDown()
      requires Valid() && CHEAP_PREPEND < reader
      modifies this, data
      ensures Valid() && data == old(data) && Contents() == old(Contents())
      ensures reader == CHEAP_PREPEND
    {
      var readable := writer - reader;
      ghost var was := data[..];
      var i := 0;
      while i < readable
        modifies data
        invariant 0 <= i <= readable
        invariant data[CHEAP_PREPEND..CHEAP_PREPEND + i] == was[reader..reader + i]
        invariant forall k :: CHEAP_PREPEND + i <= k < data.Length ==> data[k] == was[k]
      {
        data[CHEAP_PREPEND + i] := data[reader + i];
        i := i + 1;
      }
      reader := CHEAP_PREPEND;
      writer := reader + readable;
      assert data[reader..writer] == was[old(reader)..old(writer)];
    }

    /** std::vector::resize to a larger size: old elements kept, new ones zero. */
    method Resize(size: nat)
      requires Valid() && data.Length <= size
      modifies this`data
      ensures Valid() && fresh(data) && data.Length == size
      ensures data[..old(data.Length)] == old(data[..]) && Contents() == old(Contents())
    {
      var bigger := new Byte[size](_ => 0);
      forall i | 0 <= i < data.Length {
        bigger[i] := data[i];
      }
      assert bigger[reader..writer] == data[reader..writer];
      data := bigger;
    }

    method Append(bytes: Bytes)
      requires Valid()
      modifies this, data
      ensures Valid() && (data == old(data) || fresh(data))
      ensures Contents() == old(Contents()) + bytes
      ensures Shape() == AppendLayout(old(Shape()), |bytes|)
    {
      EnsureWritableBytes(|bytes|);
      FillTail(bytes);
    }

    /** std::copy to beginWrite(), then the writer moves past the copy. */
    method FillTail(bytes: Bytes)
      requires Valid() && |bytes| <= Shape().Writable()
      modifies this`writer, data
      ensures Valid() && Contents() == old(Contents()) + bytes
      ensures Shape() == old(Shape()).(writer := old(writer) + |bytes|)
    {
      var i := 0;
      while i < |bytes|
        modifies data
        invariant 0 <= i <= |bytes|
        invariant data[writer..writer + i] == bytes[..i]
        invariant data[reader..writer] == old(data[reader..writer])
      {
        data[writer + i] := bytes[i];
        i := i + 1;
      }
      ghost var before, tail := data[reader..writer], data[writer..writer + i];
      writer := writer + |bytes|;
      assert data[reader..writer] == before + tail;
    }

    /** Scatter read. The kernel never delivers more than the iovec holds. */
    method ReadFd(o: ReadOutcome) returns (n: int, savedErrno: Option<Errno>)
      requires Valid()
      requires o.ReadBytes? ==> |o.data| <= ReadCapacity(Shape())
      modifies this, data
      ensures Valid() && (data == old(data) || fresh(data))
      ensures o.ReadFailed? ==>
                n == -1 && savedErrno == Some(o.errno) && Shape() == old(Shape()) && Contents() == old(Contents())
      ensures o.ReadBytes? ==>
                && n == |o.data| && savedErrno == None
                && Contents() == old(Contents()) + o.data
                && Shape() == ReadLayout(old(Shape()), |o.data|)
    {
      match o {
        case ReadFailed(e) =>
          n, savedErrno := -1, Some(e);
        case ReadBytes(bytes) =>
          n, savedErrno := |bytes|, None;
          var writable := data.Length - writer;
          if n <= writable {
            FillTail(bytes);
          } else {
            FillAndAppend(bytes, writable);
          }
      }
    }

    /** The read overran the free tail: fill it, then append the rest from the
        stack area, which may slide or grow the buffer. */
    method FillAndAppend(bytes: Bytes, writable: nat)
      requires Valid() && writable == Shape().Writable() < |bytes| <= writable + EXTRA_SIZE
      modifies this, data
      ensures Valid() && (data == old(data) || fresh(data))
      ensures Contents() == old(Contents()) + bytes
      ensures Shape() == ReadLayout(old(Shape()), |bytes|)
    {
      var extrabuf := Overflow(bytes, writable);
      var overflow := extrabuf[..|bytes| - writable];
      assert bytes == bytes[..writable] + overflow;
      FillTail(bytes[..writable]);
      Append(overflow);
    }

    /** The second iovec entry: the stack area, zeroed, then holding the bytes
        that did not fit the free tail. It is never asked for more than it has. */
    static method Overflow(bytes: Bytes, writable: nat) returns (extrabuf: array<Byte>)
      requires writable < |bytes| <= writable + EXTRA_SIZE
      ensures fresh(extrabuf) && extrabuf.Length == EXTRA_SIZE
      ensures extrabuf[..|bytes| - writable] == bytes[writable..]
    {
      extrabuf := new Byte[EXTRA_SIZE](_ => 0);
      var n := |bytes| - writable;
      forall i | 0 <= i < n {
        extrabuf[i] := bytes[writable + i];
      }
      assert extrabuf[..n] == bytes[writable..];
    }

    /** Offers the whole readable region to `write`. Nothing is consumed here:
        the caller retrieves what the kernel took. */
    method WriteFd(o: WriteOutcome) returns (n: int, savedErrno: Option<Errno>, ghost taken: Bytes)
      requires Valid() && WriteLegal(o, |Contents()|)
      ensures n == o.n && (savedErrno.Some? <==> n < 0)
      ensures taken == Contents()[..Taken(o)]
    {
      taken := data[reader..writer][..Taken(o)];
      n := o.n;
      savedErrno := if n < 0 then Some(o.errno) else None;
    }
  }
}
