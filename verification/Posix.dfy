/** What the kernel may answer. Every system call is a nondeterministic
    outcome handed to the code, limited only by the axioms stated here. */
module Posix {

  newtype Byte = x: int | 0 <= x < 256

  type Bytes = seq<Byte>

  datatype Option<+T> = None | Some(value: T)

  /** The errno values the library tells apart. */
  datatype Errno = EWouldBlock | EPipe | EConnReset | EOther

  /** Result of `readv`: the bytes delivered (none at end of stream) or -1. */
  datatype ReadOutcome = ReadBytes(data: Bytes) | ReadFailed(errno: Errno)

  /** Result of `write`: the return value and the value errno has afterwards,
      which is stale whenever the return value is not -1. */
  datatype WriteOutcome = WriteOutcome(n: int, errno: Errno)

  /** `write` transfers at most the bytes it was offered. */
  predicate WriteLegal(o: WriteOutcome, offered: nat) {
    -1 <= o.n <= offered
  }

  /** SIGPIPE or a reset: the errors that make sendInLoop drop its message. */
  predicate IsFault(o: WriteOutcome) {
    o.n <= 0 && (o.errno == EPipe || o.errno == EConnReset)
  }

  /** Bytes the kernel took, 0 for an error. */
  function Taken(o: WriteOutcome): nat {
    if o.n > 0 then o.n else 0
  }

  function Max(a: nat, b: nat): nat {
    if a < b then b else a
  }
}
