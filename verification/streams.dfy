/** The byte streams the option layer hands around: a reader over a fixed
    byte sequence with a read position (`bytes.Reader`, `strings.Reader`, an
    open file), a write-closer that stores what it accepts, the payload
    variants a request may carry, and the log a progress callback sees. */
module Streams {
  import opened Wrappers

  newtype byte = b: int | 0 <= b < 256

  const ErrEOF: string := "EOF"
  const ErrNegativePosition: string := "bytes.Reader.Seek: negative position"
  const ErrClosed: string := "file already closed"
  const ErrShortWrite: string := "short write"

  function Min(a: int, b: int): int {
    if a <= b then a else b
  }

  /** `io.SeekStart`, `io.SeekCurrent`, `io.SeekEnd`. */
  datatype Whence = SeekStart | SeekCurrent | SeekEnd

  /** An `io.Reader` over `data`, positioned at `pos`; `seekable` says whether
      it also implements `io.Seeker`. The position may lie past the end, as
      `bytes.Reader` allows after a seek. */
  class Stream {
    const data: seq<byte>
    const seekable: bool
    /** How the reader ends: `Nothing` for a clean `io.EOF`, or the error it
        fails with, which comes back together with its last bytes (an
        `io.Reader` may return `n > 0` and an error in the same call). */
    const failure: Maybe<string>
    var pos: nat

    constructor (data: seq<byte>, seekable: bool, failure: Maybe<string>)
      ensures this.data == data && this.seekable == seekable && this.failure == failure && pos == 0
    {
      this.data := data;
      this.seekable := seekable;
      this.failure := failure;
      pos := 0;
    }

    /** The error a read at the end returns. */
    function EndError(): string
      reads this
    {
      if failure.Just? then failure.value else ErrEOF
    }

    /** What a read of at most `max` bytes returns from the current position:
        the bytes, with the failure when they are the last ones, and the end
        error once nothing is left. */
    function Next(max: nat): (r: (seq<byte>, Maybe<string>))
      reads this
      ensures pos >= |data| ==> r == ([], Just(EndError()))
      ensures pos < |data| ==> |r.0| == Min(max, |data| - pos) && r.0 == data[pos..pos + |r.0|]
      ensures pos < |data| ==> r.1 == (if pos + |r.0| == |data| then failure else Nothing)
    {
      if pos >= |data| then ([], Just(EndError()))
      else
        var n := Min(max, |data| - pos);
        (data[pos..pos + n], if pos + n == |data| then failure else Nothing)
    }

    /** `Read(p)` with `len(p) == max`. */
    method Read(max: nat) returns (chunk: seq<byte>, err: Maybe<string>)
      modifies this`pos
      ensures (chunk, err) == old(Next(max))
      ensures pos == old(pos) + |chunk|
      ensures |chunk| <= max
    {
      chunk, err := Next(max).0, Next(max).1;
      pos := pos + |chunk|;
    }

    /** `Seek(offset, whence)`: the new absolute position, or an error (and no
        move) when it would be negative. */
    method Seek(offset: int, whence: Whence) returns (r: Result<int>)
      requires seekable
      modifies this`pos
      ensures var abs := match whence
                         case SeekStart => offset
                         case SeekCurrent => old(pos) + offset
                         case SeekEnd => |data| + offset;
              if abs < 0 then r == Err(ErrNegativePosition) && pos == old(pos)
              else r == Ok(abs) && pos == abs
    {
      var abs := match whence
                 case SeekStart => offset
                 case SeekCurrent => pos + offset
                 case SeekEnd => |data| + offset;
      if abs < 0 {
        r := Err(ErrNegativePosition);
      } else {
        pos := abs;
        r := Ok(abs);
      }
    }
  }

  /** An `io.WriteCloser` with room for `capacity` bytes (a file on a device
      that fills up): it keeps what it accepts, writes short with an error
      when full and refuses writes once closed. */
  class Sink {
    const capacity: nat
    var contents: seq<byte>
    var closed: bool

    constructor (capacity: nat)
      ensures this.capacity == capacity && contents == [] && !closed
    {
      this.capacity := capacity;
      contents := [];
      closed := false;
    }

    predicate Valid()
      reads this
    {
      |contents| <= capacity
    }

    /** The `(n, err)` a write of `p` returns in the current state. */
    function Accepts(p: seq<byte>): (r: (nat, Maybe<string>))
      reads this
      requires Valid()
      ensures r.0 <= |p|
      ensures r.1 == Nothing <==> r.0 == |p| && !closed
    {
      if closed then (0, Just(ErrClosed))
      else
        var n := Min(|p|, capacity - |contents|);
        (n, if n < |p| then Just(ErrShortWrite) else Nothing)
    }

    method Write(p: seq<byte>) returns (n: nat, err: Maybe<string>)
      requires Valid()
      modifies this`contents
      ensures Valid()
      ensures (n, err) == old(Accepts(p))
      ensures contents == old(contents) + p[..n]
    {
      n, err := Accepts(p).0, Accepts(p).1;
      contents := contents + p[..n];
    }

    method Close() returns (err: Maybe<string>)
      modifies this`closed
      ensures closed
      ensures err == if old(closed) then Just(ErrClosed) else Nothing
    {
      err := if closed then Just(ErrClosed) else Nothing;
      closed := true;
    }
  }

  /** The dynamic types a request payload may have: nil, `[]byte`, a string
      (its UTF-8 bytes), an `io.Reader`, or anything else (named by its type). */
  datatype Payload =
    | NilPayload
    | ByteSlice(bytes: seq<byte>)
    | Text(utf8: seq<byte>)
    | ReaderPayload(stream: Stream)
    | Unsupported(typeName: string)
  {
    /** The objects a payload reader may move. */
    function Streams(): set<object> {
      if ReaderPayload? then {stream} else {}
    }
  }

  /** The reader a payload becomes: none, a fresh reader over the given
      bytes, or the caller's own reader passed through. */
  datatype Source = NoSource | FreshReader(bytes: seq<byte>) | GivenReader(stream: Stream)

  /** One progress callback: `(current, total)`. */
  datatype Report = Report(current: int, total: int)

  /** The callback log of a counter that has reached `count` out of `total`:
      reported counts strictly increase, every report carries `total`, and
      the last one is the count itself. */
  ghost predicate ProgressLog(reports: seq<Report>, count: nat, total: int) {
    && (forall i, j :: 0 <= i < j < |reports| ==> reports[i].current < reports[j].current)
    && (forall i :: 0 <= i < |reports| ==> reports[i].total == total && 0 < reports[i].current <= count)
    && (reports != [] ==> reports[|reports| - 1].current == count)
  }

  /** The log of a counter whose callback is set (`callback`) or nil: with a
      callback there is a report as soon as anything has been counted; with
      none there is never a report. */
  ghost predicate CallbackLog(reports: seq<Report>, count: nat, total: int, callback: bool) {
    && ProgressLog(reports, count, total)
    && (if callback then (reports == [] <==> count == 0) else reports == [])
  }

  /** The step every progress decorator takes after a transfer of `n`
      bytes: count them, and report the new count when `n > 0` and there is
      a callback. It keeps the log well formed. */
  lemma CallbackLogExtends(reports: seq<Report>, count: nat, total: int, n: nat, callback: bool)
    requires CallbackLog(reports, count, total, callback)
    ensures CallbackLog(if n > 0 && callback then reports + [Report(count + n, total)] else reports,
                        count + n, total, callback)
  {
  }
}
