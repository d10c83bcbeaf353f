/** options/progress.go: the older pair of progress decorators, with no
    redirect clones and no locking. */
module Progress {
  import opened Wrappers
  import opened Streams
  import ProgressWriters

  /** `progressReader`. */
  class ProgressReader {
    const reader: Stream
    const total: int
    var read: nat
    const onProgress: Maybe<Handle>
    ghost var reports: seq<Report>

    ghost predicate Valid()
      reads this
    {
      CallbackLog(reports, read, total, onProgress.Just?)
    }

    /** `ProgressReader(reader, total, onProgress)`. */
    constructor (reader: Stream, total: int, onProgress: Maybe<Handle>)
      ensures this.reader == reader && this.total == total && this.onProgress == onProgress
      ensures read == 0 && reports == [] && Valid()
    {
      this.reader := reader;
      this.total := total;
      this.onProgress := onProgress;
      read := 0;
      reports := [];
    }

    /** `Read(p)` with `len(p) == max`: the wrapped reader's result,
        unchanged; the counter grows by the bytes read and a non-empty read
        is reported with the new count and the total. */
    method Read(max: nat) returns (chunk: seq<byte>, err: Maybe<string>)
      requires Valid()
      modifies this, reader`pos
      ensures Valid()
      ensures (chunk, err) == old(reader.Next(max))
      ensures reader.pos == old(reader.pos) + |chunk|
      ensures read == old(read) + |chunk|
      ensures reports == if |chunk| > 0 && onProgress.Just? then old(reports) + [Report(read, total)] else old(reports)
    {
      chunk, err := reader.Read(max);
      Count(|chunk|);
    }

    /** The step after a transfer of `n` bytes: count them, and report the
        new count when `n > 0` and there is a callback. */
    method Count(n: nat)
      requires CallbackLog(reports, read, total, onProgress.Just?)
      modifies this`read, this`reports
      ensures read == old(read) + n
      ensures reports == if n > 0 && onProgress.Just? then old(reports) + [Report(read, total)] else old(reports)
      ensures CallbackLog(reports, read, total, onProgress.Just?)
    {
      CallbackLogExtends(reports, read, total, n, onProgress.Just?);
      if n > 0 {
        read := read + n;
        if onProgress.Just? {
          reports := reports + [Report(read, total)];
        }
      }
    }
  }

  /** `progressWriter`. */
  class ProgressWriter {
    const writer: Sink
    const total: int
    var written: nat
    const onProgress: Maybe<Handle>
    ghost var results: seq<nat>
    ghost var reports: seq<Report>

    ghost predicate Valid()
      reads this, writer
    {
      && writer.Valid()
      && written == ProgressWriters.Sum(results)
      && CallbackLog(reports, written, total, onProgress.Just?)
    }

    /** `ProgressWriter(writer, total, onProgress)`. */
    constructor (writer: Sink, total: int, onProgress: Maybe<Handle>)
      requires writer.Valid()
      ensures this.writer == writer && this.total == total && this.onProgress == onProgress
      ensures written == 0 && results == [] && reports == [] && Valid()
    {
      this.writer := writer;
      this.total := total;
      this.onProgress := onProgress;
      written := 0;
      results := [];
      reports := [];
    }

    /** `Write(p)`: the same counting and reporting rules as the reader. */
    method Write(p: seq<byte>) returns (n: nat, err: Maybe<string>)
      requires Valid()
      modifies this, writer`contents
      ensures Valid()
      ensures (n, err) == old(writer.Accepts(p))
      ensures writer.contents == old(writer.contents) + p[..n]
      ensures written == old(written) + n && results == old(results) + [n]
      ensures reports == if n > 0 && onProgress.Just? then old(reports) + [Report(written, total)] else old(reports)
    {
      ghost var accepted := writer.Accepts(p);
      n, err := writer.Write(p);
      assert (n, err) == accepted && writer.Valid();
      ProgressWriters.SumAppend(results, n);
      results := results + [n];
      Count(n);
    }

    /** The step after a transfer of `n` bytes: count them, and report the
        new count when `n > 0` and there is a callback. */
    method Count(n: nat)
      requires CallbackLog(reports, written, total, onProgress.Just?)
      modifies this`written, this`reports
      ensures written == old(written) + n
      ensures reports == if n > 0 && onProgress.Just? then old(reports) + [Report(written, total)] else old(reports)
      ensures CallbackLog(reports, written, total, onProgress.Just?)
    {
      CallbackLogExtends(reports, written, total, n, onProgress.Just?);
      if n > 0 {
        written := written + n;
        if onProgress.Just? {
          reports := reports + [Report(written, total)];
        }
      }
    }

    /** `Close`: delegates to the wrapped writer. */
    method Close() returns (err: Maybe<string>)
      requires Valid()
      modifies writer`closed
      ensures Valid()
      ensures err == if old(writer.closed) then Just(ErrClosed) else Nothing
      ensures writer.closed
    {
      err := writer.Close();
    }
  }
}
