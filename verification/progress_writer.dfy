/** options/progress_writer.go: a write-closer decorator that counts the
    bytes the wrapped writer accepts and reports every step to a callback. */
module ProgressWriters {
  import opened Wrappers
  import opened Streams

  /** The sum of the byte counts the wrapped writer has returned. */
  function Sum(ns: seq<nat>): nat {
    if ns == [] then 0 else Sum(ns[..|ns| - 1]) + ns[|ns| - 1]
  }

  lemma SumAppend(ns: seq<nat>, n: nat)
    ensures Sum(ns + [n]) == Sum(ns) + n
  {
    assert (ns + [n])[..|ns|] == ns;
  }

  /** `progressWriter`. */
  class ProgressWriter {
    const writer: Sink
    const total: int
    /** The atomic counter. */
    var written: nat
    const onProgress: Maybe<Handle>
    /** The `n` of every write, in order. */
    ghost var results: seq<nat>
    /** The calls made to `onProgress`, in order. */
    ghost var reports: seq<Report>

    /** The counter is the sum of what the wrapped writer returned, and the
        log is well formed. */
    ghost predicate Valid()
      reads this, writer
    {
      && writer.Valid()
      && written == Sum(results)
      && CallbackLog(reports, written, total, onProgress.Just?)
    }

    /** `ProgressWriter(writer, total, onProgress)`. */
    constructor (writer: Sink, total: int, onProgress: Maybe<Handle>)
      requires writer.Valid()
      ensures this.writer == writer && this.total == total && this.onProgress == onProgress
      ensures written == 0 && results == [] && reports == []
      ensures Valid()
    {
      this.writer := writer;
      this.total := total;
      this.onProgress := onProgress;
      written := 0;
      results := [];
      reports := [];
    }

    /** `Write(p)`: `p` goes to the wrapped writer unchanged and its `(n, err)`
        comes back unchanged; the counter grows by exactly `n`, and a write
        with `n > 0` is reported with the new count and the total. */
    method Write(p: seq<byte>) returns (n: nat, err: Maybe<string>)
      requires Valid()
      modifies this, writer`contents
      ensures Valid()
      ensures (n, err) == old(writer.Accepts(p))
      ensures writer.contents == old(writer.contents) + p[..n]
      ensures written == old(written) + n
      ensures results == old(results) + [n]
      ensures reports == if n > 0 && onProgress.Just? then old(reports) + [Report(written, total)] else old(reports)
    {
      ghost var accepted := writer.Accepts(p);
      n, err := writer.Write(p);
      assert (n, err) == accepted && writer.Valid();
      SumAppend(results, n);
      results := results + [n];
      Count(n);
    }

    /** The step after a transfer of `n` bytes: count them, and report the
        new count when `n > 0` and there is a callback. */
    method Count(n: nat)
      requires CallbackLog(reports, written, total, onProgress.Just?)
      modifies this`written, this`reports
      ensures written == old(written) + n
      ensures reports == if n > 0 && onProgress.Just? then old(reports) + [Report(written, total)] else old(reports)
      ensures CallbackLog(reports, written, total, onProgress.Just?)
    {
      CallbackLogExtends(reports, written, total, n, onProgress.Just?);
      if n > 0 {
        written := written + n;
        if onProgress.Just? {
          reports := reports + [Report(written, total)];
        }
      }
    }

    /** `Close`: the wrapped writer's `Close` and its error; the counter is
        left alone. */
    method Close() returns (err: Maybe<string>)
      requires Valid()
      modifies writer`closed
      ensures Valid()
      ensures err == if old(writer.closed) then Just(ErrClosed) else Nothing
      ensures writer.closed
    {
      err := writer.Close();
    }
  }
}
