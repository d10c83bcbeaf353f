/** options/progress_reader.go: a reader decorator that counts the bytes
    read through it and reports every step to a callback. A clone made for a
    redirect hop delegates to the original reader, so progress keeps
    accumulating across hops. */
module ProgressReaders {
  import opened Wrappers
  import opened Streams

  class ProgressReader {
    /** The wrapped reader; a redirect clone has none. */
    const reader: Stream?
    const total: int
    /** The atomic counter. */
    var read: nat
    const onProgress: Maybe<Handle>
    const isRedirect: bool
    const parent: ProgressReader?
    /** The calls made to `onProgress`, in order. */
    ghost var reports: seq<Report>
    /** The wrapped reader's position when the decorator was made. */
    ghost const start: nat

    /** The reader that does the counting: the parent of a redirect clone,
        the reader itself otherwise. */
    function Root(): ProgressReader {
      if isRedirect && parent != null then parent else this
    }

    /** A reader made by `NewProgressReader` wraps a reader; a clone has a
        parent that is such a reader (never a clone) with the same total, and
        keeps its own counter at 0. The counting reader's log is well formed. */
    ghost predicate Valid()
      reads this, parent
    {
      && (isRedirect ==>
            && parent != null && !parent.isRedirect && parent.parent == null && parent.reader != null
            && parent.total == total && read == 0 && reports == [])
      && (!isRedirect ==> reader != null && parent == null)
      && CallbackLog(Root().reports, Root().read, Root().total, Root().onProgress.Just?)
    }

    /** The counter has seen exactly the bytes the wrapped reader has moved
        past since the decorator was made. */
    ghost predicate Tracks()
      reads this, parent, Root().reader
    {
      Root().reader != null && Root().read + Root().start == Root().reader.pos
    }

    /** `NewProgressReader(reader, total, onProgress)`. */
    constructor New(reader: Stream, total: int, onProgress: Maybe<Handle>)
      ensures this.reader == reader && this.total == total && this.onProgress == onProgress
      ensures !isRedirect && parent == null && read == 0 && reports == []
      ensures Valid() && Tracks()
    {
      this.reader := reader;
      this.total := total;
      this.onProgress := onProgress;
      isRedirect := false;
      parent := null;
      read := 0;
      reports := [];
      start := reader.pos;
    }

    /** The struct literal `CloneForRedirect` builds. */
    constructor Redirect(parent: ProgressReader, total: int, onProgress: Maybe<Handle>)
      ensures this.parent == parent && this.total == total && this.onProgress == onProgress
      ensures isRedirect && reader == null && read == 0 && reports == []
    {
      this.parent := parent;
      this.total := total;
      this.onProgress := onProgress;
      isRedirect := true;
      reader := null;
      read := 0;
      reports := [];
      start := 0;
    }

    /** `GetProgress`: a clone answers with its parent's count. The source
        asks the parent recursively; the parent of a valid clone is never a
        clone, so one step reaches the counting reader. */
    function GetProgress(): (n: nat)
      reads this, parent
      ensures n == Root().read
      ensures Valid() && isRedirect ==> n == parent.read && !parent.isRedirect
    {
      if isRedirect && parent != null then parent.read else read
    }

    /** `CloneForRedirect`: a new clone of the counting reader, whoever is
        asked; it shares that reader's total, callback and progress. */
    method CloneForRedirect() returns (c: ProgressReader)
      requires Valid()
      ensures fresh(c) && c.Valid() && c.isRedirect
      ensures c.Root() == Root() && c.total == total && c.onProgress == Root().onProgress
      ensures c.GetProgress() == GetProgress() && c.read == 0
    {
      if isRedirect {
        c := new ProgressReader.Redirect(parent, total, parent.onProgress);
      } else {
        c := new ProgressReader.Redirect(this, total, onProgress);
      }
    }

    /** `Read(p)` with `len(p) == max`: the wrapped reader's bytes and error,
        unchanged; the counting reader's counter grows by exactly the bytes
        read, and a non-empty read is reported to the callback with the new
        count and the total. */
    method Read(max: nat) returns (chunk: seq<byte>, err: Maybe<string>)
      requires Valid()
      modifies Root(), Root().reader
      decreases if isRedirect then 1 else 0
      ensures Valid()
      ensures (chunk, err) == old(Root().reader.Next(max))
      ensures |chunk| <= max
      ensures GetProgress() == old(GetProgress()) + |chunk|
      ensures Root().read == old(Root().read) + |chunk|
      ensures Root().reports ==
                if |chunk| > 0 && Root().onProgress.Just? then old(Root().reports) + [Report(Root().read, total)]
                else old(Root().reports)
      ensures old(Tracks()) ==> Tracks()
    {
      if isRedirect && parent != null {
        chunk, err := parent.Read(max);
        return;
      }
      chunk, err := reader.Read(max);
      Count(|chunk|);
    }

    /** The step after a transfer of `n` bytes: count them, and report the
        new count when `n > 0` and there is a callback. */
    method Count(n: nat)
      requires CallbackLog(reports, read, total, onProgress.Just?)
      modifies this`read, this`reports
      ensures read == old(read) + n
      ensures reports == if n > 0 && onProgress.Just? then old(reports) + [Report(read, total)] else old(reports)
      ensures CallbackLog(reports, read, total, onProgress.Just?)
    {
      CallbackLogExtends(reports, read, total, n, onProgress.Just?);
      if n > 0 {
        read := read + n;
        if onProgress.Just? {
          reports := reports + [Report(read, total)];
        }
      }
    }
  }

  /** The test that uploads a file of known size: once the wrapped reader
      has been read to its end, the last report the callback saw says the
      whole total has been read. */
  lemma ReadToEndReportsTotal(pr: ProgressReader)
    requires pr.Valid() && pr.Tracks()
    requires pr.Root().onProgress.Just? && pr.total > 0
    requires pr.total == |pr.Root().reader.data| - pr.Root().start
    requires pr.Root().reader.pos == |pr.Root().reader.data|
    ensures pr.Root().reports != []
    ensures pr.Root().reports[|pr.Root().reports| - 1] == Report(pr.total, pr.total)
  {
  }
}
