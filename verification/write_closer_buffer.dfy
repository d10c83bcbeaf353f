/** `WriteCloserBuffer` of options/write_closer_buffer.go: the in-memory
    response sink, a `bytes.Buffer` behind a pointer that may be nil, with a
    `Close` that does nothing. */
module WriteCloserBuffers {
  import opened Wrappers
  import opened Streams

  class WriteCloserBuffer {
    /** The embedded `*bytes.Buffer` is non-nil. */
    var hasBuffer: bool
    var contents: seq<byte>

    /** `&WriteCloserBuffer{Buffer: &bytes.Buffer{}}`. */
    constructor ()
      ensures hasBuffer && contents == []
    {
      hasBuffer := true;
      contents := [];
    }

    /** `&WriteCloserBuffer{}`: no buffer behind it. */
    constructor WithoutBuffer()
      ensures !hasBuffer && contents == []
    {
      hasBuffer := false;
      contents := [];
    }

    /** The promoted `bytes.Buffer.Write`: everything is appended. */
    method Write(p: seq<byte>) returns (n: nat, err: Maybe<string>)
      requires hasBuffer
      modifies this`contents
      ensures contents == old(contents) + p
      ensures n == |p| && err == Nothing
      ensures p != [] ==> !IsEmpty(this)
    {
      contents := contents + p;
      n, err := |p|, Nothing;
    }

    /** Closing releases nothing, never fails and leaves the contents alone. */
    method Close() returns (err: Maybe<string>)
      ensures err == Nothing
    {
      err := Nothing;
    }

    /** Empty when there is no receiver, no buffer, or nothing buffered. */
    static function IsEmpty(w: WriteCloserBuffer?): (empty: bool)
      reads w
      ensures w == null ==> empty
      ensures w != null && w.hasBuffer ==> (empty <==> w.contents == [])
    {
      w == null || !w.hasBuffer || |w.contents| == 0
    }
  }
}
