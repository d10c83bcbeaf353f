/** response/response.go: the record a request produces, with the three
    accessors over its body buffer. */
module Responses {
  import opened Wrappers
  import opened Streams
  import opened Http

  /** `Response`. Times are Unix seconds and durations nanoseconds; the TLS
      state is a handle. */
  datatype Response = Response(
    UniqueIdentifier: string,
    URL: string,
    Method: string,
    RequestPayload: seq<byte>,
    RequestTime: int,
    ResponseTime: int,
    Status: string,
    StatusCode: int,
    Proto: string,
    Header: Header,
    ContentLength: int,
    TransferEncoding: seq<string>,
    CompressionType: string,
    Uncompressed: bool,
    Cookies: seq<Cookie>,
    AccessTime: int,
    Body: seq<byte>,
    Error: Maybe<string>,
    TLS: Maybe<Handle>,
    Redirected: bool,
    Location: string)
  {
    /** `Bytes`: the unread body. */
    function Bytes(): (b: seq<byte>)
      ensures |b| == Length()
    {
      Body
    }

    /** `String`: the same bytes as `Bytes`, as a Go string. */
    function String(): (s: seq<byte>)
      ensures s == Bytes()
    {
      Body
    }

    /** `Length`: the number of unread body bytes. */
    function Length(): (n: nat)
      ensures n == 0 <==> Body == []
    {
      |Body|
    }
  }

  /** The zero `Response{}` with a request's own fields filled in, as the
      request functions build it before anything is sent. */
  function Pending(id: string, url: string, verb: string, payload: seq<byte>, compression: string): (r: Response)
    ensures r.Length() == 0 && !r.Redirected && r.Error == Nothing
    ensures r.URL == url && r.Method == verb && r.RequestPayload == payload
  {
    Response(id, url, verb, payload, 0, 0, "", 0, "", map[], 0, [], compression, false, [], 0, [], Nothing, Nothing, false, "")
  }
}
