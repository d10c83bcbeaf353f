/** helper.go: the root package's copy of `normaliseURL` and its
    `createPayloadReader`, which measures a seekable reader and puts its
    position back. */
module Helper {
  import opened Wrappers
  import opened GoStrings
  import opened Streams
  import NormaliseUrl

  const ErrUnsupportedPayload: string := "unsupported payload type: "

  /** The copy in helper.go: the colon test is nested, the rewriting is the
      same. */
  function NormaliseURL(url: string, protocolScheme: string, parse: NormaliseUrl.UrlParser): (r: Result<string>)
    ensures Contains(TrimSpace(url), ":") && !Contains(TrimSpace(url), NormaliseUrl.Separator) ==>
              r == Err(NormaliseUrl.ErrMissingSlashes)
    ensures r.Ok? ==> parse(r.value) == Nothing
    ensures r.Ok? && protocolScheme == "" ==>
              HasPrefix(r.value, NormaliseUrl.SchemeHTTP) || HasPrefix(r.value, NormaliseUrl.SchemeHTTPS)
  {
    var u := TrimSpace(url);
    if Contains(u, ":") && !Contains(u, NormaliseUrl.Separator) then
      Err(NormaliseUrl.ErrMissingSlashes)
    else
      var v :=
        if protocolScheme != "" then
          var stripped := TrimPrefix(TrimPrefix(u, NormaliseUrl.SchemeHTTP), NormaliseUrl.SchemeHTTPS);
          var scheme := if Contains(protocolScheme, NormaliseUrl.Separator) then protocolScheme
                        else protocolScheme + NormaliseUrl.Separator;
          if HasPrefix(stripped, scheme) then stripped else scheme + stripped
        else if !HasPrefix(u, NormaliseUrl.SchemeHTTP) && !HasPrefix(u, NormaliseUrl.SchemeHTTPS) then
          NormaliseUrl.SchemeHTTPS + u
        else u;
      match parse(v)
      case Just(e) => Err(e)
      case Nothing => Ok(v)
  }

  /** The two copies agree on every input, so every property proved of the
      one in normalise_url.go holds of this one. */
  lemma SameAsNormaliseUrl(url: string, protocolScheme: string, parse: NormaliseUrl.UrlParser)
    ensures NormaliseURL(url, protocolScheme, parse) == NormaliseUrl.NormaliseURL(url, protocolScheme, parse)
  {
  }

  /** The reader, size and error for each payload type: nil gives no reader
      and size -1; bytes and strings give a fresh reader and their byte
      length; a reader is passed through, measured to its end when it can
      seek (whole length, not what is left) and left where it was; any other
      type is an error with size -1. */
  method CreatePayloadReader(payload: Payload) returns (source: Source, size: int, err: Maybe<string>)
    modifies payload.Streams()
    ensures match payload
            case NilPayload => source == NoSource && size == -1 && err == Nothing
            case ByteSlice(b) => source == FreshReader(b) && size == |b| && err == Nothing
            case Text(b) => source == FreshReader(b) && size == |b| && err == Nothing
            case ReaderPayload(s) =>
              && source == GivenReader(s) && err == Nothing
              && size == (if s.seekable then |s.data| else -1)
              && s.pos == old(s.pos)
            case Unsupported(t) => source == NoSource && size == -1 && err == Just(ErrUnsupportedPayload + t)
  {
    match payload {
      case NilPayload =>
        source, size, err := NoSource, -1, Nothing;
      case ByteSlice(b) =>
        source, size, err := FreshReader(b), |b|, Nothing;
      case ReaderPayload(s) =>
        size := -1;
        if s.seekable {
          var current := s.Seek(0, SeekCurrent);
          var currentPos := if current.Ok? then current.value else 0;
          var end := s.Seek(0, SeekEnd);
          size := if end.Ok? then end.value else 0;
          var _ := s.Seek(currentPos, SeekStart);
        }
        source, err := GivenReader(s), Nothing;
      case Text(b) =>
        source, size, err := FreshReader(b), |b|, Nothing;
      case Unsupported(t) =>
        source, size, err := NoSource, -1, Just(ErrUnsupportedPayload + t);
    }
  }
}
