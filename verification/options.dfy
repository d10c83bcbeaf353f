/** options/options.go: the request configuration record of the current
    client, its setters, payload sizing, compressor choice, redirect counter,
    random identifiers, response-sink set-up and the merge of one record into
    another. */
module Options {
  import opened Wrappers
  import opened GoStrings
  import opened Streams
  import opened Http
  import opened ResponseSink
  import opened WriteCloserBuffers

  /** The default User-Agent. */
  const UA: string := "caelisco/http-client/v2.0.0"

  const CompressionNone: string := ""
  const CompressionGzip: string := "gzip"
  const CompressionDeflate: string := "deflate"
  const CompressionBrotli: string := "br"
  const CompressionCustom: string := "custom"

  const IdentifierNone: string := ""
  const IdentifierUUID: string := "uuid"
  const IdentifierULID: string := "ulid"
  const IdentifierRGS: string := "rgs"

  const ErrInvalidWriterType: string := "invalid writer type"
  const ErrMissingFilePath: string := "file path must be specified when using WriteToFile"
  const ErrUnexpectedFilePath: string := "filepath should not be provided when using WriteToBuffer"
  const ErrNoCustomCompressor: string := "custom compression specified but no compressor provided"
  const ErrUnsupportedCompression: string := "unsupported compression type: "
  const ErrCreateFile: string := "failed to create file: "
  /** The random source failing; running out of given bytes reads as `io.EOF`. */
  const ErrRandomString: string := "failed to generate random string: EOF"

  const DefaultMaxRedirects: int := 10

  /** The logger, transport and `http.Client` that `defaultOption` allocates;
      only their identity matters here. */
  const DefaultLogger: Handle := 1
  const DefaultTransport: Handle := 2
  const DefaultHttpClient: Handle := 3

  // ------------------------------------------------------------ compression

  datatype Algorithm = Gzip | Zlib | Brotli | Custom(hook: Handle)

  /** What the body is compressed or decompressed with: an algorithm, or
      nothing at all. */
  datatype Codec = Identity | Coded(algorithm: Algorithm)

  /** The algorithm of a standard Content-Encoding name. */
  function StandardAlgorithm(name: string): Maybe<Algorithm> {
    if name == CompressionGzip then Just(Gzip)
    else if name == CompressionDeflate then Just(Zlib)
    else if name == CompressionBrotli then Just(Brotli)
    else Nothing
  }

  // ------------------------------------------------------------ sink set-up

  /** The check both `InitialiseWriter` and `SetOutput` apply to a sink
      configuration: a file needs a path, a buffer must not have one, and no
      other type exists. */
  function WriterConfigError(rw: ResponseWriter): Maybe<string> {
    if rw.Type == WriteToFile then
      (if rw.FilePath == "" then Just(ErrMissingFilePath) else Nothing)
    else if rw.Type == WriteToBuffer then
      (if rw.FilePath != "" then Just(ErrUnexpectedFilePath) else Nothing)
    else Just(ErrInvalidWriterType)
  }

  /** `SetOutput` on a configuration: the new configuration and the error. */
  function SetOutputOf(rw: ResponseWriter, writerType: string, filepath: seq<string>): (r: (ResponseWriter, Maybe<string>))
    ensures r.0.Type == writerType && r.0.writer == rw.writer
  {
    var typed := rw.(Type := writerType);
    if writerType == WriteToFile then
      if |filepath| == 0 then (typed, Just(ErrMissingFilePath))
      else (typed.(FilePath := filepath[0]), Nothing)
    else if writerType == WriteToBuffer then
      if |filepath| > 0 then (typed, Just(ErrUnexpectedFilePath))
      else (typed.(FilePath := ""), Nothing)
    else (typed, Just(ErrInvalidWriterType))
  }

  /** `SetOutput` accepts exactly the two known types, each with its own
      path rule; what it accepts passes the initialiser's check unless a file
      is named by the empty path; and an unknown type fails both checks the
      same way. */
  lemma SetOutputAgreesWithInitialise(rw: ResponseWriter, writerType: string, filepath: seq<string>)
    ensures var (next, err) := SetOutputOf(rw, writerType, filepath);
            && (err == Nothing <==> (writerType == WriteToFile && |filepath| > 0)
                                    || (writerType == WriteToBuffer && |filepath| == 0))
            && (err == Nothing && (writerType == WriteToFile ==> filepath[0] != "") ==> WriterConfigError(next) == Nothing)
            && (writerType != WriteToFile && writerType != WriteToBuffer ==>
                  err == WriterConfigError(next) == Just(ErrInvalidWriterType))
  {
  }

  /** The one gap: a file type with an empty path is accepted by `SetOutput`
      and rejected when the writer is initialised. */
  lemma EmptyFilePathSlipsThrough(rw: ResponseWriter)
    ensures SetOutputOf(rw, WriteToFile, [""]).1 == Nothing
    ensures WriterConfigError(SetOutputOf(rw, WriteToFile, [""]).0) == Just(ErrMissingFilePath)
  {
  }

  // ------------------------------------------------------------ random strings

  const Charset: string := "abcdefghijklmnopqrstuvwxyzABCDEFGHIJKLMNOPQRSTUVWXYZ0123456789"

  /** Bytes at or above this bound are rejected so that every character is
      drawn from exactly as many byte values as every other (248 = 4 * 62). */
  const MaxByte: int := 256 - 256 % |Charset|

  /** The bytes of `e` the sampler keeps, in order. */
  function Accepted(e: seq<byte>): (r: seq<byte>)
    ensures |r| <= |e|
    ensures forall i :: 0 <= i < |r| ==> r[i] as int < MaxByte
  {
    if e == [] then []
    else
      var last := e[|e| - 1];
      Accepted(e[..|e| - 1]) + (if last as int < MaxByte then [last] else [])
  }

  function CharFor(b: byte): char {
    Charset[b as int % |Charset|]
  }

  /** What `generateRandomString(length)` returns when the random source
      yields the bytes `entropy` and then fails. */
  function RandomString(length: nat, entropy: seq<byte>): (r: Result<string>)
    ensures r.Ok? <==> length <= |Accepted(entropy)|
    ensures r.Ok? ==> |r.value| == length && forall i :: 0 <= i < length ==> r.value[i] in Charset
    ensures r.Err? ==> r.error == ErrRandomString
  {
    var acc := Accepted(entropy);
    if |acc| < length then Err(ErrRandomString)
    else Ok(seq(length, i requires 0 <= i < length => CharFor(acc[i])))
  }

  lemma {:induction false} AcceptedAppend(a: seq<byte>, b: seq<byte>)
    ensures Accepted(a + b) == Accepted(a) + Accepted(b)
    decreases |b|
  {
    if b == [] {
      assert a + b == a;
    } else {
      var front := b[..|b| - 1];
      assert (a + b)[..|a + b| - 1] == a + front;
      AcceptedAppend(a, front);
    }
  }

  lemma {:induction false} AcceptedPrefix(e: seq<byte>, n: nat)
    requires n <= |e|
    ensures Accepted(e[..n]) <= Accepted(e)
    decreases |e| - n
  {
    if n < |e| {
      var front := e[..|e| - 1];
      assert front[..n] == e[..n];
      AcceptedPrefix(front, n);
    } else {
      assert e[..n] == e;
    }
  }

  /** A rejected byte is skipped without using up a position: inserting one
      anywhere in the random stream changes nothing. */
  lemma RejectedByteSkipped(length: nat, e: seq<byte>, k: nat, b: byte)
    requires k <= |e| && b as int >= MaxByte
    ensures RandomString(length, e[..k] + [b] + e[k..]) == RandomString(length, e)
  {
    var e' := e[..k] + [b] + e[k..];
    AcceptedAppend(e[..k] + [b], e[k..]);
    AcceptedAppend(e[..k], [b]);
    AcceptedAppend(e[..k], e[k..]);
    assert Accepted([b]) == [] by {
      assert [b][..0] == [];
    }
    assert e[..k] + e[k..] == e;
    assert Accepted(e') == Accepted(e);
  }

  /** `generateRandomString`: draws one byte at a time from `entropy`,
      rejects bytes at or above `MaxByte` without advancing, and maps the
      others into the charset. */
  method GenerateRandomString(length: nat, entropy: seq<byte>) returns (r: Result<string>)
    ensures r == RandomString(length, entropy)
  {
    var result := new char[length];
    var i := 0;
    var next := 0;
    while i < length
      invariant 0 <= i <= length && 0 <= next <= |entropy|
      invariant |Accepted(entropy[..next])| == i
      invariant forall k :: 0 <= k < i ==> result[k] == CharFor(Accepted(entropy[..next])[k])
      decreases |entropy| - next
    {
      if next == |entropy| {
        assert entropy[..next] == entropy;
        return Err(ErrRandomString);
      }
      var b := entropy[next];
      assert entropy[..next + 1][..next] == entropy[..next];
      next := next + 1;
      if b as int >= MaxByte {
        continue;
      }
      result[i] := Charset[b as int % |Charset|];
      i := i + 1;
    }
    AcceptedPrefix(entropy, next);
    var acc := Accepted(entropy);
    assert Accepted(entropy[..next]) == acc[..length];
    assert result[..] == seq(length, k requires 0 <= k < length => CharFor(acc[k]));
    r := Ok(result[..]);
  }

  /** The plain settings of an option record: everything `Merge` copies
      field by field. */
  datatype OptionSettings = OptionSettings(
    Verbose: bool,
    FollowRedirects: bool,
    PreserveMethodOnRedirect: bool,
    MaxRedirects: int,
    Logger: Maybe<Handle>,
    Transport: Maybe<Handle>,
    ResponseWriter: ResponseWriter,
    ProtocolScheme: string,
    Compression: string,
    CustomCompressionType: string,
    UserAgent: string,
    UniqueIdentifierType: string,
    CustomCompressor: Maybe<Handle>,
    CustomDecompressor: Maybe<Handle>,
    DownloadBufferSize: Maybe<int>,
    OnUploadProgress: Maybe<Handle>,
    OnDownloadProgress: Maybe<Handle>)

  /** What `Merge` makes of the settings: the three switches and the
      redirect limit come from the source unconditionally; every other
      setting comes from the source only when the source sets it (a non-nil
      hook or handle, a non-empty string, a sink with a type). */
  function MergedSettings(src: OptionSettings, dst: OptionSettings): OptionSettings {
    OptionSettings(
      src.Verbose,
      src.FollowRedirects,
      src.PreserveMethodOnRedirect,
      src.MaxRedirects,
      Prefer(src.Logger, dst.Logger),
      Prefer(src.Transport, dst.Transport),
      if |src.ResponseWriter.Type| > 0 then src.ResponseWriter else dst.ResponseWriter,
      PreferText(src.ProtocolScheme, dst.ProtocolScheme),
      PreferText(src.Compression, dst.Compression),
      PreferText(src.CustomCompressionType, dst.CustomCompressionType),
      PreferText(src.UserAgent, dst.UserAgent),
      PreferText(src.UniqueIdentifierType, dst.UniqueIdentifierType),
      Prefer(src.CustomCompressor, dst.CustomCompressor),
      Prefer(src.CustomDecompressor, dst.CustomDecompressor),
      Prefer(src.DownloadBufferSize, dst.DownloadBufferSize),
      Prefer(src.OnUploadProgress, dst.OnUploadProgress),
      Prefer(src.OnDownloadProgress, dst.OnDownloadProgress))
  }

  /** The settings of `defaultOption()`. */
  function DefaultOptionSettings(): OptionSettings {
    OptionSettings(false, false, false, DefaultMaxRedirects, Just(DefaultLogger), Just(DefaultTransport),
                   BufferOutput, "", CompressionNone, "", UA, IdentifierULID,
                   Nothing, Nothing, Nothing, Nothing, Nothing)
  }

  /** The settings of `&Option{}`. */
  function ZeroSettings(): OptionSettings {
    OptionSettings(false, false, false, 0, Nothing, Nothing,
                   ResponseSink.ResponseWriter("", "", NoWriter), "", "", "", "", "",
                   Nothing, Nothing, Nothing, Nothing, Nothing)
  }

  // ------------------------------------------------------------ the record

  class Option {
    var initialised: bool
    var client: Maybe<Handle>
    var filename: string
    var file: Maybe<Handle>
    var filesize: int
    var Verbose: bool
    var Logger: Maybe<Handle>
    var Header: Header
    var Cookies: seq<Cookie>
    var ProtocolScheme: string
    var Compression: string
    var CustomCompressionType: string
    var CustomCompressor: Maybe<Handle>
    var CustomDecompressor: Maybe<Handle>
    var UserAgent: string
    var FollowRedirects: bool
    var PreserveMethodOnRedirect: bool
    var MaxRedirects: int
    var currRedirect: int
    var UniqueIdentifierType: string
    var Transport: Maybe<Handle>
    var ResponseWriter: ResponseWriter
    var UploadBufferSize: Maybe<int>
    var DownloadBufferSize: Maybe<int>
    var OnUploadProgress: Maybe<Handle>
    var OnDownloadProgress: Maybe<Handle>

    /** `&Option{}`: every field zero. */
    constructor Zero()
      ensures IsZero()
    {
      initialised, client, filename, file, filesize := false, Nothing, "", Nothing, 0;
      Verbose, Logger, Header, Cookies := false, Nothing, map[], [];
      ProtocolScheme, Compression, CustomCompressionType := "", "", "";
      CustomCompressor, CustomDecompressor, UserAgent := Nothing, Nothing, "";
      FollowRedirects, PreserveMethodOnRedirect, MaxRedirects, currRedirect := false, false, 0, 0;
      UniqueIdentifierType, Transport := "", Nothing;
      ResponseWriter := ResponseSink.ResponseWriter("", "", NoWriter);
      UploadBufferSize, DownloadBufferSize, OnUploadProgress, OnDownloadProgress := Nothing, Nothing, Nothing, Nothing;
    }

    /** `defaultOption()`. */
    constructor Default()
      ensures IsDefault()
    {
      initialised, client, filename, file, filesize := true, Just(DefaultHttpClient), "", Nothing, 0;
      Verbose, Logger, Header, Cookies := false, Just(DefaultLogger), map[], [];
      ProtocolScheme, Compression, CustomCompressionType := "", CompressionNone, "";
      CustomCompressor, CustomDecompressor, UserAgent := Nothing, Nothing, UA;
      FollowRedirects, PreserveMethodOnRedirect, MaxRedirects, currRedirect := false, false, DefaultMaxRedirects, 0;
      UniqueIdentifierType, Transport := IdentifierULID, Just(DefaultTransport);
      ResponseWriter := BufferOutput;
      UploadBufferSize, DownloadBufferSize, OnUploadProgress, OnDownloadProgress := Nothing, Nothing, Nothing, Nothing;
    }

    ghost predicate IsZero()
      reads this
    {
      && !initialised && client == Nothing && filename == "" && file == Nothing && filesize == 0
      && !Verbose && Logger == Nothing && Header == map[] && Cookies == []
      && ProtocolScheme == "" && Compression == "" && CustomCompressionType == ""
      && CustomCompressor == Nothing && CustomDecompressor == Nothing && UserAgent == ""
      && !FollowRedirects && !PreserveMethodOnRedirect && MaxRedirects == 0 && currRedirect == 0
      && UniqueIdentifierType == "" && Transport == Nothing
      && ResponseWriter == ResponseSink.ResponseWriter("", "", NoWriter)
      && UploadBufferSize == Nothing && DownloadBufferSize == Nothing
      && OnUploadProgress == Nothing && OnDownloadProgress == Nothing
    }

    /** The fields `defaultOption` sets, apart from headers and cookies. */
    ghost predicate DefaultSettings()
      reads this
    {
      && initialised && client == Just(DefaultHttpClient) && filename == "" && file == Nothing && filesize == 0
      && !Verbose && Logger == Just(DefaultLogger)
      && ProtocolScheme == "" && Compression == CompressionNone && CustomCompressionType == ""
      && CustomCompressor == Nothing && CustomDecompressor == Nothing && UserAgent == UA
      && !FollowRedirects && !PreserveMethodOnRedirect && MaxRedirects == DefaultMaxRedirects && currRedirect == 0
      && UniqueIdentifierType == IdentifierULID && Transport == Just(DefaultTransport)
      && ResponseWriter == BufferOutput
      && UploadBufferSize == Nothing && DownloadBufferSize == Nothing
      && OnUploadProgress == Nothing && OnDownloadProgress == Nothing
    }

    ghost predicate IsDefault()
      reads this
    {
      DefaultSettings() && Header == map[] && Cookies == []
    }

    /** What `New` makes of an uninitialised option: a default option with
        it merged in. Headers and cookies are the source's, every setting is
        the source's where it sets one and the default's otherwise, and the
        private fields are the default's. */
    ghost predicate StartedFrom(src: Option)
      reads this, src
    {
      && initialised && client == Just(DefaultHttpClient) && filename == "" && file == Nothing
      && filesize == 0 && currRedirect == 0 && UploadBufferSize == Nothing
      && Header == src.Header
      && Cookies == MergeAll([], src.Cookies, CookieName)
      && Settings() == MergedSettings(src.Settings(), DefaultOptionSettings())
    }

    /** `New(opts...)`: an initialised first option is returned itself;
        an uninitialised one is merged into a fresh default; none gives a
        fresh default. */
    static method New(opts: seq<Option>) returns (o: Option)
      ensures |opts| > 0 && opts[0].initialised ==> o == opts[0]
      ensures |opts| == 0 ==> fresh(o) && o.IsDefault()
      ensures |opts| > 0 && !opts[0].initialised ==> fresh(o) && o.StartedFrom(opts[0])
    {
      if |opts| > 0 {
        if opts[0].initialised {
          return opts[0];
        }
        o := new Option.Default();
        assert o.Settings() == DefaultOptionSettings();
        o.Merge(opts[0]);
        assert map[] + opts[0].Header == opts[0].Header;
      } else {
        o := new Option.Default();
      }
    }

    /** `Header.Set(key, value)`: the key now holds exactly `value`. */
    method AddHeader(key: string, value: string)
      modifies this`Header
      ensures Header == old(Header)[key := [value]]
    {
      Header := Header[key := [value]];
    }

    method ClearHeaders()
      modifies this`Header
      ensures Header == map[]
    {
      Header := map[];
    }

    method AddCookie(cookie: Cookie)
      modifies this`Cookies
      ensures Cookies == old(Cookies) + [cookie]
    {
      Cookies := Cookies + [cookie];
    }

    method ClearCookies()
      modifies this`Cookies
      ensures Cookies == []
    {
      Cookies := [];
    }

    method SetProtocolScheme(scheme: string)
      modifies this`ProtocolScheme
      ensures ProtocolScheme == WithSchemeSuffix(scheme)
    {
      ProtocolScheme := if !HasSuffix(scheme, "://") then scheme + "://" else scheme;
    }

    /** The payload's reader, size and error. This version first rewinds a
        seekable reader, so its size is the whole length and it is left at
        offset 0 whatever its earlier position. */
    method CreatePayloadReader(payload: Payload) returns (source: Source, size: int, err: Maybe<string>)
      modifies payload.Streams()
      ensures match payload
              case NilPayload => source == NoSource && size == -1 && err == Nothing
              case ByteSlice(b) => source == FreshReader(b) && size == |b| && err == Nothing
              case Text(b) => source == FreshReader(b) && size == |b| && err == Nothing
              case ReaderPayload(s) =>
                && source == GivenReader(s) && err == Nothing
                && (s.seekable ==> size == |s.data| && s.pos == 0)
                && (!s.seekable ==> size == -1 && s.pos == old(s.pos))
              case Unsupported(t) => source == NoSource && size == -1 && err == Just("unsupported payload type: " + t)
    {
      match payload {
        case NilPayload =>
          source, size, err := NoSource, -1, Nothing;
        case ByteSlice(b) =>
          source, size, err := FreshReader(b), |b|, Nothing;
        case ReaderPayload(s) =>
          size := -1;
          if s.seekable {
            var _ := s.Seek(0, SeekStart);
            var current := s.Seek(0, SeekCurrent);
            var currentPos := if current.Ok? then current.value else 0;
            var end := s.Seek(0, SeekEnd);
            size := if end.Ok? then end.value else 0;
            var _ := s.Seek(currentPos, SeekStart);
          }
          source, err := GivenReader(s), Nothing;
        case Text(b) =>
          source, size, err := FreshReader(b), |b|, Nothing;
        case Unsupported(t) =>
          source, size, err := NoSource, -1, Just("unsupported payload type: " + t);
      }
    }

    /** `GetCompressor`: no compressor for no compression, the standard
        writers, the custom hook's own result, or an error. `hookErr` is the
        error the custom hook returns when it is called; the standard
        writers cannot fail. */
    function GetCompressor(hookErr: Maybe<string>): (r: Result<Codec>)
      reads this
      ensures r == Ok(Identity) <==> Compression == CompressionNone
      ensures r.Err? <==> (Compression == CompressionCustom && (CustomCompressor == Nothing || hookErr.Just?))
                           || (Compression != CompressionCustom && Compression != CompressionNone
                               && StandardAlgorithm(Compression) == Nothing)
      ensures Compression == CompressionCustom && CustomCompressor.Just? && hookErr.Just? ==> r == Err(hookErr.value)
      ensures r.Ok? && r.value.Coded? && r.value.algorithm.Custom? ==> Just(r.value.algorithm.hook) == CustomCompressor
    {
      if StandardAlgorithm(Compression).Just? then Ok(Coded(StandardAlgorithm(Compression).value))
      else if Compression == CompressionCustom then
        match CustomCompressor
        case Nothing => Err(ErrNoCustomCompressor)
        case Just(hook) =>
          match hookErr
          case Just(e) => Err(e)
          case Nothing => Ok(Coded(Custom(hook)))
      else if Compression == CompressionNone then Ok(Identity)
      else Err(ErrUnsupportedCompression + Compression)
    }

    /** `GetDecompressor(r, encoding)`: the body as it is for no encoding,
        the standard readers, then the custom hook, then an error. `openErr`
        is the error of the reader constructor the encoding selects
        (`gzip.NewReader` on a body without a gzip header, `zlib.NewReader`
        on one without a zlib header, or the custom hook); the identity and
        the brotli reader cannot fail. */
    function GetDecompressor(encoding: string, openErr: Maybe<string>): (r: Result<Codec>)
      reads this
      ensures r == Ok(Identity) <==> encoding == ""
      ensures r.Err? <==> || (encoding in {CompressionGzip, CompressionDeflate} && openErr.Just?)
                          || (encoding != "" && StandardAlgorithm(encoding) == Nothing
                              && (CustomDecompressor == Nothing || openErr.Just?))
      ensures (encoding != "" && encoding != CompressionBrotli && openErr.Just?
               && (StandardAlgorithm(encoding).Just? || CustomDecompressor.Just?)) ==> r == Err(openErr.value)
      ensures r.Ok? && r.value.Coded? && r.value.algorithm.Custom? ==> Just(r.value.algorithm.hook) == CustomDecompressor
    {
      if encoding == "" then Ok(Identity)
      else if encoding == CompressionBrotli then Ok(Coded(Brotli))
      else if StandardAlgorithm(encoding).Just? then
        match openErr
        case Just(e) => Err(e)
        case Nothing => Ok(Coded(StandardAlgorithm(encoding).value))
      else
        match CustomDecompressor
        case Nothing => Err(ErrUnsupportedCompression + encoding)
        case Just(hook) =>
          match openErr
          case Just(e) => Err(e)
          case Nothing => Ok(Coded(Custom(hook)))
    }

    /** `SetClient`: later requests go through the given client. */
    method SetClient(c: Maybe<Handle>)
      modifies this`client
      ensures client == c
      ensures Unmerged() == old(Unmerged())
    {
      client := c;
    }

    /** `CheckRedirects`: one more redirect, and whether the count has just
        hit the limit (exact equality: calls past the limit say no again). */
    method CheckRedirects() returns (limitReached: bool)
      modifies this`currRedirect
      ensures currRedirect == old(currRedirect) + 1
      ensures limitReached <==> currRedirect == MaxRedirects
    {
      currRedirect := currRedirect + 1;
      limitReached := currRedirect == MaxRedirects;
    }

    /** Only a positive size is stored. */
    method SetDownloadBufferSize(size: int)
      modifies this`DownloadBufferSize
      ensures DownloadBufferSize == if size > 0 then Just(size) else old(DownloadBufferSize)
    {
      if size > 0 {
        DownloadBufferSize := Just(size);
      }
    }

    /** `InitialiseWriter`, with the outcome of `os.Create` given: a writer
        once the configuration passes the check (a fresh empty buffer, or the
        created file), else the check's error or the creation error. */
    method InitialiseWriter(created: Result<Handle>) returns (r: Result<Writer>)
      modifies this`ResponseWriter
      ensures var check := WriterConfigError(old(ResponseWriter));
              && (check.Just? ==> r == Err(check.value) && ResponseWriter == old(ResponseWriter))
              && (check == Nothing && ResponseWriter.Type == WriteToFile ==>
                    if created.Err? then r == Err(ErrCreateFile + created.error) && ResponseWriter == old(ResponseWriter)
                    else r == Ok(FileWriter(created.value)) && ResponseWriter == old(ResponseWriter).(writer := r.value))
      ensures WriterConfigError(old(ResponseWriter)) == Nothing && ResponseWriter.Type == WriteToBuffer ==>
                && r.Ok? && r.value.BufferWriter? && fresh(r.value.buffer)
                && r.value.buffer.hasBuffer && r.value.buffer.contents == []
                && ResponseWriter == old(ResponseWriter).(writer := r.value)
    {
      if ResponseWriter.Type == WriteToFile {
        if ResponseWriter.FilePath == "" {
          return Err(ErrMissingFilePath);
        }
        if created.Err? {
          return Err(ErrCreateFile + created.error);
        }
        ResponseWriter := ResponseWriter.(writer := FileWriter(created.value));
      } else if ResponseWriter.Type == WriteToBuffer {
        if ResponseWriter.FilePath != "" {
          return Err(ErrUnexpectedFilePath);
        }
        var buffer := new WriteCloserBuffer();
        ResponseWriter := ResponseWriter.(writer := BufferWriter(buffer));
      } else {
        return Err(ErrInvalidWriterType);
      }
      r := Ok(ResponseWriter.writer);
    }

    /** `SetOutput(writerType, filepath...)`. */
    method SetOutput(writerType: string, filepath: seq<string>) returns (err: Maybe<string>)
      modifies this`ResponseWriter
      ensures (ResponseWriter, err) == SetOutputOf(old(ResponseWriter), writerType, filepath)
    {
      ResponseWriter := ResponseWriter.(Type := writerType);
      if writerType == WriteToFile {
        if |filepath| == 0 {
          return Just(ErrMissingFilePath);
        }
        ResponseWriter := ResponseWriter.(FilePath := filepath[0]);
      } else if writerType == WriteToBuffer {
        if |filepath| > 0 {
          return Just(ErrUnexpectedFilePath);
        }
        ResponseWriter := ResponseWriter.(FilePath := "");
      } else {
        return Just(ErrInvalidWriterType);
      }
      err := Nothing;
    }

    method SetFileOutput(filepath: string)
      modifies this`ResponseWriter
      ensures ResponseWriter == ResponseSink.ResponseWriter(WriteToFile, filepath, NoWriter)
    {
      ResponseWriter := ResponseSink.ResponseWriter(WriteToFile, filepath, NoWriter);
    }

    method SetBufferOutput()
      modifies this`ResponseWriter
      ensures ResponseWriter == BufferOutput
    {
      ResponseWriter := BufferOutput;
    }

    /** `CloseFile`, with the outcome of the file's `Close` given: an open
        file is forgotten and its size reset, and its close error returned. */
    method CloseFile(closeErr: Maybe<string>) returns (err: Maybe<string>)
      modifies this`file, this`filesize
      ensures old(file).Just? ==> file == Nothing && filesize == 0 && err == closeErr
      ensures old(file) == Nothing ==> file == Nothing && filesize == old(filesize) && err == Nothing
    {
      if file.Just? {
        file := Nothing;
        filesize := 0;
        return closeErr;
      }
      err := Nothing;
    }

    /** The header half of `Merge`: every source key overwrites the target's
        values, other keys are kept. */
    method MergeHeader(srcHeader: Header)
      modifies this`Header
      ensures Header == old(Header) + srcHeader
      ensures Unmerged() == old(Unmerged()) && client == old(client)
    {
      var keys := srcHeader.Keys;
      while keys != {}
        invariant keys <= srcHeader.Keys
        invariant Header == old(Header) + map k | k in srcHeader.Keys - keys :: srcHeader[k]
        decreases keys
      {
        var key :| key in keys;
        Header := Header[key := srcHeader[key]];
        keys := keys - {key};
      }
      assert Header == old(Header) + srcHeader;
    }

    /** The cookie half of `Merge`: each source cookie, in order, replaces the
        first target cookie of the same name or is appended. */
    method MergeCookies(srcCookies: seq<Cookie>)
      modifies this`Cookies
      ensures Cookies == MergeAll(old(Cookies), srcCookies, CookieName)
      ensures Unmerged() == old(Unmerged()) && client == old(client)
    {
      var i := 0;
      while i < |srcCookies|
        invariant i <= |srcCookies|
        invariant Cookies == MergeAll(old(Cookies), srcCookies[..i], CookieName)
      {
        var sc := srcCookies[i];
        ghost var before := Cookies;
        var j := FirstWithName(Cookies, sc.Name);
        if j < |Cookies| {
          Cookies := Cookies[j := sc];
        } else {
          Cookies := Cookies + [sc];
        }
        assert Cookies == Upsert(before, sc, CookieName);
        MergeAllStep(old(Cookies), srcCookies, i, CookieName);
        i := i + 1;
      }
      assert srcCookies[..i] == srcCookies;
    }

    /** The settings `Merge` copies or prefers, as one value. */
    function Settings(): OptionSettings
      reads this`Verbose, this`FollowRedirects, this`PreserveMethodOnRedirect, this`MaxRedirects, this`Logger, this`Transport, this`ResponseWriter, this`ProtocolScheme, this`Compression, this`CustomCompressionType, this`UserAgent, this`UniqueIdentifierType, this`CustomCompressor, this`CustomDecompressor, this`DownloadBufferSize, this`OnUploadProgress, this`OnDownloadProgress
    {
      OptionSettings(Verbose, FollowRedirects, PreserveMethodOnRedirect, MaxRedirects, Logger, Transport, ResponseWriter, ProtocolScheme, Compression, CustomCompressionType, UserAgent, UniqueIdentifierType, CustomCompressor, CustomDecompressor, DownloadBufferSize, OnUploadProgress, OnDownloadProgress)
    }

    /** The fields neither `Merge` nor `SetClient` touches: the initialised
        flag, the file state, the redirect counter and the upload buffer
        size. */
    function Unmerged(): (bool, string, Maybe<Handle>, int, int, Maybe<int>)
      reads this`initialised, this`filename, this`file, this`filesize, this`currRedirect, this`UploadBufferSize
    {
      (initialised, filename, file, filesize, currRedirect, UploadBufferSize)
    }

    /** The settings part of `Merge`, in three groups. */
    method MergeSettings(src: OptionSettings)
      modifies this`Verbose, this`FollowRedirects, this`PreserveMethodOnRedirect, this`MaxRedirects, this`Logger, this`Transport, this`ResponseWriter, this`ProtocolScheme, this`Compression, this`CustomCompressionType, this`UserAgent, this`UniqueIdentifierType, this`CustomCompressor, this`CustomDecompressor, this`DownloadBufferSize, this`OnUploadProgress, this`OnDownloadProgress
      ensures Settings() == MergedSettings(src, old(Settings()))
      ensures Unmerged() == old(Unmerged()) && client == old(client)
    {
      MergeSwitches(src.Verbose, src.FollowRedirects, src.PreserveMethodOnRedirect, src.MaxRedirects, src.Logger, src.Transport);
      MergeStrings(src.ResponseWriter, src.ProtocolScheme, src.Compression, src.CustomCompressionType, src.UserAgent, src.UniqueIdentifierType);
      MergeHooks(src.CustomCompressor, src.CustomDecompressor, src.DownloadBufferSize, src.OnUploadProgress, src.OnDownloadProgress);
    }

    /** The switches and the redirect limit, copied unconditionally, and the
        logger and transport, taken when the source has them. */
    method MergeSwitches(srcVerbose: bool, srcFollowRedirects: bool, srcPreserveMethodOnRedirect: bool, srcMaxRedirects: int, srcLogger: Maybe<Handle>, srcTransport: Maybe<Handle>)
      modifies this`Verbose, this`FollowRedirects, this`PreserveMethodOnRedirect, this`MaxRedirects, this`Logger, this`Transport
      ensures Verbose == srcVerbose
      ensures FollowRedirects == srcFollowRedirects
      ensures PreserveMethodOnRedirect == srcPreserveMethodOnRedirect
      ensures MaxRedirects == srcMaxRedirects
      ensures Logger == Prefer(srcLogger, old(Logger))
      ensures Transport == Prefer(srcTransport, old(Transport))
      ensures Unmerged() == old(Unmerged()) && client == old(client)
    {
      Verbose := srcVerbose;
      FollowRedirects := srcFollowRedirects;
      PreserveMethodOnRedirect := srcPreserveMethodOnRedirect;
      MaxRedirects := srcMaxRedirects;
      if srcLogger.Just? {
        Logger := srcLogger;
      }
      if srcTransport.Just? {
        Transport := srcTransport;
      }
    }

    /** The sink configuration when the source's has a type, and the textual
        settings the source sets. */
    method MergeStrings(srcResponseWriter: ResponseWriter, srcProtocolScheme: string, srcCompression: string, srcCustomCompressionType: string, srcUserAgent: string, srcUniqueIdentifierType: string)
      modifies this`ResponseWriter, this`ProtocolScheme, this`Compression, this`CustomCompressionType, this`UserAgent, this`UniqueIdentifierType
      ensures ResponseWriter == (if |srcResponseWriter.Type| > 0 then srcResponseWriter else old(ResponseWriter))
      ensures ProtocolScheme == PreferText(srcProtocolScheme, old(ProtocolScheme))
      ensures Compression == PreferText(srcCompression, old(Compression))
      ensures CustomCompressionType == PreferText(srcCustomCompressionType, old(CustomCompressionType))
      ensures UserAgent == PreferText(srcUserAgent, old(UserAgent))
      ensures UniqueIdentifierType == PreferText(srcUniqueIdentifierType, old(UniqueIdentifierType))
      ensures Unmerged() == old(Unmerged()) && client == old(client)
    {
      if |srcResponseWriter.Type| > 0 {
        ResponseWriter := srcResponseWriter;
      }
      if |srcProtocolScheme| > 0 {
        ProtocolScheme := srcProtocolScheme;
      }
      if |srcCompression| > 0 {
        Compression := srcCompression;
      }
      if |srcCustomCompressionType| > 0 {
        CustomCompressionType := srcCustomCompressionType;
      }
      if |srcUserAgent| > 0 {
        UserAgent := srcUserAgent;
      }
      if |srcUniqueIdentifierType| > 0 {
        UniqueIdentifierType := srcUniqueIdentifierType;
      }
    }

    /** The hooks and the download buffer size the source sets. */
    method MergeHooks(srcCustomCompressor: Maybe<Handle>, srcCustomDecompressor: Maybe<Handle>, srcDownloadBufferSize: Maybe<int>, srcOnUploadProgress: Maybe<Handle>, srcOnDownloadProgress: Maybe<Handle>)
      modifies this`CustomCompressor, this`CustomDecompressor, this`DownloadBufferSize, this`OnUploadProgress, this`OnDownloadProgress
      ensures CustomCompressor == Prefer(srcCustomCompressor, old(CustomCompressor))
      ensures CustomDecompressor == Prefer(srcCustomDecompressor, old(CustomDecompressor))
      ensures DownloadBufferSize == Prefer(srcDownloadBufferSize, old(DownloadBufferSize))
      ensures OnUploadProgress == Prefer(srcOnUploadProgress, old(OnUploadProgress))
      ensures OnDownloadProgress == Prefer(srcOnDownloadProgress, old(OnDownloadProgress))
      ensures Unmerged() == old(Unmerged()) && client == old(client)
    {
      if srcCustomCompressor.Just? {
        CustomCompressor := srcCustomCompressor;
      }
      if srcCustomDecompressor.Just? {
        CustomDecompressor := srcCustomDecompressor;
      }
      if srcDownloadBufferSize.Just? {
        DownloadBufferSize := srcDownloadBufferSize;
      }
      if srcOnUploadProgress.Just? {
        OnUploadProgress := srcOnUploadProgress;
      }
      if srcOnDownloadProgress.Just? {
        OnDownloadProgress := srcOnDownloadProgress;
      }
    }

    /** `Merge(src)`: source headers overwrite by key, source cookies replace
        the first cookie of the same name or are appended, four settings are
        always copied and the rest only when the source sets them (see
        `MergedSettings`); the upload buffer size and the private fields are
        left alone. Nothing happens for a nil source. */
    method Merge(src: Option?)
      modifies this`Header, this`Cookies, this`Verbose, this`FollowRedirects, this`PreserveMethodOnRedirect, this`MaxRedirects, this`Logger, this`Transport, this`ResponseWriter, this`ProtocolScheme, this`Compression, this`CustomCompressionType, this`CustomCompressor, this`CustomDecompressor, this`UserAgent, this`UniqueIdentifierType, this`DownloadBufferSize, this`OnUploadProgress, this`OnDownloadProgress
      ensures src == null ==> unchanged(this)
      ensures src != null ==>
                && Header == old(Header) + old(src.Header)
                && Cookies == MergeAll(old(Cookies), old(src.Cookies), CookieName)
      ensures src != null ==> Settings() == MergedSettings(old(src.Settings()), old(Settings()))
      ensures Unmerged() == old(Unmerged()) && client == old(client)
    {
      if src == null {
        return;
      }
      var srcHeader, srcCookies, srcSettings := src.Header, src.Cookies, src.Settings();
      MergeHeader(srcHeader);
      MergeCookies(srcCookies);
      MergeSettings(srcSettings);
    }
  }

  // ------------------------------------------------------------ scheme suffix

  /** The scheme `SetProtocolScheme` stores. */
  function WithSchemeSuffix(scheme: string): (r: string)
    ensures HasSuffix(r, "://")
  {
    if !HasSuffix(scheme, "://") then
      assert (scheme + "://")[|scheme|..] == "://";
      scheme + "://"
    else scheme
  }

  /** Setting a scheme twice is setting it once, and a scheme that already
      ends with "://" is stored as given. */
  lemma WithSchemeSuffixIdempotent(scheme: string)
    ensures WithSchemeSuffix(WithSchemeSuffix(scheme)) == WithSchemeSuffix(scheme)
    ensures HasSuffix(scheme, "://") ==> WithSchemeSuffix(scheme) == scheme
    ensures !HasSuffix(scheme, "://") ==> WithSchemeSuffix(scheme) == scheme + "://"
  {
  }

  // ------------------------------------------------------------ compression pairs

  /** Each standard compression has a decompressor for its own name that
      undoes the same algorithm. */
  lemma StandardCompressionRoundTrip(o: Option)
    requires o.Compression in {CompressionGzip, CompressionDeflate, CompressionBrotli}
    ensures o.GetCompressor(Nothing).Ok? && o.GetDecompressor(o.Compression, Nothing).Ok?
    ensures o.GetCompressor(Nothing).value == o.GetDecompressor(o.Compression, Nothing).value != Identity
  {
  }

  /** With both hooks set and a custom Content-Encoding name that is not a
      standard one, the custom decompressor answers for what the custom
      compressor produced. */
  lemma CustomCompressionRoundTrip(o: Option, compressor: Handle, decompressor: Handle)
    requires o.Compression == CompressionCustom
    requires o.CustomCompressor == Just(compressor) && o.CustomDecompressor == Just(decompressor)
    requires o.CustomCompressionType != "" && StandardAlgorithm(o.CustomCompressionType) == Nothing
    ensures o.GetCompressor(Nothing) == Ok(Coded(Custom(compressor)))
    ensures o.GetDecompressor(o.CustomCompressionType, Nothing) == Ok(Coded(Custom(decompressor)))
  {
  }
}
