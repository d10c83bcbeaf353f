/** client.go: the reusable client. It keeps global options that every
    request merges in (global values win), an append-only log of responses,
    and the verb and form helpers. The transport is an oracle: each request
    is given the response and error it will end with. */
module Client {
  import opened Wrappers
  import opened Streams
  import opened Http
  import opened ResponseSink
  import opened Options
  import Form
  import opened Responses

  const MethodGet: string := "GET"
  const MethodHead: string := "HEAD"
  const MethodPost: string := "POST"
  const MethodPut: string := "PUT"
  const MethodPatch: string := "PATCH"
  const MethodDelete: string := "DELETE"
  const MethodConnect: string := "CONNECT"
  const MethodTrace: string := "TRACE"

  const ContentType: string := "Content-Type"
  const FormUrlEncoded: string := "application/x-www-form-urlencoded"

  /** The `&http.Client{}` a new client makes. */
  const BareClient: Handle := 4

  /** What one request hands to the transport. */
  datatype Sent = Sent(
    verb: string,
    url: string,
    payload: Payload,
    header: Header,
    cookies: seq<Cookie>,
    settings: OptionSettings,
    client: Maybe<Handle>)

  /** The headers of the option a request starts from, before the global
      options are merged in. */
  function BaseHeader(opts: seq<Option>): Header
    reads if |opts| > 0 then {opts[0]} else {}
  {
    if |opts| > 0 then opts[0].Header else map[]
  }

  /** The cookies of the option a request starts from: an uninitialised
      option is first merged into a fresh default. */
  function BaseCookies(opts: seq<Option>): seq<Cookie>
    reads if |opts| > 0 then {opts[0]} else {}
  {
    if |opts| == 0 then []
    else if opts[0].initialised then opts[0].Cookies
    else MergeAll([], opts[0].Cookies, CookieName)
  }

  /** The headers a form helper starts from: the caller's, with the form
      content type set. */
  function FormHeader(opts: seq<Option>): Header
    reads if |opts| > 0 then {opts[0]} else {}
  {
    BaseHeader(opts)[ContentType := [FormUrlEncoded]]
  }

  /** The cookies a form helper starts from: the caller's option is merged
      into a zero option, which the request then merges into a default. */
  function FormCookies(opts: seq<Option>): seq<Cookie>
    reads if |opts| > 0 then {opts[0]} else {}
  {
    MergeAll([], if |opts| > 0 then MergeAll([], opts[0].Cookies, CookieName) else [], CookieName)
  }

  /** The settings of the option a request starts from: an initialised
      option's own, an uninitialised option's merged into the defaults, or
      the defaults. */
  function BaseSettings(opts: seq<Option>): OptionSettings
    reads if |opts| > 0 then {opts[0]} else {}
  {
    if |opts| == 0 then DefaultOptionSettings()
    else if opts[0].initialised then opts[0].Settings()
    else MergedSettings(opts[0].Settings(), DefaultOptionSettings())
  }

  /** The settings a form helper starts from: the caller's merged into a
      zero option, which the request then merges into the defaults. */
  function FormSettings(opts: seq<Option>): OptionSettings
    reads if |opts| > 0 then {opts[0]} else {}
  {
    MergedSettings(if |opts| > 0 then MergedSettings(opts[0].Settings(), ZeroSettings()) else ZeroSettings(),
                   DefaultOptionSettings())
  }

  /** An initialised per-call option is the one the request uses, so after
      the request it holds what was sent. */
  ghost predicate HoldsSent(o: Option, sent: Sent)
    reads o
  {
    o.Header == sent.header && o.Cookies == sent.cookies && o.Settings() == sent.settings && o.client == sent.client
  }

  /** The option a form helper builds: a zero option with the caller's
      option merged in and the form content type set. */
  method FormOption(opts: seq<Option>) returns (opt: Option)
    ensures fresh(opt) && !opt.initialised
    ensures BaseHeader([opt]) == FormHeader(opts) && BaseCookies([opt]) == FormCookies(opts)
    ensures BaseSettings([opt]) == FormSettings(opts)
  {
    opt := new Option.Zero();
    assert opt.Settings() == ZeroSettings();
    if |opts| > 0 {
      opt.Merge(opts[0]);
      assert map[] + opts[0].Header == opts[0].Header;
    }
    opt.AddHeader(ContentType, FormUrlEncoded);
  }

  /** A request built on `baseHeader`, `baseCookies` and `baseSettings`
      with a clone of the global options merged over them: on a shared header
      key or cookie name the global value wins, and the clone's default
      settings are merged over the base settings (see `DefaultsWin` for which
      of them that overwrites and which it keeps). */
  ghost predicate SentBy(sent: Sent, verb: string, url: string, payload: Payload,
                         baseHeader: Header, baseCookies: seq<Cookie>, baseSettings: OptionSettings,
                         globalHeader: Header, globalCookies: seq<Cookie>, client: Maybe<Handle>)
  {
    && sent.verb == verb && sent.url == url && sent.payload == payload && sent.client == client
    && sent.header == baseHeader + globalHeader
    && sent.cookies == MergeAll(baseCookies, globalCookies, CookieName)
    && sent.settings == MergedSettings(DefaultOptionSettings(), baseSettings)
  }

  /** Global values win in every request: a global header replaces the
      caller's value for its key, other caller headers survive, and the
      first cookie named `name` is the global cookie of that name. */
  lemma GlobalWins(sent: Sent, verb: string, url: string, payload: Payload,
                   baseHeader: Header, baseCookies: seq<Cookie>, baseSettings: OptionSettings,
                   globalHeader: Header, globalCookies: seq<Cookie>, client: Maybe<Handle>, name: string)
    requires SentBy(sent, verb, url, payload, baseHeader, baseCookies, baseSettings, globalHeader, globalCookies, client)
    requires name in Keys(globalCookies, CookieName)
    ensures forall k :: k in globalHeader ==> sent.header[k] == globalHeader[k]
    ensures forall k :: k in baseHeader && k !in globalHeader ==> sent.header[k] == baseHeader[k]
    ensures FindFirst(sent.cookies, name, CookieName) < |sent.cookies|
    ensures sent.cookies[FindFirst(sent.cookies, name, CookieName)] == LastWith(globalCookies, name, CookieName)
  {
    MergeAllSourceWins(baseCookies, globalCookies, CookieName, name);
  }

  /** Merging the defaults over any settings: the defaults that are set
      win (the switches, the redirect limit, the logger, the transport, the
      sink, the user agent and the identifier kind), and the scheme, the
      compression settings, the hooks and the download buffer size, which
      the defaults leave empty, are kept. */
  lemma DefaultsWin(s: OptionSettings)
    ensures var m := MergedSettings(DefaultOptionSettings(), s);
      && m.MaxRedirects == DefaultMaxRedirects && !m.FollowRedirects && !m.PreserveMethodOnRedirect && !m.Verbose
      && m.Logger == Just(DefaultLogger) && m.Transport == Just(DefaultTransport)
      && m.ResponseWriter == BufferOutput && m.UserAgent == UA && m.UniqueIdentifierType == IdentifierULID
      && m.ProtocolScheme == s.ProtocolScheme && m.CustomCompressionType == s.CustomCompressionType
      && m.Compression == s.Compression
      && m.CustomCompressor == s.CustomCompressor && m.CustomDecompressor == s.CustomDecompressor
      && m.DownloadBufferSize == s.DownloadBufferSize
      && m.OnUploadProgress == s.OnUploadProgress && m.OnDownloadProgress == s.OnDownloadProgress
  {
  }

  /** The header loop of `CloneGlobalOptions`: every key with a new slice of
      the same values. */
  method CloneHeader(h: Header) returns (c: Header)
    ensures c == h
  {
    c := map[];
    var keys := h.Keys;
    while keys != {}
      invariant keys <= h.Keys
      invariant c == map k | k in h && k !in keys :: h[k]
      decreases |keys|
    {
      var key :| key in keys;
      c := c[key := h[key]];
      keys := keys - {key};
    }
  }

  /** The cookie loop of `CloneGlobalOptions`: a new cookie per cookie,
      field by field, in the same order. */
  method CloneCookies(cs: seq<Cookie>) returns (c: seq<Cookie>)
    ensures c == cs
  {
    c := [];
    for i := 0 to |cs|
      invariant c == cs[..i]
    {
      var k := cs[i];
      c := c + [Cookie(k.Name, k.Value, k.Path, k.Domain, k.Expires, k.RawExpires,
                       k.MaxAge, k.Secure, k.HttpOnly, k.SameSite, k.Raw, k.Unparsed)];
    }
    assert cs[..|cs|] == cs;
  }

  class Client {
    /** The `*http.Client` requests go through. */
    var client: Maybe<Handle>
    var responses: seq<Response>
    var global: Option

    /** `New(opts...)`: the global options are `options.New(opts...)`. */
    constructor New(opts: seq<Option>)
      ensures client == Just(BareClient) && responses == []
      ensures |opts| > 0 && opts[0].initialised ==> global == opts[0]
      ensures |opts| == 0 ==> fresh(global) && global.IsDefault()
      ensures |opts| > 0 && !opts[0].initialised ==> fresh(global) && global.StartedFrom(opts[0])
    {
      var g := Option.New(opts);
      client := Just(BareClient);
      responses := [];
      global := g;
    }

    /** `NewCustom(client, opts...)`. */
    constructor NewCustom(httpClient: Handle, opts: seq<Option>)
      ensures client == Just(httpClient) && responses == []
      ensures |opts| > 0 && opts[0].initialised ==> global == opts[0]
      ensures |opts| == 0 ==> fresh(global) && global.IsDefault()
      ensures |opts| > 0 && !opts[0].initialised ==> fresh(global) && global.StartedFrom(opts[0])
    {
      var g := Option.New(opts);
      client := Just(httpClient);
      responses := [];
      global := g;
    }

    method GetGlobalOptions() returns (o: Option)
      ensures o == global
    {
      o := global;
    }

    /** `AddGlobalOptions`: the options are merged into the existing global
        options. */
    method AddGlobalOptions(opts: Option?)
      modifies global
      ensures opts == null ==> unchanged(global)
      ensures opts != null ==>
                && global.Header == old(global.Header) + old(opts.Header)
                && global.Cookies == MergeAll(old(global.Cookies), old(opts.Cookies), CookieName)
                && global.Settings() == MergedSettings(old(opts.Settings()), old(global.Settings()))
      ensures global.Unmerged() == old(global.Unmerged()) && global.client == old(global.client)
    {
      global.Merge(opts);
    }

    /** `UpdateGlobalOptions`: the options replace the global options. */
    method UpdateGlobalOptions(opts: Option)
      modifies this`global
      ensures global == opts
    {
      global := opts;
    }

    /** `CloneGlobalOptions`: a fresh default option holding copies of the
        global headers and cookies, and nothing else of the global options. */
    method CloneGlobalOptions() returns (opt: Option)
      ensures fresh(opt)
      ensures opt.DefaultSettings() && opt.Settings() == DefaultOptionSettings()
      ensures opt.Header == global.Header && opt.Cookies == global.Cookies
    {
      opt := Option.New([]);
      assert opt.Settings() == DefaultOptionSettings();
      var header := CloneHeader(global.Header);
      var cookies := CloneCookies(global.Cookies);
      opt.Header, opt.Cookies := header, cookies;
    }

    /** `Clear`: the response log is emptied. */
    method Clear()
      modifies this`responses
      ensures responses == []
    {
      responses := [];
    }

    method Responses() returns (rs: seq<Response>)
      ensures rs == responses
    {
      rs := responses;
    }

    /** `opt.Merge(c.CloneGlobalOptions())` then `opt.SetClient(c.client)`:
        the global headers and cookies win, the clone's default settings are
        merged over the option's own, and nothing else of the option moves. */
    method MergeClone(opt: Option)
      modifies opt
      ensures opt.Header == old(opt.Header) + old(global.Header)
      ensures opt.Cookies == MergeAll(old(opt.Cookies), old(global.Cookies), CookieName)
      ensures opt.Settings() == MergedSettings(DefaultOptionSettings(), old(opt.Settings()))
      ensures opt.client == client && opt.Unmerged() == old(opt.Unmerged())
    {
      var clone := CloneGlobalOptions();
      opt.Merge(clone);
      opt.SetClient(client);
    }

    /** The first three steps of `doRequest`: the option the request goes
        out with is `options.New(opts...)` with a clone of the global options
        merged over it and the client set. An initialised per-call option is
        that option itself; an uninitialised one is left alone. */
    method RequestOption(opts: seq<Option>) returns (opt: Option)
      modifies if |opts| > 0 then {opts[0]} else {}
      ensures |opts| > 0 && old(opts[0].initialised) ==> opt == opts[0] && opt.Unmerged() == old(opts[0].Unmerged())
      ensures |opts| > 0 && !old(opts[0].initialised) ==> unchanged(opts[0])
      ensures opt.Header == old(BaseHeader(opts)) + old(global.Header)
      ensures opt.Cookies == MergeAll(old(BaseCookies(opts)), old(global.Cookies), CookieName)
      ensures opt.Settings() == MergedSettings(DefaultOptionSettings(), old(BaseSettings(opts)))
      ensures opt.client == client
    {
      opt := Option.New(opts);
      MergeClone(opt);
    }

    /** `doRequest`: the per-call option (an initialised one is used and
        changed in place) has a clone of the global options merged over it,
        goes out with the client, and the outcome is appended to the log
        whether or not it is an error. */
    method DoRequest(verb: string, url: string, payload: Payload, opts: seq<Option>, outcome: (Response, Maybe<string>))
      returns (r: Response, err: Maybe<string>, ghost sent: Sent)
      modifies this`responses, if |opts| > 0 then {opts[0]} else {}
      ensures (r, err) == outcome
      ensures responses == old(responses) + [r]
      ensures SentBy(sent, verb, url, payload, old(BaseHeader(opts)), old(BaseCookies(opts)), old(BaseSettings(opts)),
                     old(global.Header), old(global.Cookies), client)
      ensures |opts| > 0 && old(opts[0].initialised) ==> HoldsSent(opts[0], sent)
      ensures |opts| > 0 && old(opts[0].initialised) ==> opts[0].Unmerged() == old(opts[0].Unmerged())
      ensures |opts| > 0 && !old(opts[0].initialised) ==> unchanged(opts[0])
    {
      var opt := RequestOption(opts);
      sent := Sent(verb, url, payload, opt.Header, opt.Cookies, opt.Settings(), opt.client);
      r, err := outcome.0, outcome.1;
      responses := responses + [r];
    }

    /** `Get`. */
    method Get(url: string, opts: seq<Option>, outcome: (Response, Maybe<string>))
      returns (r: Response, err: Maybe<string>, ghost sent: Sent)
      modifies this`responses, if |opts| > 0 then {opts[0]} else {}
      ensures (r, err) == outcome && responses == old(responses) + [r]
      ensures SentBy(sent, MethodGet, url, NilPayload, old(BaseHeader(opts)), old(BaseCookies(opts)), old(BaseSettings(opts)),
                     old(global.Header), old(global.Cookies), client)
      ensures |opts| > 0 && old(opts[0].initialised) ==> HoldsSent(opts[0], sent)
      ensures |opts| > 0 && old(opts[0].initialised) ==> opts[0].Unmerged() == old(opts[0].Unmerged())
      ensures |opts| > 0 && !old(opts[0].initialised) ==> unchanged(opts[0])
    {
      r, err, sent := DoRequest(MethodGet, url, NilPayload, opts, outcome);
    }

    /** `Post`. */
    method Post(url: string, payload: Payload, opts: seq<Option>, outcome: (Response, Maybe<string>))
      returns (r: Response, err: Maybe<string>, ghost sent: Sent)
      modifies this`responses, if |opts| > 0 then {opts[0]} else {}
      ensures (r, err) == outcome && responses == old(responses) + [r]
      ensures SentBy(sent, MethodPost, url, payload, old(BaseHeader(opts)), old(BaseCookies(opts)), old(BaseSettings(opts)),
                     old(global.Header), old(global.Cookies), client)
      ensures |opts| > 0 && old(opts[0].initialised) ==> HoldsSent(opts[0], sent)
      ensures |opts| > 0 && old(opts[0].initialised) ==> opts[0].Unmerged() == old(opts[0].Unmerged())
      ensures |opts| > 0 && !old(opts[0].initialised) ==> unchanged(opts[0])
    {
      r, err, sent := DoRequest(MethodPost, url, payload, opts, outcome);
    }

    /** `Put`. */
    method Put(url: string, payload: Payload, opts: seq<Option>, outcome: (Response, Maybe<string>))
      returns (r: Response, err: Maybe<string>, ghost sent: Sent)
      modifies this`responses, if |opts| > 0 then {opts[0]} else {}
      ensures (r, err) == outcome && responses == old(responses) + [r]
      ensures SentBy(sent, MethodPut, url, payload, old(BaseHeader(opts)), old(BaseCookies(opts)), old(BaseSettings(opts)),
                     old(global.Header), old(global.Cookies), client)
      ensures |opts| > 0 && old(opts[0].initialised) ==> HoldsSent(opts[0], sent)
      ensures |opts| > 0 && old(opts[0].initialised) ==> opts[0].Unmerged() == old(opts[0].Unmerged())
      ensures |opts| > 0 && !old(opts[0].initialised) ==> unchanged(opts[0])
    {
      r, err, sent := DoRequest(MethodPut, url, payload, opts, outcome);
    }

    /** `Patch`. */
    method Patch(url: string, payload: Payload, opts: seq<Option>, outcome: (Response, Maybe<string>))
      returns (r: Response, err: Maybe<string>, ghost sent: Sent)
      modifies this`responses, if |opts| > 0 then {opts[0]} else {}
      ensures (r, err) == outcome && responses == old(responses) + [r]
      ensures SentBy(sent, MethodPatch, url, payload, old(BaseHeader(opts)), old(BaseCookies(opts)), old(BaseSettings(opts)),
                     old(global.Header), old(global.Cookies), client)
      ensures |opts| > 0 && old(opts[0].initialised) ==> HoldsSent(opts[0], sent)
      ensures |opts| > 0 && old(opts[0].initialised) ==> opts[0].Unmerged() == old(opts[0].Unmerged())
      ensures |opts| > 0 && !old(opts[0].initialised) ==> unchanged(opts[0])
    {
      r, err, sent := DoRequest(MethodPatch, url, payload, opts, outcome);
    }

    /** `Delete`. */
    method Delete(url: string, opts: seq<Option>, outcome: (Response, Maybe<string>))
      returns (r: Response, err: Maybe<string>, ghost sent: Sent)
      modifies this`responses, if |opts| > 0 then {opts[0]} else {}
      ensures (r, err) == outcome && responses == old(responses) + [r]
      ensures SentBy(sent, MethodDelete, url, NilPayload, old(BaseHeader(opts)), old(BaseCookies(opts)), old(BaseSettings(opts)),
                     old(global.Header), old(global.Cookies), client)
      ensures |opts| > 0 && old(opts[0].initialised) ==> HoldsSent(opts[0], sent)
      ensures |opts| > 0 && old(opts[0].initialised) ==> opts[0].Unmerged() == old(opts[0].Unmerged())
      ensures |opts| > 0 && !old(opts[0].initialised) ==> unchanged(opts[0])
    {
      r, err, sent := DoRequest(MethodDelete, url, NilPayload, opts, outcome);
    }

    /** `Connect`. */
    method Connect(url: string, opts: seq<Option>, outcome: (Response, Maybe<string>))
      returns (r: Response, err: Maybe<string>, ghost sent: Sent)
      modifies this`responses, if |opts| > 0 then {opts[0]} else {}
      ensures (r, err) == outcome && responses == old(responses) + [r]
      ensures SentBy(sent, MethodConnect, url, NilPayload, old(BaseHeader(opts)), old(BaseCookies(opts)), old(BaseSettings(opts)),
                     old(global.Header), old(global.Cookies), client)
      ensures |opts| > 0 && old(opts[0].initialised) ==> HoldsSent(opts[0], sent)
      ensures |opts| > 0 && old(opts[0].initialised) ==> opts[0].Unmerged() == old(opts[0].Unmerged())
      ensures |opts| > 0 && !old(opts[0].initialised) ==> unchanged(opts[0])
    {
      r, err, sent := DoRequest(MethodConnect, url, NilPayload, opts, outcome);
    }

    /** `Head`. */
    method Head(url: string, opts: seq<Option>, outcome: (Response, Maybe<string>))
      returns (r: Response, err: Maybe<string>, ghost sent: Sent)
      modifies this`responses, if |opts| > 0 then {opts[0]} else {}
      ensures (r, err) == outcome && responses == old(responses) + [r]
      ensures SentBy(sent, MethodHead, url, NilPayload, old(BaseHeader(opts)), old(BaseCookies(opts)), old(BaseSettings(opts)),
                     old(global.Header), old(global.Cookies), client)
      ensures |opts| > 0 && old(opts[0].initialised) ==> HoldsSent(opts[0], sent)
      ensures |opts| > 0 && old(opts[0].initialised) ==> opts[0].Unmerged() == old(opts[0].Unmerged())
      ensures |opts| > 0 && !old(opts[0].initialised) ==> unchanged(opts[0])
    {
      r, err, sent := DoRequest(MethodHead, url, NilPayload, opts, outcome);
    }

    /** `Options`: sent with method HEAD, like `Head`. */
    method Options(url: string, opts: seq<Option>, outcome: (Response, Maybe<string>))
      returns (r: Response, err: Maybe<string>, ghost sent: Sent)
      modifies this`responses, if |opts| > 0 then {opts[0]} else {}
      ensures (r, err) == outcome && responses == old(responses) + [r]
      ensures SentBy(sent, MethodHead, url, NilPayload, old(BaseHeader(opts)), old(BaseCookies(opts)), old(BaseSettings(opts)),
                     old(global.Header), old(global.Cookies), client)
      ensures |opts| > 0 && old(opts[0].initialised) ==> HoldsSent(opts[0], sent)
      ensures |opts| > 0 && old(opts[0].initialised) ==> opts[0].Unmerged() == old(opts[0].Unmerged())
      ensures |opts| > 0 && !old(opts[0].initialised) ==> unchanged(opts[0])
    {
      r, err, sent := DoRequest(MethodHead, url, NilPayload, opts, outcome);
    }

    /** `Trace`. */
    method Trace(url: string, opts: seq<Option>, outcome: (Response, Maybe<string>))
      returns (r: Response, err: Maybe<string>, ghost sent: Sent)
      modifies this`responses, if |opts| > 0 then {opts[0]} else {}
      ensures (r, err) == outcome && responses == old(responses) + [r]
      ensures SentBy(sent, MethodTrace, url, NilPayload, old(BaseHeader(opts)), old(BaseCookies(opts)), old(BaseSettings(opts)),
                     old(global.Header), old(global.Cookies), client)
      ensures |opts| > 0 && old(opts[0].initialised) ==> HoldsSent(opts[0], sent)
      ensures |opts| > 0 && old(opts[0].initialised) ==> opts[0].Unmerged() == old(opts[0].Unmerged())
      ensures |opts| > 0 && !old(opts[0].initialised) ==> unchanged(opts[0])
    {
      r, err, sent := DoRequest(MethodTrace, url, NilPayload, opts, outcome);
    }

    /** `Custom`: any method, with a payload. */
    method Custom(verb: string, url: string, payload: Payload, opts: seq<Option>, outcome: (Response, Maybe<string>))
      returns (r: Response, err: Maybe<string>, ghost sent: Sent)
      modifies this`responses, if |opts| > 0 then {opts[0]} else {}
      ensures (r, err) == outcome && responses == old(responses) + [r]
      ensures SentBy(sent, verb, url, payload, old(BaseHeader(opts)), old(BaseCookies(opts)), old(BaseSettings(opts)),
                     old(global.Header), old(global.Cookies), client)
      ensures |opts| > 0 && old(opts[0].initialised) ==> HoldsSent(opts[0], sent)
      ensures |opts| > 0 && old(opts[0].initialised) ==> opts[0].Unmerged() == old(opts[0].Unmerged())
      ensures |opts| > 0 && !old(opts[0].initialised) ==> unchanged(opts[0])
    {
      r, err, sent := DoRequest(verb, url, payload, opts, outcome);
    }

    /** `PostFormData`: the map, form-encoded in some key order, is sent with
        the form content type added to a copy of the caller's option. */
    method PostFormData(url: string, payload: Form.Values, opts: seq<Option>, outcome: (Response, Maybe<string>))
      returns (r: Response, err: Maybe<string>, ghost sent: Sent, ghost order: seq<Form.Text>)
      modifies this`responses
      ensures (r, err) == outcome && responses == old(responses) + [r]
      ensures Form.Ordering(payload, order)
      ensures SentBy(sent, MethodPost, url, ByteSlice(Form.Join(Form.Pieces(payload, order), Form.Amp)),
                     old(FormHeader(opts)), old(FormCookies(opts)), old(FormSettings(opts)),
                     old(global.Header), old(global.Cookies), client)
      ensures ContentType !in old(global.Header) ==> sent.header[ContentType] == [FormUrlEncoded]
    {
      var opt := FormOption(opts);
      var body;
      body, order := Form.Encode(payload);
      r, err, sent := Post(url, ByteSlice(body), [opt], outcome);
    }

    /** `PutFormData`: the map, form-encoded in some key order, is sent with
        the form content type added to a copy of the caller's option. */
    method PutFormData(url: string, payload: Form.Values, opts: seq<Option>, outcome: (Response, Maybe<string>))
      returns (r: Response, err: Maybe<string>, ghost sent: Sent, ghost order: seq<Form.Text>)
      modifies this`responses
      ensures (r, err) == outcome && responses == old(responses) + [r]
      ensures Form.Ordering(payload, order)
      ensures SentBy(sent, MethodPut, url, ByteSlice(Form.Join(Form.Pieces(payload, order), Form.Amp)),
                     old(FormHeader(opts)), old(FormCookies(opts)), old(FormSettings(opts)),
                     old(global.Header), old(global.Cookies), client)
      ensures ContentType !in old(global.Header) ==> sent.header[ContentType] == [FormUrlEncoded]
    {
      var opt := FormOption(opts);
      var body;
      body, order := Form.Encode(payload);
      r, err, sent := Put(url, ByteSlice(body), [opt], outcome);
    }

    /** `PatchFormData`: the map, form-encoded in some key order, is sent with
        the form content type added to a copy of the caller's option. */
    method PatchFormData(url: string, payload: Form.Values, opts: seq<Option>, outcome: (Response, Maybe<string>))
      returns (r: Response, err: Maybe<string>, ghost sent: Sent, ghost order: seq<Form.Text>)
      modifies this`responses
      ensures (r, err) == outcome && responses == old(responses) + [r]
      ensures Form.Ordering(payload, order)
      ensures SentBy(sent, MethodPatch, url, ByteSlice(Form.Join(Form.Pieces(payload, order), Form.Amp)),
                     old(FormHeader(opts)), old(FormCookies(opts)), old(FormSettings(opts)),
                     old(global.Header), old(global.Cookies), client)
      ensures ContentType !in old(global.Header) ==> sent.header[ContentType] == [FormUrlEncoded]
    {
      var opt := FormOption(opts);
      var body;
      body, order := Form.Encode(payload);
      r, err, sent := Patch(url, ByteSlice(body), [opt], outcome);
    }
  }
}
