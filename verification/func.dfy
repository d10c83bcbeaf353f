/** func.go: the request preparation of the package-level `doRequest`. The
    caller's option record is copied; the URL gets its scheme, the user
    agent a default, the payload a body and its compression, and the header
    list is applied with `Header.Set`. The transport is an oracle: the
    request is given the reply (or error) it will meet. */
module Func {
  import opened Wrappers
  import opened GoStrings
  import opened Streams
  import opened Http
  import opened NormaliseUrl
  import Request
  import opened Responses

  const DefaultUserAgent: string := "caelisco/client/1.1"
  const UserAgentHeader: string := "User-Agent"
  const ContentEncodingHeader: string := "Content-Encoding"
  const ErrUnsupportedCompression: string := "unsupported compression type: "

  /** The copy of `request.Options` that `doRequest` works on; the zero
      value when no option is given. */
  datatype Copy = Copy(
    ProtocolScheme: string,
    UserAgent: string,
    Headers: seq<KV>,
    Cookies: seq<Cookie>,
    Compression: string,
    DisableRedirect: bool)

  function CopyOf(options: seq<Request.Options>): (c: Copy)
    reads if |options| > 0 then {options[0]} else {}
    ensures |options| > 0 ==>
              && c.ProtocolScheme == options[0].ProtocolScheme && c.UserAgent == options[0].UserAgent
              && c.Headers == options[0].Headers && c.Cookies == options[0].Cookies
              && c.Compression == options[0].Compression && c.DisableRedirect == options[0].DisableRedirect
    ensures |options| == 0 ==> c.Headers == [] && c.Cookies == [] && c.ProtocolScheme == "" && !c.DisableRedirect
  {
    if |options| == 0 then Copy("", "", [], [], Request.CompressionNone, false)
    else
      var o := options[0];
      Copy(o.ProtocolScheme, o.UserAgent, o.Headers, o.Cookies, o.Compression, o.DisableRedirect)
  }

  /** The request body: none, the payload as it is, or the payload run
      through the named compressor (whose output is not modelled). */
  datatype Body = NoBody | Plain(bytes: seq<byte>) | Compressed(algorithm: string, bytes: seq<byte>)

  /** What the transport reports back: the final URL after redirects, the
      status line, headers, cookies, TLS state and the body bytes copied out,
      with the copy's error if it failed part way. */
  datatype Reply = Reply(
    finalURL: string,
    status: string,
    statusCode: int,
    proto: string,
    header: Header,
    transferEncoding: seq<string>,
    cookies: seq<Cookie>,
    uncompressed: bool,
    tls: Maybe<Handle>,
    body: seq<byte>,
    copyErr: Maybe<string>)

  /** The request handed to the transport. */
  datatype Outgoing = Outgoing(
    verb: string,
    url: string,
    body: Body,
    header: Header,
    cookies: seq<Cookie>,
    disableRedirect: bool,
    client: Maybe<Handle>)

  predicate Supported(compression: string) {
    compression == Request.CompressionGzip || compression == Request.CompressionDeflate
    || compression == Request.CompressionBrotli
  }

  /** The body chosen for a payload: an empty payload has none whatever the
      compression; otherwise no compression sends it plain, a supported one
      compresses it, and any other is an error. */
  function BodyFor(payload: seq<byte>, compression: string): (r: Result<Body>)
    ensures |payload| == 0 ==> r == Ok(NoBody)
    ensures r.Err? <==> |payload| > 0 && compression != Request.CompressionNone && !Supported(compression)
    ensures r.Err? ==> r.error == ErrUnsupportedCompression + compression
    ensures r.Ok? && |payload| > 0 ==>
              r.value == if compression == Request.CompressionNone then Plain(payload) else Compressed(compression, payload)
  {
    if |payload| == 0 then Ok(NoBody)
    else if compression == Request.CompressionNone then Ok(Plain(payload))
    else if Supported(compression) then Ok(Compressed(compression, payload))
    else Err(ErrUnsupportedCompression + compression)
  }

  /** The header list after preparation: the caller's headers, then the user
      agent, then the content encoding when the body is compressed. */
  function HeaderList(headers: seq<KV>, userAgent: string, payload: seq<byte>, compression: string): seq<KV> {
    headers + [KV(UserAgentHeader, PreferText(userAgent, DefaultUserAgent))]
      + if |payload| > 0 && compression != Request.CompressionNone then [KV(ContentEncodingHeader, compression)] else []
  }

  // ------------------------------------------------------------- Header.Set

  /** The header map left by `Header.Set` for each entry in turn. */
  function SetAll(hs: seq<KV>): (h: Header)
    ensures h.Keys == Keys(hs, HeaderKey)
  {
    if hs == [] then map[]
    else
      var n := |hs| - 1;
      assert Keys(hs, HeaderKey) == Keys(hs[..n], HeaderKey) + {hs[n].Key} by {
        forall k | k in Keys(hs, HeaderKey) ensures k in Keys(hs[..n], HeaderKey) + {hs[n].Key} {
          var i :| 0 <= i < |hs| && HeaderKey(hs[i]) == k;
          if i < n { assert hs[..n][i] == hs[i]; }
        }
        forall k | k in Keys(hs[..n], HeaderKey) ensures k in Keys(hs, HeaderKey) {
          var i :| 0 <= i < n && HeaderKey(hs[..n][i]) == k;
          assert hs[i] == hs[..n][i];
        }
      }
      SetAll(hs[..n])[hs[n].Key := [hs[n].Value]]
  }

  /** For a key set more than once, the last entry wins. */
  lemma {:induction false} SetAllLastWins(hs: seq<KV>, k: string)
    requires k in Keys(hs, HeaderKey)
    ensures SetAll(hs)[k] == [LastWith(hs, k, HeaderKey).Value]
  {
    var n := |hs| - 1;
    if hs[n].Key != k {
      assert k in Keys(hs[..n], HeaderKey) by {
        var i :| 0 <= i < |hs| && HeaderKey(hs[i]) == k;
        assert hs[..n][i] == hs[i];
      }
      SetAllLastWins(hs[..n], k);
    }
  }

  /** The header loop of `doRequest`. */
  method ApplyHeaders(hs: seq<KV>) returns (h: Header)
    ensures h == SetAll(hs)
  {
    h := map[];
    for i := 0 to |hs|
      invariant h == SetAll(hs[..i])
    {
      assert hs[..i + 1][..i] == hs[..i];
      h := h[hs[i].Key := [hs[i].Value]];
    }
    assert hs[..|hs|] == hs;
  }

  /** The user agent goes out as the one given, or the default when none
      is. */
  lemma UserAgentSent(headers: seq<KV>, userAgent: string, payload: seq<byte>, compression: string)
    ensures var h := SetAll(HeaderList(headers, userAgent, payload, compression));
            UserAgentHeader in h && h[UserAgentHeader] == [PreferText(userAgent, DefaultUserAgent)]
  {
    var ua := KV(UserAgentHeader, PreferText(userAgent, DefaultUserAgent));
    var hs := HeaderList(headers, userAgent, payload, compression);
    var front := headers + [ua];
    assert UserAgentHeader in Keys(hs, HeaderKey) by {
      assert hs[|headers|] == ua;
    }
    SetAllLastWins(hs, UserAgentHeader);
    if |payload| > 0 && compression != Request.CompressionNone {
      assert hs[..|hs| - 1] == front;
    } else {
      assert hs == front;
    }
  }

  /** A compressed body is announced with its algorithm; an empty payload
      carries a content encoding only if the caller set one. */
  lemma ContentEncodingSent(headers: seq<KV>, userAgent: string, payload: seq<byte>, compression: string)
    ensures var h := SetAll(HeaderList(headers, userAgent, payload, compression));
            && (|payload| > 0 && compression != Request.CompressionNone ==>
                  ContentEncodingHeader in h && h[ContentEncodingHeader] == [compression])
            && (|payload| == 0 ==>
                  (ContentEncodingHeader in h <==> ContentEncodingHeader in Keys(headers, HeaderKey)))
  {
    var hs := HeaderList(headers, userAgent, payload, compression);
    if |payload| > 0 && compression != Request.CompressionNone {
      assert hs[|hs| - 1] == KV(ContentEncodingHeader, compression);
      SetAllLastWins(hs, ContentEncodingHeader);
    } else {
      var ua := KV(UserAgentHeader, PreferText(userAgent, DefaultUserAgent));
      assert hs == headers + [ua];
      assert Keys(hs, HeaderKey) == Keys(headers, HeaderKey) + {UserAgentHeader} by {
        forall k | k in Keys(hs, HeaderKey) ensures k in Keys(headers, HeaderKey) + {UserAgentHeader} {
          var i :| 0 <= i < |hs| && HeaderKey(hs[i]) == k;
          if i < |headers| { assert headers[i] == hs[i]; }
        }
        forall k | k in Keys(headers, HeaderKey) ensures k in Keys(hs, HeaderKey) {
          var i :| 0 <= i < |headers| && HeaderKey(headers[i]) == k;
          assert hs[i] == headers[i];
        }
        assert hs[|headers|] == ua;
      }
    }
  }

  // ------------------------------------------------------------ URL rewrite

  /** The scheme rewrite of `doRequest`, step by step: it is the rewrite of
      `normaliseURL` applied to the untrimmed URL, and the stored scheme gets
      its "://". */
  method RewriteURL(url: string, scheme: string) returns (u: string, s: string)
    ensures u == Rewrite(url, scheme)
    ensures scheme != "" ==> s == WithSeparator(scheme)
    ensures scheme == "" ==> s == scheme
  {
    u, s := url, scheme;
    if s != "" {
      u := TrimPrefix(u, SchemeHTTP);
      u := TrimPrefix(u, SchemeHTTPS);
      if !Contains(s, Separator) {
        s := s + Separator;
      }
      if !HasPrefix(u, s) {
        u := s + u;
      }
    } else if !HasPrefix(u, SchemeHTTP) && !HasPrefix(u, SchemeHTTPS) {
      u := SchemeHTTPS + u;
    }
  }

  /** Unlike `normaliseURL`, this rewrite has no colon check: a host:port
      target is sent as "https://host:port" where `normaliseURL` rejects it. */
  lemma NoColonCheck(parse: UrlParser)
    ensures Rewrite("localhost:8080", "") == "https://localhost:8080"
    ensures NormaliseURL("localhost:8080", "", parse) == Err(ErrMissingSlashes)
  {
    assert OccursAt("localhost:8080", ":", 9);
    assert "localhost:8080"[0] != SchemeHTTP[0] && "localhost:8080"[0] != SchemeHTTPS[0];
    assert !Contains("localhost:8080", Separator) by {
      var host := "localhost:8080";
      forall i | 0 <= i <= |host| ensures !OccursAt(host, Separator, i) {
        if i + 3 <= |host| {
          assert host[i..i + 3][1] == host[i + 1] && host[i + 1] != '/';
        }
      }
    }
    assert TrimSpace("localhost:8080") == "localhost:8080" by {
      TrimSpaceOfTrimmed("localhost:8080");
    }
  }

  // ---------------------------------------------------------- redirect flag

  /** The redirect test of `doRequest`: the final URL's `len`, in UTF-8
      bytes, differs from the requested one's. A flagged response did end at
      another URL. */
  function Redirected(requested: string, final: string): (b: bool)
    ensures b ==> requested != final
  {
    Utf8Length(final) != Utf8Length(requested)
  }

  /** The converse fails: a redirect that swaps one rune of the URL for
      another of the same UTF-8 width, such as another host letter, reaches
      a different URL and is not flagged. */
  lemma SameLengthRedirectNotFlagged(prefix: string, c: char, d: char, suffix: string)
    requires c != d && Utf8Width(c) == Utf8Width(d)
    ensures prefix + [c] + suffix != prefix + [d] + suffix
    ensures !Redirected(prefix + [c] + suffix, prefix + [d] + suffix)
  {
    assert (prefix + [c] + suffix)[|prefix|] == c;
    assert (prefix + [d] + suffix)[|prefix|] == d;
    Utf8LengthAppend(prefix + [c], suffix);
    Utf8LengthAppend(prefix, [c]);
    Utf8LengthAppend(prefix + [d], suffix);
    Utf8LengthAppend(prefix, [d]);
    assert [c][1..] == [] && [d][1..] == [];
  }


  /** Lengths are counted in bytes: after any common prefix, two 2-byte
      runes against two ASCII ones are as many runes but not as many bytes,
      so the responses are flagged as redirected. */
  lemma ByteLengthsCompared(prefix: string)
    ensures |prefix + "\U{E9}\U{E9}"| == |prefix + "ab"|
    ensures Redirected(prefix + "\U{E9}\U{E9}", prefix + "ab")
  {
    var accents, plain := "\U{E9}\U{E9}", "ab";
    Utf8LengthAppend(prefix, accents);
    Utf8LengthAppend(prefix, plain);
    assert accents[1..] == "\U{E9}" && accents[1..][1..] == [];
    assert plain[1..] == "b" && plain[1..][1..] == [];
    assert Utf8Length(accents) == 4;
    assert Utf8Length(plain) == 2;
  }



  // -------------------------------------------------------------- doRequest

  /** The preparation steps of `doRequest` on its copy of the options: the
      URL rewrite, the user-agent default and header, and the body with its
      content-encoding header (the early return on an unsupported
      compression is the `Err` body). */
  method Prepare(url: string, payload: seq<byte>, o: Copy) returns (u: string, opt: Copy, body: Result<Body>)
    ensures u == Rewrite(url, o.ProtocolScheme)
    ensures body == BodyFor(payload, o.Compression)
    ensures opt.Compression == o.Compression && opt.Cookies == o.Cookies && opt.DisableRedirect == o.DisableRedirect
    ensures body.Ok? ==> opt.Headers == HeaderList(o.Headers, o.UserAgent, payload, o.Compression)
  {
    opt := o;
    var scheme;
    u, scheme := RewriteURL(url, opt.ProtocolScheme);
    opt := opt.(ProtocolScheme := scheme);
    if opt.UserAgent == "" {
      opt := opt.(UserAgent := DefaultUserAgent);
    }
    opt := opt.(Headers := opt.Headers + [KV(UserAgentHeader, opt.UserAgent)]);
    body := Ok(NoBody);
    if |payload| > 0 {
      if opt.Compression != Request.CompressionNone {
        if Supported(opt.Compression) {
          body := Ok(Compressed(opt.Compression, payload));
        } else {
          body := Err(ErrUnsupportedCompression + opt.Compression);
          return;
        }
        opt := opt.(Headers := opt.Headers + [KV(ContentEncodingHeader, opt.Compression)]);
      } else {
        body := Ok(Plain(payload));
      }
    }
  }

  /** The response record once the transport's reply is in: the request's
      own fields and request time are kept, the redirect flag follows the
      length rule, every reply field is copied, and a body copy error
      becomes the response's error. */
  function Filled(pending: Response, reply: Reply, responseTime: int, accessTime: int): (r: Response)
    requires !pending.Redirected
    ensures r.UniqueIdentifier == pending.UniqueIdentifier && r.URL == pending.URL && r.Method == pending.Method
    ensures r.RequestPayload == pending.RequestPayload && r.CompressionType == pending.CompressionType
    ensures r.RequestTime == pending.RequestTime && r.ContentLength == pending.ContentLength
    ensures r.ResponseTime == responseTime && r.AccessTime == accessTime
    ensures r.Redirected == Redirected(r.URL, reply.finalURL)
    ensures r.Location == (if r.Redirected then reply.finalURL else pending.Location)
    ensures && r.Status == reply.status && r.StatusCode == reply.statusCode && r.Proto == reply.proto
            && r.Header == reply.header && r.TransferEncoding == reply.transferEncoding
            && r.Cookies == reply.cookies && r.Uncompressed == reply.uncompressed && r.TLS == reply.tls
            && r.Body == reply.body
    ensures r.Error == (if reply.copyErr.Just? then reply.copyErr else pending.Error)
  {
    var redirected := Redirected(pending.URL, reply.finalURL);
    pending.(ResponseTime := responseTime, Redirected := redirected,
             Location := if redirected then reply.finalURL else pending.Location,
             Status := reply.status, StatusCode := reply.statusCode, Proto := reply.proto,
             Header := reply.header, TransferEncoding := reply.transferEncoding, Cookies := reply.cookies,
             AccessTime := accessTime, Uncompressed := reply.uncompressed, TLS := reply.tls,
             Body := reply.body, Error := if reply.copyErr.Just? then reply.copyErr else pending.Error)
  }

  /** The response record filled from the transport's reply, step by step
      as the source fills it, and the error of copying the body out. */
  method Complete(pending: Response, reply: Reply, responseTime: int, accessTime: int) returns (resp: Response, err: Maybe<string>)
    requires !pending.Redirected
    ensures resp == Filled(pending, reply, responseTime, accessTime)
    ensures err == reply.copyErr
  {
    resp := pending.(ResponseTime := responseTime);
    if Redirected(resp.URL, reply.finalURL) {
      resp := resp.(Redirected := true, Location := reply.finalURL);
    }
    resp := resp.(Status := reply.status, StatusCode := reply.statusCode, Proto := reply.proto,
                  Header := reply.header, TransferEncoding := reply.transferEncoding, Cookies := reply.cookies,
                  AccessTime := accessTime, Uncompressed := reply.uncompressed, TLS := reply.tls);
    resp := resp.(Body := reply.body);
    if reply.copyErr.Just? {
      resp := resp.(Error := reply.copyErr);
      err := reply.copyErr;
      return;
    }
    err := Nothing;
  }

  /** `doRequest(client, method, url, payload, options...)`, with the
      request identifier, the error `http.NewRequest` would give, the
      transport's outcome and the clock readings given. */
  method DoRequest(client: Maybe<Handle>, verb: string, url: string, payload: seq<byte>, options: seq<Request.Options>,
                   id: string, requestErr: Maybe<string>, transport: Result<Reply>,
                   requestTime: int, responseTime: int, accessTime: int)
    returns (resp: Response, err: Maybe<string>, ghost sent: Maybe<Outgoing>)
    ensures var o := CopyOf(options);
            && resp.UniqueIdentifier == id && resp.URL == Rewrite(url, o.ProtocolScheme) && resp.Method == verb
            && resp.RequestPayload == payload && resp.CompressionType == o.Compression
    ensures var o := CopyOf(options);
            BodyFor(payload, o.Compression).Err? ==>
              && err == Just(BodyFor(payload, o.Compression).error) && sent == Nothing
              && resp == Pending(id, Rewrite(url, o.ProtocolScheme), verb, payload, o.Compression)
    ensures var o := CopyOf(options);
            BodyFor(payload, o.Compression).Ok? && requestErr.Just? ==>
              && err == requestErr && sent == Nothing
              && resp == Pending(id, Rewrite(url, o.ProtocolScheme), verb, payload, o.Compression).(Error := requestErr)
    ensures var o := CopyOf(options);
            BodyFor(payload, o.Compression).Ok? && requestErr == Nothing ==>
              sent == Just(Outgoing(verb, Rewrite(url, o.ProtocolScheme), BodyFor(payload, o.Compression).value,
                                    SetAll(HeaderList(o.Headers, o.UserAgent, payload, o.Compression)),
                                    o.Cookies, o.DisableRedirect, client))
    ensures var o := CopyOf(options);
            var pending := Pending(id, Rewrite(url, o.ProtocolScheme), verb, payload, o.Compression).(RequestTime := requestTime);
            && (sent.Just? && transport.Err? ==>
                  err == Just(transport.error) && resp == pending.(Error := err))
            && (sent.Just? && transport.Ok? ==>
                  err == transport.value.copyErr && resp == Filled(pending, transport.value, responseTime, accessTime))
  {
    var opt := CopyOf(options);
    var u, body;
    u, opt, body := Prepare(url, payload, opt);
    resp := Pending(id, u, verb, payload, opt.Compression);
    sent := Nothing;
    if body.Err? {
      err := Just(body.error);
      return;
    }
    if requestErr.Just? {
      resp := resp.(Error := requestErr);
      err := requestErr;
      return;
    }
    var header := ApplyHeaders(opt.Headers);
    sent := Just(Outgoing(verb, u, body.value, header, opt.Cookies, opt.DisableRedirect, client));
    resp := resp.(RequestTime := requestTime);
    if transport.Err? {
      err := Just(transport.error);
      resp := resp.(Error := err);
      return;
    }
    resp, err := Complete(resp, transport.value, responseTime, accessTime);
  }
}
