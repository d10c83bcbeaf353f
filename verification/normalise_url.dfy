/** `normaliseURL` of normalise_url.go: trims the target URL, rejects a colon
    that does not start "://", forces or defaults the protocol scheme and
    lets `net/url.Parse` have the last word. */
module NormaliseUrl {
  import opened Wrappers
  import opened GoStrings

  const SchemeHTTP: string := "http://"
  const SchemeHTTPS: string := "https://"
  const Separator: string := "://"
  const ErrMissingSlashes: string := "invalid URL format: missing // after scheme"

  /** `net/url.Parse`, left uninterpreted: `Nothing` when the string parses,
      otherwise the parser's error message. */
  type UrlParser = string -> Maybe<string>

  /** The input contains a colon, but nowhere "://". */
  predicate MalformedColon(u: string) {
    Contains(u, ":") && !Contains(u, Separator)
  }

  /** The scheme override with "://" appended when it contains none. */
  function WithSeparator(scheme: string): string {
    if Contains(scheme, Separator) then scheme else scheme + Separator
  }

  /** A leading "http://" and then a leading "https://" removed. */
  function StripHttpSchemes(u: string): string {
    TrimPrefix(TrimPrefix(u, SchemeHTTP), SchemeHTTPS)
  }

  /** The rewrite under a non-empty scheme override. */
  function ForceScheme(u: string, scheme: string): string {
    var s := WithSeparator(scheme);
    var v := StripHttpSchemes(u);
    if HasPrefix(v, s) then v else s + v
  }

  /** The rewrite without a scheme override. */
  function DefaultScheme(u: string): string {
    if !HasPrefix(u, SchemeHTTP) && !HasPrefix(u, SchemeHTTPS) then SchemeHTTPS + u else u
  }

  function Rewrite(u: string, scheme: string): string {
    if scheme != "" then ForceScheme(u, scheme) else DefaultScheme(u)
  }

  function NormaliseURL(url: string, protocolScheme: string, parse: UrlParser): (r: Result<string>)
    ensures r.Ok? ==> !MalformedColon(TrimSpace(url)) && parse(r.value) == Nothing
  {
    var u := TrimSpace(url);
    if MalformedColon(u) then Err(ErrMissingSlashes)
    else
      var rewritten := Rewrite(u, protocolScheme);
      match parse(rewritten)
      case Just(e) => Err(e)
      case Nothing => Ok(rewritten)
  }

  // ------------------------------------------------------------ properties

  /** Inputs that differ only in surrounding white space normalise alike. */
  lemma SurroundingSpaceIgnored(lead: string, url: string, trail: string, scheme: string, parse: UrlParser)
    requires AllSpace(lead) && AllSpace(trail)
    ensures NormaliseURL(lead + url + trail, scheme, parse) == NormaliseURL(url, scheme, parse)
  {
    TrimSpaceOfPadding(lead, url, trail);
  }

  /** A colon without "://" anywhere is an error, whatever the scheme and
      whatever the parser would have said (host:port strings included). */
  lemma ColonWithoutSeparatorRejected(url: string, scheme: string, parse: UrlParser)
    requires Contains(TrimSpace(url), ":") && !Contains(TrimSpace(url), Separator)
    ensures NormaliseURL(url, scheme, parse) == Err(ErrMissingSlashes)
  {
  }

  /** The parser is the final gate: its error is returned as is, and
      otherwise the rewritten string is the result. */
  lemma ParserDecides(url: string, scheme: string, parse: UrlParser)
    requires !MalformedColon(TrimSpace(url))
    ensures var rewritten := Rewrite(TrimSpace(url), scheme);
            match parse(rewritten)
            case Just(e) => NormaliseURL(url, scheme, parse) == Err(e)
            case Nothing => NormaliseURL(url, scheme, parse) == Ok(rewritten)
  {
  }

  /** With a scheme override, the result starts with the override (with
      "://" supplied) and ends with the input stripped of one "http://"
      and one "https://" prefix. */
  lemma ForcedSchemeResult(url: string, scheme: string, parse: UrlParser)
    requires scheme != ""
    requires NormaliseURL(url, scheme, parse).Ok?
    ensures var r := NormaliseURL(url, scheme, parse).value;
            var s := WithSeparator(scheme);
            var v := StripHttpSchemes(TrimSpace(url));
            && HasPrefix(r, s)
            && HasSuffix(r, v)
            && (r == v || r == s + v)
            && Contains(s, Separator)
  {
    var r := NormaliseURL(url, scheme, parse).value;
    var s := WithSeparator(scheme);
    var v := StripHttpSchemes(TrimSpace(url));
    if !Contains(scheme, Separator) {
      ContainsAppended(scheme, Separator);
    }
    if r != v {
      assert r == s + v;
      assert r[..|s|] == s;
      assert r[|r| - |v|..] == v;
    }
  }

  /** Without a scheme override, a URL already starting with "http://" or
      "https://" is kept as it is, and any other gets "https://" in front. */
  lemma DefaultSchemeResult(url: string, parse: UrlParser)
    requires NormaliseURL(url, "", parse).Ok?
    ensures var u := TrimSpace(url);
            NormaliseURL(url, "", parse).value
              == if HasPrefix(u, SchemeHTTP) || HasPrefix(u, SchemeHTTPS) then u else SchemeHTTPS + u
  {
  }

  /** Every URL the normaliser accepts carries "://". */
  lemma ResultHasSeparator(url: string, scheme: string, parse: UrlParser)
    requires NormaliseURL(url, scheme, parse).Ok?
    ensures Contains(NormaliseURL(url, scheme, parse).value, Separator)
  {
    var r := NormaliseURL(url, scheme, parse).value;
    if scheme != "" {
      ForcedSchemeResult(url, scheme, parse);
      ContainsViaPrefix(r, WithSeparator(scheme), Separator);
    } else {
      SchemesContainSeparator();
      if HasPrefix(r, SchemeHTTP) {
        ContainsViaPrefix(r, SchemeHTTP, Separator);
      } else {
        assert HasPrefix(r, SchemeHTTPS);
        ContainsViaPrefix(r, SchemeHTTPS, Separator);
      }
    }
  }

  lemma SchemesContainSeparator()
    ensures Contains(SchemeHTTP, Separator) && Contains(SchemeHTTPS, Separator)
  {
    assert OccursAt(SchemeHTTP, Separator, 4);
    assert OccursAt(SchemeHTTPS, Separator, 5);
  }

  // ------------------------------------------------------------ idempotence

  /** A scheme override for which forcing is stable: exactly "http://" or
      "https://", or one that starts with neither. */
  predicate StableScheme(s: string) {
    s == SchemeHTTP || s == SchemeHTTPS || (!HasPrefix(s, SchemeHTTP) && !HasPrefix(s, SchemeHTTPS))
  }

  /** The input carries at most one leading "http://"/"https://" pair. */
  predicate SingleHttpScheme(u: string) {
    var v := StripHttpSchemes(u);
    !HasPrefix(v, SchemeHTTP) && !HasPrefix(v, SchemeHTTPS)
  }

  /** A string containing "://" that starts like "http://" or "https://"
      is at least as long as that prefix. */
  lemma SeparatorNotInsideScheme(s: string, y: string)
    requires Contains(s, Separator) && HasPrefix(y, s)
    ensures HasPrefix(y, SchemeHTTP) ==> |s| >= |SchemeHTTP|
    ensures HasPrefix(y, SchemeHTTPS) ==> |s| >= |SchemeHTTPS|
  {
    var i :| 0 <= i <= |s| && OccursAt(s, Separator, i);
    assert s[i..i + 3] == y[i..i + 3];
    assert y[i] == ':';
    assert forall k :: 0 <= k < 4 ==> SchemeHTTP[k] != ':';
    assert forall k :: 0 <= k < 5 ==> SchemeHTTPS[k] != ':';
  }

  /** The result of a forced rewrite has no white space at its ends. */
  lemma ForcedIsTrimmed(t: string, scheme: string)
    requires scheme != "" && Trimmed(t) && Trimmed(scheme)
    ensures Trimmed(ForceScheme(t, scheme))
  {
    var s := WithSeparator(scheme);
    var v := StripHttpSchemes(t);
    var y := ForceScheme(t, scheme);
    assert t == t[..|t| - |v|] + v;
    assert s[0] == scheme[0];
    if v != [] {
      assert v[|v| - 1] == t[|t| - 1];
    }
    if y == v {
      assert y[0] == s[0];
    } else {
      assert y == s + v;
      assert y[0] == s[0];
      if v == [] {
        assert y == s;
      }
    }
  }

  /** With a scheme override that the rewrite leaves in front, forcing again
      changes nothing. */
  lemma ForceSchemeStable(t: string, scheme: string)
    requires scheme != ""
    requires StableScheme(WithSeparator(scheme))
    requires WithSeparator(scheme) == SchemeHTTP || WithSeparator(scheme) == SchemeHTTPS ==> SingleHttpScheme(t)
    ensures ForceScheme(ForceScheme(t, scheme), scheme) == ForceScheme(t, scheme)
  {
    var s := WithSeparator(scheme);
    var v := StripHttpSchemes(t);
    var y := ForceScheme(t, scheme);
    if !Contains(scheme, Separator) {
      ContainsAppended(scheme, Separator);
    }
    assert Contains(s, Separator);
    assert HasPrefix(y, s) by {
      if y != v {
        assert y[..|s|] == s;
      }
    }
    if s == SchemeHTTP {
      assert y == s + v;
      assert TrimPrefix(y, SchemeHTTP) == v;
      assert StripHttpSchemes(y) == v;
    } else if s == SchemeHTTPS {
      assert y == s + v;
      assert y[4] == SchemeHTTPS[4] != SchemeHTTP[4];
      assert y[..|SchemeHTTPS|] == SchemeHTTPS && y[|SchemeHTTPS|..] == v;
      assert StripHttpSchemes(y) == v;
    } else {
      SeparatorNotInsideScheme(s, y);
      assert !HasPrefix(y, SchemeHTTP) && !HasPrefix(y, SchemeHTTPS);
      assert StripHttpSchemes(y) == y;
    }
  }

  /** Normalising an accepted URL again, under the same scheme, returns it
      unchanged, provided the scheme has no white space at its ends and, when
      it is forced, it is a stable one and the input carried at most one
      http(s) prefix (see `DoubleSchemeNotIdempotent` for why). */
  lemma {:induction false} Idempotent(url: string, scheme: string, parse: UrlParser)
    requires NormaliseURL(url, scheme, parse).Ok?
    requires Trimmed(scheme)
    requires scheme != "" ==> StableScheme(WithSeparator(scheme))
    requires (scheme != "" && (WithSeparator(scheme) == SchemeHTTP || WithSeparator(scheme) == SchemeHTTPS))
             ==> SingleHttpScheme(TrimSpace(url))
    ensures var r := NormaliseURL(url, scheme, parse).value;
            NormaliseURL(r, scheme, parse) == Ok(r)
  {
    var t := TrimSpace(url);
    var r := NormaliseURL(url, scheme, parse).value;
    TrimSpaceShape(url);
    ResultHasSeparator(url, scheme, parse);
    if scheme != "" {
      ForcedIsTrimmed(t, scheme);
      TrimSpaceOfTrimmed(r);
      ForceSchemeStable(t, scheme);
    } else {
      assert Trimmed(r) by {
        if r != t {
          assert r == SchemeHTTPS + t;
          if t == [] {
            assert r == SchemeHTTPS;
          } else {
            assert r[|r| - 1] == t[|t| - 1];
          }
        }
      }
      TrimSpaceOfTrimmed(r);
      assert HasPrefix(r, SchemeHTTP) || HasPrefix(r, SchemeHTTPS) by {
        if r != t {
          assert r[..|SchemeHTTPS|] == SchemeHTTPS;
        }
      }
    }
  }

  /** "http" has no "://" of its own, so forcing it appends one. */
  lemma HttpSchemeForced()
    ensures WithSeparator("http") == SchemeHTTP
  {
    forall i | 0 <= i <= 4
      ensures !OccursAt("http", Separator, i)
    {
      if i <= 1 {
        assert "http"[i] != Separator[0];
      }
    }
  }

  /** A doubled scheme loses one prefix per normalisation: the host
      `host` stands for any that does not itself start with "h" and has no
      white space at its end. */
  lemma DoubleSchemeNotIdempotent(host: string, parse: UrlParser)
    requires host != [] && host[0] != 'h' && !IsSpace(host[|host| - 1])
    requires parse(SchemeHTTP + SchemeHTTPS + host) == Nothing
    requires parse(SchemeHTTP + host) == Nothing
    ensures NormaliseURL(SchemeHTTPS + SchemeHTTPS + host, "http", parse) == Ok(SchemeHTTP + SchemeHTTPS + host)
    ensures NormaliseURL(SchemeHTTP + SchemeHTTPS + host, "http", parse) == Ok(SchemeHTTP + host)
  {
    HttpSchemeForced();
    SchemesContainSeparator();
    DoubledHttps(host);
    HttpThenHttps(host);
  }

  lemma DoubledHttps(host: string)
    requires host != [] && host[0] != 'h' && !IsSpace(host[|host| - 1])
    ensures var u := SchemeHTTPS + SchemeHTTPS + host;
            TrimSpace(u) == u && !MalformedColon(u) && StripHttpSchemes(u) == SchemeHTTPS + host
  {
    var u := SchemeHTTPS + SchemeHTTPS + host;
    assert u == SchemeHTTPS + (SchemeHTTPS + host);
    assert u[..|SchemeHTTPS|] == SchemeHTTPS && u[|SchemeHTTPS|..] == SchemeHTTPS + host;
    SchemesContainSeparator();
    ContainsViaPrefix(u, SchemeHTTPS, Separator);
    assert u[0] == 'h' && u[|u| - 1] == host[|host| - 1];
    TrimSpaceOfTrimmed(u);
    assert u[4] != SchemeHTTP[4];
  }

  lemma HttpThenHttps(host: string)
    requires host != [] && host[0] != 'h' && !IsSpace(host[|host| - 1])
    ensures var u := SchemeHTTP + SchemeHTTPS + host;
            && TrimSpace(u) == u && !MalformedColon(u) && StripHttpSchemes(u) == host
            && !HasPrefix(SchemeHTTPS + host, SchemeHTTP) && !HasPrefix(host, SchemeHTTP)
  {
    var u := SchemeHTTP + SchemeHTTPS + host;
    var w := SchemeHTTPS + host;
    assert u == SchemeHTTP + w;
    assert u[..|SchemeHTTP|] == SchemeHTTP && u[|SchemeHTTP|..] == w;
    assert w[..|SchemeHTTPS|] == SchemeHTTPS && w[|SchemeHTTPS|..] == host;
    assert w[4] != SchemeHTTP[4];
    SchemesContainSeparator();
    ContainsViaPrefix(u, SchemeHTTP, Separator);
    assert u[0] == 'h' && u[|u| - 1] == host[|host| - 1];
    TrimSpaceOfTrimmed(u);
    assert host[0] != SchemeHTTP[0];
  }
}
