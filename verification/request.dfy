/** request/options.go: the list-based option record of the previous
    client generation. Headers and cookies are kept in insertion order;
    adding appends, and merging replaces the first entry with the same key
    or appends. */
module Request {
  import opened Wrappers
  import opened GoStrings
  import opened Http
  import opened NormaliseUrl

  const CompressionNone: string := ""
  const CompressionGzip: string := "gzip"
  const CompressionDeflate: string := "deflate"
  const CompressionBrotli: string := "br"

  const IdentifierNone: string := ""
  const IdentifierUUID: string := "uuid"
  const IdentifierULID: string := "ulid"

  /** The scheme `SetProtocolScheme` stores is `WithSeparator(scheme)`:
      "://" is appended only when the scheme contains it nowhere (not only
      when it does not end with it), so it always contains "://" and starts
      with what was given. */
  lemma WithSeparatorContains(scheme: string)
    ensures Contains(WithSeparator(scheme), Separator)
    ensures HasPrefix(WithSeparator(scheme), scheme)
  {
    if !Contains(scheme, Separator) {
      ContainsAppended(scheme, Separator);
    }
  }

  /** Setting a scheme twice is setting it once. */
  lemma WithSeparatorIdempotent(scheme: string)
    ensures WithSeparator(WithSeparator(scheme)) == WithSeparator(scheme)
  {
    WithSeparatorContains(scheme);
  }

  /** A whole URL given as the scheme is stored as it is, although it does
      not end with "://". */
  lemma EmbeddedSeparatorKept()
    ensures WithSeparator("http://example.com") == "http://example.com"
  {
    assert OccursAt("http://example.com", Separator, 4);
  }

  /** `Options`. */
  class Options {
    var Headers: seq<KV>
    var Cookies: seq<Cookie>
    var ProtocolScheme: string
    var Compression: string
    var UserAgent: string
    var DisableRedirect: bool
    var UniqueIdentifier: string
    /** A caller-supplied response sink (nil is `Nothing`). */
    var Writer: Maybe<Handle>

    /** `NewOptions()`: a ULID identifier, every other field zero. */
    constructor New()
      ensures Headers == [] && Cookies == [] && ProtocolScheme == "" && Compression == CompressionNone
      ensures UserAgent == "" && !DisableRedirect && UniqueIdentifier == IdentifierULID && Writer == Nothing
    {
      Headers, Cookies, ProtocolScheme, Compression := [], [], "", CompressionNone;
      UserAgent, DisableRedirect, UniqueIdentifier, Writer := "", false, IdentifierULID, Nothing;
    }

    /** `AddHeader`: appended even when the key is already present. */
    method AddHeader(key: string, value: string)
      modifies this`Headers
      ensures Headers == old(Headers) + [KV(key, value)]
    {
      Headers := Headers + [KV(key, value)];
    }

    method ClearHeaders()
      modifies this`Headers
      ensures Headers == []
    {
      Headers := [];
    }

    /** `AddCookie`: appended even when the name is already present. */
    method AddCookie(cookie: Cookie)
      modifies this`Cookies
      ensures Cookies == old(Cookies) + [cookie]
    {
      Cookies := Cookies + [cookie];
    }

    method ClearCookies()
      modifies this`Cookies
      ensures Cookies == []
    {
      Cookies := [];
    }

    method SetProtocolScheme(scheme: string)
      modifies this`ProtocolScheme
      ensures ProtocolScheme == WithSeparator(scheme)
    {
      ProtocolScheme := if !Contains(scheme, Separator) then scheme + Separator else scheme;
    }

    method Compress(compressionType: string)
      modifies this`Compression
      ensures Compression == compressionType
    {
      Compression := compressionType;
    }

    /** `DisableRedirects` only answers: it does not touch the record. */
    method DisableRedirects() returns (disabled: bool)
      ensures disabled
    {
      disabled := true;
    }

    /** `EnableRedirects` only answers: it does not touch the record. */
    method EnableRedirects() returns (disabled: bool)
      ensures !disabled
    {
      disabled := false;
    }

    /** `GenerateIdentifier`, with the UUID and ULID it would draw given
        (their text forms are 36 and 26 characters long): an identifier of
        the configured kind, and the empty string for none or any unknown
        kind. */
    method GenerateIdentifier(uuid: string, ulid: string) returns (id: string)
      requires |uuid| == 36 && |ulid| == 26
      ensures id == "" <==> UniqueIdentifier != IdentifierUUID && UniqueIdentifier != IdentifierULID
      ensures UniqueIdentifier == IdentifierUUID ==> id == uuid
      ensures UniqueIdentifier == IdentifierULID ==> id == ulid
    {
      if UniqueIdentifier == IdentifierUUID {
        return uuid;
      } else if UniqueIdentifier == IdentifierULID {
        return ulid;
      }
      id := "";
    }

    /** The header loop of `Merge`. */
    method MergeHeaders(srcHeaders: seq<KV>)
      modifies this`Headers
      ensures Headers == MergeAll(old(Headers), srcHeaders, HeaderKey)
    {
      var i := 0;
      while i < |srcHeaders|
        invariant i <= |srcHeaders|
        invariant Headers == MergeAll(old(Headers), srcHeaders[..i], HeaderKey)
      {
        var sh := srcHeaders[i];
        ghost var before := Headers;
        var j := FirstWithKey(Headers, sh.Key);
        if j < |Headers| {
          Headers := Headers[j := sh];
        } else {
          Headers := Headers + [sh];
        }
        assert Headers == Upsert(before, sh, HeaderKey);
        MergeAllStep(old(Headers), srcHeaders, i, HeaderKey);
        i := i + 1;
      }
      assert srcHeaders[..i] == srcHeaders;
    }

    /** The cookie loop of `Merge`. */
    method MergeCookies(srcCookies: seq<Cookie>)
      modifies this`Cookies
      ensures Cookies == MergeAll(old(Cookies), srcCookies, CookieName)
    {
      var i := 0;
      while i < |srcCookies|
        invariant i <= |srcCookies|
        invariant Cookies == MergeAll(old(Cookies), srcCookies[..i], CookieName)
      {
        var sc := srcCookies[i];
        ghost var before := Cookies;
        var j := FirstWithName(Cookies, sc.Name);
        if j < |Cookies| {
          Cookies := Cookies[j := sc];
        } else {
          Cookies := Cookies + [sc];
        }
        assert Cookies == Upsert(before, sc, CookieName);
        MergeAllStep(old(Cookies), srcCookies, i, CookieName);
        i := i + 1;
      }
      assert srcCookies[..i] == srcCookies;
    }

    /** The scalar part of `Merge`. */
    method MergeScalars(identifier: string, compression: string, agent: string, scheme: string,
                        disable: bool, writer: Maybe<Handle>)
      modifies this`UniqueIdentifier, this`Compression, this`UserAgent, this`ProtocolScheme, this`DisableRedirect, this`Writer
      ensures UniqueIdentifier == PreferText(identifier, old(UniqueIdentifier))
      ensures Compression == PreferText(compression, old(Compression))
      ensures UserAgent == PreferText(agent, old(UserAgent))
      ensures ProtocolScheme == PreferText(scheme, old(ProtocolScheme))
      ensures DisableRedirect == disable
      ensures Writer == Prefer(writer, old(Writer))
    {
      if |identifier| > 0 {
        UniqueIdentifier := identifier;
      }
      if |compression| > 0 {
        Compression := compression;
      }
      if |agent| > 0 {
        UserAgent := agent;
      }
      if |scheme| > 0 {
        ProtocolScheme := scheme;
      }
      DisableRedirect := disable;
      if writer.Just? {
        Writer := writer;
      }
    }

    /** `Merge(src)`: headers by key and cookies by name, each source entry
        replacing the first target entry with its key or appended; non-empty
        source strings win, `DisableRedirect` is always copied and `Writer`
        only when the source has one. */
    method Merge(src: Options)
      modifies this`Headers, this`Cookies, this`UniqueIdentifier, this`Compression, this`UserAgent,
               this`ProtocolScheme, this`DisableRedirect, this`Writer
      ensures Headers == MergeAll(old(Headers), old(src.Headers), HeaderKey)
      ensures Cookies == MergeAll(old(Cookies), old(src.Cookies), CookieName)
      ensures UniqueIdentifier == PreferText(old(src.UniqueIdentifier), old(UniqueIdentifier))
      ensures Compression == PreferText(old(src.Compression), old(Compression))
      ensures UserAgent == PreferText(old(src.UserAgent), old(UserAgent))
      ensures ProtocolScheme == PreferText(old(src.ProtocolScheme), old(ProtocolScheme))
      ensures DisableRedirect == old(src.DisableRedirect)
      ensures Writer == Prefer(old(src.Writer), old(Writer))
    {
      var srcHeaders, srcCookies := src.Headers, src.Cookies;
      var identifier, compression, agent, scheme := src.UniqueIdentifier, src.Compression, src.UserAgent, src.ProtocolScheme;
      var disable, writer := src.DisableRedirect, src.Writer;
      MergeHeaders(srcHeaders);
      MergeCookies(srcCookies);
      MergeScalars(identifier, compression, agent, scheme, disable, writer);
    }
  }
}
