/** request_options.go: `RequestOptions`, the option record of the oldest
    client generation, with list-valued headers and cookies and no merge. */
module LegacyRequestOptions {
  import opened Http
  import Request
  import GoStrings
  import NormaliseUrl

  /** `RequestOptions`. */
  class RequestOptions {
    var Headers: seq<KV>
    var Cookies: seq<Cookie>
    var ProtocolScheme: string
    var Compression: string
    var UserAgent: string
    var DisableRedirect: bool

    /** The zero `RequestOptions{}`. */
    constructor ()
      ensures Headers == [] && Cookies == [] && ProtocolScheme == "" && Compression == Request.CompressionNone
      ensures UserAgent == "" && !DisableRedirect
    {
      Headers, Cookies, ProtocolScheme, Compression, UserAgent, DisableRedirect := [], [], "", Request.CompressionNone, "", false;
    }

    /** `AddHeader`: appended after the existing entries, duplicates kept. */
    method AddHeader(key: string, value: string)
      modifies this`Headers
      ensures Headers == old(Headers) + [KV(key, value)]
    {
      Headers := Headers + [KV(key, value)];
    }

    method ClearHeaders()
      modifies this`Headers
      ensures Headers == []
    {
      Headers := [];
    }

    /** `AddCookie`: appended after the existing entries, duplicates kept. */
    method AddCookie(cookie: Cookie)
      modifies this`Cookies
      ensures Cookies == old(Cookies) + [cookie]
    {
      Cookies := Cookies + [cookie];
    }

    method ClearCookies()
      modifies this`Cookies
      ensures Cookies == []
    {
      Cookies := [];
    }

    /** `SetProtocolScheme`: the same contains-based rule as `Options`. */
    method SetProtocolScheme(scheme: string)
      modifies this`ProtocolScheme
      ensures ProtocolScheme == NormaliseUrl.WithSeparator(scheme)
    {
      ProtocolScheme := if !GoStrings.Contains(scheme, NormaliseUrl.Separator) then scheme + NormaliseUrl.Separator else scheme;
    }

    /** `Compress` sets the compression and nothing else. */
    method Compress(compressionType: string)
      modifies this`Compression
      ensures Compression == compressionType
    {
      Compression := compressionType;
    }

    method DisableRedirects() returns (disabled: bool)
      ensures disabled
    {
      disabled := true;
    }

    method EnableRedirects() returns (disabled: bool)
      ensures !disabled
    {
      disabled := false;
    }
  }
}
