# caelisco/http-client — a verified model of the request bookkeeping

`caelisco/http-client` is a Go wrapper around `net/http`. It offers a reusable
`Client` with global options, one-shot request functions, and an option record.
The option record controls:

- headers and cookies;
- the URL scheme and compression;
- redirects;
- the response sink;
- progress callbacks.

The network, TLS and the compression algorithms belong to the Go standard
library and other packages. Around them sits a layer of deterministic
bookkeeping, and this project models that layer in Dafny and proves what it
promises:

- URL normalisation (`normaliseURL`, in two copies) and the older inline scheme
  rewrite in `func.go`;
- the option record of `options/options.go`:
  - its setters;
  - the payload sizing and the compressor/decompressor dispatch;
  - the redirect counter and the response-sink validation;
  - the rejection sampling of random identifiers;
  - `Merge` and its precedence rules;
- the two list-based option records of the earlier generation
  (`request/options.go`, `request_options.go`);
- the progress-counting reader and writer decorators (both revisions), and the
  in-memory `WriteCloserBuffer`;
- the form encoder (`form/encode.go`), an application/x-www-form-urlencoded
  serialiser (section 5.2 of the WHATWG URL Standard). It escapes as Go's
  `url.QueryEscape` does: the unreserved characters of section 2.3 of RFC 3986
  pass through, a space becomes `+`, and every other byte is percent-encoded
  (section 2.1 of RFC 3986);
- the reusable client (`client.go`): cloning the global options, the merge order
  in `doRequest`, the response log and the form-data helpers;
- the request preparation of the old `doRequest` (`func.go`).

One Dafny module stands for each Go file:

| Go file | modules |
|---|---|
| `normalise_url.go` | `NormaliseUrl` |
| `helper.go` | `Helper` |
| `options/options.go` | `Options` |
| `options/response_writer.go` | `ResponseSink` |
| `options/write_closer_buffer.go` | `WriteCloserBuffers` |
| `options/progress_reader.go` | `ProgressReaders` |
| `options/progress_writer.go` | `ProgressWriters` |
| `options/progress.go` | `Progress` |
| `request/options.go` | `Request` |
| `request_options.go` | `LegacyRequestOptions` |
| `form/encode.go` | `Form` |
| `response/response.go` | `Responses` |
| `client.go` | `Client` |
| `func.go` | `Func` |

Shared vocabulary lives in four helper modules:

- `Wrappers`: `Maybe` and `Result`;
- `GoStrings`: the `strings` functions used;
- `Http`: header maps, cookies, and the replace-first-or-append merge rule `Upsert`/`MergeAll`;
- `Streams`: bytes, a seekable stream, a bounded sink and the payload kinds.

Objects that the Go code updates in place are Dafny classes with `modifies` clauses:

- `Option`;
- `Client`;
- the two list-based option records;
- the progress decorators and the buffer.

Their loops carry invariants tying them to specification functions. Values are datatypes:

- cookies;
- responses;
- settings;
- the copied `RequestOptions` of `func.go`.

Foreign inputs are parameters:

- the URL parser, a function returning `Nothing` for a valid URL;
- the random bytes and the drawn UUID/ULID;
- the transport's reply;
- the clock values;
- the error a custom compression hook or a gzip/zlib reader constructor returns;
- how a wrapped reader ends: a clean `io.EOF`, or an error returned with its last bytes;
- the result of creating a file.

Strings are sequences of runes. Go's `len` of a string counts UTF-8 bytes: where the code
compares it for more than emptiness (the redirect test of `func.go`), the model uses
`Utf8Length`. A string payload is carried as its UTF-8 bytes.

Go's pointer and function fields (`*http.Client`, hooks, callbacks, transport,
logger) are `Maybe<Handle>`, where nil is `Nothing`. Progress callbacks are a
ghost log of `(current, total)` reports.

Several behaviours are modelled as the code has them, not as the comments or
the newer code suggest:

- **Double schemes.** `normaliseURL` is not idempotent in general: `DoubleSchemeNotIdempotent` gives the input.
- **No colon check in `func.go`.** The old rewrite has neither the colon check nor the parse (`NoColonCheck`).
- **Redirect detection.** `func.go` flags a redirect by comparing the URLs' byte lengths, so a same-length redirect goes unflagged (`SameLengthRedirectNotFlagged`), and two URLs with as many runes but not as many bytes are flagged (`ByteLengthsCompared`).
- **Empty file path.** `SetOutput` accepts an empty file path that `InitialiseWriter` then rejects (`EmptyFilePathSlipsThrough`).
- **`Options` uses HEAD.** `Client.Options` sends HEAD.
- **Different `SetProtocolScheme` checks.**
  - `options/options.go` appends `://` unless the scheme ends with it.
  - The two older records append it unless the scheme contains it anywhere.

## Model

| member | source | states |
|---|---|---|
| NormaliseUrl.NormaliseURL | normalise_url.go:9-40 | a success passed the colon check and the parser |
| NormaliseUrl.SurroundingSpaceIgnored | normalise_url.go:10 | inputs differing only in surrounding white space normalise identically |
| NormaliseUrl.ColonWithoutSeparatorRejected | normalise_url.go:13-17 | a trimmed input with `:` but no `://` is rejected with the missing-`//` error, whatever the scheme |
| NormaliseUrl.ParserDecides | normalise_url.go:34-39 | once the colon check passes, a parser error is returned as the error, otherwise the rewritten URL is the result |
| NormaliseUrl.ForcedSchemeResult | normalise_url.go:19-27 | with a scheme, the result starts with the scheme (with `://` added when it has none) and ends with the input stripped of one `http://` then one `https://` |
| NormaliseUrl.DefaultSchemeResult | normalise_url.go:28-32 | without a scheme, an `http://`/`https://` input is kept and anything else gets `https://` |
| NormaliseUrl.ResultHasSeparator | normalise_url.go:13-32 | every successful result contains `://` |
| NormaliseUrl.ForceSchemeStable | normalise_url.go:19-27 | forcing the same scheme twice is forcing it once, for schemes that do not extend `http://`/`https://` |
| NormaliseUrl.Idempotent | normalise_url.go:10-32 | normalising a result again with the same trimmed scheme returns it unchanged (under the single-scheme condition) |
| NormaliseUrl.HttpSchemeForced | normalise_url.go:22-24 | the scheme `http` becomes `http://` |
| NormaliseUrl.DoubleSchemeNotIdempotent | normalise_url.go:20-21 | `https://https://h` under scheme `http` gives `http://https://h`, which normalises again to `http://h` |
| GoStrings.TrimPrefix | normalise_url.go:20-21 | `strings.TrimPrefix` removes the prefix exactly when it is there |
| GoStrings.TrimSpaceOfPadding | normalise_url.go:10 | `strings.TrimSpace` ignores white-space padding on either side |
| GoStrings.Utf8Length | func.go:136 | Go `len` of a string: between one and four bytes per rune |
| GoStrings.Utf8Width | func.go:136 | one byte exactly for ASCII runes, at most four for any rune |
| GoStrings.Utf8LengthAppend | func.go:136 | byte lengths add up over concatenation |
| GoStrings.Utf8LengthAscii | func.go:136 | a string has as many bytes as runes exactly when it is ASCII |
| Helper.SameAsNormaliseUrl | helper.go:13-44 | the copy in helper.go computes the same result as normalise_url.go for every input |
| Helper.NormaliseURL | helper.go:13-44 | a trimmed input with `:` but no `://` is rejected with the missing-`//` error; a success passed the parser, and without a scheme it starts with `http://` or `https://` |
| Helper.CreatePayloadReader | helper.go:47-69 | nil gives no reader and size -1; bytes and strings give a reader over them and their length; a seekable reader reports its whole length and is left where it was; an unseekable one reports -1; any other type is an error with size -1 |
| Http.FindFirst | request/options.go:133-139 | the index of the first entry with the key: no earlier entry has it, and it has it unless it is the length |
| Http.UpsertShape | request/options.go:131-143 | one merge step replaces the first entry with the key in place (length kept) or appends; other keys' entries are untouched and the key set grows by the key |
| Http.UpsertKeepsOtherFirsts | request/options.go:133-139 | one merge step does not move the first entry of any other key |
| Http.MergeAllSnoc | request/options.go:131-143 | merging a list is merging its entries one after another |
| Http.MergeAllKeys | options/options.go:668-681 | the merged keys are the target's keys plus the source's |
| Http.MergeAllSourceWins | options/options.go:668-681 | for every source key, the first merged entry with it is the source's last entry with it |
| Http.MergeAllKeepsOthers | request/options.go:146-158 | keys the source lacks keep their first position and their entries |
| Http.FirstWithKey | request/options.go:133-139 | the inner search loop finds the first header with the key, or the length |
| Http.FirstWithName | request/options.go:148-154 | the inner search loop finds the first cookie with the name, or the length |
| Options.Option.Zero | options/options.go:66-95 | a zero `Option{}`: not initialised, every field empty |
| Options.Option.Default | options/options.go:116-137 | the defaults: 10 redirects, not following, buffer output, the library User-Agent, ULID identifiers, default logger and transport |
| Options.Option.New | options/options.go:100-114 | no argument gives the defaults; an initialised argument is returned itself; an uninitialised one gives a fresh initialised option with its headers, its cookies merged by name, every setting it sets and the defaults for the rest, and default private fields |
| Options.Option.AddHeader | options/options.go:214-220 | the key maps to exactly the one new value; other keys unchanged |
| Options.Option.ClearHeaders | options/options.go:223-225 | the header map becomes empty |
| Options.Option.AddCookie | options/options.go:229-234 | the cookie is appended after the existing ones |
| Options.Option.ClearCookies | options/options.go:237-239 | the cookie list becomes empty |
| Options.Option.SetProtocolScheme | options/options.go:243-248 | the stored scheme is the given one with `://` appended unless it already ends with it |
| Options.WithSchemeSuffix | options/options.go:243-248 | the stored scheme always ends with `://` |
| Options.WithSchemeSuffixIdempotent | options/options.go:243-248 | setting the scheme twice is setting it once; appended exactly when the suffix is missing |
| Options.Option.CreatePayloadReader | options/options.go:257-286 | the helper.go rules, except that a seekable reader is rewound to 0 before measuring and left at offset 0 |
| Options.Option.GetCompressor | options/options.go:435-453 | none gives the identity; gzip, deflate and br their writer; an error exactly for custom without a hook, for a custom hook that fails (its own error), or for an unknown type; custom uses the configured hook |
| Options.Option.GetDecompressor | options/options.go:456-480 | `""` gives the body unchanged and br its reader, neither failing; gzip and deflate give their reader or the reader constructor's error; anything else the custom hook or its error, and an error when there is no hook |
| Options.StandardCompressionRoundTrip | options/options.go:435-480 | for gzip, deflate and br the decompressor chosen for the configured encoding matches the compressor |
| Options.CustomCompressionRoundTrip | options/options.go:435-480 | with a custom type and both hooks set, the compressor and decompressor are those hooks |
| Options.Option.SetClient | options/options.go:759-761 | the client handle is replaced and nothing else changes |
| Options.Option.CheckRedirects | options/options.go:515-521 | the counter rises by exactly one and the answer is true exactly when it equals the maximum |
| Options.Option.SetDownloadBufferSize | options/options.go:579-583 | a positive size is stored; any other leaves the setting alone |
| Options.Accepted | options/options.go:563-571 | the random bytes the sampler keeps are those below 248 (256 minus 256 mod 62), never more than it was given |
| Options.RandomString | options/options.go:553-575 | the result has exactly the length asked for, every character from the 62-character charset; an error exactly when the random bytes run out |
| Options.AcceptedAppend | options/options.go:563-571 | sampling a concatenation is sampling each part in turn |
| Options.RejectedByteSkipped | options/options.go:564-567 | inserting a byte ≥ 248 anywhere in the random input does not change the result |
| Options.GenerateRandomString | options/options.go:553-575 | the loop computes `RandomString` of its random bytes |
| Options.Option.InitialiseWriter | options/options.go:587-607 | file mode with no path, buffer mode with a path and any other type are errors that change nothing; file mode stores the created file or reports the creation error; buffer mode stores a fresh empty buffer |
| Options.SetOutputOf | options/options.go:616-635 | the new type is stored even when the call fails, and the writer is kept |
| Options.SetOutputAgreesWithInitialise | options/options.go:616-635 | `SetOutput` succeeds exactly for file with a path or buffer without one, and an unknown type fails in both checks with the same error |
| Options.EmptyFilePathSlipsThrough | options/options.go:620-624 | `SetOutput(file, "")` succeeds, yet `InitialiseWriter` then rejects the missing path |
| Options.Option.SetOutput | options/options.go:616-635 | the new sink and error are `SetOutputOf` of the old sink |
| Options.Option.SetFileOutput | options/options.go:638-643 | the sink becomes a file sink with that path |
| Options.Option.SetBufferOutput | options/options.go:646-650 | the sink becomes the buffer sink |
| Options.Option.CloseFile | options/options.go:378-387 | an open file is closed and forgotten with size 0 and the close error returned; with none, nothing changes |
| Options.Option.MergeHeader | options/options.go:660-666 | every source header key overwrites the target's; other keys survive |
| Options.Option.MergeCookies | options/options.go:668-681 | the cookie loop computes `MergeAll` by name |
| Options.Option.MergeSwitches | options/options.go:683-695 | the four switches are always copied; logger and transport only when set |
| Options.Option.MergeStrings | options/options.go:697-728 | the sink, scheme, compression, custom type, User-Agent and identifier type are copied only when non-empty |
| Options.Option.MergeHooks | options/options.go:714-741 | the hooks, buffer size and callbacks are copied only when set |
| Options.Option.MergeSettings | options/options.go:683-741 | the settings become `MergedSettings` of source over target |
| Options.Option.Merge | options/options.go:655-742 | `Merge(nil)` changes nothing; otherwise headers by key, cookies by name (replace first or append), and the settings by the precedence rules, while the client, the initialised flag, the file state, the redirect counter and the upload buffer size stay |
| ProgressReaders.ProgressReader.New | options/progress_reader.go:29-35 | a fresh reader with counter 0, no reports, tracking its stream |
| ProgressReaders.ProgressReader.Redirect | options/progress_reader.go:42-54 | the struct literal of a clone: the given parent, total and callback, marked as a clone, with no reader and counter 0 |
| ProgressReaders.ProgressReader.GetProgress | options/progress_reader.go:79-84 | the counter of the counting reader: a valid clone answers with its parent's count, and that parent is not itself a clone |
| ProgressReaders.ProgressReader.CloneForRedirect | options/progress_reader.go:39-56 | the clone delegates to the root reader (a clone of a clone too), with the same total and callback, its own counter 0 and the same progress |
| ProgressReaders.ProgressReader.Read | options/progress_reader.go:59-76 | the wrapped reader's bytes and error unchanged; the root counter grows by exactly the bytes read; a non-empty read with a callback reports (new count, total); the log stays strictly increasing |
| ProgressReaders.ReadToEndReportsTotal | test/func_test.go:146-158 | reading a known-size payload to its end leaves a last report of (total, total) |
| ProgressWriters.ProgressWriter.constructor | options/progress_writer.go:24-30 | a fresh writer with counter 0 and no reports |
| ProgressWriters.SumAppend | options/progress_writer.go:39-41 | the counter is the sum of the write results |
| ProgressWriters.ProgressWriter.Write | options/progress_writer.go:34-49 | the wrapped writer's `(n, err)` unchanged and `p[..n]` appended; the counter grows by exactly n and stays the sum of all results; a write with n > 0 and a callback reports (new count, total) |
| ProgressWriters.ProgressWriter.Close | options/progress_writer.go:53-61 | the wrapped `Close` and its error; the counter untouched |
| Progress.ProgressReader.constructor | options/progress.go:16-22 | a fresh reader with counter 0 and no reports |
| Progress.ProgressReader.Read | options/progress.go:24-33 | the same counting and reporting rules as above, with no delegation |
| Progress.ProgressWriter.constructor | options/progress.go:43-50 | a fresh writer with counter 0 and no reports |
| Progress.ProgressWriter.Write | options/progress.go:52-61 | the same counting and reporting rules as the newer writer |
| Progress.ProgressWriter.Close | options/progress.go:64-69 | delegates to the wrapped writer's `Close` |
| Streams.CallbackLogExtends | options/progress_reader.go:67-74 | counting n bytes and reporting when n > 0 keeps the callback log strictly increasing, with every report carrying the total and the last one the count |
| WriteCloserBuffers.WriteCloserBuffer.Write | options/write_closer_buffer.go:8-10 | the embedded buffer appends everything, and a non-empty write leaves it non-empty |
| WriteCloserBuffers.WriteCloserBuffer.Close | options/write_closer_buffer.go:14-17 | always nil, contents untouched |
| WriteCloserBuffers.WriteCloserBuffer.IsEmpty | options/write_closer_buffer.go:20-22 | a nil writer or one without a buffer is empty; otherwise empty exactly when no byte has been written |
| WriteCloserBuffers.WriteCloserBuffer.constructor | options/options.go:602 | the writer `InitialiseWriter` makes: a buffer, and nothing written |
| WriteCloserBuffers.WriteCloserBuffer.WithoutBuffer | options/write_closer_buffer.go:8-10 | the zero value, whose embedded buffer pointer is nil |
| Request.Options.New | request/options.go:47-49 | ULID identifier, every other field zero |
| Request.Options.AddHeader | request/options.go:52-57 | the pair is appended even when the key exists; earlier entries keep their order |
| Request.Options.ClearHeaders | request/options.go:67-69 | the header list becomes empty |
| Request.Options.AddCookie | request/options.go:72-77 | the cookie is appended even when the name exists |
| Request.Options.ClearCookies | request/options.go:87-89 | the cookie list becomes empty |
| Request.Options.SetProtocolScheme | request/options.go:91-96 | `://` is appended only when the scheme contains it nowhere |
| Request.WithSeparatorContains | request/options.go:91-96 | the stored scheme always contains `://` and starts with the given one |
| Request.WithSeparatorIdempotent | request/options.go:91-96 | setting the scheme twice is setting it once |
| Request.EmbeddedSeparatorKept | request/options.go:92 | a whole URL given as the scheme is stored unchanged |
| Request.Options.Compress | request/options.go:98-100 | only the compression field changes |
| Request.Options.DisableRedirects | request/options.go:102-104 | answers true and changes nothing |
| Request.Options.EnableRedirects | request/options.go:106-108 | answers false and changes nothing |
| Request.Options.GenerateIdentifier | request/options.go:110-118 | the drawn UUID or ULID for those kinds, and `""` exactly for none or an unknown kind |
| Request.Options.MergeHeaders | request/options.go:131-143 | the header loop computes `MergeAll` by key |
| Request.Options.MergeCookies | request/options.go:146-158 | the cookie loop computes `MergeAll` by name |
| Request.Options.MergeScalars | request/options.go:160-179 | non-empty strings win, `DisableRedirect` is always copied, `Writer` only when set |
| Request.Options.Merge | request/options.go:129-180 | the whole merge: both lists merged replace-first-or-append and the scalar rules |
| LegacyRequestOptions.RequestOptions.constructor | request_options.go:23-30 | the zero record |
| LegacyRequestOptions.RequestOptions.AddHeader | request_options.go:33-38 | the header is appended, earlier ones kept in order |
| LegacyRequestOptions.RequestOptions.ClearHeaders | request_options.go:48-50 | the header list becomes empty |
| LegacyRequestOptions.RequestOptions.AddCookie | request_options.go:53-58 | the cookie is appended, earlier ones kept in order |
| LegacyRequestOptions.RequestOptions.ClearCookies | request_options.go:68-70 | the cookie list becomes empty |
| LegacyRequestOptions.RequestOptions.SetProtocolScheme | request_options.go:72-77 | `://` is appended only when the scheme contains it nowhere |
| LegacyRequestOptions.RequestOptions.Compress | request_options.go:79-81 | only the compression field changes |
| LegacyRequestOptions.RequestOptions.DisableRedirects | request_options.go:83-85 | answers true and changes nothing |
| LegacyRequestOptions.RequestOptions.EnableRedirects | request_options.go:87-89 | answers false and changes nothing |
| Form.HexDigit | form/encode.go:14-15 | an escape digit is itself an unreserved byte |
| Form.EscapeByte | form/encode.go:14-15 | one byte escapes to bytes of the escaped alphabet (unreserved, `+`, `%`) |
| Form.Escape | form/encode.go:14-15 | an escaped string contains only the escaped alphabet, so never a raw `&`, `=` or space |
| Form.UnescapeEscape | form/encode.go:14-15 | percent-decoding undoes the escaping for every byte string |
| Form.SplitJoin | form/encode.go:18 | splitting a join on a separator that no piece contains gives the pieces back |
| Form.PairShape | form/encode.go:16 | a `key=value` piece has no `&` or space and splits on `=` into exactly the two escaped halves |
| Form.Pieces | form/encode.go:12-17 | one piece per visited key, each that key's `key=value` |
| Form.Encode | form/encode.go:11-19 | the body is the `&`-join of the pieces, in some order that visits every key exactly once |
| Form.EncodeEmpty | form/encode.go:18 | an empty map gives an empty body |
| Form.EncodeSplits | form/encode.go:13-18 | splitting the body on `&` gives exactly one piece per entry |
| Form.DecodeEncode | form/encode.go:8-19 | decoding the body gives back the map, whichever order the keys were visited in |
| Responses.Response.Bytes | response/response.go:39-41 | the body bytes, as many as `Length` |
| Responses.Response.String | response/response.go:44-46 | the same bytes as `Bytes` |
| Responses.Response.Length | response/response.go:48-50 | zero exactly when the body is empty |
| Responses.Pending | func.go:59-66 | the response before sending: empty body, not redirected, no error, the request's URL, method and payload |
| Client.Client.New | client.go:22-29 | a bare `http.Client`, an empty log, and the global options `options.New` gives: the argument itself when initialised, a fresh default otherwise, with an uninitialised argument merged in |
| Client.Client.NewCustom | client.go:33-37 | the same, with the given `http.Client` |
| Client.Client.GetGlobalOptions | client.go:40-42 | the global options object itself |
| Client.Client.AddGlobalOptions | client.go:45-47 | the argument is merged into the global options; their client, initialised flag, file state, redirect counter and upload buffer size stay |
| Client.Client.UpdateGlobalOptions | client.go:50-52 | the global options are replaced wholesale |
| Client.CloneHeader | client.go:58-63 | the deep copy has every key with the same values |
| Client.CloneCookies | client.go:66-82 | the field-by-field copy has the same cookies in the same order |
| Client.Client.CloneGlobalOptions | client.go:55-85 | a fresh option with the global headers and cookies and every other setting at its default |
| Client.DefaultsWin | client.go:99-100 | merging the clone over a per-call option overwrites the switches, redirect limit, logger, transport, sink, User-Agent and identifier type with defaults and keeps the scheme, compression settings, hooks, download buffer size and progress callbacks |
| Client.GlobalWins | client.go:99-100 | on a shared header key the global value is sent, other per-call headers survive, and a global cookie replaces the per-call one of that name |
| Client.Client.Clear | client.go:88-90 | the response log becomes empty |
| Client.Client.Responses | client.go:93-95 | the response log |
| Client.Client.MergeClone | client.go:99-100 | merging the global clone and setting the client: global headers and cookies win, the clone's defaults are merged over the option's settings, and the initialised flag, file state, redirect counter and upload buffer size stay |
| Client.Client.RequestOption | client.go:98-100 | the option a request goes out with: the initialised per-call option itself, or a fresh one for an uninitialised option (left unchanged) or none, holding the per-call headers, cookies and settings with the global clone merged over them |
| Client.Client.DoRequest | client.go:97-108 | the transport's answer is returned and appended to the log, even on error; the request carries the per-call headers, cookies and settings with the global clone merged over them and the client's `http.Client`; an initialised per-call option ends up holding exactly what was sent, with its initialised flag, file state, redirect counter and upload buffer size kept; an uninitialised one is left unchanged |
| Client.Client.Get | client.go:114-116 | `DoRequest` with GET and no payload: the answer is logged, the per-call headers, cookies and settings are sent with the global clone merged over them, an initialised per-call option is changed in place to what was sent and keeps its other fields, and an uninitialised one is left unchanged |
| Client.Client.Post | client.go:122-124 | `DoRequest` with POST and the payload: the answer is logged, the per-call headers, cookies and settings are sent with the global clone merged over them, an initialised per-call option is changed in place to what was sent and keeps its other fields, and an uninitialised one is left unchanged |
| Client.Client.Put | client.go:169-171 | `DoRequest` with PUT and the payload: the answer is logged, the per-call headers, cookies and settings are sent with the global clone merged over them, an initialised per-call option is changed in place to what was sent and keeps its other fields, and an uninitialised one is left unchanged |
| Client.Client.Patch | client.go:216-218 | `DoRequest` with PATCH and the payload: the answer is logged, the per-call headers, cookies and settings are sent with the global clone merged over them, an initialised per-call option is changed in place to what was sent and keeps its other fields, and an uninitialised one is left unchanged |
| Client.Client.Delete | client.go:263-265 | `DoRequest` with DELETE and no payload: the answer is logged, the per-call headers, cookies and settings are sent with the global clone merged over them, an initialised per-call option is changed in place to what was sent and keeps its other fields, and an uninitialised one is left unchanged |
| Client.Client.Connect | client.go:271-273 | `DoRequest` with CONNECT and no payload: the answer is logged, the per-call headers, cookies and settings are sent with the global clone merged over them, an initialised per-call option is changed in place to what was sent and keeps its other fields, and an uninitialised one is left unchanged |
| Client.Client.Head | client.go:279-281 | `DoRequest` with HEAD and no payload: the answer is logged, the per-call headers, cookies and settings are sent with the global clone merged over them, an initialised per-call option is changed in place to what was sent and keeps its other fields, and an uninitialised one is left unchanged |
| Client.Client.Options | client.go:287-289 | `DoRequest` with HEAD (not OPTIONS) and no payload: the answer is logged, the per-call headers, cookies and settings are sent with the global clone merged over them, an initialised per-call option is changed in place to what was sent and keeps its other fields, and an uninitialised one is left unchanged |
| Client.Client.Trace | client.go:295-297 | `DoRequest` with TRACE and no payload: the answer is logged, the per-call headers, cookies and settings are sent with the global clone merged over them, an initialised per-call option is changed in place to what was sent and keeps its other fields, and an uninitialised one is left unchanged |
| Client.Client.Custom | client.go:303-305 | `DoRequest` with the given method and payload: the answer is logged, the per-call headers, cookies and settings are sent with the global clone merged over them, an initialised per-call option is changed in place to what was sent and keeps its other fields, and an uninitialised one is left unchanged |
| Client.FormOption | client.go:132-136 | a fresh zero option with the caller's option merged in (headers, cookies and settings) and Content-Type set to form encoding |
| Client.Client.PostFormData | client.go:131-139 | POST of the encoded form with Content-Type `application/x-www-form-urlencoded` unless a global header overrides it; the caller's settings pass through a zero option and the defaults before the global clone is merged over them; the caller's option is not changed |
| Client.Client.PutFormData | client.go:178-186 | the same with PUT |
| Client.Client.PatchFormData | client.go:225-233 | the same with PATCH |
| Func.BodyFor | func.go:68-96 | an empty payload sends no body whatever the compression; otherwise plain, compressed with a supported type, or the unsupported-compression error exactly for any other type |
| Func.SetAll | func.go:104-107 | the header keys sent are exactly the keys of the list |
| Func.SetAllLastWins | func.go:104-107 | for a duplicated key the last entry's value is sent |
| Func.ApplyHeaders | func.go:104-107 | the loop computes `SetAll` of the list |
| Func.UserAgentSent | func.go:53-57 | a User-Agent header is always sent: the configured one, or `caelisco/client/1.1` when empty |
| Func.ContentEncodingSent | func.go:70-92 | a non-empty payload with compression sends Content-Encoding equal to the compression name; an empty payload adds none |
| Func.RewriteURL | func.go:35-51 | the old rewrite: strip, append `://` when missing, prefix the scheme, or default to `https://` |
| Func.NoColonCheck | func.go:47-51 | `localhost:8080` becomes `https://localhost:8080` here, while `normaliseURL` rejects it |
| Func.Redirected | func.go:136-139 | the flag compares Go `len`, the UTF-8 byte length, of the two URLs; a flagged redirect always reached a different URL |
| Func.SameLengthRedirectNotFlagged | func.go:136 | a redirect that swaps one rune for another of the same UTF-8 width reaches a different URL and is not flagged |
| Func.ByteLengthsCompared | func.go:136 | URLs with as many runes but not as many bytes (`éé` against `ab`) are flagged as a redirect |
| Func.Prepare | func.go:30-96 | the rewritten URL, the body choice and the header list with User-Agent and Content-Encoding; cookies and the redirect switch are passed through |
| Func.CopyOf | func.go:30-33 | the first options record copied field by field, or the zero record when none is given |
| Func.Filled | func.go:133-162 | the whole response record after the reply: request fields and request time kept; response and access time set; status, status code, protocol, headers, transfer encoding, cookies, uncompressed flag, TLS state and body from the reply; redirect flag and location by the length rule; the copy error, if any, as the error |
| Func.Complete | func.go:133-162 | the response is `Filled`: every reply field is copied, the redirect flag follows the length rule, and a copy error is recorded and returned |
| Func.DoRequest | func.go:27-165 | the whole response on each exit path: an unsupported compression returns the pending response and its error before anything is sent; a request error is recorded in the pending response; otherwise the request sent carries the rewritten URL, body, headers and cookies, a transport error is recorded after the request time, and a reply gives `Filled` |

## Left out

- Network, TLS and the `http.Client` redirect machinery: `Do`, `CheckRedirect` and `defaultTransport` are not modelled. The transport's answer is a parameter (`outcome` in `Client`, `transport` in `Func`).
- Clocks and durations (`time.Now`, `time.Since`) are parameters of `Func.DoRequest`.
- UUID and ULID generation are parameters (`Request.Options.GenerateIdentifier`), and the random bytes of `generateRandomString` are an input sequence.
- The compression algorithms (gzip, zlib "deflate", Brotli) are left out. Only the dispatch is modelled, and a compressor is named by its algorithm or its hook. Whether a reader constructor or a custom hook fails depends on the body and the hook, so that outcome is a parameter of `GetCompressor` and `GetDecompressor`.
- The error from the compressing writer's `Write` in `func.go` (lines 84-87) is not modelled, because the writer is library code.
- Logging is left out, because it has no effect on state: `Log`, `LogVerbose`, `EnableLogging`, `DisableLogging`, `UseTextLogger`, `UseJsonLogger`, `SetLogger`. A logger is a `Maybe<Handle>`.
- `ListHeaders` and `ListCookies` only print, so they are left out.
- The file operations (`PrepareFile`, `SetFile`, `HasFileHandle`, `GetFile`, `Filesize`, `ReopenFile`, `InferContentType`, `PostFile`/`PutFile`/`PatchFile`, request `FileWriter`) are left out, because they act on the file system. prepare_file.go is not part of this model.
- The plain field setters and getters of options/options.go are left out: `SetCompression`, `Redirects`, `Enable`/`DisableRedirects`, `Enable`/`DisablePreserveMethodOnRedirect`, `SetMaxRedirects`, `GetMaxRedirects`, `SetTransport`, `GetClient` and `GetWriter`. Each reads or assigns one field.
- `Option.GenerateIdentifier` is not modelled: it draws a UUID or ULID from libraries.
- The mutexes and atomic counters of the progress decorators are left out, because the model is sequential. The counters are plain `nat` fields.
- Cookie aliasing is left out. After a merge, Go records share the same `*http.Cookie` objects. Here cookies are values, so a later change to a shared cookie is not seen through the other record.
- Slice aliasing in `func.go` is left out. The struct copy of `RequestOptions` shares the headers' backing array with the caller. `Func.CopyOf` copies by value, so an append into spare capacity that the caller could observe is not captured.
- The `Options` field of `response.Response` (a copy of the request options) is not kept in `Responses.Response`.
- The one-shot wrappers of func.go (lines 171-262) are left out. `Get`, `Post`, `Put`, `Patch`, `Delete`, `Connect`, `Head`, `Options` (which sends HEAD), `Trace` and `Custom` only pass their arguments to `doRequest`, which is modelled. `FormPost` (lines 188-198) also form-encodes the map, which `Form.Encode` models. It sets the form Content-Type on a fresh record when no option is given, and on the first record when exactly one is given. With two or more options it adds nothing.
- The `doRequest(method, url, payload, opt)` that client.go calls is not part of this model. Its result is the `outcome` parameter, and `Client.Sent` records what it was given.
- `http.Request.AddCookie` is left out: the cookies are passed through as a list, and building the `Cookie` header is not modelled.
- The value of the `ContentType` constant used by client.go is defined outside the modelled files. It is taken to be `Content-Type`.
- `SchemeHTTP` and `SchemeHTTPS` are defined outside the modelled files. They are taken to be `http://` and `https://`.
- progress/progress.go, alias.go, options/read_closer.go and response.go are not part of this model. They are older or alias types that the core does not call.
- `net/url.Parse` is an uninterpreted parser parameter. Which URLs it accepts is not modelled.
- `http.Header` keys are taken as already canonical, so `Header.Set` canonicalisation is not modelled.
- NormaliseUrl.Idempotent: the source's idempotence is proved only when the scheme is trimmed and does not extend `http://`/`https://`, and (for those two schemes) when the input carries at most one leading scheme pair. `DoubleSchemeNotIdempotent` shows that the general claim is false.
