# ProxiedResponse: the response-forwarding step of an HTTP reverse proxy

This project models `ProxiedResponse`, the object that turns a response received from an
origin server into the response sent to the client. The model covers:

- **construction**, either synthetic or around an origin response. The second form derives the
  body length from `Content-Length` and the cache metadata (`maxAge`, `publicCacheControl`,
  `etag`) from `Cache-Control`, `Date`, `Expires` and `ETag`;
- **the setters**, `putHeader` and the idempotent `release`;
- **`send`**. It copies the status line. It sets `Date` to the stored date when one is found,
  else to the current time, and leaves `Date` alone when the date cannot be formatted. It drops
  the `Warning` values whose warn-date and the stored `Date` both parse and differ (section 5.5
  of RFC 7234); a value whose warn-date does not parse, or every value when the stored `Date` is
  absent or unparseable, is kept. It copies the stored headers that the proxy does not own. Then it delivers the body in one of four ways:
  no entity, a fixed `Content-Length`, fully buffered for HTTP/1.0 clients (which cannot use
  chunked coding, section 4.1 of RFC 7230), or chunked;
- **the outcome rule of the stream pipe**. On success the client response is ended. On failure
  it is not ended; instead both the client response and the upstream request are reset.

Modules, leaves first:

| module | file | contents |
|---|---|---|
| `Wrappers` | wrappers.dfy | `Option` (a nullable reference) and `Result` (a call that may throw) |
| `JavaLong` | java_long.dfy | Java `int`/`long` ranges, `long` wrap-around, `Long.parseLong`, `Long.toString` and their round trip |
| `Headers` | headers.dfy | Vert.x's case-insensitive `MultiMap` as an ordered list of entries: `getAll`, `get`, `contains`, `set`, `add`, `remove` |
| `External` | external.dfy | the collaborators whose code is not modelled, as total functions: the Cache-Control parser, the date parsers and formatter, the date lookup |
| `Transfer` | transfer.dfy | `Body`, the choice of transfer strategy, and what delivery does to the client response for each pipe outcome |
| `CacheMetadata` | cache_metadata.dfy | content length and cache metadata derived at construction |
| `HeaderRewrite` | header_rewrite.dfy | the Date, Warning, pass-through and framing steps of `send`, and the headers they produce |
| `Proxy` | proxy.dfy | the classes: `ProxiedResponse`, plus the objects it talks to (`OriginResponse`, `ServerResponse`, `ClientRequest`, `ProxiedRequest`) |

`ProxiedResponse` is a class because the source updates its fields in place. The client
response (`ServerResponse`) is a class too, because `send` changes its headers, its chunked flag
and its end/reset state. The derivations and the strategy choice are functions. Two loops are
methods whose `ensures` equate their result with a specification function:

- the iterator-removal loop that drops stale warnings;
- the `forEach` that copies headers.

Lemmas then state what those functions mean.

Inputs that the source gets from elsewhere are parameters:

- the current time (`Instant.now()`);
- the results of `CacheControl.parse`, `ParseUtils.parseHeaderDate`,
  `ParseUtils.parseWarningHeaderDate`, `ParseUtils.formatHttpDate` and `HttpUtils.dateHeader`,
  as fields of `External.Collaborators`;
- how the asynchronous pipe ends (`Transfer.PipeOutcome`: completed, or failed after some
  chunks reached the client).

The model follows what the code does in these places, where a tidier reading of the proxy would differ:

- **Unparseable `Date` or `Expires`.** Take a response that is `public`, has no positive
  `max-age`, and has both `Date` and `Expires`. If either value does not parse, the constructor
  dereferences a null instant (`ProxiedResponse.java:92`) and throws. It does not fall back to
  -1. `ProxiedResponse.FromOrigin` returns `Err(UnparseableDate)` for this case.
- **Warning filter.** Warnings are checked against the *stored* `Date` header
  (`HeaderRewrite.StoredDateInstant`). They are not checked against the date that is emitted
  (`HeaderRewrite.EffectiveDate`).
- **`content-type` skip.** The skip compares the name case-sensitively. A stored `Content-Type`
  is therefore copied even while a body is present (`HeaderRewrite.ContentTypeSkipIsCaseSensitive`).
- **Buffered failure.** On the buffered HTTP/1.0 path, a failed source resets nothing. The client
  response is neither ended nor reset; only the returned result fails
  (`Transfer.BufferedWritesOnlyAfterCompletion`).
- **`release`.** It leaves `maxAge`, `etag` and `publicCacheControl` as they were. A
  synthetic response keeps `maxAge == 0`, not -1.
- **Stored `Content-Length`.** It is not among the skipped names. On the chunked and buffered
  paths, and without a body when the origin declared none, stored `Content-Length` values are
  copied verbatim (`HeaderRewrite.OutboundContentLength`).

## Model

| member | source | states |
|---|---|---|
| `JavaLong.Wrap64` | src/main/java/io/vertx/httpproxy/impl/ProxiedResponse.java:92 | `long` subtraction: the result is in the `long` range, congruent to the exact difference modulo 2^64, and equal to it when no overflow happens |
| `JavaLong.ParseLong` | src/main/java/io/vertx/httpproxy/impl/ProxiedResponse.java:59-67 | a string parses iff it is an optional `+`/`-` followed by at least one digit and denotes a value in the `long` range; the value is then the one the numeral denotes |
| `JavaLong.LeadingZeroAndPlusIgnored` | src/main/java/io/vertx/httpproxy/impl/ProxiedResponse.java:59-67 | a leading zero (after an optional minus) or a leading `+` does not change the value read |
| `JavaLong.LongToString` | src/main/java/io/vertx/httpproxy/impl/ProxiedResponse.java:235 | `Long.toString` writes the canonical numeral: digits with no leading zero (except for 0 itself), with a leading minus exactly for negative values |
| `JavaLong.ParseLongOfLongToString` | src/main/java/io/vertx/httpproxy/impl/ProxiedResponse.java:235 | `Long.parseLong` reads back every value `Long.toString` writes |
| `Headers.GetFirstEntry` | src/main/java/io/vertx/httpproxy/impl/ProxiedResponse.java:60 | `get(name)` finds a value iff some entry is stored under the name, ignoring case, and then returns the value of the first such entry |
| `Headers.ValuesOfConcat` | src/main/java/io/vertx/httpproxy/impl/ProxiedResponse.java:193 | `getAll` over two runs of entries is the values of the first run followed by those of the second |
| `Headers.RemoveAllValues` | src/main/java/io/vertx/httpproxy/impl/ProxiedResponse.java:168 | removing a name empties it, ignoring case, and leaves every other name's values and order unchanged |
| `Headers.SetValues` | src/main/java/io/vertx/httpproxy/impl/ProxiedResponse.java:168 | after `set(name, value)` the name holds exactly that value; every other name is unchanged |
| `Headers.SetAllValues` | src/main/java/io/vertx/httpproxy/impl/ProxiedResponse.java:208 | after `set(name, values)` the name holds exactly those values, in order; every other name is unchanged |
| `Headers.AddValues` | src/main/java/io/vertx/httpproxy/impl/ProxiedResponse.java:219 | `add` appends one value to its name and leaves every other name unchanged |
| `CacheMetadata.ContentLengthOf` | src/main/java/io/vertx/httpproxy/impl/ProxiedResponse.java:58-67 | the body length is the parsed first `Content-Length` when it parses as a `long`, and -1 when it is absent or malformed |
| `CacheMetadata.CanonicalContentLength` | src/main/java/io/vertx/httpproxy/impl/ProxiedResponse.java:59-67 | a `Content-Length` written in canonical form yields exactly that body length |
| `CacheMetadata.DeriveCacheMeta` | src/main/java/io/vertx/httpproxy/impl/ProxiedResponse.java:79-98 | `publicCacheControl` iff the directives say public; not public gives maxAge -1; a positive max-age gives max-age × 1000; public without max-age and without both dates gives -1; with both dates it gives Expires − Date (wrapping as a `long`); the constructor throws exactly when one of the two dates does not parse |
| `CacheMetadata.MaxAgeOverridesExpires` | src/main/java/io/vertx/httpproxy/impl/ProxiedResponse.java:86-93 | with a public positive max-age, replacing the `Date` and `Expires` headers by anything, unparseable or empty included, leaves the derived metadata unchanged and construction succeeds |
| `CacheMetadata.ExpiresBasedMaxAgeIsExact` | src/main/java/io/vertx/httpproxy/impl/ProxiedResponse.java:88-93 | for real dates no wrap-around happens: maxAge is exactly Expires − Date, and is negative iff Expires is before Date |
| `Transfer.ChooseStrategy` | src/main/java/io/vertx/httpproxy/impl/ProxiedResponse.java:223-253 | no body iff no entity; a known length (≥ 0) iff fixed length with that value; an unknown length with an HTTP/1.0 client iff buffered; an unknown length otherwise iff chunked |
| `Transfer.ConcatAppend` | src/main/java/io/vertx/httpproxy/impl/ProxiedResponse.java:240-246 | the buffered content of two runs of chunks is their contents in order |
| `Transfer.Delivered` | src/main/java/io/vertx/httpproxy/impl/ProxiedResponse.java:267-279 | the chunks that reach the sink are a prefix of the stream, and all of it when the pipe completes |
| `Transfer.Piped` | src/main/java/io/vertx/httpproxy/impl/ProxiedResponse.java:267-279 | the pipe keeps the chunked flag it is given; what it writes is a prefix of the stream, all of it on completion; exactly one terminal signal: an end iff completed, otherwise one reset of each side; success iff completed |
| `Transfer.Deliver` | src/main/java/io/vertx/httpproxy/impl/ProxiedResponse.java:223-279 | for every strategy and outcome, what is written is a prefix of the stream's bytes; the send succeeds iff there is no entity or the source completed; the client and upstream are reset equally often |
| `Transfer.DeliveredBytesArePrefix` | src/main/java/io/vertx/httpproxy/impl/ProxiedResponse.java:267-279 | the bytes written before the pipe ends are a prefix of the stream's bytes |
| `Transfer.CompletedWritesWholeStream` | src/main/java/io/vertx/httpproxy/impl/ProxiedResponse.java:233-253 | for every strategy with a body, a completed transfer writes the whole stream, ends the client response once, resets nothing and succeeds; only the chunked strategy turns chunked coding on |
| `Transfer.StreamedFailureResetsBothEnds` | src/main/java/io/vertx/httpproxy/impl/ProxiedResponse.java:267-279 | a failed fixed-length or chunked transfer never ends the client response; it resets it and the upstream request once each and fails; what was written is a prefix of the stream |
| `Transfer.BufferedWritesOnlyAfterCompletion` | src/main/java/io/vertx/httpproxy/impl/ProxiedResponse.java:237-249 | the buffered strategy is never chunked; it writes the whole stream only once the source has completed and nothing otherwise; its failure neither ends nor resets anything |
| `Transfer.SingleTerminalSignal` | src/main/java/io/vertx/httpproxy/impl/ProxiedResponse.java:223-279 | the client response is ended or reset at most once in total; it is ended iff the send succeeds; chunked coding is used iff the strategy is chunked |
| `HeaderRewrite.EffectiveDate` | src/main/java/io/vertx/httpproxy/impl/ProxiedResponse.java:182-185 | the announced date is the one `dateHeader` finds, and the current time only when it finds none |
| `HeaderRewrite.StoredDateInstant` | src/main/java/io/vertx/httpproxy/impl/ProxiedResponse.java:196-197 | a reference date is exactly the parse of the first stored `Date` entry, and there is none without one |
| `HeaderRewrite.KeptWarnings` | src/main/java/io/vertx/httpproxy/impl/ProxiedResponse.java:198-206 | no surviving warning value is stale |
| `HeaderRewrite.KeptWarningsConcat` | src/main/java/io/vertx/httpproxy/impl/ProxiedResponse.java:198-206 | filtering two runs of warnings is filtering each in turn, so the survivors keep their order |
| `HeaderRewrite.KeptWarningsCount` | src/main/java/io/vertx/httpproxy/impl/ProxiedResponse.java:196-206 | a warning value is dropped, with all its occurrences, iff its warn-date and the stored `Date` both parse and differ; otherwise all its occurrences survive |
| `HeaderRewrite.KeptWarningsWithoutDate` | src/main/java/io/vertx/httpproxy/impl/ProxiedResponse.java:197-203 | without a parseable stored `Date`, every warning survives |
| `HeaderRewrite.SuppressStaleWarnings` | src/main/java/io/vertx/httpproxy/impl/ProxiedResponse.java:195-206 | the iterator-removal loop over a copy of the warnings leaves exactly the non-stale values in their original order |
| `HeaderRewrite.PassThroughConcat` | src/main/java/io/vertx/httpproxy/impl/ProxiedResponse.java:211-221 | the header copy applies per entry, in iteration order |
| `HeaderRewrite.PassThrough` | src/main/java/io/vertx/httpproxy/impl/ProxiedResponse.java:211-221 | no copied entry has a skipped name |
| `HeaderRewrite.PassThroughValues` | src/main/java/io/vertx/httpproxy/impl/ProxiedResponse.java:211-221 | the copy carries nothing under `date`, `warning` or `transfer-encoding` in any case; under a name other than these and, while a body is present, other than one folding to `content-type`, it carries the stored values with the same multiplicity and order |
| `HeaderRewrite.PassThroughCount` | src/main/java/io/vertx/httpproxy/impl/ProxiedResponse.java:211-221 | every stored entry is copied as often as it is stored unless its name is skipped, and then never; with a body, only names spelled exactly `content-type` are skipped among those folding to it |
| `HeaderRewrite.ContentTypeSkipIsCaseSensitive` | src/main/java/io/vertx/httpproxy/impl/ProxiedResponse.java:214-216 | while a body is present, `content-type` is skipped but `Content-Type` is copied |
| `HeaderRewrite.FramingHeaders` | src/main/java/io/vertx/httpproxy/impl/ProxiedResponse.java:223-235 | a known body length becomes the one `Content-Length`; no body with a declared origin length gives `Content-Length: 0`; a body's media type becomes the one `Content-Type`; otherwise the headers are unchanged |
| `HeaderRewrite.FramingValues` | src/main/java/io/vertx/httpproxy/impl/ProxiedResponse.java:223-235 | the framing step changes only `Content-Type` and `Content-Length` |
| `HeaderRewrite.OutboundDate` | src/main/java/io/vertx/httpproxy/impl/ProxiedResponse.java:181-190 | when the date can be formatted, exactly one `Date` header goes out, holding that date; when formatting fails, the client response's own `Date` values stay |
| `HeaderRewrite.OutboundWarnings` | src/main/java/io/vertx/httpproxy/impl/ProxiedResponse.java:192-208 | the `Warning` values sent are exactly the surviving ones, in order, and none when none survive |
| `HeaderRewrite.OutboundTransferEncoding` | src/main/java/io/vertx/httpproxy/impl/ProxiedResponse.java:216 | no stored `Transfer-Encoding` value reaches the client |
| `HeaderRewrite.OutboundOtherHeaders` | src/main/java/io/vertx/httpproxy/impl/ProxiedResponse.java:210-221 | every other stored header goes out with the same values, multiplicity and order, after the values already on the client response |
| `HeaderRewrite.OutboundContentLength` | src/main/java/io/vertx/httpproxy/impl/ProxiedResponse.java:223-235 | a known body length is sent as the one `Content-Length`; without a body it is "0" when the origin declared a length; in every other case the stored values are copied |
| `HeaderRewrite.OutboundContentType` | src/main/java/io/vertx/httpproxy/impl/ProxiedResponse.java:214-232 | a body's media type is sent as the one `Content-Type`; without a body the stored values are copied; with a body without media type the stored values are copied except entries spelled exactly `content-type` |
| `Proxy.ProxiedResponse.Synthetic` | src/main/java/io/vertx/httpproxy/impl/ProxiedResponse.java:48-54 | a synthetic response has status 200, no headers, no body, no origin response, maxAge 0 (not -1), no etag and is not public |
| `Proxy.ProxiedResponse.Wrap` | src/main/java/io/vertx/httpproxy/impl/ProxiedResponse.java:56-101 | wrapping copies the origin's status line and headers; the body is the origin stream with the parsed length and content type; the cache metadata is the derived one and the etag is the raw `ETag` |
| `Proxy.ProxiedResponse.FromOrigin` | src/main/java/io/vertx/httpproxy/impl/ProxiedResponse.java:56-101 | construction fails exactly when the cache metadata cannot be derived; otherwise it yields a fresh object in the state `Wrap` describes |
| `Proxy.ProxiedResponse.SetStatusCode` | src/main/java/io/vertx/httpproxy/impl/ProxiedResponse.java:114-117 | sets the status code and nothing else |
| `Proxy.ProxiedResponse.SetStatusMessage` | src/main/java/io/vertx/httpproxy/impl/ProxiedResponse.java:125-128 | sets the status message (possibly null) and nothing else |
| `Proxy.ProxiedResponse.SetBody` | src/main/java/io/vertx/httpproxy/impl/ProxiedResponse.java:136-139 | sets the body (possibly null) and nothing else |
| `Proxy.ProxiedResponse.PutHeader` | src/main/java/io/vertx/httpproxy/impl/ProxiedResponse.java:167-170 | replaces every stored value of the name with the one given; every other name is unchanged |
| `Proxy.ProxiedResponse.OriginDeclaresLength` | src/main/java/io/vertx/httpproxy/impl/ProxiedResponse.java:224 | true iff an origin response is held and one of its entries is named `Content-Length` in any case |
| `Proxy.ProxiedResponse.Release` | src/main/java/io/vertx/httpproxy/impl/ProxiedResponse.java:257-265 | while an origin response is held, it is resumed and dropped together with the body and the headers; without one nothing changes, so a second call is a no-op; status line and cache fields are outside its frame |
| `Proxy.ProxiedResponse.SendResponse` | src/main/java/io/vertx/httpproxy/impl/ProxiedResponse.java:267-279 | the delivered bytes are written; on success the client response is ended once; on failure it is not ended, and both it and the upstream request are reset once |
| `Proxy.ProxiedResponse.WriteStatusAndHeaders` | src/main/java/io/vertx/httpproxy/impl/ProxiedResponse.java:174-221 | the status code is copied, and the message only when present; the headers become the Date, Warning and copy steps applied to the client response's headers |
| `Proxy.ProxiedResponse.CopyHeaders` | src/main/java/io/vertx/httpproxy/impl/ProxiedResponse.java:211-221 | the `forEach` loop appends exactly the stored headers that are not skipped, in order |
| `Proxy.ProxiedResponse.SendBody` | src/main/java/io/vertx/httpproxy/impl/ProxiedResponse.java:223-253 | the framing headers are set, and delivery follows the chosen strategy and the pipe outcome |
| `Proxy.ProxiedResponse.Send` | src/main/java/io/vertx/httpproxy/impl/ProxiedResponse.java:173-254 | the whole client response afterwards (status, headers, chunked flag, bytes, ends, resets) and the result are tied to the rewrite and delivery functions; the proxied response itself is outside its frame, so stored headers and warnings are left unchanged |
| `Proxy.ForwardedContentLength` | src/main/java/io/vertx/httpproxy/impl/ProxiedResponse.java:59-67 | when the origin's `Content-Length` parses to a non-negative value and the body is kept, exactly one `Content-Length` is forwarded and it parses to the same value |
| `Proxy.DeclaredLengthMatchesBytes` | src/main/java/io/vertx/httpproxy/impl/ProxiedResponse.java:233-235 | when a body of known length yields that many bytes and the pipe completes, the one `Content-Length` sent reads back as the number of bytes written, and the response is not chunked |

## Left out

- The Vert.x `Pipe`/`ReadStream` machinery, backpressure and `Future` composition. Only the terminal outcome of the pipe is modelled; the bytes that reach the client before it ends are one write.
- `BufferingWriteStream`. Its content is modelled as the concatenation of the stream's chunks.
- The Content-Length header that the client response adds by itself on `end(buffer)`. This belongs to the server response implementation, which is not part of this model. So no contract states the buffered response's `Content-Length`.
- `CacheControl.parse`, `ParseUtils.parseHeaderDate`, `parseWarningHeaderDate`, `formatHttpDate` and `HttpUtils.dateHeader`. They are not part of this model; their results are inputs. `parseHeaderDate` is taken to yield null (`None`) for a value it cannot parse.
- `Instant.now()`. It is a parameter. The stack trace printed when date formatting fails is logging only; the model keeps its effect, which is that no `Date` header is set.
- Instants are whole milliseconds since the epoch. Sub-millisecond parts in `Instant.equals` are not modelled, and neither is the `ArithmeticException` of `toEpochMilli` out of range.
- `Headers.SameName`: case is folded for ASCII letters only, as the multimap does. The `equalsIgnoreCase` test of the skip at `ProxiedResponse.java:216` also folds other letters, so a non-ASCII spelling of `date`, `warning` or `transfer-encoding` that it skips is copied in the model.
- `JavaLong.ParseLong`: accepts ASCII digits only. `Long.parseLong` also accepts other Unicode decimal digits.
- `Body.body(...)`: only its three components are modelled (stream, length, media type as an optional string). The stream is a value, so consuming it twice is not modelled.
- The end of a response without a body counts as success. A failure of `end()` itself, such as a closed connection, is not modelled; neither is writing to a response that has already ended.
- The getters (`getStatusCode`, `getBody`, `maxAge`, `etag`, `headers`, `request`, `proxiedResponse`, ...). They are plain field reads of the class.
