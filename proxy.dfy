/**
 * The proxied response object and the objects it talks to: the origin
 * response it wraps, the client request it answers, the client response it
 * writes, and the upstream request it resets on failure.
 */
module Proxy {
  import opened Wrappers
  import opened JavaLong
  import opened Headers
  import opened External
  import opened Transfer
  import opened CacheMetadata
  import opened HeaderRewrite

  /** The origin server's response (`HttpClientResponse`): status, headers, body stream, flow control. */
  class OriginResponse {
    const statusCode: Int32
    const statusMessage: Option<string>
    const headers: seq<Header>
    const stream: seq<Chunk>
    var flowing: bool

    constructor (statusCode: Int32, statusMessage: Option<string>, headers: seq<Header>, stream: seq<Chunk>)
      ensures this.statusCode == statusCode && this.statusMessage == statusMessage
      ensures this.headers == headers && this.stream == stream && !flowing
    {
      this.statusCode := statusCode;
      this.statusMessage := statusMessage;
      this.headers := headers;
      this.stream := stream;
      flowing := false;
    }

    /** `resume()`: lets the paused stream flow again so the connection is drained. */
    method Resume()
      modifies this`flowing
      ensures flowing
    {
      flowing := true;
    }
  }

  /** The request sent to the origin (`HttpClientRequest`); only its reset matters here. */
  class ClientRequest {
    var resets: nat

    constructor ()
      ensures resets == 0
    {
      resets := 0;
    }

    method Reset()
      modifies this`resets
      ensures resets == old(resets) + 1
    {
      resets := resets + 1;
    }
  }

  /** The request being proxied: the upstream request and the client's protocol version. */
  class ProxiedRequest {
    const request: ClientRequest
    const version: HttpVersion

    constructor (request: ClientRequest, version: HttpVersion)
      ensures this.request == request && this.version == version
    {
      this.request := request;
      this.version := version;
    }
  }

  /**
   * The response toward the client (`HttpServerResponse`): status line,
   * headers, chunked flag, the bytes written, and how many times it was
   * ended and reset.
   */
  class ServerResponse {
    var statusCode: Int32
    var statusMessage: Option<string>
    var headers: seq<Header>
    var chunked: bool
    var written: seq<bv8>
    var ends: nat
    var resets: nat

    constructor ()
      ensures statusCode == 200 && statusMessage == None && headers == []
      ensures !chunked && written == [] && ends == 0 && resets == 0
    {
      statusCode := 200;
      statusMessage := None;
      headers := [];
      chunked := false;
      written := [];
      ends := 0;
      resets := 0;
    }

    method SetStatusCode(sc: Int32)
      modifies this`statusCode
      ensures statusCode == sc
    {
      statusCode := sc;
    }

    method SetStatusMessage(message: string)
      modifies this`statusMessage
      ensures statusMessage == Some(message)
    {
      statusMessage := Some(message);
    }

    /** `putHeader(name, value)`: replaces every value under `name`. */
    method PutHeader(name: string, value: string)
      modifies this`headers
      ensures headers == Set(old(headers), name, value)
    {
      headers := Set(headers, name, value);
    }

    /** `putHeader(name, values)`: replaces every value under `name` by `values`. */
    method PutHeaderValues(name: string, values: seq<string>)
      modifies this`headers
      ensures headers == SetAll(old(headers), name, values)
    {
      headers := SetAll(headers, name, values);
    }

    /** `headers().add(name, value)`. */
    method AddHeader(name: string, value: string)
      modifies this`headers
      ensures headers == Add(old(headers), name, value)
    {
      headers := Add(headers, name, value);
    }

    method SetChunked(chunked: bool)
      modifies this`chunked
      ensures this.chunked == chunked
    {
      this.chunked := chunked;
    }

    method Write(data: seq<bv8>)
      modifies this`written
      ensures written == old(written) + data
    {
      written := written + data;
    }

    method End()
      modifies this`ends
      ensures ends == old(ends) + 1
    {
      ends := ends + 1;
    }

    /** `end(buffer)`: writes the buffer and ends the response. */
    method EndWith(data: seq<bv8>)
      modifies this`written, this`ends
      ensures written == old(written) + data && ends == old(ends) + 1
    {
      written := written + data;
      ends := ends + 1;
    }

    method Reset()
      modifies this`resets
      ensures resets == old(resets) + 1
    {
      resets := resets + 1;
    }
  }

  /** The chunks of an optional body; none without a body. */
  function StreamOf(body: Option<Body>): seq<Chunk> {
    if body.Some? then body.value.stream else []
  }

  /**
   * `ProxiedResponse`: the response the proxy forwards. `response` is the
   * origin response while it is held; `maxAge`, `etag` and
   * `publicCacheControl` are derived once, at construction.
   */
  class ProxiedResponse {
    const request: ProxiedRequest
    const proxiedResponse: ServerResponse
    var statusCode: Int32
    var statusMessage: Option<string>
    var body: Option<Body>
    var headers: seq<Header>
    var response: OriginResponse?
    var maxAge: Int64
    var etag: Option<string>
    var publicCacheControl: bool

    /** A response made up locally: status 200, no headers, no body, no origin. */
    constructor Synthetic(request: ProxiedRequest, proxiedResponse: ServerResponse)
      ensures this.request == request && this.proxiedResponse == proxiedResponse
      ensures response == null && statusCode == 200 && statusMessage == None
      ensures headers == [] && body == None
      ensures maxAge == 0 && etag == None && !publicCacheControl
    {
      this.request := request;
      this.proxiedResponse := proxiedResponse;
      response := null;
      statusCode := 200;
      statusMessage := None;
      headers := [];
      body := None;
      maxAge := 0;
      etag := None;
      publicCacheControl := false;
    }

    /**
     * Wraps an origin response whose cache metadata can be derived: copies
     * its status line and headers, wraps its stream as the body with the
     * parsed Content-Length, and stores the derived cache metadata and ETag.
     */
    constructor Wrap(request: ProxiedRequest, proxiedResponse: ServerResponse,
                     response: OriginResponse, c: Collaborators)
      requires DeriveCacheMeta(response.headers, c).Ok?
      ensures this.request == request && this.proxiedResponse == proxiedResponse
      ensures this.response == response
      ensures statusCode == response.statusCode && statusMessage == response.statusMessage
      ensures body == Some(OriginBody(response.headers, response.stream))
      ensures maxAge == DeriveCacheMeta(response.headers, c).value.maxAge
      ensures publicCacheControl == DeriveCacheMeta(response.headers, c).value.publicCacheControl
      ensures etag == Get(response.headers, ETAG)
      ensures headers == response.headers
    {
      var contentLength := ContentLengthOf(response.headers);
      var contentType := Get(response.headers, CONTENT_TYPE);
      this.request := request;
      this.response := response;
      this.proxiedResponse := proxiedResponse;
      statusCode := response.statusCode;
      statusMessage := response.statusMessage;
      body := Some(Body(response.stream, contentLength, contentType));
      var meta := DeriveCacheMeta(response.headers, c).value;
      maxAge := meta.maxAge;
      publicCacheControl := meta.publicCacheControl;
      etag := Get(response.headers, ETAG);
      headers := response.headers;
    }

    /**
     * The constructor over an origin response, with its exception: when the
     * cache metadata cannot be derived, no object results.
     */
    static method FromOrigin(request: ProxiedRequest, proxiedResponse: ServerResponse,
                             response: OriginResponse, c: Collaborators)
      returns (r: Result<ProxiedResponse, ConstructionError>)
      ensures r.Err? <==> DeriveCacheMeta(response.headers, c).Err?
      ensures r.Ok? ==>
        && fresh(r.value)
        && r.value.request == request && r.value.proxiedResponse == proxiedResponse
        && r.value.response == response && r.value.headers == response.headers
        && r.value.statusCode == response.statusCode
        && r.value.statusMessage == response.statusMessage
        && r.value.body == Some(OriginBody(response.headers, response.stream))
        && r.value.maxAge == DeriveCacheMeta(response.headers, c).value.maxAge
        && r.value.publicCacheControl == DeriveCacheMeta(response.headers, c).value.publicCacheControl
        && r.value.etag == Get(response.headers, ETAG)
    {
      var meta := DeriveCacheMeta(response.headers, c);
      if meta.Err? {
        return Err(meta.error);
      }
      var p := new ProxiedResponse.Wrap(request, proxiedResponse, response, c);
      return Ok(p);
    }

    method SetStatusCode(sc: Int32)
      modifies this`statusCode
      ensures statusCode == sc
    {
      statusCode := sc;
    }

    method SetStatusMessage(message: Option<string>)
      modifies this`statusMessage
      ensures statusMessage == message
    {
      statusMessage := message;
    }

    method SetBody(body: Option<Body>)
      modifies this`body
      ensures this.body == body
    {
      this.body := body;
    }

    /** `putHeader(name, value)`: replaces every stored value under `name`. */
    method PutHeader(name: string, value: string)
      modifies this`headers
      ensures headers == Set(old(headers), name, value)
      ensures ValuesOf(headers, name) == [value]
      ensures forall other :: !SameName(other, name) ==> ValuesOf(headers, other) == ValuesOf(old(headers), other)
    {
      ghost var before := headers;
      headers := Set(headers, name, value);
      forall other {
        SetValues(before, name, value, other);
      }
    }

    /** Whether the held origin response declared a Content-Length, in any case. */
    predicate OriginDeclaresLength(): (r: bool)
      reads this
      ensures r <==> response != null
                     && exists i :: 0 <= i < |response.headers| && SameName(response.headers[i].name, CONTENT_LENGTH)
    {
      if response == null then false
      else
        GetFirstEntry(response.headers, CONTENT_LENGTH);
        Contains(response.headers, CONTENT_LENGTH)
    }

    /**
     * `release()`: while the origin response is held, resume it and drop it
     * together with the body and the stored headers; afterwards, or on a
     * synthetic response, nothing changes. Status line and cache metadata
     * lie outside the frame and are never touched.
     */
    method Release()
      modifies this`response, this`body, this`headers, response
      ensures old(response) != null ==>
        old(response).flowing && response == null && body == None && headers == []
      ensures old(response) == null ==>
        response == null && body == old(body) && headers == old(headers)
    {
      if response != null {
        response.Resume();
        response := null;
        body := None;
        headers := [];
      }
    }

    /**
     * `sendResponse`: pipe the stream into the client response, ending it on
     * success; on failure leave it open and reset both the upstream request
     * and the client response.
     */
    method SendResponse(stream: seq<Chunk>, outcome: PipeOutcome) returns (result: SendResult)
      modifies proxiedResponse`written, proxiedResponse`ends, proxiedResponse`resets, request.request
      ensures var e := Piped(stream, outcome, false);
        && proxiedResponse.written == old(proxiedResponse.written) + e.written
        && proxiedResponse.ends == old(proxiedResponse.ends) + e.ends
        && proxiedResponse.resets == old(proxiedResponse.resets) + e.clientResets
        && request.request.resets == old(request.request.resets) + e.upstreamResets
        && result == e.result
    {
      proxiedResponse.Write(Concat(Delivered(stream, outcome)));
      if outcome.Completed? {
        proxiedResponse.End();
        result := Succeeded;
      } else {
        request.request.Reset();
        proxiedResponse.Reset();
        result := Failed;
      }
    }

    /**
     * `send()`: copy the status line, write the rewritten headers, then
     * deliver the body by the strategy its length and the client's version
     * call for. `now` is the current time; `outcome` is how the stream pipe
     * ends.
     */
    method Send(c: Collaborators, now: Instant, outcome: PipeOutcome) returns (result: SendResult)
      modifies proxiedResponse, request.request
      ensures proxiedResponse.statusCode == statusCode
      ensures proxiedResponse.statusMessage
           == if statusMessage.Some? then statusMessage else old(proxiedResponse.statusMessage)
      ensures proxiedResponse.headers
           == OutboundHeaders(old(proxiedResponse.headers), headers, body, OriginDeclaresLength(),
                              c.formatHttpDate(EffectiveDate(headers, c, now)),
                              KeptWarnings(ValuesOf(headers, WARNING), StoredDateInstant(headers, c), c.parseWarningDate))
      ensures var e := Deliver(ChooseStrategy(body, request.version), StreamOf(body), outcome);
        && proxiedResponse.chunked == (old(proxiedResponse.chunked) || e.chunked)
        && proxiedResponse.written == old(proxiedResponse.written) + e.written
        && proxiedResponse.ends == old(proxiedResponse.ends) + e.ends
        && proxiedResponse.resets == old(proxiedResponse.resets) + e.clientResets
        && request.request.resets == old(request.request.resets) + e.upstreamResets
        && result == e.result
    {
      WriteStatusAndHeaders(c, now);
      result := SendBody(outcome);
    }

    /** The first half of `send`: status line, Date, Warning and the copied headers. */
    method WriteStatusAndHeaders(c: Collaborators, now: Instant)
      modifies proxiedResponse`statusCode, proxiedResponse`statusMessage, proxiedResponse`headers
      ensures proxiedResponse.statusCode == statusCode
      ensures proxiedResponse.statusMessage
           == if statusMessage.Some? then statusMessage else old(proxiedResponse.statusMessage)
      ensures proxiedResponse.headers
           == RewrittenHeaders(old(proxiedResponse.headers), headers, body.Some?,
                               c.formatHttpDate(EffectiveDate(headers, c, now)),
                               KeptWarnings(ValuesOf(headers, WARNING), StoredDateInstant(headers, c), c.parseWarningDate))
    {
      ghost var initial := proxiedResponse.headers;
      proxiedResponse.SetStatusCode(statusCode);
      if statusMessage.Some? {
        proxiedResponse.SetStatusMessage(statusMessage.value);
      }

      // Date header; a formatting failure is only logged.
      var date := c.dateHeader(headers);
      var instant := if date.Some? then date.value else now;
      var formatted := c.formatHttpDate(instant);
      if formatted.Some? {
        proxiedResponse.PutHeader(DATE, formatted.value);
      }
      assert instant == EffectiveDate(headers, c, now);
      assert proxiedResponse.headers == if formatted.Some? then Set(initial, DATE, formatted.value) else initial;

      // Warning header, filtered against the stored Date.
      var warnings := ValuesOf(headers, WARNING);
      if |warnings| > 0 {
        var dateHeader := Get(headers, DATE);
        var dateInstant := if dateHeader.Some? then c.parseHeaderDate(dateHeader.value) else None;
        warnings := SuppressStaleWarnings(warnings, dateInstant, c.parseWarningDate);
      }
      assert warnings == KeptWarnings(ValuesOf(headers, WARNING), StoredDateInstant(headers, c), c.parseWarningDate);
      proxiedResponse.PutHeaderValues(WARNING, warnings);
      CopyHeaders();
    }

    /** The `forEach` over the stored headers: add each one that is not skipped. */
    method CopyHeaders()
      modifies proxiedResponse`headers
      ensures proxiedResponse.headers == old(proxiedResponse.headers) + PassThrough(headers, body.Some?)
    {
      var i := 0;
      while i < |headers|
        invariant 0 <= i <= |headers|
        invariant proxiedResponse.headers == old(proxiedResponse.headers) + PassThrough(headers[..i], body.Some?)
      {
        var header := headers[i];
        assert headers[..i + 1] == headers[..i] + [header];
        PassThroughConcat(headers[..i], [header], body.Some?);
        if !Skipped(header.name, body.Some?) {
          proxiedResponse.AddHeader(header.name, header.value);
        }
        i := i + 1;
      }
      assert headers[..i] == headers;
    }

    /** The second half of `send`: framing headers and delivery of the body. */
    method SendBody(outcome: PipeOutcome) returns (result: SendResult)
      modifies proxiedResponse`headers, proxiedResponse`chunked, proxiedResponse`written
      modifies proxiedResponse`ends, proxiedResponse`resets, request.request
      ensures proxiedResponse.headers == FramingHeaders(old(proxiedResponse.headers), body, OriginDeclaresLength())
      ensures var e := Deliver(ChooseStrategy(body, request.version), StreamOf(body), outcome);
        && proxiedResponse.chunked == (old(proxiedResponse.chunked) || e.chunked)
        && proxiedResponse.written == old(proxiedResponse.written) + e.written
        && proxiedResponse.ends == old(proxiedResponse.ends) + e.ends
        && proxiedResponse.resets == old(proxiedResponse.resets) + e.clientResets
        && request.request.resets == old(request.request.resets) + e.upstreamResets
        && result == e.result
    {
      if body.None? {
        if response != null && Contains(response.headers, CONTENT_LENGTH) {
          proxiedResponse.PutHeader(CONTENT_LENGTH, "0");
        }
        proxiedResponse.End();
        result := Succeeded;
      } else {
        var b := body.value;
        if b.mediaType.Some? {
          proxiedResponse.PutHeader(CONTENT_TYPE, b.mediaType.value);
        }
        if b.length >= 0 {
          proxiedResponse.PutHeader(CONTENT_LENGTH, LongToString(b.length));
        } else {
          if request.version == Http10 {
            // An HTTP/1.0 client cannot take chunked coding: buffer the whole stream.
            if outcome.Completed? {
              proxiedResponse.EndWith(Concat(b.stream));
              result := Succeeded;
            } else {
              result := Failed;
            }
            return;
          }
          proxiedResponse.SetChunked(true);
        }
        result := SendResponse(b.stream, outcome);
      }
    }
  }

  /**
   * A Content-Length the origin declared (and the body kept) is forwarded in
   * canonical form and denotes the same length.
   */
  lemma ForwardedContentLength(initial: seq<Header>, origin: seq<Header>, stream: seq<Chunk>,
                               formattedDate: Option<string>, kept: seq<string>)
    requires ContentLengthOf(origin) >= 0
    ensures var out := ValuesOf(OutboundHeaders(initial, origin, Some(OriginBody(origin, stream)), true, formattedDate, kept), CONTENT_LENGTH);
      && |out| == 1
      && ParseLong(out[0]) == ParseLong(Get(origin, CONTENT_LENGTH).value)
  {
    var n := ContentLengthOf(origin);
    OutboundContentLength(initial, origin, Some(OriginBody(origin, stream)), true, formattedDate, kept);
    ParseLongOfLongToString(n);
  }

  /**
   * When a body of known length yields exactly that many bytes and the pipe
   * completes, the Content-Length sent reads back as the number of bytes
   * written, and the response is not chunked.
   */
  lemma DeclaredLengthMatchesBytes(initial: seq<Header>, stored: seq<Header>, b: Body, version: HttpVersion,
                                   originDeclaresLength: bool, formattedDate: Option<string>, kept: seq<string>)
    requires b.length >= 0 && |Concat(b.stream)| == b.length
    ensures var out := ValuesOf(OutboundHeaders(initial, stored, Some(b), originDeclaresLength, formattedDate, kept), CONTENT_LENGTH);
      var e := Deliver(ChooseStrategy(Some(b), version), b.stream, Completed);
      && |out| == 1
      && ParseLong(out[0]) == Some(|e.written|)
      && !e.chunked
  {
    OutboundContentLength(initial, stored, Some(b), originDeclaresLength, formattedDate, kept);
    ParseLongOfLongToString(b.length);
  }
}
