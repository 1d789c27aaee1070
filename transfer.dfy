/**
 * The body of a response and how `send` delivers it: the choice between no
 * entity, a fixed Content-Length, buffering for HTTP/1.0 clients and chunked
 * coding, and what each choice does to the client response for a given
 * outcome of the stream pipe.
 */
module Transfer {
  import opened Wrappers
  import opened JavaLong

  type Chunk = seq<bv8>

  /**
   * `Body`: the chunks its stream yields, its declared length (-1 or any
   * negative value when unknown) and its optional media type.
   */
  datatype Body = Body(stream: seq<Chunk>, length: Int64, mediaType: Option<string>)

  /** The protocol version the client negotiated; only HTTP/1.0 matters here. */
  datatype HttpVersion = Http10 | Http11 | Http2

  datatype Strategy = NoEntity | FixedLength(length: Int64) | Buffered | Chunked

  /** The `Future<Void>` that `send` returns, once it has completed. */
  datatype SendResult = Succeeded | Failed

  /**
   * How the asynchronous pipe from the body stream ends: the source is
   * exhausted and written out, or the transfer fails (source error, sink
   * error, disconnect) after `chunksDelivered` chunks reached the sink.
   */
  datatype PipeOutcome = Completed | FailedAfter(chunksDelivered: nat)

  /** The transfer strategy `send` takes for a body and a client version. */
  function ChooseStrategy(body: Option<Body>, version: HttpVersion): (s: Strategy)
    ensures s.NoEntity? <==> body.None?
    ensures s.FixedLength? <==> body.Some? && body.value.length >= 0
    ensures s.FixedLength? ==> s.length == body.value.length
    ensures s.Buffered? <==> body.Some? && body.value.length < 0 && version == Http10
    ensures s.Chunked? <==> body.Some? && body.value.length < 0 && version != Http10
  {
    match body
    case None => NoEntity
    case Some(b) =>
      if b.length >= 0 then FixedLength(b.length)
      else if version == Http10 then Buffered
      else Chunked
  }

  /** The bytes of a run of chunks, in order (what a buffering sink accumulates). */
  function Concat(chunks: seq<Chunk>): seq<bv8> {
    if chunks == [] then [] else chunks[0] + Concat(chunks[1..])
  }

  lemma {:induction false} ConcatAppend(a: seq<Chunk>, b: seq<Chunk>)
    ensures Concat(a + b) == Concat(a) + Concat(b)
  {
    if a == [] {
      assert a + b == b;
    } else {
      assert (a + b)[0] == a[0];
      assert (a + b)[1..] == a[1..] + b;
      ConcatAppend(a[1..], b);
    }
  }

  /** The chunks that reached the sink before the pipe ended. */
  function Delivered(chunks: seq<Chunk>, outcome: PipeOutcome): (d: seq<Chunk>)
    ensures d <= chunks
    ensures outcome.Completed? ==> d == chunks
  {
    match outcome
    case Completed => chunks
    case FailedAfter(k) => if k <= |chunks| then chunks[..k] else chunks
  }

  /** Whatever part of the stream reached the sink is a prefix of its bytes. */
  lemma DeliveredBytesArePrefix(chunks: seq<Chunk>, outcome: PipeOutcome)
    ensures Concat(Delivered(chunks, outcome)) <= Concat(chunks)
  {
    var d := Delivered(chunks, outcome);
    assert chunks == d + chunks[|d|..];
    ConcatAppend(d, chunks[|d|..]);
  }

  /**
   * What sending does to the client side, counted from the moment the
   * headers are set: whether chunked coding was switched on, the bytes
   * written, how many times the client response was ended and reset, how
   * many times the upstream request was reset, and the result.
   */
  datatype Effect = Effect(
    chunked: bool, written: seq<bv8>, ends: nat,
    clientResets: nat, upstreamResets: nat, result: SendResult)

  /**
   * `sendResponse`: the pipe ends the sink on success and does not on
   * failure, where both the upstream request and the client response are
   * reset instead.
   */
  function Piped(chunks: seq<Chunk>, outcome: PipeOutcome, chunked: bool): (e: Effect)
    ensures e.chunked == chunked
    ensures e.written <= Concat(chunks)
    ensures outcome.Completed? ==> e.written == Concat(chunks)
    ensures e.ends + e.clientResets == 1 && e.clientResets == e.upstreamResets
    ensures e.ends == 1 <==> outcome.Completed?
    ensures e.result == Succeeded <==> outcome.Completed?
  {
    DeliveredBytesArePrefix(chunks, outcome);
    var written := Concat(Delivered(chunks, outcome));
    if outcome.Completed? then Effect(chunked, written, 1, 0, 0, Succeeded)
    else Effect(chunked, written, 0, 1, 1, Failed)
  }

  /** The delivery step of `send` for a strategy, the body's chunks and the pipe outcome. */
  function Deliver(s: Strategy, chunks: seq<Chunk>, outcome: PipeOutcome): (e: Effect)
    ensures e.written <= Concat(chunks)
    ensures e.result == Succeeded <==> s.NoEntity? || outcome.Completed?
    ensures e.clientResets == e.upstreamResets
  {
    match s
    case NoEntity => Effect(false, [], 1, 0, 0, Succeeded)
    case FixedLength(_) => Piped(chunks, outcome, false)
    case Chunked => Piped(chunks, outcome, true)
    case Buffered =>
      // The buffered content is written by a single end(content) once the
      // stream has completed; a failure only fails the returned future.
      if outcome.Completed? then Effect(false, Concat(chunks), 1, 0, 0, Succeeded)
      else Effect(false, [], 0, 0, 0, Failed)
  }

  /** A completed transfer writes the whole stream and ends the response once, whatever the strategy. */
  lemma CompletedWritesWholeStream(s: Strategy, chunks: seq<Chunk>)
    requires !s.NoEntity?
    ensures Deliver(s, chunks, Completed)
         == Effect(s.Chunked?, Concat(chunks), 1, 0, 0, Succeeded)
  {
  }

  /**
   * A failed streamed transfer (fixed length or chunked) never ends the
   * client response: it resets it and the upstream request once each, and
   * what was written is a prefix of the stream.
   */
  lemma StreamedFailureResetsBothEnds(s: Strategy, chunks: seq<Chunk>, k: nat)
    requires s.FixedLength? || s.Chunked?
    ensures var e := Deliver(s, chunks, FailedAfter(k));
      && e.ends == 0 && e.clientResets == 1 && e.upstreamResets == 1
      && e.result == Failed
      && e.written <= Concat(chunks)
  {
    DeliveredBytesArePrefix(chunks, FailedAfter(k));
  }

  /**
   * The buffered strategy never uses chunked coding and writes nothing
   * unless the source completed; a failure there neither ends nor resets
   * the client response.
   */
  lemma BufferedWritesOnlyAfterCompletion(chunks: seq<Chunk>, outcome: PipeOutcome)
    ensures var e := Deliver(Buffered, chunks, outcome);
      && !e.chunked
      && e.written == (if outcome.Completed? then Concat(chunks) else [])
      && (outcome.FailedAfter? ==> e.ends == 0 && e.clientResets == 0 && e.upstreamResets == 0)
  {
  }

  /** The client response gets at most one terminal signal, end or reset, and chunked coding only under Chunked. */
  lemma SingleTerminalSignal(s: Strategy, chunks: seq<Chunk>, outcome: PipeOutcome)
    ensures var e := Deliver(s, chunks, outcome);
      && e.ends + e.clientResets <= 1
      && (e.ends == 1 <==> e.result == Succeeded)
      && (e.chunked <==> s.Chunked?)
  {
  }
}
