/** The bounded HTTP body loop of `bounded_http_get`. */
module BodyReader {
  import opened Prelude
  import opened Gateway

  const MAX_HTTP_RESPONSE_BYTES: nat := 256 * 1024

  /** What one poll of the body stream gives: some bytes, or a transport error. */
  datatype Chunk = Bytes(data: seq<byte>) | Failure

  /** The bytes that arrive before the first error, however they are cut. */
  function Delivered(chunks: seq<Chunk>): seq<byte> {
    if chunks == [] || chunks[0].Failure? then [] else chunks[0].data + Delivered(chunks[1..])
  }

  function Fails(chunks: seq<Chunk>): bool {
    chunks != [] && (chunks[0].Failure? || Fails(chunks[1..]))
  }

  /** The body a caller can rely on, with no mention of chunks: the delivered bytes if they fit and the stream
      ended well; too many bytes are an invalid response even when an error follows. */
  function Body(delivered: seq<byte>, failed: bool): Result<seq<byte>, GatewayError> {
    if |delivered| > MAX_HTTP_RESPONSE_BYTES then Err(InvalidResponse)
    else if failed then Err(Upstream)
    else Ok(delivered)
  }

  /** The check on the Content-Length header. */
  predicate TooLong(contentLength: Option<nat>) {
    contentLength.Some? && contentLength.value > MAX_HTTP_RESPONSE_BYTES
  }

  lemma {:induction false} DeliveredSnoc(chunks: seq<Chunk>, k: nat)
    requires k < |chunks| && !Fails(chunks[..k])
    ensures Delivered(chunks[..k + 1]) == Delivered(chunks[..k]) + if chunks[k].Failure? then [] else chunks[k].data
    ensures Fails(chunks[..k + 1]) == chunks[k].Failure?
  {
    assert chunks[..k + 1] == chunks[..k] + [chunks[k]];
    DeliveredAppend(chunks[..k], chunks[k]);
  }

  lemma {:induction false} DeliveredAppend(chunks: seq<Chunk>, chunk: Chunk)
    requires !Fails(chunks)
    ensures Delivered(chunks + [chunk]) == Delivered(chunks) + if chunk.Failure? then [] else chunk.data
    ensures Fails(chunks + [chunk]) == chunk.Failure?
  {
    var all, last := chunks + [chunk], if chunk.Failure? then [] else chunk.data;
    if chunks == [] {
      assert all[0] == chunk && all[1..] == [];
      assert Delivered([]) == [] && !Fails([]) && last + [] == last;
    } else {
      assert all[0] == chunks[0] && all[1..] == chunks[1..] + [chunk];
      DeliveredAppend(chunks[1..], chunk);
      assert chunks[0].data + (Delivered(chunks[1..]) + last) == chunks[0].data + Delivered(chunks[1..]) + last;
    }
  }

  lemma {:induction false} DeliveredPrefix(chunks: seq<Chunk>, k: nat)
    requires k <= |chunks|
    ensures Delivered(chunks[..k]) <= Delivered(chunks)
    ensures Fails(chunks[..k]) ==> Fails(chunks) && Delivered(chunks[..k]) == Delivered(chunks)
  {
    if k > 0 {
      DeliveredPrefix(chunks[1..], k - 1);
      assert chunks[..k][1..] == chunks[1..][..k - 1];
    }
  }

  /** The loop.  Its outcome is `Body` of the whole stream, so chunk boundaries do not matter.  `body` is the
      buffer as the loop leaves it, at its largest since it only grows: a prefix of what was delivered, never
      above the cap, however the read ends. */
  method ReadBody(chunks: seq<Chunk>) returns (outcome: Result<seq<byte>, GatewayError>, body: seq<byte>)
    ensures outcome == Body(Delivered(chunks), Fails(chunks))
    ensures body <= Delivered(chunks) && |body| <= MAX_HTTP_RESPONSE_BYTES
    ensures outcome.Ok? ==> outcome.value == body
  {
    body := [];
    var i := 0;
    while i < |chunks|
      invariant i <= |chunks|
      invariant !Fails(chunks[..i]) && body == Delivered(chunks[..i])
      invariant |body| <= MAX_HTTP_RESPONSE_BYTES
    {
      DeliveredSnoc(chunks, i);
      DeliveredPrefix(chunks, i + 1);
      if chunks[i].Failure? {
        return Err(Upstream), body;
      }
      var chunk := chunks[i].data;
      if |body| + |chunk| > MAX_HTTP_RESPONSE_BYTES {
        return Err(InvalidResponse), body;
      }
      body := body + chunk;
      i := i + 1;
    }
    assert chunks[..i] == chunks;
    outcome := Ok(body);
  }

  /** What the network makes of one GET. */
  datatype Exchange =
    | SendFailed(timedOut: bool)
    | Response(status: nat, contentLength: Option<nat>, chunks: seq<Chunk>)

  /** The outcome of a GET, with the body read in one piece. */
  function GetOutcome(exchange: Exchange, parse: seq<byte> -> Option<Json>): Result<Json, GatewayError> {
    match exchange
    case SendFailed(timedOut) => Err(if timedOut then Timeout else Upstream)
    case Response(status, contentLength, chunks) =>
      if !(200 <= status < 300) then Err(Upstream)
      else if TooLong(contentLength) then Err(InvalidResponse)
      else
        match Body(Delivered(chunks), Fails(chunks))
        case Err(error) => Err(error)
        case Ok(bytes) => if parse(bytes).Some? then Ok(parse(bytes).value) else Err(InvalidResponse)
  }

  /** `bounded_http_get` on a configured client; `parse` stands for the JSON parser.  It succeeds exactly when
      a success status brings an error-free body of at most 256 KiB that parses and is not announced longer; it
      otherwise fails as a timeout, an upstream or an invalid-response error.  Where the announced length is
      the true one, the early rejection changes nothing. */
  method BoundedGet(exchange: Exchange, parse: seq<byte> -> Option<Json>) returns (result: Result<Json, GatewayError>)
    ensures result == GetOutcome(exchange, parse)
    ensures forall json :: result == Ok(json)
              <==> && exchange.Response? && 200 <= exchange.status < 300 && !TooLong(exchange.contentLength)
                   && !Fails(exchange.chunks) && |Delivered(exchange.chunks)| <= 256 * 1024
                   && parse(Delivered(exchange.chunks)) == Some(json)
    ensures result.Err? ==> result.error in {Timeout, Upstream, InvalidResponse}
    ensures result == Err(Timeout) <==> exchange == SendFailed(true)
    ensures result == Err(Upstream)
       <==> match exchange
            case SendFailed(timedOut) => !timedOut
            case Response(status, contentLength, chunks) =>
              || status < 200 || 300 <= status
              || (!TooLong(contentLength) && |Delivered(chunks)| <= 256 * 1024 && Fails(chunks))
    ensures exchange.Response? && !Fails(exchange.chunks)
         && exchange.contentLength == Some(|Delivered(exchange.chunks)|)
        ==> result == GetOutcome(exchange.(contentLength := None), parse)
  {
    match exchange
    case SendFailed(timedOut) =>
      return Err(if timedOut then Timeout else Upstream);
    case Response(status, contentLength, chunks) =>
      if !(200 <= status < 300) {
        return Err(Upstream);
      }
      if TooLong(contentLength) {
        return Err(InvalidResponse);
      }
      var outcome, _ := ReadBody(chunks);
      match outcome
      case Err(error) => return Err(error);
      case Ok(bytes) =>
        var json := parse(bytes);
        return if json.Some? then Ok(json.value) else Err(InvalidResponse);
  }
}
