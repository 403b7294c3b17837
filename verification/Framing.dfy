/** Length-delimited framing: a four-byte big-endian length, then the payload (`length_codec`). */
module Framing {
  import opened Prelude

  function Concat<T>(parts: seq<seq<T>>): seq<T> {
    if parts == [] then [] else parts[0] + Concat(parts[1..])
  }

  lemma {:induction false} ConcatSnoc<T>(parts: seq<seq<T>>, part: seq<T>)
    ensures Concat(parts + [part]) == Concat(parts) + part
  {
    if parts == [] {
      assert Concat([part]) == part + Concat([]);
    } else {
      ConcatSnoc(parts[1..], part);
      assert (parts + [part])[1..] == parts[1..] + [part];
    }
  }

  /** The low 32 bits of `n`, most significant byte first. */
  function BigEndian(n: nat): (s: seq<byte>)
    ensures |s| == 4
  {
    var high := n / 256;
    [high / 256 / 256 % 256, high / 256 % 256, high % 256, n % 256]
  }

  function FromBigEndian(s: seq<byte>): nat
    requires |s| == 4
  {
    var a: int, b: int, c: int, d: int := s[0], s[1], s[2], s[3];
    ((a * 256 + b) * 256 + c) * 256 + d
  }

  lemma BigEndianRoundTrip(n: nat)
    requires n < 0x1_0000_0000
    ensures FromBigEndian(BigEndian(n)) == n
  {
  }

  lemma FromBigEndianRoundTrip(s: seq<byte>)
    requires |s| == 4
    ensures FromBigEndian(s) < 0x1_0000_0000 && BigEndian(FromBigEndian(s)) == s
  {
    var a: int, b: int, c: int, d: int := s[0], s[1], s[2], s[3];
    var n := FromBigEndian(s);
    assert n / 256 == (a * 256 + b) * 256 + c && n % 256 == d;
    assert n / 256 / 256 == a * 256 + b && n / 256 % 256 == c;
  }

  function Encode(payload: seq<byte>): seq<byte> {
    BigEndian(|payload|) + payload
  }

  function EncodeAll(payloads: seq<seq<byte>>): seq<byte> {
    if payloads == [] then [] else Encode(payloads[0]) + EncodeAll(payloads[1..])
  }

  /** The decoder between reads: whether a header announced `pending` bytes, and the bytes not used yet.
      `Broken` is the state after a length above the cap. */
  datatype Decoder = Decoder(pending: Option<nat>, buffer: seq<byte>) | Broken

  const FRESH := Decoder(None, [])

  datatype Step = Starved(d: Decoder) | Yielded(frame: seq<byte>, d: Decoder) | Rejected

  /** One call of the codec's `decode`: read a header if none is pending, then a payload if it is complete. */
  function Decode(cap: nat, d: Decoder): Step {
    match d
    case Broken => Rejected
    case Decoder(Some(n), buffer) => DecodeData(n, buffer)
    case Decoder(None, buffer) =>
      if |buffer| < 4 then Starved(d)
      else
        var n := FromBigEndian(buffer[..4]);
        if n > cap then Rejected else DecodeData(n, buffer[4..])
  }

  function DecodeData(n: nat, buffer: seq<byte>): Step {
    if |buffer| < n then Starved(Decoder(Some(n), buffer))
    else Yielded(buffer[..n], Decoder(None, buffer[n..]))
  }

  function Size(d: Decoder): nat {
    match d
    case Broken => 0
    case Decoder(pending, buffer) => |buffer| + if pending.Some? then 1 else 0
  }

  /** Every frame the buffered bytes complete, and the decoder that is left. */
  function Drain(cap: nat, d: Decoder): (seq<seq<byte>>, Decoder)
    decreases Size(d)
  {
    match Decode(cap, d)
    case Rejected => ([], Broken)
    case Starved(d') => ([], d')
    case Yielded(frame, d') =>
      var (frames, last) := Drain(cap, d');
      ([frame] + frames, last)
  }

  function Append(d: Decoder, bytes: seq<byte>): Decoder {
    match d
    case Broken => Broken
    case Decoder(pending, buffer) => Decoder(pending, buffer + bytes)
  }

  /** The fragments arrive one by one; after each, the reader takes what is complete. */
  function Feed(cap: nat, d: Decoder, fragments: seq<seq<byte>>): (seq<seq<byte>>, Decoder)
    decreases |fragments|
  {
    if fragments == [] then ([], d)
    else
      var (frames, d') := Drain(cap, Append(d, fragments[0]));
      var (more, last) := Feed(cap, d', fragments[1..]);
      (frames + more, last)
  }

  // ---------------------------------------------------------------- fragmentation does not matter

  /** Bytes that come later extend what was left over; they change nothing decoded before. */
  lemma {:induction false} DrainAppend(cap: nat, d: Decoder, bytes: seq<byte>)
    ensures var (frames, d') := Drain(cap, d);
            var (more, last) := Drain(cap, Append(d', bytes));
            Drain(cap, Append(d, bytes)) == (frames + more, last)
    decreases Size(d)
  {
    var none: seq<seq<byte>> := [];
    match Decode(cap, d)
    case Rejected =>
      assert d.Broken? || (d.pending.None? && (d.buffer + bytes)[..4] == d.buffer[..4]);
      assert Decode(cap, Append(d, bytes)) == Rejected && none + none == none;
      assert Drain(cap, Append(d, bytes)) == (none, Broken);
    case Starved(d') =>
      StarvedAppend(cap, d, d', bytes);
      assert none + Drain(cap, Append(d', bytes)).0 == Drain(cap, Append(d', bytes)).0;
    case Yielded(frame, d') =>
      YieldedAppend(cap, d, frame, d', bytes);
      DrainAppend(cap, d', bytes);
      var (frames, left) := Drain(cap, d');
      var (more, last) := Drain(cap, Append(left, bytes));
      assert [frame] + (frames + more) == ([frame] + frames) + more;
  }

  lemma StarvedAppend(cap: nat, d: Decoder, d': Decoder, bytes: seq<byte>)
    requires Decode(cap, d) == Starved(d')
    ensures Drain(cap, Append(d, bytes)) == Drain(cap, Append(d', bytes))
  {
    if d != d' {
      assert (d.buffer + bytes)[..4] == d.buffer[..4] && (d.buffer + bytes)[4..] == d.buffer[4..] + bytes;
      assert Decode(cap, Append(d, bytes)) == Decode(cap, Append(d', bytes));
    }
  }

  lemma YieldedAppend(cap: nat, d: Decoder, frame: seq<byte>, d': Decoder, bytes: seq<byte>)
    requires Decode(cap, d) == Yielded(frame, d')
    ensures Decode(cap, Append(d, bytes)) == Yielded(frame, Append(d', bytes))
  {
    var all := d.buffer + bytes;
    if d.pending.None? {
      assert all[..4] == d.buffer[..4] && all[4..] == d.buffer[4..] + bytes;
      assert all[4..][..|frame|] == frame && all[4..][|frame|..] == d.buffer[4..][|frame|..] + bytes;
    } else {
      assert all[..|frame|] == frame && all[|frame|..] == d.buffer[|frame|..] + bytes;
    }
  }

  /** A decoder with nothing left to take. */
  predicate Settled(cap: nat, d: Decoder) {
    Drain(cap, d) == ([], d)
  }

  lemma {:induction false} DrainSettles(cap: nat, d: Decoder)
    ensures Settled(cap, Drain(cap, d).1)
    decreases Size(d)
  {
    match Decode(cap, d)
    case Rejected =>
    case Starved(_) =>
    case Yielded(_, d') => DrainSettles(cap, d');
  }

  lemma {:induction false} FeedWhole(cap: nat, d: Decoder, fragments: seq<seq<byte>>)
    requires Settled(cap, d)
    ensures Feed(cap, d, fragments) == Drain(cap, Append(d, Concat(fragments)))
    decreases |fragments|
  {
    if fragments == [] {
      assert d.Decoder? ==> d.buffer + [] == d.buffer;
    } else {
      var first := Append(d, fragments[0]);
      var (frames, d') := Drain(cap, first);
      DrainSettles(cap, first);
      FeedWhole(cap, d', fragments[1..]);
      DrainAppend(cap, first, Concat(fragments[1..]));
      assert d.Decoder? ==> (d.buffer + fragments[0]) + Concat(fragments[1..]) == d.buffer + Concat(fragments);
    }
  }

  // ---------------------------------------------------------------- round trips

  lemma {:induction false} DrainEncoded(cap: nat, payloads: seq<seq<byte>>)
    requires cap < 0x1_0000_0000
    requires forall f :: f in payloads ==> |f| <= cap
    ensures Drain(cap, Decoder(None, EncodeAll(payloads))) == (payloads, FRESH)
  {
    if payloads != [] {
      var f, rest := payloads[0], EncodeAll(payloads[1..]);
      var bytes := EncodeAll(payloads);
      BigEndianRoundTrip(|f|);
      assert bytes[..4] == BigEndian(|f|) && bytes[4..] == f + rest;
      assert Decode(cap, Decoder(None, bytes)) == Yielded(f, Decoder(None, rest));
      DrainEncoded(cap, payloads[1..]);
      assert [f] + payloads[1..] == payloads;
    }
  }

  /** The round trip: payloads within the cap, framed and cut into fragments anywhere, come out as they went
      in, and nothing stays behind. */
  lemma RoundTrip(cap: nat, payloads: seq<seq<byte>>, fragments: seq<seq<byte>>)
    requires cap < 0x1_0000_0000
    requires forall f :: f in payloads ==> |f| <= cap
    requires Concat(fragments) == EncodeAll(payloads)
    ensures Feed(cap, FRESH, fragments) == (payloads, FRESH)
  {
    FeedWhole(cap, FRESH, fragments);
    DrainEncoded(cap, payloads);
    assert [] + Concat(fragments) == EncodeAll(payloads);
  }

  /** On the wire the length comes first, in four bytes, most significant byte first: this is the one header that
      delivers this payload. */
  lemma HeaderExact(cap: nat, header: seq<byte>, payload: seq<byte>)
    requires cap < 0x1_0000_0000 && |payload| <= cap && |header| == 4
    ensures var a: int, b: int, c: int, d: int := header[0], header[1], header[2], header[3];
            var announced := 0x100_0000 * a + 0x1_0000 * b + 0x100 * c + d;
            && (Feed(cap, FRESH, [header + payload]) == ([payload], FRESH) <==> announced == |payload|)
            && (EncodeAll([payload]) == header + payload <==> announced == |payload|)
  {
    var d := Decoder(None, header + payload);
    WholeFed(cap, header + payload);
    FromBigEndianRoundTrip(header);
    BigEndianRoundTrip(|payload|);
    assert (header + payload)[..4] == header && (header + payload)[4..] == payload;
    assert EncodeAll([payload]) == BigEndian(|payload|) + payload + [];
    assert EncodeAll([payload])[..4] == BigEndian(|payload|);
    var n := FromBigEndian(header);
    if n == |payload| {
      assert Decode(cap, d) == Yielded(payload, FRESH);
      assert Drain(cap, FRESH) == ([], FRESH) && [payload] + [] == [payload];
    } else if n < |payload| {
      assert Decode(cap, d) == Yielded(payload[..n], Decoder(None, payload[n..]));
      assert Drain(cap, d).0[0] == payload[..n];
    }
  }

  lemma WholeFed(cap: nat, bytes: seq<byte>)
    ensures Feed(cap, FRESH, [bytes]) == Drain(cap, Decoder(None, bytes))
  {
    FeedWhole(cap, FRESH, [bytes]);
    assert Concat([bytes]) == bytes + [] == bytes && [] + bytes == bytes;
  }

  /** A header that announces more than the cap breaks the decoder there: the frames before it are delivered,
      nothing after it is. */
  lemma OversizedRejected(cap: nat, payloads: seq<seq<byte>>, n: nat, rest: seq<byte>, fragments: seq<seq<byte>>)
    requires cap < n < 0x1_0000_0000
    requires forall f :: f in payloads ==> |f| <= cap
    requires Concat(fragments) == EncodeAll(payloads) + (BigEndian(n) + rest)
    ensures Feed(cap, FRESH, fragments) == (payloads, Broken)
  {
    var tail := BigEndian(n) + rest;
    FeedWhole(cap, FRESH, fragments);
    DrainEncoded(cap, payloads);
    DrainAppend(cap, Decoder(None, EncodeAll(payloads)), tail);
    BigEndianRoundTrip(n);
    assert tail[..4] == BigEndian(n) && [] + tail == tail && [] + Concat(fragments) == Concat(fragments);
    assert Decode(cap, Append(FRESH, tail)) == Rejected;
    assert payloads + [] == payloads;
  }

  /** The bytes a decoder has taken in but not handed out. */
  function Leftover(d: Decoder): seq<byte>
    requires d.Decoder?
  {
    (if d.pending.Some? then BigEndian(d.pending.value) else []) + d.buffer
  }

  ghost predicate Sound(cap: nat, d: Decoder) {
    d.Decoder? ==> d.pending.Some? ==> d.pending.value <= cap
  }

  /** One call of `decode` loses no byte and yields no frame above the cap. */
  lemma DecodeLossless(cap: nat, d: Decoder)
    requires cap < 0x1_0000_0000 && Sound(cap, d) && d.Decoder?
    ensures match Decode(cap, d)
            case Rejected => true
            case Starved(d') => d'.Decoder? && Sound(cap, d') && Leftover(d') == Leftover(d)
            case Yielded(frame, d') =>
              |frame| <= cap && d'.Decoder? && d'.pending.None? && Encode(frame) + d'.buffer == Leftover(d)
  {
    if d.pending.None? && |d.buffer| >= 4 {
      FromBigEndianRoundTrip(d.buffer[..4]);
      assert d.buffer == d.buffer[..4] + d.buffer[4..];
    }
  }

  lemma {:induction false} DrainLossless(cap: nat, d: Decoder)
    requires cap < 0x1_0000_0000 && Sound(cap, d) && d.Decoder?
    ensures Sound(cap, Drain(cap, d).1)
    ensures Drain(cap, d).1.Decoder? ==> EncodeAll(Drain(cap, d).0) + Leftover(Drain(cap, d).1) == Leftover(d)
    decreases Size(d)
  {
    DecodeLossless(cap, d);
    match Decode(cap, d)
    case Rejected =>
    case Starved(d') =>
      assert Drain(cap, d) == ([], d');
      EncodeNone(Leftover(d'));
    case Yielded(frame, d') =>
      DrainLossless(cap, d');
      var (frames, last) := Drain(cap, d');
      assert Drain(cap, d) == ([frame] + frames, last);
      if last.Decoder? {
        EncodeFirst(frame, frames, Leftover(last));
        assert EncodeAll(frames) + Leftover(last) == d'.buffer by { NonePending(d'); }
      }
  }

  lemma EncodeNone(rest: seq<byte>)
    ensures EncodeAll([]) + rest == rest
  {
  }

  lemma NonePending(d: Decoder)
    requires d.Decoder? && d.pending.None?
    ensures Leftover(d) == d.buffer
  {
  }

  lemma EncodeFirst(frame: seq<byte>, frames: seq<seq<byte>>, rest: seq<byte>)
    ensures EncodeAll([frame] + frames) + rest == Encode(frame) + (EncodeAll(frames) + rest)
  {
    var all := [frame] + frames;
    assert all[0] == frame && all[1..] == frames;
    assert EncodeAll(all) == Encode(frame) + EncodeAll(frames);
  }

  lemma {:induction false} DrainBounded(cap: nat, d: Decoder)
    requires cap < 0x1_0000_0000 && Sound(cap, d)
    ensures forall f :: f in Drain(cap, d).0 ==> |f| <= cap
    decreases Size(d)
  {
    match Decode(cap, d)
    case Rejected =>
    case Starved(_) =>
    case Yielded(frame, d') =>
      DecodeLossless(cap, d);
      DrainBounded(cap, d');
  }

  /** Whatever bytes arrive: no frame is above the cap, and as long as no length was rejected, framing the
      decoded frames again and adding what is left over gives back the bytes. */
  lemma Lossless(cap: nat, fragments: seq<seq<byte>>)
    requires cap < 0x1_0000_0000
    ensures var (frames, last) := Feed(cap, FRESH, fragments);
            && (forall f :: f in frames ==> |f| <= cap)
            && Sound(cap, last)
            && (last.Decoder? ==> EncodeAll(frames) + Leftover(last) == Concat(fragments))
  {
    FeedWhole(cap, FRESH, fragments);
    var d := Append(FRESH, Concat(fragments));
    DrainLossless(cap, d);
    DrainBounded(cap, d);
    assert Leftover(d) == Concat(fragments);
  }

  /** A reader that has seen only the beginning of a stream has decoded the first payloads, and holds the rest of
      what it has seen. */
  lemma PrefixDecodes(cap: nat, payloads: seq<seq<byte>>, fragments: seq<seq<byte>>, rest: seq<byte>)
    requires cap < 0x1_0000_0000
    requires forall f :: f in payloads ==> |f| <= cap
    requires Concat(fragments) + rest == EncodeAll(payloads)
    ensures var (frames, last) := Feed(cap, FRESH, fragments);
            && frames <= payloads && last.Decoder?
            && EncodeAll(frames) + Leftover(last) == Concat(fragments)
  {
    var seen := Concat(fragments);
    FeedWhole(cap, FRESH, fragments);
    assert [] + seen == seen && Append(FRESH, seen) == Decoder(None, seen);
    DrainAppend(cap, Decoder(None, seen), rest);
    DrainEncoded(cap, payloads);
    assert Append(Decoder(None, seen), rest) == Decoder(None, EncodeAll(payloads));
    Lossless(cap, fragments);
  }

  /** And once it has decoded as many payloads as there are, it has seen everything and holds nothing. */
  lemma AllDecoded(cap: nat, payloads: seq<seq<byte>>, fragments: seq<seq<byte>>, rest: seq<byte>)
    requires cap < 0x1_0000_0000
    requires forall f :: f in payloads ==> |f| <= cap
    requires Concat(fragments) + rest == EncodeAll(payloads)
    requires |Feed(cap, FRESH, fragments).0| >= |payloads|
    ensures Feed(cap, FRESH, fragments) == (payloads, FRESH) && rest == []
  {
    var (frames, last) := Feed(cap, FRESH, fragments);
    PrefixDecodes(cap, payloads, fragments, rest);
    assert frames == payloads;
    assert |EncodeAll(payloads)| == |EncodeAll(payloads)| + |Leftover(last)| + |rest|;
    LeftoverLength(last);
  }

  lemma LeftoverLength(d: Decoder)
    requires d.Decoder?
    ensures |Leftover(d)| == |d.buffer| + if d.pending.Some? then 4 else 0
  {
  }
}
