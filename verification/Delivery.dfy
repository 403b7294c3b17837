/** The frames of a connection as bytes: what the codec hands out and what it still holds. */
module Delivery {
  import opened Prelude
  import opened Peer
  import opened Machine
  import opened Framing
  import Lag

  /** The payloads of the frames a peer has sent; `bytes` stands for how a reply is written. */
  function Payloads(log: seq<Emission>, bytes: Frame -> seq<byte>): seq<seq<byte>> {
    seq(|log|, i requires 0 <= i < |log| => bytes(log[i].frame))
  }

  lemma PayloadsFit(log: seq<Emission>, cap: nat, bytes: Frame -> seq<byte>)
    requires forall f :: |bytes(f)| <= cap
    ensures forall f :: f in Payloads(log, bytes) ==> |f| <= cap
  {
    forall f | f in Payloads(log, bytes) ensures |f| <= cap {
      var k :| 0 <= k < |log| && Payloads(log, bytes)[k] == f;
      assert f == bytes(log[k].frame);
    }
  }

  /** However much of the peer's stream has arrived, and however it was cut, the codec has handed out the frames
      of the machine in their order, and holds the beginning of the next. */
  lemma FramesInOrder(log: seq<Emission>, cap: nat, bytes: Frame -> seq<byte>,
                      fragments: seq<seq<byte>>, rest: seq<byte>)
    requires cap < 0x1_0000_0000 && forall f :: |bytes(f)| <= cap
    requires Concat(fragments) + rest == EncodeAll(Payloads(log, bytes))
    ensures var (frames, last) := Feed(cap, FRESH, fragments);
            && |frames| <= |log| && (forall k :: 0 <= k < |frames| ==> frames[k] == bytes(log[k].frame))
            && last.Decoder? && EncodeAll(frames) + Leftover(last) == Concat(fragments)
  {
    PayloadsFit(log, cap, bytes);
    PrefixDecodes(cap, Payloads(log, bytes), fragments, rest);
  }

  /** A parked connection whose peer conforms has no partial frame in its buffer, and none on the way: once the
      frames that were read had arrived, everything the peer sent has arrived and was handed out. */
  lemma ParkedBufferEmpty(p: Setup, s: State, c: nat, cap: nat, bytes: Frame -> seq<byte>,
                          fragments: seq<seq<byte>>, rest: seq<byte>)
    requires Reachable(p, s) && s.slot == Some(c) && c < |s.conns| && Conforming(s.conns[c].sent, s.conns[c].log)
    requires cap < 0x1_0000_0000 && forall f :: |bytes(f)| <= cap
    requires Concat(fragments) + rest == EncodeAll(Payloads(s.conns[c].log, bytes))
    requires |Feed(cap, FRESH, fragments).0| >= s.conns[c].received
    ensures Feed(cap, FRESH, fragments) == (Payloads(s.conns[c].log, bytes), FRESH) && rest == []
  {
    Lag.ParkedQuiescent(p, s, c);
    PayloadsFit(s.conns[c].log, cap, bytes);
    AllDecoded(cap, Payloads(s.conns[c].log, bytes), fragments, rest);
  }
}
