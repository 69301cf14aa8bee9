/** Length-prefixed framing of cluster messages and the loop that reads frames off a stream.

    The message serializer is a parameter: `ser` writes a message body and `de` reads one back. */
module Framing {
  import opened Common

  const TWO32: nat := 0x1_0000_0000
  const MAX_BODY: nat := 64 * 1024 * 1024

  /** The low 32 bits of `n`, least significant byte first. */
  function LittleEndian(n: nat): (b: Bytes)
    ensures |b| == 4
  {
    var m := n % TWO32;
    [(m % 256) as byte, (m / 0x100 % 256) as byte, (m / 0x1_0000 % 256) as byte, (m / 0x100_0000 % 256) as byte]
  }

  function FromLittleEndian(b: Bytes): nat
    requires |b| == 4
  {
    b[0] as nat + 0x100 * (b[1] as nat) + 0x1_0000 * (b[2] as nat) + 0x100_0000 * (b[3] as nat)
  }

  lemma Digits(m: nat)
    ensures m == m % 256 + 256 * (m / 256) && m / 0x1_0000 == m / 256 / 256 && m / 0x100_0000 == m / 0x1_0000 / 256
  {
  }

  lemma LittleEndianRoundTrip(n: nat)
    ensures FromLittleEndian(LittleEndian(n)) == n % TWO32
  {
    var m := n % TWO32;
    Digits(m);
    Digits(m / 0x100);
    Digits(m / 0x1_0000);
    assert m / 0x100_0000 < 256;
  }

  function Encode<M>(ser: M -> Bytes, msg: M): Bytes {
    LittleEndian(|ser(msg)|) + ser(msg)
  }

  datatype FrameError = IncompleteHeader | IncompleteBody | Undecodable

  /** Decode the first frame of `data`, with the number of bytes it took. */
  function DecodeFrame<M>(de: Bytes -> Option<M>, data: Bytes): Result<(M, nat), FrameError> {
    if |data| < 4 then Err(IncompleteHeader) else
    var len := FromLittleEndian(data[..4]);
    if |data| < 4 + len then Err(IncompleteBody) else
    match de(data[4..4 + len])
    case None => Err(Undecodable)
    case Some(msg) => Ok((msg, 4 + len))
  }

  /** The messages the reader forwards from a stream that ends after `data`. */
  function Read<M>(de: Bytes -> Option<M>, data: Bytes): seq<M>
    decreases |data|
  {
    if |data| < 4 then [] else
    var len := FromLittleEndian(data[..4]);
    if len > MAX_BODY || |data| < 4 + len then [] else
    match DecodeFrame(de, data[..4 + len])
    case Err(_) => []
    case Ok((msg, _)) => [msg] + Read(de, data[4 + len..])
  }

  /** The stream loop: read a header, refuse oversized bodies, read the body, decode, forward. */
  method ReadFrames<M>(de: Bytes -> Option<M>, stream: Bytes) returns (inbox: seq<M>)
    ensures inbox == Read(de, stream)
  {
    hide FromLittleEndian;
    inbox := [];
    var pos := 0;
    while true
      invariant 0 <= pos <= |stream|
      invariant inbox + Read(de, stream[pos..]) == Read(de, stream)
      decreases |stream| - pos
    {
      if |stream| - pos < 4 { return; }
      var header := stream[pos..pos + 4];
      var len := FromLittleEndian(header);
      assert header == stream[pos..][..4];
      if len > MAX_BODY { return; }
      if |stream| - pos - 4 < len { return; }
      var body := stream[pos + 4..pos + 4 + len];
      assert header + body == stream[pos..][..4 + len];
      var decoded := DecodeFrame(de, header + body);
      if decoded.Err? { return; }
      assert stream[pos..][4 + len..] == stream[pos + 4 + len..];
      inbox := inbox + [decoded.value.0];
      pos := pos + 4 + len;
    }
  }

  /** The bytes a sender puts on the wire for a list of messages. */
  function Stream<M>(ser: M -> Bytes, msgs: seq<M>): Bytes {
    if msgs == [] then [] else Encode(ser, msgs[0]) + Stream(ser, msgs[1..])
  }

  /** How many leading messages have their whole frame within the first `cut` bytes and no body over the limit. */
  function Delivered<M>(ser: M -> Bytes, msgs: seq<M>, cut: nat): nat {
    if msgs == [] || |ser(msgs[0])| > MAX_BODY || cut < 4 + |ser(msgs[0])| then 0
    else 1 + Delivered(ser, msgs[1..], cut - 4 - |ser(msgs[0])|)
  }

  lemma {:induction false} DeliveredBound<M>(ser: M -> Bytes, msgs: seq<M>, cut: nat)
    ensures Delivered(ser, msgs, cut) <= |msgs|
    decreases |msgs|
  {
    if msgs != [] && |ser(msgs[0])| <= MAX_BODY && cut >= 4 + |ser(msgs[0])| {
      DeliveredBound(ser, msgs[1..], cut - 4 - |ser(msgs[0])|);
    }
  }

  /** The first frame of a stream, cut anywhere. */
  lemma FirstFrame<M>(ser: M -> Bytes, msgs: seq<M>, cut: nat)
    requires msgs != [] && |ser(msgs[0])| < TWO32 && 4 <= cut <= |Stream(ser, msgs)|
    ensures var body := ser(msgs[0]); var data := Stream(ser, msgs)[..cut];
            && FromLittleEndian(data[..4]) == |body|
            && (4 + |body| <= cut ==> data[4..4 + |body|] == body
                                      && data[4 + |body|..] == Stream(ser, msgs[1..])[..cut - 4 - |body|])
  {
    hide LittleEndian, FromLittleEndian;
    var body, tail := ser(msgs[0]), Stream(ser, msgs[1..]);
    var head := LittleEndian(|body|);
    var data := Stream(ser, msgs)[..cut];
    LittleEndianRoundTrip(|body|);
    assert Stream(ser, msgs) == head + body + tail;
    assert data[..4] == head;
    if 4 + |body| <= cut {
      assert data == head + body + tail[..cut - 4 - |body|];
    }
  }

  lemma FrameDecodes<M>(de: Bytes -> Option<M>, data: Bytes, body: Bytes, msg: M)
    requires 4 + |body| <= |data| && FromLittleEndian(data[..4]) == |body| && data[4..4 + |body|] == body
    requires de(body) == Some(msg)
    ensures DecodeFrame(de, data[..4 + |body|]) == Ok((msg, 4 + |body|))
  {
    hide FromLittleEndian;
    assert data[..4 + |body|][..4] == data[..4];
    assert data[..4 + |body|][4..4 + |body|] == body;
  }

  /** Reading a stream cut at any byte yields exactly the messages whose frames are complete, up to the
      first body over the limit. */
  lemma {:induction false} ReadCut<M(!new)>(ser: M -> Bytes, de: Bytes -> Option<M>, msgs: seq<M>, cut: nat)
    requires forall m :: de(ser(m)) == Some(m)
    requires forall m :: m in msgs ==> |ser(m)| < TWO32
    requires cut <= |Stream(ser, msgs)|
    ensures Delivered(ser, msgs, cut) <= |msgs|
    ensures Read(de, Stream(ser, msgs)[..cut]) == msgs[..Delivered(ser, msgs, cut)]
    decreases |msgs|
  {
    hide FromLittleEndian;
    DeliveredBound(ser, msgs, cut);
    var data := Stream(ser, msgs)[..cut];
    if msgs != [] && cut >= 4 {
      var body := ser(msgs[0]);
      FirstFrame(ser, msgs, cut);
      if |body| <= MAX_BODY && 4 + |body| <= cut {
        var rest := cut - 4 - |body|;
        ReadCut(ser, de, msgs[1..], rest);
        FrameDecodes(de, data, body, msgs[0]);
        assert msgs[..Delivered(ser, msgs, cut)] == [msgs[0]] + msgs[1..][..Delivered(ser, msgs[1..], rest)];
      }
    }
  }

  lemma {:induction false} AllDelivered<M>(ser: M -> Bytes, msgs: seq<M>)
    ensures Delivered(ser, msgs, |Stream(ser, msgs)|) == |msgs| <==> forall m :: m in msgs ==> |ser(m)| <= MAX_BODY
    decreases |msgs|
  {
    hide LittleEndian;
    if msgs != [] {
      AllDelivered(ser, msgs[1..]);
      DeliveredBound(ser, msgs[1..], |Stream(ser, msgs[1..])|);
      assert |Stream(ser, msgs)| == 4 + |ser(msgs[0])| + |Stream(ser, msgs[1..])|;
      assert forall m :: m in msgs <==> m == msgs[0] || m in msgs[1..];
    }
  }

  /** A whole stream reads back as the messages written to it if and only if no body exceeds 64 MiB. */
  lemma StreamRoundTrip<M(!new)>(ser: M -> Bytes, de: Bytes -> Option<M>, msgs: seq<M>)
    requires forall m :: de(ser(m)) == Some(m)
    requires forall m :: m in msgs ==> |ser(m)| < TWO32
    ensures Read(de, Stream(ser, msgs)) == msgs <==> forall m :: m in msgs ==> |ser(m)| <= MAX_BODY
  {
    var all := |Stream(ser, msgs)|;
    ReadCut(ser, de, msgs, all);
    assert Stream(ser, msgs)[..all] == Stream(ser, msgs);
    AllDelivered(ser, msgs);
    DeliveredBound(ser, msgs, all);
    if Delivered(ser, msgs, all) == |msgs| {
      assert msgs[..|msgs|] == msgs;
    }
  }
}
