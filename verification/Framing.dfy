/** The packet format of network.c: preamble, code, payload length and payload, big-endian. */
module Framing {
  import opened Core

  const MAX_PAYLOAD_SIZE: nat := 64 * 1024
  const CHUNK_SIZE: nat := 8 * 1024
  const HDR_SIZE: nat := 7
  const PREAMBLE: nat := 0xABCD

  datatype Frame = Frame(code: byte, payload: seq<byte>)

  /** htons and htonl, laid out as the bytes memcpy copies. */
  function Net16(n: nat): seq<byte>
    requires n < 0x1_0000
  {
    [n / 0x100, n % 0x100]
  }

  function Net32(n: nat): seq<byte>
    requires n < 0x1_0000_0000
  {
    Net16(n / 0x1_0000) + Net16(n % 0x1_0000)
  }

  /** ntohs and ntohl. */
  function Host16(b: seq<byte>): (n: nat)
    requires |b| == 2
    ensures n < 0x1_0000
  {
    (b[0] as int) * 0x100 + b[1]
  }

  function Host32(b: seq<byte>): (n: nat)
    requires |b| == 4
    ensures n < 0x1_0000_0000
  {
    Host16(b[..2]) * 0x1_0000 + Host16(b[2..])
  }

  lemma ByteOrder16(n: nat, b: seq<byte>)
    ensures n < 0x1_0000 ==> Host16(Net16(n)) == n
    ensures |b| == 2 ==> Net16(Host16(b)) == b
  {
  }

  lemma ByteOrder(n: nat, b: seq<byte>)
    ensures n < 0x1_0000_0000 ==> Host32(Net32(n)) == n
    ensures |b| == 4 ==> Net32(Host32(b)) == b
  {
    if n < 0x1_0000_0000 {
      ByteOrder16(n / 0x1_0000, []);
      ByteOrder16(n % 0x1_0000, []);
      assert Net32(n)[..2] == Net16(n / 0x1_0000) && Net32(n)[2..] == Net16(n % 0x1_0000);
    }
    if |b| == 4 {
      ByteOrder16(0, b[..2]);
      ByteOrder16(0, b[2..]);
      assert b == b[..2] + b[2..];
    }
  }

  predicate Sendable(f: Frame) {
    |f.payload| <= MAX_PAYLOAD_SIZE
  }

  /** What build_packet lays out. */
  function Encode(f: Frame): (bytes: seq<byte>)
    requires Sendable(f)
    ensures |bytes| == HDR_SIZE + |f.payload|
  {
    Net16(PREAMBLE) + [f.code] + Net32(|f.payload|) + f.payload
  }

  /** What a receiver gets out of the bytes that are still to come. */
  datatype Parsed =
    | Got(frame: Frame, rest: seq<byte>)
    | Oversized(rest: seq<byte>)  // the payload does not fit the caller's buffer
    | Broken(rest: seq<byte>)     // not a packet

  /** recv_header followed by the payload, into a buffer of `cap` bytes. */
  function Decode(bytes: seq<byte>, cap: nat): Parsed {
    if |bytes| < 2 then Broken([])
    else if Host16(bytes[..2]) != PREAMBLE then Broken(bytes[2..])
    else if |bytes| < HDR_SIZE then Broken([])
    else
      var len := Host32(bytes[3..HDR_SIZE]);
      if len > MAX_PAYLOAD_SIZE then Broken(bytes[HDR_SIZE..])
      else if len > cap then Oversized(bytes[HDR_SIZE..])
      else if |bytes| < HDR_SIZE + len then Broken([])
      else Got(Frame(bytes[2], bytes[HDR_SIZE..HDR_SIZE + len]), bytes[HDR_SIZE + len..])
  }

  function EncodeAll(fs: seq<Frame>): seq<byte>
    requires forall f :: f in fs ==> Sendable(f)
  {
    if fs == [] then [] else Encode(fs[0]) + EncodeAll(fs[1..])
  }

  /** Receiving `n` packets one after another. */
  function DecodeMany(bytes: seq<byte>, n: nat): Option<(seq<Frame>, seq<byte>)> {
    if n == 0 then Some(([], bytes))
    else
      match Decode(bytes, MAX_PAYLOAD_SIZE)
      case Got(f, rest) =>
        (match DecodeMany(rest, n - 1)
         case Some((fs, end)) => Some(([f] + fs, end))
         case None => None)
      case _ => None
  }

  /** The number four bytes stand for, the most significant first. */
  function BigEndian(a: byte, b: byte, c: byte, d: byte): nat {
    ((a * 256 + b) * 256 + c) * 256 + d
  }

  /** The bytes of a packet, one by one: 0xAB 0xCD, the code, the length and the payload. */
  lemma Layout(f: Frame)
    requires Sendable(f)
    ensures var e := Encode(f);
      && |e| == 7 + |f.payload| && e[0] == 0xAB && e[1] == 0xCD && e[2] == f.code
      && BigEndian(e[3], e[4], e[5], e[6]) == |f.payload| && e[7..] == f.payload
  {
  }

  /**
    Exactly what a receiver with a buffer of `cap` bytes accepts, and what it leaves unread: all of a
    payload that does not fit, everything behind a wrong preamble or an impossible length, and
    nothing once the connection ends inside a packet.
  */
  lemma DecodedExactly(bytes: seq<byte>, cap: nat)
    ensures var p := Decode(bytes, cap);
      var marked := |bytes| >= 2 && bytes[0] == 0xAB && bytes[1] == 0xCD;
      var len := if |bytes| >= 7 then BigEndian(bytes[3], bytes[4], bytes[5], bytes[6]) else 0;
      && (p.Got? <==> marked && |bytes| >= 7 + len && len <= 65536 && len <= cap)
      && (p.Got? ==> p.frame == Frame(bytes[2], bytes[7..7 + len]) && p.rest == bytes[7 + len..])
      && (p.Oversized? <==> marked && |bytes| >= 7 && cap < len <= 65536)
      && (p.Oversized? ==> p.rest == bytes[7..])
      && (p.Broken? ==> p.rest == if |bytes| >= 2 && !marked then bytes[2..]
                                  else if |bytes| >= 7 && len > 65536 then bytes[7..] else [])
  {
  }

  lemma DecodeEncode(f: Frame, rest: seq<byte>, cap: nat)
    requires Sendable(f)
    ensures Decode(Encode(f) + rest, cap) ==
      if |f.payload| <= cap then Got(f, rest) else Oversized(f.payload + rest)
  {
    var bytes := Encode(f) + rest;
    assert bytes[..2] == Net16(PREAMBLE);
    assert bytes[2] == f.code;
    assert bytes[3..HDR_SIZE] == Net32(|f.payload|);
    ByteOrder(|f.payload|, []);
    assert bytes[HDR_SIZE..] == f.payload + rest;
    assert bytes[HDR_SIZE..HDR_SIZE + |f.payload|] == f.payload;
    assert bytes[HDR_SIZE + |f.payload|..] == rest;
  }

  /** Only an encoding is ever accepted. */
  lemma EncodeDecode(bytes: seq<byte>, cap: nat)
    requires Decode(bytes, cap).Got?
    ensures var p := Decode(bytes, cap);
      Sendable(p.frame) && |p.frame.payload| <= cap && bytes == Encode(p.frame) + p.rest
  {
    var p := Decode(bytes, cap);
    ByteOrder(0, bytes[3..HDR_SIZE]);
    assert bytes[..2] == [bytes[0], bytes[1]] == Net16(PREAMBLE);
    assert bytes ==
      bytes[..2] + [bytes[2]] + bytes[3..HDR_SIZE] + bytes[HDR_SIZE..HDR_SIZE + |p.frame.payload|] + p.rest;
  }

  /**
    Framing round trip: any sequence of packets decodes to itself and to nothing else, and
    exactly its bytes are consumed.
  */
  lemma {:induction false} RoundTrip(fs: seq<Frame>, rest: seq<byte>)
    requires forall f :: f in fs ==> Sendable(f)
    ensures DecodeMany(EncodeAll(fs) + rest, |fs|) == Some((fs, rest))
    decreases |fs|
  {
    if fs == [] {
      assert EncodeAll(fs) + rest == rest;
    } else {
      RoundTrip(fs[1..], rest);
      RoundTripMore(fs, rest);
    }
  }

  lemma RoundTripMore(fs: seq<Frame>, rest: seq<byte>)
    requires fs != [] && forall f :: f in fs ==> Sendable(f)
    requires DecodeMany(EncodeAll(fs[1..]) + rest, |fs| - 1) == Some((fs[1..], rest))
    ensures DecodeMany(EncodeAll(fs) + rest, |fs|) == Some((fs, rest))
  {
    hide Decode, Encode, EncodeAll, DecodeMany;
    var tail := EncodeAll(fs[1..]) + rest;
    FirstEncoded(fs, rest);
    DecodeEncode(fs[0], tail, MAX_PAYLOAD_SIZE);
    FirstDecoded(EncodeAll(fs) + rest, |fs|, fs[0], tail);
    assert [fs[0]] + fs[1..] == fs;
  }

  lemma FirstEncoded(fs: seq<Frame>, rest: seq<byte>)
    requires fs != [] && forall f :: f in fs ==> Sendable(f)
    ensures EncodeAll(fs) + rest == Encode(fs[0]) + (EncodeAll(fs[1..]) + rest)
  {
    hide Encode;
  }

  lemma FirstDecoded(bytes: seq<byte>, n: nat, f: Frame, rest: seq<byte>)
    requires n > 0 && Decode(bytes, MAX_PAYLOAD_SIZE) == Got(f, rest)
    ensures DecodeMany(rest, n - 1).Some? ==>
      DecodeMany(bytes, n) == Some(([f] + DecodeMany(rest, n - 1).value.0, DecodeMany(rest, n - 1).value.1))
  {
    hide Decode;
  }

  /** No packet sequence is a proper prefix of another reading: the encoding is uniquely decodable. */
  lemma {:induction false} UniquelyDecodable(fs: seq<Frame>, gs: seq<Frame>)
    requires (forall f :: f in fs ==> Sendable(f)) && (forall g :: g in gs ==> Sendable(g))
    ensures EncodeAll(fs) == EncodeAll(gs) <==> fs == gs
    decreases |fs|
  {
    if EncodeAll(fs) == EncodeAll(gs) && fs != [] && gs != [] {
      DecodeEncode(fs[0], EncodeAll(fs[1..]), MAX_PAYLOAD_SIZE);
      DecodeEncode(gs[0], EncodeAll(gs[1..]), MAX_PAYLOAD_SIZE);
      UniquelyDecodable(fs[1..], gs[1..]);
      assert fs == [fs[0]] + fs[1..] && gs == [gs[0]] + gs[1..];
    }
  }
}
