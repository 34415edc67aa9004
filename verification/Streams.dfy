/** The chunked streams of transfer.c: what travels between two commands. */
module Streams {
  import opened Core
  import opened Framing

  // network.h: commands of the client and answers of the server
  const CMD_LOGIN: byte := 1
  const CMD_CREATE_USER: byte := 2
  const CMD_LIST: byte := 3
  const CMD_CD: byte := 4
  const CMD_CREATE: byte := 5
  const CMD_CHMOD: byte := 6
  const CMD_MOVE: byte := 7
  const CMD_DELETE: byte := 8
  const CMD_READ: byte := 9
  const CMD_WRITE: byte := 10
  const CMD_UPLOAD_BEGIN: byte := 11
  const CMD_DOWNLOAD_BEGIN: byte := 12
  const CMD_DATA: byte := 13
  const CMD_DATA_END: byte := 14
  const CMD_TRANSFER_REQ: byte := 15
  const CMD_ACCEPT: byte := 16
  const CMD_REJECT: byte := 17
  const CMD_EXIT: byte := 18
  const CMD_READ_DATA: byte := 19
  const CMD_READ_END: byte := 20
  const CMD_WRITE_DATA: byte := 21
  const CMD_WRITE_END: byte := 22
  const CMD_LIST_DATA: byte := 23
  const CMD_LIST_END: byte := 24
  const RSP_OK: byte := 100
  const RSP_ERR: byte := 101
  const RSP_NOTIFY: byte := 104

  function Payloads(fs: seq<Frame>): seq<byte> {
    if fs == [] then [] else fs[0].payload + Payloads(fs[1..])
  }

  /** The frames bring `data` in pieces a receiver's buffer can hold. */
  ghost predicate Carries(fs: seq<Frame>, data: seq<byte>, code: byte) {
    && (forall f :: f in fs ==> f.code == code && |f.payload| <= CHUNK_SIZE)
    && Payloads(fs) == data
  }

  lemma {:induction false} PayloadsAppend(fs: seq<Frame>, f: Frame)
    ensures Payloads(fs + [f]) == Payloads(fs) + f.payload
  {
    if fs == [] {
      assert [f][1..] == [];
    } else {
      assert (fs + [f])[1..] == fs[1..] + [f];
      PayloadsAppend(fs[1..], f);
    }
  }

  lemma CarriesMore(fs: seq<Frame>, data: seq<byte>, code: byte, piece: seq<byte>)
    requires Carries(fs, data, code) && |piece| <= CHUNK_SIZE
    ensures Carries(fs + [Frame(code, piece)], data + piece, code)
  {
    PayloadsAppend(fs, Frame(code, piece));
  }

  lemma {:induction false} EncodeAllAppend(fs: seq<Frame>, f: Frame)
    requires (forall g :: g in fs ==> Sendable(g)) && Sendable(f)
    ensures EncodeAll(fs + [f]) == EncodeAll(fs) + Encode(f)
  {
    if fs == [] {
      assert [f][1..] == [];
    } else {
      assert (fs + [f])[1..] == fs[1..] + [f];
      EncodeAllAppend(fs[1..], f);
      assert Encode(fs[0]) + (EncodeAll(fs[1..]) + Encode(f)) == Encode(fs[0]) + EncodeAll(fs[1..]) + Encode(f);
    }
  }

  /** How a stream ends for its receiver. */
  datatype Ending = Complete | PeerFailed | Unexpected | Lost(errno: Errno)

  datatype Scan = Scan(data: seq<byte>, ending: Ending, rest: seq<byte>)

  lemma DecodeShrinks(bytes: seq<byte>, cap: nat)
    ensures Decode(bytes, cap).Got? ==> |Decode(bytes, cap).rest| < |bytes|
  {
  }

  /** The stream at the head of the bytes to come, as recv_stream reads it. */
  function ScanStream(bytes: seq<byte>, dataCode: byte, endCode: byte): Scan
    decreases |bytes|
  {
    DecodeShrinks(bytes, CHUNK_SIZE);
    match Decode(bytes, CHUNK_SIZE)
    case Broken(rest) => Scan([], Lost(EPROTO), rest)
    case Oversized(rest) => Scan([], Lost(EIO), rest)
    case Got(f, rest) =>
      if f.code == endCode then Scan([], Complete, rest)
      else if f.code == RSP_ERR then Scan([], PeerFailed, rest)
      else if f.code != dataCode then Scan([], Unexpected, rest)
      else
        var later := ScanStream(rest, dataCode, endCode);
        Scan(f.payload + later.data, later.ending, later.rest)
  }

  /**
    Stream round trip: whatever the sender's reads cut the data into, the receiver gets
    exactly that data and stops right behind the end frame; an error frame in its place
    ends the stream there.
  */
  lemma {:induction false} StreamRoundTrip(fs: seq<Frame>, data: seq<byte>, dataCode: byte, last: Frame,
                                           endCode: byte, rest: seq<byte>)
    requires Carries(fs, data, dataCode) && dataCode != endCode && dataCode != RSP_ERR && endCode != RSP_ERR
    requires last == Frame(endCode, []) || last == Frame(RSP_ERR, [])
    ensures forall f :: f in fs ==> Sendable(f)
    ensures ScanStream(EncodeAll(fs) + Encode(last) + rest, dataCode, endCode)
      == Scan(data, if last.code == endCode then Complete else PeerFailed, rest)
    decreases |fs|
  {
    if fs == [] {
      assert EncodeAll(fs) + Encode(last) + rest == Encode(last) + rest;
      DecodeEncode(last, rest, CHUNK_SIZE);
    } else {
      var tail := EncodeAll(fs[1..]) + Encode(last) + rest;
      assert EncodeAll(fs) + Encode(last) + rest == Encode(fs[0]) + tail;
      DecodeEncode(fs[0], tail, CHUNK_SIZE);
      StreamRoundTrip(fs[1..], Payloads(fs[1..]), dataCode, last, endCode, rest);
    }
  }
}
