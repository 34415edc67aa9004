/**
  The steps of the conversation are the loops over its bytes: what recv_stream consumes and
  send_file sends, frame by frame, is what the state machine does head by head.
*/
module ConversationBytes {
  import opened Core
  import opened Framing
  import opened Streams
  import opened Conversation

  function Codes(fs: seq<Frame>): seq<byte> {
    seq(|fs|, i requires 0 <= i < |fs| => fs[i].code)
  }

  function Owns(fs: seq<Frame>): seq<Packet> {
    seq(|fs|, i requires 0 <= i < |fs| => Own(fs[i].code))
  }

  function Times(n: nat, a: Action): seq<Action> {
    seq(n, _ => a)
  }

  lemma {:induction false} RunFront(s: State, a: Action, acts: seq<Action>)
    ensures Run(s, [a] + acts) == Run(Step(s, a), acts)
  {
    var n := |acts|;
    if n == 0 {
      assert [a] + acts == [a] && [a][..0] == [];
    } else {
      assert ([a] + acts)[..n] == [a] + acts[..n - 1] && ([a] + acts)[n] == acts[n - 1];
      RunFront(s, a, acts[..n - 1]);
    }
  }

  lemma RunAppend(s: State, a: seq<Action>, last: Action)
    ensures Run(s, a + [last]) == Step(Run(s, a), last)
  {
    assert (a + [last])[..|a|] == a;
  }

  /** A stream on its way: `k` data frames, then one that ends it, then whatever else. */
  ghost predicate EndsAt(fs: seq<Frame>, k: nat, c: byte) {
    && k < |fs|
    && (forall f :: f in fs ==> Sendable(f) && |f.payload| <= CHUNK_SIZE)
    && (forall i :: 0 <= i < k ==> fs[i].code == DataCode(c))
    && fs[k].code != DataCode(c)
  }

  lemma OneLater(fs: seq<Frame>, k: nat, c: byte)
    requires EndsAt(fs, k, c) && k > 0
    ensures EndsAt(fs[1..], k - 1, c) && fs[1..][k..] == fs[k + 1..]
    ensures Codes(fs) == [DataCode(c)] + Codes(fs[1..]) && Owns(fs) == [Own(DataCode(c))] + Owns(fs[1..])
  {
  }

  /** recv_stream reads one frame. */
  lemma ScanOne(f: Frame, later: seq<byte>, c: byte)
    requires Sendable(f) && |f.payload| <= CHUNK_SIZE
    ensures var scan, rest := ScanStream(Encode(f) + later, DataCode(c), EndCode(c)),
      ScanStream(later, DataCode(c), EndCode(c));
      if f.code == DataCode(c) then scan == Scan(f.payload + rest.data, rest.ending, rest.rest)
      else scan.data == [] && scan.rest == later && (scan.ending.Complete? <==> f.code == EndCode(c))
  {
    DecodeEncode(f, later, CHUNK_SIZE);
  }

  /** What recv_stream makes of the bytes: the data of some frames, and it stops right behind the one that ends them. */
  lemma {:induction false} ScanStops(fs: seq<Frame>, k: nat, c: byte, tail: seq<byte>)
    requires EndsAt(fs, k, c)
    ensures var scan := ScanStream(EncodeAll(fs) + tail, DataCode(c), EndCode(c));
      && scan.data == Payloads(fs[..k]) && scan.rest == EncodeAll(fs[k + 1..]) + tail
      && (scan.ending.Complete? <==> fs[k].code == EndCode(c))
    decreases k
  {
    var later := EncodeAll(fs[1..]) + tail;
    assert EncodeAll(fs) + tail == Encode(fs[0]) + later;
    ScanOne(fs[0], later, c);
    if k > 0 {
      OneLater(fs, k, c);
      ScanStops(fs[1..], k - 1, c, tail);
      assert fs[..k][1..] == fs[1..][..k - 1];
    } else {
      assert fs[..0] == [];
    }
  }

  /** The receiving steps of the server up to the frame that ends the stream. */
  lemma {:induction false} ServerDrains(s: State, c: byte, fs: seq<Frame>, k: nat)
    requires EndsAt(fs, k, c) && s.server.Receiving? && s.server.cmd == c && s.up == Codes(fs)
    ensures Run(s, Times(k + 1, ServerReceives))
      == s.(up := Codes(fs[k + 1..]), server := Reporting(c, fs[k].code != EndCode(c)))
    decreases k
  {
    assert Times(k + 1, ServerReceives) == [ServerReceives] + Times(k, ServerReceives);
    RunFront(s, ServerReceives, Times(k, ServerReceives));
    assert Codes(fs)[1..] == Codes(fs[1..]) && Codes(fs)[0] == fs[0].code;
    if k > 0 {
      OneLater(fs, k, c);
      var s' := s.(up := Codes(fs[1..]), server := Receiving(c, true));
      assert Step(s, ServerReceives) == s';
      ServerDrains(s', c, fs[1..], k - 1);
    }
  }

  /** The receiving steps of a client that fetches. */
  lemma {:induction false} ClientDrains(s: State, c: byte, fs: seq<Frame>, k: nat)
    requires EndsAt(fs, k, c) && s.client == Fetching(c) && s.down == Owns(fs)
    ensures Run(s, Times(k + 1, ClientReceives)) == s.(down := Owns(fs[k + 1..]), client := Idle)
    decreases k
  {
    assert Times(k + 1, ClientReceives) == [ClientReceives] + Times(k, ClientReceives);
    RunFront(s, ClientReceives, Times(k, ClientReceives));
    assert Owns(fs)[1..] == Owns(fs[1..]) && Owns(fs)[0] == Own(fs[0].code);
    if k > 0 {
      OneLater(fs, k, c);
      var s' := s.(down := Owns(fs[1..]));
      assert Step(s, ClientReceives) == s';
      ClientDrains(s', c, fs[1..], k - 1);
    }
  }

  /**
    The server's recv_stream and its report: as many receiving steps as the stream has frames
    consume exactly the packets whose bytes the scan consumes, and the answer that follows is RSP_OK
    exactly when the scan is complete and nothing failed locally, and RSP_ERR otherwise.
    That RecvStream consumes what is scanned even when the disk fails is part of its contract.
  */
  lemma ReceivingIsScanning(s: State, c: byte, fs: seq<Frame>, k: nat, tail: seq<byte>, ok: bool)
    requires EndsAt(fs, k, c) && s.server.Receiving? && s.server.cmd == c && s.up == Codes(fs)
    ensures var scan := ScanStream(EncodeAll(fs) + tail, DataCode(c), EndCode(c));
      && scan.rest == EncodeAll(fs[k + 1..]) + tail
      && Run(s, Times(k + 1, ServerReceives))
        == s.(up := Codes(fs[k + 1..]), server := Reporting(c, !scan.ending.Complete?))
      && Run(s, Times(k + 1, ServerReceives) + [ServerReports(ok)])
        == s.(up := Codes(fs[k + 1..]), server := Listening,
              down := s.down + [Own(if scan.ending.Complete? && ok then RSP_OK else RSP_ERR)])
  {
    hide ScanStream, EncodeAll, EndsAt, Run;
    ScanStops(fs, k, c, tail);
    ServerDrains(s, c, fs, k);
    RunAppend(s, Times(k + 1, ServerReceives), ServerReports(ok));
  }

  /** The client's recv_stream: it returns to its main loop right behind the frame that ends the scan. */
  lemma FetchingIsScanning(s: State, c: byte, fs: seq<Frame>, k: nat, tail: seq<byte>)
    requires EndsAt(fs, k, c) && s.client == Fetching(c) && s.down == Owns(fs)
    ensures ScanStream(EncodeAll(fs) + tail, DataCode(c), EndCode(c)).rest == EncodeAll(fs[k + 1..]) + tail
    ensures Run(s, Times(k + 1, ClientReceives)) == s.(down := Owns(fs[k + 1..]), client := Idle)
  {
    ScanStops(fs, k, c, tail);
    ClientDrains(s, c, fs, k);
  }

  /** The packets send_file delivers are those of the answering, chunk and end steps. */
  lemma SendingIsStreaming(s: State, c: byte, size: Frame, frames: seq<Frame>, data: seq<byte>)
    requires s.server == Dispatching(c) && Fetches(c) && size.code == RSP_OK && Carries(frames, data, DataCode(c))
    ensures Run(s, [ServerAnswers(true)] + Times(|frames|, ServerChunk) + [ServerEnd])
      == s.(server := Listening, down := s.down + Owns([size] + frames + [Frame(EndCode(c), [])]))
  {
    var s1 := Step(s, ServerAnswers(true));
    assert s1 == s.(server := Sending(c), down := s.down + [Own(RSP_OK)]);
    RunAppend(s, [ServerAnswers(true)] + Times(|frames|, ServerChunk), ServerEnd);
    RunFront(s, ServerAnswers(true), Times(|frames|, ServerChunk));
    SendsChunks(s1, c, |frames|);
    assert Owns([size] + frames + [Frame(EndCode(c), [])]) ==
      [Own(RSP_OK)] + seq(|frames|, _ => Own(DataCode(c))) + [Own(EndCode(c))];
  }

  lemma {:induction false} SendsChunks(s: State, c: byte, n: nat)
    requires s.server == Sending(c)
    ensures Run(s, Times(n, ServerChunk)) == s.(down := s.down + seq(n, _ => Own(DataCode(c))))
  {
    if n == 0 {
      assert s.down + seq(0, _ => Own(DataCode(c))) == s.down;
    } else {
      assert Times(n, ServerChunk)[..n - 1] == Times(n - 1, ServerChunk);
      SendsChunks(s, c, n - 1);
      assert seq(n, _ => Own(DataCode(c))) == seq(n - 1, _ => Own(DataCode(c))) + [Own(DataCode(c))];
    }
  }
}
