/** network.c over a stream socket that may move any part of what it is asked to move. */
module Network {
  import opened Core
  import opened Framing

  /** The answer of one send() or recv(). */
  datatype Answer = Moved(n: nat) | Interrupted | Failed

  class Socket {
    var incoming: seq<byte>   // what the peer will still deliver before it closes
    var outgoing: seq<byte>   // what the kernel accepted from us
    const up: bool            // the connection never fails on our side
    var interrupts: nat       // signals that will still interrupt a call

    constructor (incoming: seq<byte>, up: bool, interrupts: nat)
      ensures this.incoming == incoming && outgoing == [] && this.up == up
    {
      this.incoming, this.outgoing := incoming, [];
      this.up, this.interrupts := up, interrupts;
    }

    /** send(): accepts some non-empty part of `data`, chosen by the kernel. */
    method Send(data: seq<byte>) returns (a: Answer)
      requires data != []
      modifies this`outgoing, this`interrupts
      ensures a.Moved? ==> 0 < a.n <= |data| && outgoing == old(outgoing) + data[..a.n] && interrupts == old(interrupts)
      ensures !a.Moved? ==> outgoing == old(outgoing)
      ensures a.Interrupted? ==> interrupts < old(interrupts)
      ensures a.Failed? ==> !up
    {
      var signalled: bool, fails: bool := *, *;
      if interrupts > 0 && signalled {
        interrupts := interrupts - 1;
        return Interrupted;
      }
      if !up && fails {
        return Failed;
      }
      var n :| 0 < n <= |data|;
      outgoing := outgoing + data[..n];
      a := Moved(n);
    }

    /** recv(): delivers some non-empty part of what is asked for, nothing only at the end. */
    method Recv(len: nat) returns (a: Answer, data: seq<byte>)
      requires len > 0
      modifies this`incoming, this`interrupts
      ensures a.Moved? ==> a.n == |data| <= len && old(incoming) == data + incoming && interrupts == old(interrupts)
      ensures a.Moved? ==> (a.n == 0 <==> old(incoming) == [])
      ensures !a.Moved? ==> incoming == old(incoming)
      ensures a.Interrupted? ==> interrupts < old(interrupts)
      ensures a.Failed? ==> !up
    {
      data := [];
      var signalled: bool, fails: bool := *, *;
      if interrupts > 0 && signalled {
        interrupts := interrupts - 1;
        return Interrupted, [];
      }
      if !up && fails {
        return Failed, [];
      }
      if incoming == [] {
        return Moved(0), [];
      }
      assert 0 < 1 <= Min(len, |incoming|);
      var n: nat :| 0 < n <= Min(len, |incoming|);
      data, incoming := incoming[..n], incoming[n..];
      a := Moved(n);
    }

    method SendData(buf: array<byte>, len: nat) returns (ok: bool)
      requires len <= buf.Length
      modifies this`outgoing, this`interrupts
      ensures up ==> ok
      ensures ok ==> outgoing == old(outgoing) + buf[..len]
      ensures exists k :: 0 <= k <= len && outgoing == old(outgoing) + buf[..k]
    {
      var ptr, left := 0, len;
      assert buf[..0] == [];
      while left > 0
        invariant 0 <= ptr && 0 <= left && ptr + left == len
        invariant outgoing == old(outgoing) + buf[..ptr]
        decreases left, interrupts
      {
        var a := Send(buf[ptr..ptr + left]);
        if a.Failed? {
          assert outgoing == old(outgoing) + buf[..ptr];
          return false;
        }
        if a.Moved? {
          assert buf[..ptr] + buf[ptr..ptr + left][..a.n] == buf[..ptr + a.n];
          ptr := ptr + a.n;
          left := left - a.n;
        }
      }
      ok := true;
    }

    /** Fills `buf[from..from + len]`. */
    method ReceiveData(buf: array<byte>, from: nat, len: nat) returns (ok: bool)
      requires from + len <= buf.Length
      modifies buf, this`incoming, this`interrupts
      ensures buf[..from] == old(buf[..from]) && buf[from + len..] == old(buf[from + len..])
      ensures ok ==> |old(incoming)| >= len
      ensures ok ==> buf[from..from + len] == old(incoming)[..len] && incoming == old(incoming)[len..]
      ensures !ok && up ==> |old(incoming)| < len && incoming == []
      ensures exists k :: 0 <= k <= |old(incoming)| && incoming == old(incoming)[k..]
    {
      var ptr, left := from, len;
      ghost var was := incoming;
      while left > 0
        invariant ptr + left == from + len && from <= ptr && 0 <= left
        invariant |was| >= ptr - from && incoming == was[ptr - from..]
        invariant buf[from..ptr] == was[..ptr - from]
        invariant buf[..from] == old(buf[..from]) && buf[from + len..] == old(buf[from + len..])
        decreases left, interrupts
      {
        var a, data := Recv(left);
        if a.Failed? {
          return false;
        }
        if a.Moved? {
          if a.n == 0 {
            return false;
          }
          ghost var before := buf[from..ptr];
          assert was[..ptr - from] + data == was[..ptr - from + a.n];
          forall i | 0 <= i < a.n {
            buf[ptr + i] := data[i];
          }
          assert buf[from..ptr] == before;
          assert buf[from..ptr + a.n] == before + data;
          ptr := ptr + a.n;
          left := left - a.n;
        }
      }
      ok := true;
    }

    method SendPacket(code: byte, payload: seq<byte>) returns (ok: bool)
      modifies this`outgoing, this`interrupts
      ensures |payload| > MAX_PAYLOAD_SIZE ==> !ok && outgoing == old(outgoing)
      ensures |payload| <= MAX_PAYLOAD_SIZE && up ==> ok
      ensures ok ==> |payload| <= MAX_PAYLOAD_SIZE && outgoing == old(outgoing) + Encode(Frame(code, payload))
    {
      if |payload| > MAX_PAYLOAD_SIZE {
        return false;
      }
      var packet := new byte[HDR_SIZE + |payload|];
      BuildPacket(packet, code, payload);
      ok := SendData(packet, packet.Length);
    }

    /** recv_header: the code and the length of the payload that follows. */
    method RecvHeader() returns (ok: bool, code: byte, len: nat)
      modifies this`incoming, this`interrupts
      ensures ok ==> |old(incoming)| >= HDR_SIZE && incoming == old(incoming)[HDR_SIZE..]
      ensures ok ==> Host16(old(incoming)[..2]) == PREAMBLE && code == old(incoming)[2]
      ensures ok ==> len == Host32(old(incoming)[3..HDR_SIZE]) <= MAX_PAYLOAD_SIZE
      ensures !ok && up ==> Decode(old(incoming), 0) == Broken(incoming)
    {
      code, len := 0, 0;
      ghost var was := incoming;
      var word := new byte[4];
      ok := ReceiveData(word, 0, 2);
      if !ok {
        return;
      }
      var preamble := word[..2];
      if Host16(preamble) != PREAMBLE {
        return false, 0, 0;
      }
      ok := ReceiveData(word, 0, 1);
      if !ok {
        return;
      }
      code := word[0];
      assert word[0..1] == was[2..][..1];
      assert code == was[2];
      ok := ReceiveData(word, 0, 4);
      if !ok {
        return;
      }
      assert word[0..4] == was[3..][..4] == was[3..HDR_SIZE];
      assert word[..] == word[0..4];
      len := Host32(word[..]);
      assert incoming == was[HDR_SIZE..];
      ok := len <= MAX_PAYLOAD_SIZE;
    }

    /** The packet behind a good header. */
    lemma Follows(was: seq<byte>, cap: nat, len: nat, payload: seq<byte>)
      requires |was| >= HDR_SIZE + len && Host16(was[..2]) == PREAMBLE &&
        Host32(was[3..HDR_SIZE]) == len <= MAX_PAYLOAD_SIZE
      requires len <= cap && payload == was[HDR_SIZE..][..len]
      ensures Decode(was, cap) == Got(Frame(was[2], payload), was[HDR_SIZE..][len..])
    {
      assert was[HDR_SIZE..][len..] == was[HDR_SIZE + len..];
    }

    /** recv_packet allocates the payload itself. */
    method RecvPacket() returns (r: Option<Frame>)
      modifies this`incoming, this`interrupts
      ensures up ==> match Decode(old(incoming), MAX_PAYLOAD_SIZE)
        case Got(f, rest) => r == Some(f) && incoming == rest
        case Broken(rest) => r == None && incoming == rest
        case Oversized(_) => false
      ensures r.Some? ==> Decode(old(incoming), MAX_PAYLOAD_SIZE) == Got(r.value, incoming)
    {
      ghost var was := incoming;
      var ok, code, len := RecvHeader();
      if !ok {
        return None;
      }
      if len > 0 {
        var buf := new byte[len + 1];
        ok := ReceiveData(buf, 0, len);
        if !ok {
          assert up ==> |was| < HDR_SIZE + len;
          return None;
        }
        ghost var payload := buf[0..len];
        Follows(was, MAX_PAYLOAD_SIZE, len, payload);
        buf[len] := 0;
        assert buf[..len] == payload;
        r := Some(Frame(code, buf[..len]));
      } else {
        Follows(was, MAX_PAYLOAD_SIZE, 0, []);
        r := Some(Frame(code, []));
      }
    }

    /** recv_frame_into: the payload goes to the caller's buffer. */
    method RecvFrameInto(buf: array<byte>, cap: nat) returns (r: Result<(byte, nat)>)
      requires cap <= buf.Length
      modifies buf, this`incoming, this`interrupts
      ensures up ==> match Decode(old(incoming), cap)
        case Got(f, rest) => r == Ok((f.code, |f.payload|)) && buf[..|f.payload|] == f.payload && incoming == rest
        case Broken(rest) => r == Err(EPROTO) && incoming == rest
        case Oversized(rest) => r == Err(EIO) && incoming == rest
      ensures r.Ok? ==> r.value.1 <= cap
      ensures r.Ok? ==> Decode(old(incoming), cap) == Got(Frame(r.value.0, buf[..r.value.1]), incoming)
    {
      var ok, code, len := RecvHeader();
      if !ok {
        return Err(EPROTO);
      }
      if len > cap {
        return Err(EIO);
      }
      if len > 0 {
        ok := ReceiveData(buf, 0, len);
        if !ok {
          return Err(EPROTO);
        }
      }
      r := Ok((code, len));
    }
  }

  method BuildPacket(buf: array<byte>, code: byte, payload: seq<byte>)
    requires |payload| <= MAX_PAYLOAD_SIZE && HDR_SIZE + |payload| <= buf.Length
    modifies buf
    ensures buf[..HDR_SIZE + |payload|] == Encode(Frame(code, payload))
    ensures buf[HDR_SIZE + |payload|..] == old(buf[HDR_SIZE + |payload|..])
  {
    var preamble, len := Net16(PREAMBLE), Net32(|payload|);
    buf[0], buf[1] := preamble[0], preamble[1];
    buf[2] := code;
    buf[3], buf[4], buf[5], buf[6] := len[0], len[1], len[2], len[3];
    forall i | 0 <= i < |payload| {
      buf[HDR_SIZE + i] := payload[i];
    }
  }
}
