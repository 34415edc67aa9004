/** The streaming loops of transfer.c over a socket and a file. */
module Transfer {
  import opened Core
  import opened Framing
  import opened Network
  import opened Posix
  import opened Disk
  import opened Streams

  // ---------------------------------------------------------------- sending

  /** The packets `fs`, and nothing else, were appended to what had been sent. */
  ghost predicate Delivered(before: seq<byte>, after: seq<byte>, fs: seq<Frame>) {
    (forall f :: f in fs ==> Sendable(f)) && after == before + EncodeAll(fs)
  }

  lemma DeliveredMore(before: seq<byte>, mid: seq<byte>, after: seq<byte>, fs: seq<Frame>, f: Frame)
    requires Delivered(before, mid, fs) && Sendable(f) && after == mid + Encode(f)
    ensures Delivered(before, after, fs + [f])
  {
    EncodeAllAppend(fs, f);
  }

  /** send_packet behind the packets sent so far. */
  method SendFrame(sock: Socket, code: byte, payload: seq<byte>, ghost before: seq<byte>, ghost fs: seq<Frame>)
    returns (ok: bool)
    requires |payload| <= MAX_PAYLOAD_SIZE && Delivered(before, sock.outgoing, fs)
    modifies sock`outgoing, sock`interrupts
    ensures sock.up ==> ok
    ensures ok ==> Delivered(before, sock.outgoing, fs + [Frame(code, payload)])
  {
    ghost var mid := sock.outgoing;
    ok := sock.SendPacket(code, payload);
    if ok {
      DeliveredMore(before, mid, sock.outgoing, fs, Frame(code, payload));
    }
  }

  /** The frames send_stream_buf cuts a buffer into. */
  function Chunks(buf: seq<byte>, code: byte): seq<Frame>
    decreases |buf|
  {
    if buf == [] then []
    else
      var n := Min(|buf|, CHUNK_SIZE);
      [Frame(code, buf[..n])] + Chunks(buf[n..], code)
  }

  lemma {:induction false} ChunksCarry(buf: seq<byte>, code: byte)
    ensures Carries(Chunks(buf, code), buf, code)
    decreases |buf|
  {
    if buf != [] {
      var n := Min(|buf|, CHUNK_SIZE);
      ChunksCarry(buf[n..], code);
      assert buf[..n] + buf[n..] == buf;
    }
  }

  /** Sends a buffer as a stream; succeeds whenever the connection stays up. */
  method SendStreamBuf(sock: Socket, buf: seq<byte>, dataCode: byte, endCode: byte) returns (r: Result<nat>)
    modifies sock`outgoing, sock`interrupts
    ensures sock.up ==> r.Ok?
    ensures r.Err? ==> r.errno == EIO
    ensures r.Ok? ==> r.value == |buf|
    ensures Carries(Chunks(buf, dataCode), buf, dataCode)
    ensures r.Ok? ==> Delivered(old(sock.outgoing), sock.outgoing, Chunks(buf, dataCode) + [Frame(endCode, [])])
  {
    ChunksCarry(buf, dataCode);
    var sent: nat, ok := 0, true;
    ghost var frames := [];
    assert buf[0..] == buf;
    while sent < |buf|
      invariant sent <= |buf| && Cut(buf, sent, dataCode, frames)
      invariant Delivered(old(sock.outgoing), sock.outgoing, frames)
    {
      var chunk := Min(|buf| - sent, CHUNK_SIZE);
      ok := SendFrame(sock, dataCode, buf[sent..sent + chunk], old(sock.outgoing), frames);
      if !ok {
        return Err(EIO);
      }
      frames := NextCut(buf, sent, dataCode, frames);
      sent := sent + chunk;
    }
    AllCut(buf, dataCode, frames);
    ok := SendFrame(sock, endCode, [], old(sock.outgoing), frames);
    if !ok {
      return Err(EIO);
    }
    r := Ok(sent);
  }

  /** The frames for the first `sent` bytes of a buffer. */
  ghost predicate Cut(buf: seq<byte>, sent: nat, code: byte, frames: seq<Frame>)
    requires sent <= |buf|
  {
    frames + Chunks(buf[sent..], code) == Chunks(buf, code)
  }

  lemma NextCut(buf: seq<byte>, sent: nat, code: byte, frames: seq<Frame>) returns (more: seq<Frame>)
    requires sent < |buf| && Cut(buf, sent, code, frames)
    ensures var n := Min(|buf| - sent, CHUNK_SIZE);
      more == frames + [Frame(code, buf[sent..sent + n])] && Cut(buf, sent + n, code, more)
  {
    var n := Min(|buf| - sent, CHUNK_SIZE);
    more := frames + [Frame(code, buf[sent..sent + n])];
    NextChunk(buf, sent, code);
    assert frames + ([Frame(code, buf[sent..sent + n])] + Chunks(buf[sent + n..], code))
      == more + Chunks(buf[sent + n..], code);
  }

  lemma AllCut(buf: seq<byte>, code: byte, frames: seq<Frame>)
    requires Cut(buf, |buf|, code, frames)
    ensures frames == Chunks(buf, code)
  {
    assert buf[|buf|..] == [];
  }

  lemma NextChunk(buf: seq<byte>, sent: nat, code: byte)
    requires sent < |buf|
    ensures var n := Min(|buf| - sent, CHUNK_SIZE);
      Chunks(buf[sent..], code) == [Frame(code, buf[sent..sent + n])] + Chunks(buf[sent + n..], code)
  {
    var n := Min(|buf| - sent, CHUNK_SIZE);
    assert buf[sent..][..n] == buf[sent..sent + n] && buf[sent..][n..] == buf[sent + n..];
  }

  /** Sends the rest of an open file, in whatever pieces the reads deliver. */
  method SendStream(sock: Socket, disk: Disk, f: OpenFile, offset: int, dataCode: byte, endCode: byte)
    returns (r: Result<nat>, ghost frames: seq<Frame>, ghost data: seq<byte>)
    requires disk.Valid() && f.ino in disk.fs.nodes && disk.fs.nodes[f.ino].File? && f.pos == 0
    modifies sock`outgoing, sock`interrupts, disk`interrupts, f`pos
    ensures disk.Valid() && disk.fs == old(disk.fs) && disk.trail == old(disk.trail)
    ensures Carries(frames, data, dataCode)
    ensures data <= From(disk.fs.nodes[f.ino].data, if offset > 0 then offset else 0)
    ensures sock.up && disk.reliable ==> r.Ok?
    ensures r.Ok? ==> r.value == |data| && data == From(disk.fs.nodes[f.ino].data, if offset > 0 then offset else 0)
    ensures r.Ok? ==> Delivered(old(sock.outgoing), sock.outgoing, frames + [Frame(endCode, [])])
    ensures r.Err? && sock.up ==> Delivered(old(sock.outgoing), sock.outgoing, frames)
  {
    frames, data := [], [];
    if offset > 0 {
      var ok := disk.Seek(f, offset);
      if !ok {
        return Err(EOTHER), [], [];
      }
    }
    var total: nat := 0;
    ghost var file, start := disk.fs.nodes[f.ino].data, f.pos;
    var done := false;
    while !done
      invariant disk.Valid() && disk.fs == old(disk.fs) && disk.trail == old(disk.trail)
      invariant Carries(frames, data, dataCode)
      invariant total == |data| && start <= f.pos == start + total
      invariant ReadSoFar(file, start, data)
      invariant done ==> f.pos >= |file|
      invariant Delivered(old(sock.outgoing), sock.outgoing, frames)
      decreases !done, Max(|file| - f.pos, 0), disk.interrupts
    {
      var a, piece := disk.Read(f, CHUNK_SIZE);
      if a.Failed? {
        return Err(EIO), frames, data;
      }
      if a.Moved? && a.n == 0 {
        done := true;
      } else if a.Moved? {
        NextPiece(file, start, data, piece);
        var ok := SendFrame(sock, dataCode, piece, old(sock.outgoing), frames);
        if !ok {
          return Err(EIO), frames, data;
        }
        CarriesMore(frames, data, dataCode, piece);
        frames, data := frames + [Frame(dataCode, piece)], data + piece;
        total := total + a.n;
      }
    }
    ReadWhole(file, start, data);
    var ok := SendFrame(sock, endCode, [], old(sock.outgoing), frames);
    if !ok {
      return Err(EIO), frames, data;
    }
    r := Ok(total);
  }

  /** `data` is the beginning of what a stream from `start` brings. */
  ghost predicate ReadSoFar(file: seq<byte>, start: nat, data: seq<byte>) {
    data <= From(file, start)
  }

  lemma ReadWhole(file: seq<byte>, start: nat, data: seq<byte>)
    requires ReadSoFar(file, start, data) && start + |data| >= |file|
    ensures data == From(file, start)
  {
  }

  lemma NextPiece(file: seq<byte>, start: nat, data: seq<byte>, piece: seq<byte>)
    requires start + |data| + |piece| <= |file|
    requires ReadSoFar(file, start, data) && piece == file[start + |data|..start + |data| + |piece|]
    ensures ReadSoFar(file, start, data + piece)
  {
    if start < |file| {
      assert file[start..][..|data|] == data;
      assert file[start..][..|data| + |piece|]
        == file[start..][..|data|] + file[start + |data|..start + |data| + |piece|];
    }
  }

  // ---------------------------------------------------------------- receiving

  ghost predicate PartlyWrote(fs0: Fs, fs: Fs, i: Ino, pos: nat, data: seq<byte>) {
    exists k :: 0 <= k <= |data| && Wrote(fs0, fs, i, pos, data[..k])
  }

  /** Every state from `n` on shows a prefix of `data` written. */
  ghost predicate TrailWrites(trail: seq<Fs>, n: nat, fs0: Fs, i: Ino, pos: nat, data: seq<byte>) {
    forall j :: n <= j < |trail| ==> PartlyWrote(fs0, trail[j], i, pos, data)
  }

  lemma WroteMore(fs0: Fs, fs1: Fs, fs2: Fs, i: Ino, pos: nat, a: seq<byte>, b: seq<byte>)
    requires Wrote(fs0, fs1, i, pos, a) && Wrote(fs1, fs2, i, pos + |a|, b)
    ensures Wrote(fs0, fs2, i, pos, a + b)
  {
    OverlayAppend(fs0.nodes[i].data, pos, a, b);
  }

  lemma WroteNothing(fs: Fs, i: Ino, pos: nat)
    requires i in fs.nodes && fs.nodes[i].File?
    ensures Wrote(fs, fs, i, pos, [])
  {
    assert SetData(fs, i, fs.nodes[i].data) == fs;
  }

  /** The writes so far and one more. */
  lemma OneWrite(fs0: Fs, fs1: Fs, fs2: Fs, trail: seq<Fs>, from: nat, i: Ino, pos: nat, data: seq<byte>,
                 done: nat, n: nat)
    requires done + n <= |data|
    requires Wrote(fs0, fs1, i, pos, data[..done]) && Wrote(fs1, fs2, i, pos + done, data[done..][..n])
    requires TrailWrites(trail, from, fs0, i, pos, data[..done])
    ensures Wrote(fs0, fs2, i, pos, data[..done + n])
    ensures TrailWrites(trail + [fs2], from, fs0, i, pos, data[..done + n])
  {
    hide Overlay;
    assert data[..done] + data[done..][..n] == data[..done + n];
    WroteMore(fs0, fs1, fs2, i, pos, data[..done], data[done..][..n]);
    WroteIsPart(fs0, fs2, i, pos, data[..done + n]);
    TrailGrows(trail, fs2, from, fs0, i, pos, data[..done], data[..done + n]);
  }

  /** One write() of the last `left` bytes of `data`. */
  method WriteSome(disk: Disk, f: OpenFile, data: seq<byte>, left: nat, ghost done: nat, ghost fs0: Fs,
                   ghost from: nat, ghost pos: nat)
    returns (a: Answer)
    requires disk.Valid() && f.ino in disk.fs.nodes && disk.fs.nodes[f.ino].File?
    requires left > 0 && done + left == |data| && f.pos == pos + done
    requires Wrote(fs0, disk.fs, f.ino, pos, data[..done])
    requires TrailWrites(disk.trail, from, fs0, f.ino, pos, data[..done])
    modifies disk`fs, disk`trail, disk`interrupts, f`pos
    ensures disk.Valid() && old(disk.trail) <= disk.trail && (a.Failed? ==> !disk.reliable)
    ensures a.Interrupted? ==> disk.interrupts < old(disk.interrupts)
    ensures a.Moved? ==> 0 < a.n <= left && disk.interrupts == old(disk.interrupts)
    ensures a.Moved? ==> f.pos == pos + done + a.n
    ensures a.Moved? ==> Wrote(fs0, disk.fs, f.ino, pos, data[..done + a.n])
    ensures a.Moved? ==> TrailWrites(disk.trail, from, fs0, f.ino, pos, data[..done + a.n])
    ensures !a.Moved? ==> disk.fs == old(disk.fs) && disk.trail == old(disk.trail) && f.pos == old(f.pos)
  {
    hide Overlay;
    ghost var fs1, trail1 := disk.fs, disk.trail;
    a := disk.Write(f, data[|data| - left..]);
    if a.Moved? {
      OneWrite(fs0, fs1, disk.fs, trail1, from, f.ino, pos, data, done, a.n);
    }
  }

  /** write_all: loops until the whole buffer is written or a write fails. */
  method WriteAll(disk: Disk, f: OpenFile, data: seq<byte>) returns (ok: bool, ghost written: nat)
    requires disk.Valid() && f.ino in disk.fs.nodes && disk.fs.nodes[f.ino].File?
    modifies disk`fs, disk`trail, disk`interrupts, f`pos
    ensures disk.Valid() && old(disk.trail) <= disk.trail
    ensures written <= |data| && f.pos == old(f.pos) + written
    ensures ok <==> written == |data|
    ensures disk.reliable ==> ok
    ensures Wrote(old(disk.fs), disk.fs, f.ino, old(f.pos), data[..written])
    ensures TrailWrites(disk.trail, |old(disk.trail)|, old(disk.fs), f.ino, old(f.pos), data[..written])
  {
    hide Overlay;
    written := 0;
    var left: nat := |data|;
    ghost var fs0, trail0, pos := disk.fs, disk.trail, f.pos;
    WroteNothing(fs0, f.ino, pos);
    assert data[..0] == [];
    while left > 0
      invariant disk.Valid() && trail0 <= disk.trail
      invariant written + left == |data| && f.pos == pos + written
      invariant f.ino in disk.fs.nodes && disk.fs.nodes[f.ino].File?
      invariant Wrote(fs0, disk.fs, f.ino, pos, data[..written])
      invariant TrailWrites(disk.trail, |trail0|, fs0, f.ino, pos, data[..written])
      decreases left, disk.interrupts
    {
      var a := WriteSome(disk, f, data, left, written, fs0, |trail0|, pos);
      if a.Failed? {
        return false, written;
      }
      if a.Moved? {
        written := written + a.n;
        left := left - a.n;
      }
    }
    ok := true;
  }

  lemma WroteIsPart(fs0: Fs, fs: Fs, i: Ino, pos: nat, data: seq<byte>)
    requires Wrote(fs0, fs, i, pos, data)
    ensures PartlyWrote(fs0, fs, i, pos, data)
  {
    assert data[..|data|] == data;
  }

  /** One more state, which shows more of the data. */
  lemma TrailGrows(trail: seq<Fs>, fs: Fs, n: nat, fs0: Fs, i: Ino, pos: nat, a: seq<byte>, b: seq<byte>)
    requires TrailWrites(trail, n, fs0, i, pos, a) && a <= b && PartlyWrote(fs0, fs, i, pos, b)
    ensures TrailWrites(trail + [fs], n, fs0, i, pos, b)
  {
    forall j | n <= j < |trail + [fs]| ensures PartlyWrote(fs0, (trail + [fs])[j], i, pos, b) {
      if j < |trail| {
        var k :| 0 <= k <= |a| && Wrote(fs0, trail[j], i, pos, a[..k]);
        assert a[..k] == b[..k];
      }
    }
  }

  /** A further write_all on top of what was written before. */
  lemma MoreWritten(fs0: Fs, fs1: Fs, fs2: Fs, trail1: seq<Fs>, trail2: seq<Fs>, from: nat, i: Ino, pos: nat,
                    all: seq<byte>, done: nat, piece: seq<byte>)
    requires done + |piece| <= |all| && all[done..][..|piece|] == piece
    requires Wrote(fs0, fs1, i, pos, all[..done]) && Wrote(fs1, fs2, i, pos + done, piece)
    requires trail1 <= trail2 && TrailWrites(trail1, from, fs0, i, pos, all)
    requires TrailWrites(trail2, |trail1|, fs1, i, pos + done, piece)
    ensures Wrote(fs0, fs2, i, pos, all[..done + |piece|])
    ensures TrailWrites(trail2, from, fs0, i, pos, all)
  {
    JoinPieces(all, done, piece, |piece|);
    assert piece[..|piece|] == piece;
    WroteMore(fs0, fs1, fs2, i, pos, all[..done], piece);
    forall j | from <= j < |trail2| ensures PartlyWrote(fs0, trail2[j], i, pos, all) {
      if j < |trail1| {
        assert trail2[j] == trail1[j];
      } else {
        LaterWrite(fs0, fs1, trail2[j], i, pos, all, done, piece);
      }
    }
  }

  lemma LaterWrite(fs0: Fs, fs1: Fs, fs: Fs, i: Ino, pos: nat, all: seq<byte>, done: nat, piece: seq<byte>)
    requires done + |piece| <= |all| && all[done..][..|piece|] == piece
    requires Wrote(fs0, fs1, i, pos, all[..done]) && PartlyWrote(fs1, fs, i, pos + done, piece)
    ensures PartlyWrote(fs0, fs, i, pos, all)
  {
    var k :| 0 <= k <= |piece| && Wrote(fs1, fs, i, pos + done, piece[..k]);
    WroteMore(fs0, fs1, fs, i, pos, all[..done], piece[..k]);
    JoinPieces(all, done, piece, k);
  }

  lemma JoinPieces(all: seq<byte>, done: nat, piece: seq<byte>, k: nat)
    requires done + |piece| <= |all| && all[done..][..|piece|] == piece && k <= |piece|
    ensures all[..done] + piece[..k] == all[..done + k]
  {
  }

  /** write_all of the next piece of a stream, `done` bytes of which are on disk. */
  method WriteNext(disk: Disk, f: OpenFile, piece: seq<byte>, ghost fs0: Fs, ghost from: nat, ghost pos: nat,
                   ghost all: seq<byte>, ghost done: nat) returns (ok: bool, ghost k: nat)
    requires disk.Valid() && f.ino in disk.fs.nodes && disk.fs.nodes[f.ino].File?
    requires done + |piece| <= |all| && all[done..][..|piece|] == piece && f.pos == pos + done
    requires Wrote(fs0, disk.fs, f.ino, pos, all[..done]) && TrailWrites(disk.trail, from, fs0, f.ino, pos, all)
    modifies disk`fs, disk`trail, disk`interrupts, f`pos
    ensures disk.Valid() && old(disk.trail) <= disk.trail
    ensures k <= |piece| && f.pos == pos + done + k && (ok <==> k == |piece|) && (disk.reliable ==> ok)
    ensures Wrote(fs0, disk.fs, f.ino, pos, all[..done + k])
    ensures TrailWrites(disk.trail, from, fs0, f.ino, pos, all)
    ensures f.ino in disk.fs.nodes && disk.fs.nodes[f.ino].File?
  {
    hide Overlay;
    ghost var fs1, trail1 := disk.fs, disk.trail;
    ok, k := WriteAll(disk, f, piece);
    PrefixPiece(all, done, piece, k);
    MoreWritten(fs0, fs1, disk.fs, trail1, disk.trail, from, f.ino, pos, all, done, piece[..k]);
  }

  /** What is still to be scanned after the frames read so far. */
  ghost predicate Scanned(scan: Scan, got: seq<byte>, bytes: seq<byte>, dataCode: byte, endCode: byte) {
    var later := ScanStream(bytes, dataCode, endCode);
    scan == Scan(got + later.data, later.ending, later.rest)
  }

  lemma FrameScanned(scan: Scan, got: seq<byte>, bytes: seq<byte>, dataCode: byte, endCode: byte,
                     piece: seq<byte>, rest: seq<byte>)
    requires Scanned(scan, got, bytes, dataCode, endCode) &&
      Decode(bytes, CHUNK_SIZE) == Got(Frame(dataCode, piece), rest)
    requires dataCode != endCode && dataCode != RSP_ERR
    ensures Scanned(scan, got + piece, rest, dataCode, endCode) && |rest| < |bytes|
    ensures |got| + |piece| <= |scan.data| && scan.data[|got|..][..|piece|] == piece && scan.data[..|got|] == got
  {
    DecodeShrinks(bytes, CHUNK_SIZE);
    var later := ScanStream(rest, dataCode, endCode);
    assert scan.data == got + (piece + later.data) == got + piece + later.data;
  }

  /** What recv_stream has done after `total` bytes of data arrived. */
  ghost predicate Progress(fs0: Fs, fs: Fs, trail: seq<Fs>, from: nat, i: Ino, pos: nat, data: seq<byte>,
                           total: nat, written: nat, failed: bool, offset: nat) {
    && written <= |data| && TrailWrites(trail, from, fs0, i, pos, data)
    && Wrote(fs0, fs, i, pos, data[..written])
    && (!failed ==> written == total && offset == pos + written)
  }

  datatype Arrival = Chunk(len: nat) | End | Stop(errno: Errno)

  /** One turn of the loop of recv_stream: a frame is received and, until a write fails, written. */
  method RecvChunk(sock: Socket, disk: Disk, f: OpenFile, buffer: array<byte>, dataCode: byte, endCode: byte,
                   failing: bool, ghost fs0: Fs, ghost from: nat, ghost pos: nat, ghost scan: Scan,
                   ghost got: seq<byte>, ghost written: nat)
    returns (a: Arrival, failed: bool, ghost piece: seq<byte>, ghost written': nat)
    requires disk.Valid() && f.ino in disk.fs.nodes && disk.fs.nodes[f.ino].File? && buffer.Length == CHUNK_SIZE
    requires dataCode != endCode && dataCode != RSP_ERR && endCode != RSP_ERR
    requires Scanned(scan, got, sock.incoming, dataCode, endCode)
    requires Progress(fs0, disk.fs, disk.trail, from, f.ino, pos, scan.data, |got|, written, failing, f.pos)
    modifies buffer, sock`incoming, sock`interrupts, disk`fs, disk`trail, disk`interrupts, f`pos
    ensures disk.Valid() && old(disk.trail) <= disk.trail && f.ino in disk.fs.nodes && disk.fs.nodes[f.ino].File?
    ensures Progress(fs0, disk.fs, disk.trail, from, f.ino, pos, scan.data, |got| + |piece|, written', failed, f.pos)
    ensures failing ==> failed
    ensures disk.reliable && !failing ==> !failed
    ensures a.Chunk? ==> a.len == |piece| && Scanned(scan, got + piece, sock.incoming, dataCode, endCode)
    ensures a.Chunk? ==> |sock.incoming| < |old(sock.incoming)|
    ensures !a.Chunk? ==> piece == [] && written' == written && failed == failing
    ensures a.End? ==> scan == Scan(got, Complete, sock.incoming)
    ensures a.Stop? && sock.up ==> scan.data == got && !scan.ending.Complete? && sock.incoming == scan.rest
  {
    hide Overlay;
    failed, piece, written' := failing, [], written;
    ghost var bytes := sock.incoming;
    var frame := sock.RecvFrameInto(buffer, CHUNK_SIZE);
    if frame.Err? {
      return Stop(frame.errno), failing, [], written;
    }
    var (status, len) := frame.value;
    if status == endCode {
      return End, failing, [], written;
    }
    if status == RSP_ERR {
      return Stop(EIO), failing, [], written;
    }
    if status != dataCode {
      return Stop(EINVAL), failing, [], written;
    }
    var data := buffer[..len];
    piece := data;
    FrameScanned(scan, got, bytes, dataCode, endCode, piece, sock.incoming);
    failed, written' := StoreChunk(disk, f, data, failing, fs0, from, pos, scan.data, |got|, written);
    a := Chunk(len);
  }

  /** A chunk that arrived is written, unless an earlier one could not be. */
  method StoreChunk(disk: Disk, f: OpenFile, piece: seq<byte>, failing: bool, ghost fs0: Fs, ghost from: nat,
                    ghost pos: nat, ghost all: seq<byte>, ghost total: nat, ghost written: nat)
    returns (failed: bool, ghost written': nat)
    requires disk.Valid() && f.ino in disk.fs.nodes && disk.fs.nodes[f.ino].File?
    requires total + |piece| <= |all| && all[total..][..|piece|] == piece
    requires Progress(fs0, disk.fs, disk.trail, from, f.ino, pos, all, total, written, failing, f.pos)
    modifies disk`fs, disk`trail, disk`interrupts, f`pos
    ensures disk.Valid() && old(disk.trail) <= disk.trail && f.ino in disk.fs.nodes && disk.fs.nodes[f.ino].File?
    ensures Progress(fs0, disk.fs, disk.trail, from, f.ino, pos, all, total + |piece|, written', failed, f.pos)
    ensures failing ==> failed
    ensures disk.reliable && !failing ==> !failed
  {
    hide Overlay;
    failed, written' := failing, written;
    if !failing {
      var ok, k := WriteNext(disk, f, piece, fs0, from, pos, all, written);
      failed := !ok;
      written' := written + k;
    }
  }

  /**
    recv_stream into an open file: the frames up to the end frame are consumed even when the
    disk fails, and the file holds a prefix of the data, all of it on success.
  */
  method RecvStream(sock: Socket, disk: Disk, f: OpenFile, offset: int, expected: int, dataCode: byte, endCode: byte)
    returns (r: Result<nat>, ghost written: nat)
    requires disk.Valid() && f.ino in disk.fs.nodes && disk.fs.nodes[f.ino].File? && f.pos == 0
    requires dataCode != endCode && dataCode != RSP_ERR && endCode != RSP_ERR
    modifies sock`incoming, sock`interrupts, disk`fs, disk`trail, disk`interrupts, f`pos
    ensures disk.Valid() && old(disk.trail) <= disk.trail
    ensures var scan, pos := ScanStream(old(sock.incoming), dataCode, endCode), Max(offset, 0);
      && written <= |scan.data|
      && Wrote(old(disk.fs), disk.fs, f.ino, pos, scan.data[..written])
      && TrailWrites(disk.trail, |old(disk.trail)|, old(disk.fs), f.ino, pos, scan.data)
      && (r.Ok? ==> scan.ending.Complete? && written == |scan.data| && r.value == |scan.data|)
      && (r.Ok? ==> (expected < 0 || expected == |scan.data|) && sock.incoming == scan.rest)
      && (sock.up && (disk.reliable || offset <= 0) ==> sock.incoming == scan.rest)
      && (sock.up && disk.reliable ==> written == |scan.data|)
      && (sock.up && disk.reliable ==> (r.Ok? <==> scan.ending.Complete? && (expected < 0 || expected == |scan.data|)))
  {
    hide Overlay;
    written := 0;
    ghost var scan, pos := ScanStream(sock.incoming, dataCode, endCode), Max(offset, 0);
    ghost var fs0, n := disk.fs, |disk.trail|;
    WroteNothing(fs0, f.ino, pos);
    assert scan.data[..0] == [];
    if offset > 0 {
      var ok := disk.Seek(f, offset);
      if !ok {
        return Err(EOTHER), 0;
      }
    }
    var buffer := new byte[CHUNK_SIZE];
    var total: nat, failed, ended := 0, false, false;
    ghost var got, piece := [], [];
    while !ended
      invariant disk.Valid() && old(disk.trail) <= disk.trail
      invariant f.ino in disk.fs.nodes && disk.fs.nodes[f.ino].File?
      invariant if ended then scan == Scan(got, Complete, sock.incoming)
        else Scanned(scan, got, sock.incoming, dataCode, endCode)
      invariant total == |got| && (disk.reliable ==> !failed)
      invariant Progress(fs0, disk.fs, disk.trail, n, f.ino, pos, scan.data, total, written, failed, f.pos)
      decreases !ended, |sock.incoming|
    {
      var a;
      a, failed, piece, written := RecvChunk(sock, disk, f, buffer, dataCode, endCode, failed, fs0, n, pos, scan, got,
        written);
      if a.Stop? {
        return Err(a.errno), written;
      }
      if a.End? {
        ended := true;
      } else {
        total := total + a.len;
        got := got + piece;
      }
    }
    if failed {
      return Err(EOTHER), written;
    }
    assert scan.data[..written] == scan.data;
    if expected >= 0 && expected != total {
      return Err(EINVAL), written;
    }
    r := Ok(total);
  }

  // ---------------------------------------------------------------- from end to end

  /** What a sender delivered scans to its data at the other end. */
  lemma StreamArrives(before: seq<byte>, after: seq<byte>, frames: seq<Frame>, data: seq<byte>,
                      dataCode: byte, endCode: byte, rest: seq<byte>)
    requires Delivered(before, after, frames + [Frame(endCode, [])]) && Carries(frames, data, dataCode)
    requires dataCode != endCode && dataCode != RSP_ERR && endCode != RSP_ERR
    ensures before <= after && ScanStream(after[|before|..] + rest, dataCode, endCode) == Scan(data, Complete, rest)
  {
    StreamRoundTrip(frames, data, dataCode, Frame(endCode, []), endCode, rest);
    EncodeAllAppend(frames, Frame(endCode, []));
    assert after[|before|..] == EncodeAll(frames) + Encode(Frame(endCode, []));
  }

  /**
    send_stream_buf at one end and recv_stream at the other: under any pieces send(), recv() and
    write() move, the file gets exactly the buffer, both ends report its length and what follows
    the stream is left on the connection.
  */
  method BufferAcross(sender: Socket, buf: seq<byte>, interrupts: nat, rest: seq<byte>,
                      disk: Disk, f: OpenFile, dataCode: byte, endCode: byte)
    returns (sent: Result<nat>, received: Result<nat>, receiver: Socket)
    requires sender.up && disk.Valid() && disk.reliable
    requires f.ino in disk.fs.nodes && disk.fs.nodes[f.ino].File? && f.pos == 0
    requires dataCode != endCode && dataCode != RSP_ERR && endCode != RSP_ERR
    modifies sender`outgoing, sender`interrupts, disk`fs, disk`trail, disk`interrupts, f`pos
    ensures disk.Valid() && sent == Ok(|buf|) && received == Ok(|buf|) && receiver.incoming == rest
    ensures Wrote(old(disk.fs), disk.fs, f.ino, 0, buf)
  {
    ghost var before := sender.outgoing;
    var start := |sender.outgoing|;
    sent := SendStreamBuf(sender, buf, dataCode, endCode);
    StreamArrives(before, sender.outgoing, Chunks(buf, dataCode), buf, dataCode, endCode, rest);
    receiver := new Socket(sender.outgoing[start..] + rest, true, interrupts);
    ghost var written;
    received, written := RecvStream(receiver, disk, f, -1, |buf|, dataCode, endCode);
    assert buf[..written] == buf;
  }

  /** send_stream of a file from `offset` on and recv_stream into another one, on two machines. */
  method FileAcross(sender: Socket, source: Disk, src: OpenFile, offset: int, interrupts: nat, rest: seq<byte>,
                    disk: Disk, f: OpenFile, dataCode: byte, endCode: byte)
    returns (sent: Result<nat>, received: Result<nat>, receiver: Socket)
    requires sender.up && source.Valid() && source.reliable && disk.Valid() && disk.reliable && source != disk &&
      src != f
    requires src.ino in source.fs.nodes && source.fs.nodes[src.ino].File? && src.pos == 0
    requires f.ino in disk.fs.nodes && disk.fs.nodes[f.ino].File? && f.pos == 0
    requires dataCode != endCode && dataCode != RSP_ERR && endCode != RSP_ERR
    modifies sender`outgoing, sender`interrupts, source`interrupts, src`pos, disk`fs, disk`trail, disk`interrupts, f`pos
    ensures disk.Valid() && source.fs == old(source.fs)
    ensures var data := From(source.fs.nodes[src.ino].data, Max(offset, 0));
      && sent == Ok(|data|) && received == Ok(|data|) && receiver.incoming == rest
      && Wrote(old(disk.fs), disk.fs, f.ino, 0, data)
  {
    ghost var before := sender.outgoing;
    ghost var frames, data;
    var start := |sender.outgoing|;
    sent, frames, data := SendStream(sender, source, src, offset, dataCode, endCode);
    StreamArrives(before, sender.outgoing, frames, data, dataCode, endCode, rest);
    receiver := new Socket(sender.outgoing[start..] + rest, true, interrupts);
    ghost var written;
    received, written := RecvStream(receiver, disk, f, -1, sent.value, dataCode, endCode);
    assert data[..written] == data;
  }

  lemma PrefixPiece(all: seq<byte>, done: nat, piece: seq<byte>, k: nat)
    requires done + |piece| <= |all| && all[done..][..|piece|] == piece && k <= |piece|
    ensures all[done..][..k] == piece[..k]
  {
    assert all[done..][..|piece|][..k] == all[done..][..k];
  }
}
