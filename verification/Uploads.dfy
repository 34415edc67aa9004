/** receive_into_file, send_file and execute_transfer_copy of transfer.c. */
module Uploads {
  import opened Core
  import opened Framing
  import opened Network
  import opened Posix
  import opened Disk
  import opened Streams
  import opened Transfer
  import Decimal

  datatype Target = Target(path: Path, offset: int, dataCode: byte, endCode: byte)

  function Bytes(s: string): (b: seq<byte>)
    ensures |b| == |s|
  {
    seq(|s|, i requires 0 <= i < |s| => s[i] as int % 256)
  }

  /** How the other side reads it. */
  function Text(b: seq<byte>): string {
    seq(|b|, i requires 0 <= i < |b| => b[i] as char)
  }

  // ---------------------------------------------------------------- temporary names

  function Template(dest: Path): Path {
    Fit(DirPart(dest) + ".tempXXXXXX", PATH_MAX)
  }

  /** Names open_temp_for_upload may touch for this destination. */
  predicate TempName(dest: Path, p: Path) {
    var t := Template(dest);
    p == t || (|t| >= 6 && |p| == |t| && p[..|t| - 6] == t[..|t| - 6])
  }

  /** They are of the kind clients are assumed not to use, as long as the path leaves them room. */
  lemma TempNamesAreTemporary(dest: Path, p: Path)
    requires TempName(dest, p) && |DirPart(dest)| + 11 < PATH_MAX && '/' !in p[|DirPart(dest)|..]
    ensures Temporary(p) && DirPart(p) == DirPart(dest)
  {
    var d, t := DirPart(dest), Template(dest);
    assert t == d + ".tempXXXXXX";
    assert p[..|p| - 6] == d + ".temp" by {
      assert t[..|t| - 6] == d + ".temp";
    }
    assert p[|d|..][..5] == p[..|p| - 6][|d|..] == ".temp";
    assert forall k :: |d| <= k < |p| ==> p[k] == p[|d|..][k - |d|];
    DirPartStops(p, |d|);
    assert p[..|d|] == p[..|p| - 6][..|d|] == d;
    DirPartOfDir(dest);
  }

  lemma {:induction false} DirPartStops(p: Path, n: nat)
    requires n <= |p| && forall k :: n <= k < |p| ==> p[k] != '/'
    ensures DirPart(p) == DirPart(p[..n])
  {
    if n < |p| {
      assert p[..|p| - 1][..n] == p[..n];
      DirPartStops(p[..|p| - 1], n);
    } else {
      assert p[..n] == p;
    }
  }

  lemma {:induction false} DirPartOfDir(p: Path)
    ensures DirPart(DirPart(p)) == DirPart(p)
  {
    if p != "" && p[|p| - 1] != '/' {
      DirPartOfDir(p[..|p| - 1]);
    }
  }

  /** What a failing mkstemp() makes of the template is left in `temp`. */
  method OpenTempForUpload(disk: Disk, dest: Path) returns (r: Result<Ino>, temp: Path)
    requires disk.Valid()
    modifies disk`fs, disk`trail, disk`nextIno
    ensures disk.Valid()
    ensures r.Err? ==> disk.fs == old(disk.fs) && disk.trail == old(disk.trail)
    ensures r.Err? ==> temp == if DirPart(dest) == "" then "" else Spoiled(Template(dest), disk.spoiled)
    ensures temp == "" || TempName(dest, temp)
    ensures r.Ok? ==> DirPart(dest) != "" && TempFor(Template(dest), disk.suffix) == Some(temp)
    ensures r.Ok? ==> temp != "" && temp !in old(disk.fs).names && r.value !in old(disk.fs).nodes
    ensures r.Ok? ==>
      disk.fs == CreateFile(old(disk.fs), temp, r.value, MODE_0600) && disk.trail == old(disk.trail) + [disk.fs]
    ensures disk.reliable ==> (r.Ok? <==> old(CanName(disk, dest)))
  {
    if DirPart(dest) == "" {
      return Err(EINVAL), "";
    }
    r, temp := disk.Mkstemp(Template(dest));
  }

  /** The name mkstemp() picks is free. */
  ghost predicate CanName(disk: Disk, dest: Path)
    reads disk
  {
    DirPart(dest) != "" && var t := TempFor(Template(dest), disk.suffix); t.Some? && t.value !in disk.fs.names
  }

  // ---------------------------------------------------------------- uploads without an offset

  /** What a crash may leave at `path`: the old state, an empty placeholder if it was absent, or all of `full`. */
  ghost predicate Safe(fs0: Fs, fs: Fs, path: Path, full: Option<Node>) {
    || Lookup(fs, path) == Lookup(fs0, path)
    || (path !in fs0.names && Lookup(fs, path) == Some(File([], MODE_0700)))
    || (full.Some? && Lookup(fs, path) == full)
  }

  ghost predicate TrailSafe(trail: seq<Fs>, from: nat, fs0: Fs, path: Path, full: Option<Node>) {
    forall j :: from <= j < |trail| ==> Safe(fs0, trail[j], path, full)
  }

  /** Every name that is neither the target nor a temporary name of it means what it meant. */
  ghost predicate SameElsewhere(fs0: Fs, fs: Fs, path: Path) {
    && fs.names.Keys <= fs0.names.Keys + {path}
    && forall p :: p in fs0.names && p != path && !TempName(path, p) ==>
      p in fs.names && fs.names[p] == fs0.names[p] && Lookup(fs, p) == Lookup(fs0, p)
  }

  /** The file system while the temporary file `t` at inode `ti` grows; `li` is the inode the lock is on. */
  ghost function Staged(fs0: Fs, path: Path, li: Ino, t: Path, ti: Ino, node: Node): Fs {
    var fs1 := CreateFile(fs0, t, ti, MODE_0600);
    var fs2 := if path in fs0.names then fs1 else CreateFile(fs1, path, li, MODE_0700);
    fs2.(nodes := fs2.nodes[ti := node])
  }

  ghost predicate Fresh(fs0: Fs, path: Path, li: Ino, t: Path, ti: Ino) {
    && Closed(fs0) && t !in fs0.names && t != path && TempName(path, t) && ti !in fs0.nodes
    && (if path in fs0.names then li == fs0.names[path] else li !in fs0.nodes && li != ti)
  }

  lemma StagedIsSafe(fs0: Fs, path: Path, li: Ino, t: Path, ti: Ino, node: Node, full: Option<Node>)
    requires Fresh(fs0, path, li, t, ti)
    ensures Safe(fs0, Staged(fs0, path, li, t, ti, node), path, full)
  {
  }

  /** A write to the temporary file. */
  lemma StagedWrite(fs0: Fs, path: Path, li: Ino, t: Path, ti: Ino, fs: Fs, data: seq<byte>)
    requires Fresh(fs0, path, li, t, ti)
    requires Wrote(Staged(fs0, path, li, t, ti, File([], MODE_0600)), fs, ti, 0, data)
    ensures fs == Staged(fs0, path, li, t, ti, File(data, MODE_0600))
  {
    OverlayFresh(data);
  }

  /** The rename puts the whole file in place and leaves no temporary name. */
  lemma PutInPlace(fs0: Fs, path: Path, li: Ino, t: Path, ti: Ino, node: Node)
    requires Fresh(fs0, path, li, t, ti)
    ensures var fs := Rename(Staged(fs0, path, li, t, ti, node), t, path);
      Lookup(fs, path) == Some(node) && SameElsewhere(fs0, fs, path)
  {
  }

  /** The clean-up after a failure. */
  ghost function Cleaned(fs: Fs, t: Path, path: Path, existed: bool): Fs {
    var fs1 := if t != "" then Remove(fs, t) else fs;
    if existed then fs1 else Remove(fs1, path)
  }

  lemma RemovedIsSafe(fs0: Fs, path: Path, li: Ino, t: Path, ti: Ino, node: Node)
    requires Fresh(fs0, path, li, t, ti) && node.File?
    ensures Safe(fs0, Remove(Staged(fs0, path, li, t, ti, node), t), path, None)
  {
  }

  /** What has the old names and the old files has everything restored. */
  lemma SameNamesRestored(fs0: Fs, fs: Fs, path: Path)
    requires Closed(fs0) && fs.names == fs0.names
    requires forall i :: i in fs0.nodes ==> i in fs.nodes && fs.nodes[i] == fs0.nodes[i]
    ensures Restored(fs0, fs, path)
  {
    forall p | p in fs0.names ensures Lookup(fs, p) == Lookup(fs0, p) {
      var i := fs0.names[p];
      assert i in fs0.nodes;
    }
  }

  lemma ExistingRestored(fs0: Fs, path: Path, li: Ino, t: Path, ti: Ino, node: Node)
    requires Fresh(fs0, path, li, t, ti) && node.File? && path in fs0.names
    ensures Restored(fs0, Cleaned(Staged(fs0, path, li, t, ti, node), t, path, true), path)
  {
    hide Restored;
    assert fs0.names[t := ti] - {t} == fs0.names;
    SameNamesRestored(fs0, Cleaned(Staged(fs0, path, li, t, ti, node), t, path, true), path);
  }

  lemma AbsentRestored(fs0: Fs, path: Path, li: Ino, t: Path, ti: Ino, node: Node)
    requires Fresh(fs0, path, li, t, ti) && node.File? && path !in fs0.names
    ensures Restored(fs0, Cleaned(Staged(fs0, path, li, t, ti, node), t, path, false), path)
  {
    hide Restored;
    assert fs0.names[t := ti][path := li] - {t} - {path} == fs0.names;
    SameNamesRestored(fs0, Cleaned(Staged(fs0, path, li, t, ti, node), t, path, false), path);
  }

  lemma CleanedRestores(fs0: Fs, path: Path, li: Ino, t: Path, ti: Ino, node: Node)
    requires Fresh(fs0, path, li, t, ti) && node.File?
    ensures var fs := Staged(fs0, path, li, t, ti, node);
      && Safe(fs0, Remove(fs, t), path, None)
      && Restored(fs0, Cleaned(fs, t, path, path in fs0.names), path)
  {
    hide Safe, Restored, Cleaned, Staged, Remove;
    RemovedIsSafe(fs0, path, li, t, ti, node);
    if path in fs0.names {
      ExistingRestored(fs0, path, li, t, ti, node);
    } else {
      AbsentRestored(fs0, path, li, t, ti, node);
    }
  }

  /** Presence and content of the target are what they were; nothing new is left behind. */
  ghost predicate Restored(fs0: Fs, fs: Fs, path: Path) {
    && (path in fs0.names <==> path in fs.names)
    && (path in fs0.names ==> fs.names[path] == fs0.names[path])
    && Lookup(fs, path) == Lookup(fs0, path)
    && fs.names.Keys <= fs0.names.Keys
    && SameElsewhere(fs0, fs, path)
  }

  /** The shared clean-up of receive_into_file: close, unlock, unlink. */
  method CleanUp(disk: Disk, fd: Option<Ino>, lockFd: Option<Ino>, temp: Path, existed: bool, path: Path)
    requires disk.Valid()
    modifies disk`fs, disk`trail, disk`locks
    ensures disk.Valid() && old(disk.trail) <= disk.trail
    ensures disk.fs == Cleaned(old(disk.fs), temp, path, existed)
    ensures disk.locks <= old(disk.locks) - (if lockFd.Some? then {lockFd.value} else {})
    ensures forall j :: |old(disk.trail)| <= j < |disk.trail| ==>
      disk.trail[j] == disk.fs || (temp != "" && disk.trail[j] == Remove(old(disk.fs), temp))
  {
    if fd.Some? && fd != lockFd {
      var _ := disk.Close(fd.value);
    }
    if lockFd.Some? {
      disk.ReleaseLock(lockFd.value);
      var _ := disk.Close(lockFd.value);
    }
    if temp != "" {
      disk.UnlinkFile(temp);
    }
    if !existed {
      disk.UnlinkFile(path);
    }
  }

  lemma RestoredIsSafe(fs0: Fs, fs: Fs, path: Path, full: Option<Node>)
    requires Restored(fs0, fs, path)
    ensures Safe(fs0, fs, path, full)
  {
  }

  /** A failure before the target was opened. */
  lemma EarlyFailure(fs0: Fs, path: Path, t: Path, ti: Ino, existed: bool)
    requires Closed(fs0) && t != path && (t == "" || TempName(path, t)) && ti !in fs0.nodes &&
      (existed <==> path in fs0.names)
    ensures Restored(fs0, Cleaned(fs0, t, path, existed), path) && (t != "" ==> Safe(fs0, Remove(fs0, t), path, None))
    ensures t !in fs0.names && t != "" ==> Safe(fs0, CreateFile(fs0, t, ti, MODE_0600), path, None)
    ensures t !in fs0.names && t != "" ==>
      Restored(fs0, Cleaned(CreateFile(fs0, t, ti, MODE_0600), t, path, existed), path)
    ensures t !in fs0.names && t != "" ==> Safe(fs0, Remove(CreateFile(fs0, t, ti, MODE_0600), t), path, None)
  {
    if t != "" && t !in fs0.names {
      TempRestored(fs0, path, t, ti, existed);
    }
  }

  lemma TempRestored(fs0: Fs, path: Path, t: Path, ti: Ino, existed: bool)
    requires Closed(fs0) && t != path && t != "" && t !in fs0.names && ti !in fs0.nodes
    requires existed <==> path in fs0.names
    ensures Restored(fs0, Cleaned(CreateFile(fs0, t, ti, MODE_0600), t, path, existed), path)
  {
    hide Restored;
    assert fs0.names[t := ti] - {t} == fs0.names && (path !in fs0.names ==> fs0.names - {path} == fs0.names);
    SameNamesRestored(fs0, Cleaned(CreateFile(fs0, t, ti, MODE_0600), t, path, existed), path);
  }

  /** Room for one more state, or for what the clean-up added. */
  lemma TrailStaysSafe(trail: seq<Fs>, trail': seq<Fs>, from: nat, fs0: Fs, path: Path, full: Option<Node>)
    requires TrailSafe(trail, from, fs0, path, full) && trail <= trail'
    requires forall j :: |trail| <= j < |trail'| ==> Safe(fs0, trail'[j], path, full)
    ensures TrailSafe(trail', from, fs0, path, full)
  {
  }

  /** While the stream is received every state is a staged one. */
  lemma StreamIsSafe(trail: seq<Fs>, from: nat, fs0: Fs, path: Path, li: Ino, t: Path, ti: Ino,
                     data: seq<byte>, full: Option<Node>)
    requires Fresh(fs0, path, li, t, ti)
    requires TrailWrites(trail, from, Staged(fs0, path, li, t, ti, File([], MODE_0600)), ti, 0, data)
    ensures TrailSafe(trail, from, fs0, path, full)
  {
    forall j | from <= j < |trail| ensures Safe(fs0, trail[j], path, full) {
      var k :| 0 <= k <= |data| && Wrote(Staged(fs0, path, li, t, ti, File([], MODE_0600)), trail[j], ti, 0, data[..k]);
      StagedWrite(fs0, path, li, t, ti, trail[j], data[..k]);
      StagedIsSafe(fs0, path, li, t, ti, File(data[..k], MODE_0600), full);
    }
  }

  function UploadMode(fs: Fs, path: Path): int {
    if IsFile(fs, path) then Permissions(fs.nodes[fs.names[path]].mode) else MODE_0700
  }

  /** What a complete upload leaves at the target. */
  function Uploaded(fs: Fs, path: Path, scan: Scan): Option<Node> {
    if scan.ending.Complete? then Some(File(scan.data, UploadMode(fs, path))) else None
  }

  /**
    The path leads to exactly these bytes, with the nine permission bits of the file it led to
    before and no other bit, or 0700 if there was none.
  */
  predicate Replaced(fs0: Fs, fs: Fs, path: Path, data: seq<byte>) {
    IsFile(fs, path) &&
    var node := fs.nodes[fs.names[path]];
    && node.data == data
    && if IsFile(fs0, path) then 0 <= node.mode < 512 && (fs0.nodes[fs0.names[path]].mode - node.mode) % 512 == 0
       else node.mode == 448
  }

  /** The path shows the old file, an empty placeholder if there was none, or all of a complete upload. */
  predicate Shows(fs0: Fs, fs: Fs, path: Path, scan: Scan) {
    || Lookup(fs, path) == Lookup(fs0, path)
    || (path !in fs0.names && Lookup(fs, path) == Some(File([], 448)))
    || (scan.ending.Complete? && Replaced(fs0, fs, path, scan.data))
  }

  ghost predicate TrailShows(trail: seq<Fs>, from: nat, fs0: Fs, path: Path, scan: Scan) {
    forall j :: from <= j < |trail| ==> Shows(fs0, trail[j], path, scan)
  }

  lemma UploadedReplaces(fs0: Fs, fs: Fs, path: Path, scan: Scan)
    requires scan.ending.Complete? && Lookup(fs, path) == Uploaded(fs0, path, scan)
    ensures Replaced(fs0, fs, path, scan.data)
  {
  }

  lemma SafeShows(trail: seq<Fs>, from: nat, fs0: Fs, path: Path, scan: Scan)
    requires TrailSafe(trail, from, fs0, path, Uploaded(fs0, path, scan))
    ensures TrailShows(trail, from, fs0, path, scan)
  {
    forall j | from <= j < |trail| ensures Shows(fs0, trail[j], path, scan) {
      assert Safe(fs0, trail[j], path, Uploaded(fs0, path, scan));
    }
  }

  /** The last steps of an upload: permissions, close, rename. */
  method PutFile(disk: Disk, path: Path, li: Ino, t: Path, ti: Ino, mode: int, ghost fs0: Fs, ghost data: seq<byte>)
    returns (ok: bool, open: bool)
    requires disk.Valid() && Fresh(fs0, path, li, t, ti) &&
      disk.fs == Staged(fs0, path, li, t, ti, File(data, MODE_0600))
    modifies disk`fs, disk`trail, disk`locks
    ensures disk.Valid() && old(disk.trail) <= disk.trail && disk.locks <= old(disk.locks)
    ensures disk.reliable ==> ok
    ensures ok ==> Lookup(disk.fs, path) == Some(File(data, mode)) && SameElsewhere(fs0, disk.fs, path)
    ensures !ok ==> exists m :: disk.fs == Staged(fs0, path, li, t, ti, File(data, m))
    ensures TrailSafe(disk.trail, |old(disk.trail)|, fs0, path, Some(File(data, mode)))
  {
    ghost var full := Some(File(data, mode));
    open := true;
    ok := disk.Fchmod(ti, mode);
    if !ok {
      return;
    }
    assert disk.fs == Staged(fs0, path, li, t, ti, File(data, mode));
    StagedIsSafe(fs0, path, li, t, ti, File(data, mode), full);
    ok := disk.Close(ti);
    open := false;
    if !ok {
      return;
    }
    ok := disk.RenameFile(t, path);
    if ok {
      PutInPlace(fs0, path, li, t, ti, File(data, mode));
    }
  }

  const READY: string := "Ready to receive data"

  /** The answer that makes the client start its stream. */
  function ReadyFrame(): Frame {
    Frame(RSP_OK, Bytes(READY))
  }

  /** The stream is consumed to its end exactly when the client was told to start it. */
  ghost predicate Answered(sent0: seq<byte>, sent: seq<byte>, incoming0: seq<byte>, incoming: seq<byte>,
                           rest: seq<byte>) {
    || (sent == sent0 && incoming == incoming0)
    || (sent == sent0 + Encode(ReadyFrame()) && incoming == rest)
  }

  /** No one else holds a lock on the file. */
  ghost predicate Unlocked(disk: Disk, path: Path)
    reads disk
  {
    path in disk.fs.names ==> disk.fs.names[path] !in disk.readLocked && disk.fs.names[path] !in disk.writeLocked
  }

  /** Nothing stands in the way of an upload to `path`. */
  ghost predicate CanUpload(disk: Disk, path: Path)
    reads disk
  {
    disk.reliable && Unlocked(disk, path) && Lookup(disk.fs, path) != Some(Directory) && CanName(disk, path)
  }

  /** mkstemp() would pick the very name of the absent target. */
  ghost predicate PicksTarget(disk: Disk, path: Path)
    reads disk
  {
    path !in disk.fs.names && TempFor(Template(path), disk.suffix) == Some(path)
  }

  /** A failing mkstemp() leaves the target's own name behind, and a file bears it. */
  ghost predicate SpoilsTarget(disk: Disk, path: Path)
    reads disk
  {
    IsFile(disk.fs, path) && Spoiled(Template(path), disk.spoiled) == path
  }

  /**
    The clean-up after a failing mkstemp() unlinks what the template became. That restores the
    target unless it bears just that name; then it is lost.
  */
  lemma UnnamedFailure(fs0: Fs, path: Path, t: Path, existed: bool)
    requires Closed(fs0) && TempName(path, t) && t != "" && (existed <==> path in fs0.names)
    ensures var fs := Cleaned(fs0, t, path, existed);
      if t == path && IsFile(fs0, path) then fs == Unlink(fs0, path) && !Restored(fs0, fs, path)
      else Restored(fs0, fs, path) && Safe(fs0, Remove(fs0, t), path, None)
  {
    if t == path && !existed {
      assert fs0.names - {path} == fs0.names;
    }
  }

  /** Such a target: a template that mkstemp() leaves as it was. */
  lemma NameOfItsTemplate()
    ensures Template("/.tempXXXXXX") == "/.tempXXXXXX"
  {
    var p := "/.tempXXXXXX";
    assert p[..1] == "/" && DirPart("/") == "/";
    assert forall k :: 1 <= k < |p| ==> p[k] != '/';
    DirPartStops(p, 1);
    assert "/" + ".tempXXXXXX" == p;
  }

  /**
    An upload without an offset. Stopped anywhere, it leaves the old file, an absent or empty
    target that was absent before, or the whole new file. A success replaces the target by
    exactly the received bytes with the old permission bits. A failure restores it, unless mkstemp()
    failed (`unnamed`) and left the target's own name in the template: then the target is lost.
  */
  method ReceiveViaTemp(sock: Socket, disk: Disk, path: Path, dataCode: byte, endCode: byte)
    returns (r: Result<nat>, ghost unnamed: bool)
    requires disk.Valid() && disk.locks == {} && !PicksTarget(disk, path)
    requires dataCode != endCode && dataCode != RSP_ERR && endCode != RSP_ERR
    modifies sock`incoming, sock`outgoing, sock`interrupts, disk`fs, disk`trail, disk`nextIno, disk`interrupts,
      disk`locks
    ensures disk.Valid() && disk.locks == {} && old(disk.trail) <= disk.trail
    ensures unnamed ==> r.Err? && DirPart(path) != ""
    ensures disk.reliable && DirPart(path) != "" ==> (unnamed <==> !old(CanName(disk, path)))
    ensures var scan := ScanStream(old(sock.incoming), dataCode, endCode);
      var lost := unnamed && old(SpoilsTarget(disk, path));
      && (!lost ==> TrailShows(disk.trail, |old(disk.trail)|, old(disk.fs), path, scan))
      && (r.Ok? ==> scan.ending.Complete? && r.value == |scan.data| && sock.incoming == scan.rest)
      && (r.Ok? ==> Replaced(old(disk.fs), disk.fs, path, scan.data) && SameElsewhere(old(disk.fs), disk.fs, path))
      && (r.Err? ==> (Restored(old(disk.fs), disk.fs, path) <==> !lost))
      && (lost ==> disk.fs == Unlink(old(disk.fs), path))
      && (sock.up && old(CanUpload(disk, path)) && scan.ending.Complete? ==> r.Ok?)
      && (sock.up ==> Answered(old(sock.outgoing), sock.outgoing, old(sock.incoming), sock.incoming, scan.rest))
      && (!old(Unlocked(disk, path)) ==> r.Err? && sock.outgoing == old(sock.outgoing))
  {
    hide Replaced, Shows, TrailShows, UploadMode, Encode;
    ghost var fs0, n, scan := disk.fs, |disk.trail|, ScanStream(sock.incoming, dataCode, endCode);
    ghost var full := Uploaded(fs0, path, scan);
    var existed := path in disk.fs.names;
    var mode := UploadMode(disk.fs, path);
    var made, temp := OpenTempForUpload(disk, path);
    unnamed := made.Err? && temp != "";
    if made.Err? {
      FailUnnamed(disk, path, temp, existed, full);
      if Restored(fs0, disk.fs, path) {
        SafeShows(disk.trail, n, fs0, path, scan);
      }
      return Err(made.errno), unnamed;
    }
    var fd := made.value;
    EarlyFailure(fs0, path, temp, fd, existed);
    var locked := OpenTarget(disk, path, existed, temp, fd, fs0, n, full);
    if locked.Err? {
      SafeShows(disk.trail, n, fs0, path, scan);
      return Err(locked.errno), false;
    }
    r := ReceiveStaged(sock, disk, path, dataCode, endCode, existed, mode, temp, fd, locked.value, fs0, n);
    SafeShows(disk.trail, n, fs0, path, scan);
    if r.Ok? {
      UploadedReplaces(fs0, disk.fs, path, scan);
    }
  }

  /** Nothing was opened: `temp` is empty or what mkstemp() left. */
  method FailUnnamed(disk: Disk, path: Path, temp: Path, existed: bool, ghost full: Option<Node>)
    requires disk.Valid() && disk.locks == {} && (existed <==> path in disk.fs.names)
    requires temp == "" || TempName(path, temp)
    modifies disk`fs, disk`trail, disk`locks
    ensures disk.Valid() && disk.locks == {} && old(disk.trail) <= disk.trail
    ensures var lost := temp != "" && temp == path && IsFile(old(disk.fs), path);
      if lost then disk.fs == Unlink(old(disk.fs), path) && !Restored(old(disk.fs), disk.fs, path)
      else Restored(old(disk.fs), disk.fs, path) && TrailSafe(disk.trail, |old(disk.trail)|, old(disk.fs), path, full)
  {
    ghost var fs0 := disk.fs;
    if temp == "" {
      EmptyFailure(fs0, path, existed);
    } else {
      UnnamedFailure(fs0, path, temp, existed);
    }
    CleanUp(disk, None, None, temp, existed, path);
    if Restored(fs0, disk.fs, path) {
      RestoredIsSafe(fs0, disk.fs, path, full);
    }
  }

  lemma EmptyFailure(fs0: Fs, path: Path, existed: bool)
    requires Closed(fs0) && (existed <==> path in fs0.names)
    ensures Restored(fs0, Cleaned(fs0, "", path, existed), path)
  {
    if !existed {
      assert fs0.names - {path} == fs0.names;
    }
  }

  lemma OpenedIsStaged(fs0: Fs, path: Path, li: Ino, t: Path, ti: Ino)
    requires Closed(fs0) && t !in fs0.names && t != path && ti !in fs0.nodes
    ensures path in fs0.names ==>
      CreateFile(fs0, t, ti, MODE_0600) == Staged(fs0, path, li, t, ti, File([], MODE_0600))
    ensures path !in fs0.names && li != ti ==>
      CreateFile(CreateFile(fs0, t, ti, MODE_0600), path, li, MODE_0700)
        == Staged(fs0, path, li, t, ti, File([], MODE_0600))
  {
  }

  /** The target is opened for its lock, and created if it was absent. */
  method OpenTarget(disk: Disk, path: Path, existed: bool, temp: Path, fd: Ino,
                    ghost fs0: Fs, ghost from: nat, ghost full: Option<Node>) returns (r: Result<Ino>)
    requires disk.Valid() && disk.locks == {} && Closed(fs0) && (existed <==> path in fs0.names)
    requires temp != "" && temp !in fs0.names && temp != path && TempName(path, temp) && fd !in fs0.nodes
    requires disk.fs == CreateFile(fs0, temp, fd, MODE_0600) && TrailSafe(disk.trail, from, fs0, path, full)
    modifies disk`fs, disk`trail, disk`nextIno, disk`locks
    ensures disk.Valid() && disk.locks == {} && old(disk.trail) <= disk.trail &&
      TrailSafe(disk.trail, from, fs0, path, full)
    ensures r.Err? ==> Restored(fs0, disk.fs, path) && (disk.reliable ==> Lookup(fs0, path) == Some(Directory))
    ensures r.Ok? ==>
      Fresh(fs0, path, r.value, temp, fd) && disk.fs == Staged(fs0, path, r.value, temp, fd, File([], MODE_0600))
    ensures r.Ok? && path !in fs0.names ==> r.value !in disk.readLocked && r.value !in disk.writeLocked
  {
    EarlyFailure(fs0, path, temp, fd, existed);
    ghost var trail1 := disk.trail;
    r := disk.OpenCreate(path, MODE_0700);
    if r.Err? {
      CleanUp(disk, Some(fd), None, temp, existed, path);
      RestoredIsSafe(fs0, disk.fs, path, full);
    } else {
      OpenedIsStaged(fs0, path, r.value, temp, fd);
      StagedIsSafe(fs0, path, r.value, temp, fd, File([], MODE_0600), full);
    }
    TrailStaysSafe(trail1, disk.trail, from, fs0, path, full);
  }

  /** The stream goes to the temporary file. */
  method StreamToTemp(sock: Socket, disk: Disk, path: Path, dataCode: byte, endCode: byte, temp: Path, fd: Ino,
                      lockFd: Ino, ghost fs0: Fs, ghost from: nat, ghost full: Option<Node>)
    returns (r: Result<nat>, ghost written: nat)
    requires disk.Valid() && Fresh(fs0, path, lockFd, temp, fd)
    requires disk.fs == Staged(fs0, path, lockFd, temp, fd, File([], MODE_0600))
    requires dataCode != endCode && dataCode != RSP_ERR && endCode != RSP_ERR
    requires TrailSafe(disk.trail, from, fs0, path, full)
    modifies sock`incoming, sock`interrupts, disk`fs, disk`trail, disk`interrupts
    ensures disk.Valid() && old(disk.trail) <= disk.trail && TrailSafe(disk.trail, from, fs0, path, full)
    ensures var scan := ScanStream(old(sock.incoming), dataCode, endCode);
      && written <= |scan.data|
      && disk.fs == Staged(fs0, path, lockFd, temp, fd, File(scan.data[..written], MODE_0600))
      && (r.Ok? ==> scan.ending.Complete? && written == r.value == |scan.data| && sock.incoming == scan.rest)
      && (sock.up ==> sock.incoming == scan.rest)
      && (sock.up && disk.reliable && scan.ending.Complete? ==> r.Ok?)
  {
    ghost var scan, trail1 := ScanStream(sock.incoming, dataCode, endCode), disk.trail;
    var f := new OpenFile(fd);
    r, written := RecvStream(sock, disk, f, -1, -1, dataCode, endCode);
    StagedWrite(fs0, path, lockFd, temp, fd, disk.fs, scan.data[..written]);
    StreamIsSafe(disk.trail, |trail1|, fs0, path, lockFd, temp, fd, scan.data, full);
    TrailStaysSafe(trail1, disk.trail, from, fs0, path, full);
  }

  /** The rest of the upload once both files are open: lock, stream, replace or clean up. */
  method ReceiveStaged(sock: Socket, disk: Disk, path: Path, dataCode: byte, endCode: byte, existed: bool, mode: int,
                       temp: Path, fd: Ino, lockFd: Ino, ghost fs0: Fs, ghost from: nat) returns (r: Result<nat>)
    requires disk.Valid() && disk.locks == {} && Fresh(fs0, path, lockFd, temp, fd) && temp != ""
    requires disk.fs == Staged(fs0, path, lockFd, temp, fd, File([], MODE_0600))
    requires (existed <==> path in fs0.names) && mode == UploadMode(fs0, path)
    requires dataCode != endCode && dataCode != RSP_ERR && endCode != RSP_ERR
    requires TrailSafe(disk.trail, from, fs0, path, Uploaded(fs0, path, ScanStream(sock.incoming, dataCode, endCode)))
    modifies sock`incoming, sock`outgoing, sock`interrupts, disk`fs, disk`trail, disk`interrupts, disk`locks
    ensures disk.Valid() && disk.locks == {} && old(disk.trail) <= disk.trail
    ensures var scan := ScanStream(old(sock.incoming), dataCode, endCode);
      && TrailSafe(disk.trail, from, fs0, path, Uploaded(fs0, path, scan))
      && (r.Ok? ==> scan.ending.Complete? && r.value == |scan.data| && sock.incoming == scan.rest)
      && (r.Ok? ==> Lookup(disk.fs, path) == Uploaded(fs0, path, scan) && SameElsewhere(fs0, disk.fs, path))
      && (r.Err? ==> Restored(fs0, disk.fs, path))
      && (sock.up && disk.reliable && lockFd !in disk.readLocked + disk.writeLocked && scan.ending.Complete? ==> r.Ok?)
      && (sock.up ==> Answered(old(sock.outgoing), sock.outgoing, old(sock.incoming), sock.incoming, scan.rest))
      && (lockFd in disk.readLocked || lockFd in disk.writeLocked ==> r.Err? && sock.outgoing == old(sock.outgoing))
  {
    ghost var scan := ScanStream(sock.incoming, dataCode, endCode);
    ghost var full := Uploaded(fs0, path, scan);
    var ok := disk.AcquireWriteLock(lockFd);
    if !ok {
      FailStaged(disk, path, existed, temp, fd, lockFd, fs0, File([], MODE_0600), from, full, true);
      return Err(EAGAIN);
    }
    var _ := sock.SendPacket(RSP_OK, Bytes(READY));
    ghost var written;
    r, written := StreamToTemp(sock, disk, path, dataCode, endCode, temp, fd, lockFd, fs0, from, full);
    if r.Err? {
      FailStaged(disk, path, existed, temp, fd, lockFd, fs0, File(scan.data[..written], MODE_0600), from, full, true);
      return;
    }
    assert scan.data[..written] == scan.data;
    ok := Conclude(disk, path, existed, mode, temp, fd, lockFd, fs0, scan.data, from);
    if !ok {
      return Err(EOTHER);
    }
  }

  /** After the end frame: the temporary file takes the place of the target, or everything is undone. */
  method Conclude(disk: Disk, path: Path, existed: bool, mode: int, temp: Path, fd: Ino, lockFd: Ino,
                  ghost fs0: Fs, ghost data: seq<byte>, ghost from: nat) returns (ok: bool)
    requires disk.Valid() && Fresh(fs0, path, lockFd, temp, fd) && temp != "" && (existed <==> path in fs0.names)
    requires disk.fs == Staged(fs0, path, lockFd, temp, fd, File(data, MODE_0600)) && disk.locks <= {lockFd}
    requires TrailSafe(disk.trail, from, fs0, path, Some(File(data, mode)))
    modifies disk`fs, disk`trail, disk`locks
    ensures disk.Valid() && disk.locks == {} && old(disk.trail) <= disk.trail
    ensures TrailSafe(disk.trail, from, fs0, path, Some(File(data, mode)))
    ensures disk.reliable ==> ok
    ensures ok ==> Lookup(disk.fs, path) == Some(File(data, mode)) && SameElsewhere(fs0, disk.fs, path)
    ensures !ok ==> Restored(fs0, disk.fs, path)
  {
    ghost var trail1 := disk.trail;
    var open;
    ok, open := PutFile(disk, path, lockFd, temp, fd, mode, fs0, data);
    TrailStaysSafe(trail1, disk.trail, from, fs0, path, Some(File(data, mode)));
    if ok {
      disk.ReleaseLock(lockFd);
      var _ := disk.Close(lockFd);
    } else {
      ghost var m :| disk.fs == Staged(fs0, path, lockFd, temp, fd, File(data, m));
      FailStaged(disk, path, existed, temp, fd, lockFd, fs0, File(data, m), from, Some(File(data, mode)), open);
    }
  }

  method FailStaged(disk: Disk, path: Path, existed: bool, temp: Path, fd: Ino, lockFd: Ino,
                    ghost fs0: Fs, ghost node: Node, ghost from: nat, ghost full: Option<Node>, open: bool)
    requires disk.Valid() && Fresh(fs0, path, lockFd, temp, fd) && temp != "" && (existed <==> path in fs0.names) &&
      node.File?
    requires disk.fs == Staged(fs0, path, lockFd, temp, fd, node) && disk.locks <= {lockFd}
    requires TrailSafe(disk.trail, from, fs0, path, full)
    modifies disk`fs, disk`trail, disk`locks
    ensures disk.Valid() && disk.locks == {} && old(disk.trail) <= disk.trail
    ensures Restored(fs0, disk.fs, path) && TrailSafe(disk.trail, from, fs0, path, full)
  {
    CleanedRestores(fs0, path, lockFd, temp, fd, node);
    ghost var trail1 := disk.trail;
    CleanUp(disk, if open then Some(fd) else None, Some(lockFd), temp, existed, path);
    RestoredIsSafe(fs0, disk.fs, path, full);
    TrailStaysSafe(trail1, disk.trail, from, fs0, path, full);
  }

  // ---------------------------------------------------------------- writes at an offset

  function OldData(fs: Fs, path: Path): seq<byte> {
    if IsFile(fs, path) then fs.nodes[fs.names[path]].data else []
  }

  function OldMode(fs: Fs, path: Path): int {
    if IsFile(fs, path) then fs.nodes[fs.names[path]].mode else MODE_0700
  }

  /** `path` holds its old content overlaid by `data` from `offset` on; everything else is as it was. */
  ghost predicate Patched(fs0: Fs, fs: Fs, path: Path, offset: nat, data: seq<byte>) {
    && Lookup(fs, path) == Some(File(Overlay(OldData(fs0, path), offset, data), OldMode(fs0, path)))
    && (path in fs0.names ==> fs.names == fs0.names)
    && (path !in fs0.names ==>
      path in fs.names && fs.names[path] !in fs0.nodes && fs.names == fs0.names[path := fs.names[path]])
    && forall i :: i in fs0.nodes && i != fs.names[path] ==> i in fs.nodes && fs.nodes[i] == fs0.nodes[i]
  }

  ghost predicate PartlyPatched(fs0: Fs, fs: Fs, path: Path, offset: nat, data: seq<byte>) {
    exists k :: 0 <= k <= |data| && Patched(fs0, fs, path, offset, data[..k])
  }

  /** Nothing stands in the way of a write to `path`. */
  ghost predicate CanWrite(disk: Disk, path: Path)
    reads disk
  {
    disk.reliable && Unlocked(disk, path) && Lookup(disk.fs, path) != Some(Directory)
  }

  lemma PatchedBy(fs0: Fs, fs1: Fs, fs: Fs, path: Path, i: Ino, offset: nat, data: seq<byte>)
    requires Closed(fs0)
    requires if path in fs0.names then fs1 == fs0 && i == fs0.names[path]
             else i !in fs0.nodes && fs1 == CreateFile(fs0, path, i, MODE_0700)
    requires Wrote(fs1, fs, i, offset, data)
    ensures Patched(fs0, fs, path, offset, data)
    ensures path !in fs0.names ==> Remove(fs, path).names == fs0.names
  {
    if path !in fs0.names {
      assert fs0.names[path := i] - {path} == fs0.names;
    }
  }

  /**
    A write at an offset works in place. On success the file is its old content overlaid by
    the received bytes; on failure a file that existed is overlaid by some prefix of them,
    and one that did not is gone again.
  */
  method ReceiveAtOffset(sock: Socket, disk: Disk, path: Path, offset: nat, dataCode: byte,
                         endCode: byte) returns (r: Result<nat>)
    requires disk.Valid() && disk.locks == {}
    requires dataCode != endCode && dataCode != RSP_ERR && endCode != RSP_ERR
    modifies sock`incoming, sock`outgoing, sock`interrupts, disk`fs, disk`trail, disk`nextIno, disk`interrupts,
      disk`locks
    ensures disk.Valid() && disk.locks == {}
    ensures var scan := ScanStream(old(sock.incoming), dataCode, endCode);
      && (r.Ok? ==> scan.ending.Complete? && r.value == |scan.data| && sock.incoming == scan.rest)
      && (r.Ok? ==> Patched(old(disk.fs), disk.fs, path, offset, scan.data))
      && (r.Err? && path in old(disk.fs).names ==>
            disk.fs == old(disk.fs) || PartlyPatched(old(disk.fs), disk.fs, path, offset, scan.data))
      && (r.Err? && path !in old(disk.fs).names ==> disk.fs.names == old(disk.fs).names)
      && (sock.up && disk.reliable ==>
        Answered(old(sock.outgoing), sock.outgoing, old(sock.incoming), sock.incoming, scan.rest))
      && (sock.up && old(CanWrite(disk, path)) && scan.ending.Complete? ==> r.Ok?)
      && (!old(Unlocked(disk, path)) ==> r.Err? && disk.fs == old(disk.fs) && sock.outgoing == old(sock.outgoing))
  {
    ghost var fs0, scan := disk.fs, ScanStream(sock.incoming, dataCode, endCode);
    var existed := path in disk.fs.names;
    var made := disk.OpenCreate(path, MODE_0700);
    if made.Err? {
      CleanUp(disk, None, None, "", existed, path);
      assert !existed ==> fs0.names - {path} == fs0.names;
      return Err(made.errno);
    }
    var fd := made.value;
    ghost var fs1 := disk.fs;
    var ok := disk.AcquireWriteLock(fd);
    if !ok {
      CleanUp(disk, Some(fd), Some(fd), "", existed, path);
      assert !existed ==> fs1.names - {path} == fs0.names;
      return Err(EAGAIN);
    }
    r := ReceiveInPlace(sock, disk, path, offset, dataCode, endCode, existed, fd, fs0);
  }

  /** The locked part of a write at an offset. */
  method ReceiveInPlace(sock: Socket, disk: Disk, path: Path, offset: nat, dataCode: byte, endCode: byte,
                        existed: bool, fd: Ino, ghost fs0: Fs) returns (r: Result<nat>)
    requires disk.Valid() && disk.locks == {fd} && Closed(fs0) && (existed <==> path in fs0.names)
    requires dataCode != endCode && dataCode != RSP_ERR && endCode != RSP_ERR
    requires if existed then disk.fs == fs0 && fd == fs0.names[path] && IsFile(fs0, path)
             else fd !in fs0.nodes && disk.fs == CreateFile(fs0, path, fd, MODE_0700)
    modifies sock`incoming, sock`outgoing, sock`interrupts, disk`fs, disk`trail, disk`interrupts, disk`locks
    ensures disk.Valid() && disk.locks == {}
    ensures var scan := ScanStream(old(sock.incoming), dataCode, endCode);
      && (r.Ok? ==> scan.ending.Complete? && r.value == |scan.data| && sock.incoming == scan.rest)
      && (r.Ok? ==> Patched(fs0, disk.fs, path, offset, scan.data))
      && (r.Err? && existed ==> PartlyPatched(fs0, disk.fs, path, offset, scan.data))
      && (r.Err? && !existed ==> disk.fs.names == fs0.names)
      && (sock.up && disk.reliable ==>
        Answered(old(sock.outgoing), sock.outgoing, old(sock.incoming), sock.incoming, scan.rest))
      && (sock.up && disk.reliable && scan.ending.Complete? ==> r.Ok?)
  {
    ghost var scan := ScanStream(sock.incoming, dataCode, endCode);
    var _ := sock.SendPacket(RSP_OK, Bytes(READY));
    ghost var written;
    r, written := StreamInPlace(sock, disk, path, offset, dataCode, endCode, existed, fd, fs0);
    PartOfPatch(fs0, disk.fs, path, offset, scan.data, written);
    EndInPlace(disk, path, existed, fd, r.Err?, fs0);
    assert r.Ok? ==> scan.data[..written] == scan.data;
  }

  /** The end of a write in place: the lock goes, and after a failure a file that was absent before. */
  method EndInPlace(disk: Disk, path: Path, existed: bool, fd: Ino, failed: bool, ghost fs0: Fs)
    requires disk.Valid() && disk.locks == {fd} && (!existed ==> Remove(disk.fs, path).names == fs0.names)
    modifies disk`fs, disk`trail, disk`locks
    ensures disk.Valid() && disk.locks == {}
    ensures !failed || existed ==> disk.fs == old(disk.fs)
    ensures failed && !existed ==> disk.fs.names == fs0.names
  {
    if failed {
      CleanUp(disk, Some(fd), Some(fd), "", existed, path);
    } else {
      disk.ReleaseLock(fd);
      var _ := disk.Close(fd);
    }
  }

  lemma PartOfPatch(fs0: Fs, fs: Fs, path: Path, offset: nat, data: seq<byte>, k: nat)
    requires k <= |data| && Patched(fs0, fs, path, offset, data[..k])
    ensures PartlyPatched(fs0, fs, path, offset, data)
  {
  }

  method StreamInPlace(sock: Socket, disk: Disk, path: Path, offset: nat, dataCode: byte, endCode: byte,
                       existed: bool, fd: Ino, ghost fs0: Fs) returns (r: Result<nat>, ghost written: nat)
    requires disk.Valid() && Closed(fs0) && (existed <==> path in fs0.names)
    requires dataCode != endCode && dataCode != RSP_ERR && endCode != RSP_ERR
    requires if existed then disk.fs == fs0 && fd == fs0.names[path] && IsFile(fs0, path)
             else fd !in fs0.nodes && disk.fs == CreateFile(fs0, path, fd, MODE_0700)
    modifies sock`incoming, sock`interrupts, disk`fs, disk`trail, disk`interrupts
    ensures disk.Valid()
    ensures var scan := ScanStream(old(sock.incoming), dataCode, endCode);
      && written <= |scan.data|
      && Patched(fs0, disk.fs, path, offset, scan.data[..written])
      && (!existed ==> Remove(disk.fs, path).names == fs0.names)
      && (r.Ok? ==> scan.ending.Complete? && written == r.value == |scan.data| && sock.incoming == scan.rest)
      && (sock.up && disk.reliable ==> sock.incoming == scan.rest)
      && (sock.up && disk.reliable && scan.ending.Complete? ==> r.Ok?)
  {
    ghost var fs1, scan := disk.fs, ScanStream(sock.incoming, dataCode, endCode);
    var f := new OpenFile(fd);
    r, written := RecvStream(sock, disk, f, offset, -1, dataCode, endCode);
    PatchedBy(fs0, fs1, disk.fs, path, fd, offset, scan.data[..written]);
  }

  /** receive_into_file: without an offset through a temporary file, else in place. */
  method ReceiveIntoFile(sock: Socket, disk: Disk, target: Target) returns (r: Result<nat>, ghost unnamed: bool)
    requires disk.Valid() && disk.locks == {} && (target.offset < 0 ==> !PicksTarget(disk, target.path))
    requires target.dataCode != target.endCode && target.dataCode != RSP_ERR && target.endCode != RSP_ERR
    modifies sock`incoming, sock`outgoing, sock`interrupts, disk`fs, disk`trail, disk`nextIno, disk`interrupts,
      disk`locks
    ensures disk.Valid() && disk.locks == {}
    ensures var scan := ScanStream(old(sock.incoming), target.dataCode, target.endCode);
      && (r.Ok? ==> scan.ending.Complete? && r.value == |scan.data| && sock.incoming == scan.rest)
      && (r.Ok? && target.offset < 0 ==> Replaced(old(disk.fs), disk.fs, target.path, scan.data))
      && (r.Ok? && target.offset >= 0 ==> Patched(old(disk.fs), disk.fs, target.path, target.offset, scan.data))
      && (r.Err? && target.offset < 0 ==>
            (Restored(old(disk.fs), disk.fs, target.path) <==> !(unnamed && old(SpoilsTarget(disk, target.path)))))
      && (r.Err? && target.path !in old(disk.fs).names ==> target.path !in disk.fs.names)
      && (sock.up && disk.reliable ==>
        Answered(old(sock.outgoing), sock.outgoing, old(sock.incoming), sock.incoming, scan.rest))
  {
    unnamed := false;
    if target.offset >= 0 {
      r := ReceiveAtOffset(sock, disk, target.path, target.offset, target.dataCode, target.endCode);
    } else {
      r, unnamed := ReceiveViaTemp(sock, disk, target.path, target.dataCode, target.endCode);
    }
  }

  // ---------------------------------------------------------------- downloads

  function SizeFrame(n: nat): (f: Frame)
    requires |Decimal.Print(n)| <= MAX_PAYLOAD_SIZE
    ensures Sendable(f)
  {
    Frame(RSP_OK, Bytes(Decimal.Print(n)))
  }

  /** The text of a size that fits 64 bits fits the 32-byte buffer of send_file. */
  lemma {:induction false} SizeTextIsShort(n: nat, digits: nat)
    requires digits >= 1 && n < Power10(digits)
    ensures |Decimal.Print(n)| <= digits
  {
    if n >= 10 {
      SizeTextIsShort(n / 10, digits - 1);
    }
  }

  function Power10(k: nat): nat {
    if k == 0 then 1 else 10 * Power10(k - 1)
  }

  const FILE_LIMIT: nat := 0x7FFF_FFFF_FFFF_FFFF // off_t

  lemma SizeFits(n: nat)
    requires n <= FILE_LIMIT
    ensures |Decimal.Print(n)| < 32
  {
    assert Power10(19) == 10 * Power10(18) && Power10(18) == 1_000_000_000_000_000_000 by {
      assert Power10(9) == 1_000_000_000;
      PowerSum(9, 9);
    }
    SizeTextIsShort(n, 19);
  }

  lemma {:induction false} PowerSum(a: nat, b: nat)
    ensures Power10(a + b) == Power10(a) * Power10(b)
  {
    if a > 0 {
      PowerSum(a - 1, b);
    }
  }

  /**
    send_file: the announced size and the streamed bytes are the content of the file from the
    offset on, which is empty behind its end.
  */
  method SendFile(sock: Socket, disk: Disk, path: Path, offset: int, dataCode: byte, endCode: byte)
    returns (r: Result<nat>, ghost frames: seq<Frame>, ghost data: seq<byte>)
    requires disk.Valid() && disk.locks == {} && |OldData(disk.fs, path)| <= FILE_LIMIT
    modifies sock`outgoing, sock`interrupts, disk`interrupts, disk`locks
    ensures disk.Valid() && disk.fs == old(disk.fs) && disk.locks == {}
    ensures var whole := From(OldData(disk.fs, path), Max(offset, 0));
      && Carries(frames, data, dataCode) && data <= whole && |Decimal.Print(|whole|)| <= MAX_PAYLOAD_SIZE
      && (r.Ok? ==> IsFile(disk.fs, path) && data == whole && r.value == |whole|)
      && (r.Ok? && sock.up ==>
            Delivered(old(sock.outgoing), sock.outgoing, [SizeFrame(|whole|)] + (frames + [Frame(endCode, [])])))
      && (r.Err? && sock.up ==> Refused(old(sock.outgoing), sock.outgoing, [SizeFrame(|whole|)] + frames))
      && (sock.up && disk.reliable && IsFile(disk.fs, path) && disk.fs.names[path] !in disk.writeLocked ==> r.Ok?)
      && (path in disk.fs.names && disk.fs.names[path] in disk.writeLocked ==>
        r.Err? && sock.outgoing == old(sock.outgoing))
  {
    frames, data := [], [];
    SizeFits(|From(OldData(disk.fs, path), Max(offset, 0))|);
    var fd := disk.OpenRead(path);
    if fd.Err? {
      return Err(fd.errno), [], [];
    }
    var ok := disk.AcquireReadLock(fd.value);
    if !ok {
      var _ := disk.Close(fd.value);
      return Err(EAGAIN), [], [];
    }
    if disk.fs.nodes[fd.value].Directory? {
      disk.ReleaseLock(fd.value);
      var _ := disk.Close(fd.value);
      return Err(EISDIR), [], [];
    }
    r, frames, data := SendAnnounced(sock, disk, fd.value, offset, dataCode, endCode);
    disk.ReleaseLock(fd.value);
    var _ := disk.Close(fd.value);
  }

  /** Announces the size of an open, locked file and streams it. */
  method SendAnnounced(sock: Socket, disk: Disk, fd: Ino, offset: int, dataCode: byte, endCode: byte)
    returns (r: Result<nat>, ghost frames: seq<Frame>, ghost data: seq<byte>)
    requires disk.Valid() && fd in disk.fs.nodes && disk.fs.nodes[fd].File? && |disk.fs.nodes[fd].data| <= FILE_LIMIT
    modifies sock`outgoing, sock`interrupts, disk`interrupts
    ensures disk.Valid() && disk.fs == old(disk.fs)
    ensures var whole := From(disk.fs.nodes[fd].data, Max(offset, 0));
      && Carries(frames, data, dataCode) && data <= whole && |Decimal.Print(|whole|)| <= MAX_PAYLOAD_SIZE
      && (r.Ok? ==> data == whole && r.value == |whole|)
      && (r.Ok? && sock.up ==>
            Delivered(old(sock.outgoing), sock.outgoing, [SizeFrame(|whole|)] + (frames + [Frame(endCode, [])])))
      && (r.Err? && sock.up ==> Delivered(old(sock.outgoing), sock.outgoing, [SizeFrame(|whole|)] + frames))
      && (sock.up && disk.reliable ==> r.Ok?)
  {
    hide Delivered, Carries, Encode, Bytes, Decimal.Print;
    var size := |disk.fs.nodes[fd].data|;
    var toSend := if Max(offset, 0) >= size then 0 else size - Max(offset, 0);
    SizeFits(toSend);
    var _ := sock.SendPacket(RSP_OK, Bytes(Decimal.Print(toSend)));
    ghost var announced := sock.outgoing;
    if sock.up {
      OneDelivered(old(sock.outgoing), announced, SizeFrame(toSend));
    }
    var f := new OpenFile(fd);
    r, frames, data := SendStream(sock, disk, f, offset, dataCode, endCode);
    if sock.up {
      DeliveredAll(old(sock.outgoing), announced, sock.outgoing, [SizeFrame(toSend)],
        if r.Ok? then frames + [Frame(endCode, [])] else frames);
    }
  }

  lemma OneDelivered(before: seq<byte>, after: seq<byte>, f: Frame)
    requires Sendable(f) && after == before + Encode(f)
    ensures Delivered(before, after, [f])
  {
    assert [f][1..] == [];
    assert EncodeAll([f]) == Encode(f) + EncodeAll([]);
  }

  /** Nothing was sent, or the stream stopped short of its end frame. */
  ghost predicate Refused(before: seq<byte>, after: seq<byte>, fs: seq<Frame>) {
    after == before || Delivered(before, after, fs)
  }

  lemma {:induction false} DeliveredAll(before: seq<byte>, mid: seq<byte>, after: seq<byte>, fs: seq<Frame>,
    gs: seq<Frame>)
    requires Delivered(before, mid, fs) && Delivered(mid, after, gs)
    ensures Delivered(before, after, fs + gs)
    decreases |gs|
  {
    if gs == [] {
      assert fs + gs == fs;
      assert EncodeAll([]) == [];
    } else {
      var next := mid + Encode(gs[0]);
      DeliveredMore(before, mid, next, fs, gs[0]);
      assert after == next + EncodeAll(gs[1..]);
      DeliveredAll(before, next, after, fs + [gs[0]], gs[1..]);
      assert fs + [gs[0]] + gs[1..] == fs + gs;
    }
  }

  /**
    The client's side of a download: behind the size the stream scans to the announced number
    of bytes, so the expected_total check of recv_stream never fires.
  */
  lemma DownloadArrives(frames: seq<Frame>, data: seq<byte>, dataCode: byte, endCode: byte, rest: seq<byte>)
    requires Carries(frames, data, dataCode) && dataCode != endCode && dataCode != RSP_ERR && endCode != RSP_ERR
    requires |data| <= FILE_LIMIT
    ensures forall f :: f in frames ==> Sendable(f)
    ensures |Decimal.Print(|data|)| <= MAX_PAYLOAD_SIZE
    ensures Decimal.ParseLong(Text(SizeFrame(|data|).payload)) == Some(|data|)
    ensures Decode(Encode(SizeFrame(|data|)) + rest, MAX_PAYLOAD_SIZE) == Got(SizeFrame(|data|), rest)
    ensures ScanStream(EncodeAll(frames) + Encode(Frame(endCode, [])) + rest, dataCode, endCode)
      == Scan(data, Complete, rest)
  {
    SizeFits(|data|);
    Decimal.ParsePrinted(|data|);
    assert Text(Bytes(Decimal.Print(|data|))) == Decimal.Print(|data|);
    DecodeEncode(SizeFrame(|data|), rest, MAX_PAYLOAD_SIZE);
    StreamRoundTrip(frames, data, dataCode, Frame(endCode, []), endCode, rest);
  }

  // ---------------------------------------------------------------- copies for accepted requests

  const COPY_BUFFER: nat := 4096

  /** The file system while a fresh file grows at `di`. */
  ghost predicate CopyState(fs0: Fs, fs: Fs, dst: Path, di: Ino, data: seq<byte>) {
    && dst !in fs0.names && di !in fs0.nodes
    && fs == Fs(fs0.names[dst := di], fs0.nodes[di := File(data, 384)]) // 0600
  }

  /** The copy loop: read a block, write all of it. */
  method CopyBlocks(disk: Disk, src: OpenFile, dst: OpenFile, ghost fs0: Fs, ghost path: Path)
    returns (readFailed: bool, writeFailed: bool)
    requires disk.Valid() && src.ino in fs0.nodes && fs0.nodes[src.ino].File? && src != dst && src.pos == dst.pos == 0
    requires Closed(fs0) && CopyState(fs0, disk.fs, path, dst.ino, [])
    modifies disk`fs, disk`trail, disk`interrupts, src`pos, dst`pos
    ensures disk.Valid()
    ensures exists k ::
      0 <= k <= |fs0.nodes[src.ino].data| && CopyState(fs0, disk.fs, path, dst.ino, fs0.nodes[src.ino].data[..k])
    ensures !readFailed && !writeFailed ==> CopyState(fs0, disk.fs, path, dst.ino, fs0.nodes[src.ino].data)
    ensures disk.reliable ==> !readFailed && !writeFailed
  {
    readFailed, writeFailed := false, false;
    ghost var file, fs1 := fs0.nodes[src.ino].data, disk.fs;
    var eof := false;
    assert file[..0] == [];
    while !eof
      invariant disk.Valid() && src.pos <= |file| && dst.pos == src.pos
      invariant CopyState(fs0, disk.fs, path, dst.ino, file[..src.pos])
      invariant eof ==> src.pos == |file|
      decreases !eof, |file| - src.pos, disk.interrupts
    {
      ghost var done := src.pos;
      var a, block := disk.Read(src, COPY_BUFFER);
      if a.Failed? {
        return true, false;
      }
      if a.Moved? {
        if a.n == 0 {
          eof := true;
        } else {
          var ok, k := WriteAll(disk, dst, block);
          CopyGrows(fs0, file, done, block, k);
          if !ok {
            return false, true;
          }
        }
      }
    }
    assert file[..|file|] == file;
  }

  /** Appending a piece of the source to the prefix copied so far. */
  lemma CopyGrows(fs0: Fs, file: seq<byte>, done: nat, block: seq<byte>, k: nat)
    requires done + |block| <= |file| && block == file[done..done + |block|] && k <= |block|
    ensures Overlay(file[..done], done, block[..k]) == file[..done + k]
  {
  }

  /**
    execute_transfer_copy. An existing destination is never changed. Success leaves the bytes
    the source had under its read lock; a read or write failure removes the file this call
    created; only a refused lock leaves it behind, empty.
  */
  method ExecuteTransferCopy(disk: Disk, srcPath: Path, dstPath: Path) returns (r: Result<()>, ghost lockRefused: bool)
    requires disk.Valid() && disk.locks == {}
    modifies disk`fs, disk`trail, disk`nextIno, disk`interrupts, disk`locks
    ensures disk.Valid() && disk.locks == {}
    ensures r.Ok? ==> IsFile(old(disk.fs), srcPath) && dstPath !in old(disk.fs).names && dstPath in disk.fs.names
    ensures r.Ok? ==> CopyState(old(disk.fs), disk.fs, dstPath, disk.fs.names[dstPath], OldData(old(disk.fs), srcPath))
    ensures dstPath in old(disk.fs).names ==> r.Err? && disk.fs == old(disk.fs)
    ensures r.Err? && !lockRefused ==> disk.fs.names == old(disk.fs).names
    ensures lockRefused ==> r == Err(EAGAIN) && dstPath !in old(disk.fs).names && dstPath in disk.fs.names
    ensures lockRefused ==> CopyState(old(disk.fs), disk.fs, dstPath, disk.fs.names[dstPath], [])
    ensures forall i :: i in old(disk.fs).nodes ==> i in disk.fs.nodes && disk.fs.nodes[i] == old(disk.fs).nodes[i]
    ensures disk.reliable && IsFile(old(disk.fs), srcPath) && dstPath !in old(disk.fs).names ==>
      (r.Ok? <==> old(disk.fs).names[srcPath] !in disk.writeLocked) && (lockRefused <==> r.Err?)
  {
    lockRefused := false;
    ghost var fs0 := disk.fs;
    var src := disk.OpenRead(srcPath);
    if src.Err? {
      return Err(src.errno), false;
    }
    if disk.fs.nodes[src.value].Directory? {
      var _ := disk.Close(src.value);
      return Err(EINVAL), false;
    }
    var dst := disk.OpenExclusive(dstPath, MODE_0600);
    if dst.Err? {
      var _ := disk.Close(src.value);
      return Err(dst.errno), false;
    }
    r, lockRefused := CopyLocked(disk, src.value, dst.value, dstPath, fs0);
    assert r.Ok? ==> fs0.nodes[src.value].data == OldData(fs0, srcPath);
  }

  /** The copy once both files are open: lock, copy, or clean up. */
  method CopyLocked(disk: Disk, src: Ino, dst: Ino, dstPath: Path, ghost fs0: Fs)
    returns (r: Result<()>, ghost lockRefused: bool)
    requires disk.Valid() && disk.locks == {} && Closed(fs0) && src in fs0.nodes && fs0.nodes[src].File?
    requires dstPath !in fs0.names && dst !in fs0.nodes && disk.fs == CreateFile(fs0, dstPath, dst, MODE_0600)
    requires dst !in disk.readLocked && dst !in disk.writeLocked
    modifies disk`fs, disk`trail, disk`nextIno, disk`interrupts, disk`locks
    ensures disk.Valid() && disk.locks == {}
    ensures r.Ok? ==> CopyState(fs0, disk.fs, dstPath, dst, fs0.nodes[src].data)
    ensures r.Err? && !lockRefused ==> disk.fs.names == fs0.names
    ensures lockRefused ==> r == Err(EAGAIN) && CopyState(fs0, disk.fs, dstPath, dst, [])
    ensures forall i :: i in fs0.nodes ==> i in disk.fs.nodes && disk.fs.nodes[i] == fs0.nodes[i]
    ensures disk.reliable ==> (r.Ok? <==> src !in disk.writeLocked) && (lockRefused <==> r.Err?)
  {
    lockRefused := false;
    var ok := disk.AcquireReadLock(src);
    if !ok {
      var _ := disk.Close(src);
      var _ := disk.Close(dst);
      return Err(EAGAIN), true;
    }
    ok := disk.AcquireWriteLock(dst);
    if !ok {
      disk.ReleaseLock(src);
      var _ := disk.Close(src);
      var _ := disk.Close(dst);
      return Err(EAGAIN), true;
    }
    r := CopyAndClose(disk, src, dst, dstPath, fs0);
  }

  /** The copy under both locks. */
  method CopyAndClose(disk: Disk, src: Ino, dst: Ino, dstPath: Path, ghost fs0: Fs) returns (r: Result<()>)
    requires disk.Valid() && disk.locks <= {src, dst} && Closed(fs0) && src in fs0.nodes && fs0.nodes[src].File?
    requires CopyState(fs0, disk.fs, dstPath, dst, [])
    modifies disk`fs, disk`trail, disk`interrupts, disk`locks
    ensures disk.Valid() && disk.locks == {}
    ensures r.Ok? ==> CopyState(fs0, disk.fs, dstPath, dst, fs0.nodes[src].data)
    ensures r.Err? ==> disk.fs.names == fs0.names
    ensures forall i :: i in fs0.nodes ==> i in disk.fs.nodes && disk.fs.nodes[i] == fs0.nodes[i]
    ensures disk.reliable ==> r.Ok?
  {
    var from := new OpenFile(src);
    var to := new OpenFile(dst);
    var readFailed, writeFailed := CopyBlocks(disk, from, to, fs0, dstPath);
    disk.ReleaseLock(src);
    disk.ReleaseLock(dst);
    var _ := disk.Close(src);
    var _ := disk.Close(dst);
    if readFailed || writeFailed {
      disk.UnlinkFile(dstPath);
      assert fs0.names[dstPath := dst] - {dstPath} == fs0.names;
      return Err(EIO);
    }
    r := Ok(());
  }
}
