/**
  Every system call of every command keeps the invariant, so every run does.

  There is one lemma for each system call, in the order in which transfer.c and main-server.c make
  them: downloads, uploads, writes at an offset, transfer copies, moves, deletions. Each names the
  change to locks and files, which ProcessInvariants has shown to be discreet, and the job the
  process has afterwards; `MovesOn` does the rest. Where a call moves data, what the step is (apart
  from the invariant) is stated first, with the content of the file afterwards as a value of its
  own, so that the proof about the invariant need not look into the overlay. `RunKeepsInv` puts
  the calls together for any number of processes and any scheduling.
*/
module ProcessSteps {
  import opened Core
  import opened Posix
  import opened Processes
  import opened ProcessInvariants

  lemma JobHolds(s: State, p: Pid)
    requires Inv(s) && p in s.jobs
    ensures JobInv(s, p, s.jobs[p])
  {
  }

  lemma NextInoIsNew(s: State)
    requires Inv(s)
    ensures s.nextIno !in s.fs.nodes && s.nextIno !in s.origin
  {
  }

  lemma OpenedIsPublic(s: State, path: Path)
    requires Inv(s) && IsFile(s.fs, path) && !Temporary(path)
    ensures Public(s, s.fs.names[path])
  {
  }

  lemma BeginKeeps(s: State, p: Pid, c: Command)
    requires Inv(s) && p in s.jobs && s.jobs[p].Idle? && Admissible(c)
    ensures Inv(BeginStep(s, p, c))
  {
    hide Inv, World, Discreet;
    match c
    case Upload(path, source) => BeginUploadKeeps(s, p, path, source);
    case Write(path, offset) =>
      NothingChanges(s, p);
      MovesOn(s, s, p, WrStart(path, path in s.fs.names, offset));
    case Create(path) =>
      ReplyKeeps(s, p, Replies(false));
      if path !in s.fs.names {
        NewFileIsDiscreet(s, p, path, Blank);
        MovesOn(s, NewFile(s, path, Blank), p, Replies(true));
      }
    case _ => BeginOpenKeeps(s, p, c);
  }

  /** Commands on a file that has to be there. */
  lemma BeginOpenKeeps(s: State, p: Pid, c: Command)
    requires Inv(s) && p in s.jobs && s.jobs[p].Idle? && Admissible(c)
    requires c.Download? || c.Copy? || c.Move? || c.Delete?
    ensures Inv(BeginStep(s, p, c))
  {
    hide Inv, World, Discreet;
    ReplyKeeps(s, p, Replies(false));
    if IsFile(s.fs, c.path) {
      OpenedIsPublic(s, c.path);
      NothingChanges(s, p);
      var i := s.fs.names[c.path];
      match c
      case Download(_, offset) => MovesOn(s, s, p, DlOpen(i, offset));
      case Copy(_, dst) => MovesOn(s, s, p, CpSource(i, dst));
      case Move(path, to, into) => MovesOn(s, s, p, MvOpen(path, to, i, into));
      case Delete(path) => MovesOn(s, s, p, RmOpen(path, i));
      case _ =>
    }
  }

  lemma BeginUploadKeeps(s: State, p: Pid, path: Path, source: seq<byte>)
    requires Inv(s) && p in s.jobs && s.jobs[p].Idle? && !Temporary(path)
    ensures Inv(BeginStep(s, p, Upload(path, source)))
  {
    hide JobInv, Private;
    var s1 := s.(uploads := s.uploads + [source]);
    var u := Up(path, source, |s.uploads|, path in s.fs.names);
    forall i | i in s.origin ensures Holds(s1.origin[i], Data(s1, i), s1.uploads) && !FromUpload(s.origin[i], u.id) {
      assert Holds(s.origin[i], Data(s, i), s.uploads);
    }
    forall q | q in s.jobs ensures Undisturbed(s, s1, q, s.jobs[q]) {
    }
    NewNumber(s, p, s1, u);
  }

  lemma NewNumber(s: State, p: Pid, s1: State, u: Up)
    requires Inv(s) && p in s.jobs && s.jobs[p].Idle? && World(s1) && s1.jobs == s.jobs
    requires u.id == |s.uploads| && Numbered(s1, u)
    requires forall q :: q in s.jobs ==> Undisturbed(s, s1, q, s.jobs[q])
    ensures Inv(Become(s1, p, UpStart(u)))
  {
    hide JobInv, Undisturbed;
    var s' := Become(s1, p, UpStart(u));
    forall q | q in s'.jobs ensures JobInv(s', q, s'.jobs[q]) {
      NumberedJobs(s, s1, s', p, u, q);
    }
    forall q | q in s.jobs ensures UploadOf(s.jobs[q]) != Some(u.id) {
      OldNumber(s, q, s.jobs[q]);
    }
  }

  lemma NumberedJobs(s: State, s1: State, s': State, p: Pid, u: Up, q: Pid)
    requires JobsInv(s) && Numbered(s1, u) && s1.jobs == s.jobs && s' == Become(s1, p, UpStart(u)) && q in s'.jobs
    requires q in s.jobs ==> Undisturbed(s, s1, q, s.jobs[q])
    ensures JobInv(s', q, s'.jobs[q])
  {
    if q != p {
      JobFrame(s, s1, q, s.jobs[q]);
      JobsDoNotMatter(s1, s', q, s.jobs[q]);
    }
  }

  lemma OldNumber(s: State, q: Pid, j: Job)
    requires JobInv(s, q, j)
    ensures UploadOf(j).Some? ==> UploadOf(j).value < |s.uploads|
  {
  }

  // ---------------------------------------------------------------- closing

  lemma CloseKeeps(s: State, p: Pid, i: Ino, ok: bool)
    requires Inv(s) && p in s.jobs
    ensures Inv(Become(Close(s, p, i), p, Replies(ok)))
  {
    hide Inv, World, Discreet;
    CloseIsDiscreet(s, p, i);
    MovesOn(s, Close(s, p, i), p, Replies(ok));
  }

  lemma CloseBothKeeps(s: State, p: Pid, i: Ino, k: Option<Ino>, ok: bool)
    requires Inv(s) && p in s.jobs
    ensures Inv(Become(CloseBoth(s, p, i, k), p, Replies(ok)))
  {
    hide Inv, World, Discreet;
    CloseBothIsDiscreet(s, p, i, k);
    MovesOn(s, CloseBoth(s, p, i, k), p, Replies(ok));
  }

  lemma ReplyKeeps(s: State, p: Pid, j: Job)
    requires Inv(s) && p in s.jobs && (j.Idle? || j.Replies?)
    ensures Inv(Become(s, p, j))
  {
    hide Inv, World, Discreet;
    NothingChanges(s, p);
    MovesOn(s, s, p, j);
  }

  // ---------------------------------------------------------------- downloads

  lemma DownloadLockKeeps(s: State, p: Pid, ok: bool)
    requires Inv(s) && p in s.jobs && s.jobs[p].DlOpen?
    ensures Inv(DownloadStep(s, p, s.jobs[p], ok, 0))
  {
    hide Inv, World, Discreet;
    var j := s.jobs[p];
    JobHolds(s, p);
    CloseKeeps(s, p, j.i, false);
    if ok && CanRead(s, p, j.i) {
      LockReadIsDiscreet(s, p, j.i);
      MovesOn(s, LockRead(s, p, j.i), p, DlLocked(j.i, j.offset, Data(s, j.i)));
    }
  }

  lemma DownloadAnnounceKeeps(s: State, p: Pid, ok: bool)
    requires Inv(s) && p in s.jobs && s.jobs[p].DlLocked?
    ensures Inv(DownloadStep(s, p, s.jobs[p], ok, 0))
  {
    hide Inv, World, Discreet;
    var j := s.jobs[p];
    JobHolds(s, p);
    if ok {
      var next := DlSending(j.i, j.offset, j.snap, |From(j.snap, j.offset)|, []);
      assert DownloadStep(s, p, j, ok, 0) == Become(s, p, next);
      NothingChanges(s, p);
      MovesOn(s, s, p, next);
    } else {
      CloseKeeps(s, p, j.i, false);
    }
  }

  lemma DownloadChunkKeeps(s: State, p: Pid, ok: bool, n: nat)
    requires Inv(s) && p in s.jobs && s.jobs[p].DlSending?
    ensures Inv(DownloadStep(s, p, s.jobs[p], ok, n))
  {
    hide Inv, World, Discreet;
    var j := s.jobs[p];
    JobHolds(s, p);
    var pos := j.offset + |j.sent|;
    if !ok {
      CloseKeeps(s, p, j.i, false);
    } else if pos >= |j.snap| {
      var next := DlDone(j.i, j.offset, j.snap, j.announced, j.sent);
      assert DownloadStep(s, p, j, ok, n) == Become(s, p, next);
      NothingChanges(s, p);
      MovesOn(s, s, p, next);
    } else {
      var len := ChunkLength(n, |j.snap| - pos);
      var next := DlSending(j.i, j.offset, j.snap, j.announced, j.sent + j.snap[pos..pos + len]);
      assert DownloadStep(s, p, j, ok, n) == Become(s, p, next);
      assert next.sent <= From(j.snap, j.offset);
      NothingChanges(s, p);
      MovesOn(s, s, p, next);
    }
  }

  lemma DownloadKeeps(s: State, p: Pid, ok: bool, n: nat)
    requires Inv(s) && p in s.jobs
    requires s.jobs[p].DlOpen? || s.jobs[p].DlLocked? || s.jobs[p].DlSending? || s.jobs[p].DlDone?
    ensures Inv(DownloadStep(s, p, s.jobs[p], ok, n))
  {
    hide Inv, World, Discreet;
    match s.jobs[p]
    case DlOpen(_, _) => DownloadLockKeeps(s, p, ok);
    case DlLocked(_, _, _) => DownloadAnnounceKeeps(s, p, ok);
    case DlSending(_, _, _, _, _) => DownloadChunkKeeps(s, p, ok, n);
    case DlDone(i, _, _, _, _) => CloseKeeps(s, p, i, true);
  }

  // ---------------------------------------------------------------- uploads

  lemma UploadStartKeeps(s: State, p: Pid, ok: bool, name: Path)
    requires Inv(s) && p in s.jobs && s.jobs[p].UpStart?
    ensures Inv(UploadStep(s, p, s.jobs[p], ok, 0, name))
  {
    hide Inv, World, Discreet;
    var u := s.jobs[p].u;
    JobHolds(s, p);
    if ok && Temporary(name) && name !in s.fs.names {
      NewFileIsDiscreet(s, p, name, Partial(p, u.id));
      MovesOn(s, NewFile(s, name, Partial(p, u.id)), p, UpTemp(u, name, s.nextIno));
    } else {
      NothingChanges(s, p);
      MovesOn(s, s, p, if u.existed then Replies(false) else UpUndoTarget(u.path));
    }
  }

  lemma UploadOpenKeeps(s: State, p: Pid, ok: bool)
    requires Inv(s) && p in s.jobs && s.jobs[p].UpTemp?
    ensures Inv(UploadStep(s, p, s.jobs[p], ok, 0, ""))
  {
    hide Inv, World, Discreet;
    var j := s.jobs[p];
    JobHolds(s, p);
    NothingChanges(s, p);
    if !ok || (j.u.path in s.fs.names && !IsFile(s.fs, j.u.path)) {
      MovesOn(s, s, p, UpUndoTemp(j.u, j.t, j.ti));
    } else if j.u.path in s.fs.names {
      OpenedIsPublic(s, j.u.path);
      MovesOn(s, s, p, UpOpen(j.u, j.t, j.ti, s.fs.names[j.u.path]));
    } else {
      NextInoIsNew(s);
      NewFileIsDiscreet(s, p, j.u.path, Blank);
      MovesOn(s, NewFile(s, j.u.path, Blank), p, UpOpen(j.u, j.t, j.ti, s.nextIno));
    }
  }

  lemma UploadLockKeeps(s: State, p: Pid, ok: bool)
    requires Inv(s) && p in s.jobs && s.jobs[p].UpOpen?
    ensures Inv(UploadStep(s, p, s.jobs[p], ok, 0, ""))
  {
    hide Inv, World, Discreet;
    var j := s.jobs[p];
    JobHolds(s, p);
    if ok && CanWrite(s, p, j.li) {
      LockWriteIsDiscreet(s, p, j.li);
      assert Private(LockWrite(s, p, j.li), p, j.u, j.t, j.ti, 0);
      MovesOn(s, LockWrite(s, p, j.li), p, UpLocked(j.u, j.t, j.ti, j.li, 0));
    } else {
      UploadGivesUp(s, p, j.u, j.t, j.ti, j.li, 0);
    }
  }

  lemma UploadGivesUp(s: State, p: Pid, u: Up, t: Path, ti: Ino, li: Ino, got: nat)
    requires Inv(s) && p in s.jobs && Private(s, p, u, t, ti, got) && UploadOf(s.jobs[p]) == Some(u.id)
    ensures Inv(Become(Close(s, p, li), p, UpUndoTemp(u, t, ti)))
  {
    hide Inv, World, Discreet;
    CloseIsDiscreet(s, p, li);
    assert Private(Close(s, p, li), p, u, t, ti, got);
    MovesOn(s, Close(s, p, li), p, UpUndoTemp(u, t, ti));
  }

  /** Writing the next piece of an upload to its temporary file. */
  lemma UploadStores(s: State, p: Pid, u: Up, t: Path, ti: Ino, li: Ino, got: nat, more: nat, data: seq<byte>)
    requires Inv(s) && p in s.jobs && s.jobs[p] == UpLocked(u, t, ti, li, got)
    requires more <= |u.source| && data == u.source[..more]
    ensures Inv(Become(Store(s, ti, data, Partial(p, u.id)), p, UpLocked(u, t, ti, li, more)))
  {
    hide Inv, World, Discreet;
    JobHolds(s, p);
    StoreIsDiscreet(s, p, ti, data, Partial(p, u.id));
    var s1 := Store(s, ti, data, Partial(p, u.id));
    assert Private(s1, p, u, t, ti, more);
    assert li != ti && Public(s1, li);
    MovesOn(s, s1, p, UpLocked(u, t, ti, li, more));
  }

  lemma UploadEnds(s: State, p: Pid, u: Up, t: Path, ti: Ino, li: Ino, got: nat)
    requires Inv(s) && p in s.jobs && s.jobs[p] == UpLocked(u, t, ti, li, got) && got >= |u.source|
    ensures Inv(Become(s, p, UpReady(u, t, ti, li)))
  {
    hide Inv, World, Discreet;
    JobHolds(s, p);
    NothingChanges(s, p);
    MovesOn(s, s, p, UpReady(u, t, ti, li));
  }

  /** What the step is, apart from the invariant; `data` is what the temporary file then holds. */
  lemma UploadChunkStep(s: State, p: Pid, u: Up, t: Path, ti: Ino, li: Ino, got: nat, n: nat)
    returns (data: seq<byte>, more: nat)
    ensures got < |u.source| ==> more <= |u.source|
    ensures got < |u.source| && Data(s, ti) == u.source[..got] ==> data == u.source[..more]
    ensures UploadStep(s, p, UpLocked(u, t, ti, li, got), true, n, "") ==
      if got >= |u.source| then Become(s, p, UpReady(u, t, ti, li))
      else Become(Store(s, ti, data, Partial(p, u.id)), p, UpLocked(u, t, ti, li, more))
  {
    data, more := [], got;
    if got < |u.source| {
      more := got + ChunkLength(n, |u.source| - got);
      data := Overlay(Data(s, ti), got, u.source[got..more]);
    }
  }

  lemma UploadChunkFailKeeps(s: State, p: Pid, u: Up, t: Path, ti: Ino, li: Ino, got: nat, n: nat)
    requires Inv(s) && p in s.jobs && s.jobs[p] == UpLocked(u, t, ti, li, got)
    ensures Inv(UploadStep(s, p, UpLocked(u, t, ti, li, got), false, n, ""))
  {
    hide Inv, World, Discreet;
    JobHolds(s, p);
    UploadGivesUp(s, p, u, t, ti, li, got);
  }

  lemma UploadChunkStoreKeeps(s: State, p: Pid, u: Up, t: Path, ti: Ino, li: Ino, got: nat, n: nat)
    requires Inv(s) && p in s.jobs && s.jobs[p] == UpLocked(u, t, ti, li, got) && got < |u.source|
    ensures Inv(UploadStep(s, p, UpLocked(u, t, ti, li, got), true, n, ""))
  {
    hide Inv, World, Discreet;
    JobHolds(s, p);
    var data, more := UploadChunkStep(s, p, u, t, ti, li, got, n);
    UploadStores(s, p, u, t, ti, li, got, more, data);
  }

  lemma UploadChunkKeeps(s: State, p: Pid, ok: bool, n: nat)
    requires Inv(s) && p in s.jobs && s.jobs[p].UpLocked?
    ensures Inv(UploadStep(s, p, s.jobs[p], ok, n, ""))
  {
    hide Inv, World, Discreet;
    var UpLocked(u, t, ti, li, got) := s.jobs[p];
    if !ok {
      UploadChunkFailKeeps(s, p, u, t, ti, li, got, n);
    } else if got >= |u.source| {
      var _, _ := UploadChunkStep(s, p, u, t, ti, li, got, n);
      UploadEnds(s, p, u, t, ti, li, got);
    } else {
      UploadChunkStoreKeeps(s, p, u, t, ti, li, got, n);
    }
  }

  lemma UploadEndKeeps(s: State, p: Pid, ok: bool)
    requires Inv(s) && p in s.jobs && (s.jobs[p].UpReady? || s.jobs[p].UpPlaced?)
    ensures Inv(UploadStep(s, p, s.jobs[p], ok, 0, ""))
  {
    hide Inv, World, Discreet;
    var j := s.jobs[p];
    JobHolds(s, p);
    if j.UpPlaced? {
      CloseKeeps(s, p, j.li, true);
    } else if ok && CanRename(s, j.t, j.u.path) {
      PlaceIsDiscreet(s, p, j.u, j.t, j.ti);
      MovesOn(s, Placed(s, j.u, j.t, j.ti), p, UpPlaced(j.li));
    } else {
      UploadGivesUp(s, p, j.u, j.t, j.ti, j.li, |j.u.source|);
    }
  }

  lemma UploadUndoKeeps(s: State, p: Pid)
    requires Inv(s) && p in s.jobs && (s.jobs[p].UpUndoTemp? || s.jobs[p].UpUndoTarget?)
    ensures Inv(UploadStep(s, p, s.jobs[p], true, 0, ""))
  {
    hide Inv, World, Discreet;
    var j := s.jobs[p];
    JobHolds(s, p);
    if j.UpUndoTemp? {
      var got :| Private(s, p, j.u, j.t, j.ti, got);
      DropIsDiscreet(s, p, j.t);
      MovesOn(s, Drop(s, j.t), p, if j.u.existed then Replies(false) else UpUndoTarget(j.u.path));
    } else {
      DropIsDiscreet(s, p, j.path);
      MovesOn(s, Drop(s, j.path), p, Replies(false));
    }
  }

  lemma UploadKeeps(s: State, p: Pid, ok: bool, n: nat, name: Path)
    requires Inv(s) && p in s.jobs && IsUpload(s.jobs[p])
    ensures Inv(UploadStep(s, p, s.jobs[p], ok, n, name))
  {
    hide Inv, World, Discreet;
    match s.jobs[p]
    case UpStart(_) => UploadStartKeeps(s, p, ok, name);
    case UpTemp(_, _, _) => UploadOpenKeeps(s, p, ok);
    case UpOpen(_, _, _, _) => UploadLockKeeps(s, p, ok);
    case UpLocked(_, _, _, _, _) => UploadChunkKeeps(s, p, ok, n);
    case UpReady(_, _, _, _) => UploadEndKeeps(s, p, ok);
    case UpPlaced(_) => UploadEndKeeps(s, p, ok);
    case _ => UploadUndoKeeps(s, p);
  }

  // ---------------------------------------------------------------- writes at an offset

  lemma WriteLockKeeps(s: State, p: Pid, ok: bool)
    requires Inv(s) && p in s.jobs && s.jobs[p].WrOpen?
    ensures Inv(WriteStep(s, p, s.jobs[p], ok, []))
  {
    hide Inv, World, Discreet;
    var j := s.jobs[p];
    JobHolds(s, p);
    if ok && CanWrite(s, p, j.i) {
      LockWriteIsDiscreet(s, p, j.i);
      assert Overlay(Data(s, j.i), j.offset, []) == Data(s, j.i);
      MovesOn(s, LockWrite(s, p, j.i), p, WrLocked(j.path, j.existed, j.offset, j.i, Data(s, j.i), []));
    } else {
      CloseIsDiscreet(s, p, j.i);
      MovesOn(s, Close(s, p, j.i), p, if j.existed then Replies(false) else WrUndo(j.path));
    }
  }

  lemma WriteStores(s: State, p: Pid, j: Job, bytes: seq<byte>, data: seq<byte>)
    requires Inv(s) && p in s.jobs && s.jobs[p] == j && j.WrLocked?
    requires data == Overlay(j.base, j.offset, j.written + bytes)
    ensures Inv(Become(Store(s, j.i, data, Patched), p, j.(written := j.written + bytes)))
  {
    hide Inv, World, Discreet;
    JobHolds(s, p);
    StoreIsDiscreet(s, p, j.i, data, Patched);
    var s1 := Store(s, j.i, data, Patched);
    assert Public(s1, j.i) && s1.writers == s.writers;
    MovesOn(s, s1, p, j.(written := j.written + bytes));
  }

  /** What the step is, apart from the invariant. */
  lemma WriteChunkStep(s: State, p: Pid, path: Path, existed: bool, offset: nat, i: Ino, base: seq<byte>,
                       written: seq<byte>, ok: bool, bytes: seq<byte>)
    ensures WriteStep(s, p, WrLocked(path, existed, offset, i, base, written), ok, bytes) ==
      if !ok then Become(Close(s, p, i), p, if existed then Replies(false) else WrUndo(path))
      else if bytes == [] then Become(Close(s, p, i), p, Replies(true))
      else Become(Store(s, i, Overlay(Data(s, i), offset + |written|, bytes), Patched), p,
                  WrLocked(path, existed, offset, i, base, written + bytes))
  {
  }

  lemma WriteChunkKeeps(s: State, p: Pid, ok: bool, bytes: seq<byte>)
    requires Inv(s) && p in s.jobs && s.jobs[p].WrLocked?
    ensures Inv(WriteStep(s, p, s.jobs[p], ok, bytes))
  {
    hide Inv, World, Discreet;
    var WrLocked(path, existed, offset, i, base, written) := s.jobs[p];
    WriteChunkStep(s, p, path, existed, offset, i, base, written, ok, bytes);
    if !ok {
      JobHolds(s, p);
      CloseIsDiscreet(s, p, i);
      MovesOn(s, Close(s, p, i), p, if existed then Replies(false) else WrUndo(path));
    } else if bytes == [] {
      CloseKeeps(s, p, i, true);
    } else {
      JobHolds(s, p);
      OverlayAppend(base, offset, written, bytes);
      WriteStores(s, p, s.jobs[p], bytes, Overlay(Data(s, i), offset + |written|, bytes));
    }
  }

  lemma WriteKeeps(s: State, p: Pid, ok: bool, bytes: seq<byte>)
    requires Inv(s) && p in s.jobs && IsWrite(s.jobs[p])
    ensures Inv(WriteStep(s, p, s.jobs[p], ok, bytes))
  {
    hide Inv, World, Discreet;
    match s.jobs[p]
    case WrStart(_, _, _) => WriteOpenKeeps(s, p, ok);
    case WrOpen(_, _, _, _) => WriteLockKeeps(s, p, ok);
    case WrLocked(_, _, _, _, _, _) => WriteChunkKeeps(s, p, ok, bytes);
    case WrUndo(path) =>
      JobHolds(s, p);
      DropIsDiscreet(s, p, path);
      MovesOn(s, Drop(s, path), p, Replies(false));
  }

  lemma WriteOpenKeeps(s: State, p: Pid, ok: bool)
    requires Inv(s) && p in s.jobs && s.jobs[p].WrStart?
    ensures Inv(WriteStep(s, p, s.jobs[p], ok, []))
  {
    hide Inv, World, Discreet;
    var j := s.jobs[p];
    JobHolds(s, p);
    NothingChanges(s, p);
    if !ok || (j.path in s.fs.names && !IsFile(s.fs, j.path)) {
      MovesOn(s, s, p, if j.existed then Replies(false) else WrUndo(j.path));
    } else if j.path in s.fs.names {
      OpenedIsPublic(s, j.path);
      MovesOn(s, s, p, WrOpen(j.path, j.existed, j.offset, s.fs.names[j.path]));
    } else {
      NewFileIsDiscreet(s, p, j.path, Blank);
      MovesOn(s, NewFile(s, j.path, Blank), p, WrOpen(j.path, j.existed, j.offset, s.nextIno));
    }
  }

  // ---------------------------------------------------------------- transfer copies

  lemma CopyCreateKeeps(s: State, p: Pid, ok: bool)
    requires Inv(s) && p in s.jobs && s.jobs[p].CpSource?
    ensures Inv(CopyStep(s, p, s.jobs[p], ok, 0))
  {
    hide Inv, World, Discreet;
    var CpSource(si, dst) := s.jobs[p];
    JobHolds(s, p);
    if ok && dst !in s.fs.names {
      NextInoIsNew(s);
      NewFileIsDiscreet(s, p, dst, Blank);
      MovesOn(s, NewFile(s, dst, Blank), p, CpCreated(si, dst, s.nextIno));
    } else {
      CloseKeeps(s, p, si, false);
    }
  }

  lemma CopyReadLockKeeps(s: State, p: Pid, ok: bool)
    requires Inv(s) && p in s.jobs && s.jobs[p].CpCreated?
    ensures Inv(CopyStep(s, p, s.jobs[p], ok, 0))
  {
    hide Inv, World, Discreet;
    var CpCreated(si, dst, di) := s.jobs[p];
    JobHolds(s, p);
    if ok && CanRead(s, p, si) {
      LockReadIsDiscreet(s, p, si);
      MovesOn(s, LockRead(s, p, si), p, CpReading(si, dst, di, Data(s, si)));
    } else {
      CloseBothKeeps(s, p, si, Some(di), false);
    }
  }

  lemma CopyWriteLockKeeps(s: State, p: Pid, ok: bool)
    requires Inv(s) && p in s.jobs && s.jobs[p].CpReading?
    ensures Inv(CopyStep(s, p, s.jobs[p], ok, 0))
  {
    hide Inv, World, Discreet;
    var CpReading(si, dst, di, snap) := s.jobs[p];
    JobHolds(s, p);
    if ok && CanWrite(s, p, di) {
      LockWriteIsDiscreet(s, p, di);
      assert snap[..0] == [] && Overlay(Data(s, di), 0, []) == Data(s, di);
      MovesOn(s, LockWrite(s, p, di), p, CpCopying(si, dst, di, snap, Data(s, di), 0));
    } else {
      CloseBothKeeps(s, p, si, Some(di), false);
    }
  }

  /** What is on disk after one more piece of a copy. */
  lemma CopiedSoFar(base: seq<byte>, snap: seq<byte>, done: nat, more: nat)
    requires done <= more <= |snap|
    ensures Overlay(Overlay(base, 0, snap[..done]), done, snap[done..more]) == Overlay(base, 0, snap[..more])
  {
    hide Overlay;
    OverlayAppend(base, 0, snap[..done], snap[done..more]);
    assert snap[..done] + snap[done..more] == snap[..more];
  }

  lemma CopyStores(s: State, p: Pid, j: Job, more: nat, data: seq<byte>)
    requires Inv(s) && p in s.jobs && s.jobs[p] == j && j.CpCopying?
    requires more <= |j.snap| && data == Overlay(j.base, 0, j.snap[..more])
    ensures Inv(Become(Store(s, j.di, data, Patched), p, j.(done := more)))
  {
    hide Inv, World, Discreet;
    JobHolds(s, p);
    StoreIsDiscreet(s, p, j.di, data, Patched);
    CopyJobHolds(s, p, j, more, data);
    MovesOn(s, Store(s, j.di, data, Patched), p, j.(done := more));
  }

  lemma CopyJobHolds(s: State, p: Pid, j: Job, more: nat, data: seq<byte>)
    requires j.CpCopying? && InPlaceInv(s, p, j)
    requires more <= |j.snap| && data == Overlay(j.base, 0, j.snap[..more])
    ensures JobInv(Store(s, j.di, data, Patched), p, j.(done := more))
  {
  }

  lemma CopyFailKeeps(s: State, p: Pid, si: Ino, di: Ino, dst: Path)
    requires Inv(s) && p in s.jobs && !Temporary(dst)
    ensures Inv(Become(CloseBoth(s, p, si, Some(di)), p, CpUndo(dst)))
  {
    hide Inv, World, Discreet;
    CloseBothIsDiscreet(s, p, si, Some(di));
    MovesOn(s, CloseBoth(s, p, si, Some(di)), p, CpUndo(dst));
  }

  lemma CopyEnds(s: State, p: Pid, j: Job)
    requires Inv(s) && p in s.jobs && s.jobs[p] == j && j.CpCopying? && j.done >= |j.snap|
    ensures Inv(Become(s, p, CpDone(j.si, j.dst, j.di, j.snap, j.base)))
  {
    hide Inv, World, Discreet;
    JobHolds(s, p);
    NothingChanges(s, p);
    assert j.snap[..j.done] == j.snap;
    MovesOn(s, s, p, CpDone(j.si, j.dst, j.di, j.snap, j.base));
  }

  /** What the step is, apart from the invariant; `data` is what the new file then holds. */
  lemma CopyChunkStep(s: State, p: Pid, j: Job, n: nat) returns (data: seq<byte>, more: nat)
    requires j.CpCopying? && Data(s, j.si) == j.snap && j.done <= |j.snap|
    ensures j.done <= more <= |j.snap| && data == Overlay(Data(s, j.di), j.done, j.snap[j.done..more])
    ensures CopyStep(s, p, j, true, n) ==
      if j.done >= |j.snap| then Become(s, p, CpDone(j.si, j.dst, j.di, j.snap, j.base))
      else Become(Store(s, j.di, data, Patched), p, j.(done := more))
  {
    more := if j.done >= |j.snap| then j.done else j.done + ChunkLength(n, |j.snap| - j.done);
    data := Overlay(Data(s, j.di), j.done, j.snap[j.done..more]);
  }

  lemma CopyChunkKeeps(s: State, p: Pid, j: Job, ok: bool, n: nat)
    requires Inv(s) && p in s.jobs && s.jobs[p] == j && j.CpCopying?
    ensures Inv(CopyStep(s, p, j, ok, n))
  {
    hide Inv, World, Discreet;
    JobHolds(s, p);
    if !ok {
      CopyFailKeeps(s, p, j.si, j.di, j.dst);
    } else if j.done >= |j.snap| {
      var _, _ := CopyChunkStep(s, p, j, n);
      CopyEnds(s, p, j);
    } else {
      CopyChunkStoreKeeps(s, p, j, n);
    }
  }

  lemma CopyChunkStoreKeeps(s: State, p: Pid, j: Job, n: nat)
    requires Inv(s) && p in s.jobs && s.jobs[p] == j && j.CpCopying? && j.done < |j.snap|
    ensures Inv(CopyStep(s, p, j, true, n))
  {
    hide Inv, World, Discreet;
    JobHolds(s, p);
    var data, more := CopyChunkStep(s, p, j, n);
    CopiedSoFar(j.base, j.snap, j.done, more);
    CopyStores(s, p, j, more, data);
  }

  lemma CopyKeeps(s: State, p: Pid, ok: bool, n: nat)
    requires Inv(s) && p in s.jobs && IsCopy(s.jobs[p])
    ensures Inv(CopyStep(s, p, s.jobs[p], ok, n))
  {
    hide Inv, World, Discreet;
    var j := s.jobs[p];
    JobHolds(s, p);
    match j
    case CpCopying(_, _, _, _, _, _) => CopyChunkKeeps(s, p, j, ok, n);
    case CpDone(si, _, di, _, _) => CloseBothKeeps(s, p, si, Some(di), true);
    case CpUndo(dst) =>
      DropIsDiscreet(s, p, dst);
      MovesOn(s, Drop(s, dst), p, Replies(false));
    case CpSource(_, _) => CopyCreateKeeps(s, p, ok);
    case CpCreated(_, _, _) => CopyReadLockKeeps(s, p, ok);
    case CpReading(_, _, _, _) => CopyWriteLockKeeps(s, p, ok);
  }

  // ---------------------------------------------------------------- moves and deletions

  lemma MoveLockKeeps(s: State, p: Pid, ok: bool)
    requires Inv(s) && p in s.jobs && s.jobs[p].MvOpen?
    ensures Inv(MoveStep(s, p, s.jobs[p], ok))
  {
    hide Inv, World, Discreet;
    var j := s.jobs[p];
    JobHolds(s, p);
    CloseKeeps(s, p, j.si, false);
    if ok && CanWrite(s, p, j.si) {
      LockWriteIsDiscreet(s, p, j.si);
      MovesOn(s, LockWrite(s, p, j.si), p, MvLocked(j.from, j.to, j.si, j.into));
    }
  }

  lemma MoveTargetKeeps(s: State, p: Pid, ok: bool)
    requires Inv(s) && p in s.jobs && s.jobs[p].MvLocked?
    ensures Inv(MoveStep(s, p, s.jobs[p], ok))
  {
    hide Inv, World, Discreet;
    var j := s.jobs[p];
    JobHolds(s, p);
    if !ok || (j.to in s.fs.names && (j.into || !IsFile(s.fs, j.to))) {
      CloseKeeps(s, p, j.si, false);
    } else if j.into {
      NewFileIsDiscreet(s, p, j.to, Blank);
      MovesOn(s, NewFile(s, j.to, Blank), p, MvDest(j.from, j.to, j.si, Some(s.nextIno)));
    } else {
      NothingChanges(s, p);
      MovesOn(s, s, p, MvDest(j.from, j.to, j.si, if j.to in s.fs.names then Some(s.fs.names[j.to]) else None));
    }
  }

  lemma MoveTargetLockKeeps(s: State, p: Pid, ok: bool)
    requires Inv(s) && p in s.jobs && s.jobs[p].MvDest?
    ensures Inv(MoveStep(s, p, s.jobs[p], ok))
  {
    hide Inv, World, Discreet;
    var j := s.jobs[p];
    JobHolds(s, p);
    if j.dest.None? {
      NothingChanges(s, p);
      MovesOn(s, s, p, MvReady(j.from, j.to, j.si, j.dest));
    } else if ok && CanWrite(s, p, j.dest.value) {
      LockWriteIsDiscreet(s, p, j.dest.value);
      MovesOn(s, LockWrite(s, p, j.dest.value), p, MvReady(j.from, j.to, j.si, j.dest));
    } else {
      CloseBothKeeps(s, p, j.si, j.dest, false);
    }
  }

  lemma MoveRenameKeeps(s: State, p: Pid, ok: bool)
    requires Inv(s) && p in s.jobs && s.jobs[p].MvReady?
    ensures Inv(MoveStep(s, p, s.jobs[p], ok))
  {
    hide Inv, World, Discreet;
    var j := s.jobs[p];
    JobHolds(s, p);
    if ok && CanRename(s, j.from, j.to) {
      RenameIsDiscreet(s, p, j.from, j.to);
      MovesOn(s, s.(fs := Rename(s.fs, j.from, j.to)), p, MvDone(j.si, j.dest, true));
    } else {
      NothingChanges(s, p);
      MovesOn(s, s, p, MvDone(j.si, j.dest, false));
    }
  }

  lemma MoveKeeps(s: State, p: Pid, ok: bool)
    requires Inv(s) && p in s.jobs && IsMove(s.jobs[p])
    ensures Inv(MoveStep(s, p, s.jobs[p], ok))
  {
    hide Inv, World, Discreet;
    match s.jobs[p]
    case MvOpen(_, _, _, _) => MoveLockKeeps(s, p, ok);
    case MvLocked(_, _, _, _) => MoveTargetKeeps(s, p, ok);
    case MvDest(_, _, _, _) => MoveTargetLockKeeps(s, p, ok);
    case MvReady(_, _, _, _) => MoveRenameKeeps(s, p, ok);
    case MvDone(si, di, done) => CloseBothKeeps(s, p, si, di, done);
  }

  lemma DeleteLockKeeps(s: State, p: Pid, ok: bool)
    requires Inv(s) && p in s.jobs && s.jobs[p].RmOpen?
    ensures Inv(DeleteStep(s, p, s.jobs[p], ok))
  {
    hide Inv, World, Discreet;
    var RmOpen(path, i) := s.jobs[p];
    JobHolds(s, p);
    if ok && CanWrite(s, p, i) {
      LockWriteIsDiscreet(s, p, i);
      MovesOn(s, LockWrite(s, p, i), p, RmLocked(path, i));
    } else {
      CloseKeeps(s, p, i, false);
    }
  }

  lemma DeleteKeeps(s: State, p: Pid, ok: bool)
    requires Inv(s) && p in s.jobs && (s.jobs[p].RmOpen? || s.jobs[p].RmLocked? || s.jobs[p].RmDone?)
    ensures Inv(DeleteStep(s, p, s.jobs[p], ok))
  {
    hide Inv, World, Discreet;
    var j := s.jobs[p];
    JobHolds(s, p);
    NothingChanges(s, p);
    match j
    case RmOpen(_, _) => DeleteLockKeeps(s, p, ok);
    case RmLocked(path, i) =>
      if ok && IsFile(s.fs, path) {
        DropIsDiscreet(s, p, path);
        MovesOn(s, Drop(s, path), p, RmDone(i, true));
      } else {
        MovesOn(s, s, p, RmDone(i, false));
      }
    case RmDone(i, done) => CloseKeeps(s, p, i, done);
  }

  lemma ForkKeeps(s: State, p: Pid)
    requires Inv(s) && p !in s.jobs
    ensures Inv(Become(s, p, Idle))
  {
    var s' := Become(s, p, Idle);
    forall q | q in s'.jobs ensures JobInv(s', q, s'.jobs[q]) {
      JobsDoNotMatter(s, s', q, s'.jobs[q]);
    }
  }

  lemma DeathKeeps(s: State, p: Pid)
    requires Inv(s)
    ensures Inv(Step(s, Dies(p)))
  {
    var s' := Step(s, Dies(p));
    forall q | q in s'.jobs ensures JobInv(s', q, s'.jobs[q]) {
      assert Undisturbed(s, s', q, s.jobs[q]);
      JobFrame(s, s', q, s.jobs[q]);
    }
  }

  lemma GoKeeps(s: State, p: Pid, ok: bool, n: nat, bytes: seq<byte>, name: Path)
    requires Inv(s) && p in s.jobs
    ensures Inv(GoStep(s, p, s.jobs[p], ok, n, bytes, name))
  {
    hide Inv, World, Discreet;
    var j := s.jobs[p];
    if j.Idle? {
    } else if j.Replies? {
      ReplyKeeps(s, p, Idle);
    } else if j.DlOpen? || j.DlLocked? || j.DlSending? || j.DlDone? {
      DownloadKeeps(s, p, ok, n);
    } else if IsUpload(j) {
      UploadKeeps(s, p, ok, n, name);
    } else if IsWrite(j) {
      WriteKeeps(s, p, ok, bytes);
    } else if IsCopy(j) {
      CopyKeeps(s, p, ok, n);
    } else if IsMove(j) {
      MoveKeeps(s, p, ok);
    } else {
      DeleteKeeps(s, p, ok);
    }
  }

  lemma StepKeepsInv(s: State, a: Action)
    requires Inv(s)
    ensures Inv(Step(s, a))
  {
    match a
    case Fork(p) => if p !in s.jobs { ForkKeeps(s, p); }
    case Begin(p, c) => if p in s.jobs && s.jobs[p].Idle? && Admissible(c) { BeginKeeps(s, p, c); }
    case Go(p, ok, n, bytes, name) => if p in s.jobs { GoKeeps(s, p, ok, n, bytes, name); }
    case Dies(p) => DeathKeeps(s, p);
  }

  lemma {:induction false} RunKeepsInv(boot: State, acts: seq<Action>)
    requires Boot(boot)
    ensures Inv(Run(boot, acts))
  {
    if acts == [] {
      BootIsSafe(boot);
    } else {
      RunKeepsInv(boot, acts[..|acts| - 1]);
      StepKeepsInv(Run(boot, acts[..|acts| - 1]), acts[|acts| - 1]);
    }
  }
}
