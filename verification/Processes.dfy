/**
  The server processes of concurrent sessions as a state machine over system calls. Each
  process runs one command of transfer.c or main-server.c at a time; any process may take the
  next step, and any may die. Record locks follow fcntl() of POSIX.1-2017: they belong to a
  process and an inode and go away when the process closes the file. Every lock the server
  takes reaches to the end of the file and a write lock starts at 0, so two locks on an inode
  always overlap and byte ranges need not be kept.
*/
module Processes {
  import opened Core
  import opened Posix

  type Pid = int

  /** An upload: its target, the bytes its client sends, its number and whether stat() found the target. */
  datatype Up = Up(path: Path, source: seq<byte>, id: nat, existed: bool)

  /** Where a process is between two system calls. */
  datatype Job =
    | Idle
    | Replies(ok: bool) // the command is over and its client is about to be told how it went
    // send_file
    | DlOpen(i: Ino, offset: nat)
    | DlLocked(i: Ino, offset: nat, snap: seq<byte>)
    | DlSending(i: Ino, offset: nat, snap: seq<byte>, announced: nat, sent: seq<byte>)
    | DlDone(i: Ino, offset: nat, snap: seq<byte>, announced: nat, sent: seq<byte>)
    // receive_into_file without an offset
    | UpStart(u: Up)
    | UpTemp(u: Up, t: Path, ti: Ino)
    | UpOpen(u: Up, t: Path, ti: Ino, li: Ino)
    | UpLocked(u: Up, t: Path, ti: Ino, li: Ino, got: nat)
    | UpReady(u: Up, t: Path, ti: Ino, li: Ino)
    | UpPlaced(li: Ino)
    | UpUndoTemp(u: Up, t: Path, ti: Ino)
    | UpUndoTarget(path: Path)
    // receive_into_file with an offset
    | WrStart(path: Path, existed: bool, offset: nat)
    | WrOpen(path: Path, existed: bool, offset: nat, i: Ino)
    | WrLocked(path: Path, existed: bool, offset: nat, i: Ino, base: seq<byte>, written: seq<byte>)
    | WrUndo(path: Path)
    // execute_transfer_copy
    | CpSource(si: Ino, dst: Path)
    | CpCreated(si: Ino, dst: Path, di: Ino)
    | CpReading(si: Ino, dst: Path, di: Ino, snap: seq<byte>)
    | CpCopying(si: Ino, dst: Path, di: Ino, snap: seq<byte>, base: seq<byte>, done: nat)
    | CpDone(si: Ino, dst: Path, di: Ino, snap: seq<byte>, base: seq<byte>)
    | CpUndo(dst: Path)
    // move
    | MvOpen(from: Path, to: Path, si: Ino, into: bool)
    | MvLocked(from: Path, to: Path, si: Ino, into: bool)
    | MvDest(from: Path, to: Path, si: Ino, dest: Option<Ino>)
    | MvReady(from: Path, to: Path, si: Ino, dest: Option<Ino>)
    | MvDone(si: Ino, dest: Option<Ino>, ok: bool)
    // delete
    | RmOpen(path: Path, i: Ino)
    | RmLocked(path: Path, i: Ino)
    | RmDone(i: Ino, ok: bool)

  /** Where the content of an inode comes from. */
  datatype Origin =
    | Initial(data: seq<byte>)
    | Blank                        // created empty, never written
    | Partial(owner: Pid, id: nat) // the temporary file of an upload under way or given up
    | Complete(id: nat)            // an upload that was put in place
    | Patched                      // written in place by an offset write or a transfer copy

  datatype State = State(
    fs: Fs,
    readers: set<(Pid, Ino)>,
    writers: set<(Pid, Ino)>,
    jobs: map<Pid, Job>,
    nextIno: Ino,
    origin: map<Ino, Origin>,      // history: never consulted by a step
    uploads: seq<seq<byte>>)       // history: what each upload sends, by number

  datatype Command =
    | Download(path: Path, offset: nat)
    | Upload(path: Path, source: seq<byte>)
    | Write(path: Path, offset: nat)
    | Copy(path: Path, dst: Path)
    | Move(path: Path, to: Path, into: bool) // `into`: the destination is a directory, `to` the name in it
    | Delete(path: Path)
    | Create(path: Path)

  /** `Go` lets a process make its next call: whether it succeeds, how much it moves, mkstemp's name. */
  datatype Action =
    | Fork(p: Pid)
    | Begin(p: Pid, c: Command)
    | Go(p: Pid, ok: bool, n: nat, bytes: seq<byte>, name: Path)
    | Dies(p: Pid)

  function Data(s: State, i: Ino): seq<byte> {
    if i in s.fs.nodes && s.fs.nodes[i].File? then s.fs.nodes[i].data else []
  }

  function Become(s: State, p: Pid, j: Job): State {
    s.(jobs := s.jobs[p := j])
  }

  function JobOf(s: State, p: Pid): Job {
    if p in s.jobs then s.jobs[p] else Idle
  }

  // ---------------------------------------------------------------- locks

  predicate CanRead(s: State, p: Pid, i: Ino) {
    forall w :: w in s.writers && w.1 == i ==> w.0 == p
  }

  predicate CanWrite(s: State, p: Pid, i: Ino) {
    && (forall w :: w in s.writers && w.1 == i ==> w.0 == p)
    && (forall r :: r in s.readers && r.1 == i ==> r.0 == p)
  }

  /** A granted lock replaces what the process held on the inode before. */
  function LockRead(s: State, p: Pid, i: Ino): State {
    s.(readers := s.readers + {(p, i)}, writers := s.writers - {(p, i)})
  }

  function LockWrite(s: State, p: Pid, i: Ino): State {
    s.(readers := s.readers - {(p, i)}, writers := s.writers + {(p, i)})
  }

  /** release_lock and close. */
  function Close(s: State, p: Pid, i: Ino): State {
    s.(readers := s.readers - {(p, i)}, writers := s.writers - {(p, i)})
  }

  function CloseBoth(s: State, p: Pid, i: Ino, k: Option<Ino>): State {
    if k.Some? then Close(Close(s, p, i), p, k.value) else Close(s, p, i)
  }

  // ---------------------------------------------------------------- files

  function NewFile(s: State, path: Path, o: Origin): State {
    s.(fs := CreateFile(s.fs, path, s.nextIno, 448),
       nextIno := s.nextIno + 1,
       origin := s.origin[s.nextIno := o])
  }

  /** unlink() refuses a directory. */
  function Drop(s: State, path: Path): State {
    if IsFile(s.fs, path) then s.(fs := Unlink(s.fs, path)) else s
  }

  /** rename() of a file refuses to replace a directory. */
  predicate CanRename(s: State, from: Path, to: Path) {
    IsFile(s.fs, from) && (to in s.fs.names ==> IsFile(s.fs, to))
  }

  function Store(s: State, i: Ino, data: seq<byte>, o: Origin): State {
    if i in s.fs.nodes && s.fs.nodes[i].File? then
      s.(fs := SetData(s.fs, i, data), origin := s.origin[i := o])
    else s
  }

  /** rename(): the temporary file becomes the target. */
  function Placed(s: State, u: Up, t: Path, ti: Ino): State
    requires t in s.fs.names
  {
    s.(fs := Rename(s.fs, t, u.path), origin := s.origin[ti := Complete(u.id)])
  }

  // ---------------------------------------------------------------- steps

  /** How much a call moves of what is left: something, if there is anything. */
  function ChunkLength(n: nat, left: nat): (len: nat)
    ensures len <= left
    ensures left > 0 ==> len > 0
  {
    Min(if n == 0 then 1 else n, left)
  }

  function BeginStep(s: State, p: Pid, c: Command): State {
    match c
    case Download(path, offset) =>
      if IsFile(s.fs, path) then Become(s, p, DlOpen(s.fs.names[path], offset)) else Become(s, p, Replies(false))
    case Upload(path, source) =>
      Become(s, p, UpStart(Up(path, source, |s.uploads|, path in s.fs.names))).(uploads := s.uploads + [source])
    case Write(path, offset) => Become(s, p, WrStart(path, path in s.fs.names, offset))
    case Copy(path, dst) =>
      if IsFile(s.fs, path) then Become(s, p, CpSource(s.fs.names[path], dst)) else Become(s, p, Replies(false))
    case Move(path, to, into) =>
      if IsFile(s.fs, path) then Become(s, p, MvOpen(path, to, s.fs.names[path], into))
        else Become(s, p, Replies(false))
    case Delete(path) =>
      if IsFile(s.fs, path) then Become(s, p, RmOpen(path, s.fs.names[path])) else Become(s, p, Replies(false))
    case Create(path) =>
      if path in s.fs.names then Become(s, p, Replies(false)) else Become(NewFile(s, path, Blank), p, Replies(true))
  }

  /** The next system call of a download. */
  function DownloadStep(s: State, p: Pid, j: Job, ok: bool, n: nat): State
    requires j.DlOpen? || j.DlLocked? || j.DlSending? || j.DlDone?
  {
    match j
    case DlOpen(i, offset) =>
      if ok && CanRead(s, p, i) then Become(LockRead(s, p, i), p, DlLocked(i, offset, Data(s, i)))
      else Become(Close(s, p, i), p, Replies(false))
    case DlLocked(i, offset, snap) =>
      var size := |Data(s, i)|;
      if ok then Become(s, p, DlSending(i, offset, snap, if offset >= size then 0 else size - offset, []))
      else Become(Close(s, p, i), p, Replies(false))
    case DlSending(i, offset, snap, announced, sent) =>
      var pos := offset + |sent|;
      if !ok then Become(Close(s, p, i), p, Replies(false))
      else if pos >= |Data(s, i)| then Become(s, p, DlDone(i, offset, snap, announced, sent))
      else
        var len := ChunkLength(n, |Data(s, i)| - pos);
        Become(s, p, DlSending(i, offset, snap, announced, sent + Data(s, i)[pos..pos + len]))
    case DlDone(i, _, _, _, _) => Become(Close(s, p, i), p, Replies(true))
  }

  predicate IsUpload(j: Job) {
    j.UpStart? || j.UpTemp? || j.UpOpen? || j.UpLocked? || j.UpReady? || j.UpPlaced? || j.UpUndoTemp? || j.UpUndoTarget?
  }

  /** The next system call of an upload without an offset. */
  function UploadStep(s: State, p: Pid, j: Job, ok: bool, n: nat, name: Path): State
    requires IsUpload(j)
  {
    match j
    case UpStart(u) =>
      if ok && Temporary(name) && name !in s.fs.names then
        Become(NewFile(s, name, Partial(p, u.id)), p, UpTemp(u, name, s.nextIno))
      else if u.existed then Become(s, p, Replies(false))
      else Become(s, p, UpUndoTarget(u.path))
    case UpTemp(u, t, ti) =>
      if !ok || (u.path in s.fs.names && !IsFile(s.fs, u.path)) then Become(s, p, UpUndoTemp(u, t, ti))
      else if u.path in s.fs.names then Become(s, p, UpOpen(u, t, ti, s.fs.names[u.path]))
      else Become(NewFile(s, u.path, Blank), p, UpOpen(u, t, ti, s.nextIno))
    case UpOpen(u, t, ti, li) =>
      if ok && CanWrite(s, p, li) then Become(LockWrite(s, p, li), p, UpLocked(u, t, ti, li, 0))
      else Become(Close(s, p, li), p, UpUndoTemp(u, t, ti))
    case UpLocked(u, t, ti, li, got) =>
      if !ok then Become(Close(s, p, li), p, UpUndoTemp(u, t, ti)) // disk, peer or connection failed
      else if got >= |u.source| then Become(s, p, UpReady(u, t, ti, li)) // the end frame
      else
        var len := ChunkLength(n, |u.source| - got);
        Become(Store(s, ti, Overlay(Data(s, ti), got, u.source[got..got + len]), Partial(p, u.id)), p,
               UpLocked(u, t, ti, li, got + len))
    case UpReady(u, t, ti, li) =>
      if ok && CanRename(s, t, u.path) then
        Become(Placed(s, u, t, ti), p, UpPlaced(li))
      else Become(Close(s, p, li), p, UpUndoTemp(u, t, ti))
    case UpPlaced(li) => Become(Close(s, p, li), p, Replies(true))
    case UpUndoTemp(u, t, ti) => Become(Drop(s, t), p, if u.existed then Replies(false) else UpUndoTarget(u.path))
    case UpUndoTarget(path) => Become(Drop(s, path), p, Replies(false))
  }

  predicate IsWrite(j: Job) {
    j.WrStart? || j.WrOpen? || j.WrLocked? || j.WrUndo?
  }

  /** The next system call of a write at an offset. */
  function WriteStep(s: State, p: Pid, j: Job, ok: bool, bytes: seq<byte>): State
    requires IsWrite(j)
  {
    match j
    case WrStart(path, existed, offset) =>
      if !ok || (path in s.fs.names && !IsFile(s.fs, path))
        then Become(s, p, if existed then Replies(false) else WrUndo(path))
      else if path in s.fs.names then Become(s, p, WrOpen(path, existed, offset, s.fs.names[path]))
      else Become(NewFile(s, path, Blank), p, WrOpen(path, existed, offset, s.nextIno))
    case WrOpen(path, existed, offset, i) =>
      if ok && CanWrite(s, p, i) then Become(LockWrite(s, p, i), p, WrLocked(path, existed, offset, i, Data(s, i), []))
      else Become(Close(s, p, i), p, if existed then Replies(false) else WrUndo(path))
    case WrLocked(path, existed, offset, i, base, written) =>
      if !ok then Become(Close(s, p, i), p, if existed then Replies(false) else WrUndo(path))
      else if bytes == [] then Become(Close(s, p, i), p, Replies(true)) // the end frame
      else
        Become(Store(s, i, Overlay(Data(s, i), offset + |written|, bytes), Patched), p,
               WrLocked(path, existed, offset, i, base, written + bytes))
    case WrUndo(path) => Become(Drop(s, path), p, Replies(false))
  }

  predicate IsCopy(j: Job) {
    j.CpSource? || j.CpCreated? || j.CpReading? || j.CpCopying? || j.CpDone? || j.CpUndo?
  }

  /** The next system call of a transfer copy. */
  function CopyStep(s: State, p: Pid, j: Job, ok: bool, n: nat): State
    requires IsCopy(j)
  {
    match j
    case CpSource(si, dst) =>
      if ok && dst !in s.fs.names then Become(NewFile(s, dst, Blank), p, CpCreated(si, dst, s.nextIno))
      else Become(Close(s, p, si), p, Replies(false))
    case CpCreated(si, dst, di) =>
      if ok && CanRead(s, p, si) then Become(LockRead(s, p, si), p, CpReading(si, dst, di, Data(s, si)))
      else Become(CloseBoth(s, p, si, Some(di)), p, Replies(false)) // the empty file stays
    case CpReading(si, dst, di, snap) =>
      if ok && CanWrite(s, p, di) then Become(LockWrite(s, p, di), p, CpCopying(si, dst, di, snap, Data(s, di), 0))
      else Become(CloseBoth(s, p, si, Some(di)), p, Replies(false))
    case CpCopying(si, dst, di, snap, base, done) =>
      if !ok then Become(CloseBoth(s, p, si, Some(di)), p, CpUndo(dst))
      else if done >= |Data(s, si)| then Become(s, p, CpDone(si, dst, di, snap, base))
      else
        var len := ChunkLength(n, |Data(s, si)| - done);
        Become(Store(s, di, Overlay(Data(s, di), done, Data(s, si)[done..done + len]), Patched), p,
               CpCopying(si, dst, di, snap, base, done + len))
    case CpDone(si, _, di, _, _) => Become(CloseBoth(s, p, si, Some(di)), p, Replies(true))
    case CpUndo(dst) => Become(Drop(s, dst), p, Replies(false))
  }

  predicate IsMove(j: Job) {
    j.MvOpen? || j.MvLocked? || j.MvDest? || j.MvReady? || j.MvDone?
  }

  /** The next system call of a move. */
  function MoveStep(s: State, p: Pid, j: Job, ok: bool): State
    requires IsMove(j)
  {
    match j
    case MvOpen(from, to, si, into) =>
      if ok && CanWrite(s, p, si) then Become(LockWrite(s, p, si), p, MvLocked(from, to, si, into))
      else Become(Close(s, p, si), p, Replies(false))
    case MvLocked(from, to, si, into) =>
      if !ok || (to in s.fs.names && (into || !IsFile(s.fs, to))) then Become(Close(s, p, si), p, Replies(false))
      else if into then Become(NewFile(s, to, Blank), p, MvDest(from, to, si, Some(s.nextIno)))
      else Become(s, p, MvDest(from, to, si, if to in s.fs.names then Some(s.fs.names[to]) else None))
    case MvDest(from, to, si, di) =>
      if di.None? then Become(s, p, MvReady(from, to, si, di))
      else if ok && CanWrite(s, p, di.value) then Become(LockWrite(s, p, di.value), p, MvReady(from, to, si, di))
      else Become(CloseBoth(s, p, si, di), p, Replies(false)) // a placeholder stays
    case MvReady(from, to, si, di) =>
      if ok && CanRename(s, from, to) then Become(s.(fs := Rename(s.fs, from, to)), p, MvDone(si, di, true))
      else Become(s, p, MvDone(si, di, false))
    case MvDone(si, di, done) => Become(CloseBoth(s, p, si, di), p, Replies(done))
  }

  /** The next system call of a deletion. */
  function DeleteStep(s: State, p: Pid, j: Job, ok: bool): State
    requires j.RmOpen? || j.RmLocked? || j.RmDone?
  {
    match j
    case RmOpen(path, i) =>
      if ok && CanWrite(s, p, i) then Become(LockWrite(s, p, i), p, RmLocked(path, i))
      else Become(Close(s, p, i), p, Replies(false))
    case RmLocked(path, i) =>
      if ok && IsFile(s.fs, path) then Become(s.(fs := Unlink(s.fs, path)), p, RmDone(i, true))
      else Become(s, p, RmDone(i, false))
    case RmDone(i, done) => Become(Close(s, p, i), p, Replies(done))
  }

  /** Paths come from clients, who do not use temporary names. */
  predicate Admissible(c: Command) {
    && !Temporary(c.path)
    && (c.Copy? ==> !Temporary(c.dst))
    && (c.Move? ==> !Temporary(c.to))
  }

  function GoStep(s: State, p: Pid, j: Job, ok: bool, n: nat, bytes: seq<byte>, name: Path): State {
    if j.Idle? then s
    else if j.Replies? then Become(s, p, Idle)
    else if j.DlOpen? || j.DlLocked? || j.DlSending? || j.DlDone? then DownloadStep(s, p, j, ok, n)
    else if IsUpload(j) then UploadStep(s, p, j, ok, n, name)
    else if IsWrite(j) then WriteStep(s, p, j, ok, bytes)
    else if IsCopy(j) then CopyStep(s, p, j, ok, n)
    else if IsMove(j) then MoveStep(s, p, j, ok)
    else DeleteStep(s, p, j, ok)
  }

  /** One step; an action that is not possible changes nothing. */
  function Step(s: State, a: Action): State {
    match a
    case Fork(p) => if p in s.jobs then s else Become(s, p, Idle)
    case Begin(p, c) => if p in s.jobs && s.jobs[p].Idle? && Admissible(c) then BeginStep(s, p, c) else s
    case Go(p, ok, n, bytes, name) => if p in s.jobs then GoStep(s, p, s.jobs[p], ok, n, bytes, name) else s
    case Dies(p) => // the kernel closes its files
      s.(jobs := s.jobs - {p},
         readers := (set r | r in s.readers && r.0 != p),
         writers := (set w | w in s.writers && w.0 != p))
  }

  /** A file system at rest, before any session starts. */
  ghost predicate Boot(s: State) {
    && Closed(s.fs)
    && (forall a, b :: a in s.fs.names && b in s.fs.names && a != b ==> s.fs.names[a] != s.fs.names[b])
    && (forall i :: i in s.fs.nodes ==> i < s.nextIno)
    && s.readers == {} && s.writers == {} && s.jobs == map[] && s.uploads == []
    && s.origin.Keys == s.fs.nodes.Keys
    && forall i :: i in s.fs.nodes ==> s.origin[i] == Initial(Data(s, i))
  }

  function Run(s: State, acts: seq<Action>): State {
    if acts == [] then s else Step(Run(s, acts[..|acts| - 1]), acts[|acts| - 1])
  }

  lemma RunOneMore(s: State, acts: seq<Action>, a: Action)
    ensures Run(s, acts + [a]) == Step(Run(s, acts), a)
  {
    OneMore(acts, a);
  }
}
