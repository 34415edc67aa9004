/**
  What every interleaving of the server processes keeps.

  The invariant has four parts: names and inodes (no inode has two names, numbers are not reused),
  locks (a write lock excludes every other lock), histories (an inode holds what its origin says)
  and jobs (what a process knows about its files between two system calls).

  The proofs follow one scheme. A step of a process is discreet when the others do not notice it:
  their locks stay, the files they have locked keep their content, and their temporary files stay
  theirs. `JobFrame` carries what a process knows across a discreet step of another, `MovesOn`
  puts the step of the process itself on top, and the lemmas below show for each kind of change to
  locks and files that it is discreet.
*/
module ProcessInvariants {
  import opened Core
  import opened Posix
  import opened Processes

  // ---------------------------------------------------------------- the invariant

  /** No inode has two names, and inode numbers are never reused. */
  ghost predicate FsInv(s: State) {
    && Closed(s.fs)
    && (forall a, b :: a in s.fs.names && b in s.fs.names && a != b ==> s.fs.names[a] != s.fs.names[b])
    && (forall i :: i in s.fs.nodes ==> i < s.nextIno)
    && s.origin.Keys == s.fs.nodes.Keys
  }

  /** A write lock excludes every other lock on the inode. */
  ghost predicate LockInv(s: State) {
    forall w, x :: w in s.writers && (x in s.readers || x in s.writers) && w.1 == x.1 ==> w.0 == x.0
  }

  /** An inode holds what its origin says. */
  ghost predicate Holds(o: Origin, data: seq<byte>, uploads: seq<seq<byte>>) {
    match o
    case Initial(d) => data == d
    case Blank => data == []
    case Partial(_, id) => id < |uploads| && data <= uploads[id]
    case Complete(id) => id < |uploads| && data == uploads[id]
    case Patched => true
  }

  predicate FromUpload(o: Origin, id: nat) {
    (o.Partial? && o.id == id) || (o.Complete? && o.id == id)
  }

  ghost predicate OriginInv(s: State) {
    && (forall i :: i in s.origin ==> Holds(s.origin[i], Data(s, i), s.uploads))
    && (forall i, k, id ::
          i in s.origin && k in s.origin && FromUpload(s.origin[i], id) && FromUpload(s.origin[k], id) ==> i == k)
    && (forall path :: path in s.fs.names && !Temporary(path) && s.fs.names[path] in s.origin ==>
          !s.origin[s.fs.names[path]].Partial?)
  }

  /** A file another process may have open too: never the temporary file of an upload under way. */
  predicate Public(s: State, i: Ino) {
    i in s.fs.nodes && s.fs.nodes[i].File? && i in s.origin && !s.origin[i].Partial?
  }

  /** The temporary file of an upload: only its owner knows it, and it holds the first `got` bytes. */
  ghost predicate Private(s: State, p: Pid, u: Up, t: Path, ti: Ino, got: nat) {
    && !Temporary(u.path) && Temporary(t)
    && t in s.fs.names && s.fs.names[t] == ti && ti in s.fs.nodes && s.fs.nodes[ti].File?
    && ti in s.origin && s.origin[ti] == Partial(p, u.id)
    && u.id < |s.uploads| && s.uploads[u.id] == u.source
    && got <= |u.source| && Data(s, ti) == u.source[..got]
  }

  /** A started upload whose number no inode carries yet. */
  ghost predicate Numbered(s: State, u: Up) {
    && !Temporary(u.path) && u.id < |s.uploads| && s.uploads[u.id] == u.source
    && forall i :: i in s.origin ==> !FromUpload(s.origin[i], u.id)
  }

  ghost predicate DownloadInv(s: State, p: Pid, j: Job) {
    match j
    case DlOpen(i, _) => Public(s, i)
    case DlLocked(i, _, snap) => Public(s, i) && (p, i) in s.readers && Data(s, i) == snap
    case DlSending(i, offset, snap, announced, sent) =>
      && Public(s, i) && (p, i) in s.readers && Data(s, i) == snap
      && sent <= From(snap, offset) && announced == |From(snap, offset)|
    case DlDone(i, offset, snap, announced, sent) =>
      && Public(s, i) && (p, i) in s.readers && Data(s, i) == snap
      && sent == From(snap, offset) && announced == |sent|
    case _ => true
  }

  ghost predicate UploadInv(s: State, p: Pid, j: Job) {
    match j
    case UpStart(u) => Numbered(s, u)
    case UpTemp(u, t, ti) => Private(s, p, u, t, ti, 0)
    case UpOpen(u, t, ti, li) => Private(s, p, u, t, ti, 0) && Public(s, li)
    case UpLocked(u, t, ti, li, got) => Private(s, p, u, t, ti, got) && Public(s, li) && (p, li) in s.writers
    case UpReady(u, t, ti, li) => Private(s, p, u, t, ti, |u.source|) && Public(s, li) && (p, li) in s.writers
    case UpPlaced(li) => true
    case UpUndoTemp(u, t, ti) => exists got :: Private(s, p, u, t, ti, got)
    case UpUndoTarget(path) => !Temporary(path)
    case _ => true
  }

  ghost predicate InPlaceInv(s: State, p: Pid, j: Job) {
    match j
    case WrStart(path, _, _) => !Temporary(path)
    case WrOpen(path, _, _, i) => !Temporary(path) && Public(s, i)
    case WrLocked(path, _, offset, i, base, written) =>
      !Temporary(path) && Public(s, i) && (p, i) in s.writers && Data(s, i) == Overlay(base, offset, written)
    case WrUndo(path) => !Temporary(path)
    case CpSource(si, dst) => !Temporary(dst) && Public(s, si)
    case CpCreated(si, dst, di) => !Temporary(dst) && Public(s, si) && Public(s, di) && si != di
    case CpReading(si, dst, di, snap) =>
      !Temporary(dst) && Public(s, si) && Public(s, di) && si != di && (p, si) in s.readers && Data(s, si) == snap
    case CpCopying(si, dst, di, snap, base, done) =>
      && !Temporary(dst) && Public(s, si) && Public(s, di) && si != di && (p, si) in s.readers && (p, di) in s.writers
      && Data(s, si) == snap && done <= |snap| && Data(s, di) == Overlay(base, 0, snap[..done])
    case CpDone(si, dst, di, snap, base) =>
      && !Temporary(dst) && Public(s, si) && Public(s, di) && si != di && (p, si) in s.readers && (p, di) in s.writers
      && Data(s, si) == snap && Data(s, di) == Overlay(base, 0, snap)
    case CpUndo(dst) => !Temporary(dst)
    case _ => true
  }

  ghost predicate MoveInv(s: State, p: Pid, j: Job) {
    match j
    case MvOpen(from, to, si, _) => !Temporary(from) && !Temporary(to)
    case MvLocked(from, to, si, _) => !Temporary(from) && !Temporary(to) && (p, si) in s.writers
    case MvDest(from, to, si, di) => !Temporary(from) && !Temporary(to) && (p, si) in s.writers
    case MvReady(from, to, si, di) =>
      !Temporary(from) && !Temporary(to) && (p, si) in s.writers && (di.Some? ==> (p, di.value) in s.writers)
    case RmOpen(path, i) => !Temporary(path)
    case RmLocked(path, i) => !Temporary(path) && (p, i) in s.writers
    case _ => true
  }

  ghost predicate JobInv(s: State, p: Pid, j: Job) {
    DownloadInv(s, p, j) && UploadInv(s, p, j) && InPlaceInv(s, p, j) && MoveInv(s, p, j)
  }

  /** No two processes work for the same upload. */
  function UploadOf(j: Job): Option<nat> {
    match j
    case UpStart(u) => Some(u.id)
    case UpTemp(u, _, _) => Some(u.id)
    case UpOpen(u, _, _, _) => Some(u.id)
    case UpLocked(u, _, _, _, _) => Some(u.id)
    case UpReady(u, _, _, _) => Some(u.id)
    case UpUndoTemp(u, _, _) => Some(u.id)
    case _ => None
  }

  ghost predicate JobsInv(s: State) {
    && (forall p :: p in s.jobs ==> JobInv(s, p, s.jobs[p]))
    && (forall p, q :: p in s.jobs && q in s.jobs && p != q && UploadOf(s.jobs[p]).Some? ==>
          UploadOf(s.jobs[p]) != UploadOf(s.jobs[q]))
  }

  ghost predicate Inv(s: State) {
    FsInv(s) && LockInv(s) && OriginInv(s) && JobsInv(s)
  }

  lemma BootIsSafe(s: State)
    requires Boot(s)
    ensures Inv(s)
  {
    forall i | i in s.origin ensures s.origin[i].Initial? && Holds(s.origin[i], Data(s, i), s.uploads) {
      assert i in s.fs.nodes;
    }
    forall path | path in s.fs.names && s.fs.names[path] in s.origin ensures !s.origin[s.fs.names[path]].Partial? {
      var i := s.fs.names[path];
      assert i in s.fs.nodes && s.origin[i] == Initial(Data(s, i));
    }
  }

  // ---------------------------------------------------------------- what a step leaves alone

  ghost predicate World(s: State) {
    FsInv(s) && LockInv(s) && OriginInv(s)
  }

  /** From `s` to `s'` nothing happens to the locks, locked files and temporary file of `q`. */
  ghost predicate Undisturbed(s: State, s': State, q: Pid, j: Job) {
    && s.uploads <= s'.uploads
    && (forall i :: (q, i) in s.readers ==> (q, i) in s'.readers)
    && (forall i :: (q, i) in s.writers ==> (q, i) in s'.writers)
    && (forall i :: Public(s, i) ==> Public(s', i))
    && (forall i :: Public(s, i) && ((q, i) in s.readers || (q, i) in s.writers) ==> Data(s', i) == Data(s, i))
    && (forall t :: OwnsTemp(s, q, t) ==> SameTemp(s, s', t))
    && (UploadOf(j).Some? ==> forall i :: i in s'.origin && FromUpload(s'.origin[i], UploadOf(j).value) ==>
          i in s.origin && FromUpload(s.origin[i], UploadOf(j).value))
  }

  /** `t` names a temporary file of `q`. */
  ghost predicate OwnsTemp(s: State, q: Pid, t: Path) {
    && t in s.fs.names && Temporary(t) && s.fs.names[t] in s.origin
    && s.origin[s.fs.names[t]].Partial? && s.origin[s.fs.names[t]].owner == q
  }

  ghost predicate SameTemp(s: State, s': State, t: Path) {
    && t in s.fs.names && t in s'.fs.names && s'.fs.names[t] == s.fs.names[t]
    && var ti := s.fs.names[t];
      && (ti in s.fs.nodes ==> ti in s'.fs.nodes && s'.fs.nodes[ti] == s.fs.nodes[ti])
      && ti in s.origin && ti in s'.origin && s'.origin[ti] == s.origin[ti]
  }

  lemma PrivateFrame(s: State, s': State, q: Pid, j: Job, u: Up, t: Path, ti: Ino, got: nat)
    requires Undisturbed(s, s', q, j) && Private(s, q, u, t, ti, got)
    ensures Private(s', q, u, t, ti, got)
  {
    assert SameTemp(s, s', t);
  }

  lemma LockFrame(s: State, s': State, q: Pid, j: Job, i: Ino)
    requires Undisturbed(s, s', q, j) && (q, i) in s.writers
    ensures (q, i) in s'.writers
  {
  }

  lemma DownloadFrame(s: State, s': State, q: Pid, j: Job)
    requires Undisturbed(s, s', q, j) && DownloadInv(s, q, j)
    ensures DownloadInv(s', q, j)
  {
    hide Public, OwnsTemp, SameTemp;
  }

  lemma UploadFrame(s: State, s': State, q: Pid, j: Job)
    requires Undisturbed(s, s', q, j) && UploadInv(s, q, j)
    ensures UploadInv(s', q, j)
  {
    match j
    case UpTemp(u, t, ti) => PrivateFrame(s, s', q, j, u, t, ti, 0);
    case UpOpen(u, t, ti, _) => PrivateFrame(s, s', q, j, u, t, ti, 0);
    case UpLocked(u, t, ti, _, got) => PrivateFrame(s, s', q, j, u, t, ti, got);
    case UpReady(u, t, ti, _) => PrivateFrame(s, s', q, j, u, t, ti, |u.source|);
    case UpUndoTemp(u, t, ti) =>
      var got :| Private(s, q, u, t, ti, got);
      PrivateFrame(s, s', q, j, u, t, ti, got);
    case _ =>
  }

  lemma InPlaceFrame(s: State, s': State, q: Pid, j: Job)
    requires Undisturbed(s, s', q, j) && InPlaceInv(s, q, j)
    ensures InPlaceInv(s', q, j)
  {
    hide Public, OwnsTemp, SameTemp, Overlay;
  }

  lemma MoveFrame(s: State, s': State, q: Pid, j: Job)
    requires Undisturbed(s, s', q, j) && MoveInv(s, q, j)
    ensures MoveInv(s', q, j)
  {
    hide Public, OwnsTemp, SameTemp;
    if j.MvReady? && j.dest.Some? {
      LockFrame(s, s', q, j, j.dest.value);
    }
  }

  lemma JobFrame(s: State, s': State, q: Pid, j: Job)
    requires Undisturbed(s, s', q, j) && JobInv(s, q, j)
    ensures JobInv(s', q, j)
  {
    hide Undisturbed, DownloadInv, UploadInv, InPlaceInv, MoveInv;
    DownloadFrame(s, s', q, j);
    UploadFrame(s, s', q, j);
    InPlaceFrame(s, s', q, j);
    MoveFrame(s, s', q, j);
  }

  /** Nobody but `p` notices what happens from `s` to `s'`. */
  ghost predicate Discreet(s: State, s': State, p: Pid) {
    && s'.jobs == s.jobs
    && forall q :: q in s.jobs && q != p ==> Undisturbed(s, s', q, s.jobs[q])
  }

  /** One process moves on to its next call. */
  lemma MovesOn(s: State, s1: State, p: Pid, j: Job)
    requires Inv(s) && p in s.jobs && World(s1) && Discreet(s, s1, p) && JobInv(s1, p, j)
    requires UploadOf(j).None? || UploadOf(j) == UploadOf(s.jobs[p])
    ensures Inv(Become(s1, p, j))
  {
    hide JobInv, Undisturbed;
    var s' := Become(s1, p, j);
    forall q | q in s'.jobs ensures JobInv(s', q, s'.jobs[q]) {
      if q != p {
        JobFrame(s, s1, q, s.jobs[q]);
      }
      JobsDoNotMatter(s1, s', q, s'.jobs[q]);
    }
  }

  lemma JobsDoNotMatter(s: State, s': State, q: Pid, j: Job)
    requires s' == s.(jobs := s'.jobs) && JobInv(s, q, j)
    ensures JobInv(s', q, j)
  {
    hide JobInv;
    JobFrame(s, s', q, j);
  }

  // ---------------------------------------------------------------- steps that touch locks only

  lemma NothingChanges(s: State, p: Pid)
    requires Inv(s)
    ensures World(s) && Discreet(s, s, p)
  {
  }

  lemma LockReadIsDiscreet(s: State, p: Pid, i: Ino)
    requires Inv(s) && CanRead(s, p, i)
    ensures World(LockRead(s, p, i)) && Discreet(s, LockRead(s, p, i), p)
  {
    hide JobInv;
  }

  lemma LockWriteIsDiscreet(s: State, p: Pid, i: Ino)
    requires Inv(s) && CanWrite(s, p, i)
    ensures World(LockWrite(s, p, i)) && Discreet(s, LockWrite(s, p, i), p)
  {
    hide JobInv;
  }

  lemma CloseIsDiscreet(s: State, p: Pid, i: Ino)
    requires Inv(s)
    ensures World(Close(s, p, i)) && Discreet(s, Close(s, p, i), p)
  {
    hide JobInv;
  }

  lemma CloseBothIsDiscreet(s: State, p: Pid, i: Ino, k: Option<Ino>)
    requires Inv(s)
    ensures World(CloseBoth(s, p, i, k)) && Discreet(s, CloseBoth(s, p, i, k), p)
  {
    hide JobInv;
    CloseIsDiscreet(s, p, i);
  }

  // ---------------------------------------------------------------- steps that touch files

  /** A new file is a placeholder, or the temporary file of an upload that has none yet. */
  ghost predicate MayCreate(s: State, p: Pid, path: Path, o: Origin) {
    && path !in s.fs.names && p in s.jobs
    && (o == Blank
        || (o.Partial? && o.owner == p && Temporary(path) && o.id < |s.uploads| && UploadOf(s.jobs[p]) == Some(o.id)
            && forall i :: i in s.origin ==> !FromUpload(s.origin[i], o.id)))
  }

  lemma NewFileKeepsFs(s: State, path: Path, o: Origin)
    requires FsInv(s) && path !in s.fs.names
    ensures FsInv(NewFile(s, path, o))
  {
    var s' := NewFile(s, path, o);
    assert forall a :: a in s.fs.names ==> s'.fs.names[a] == s.fs.names[a] != s.nextIno;
  }

  lemma NewFileKeepsOrigin(s: State, p: Pid, path: Path, o: Origin)
    requires FsInv(s) && OriginInv(s) && MayCreate(s, p, path, o)
    ensures OriginInv(NewFile(s, path, o)) && Data(NewFile(s, path, o), s.nextIno) == []
  {
    NewFileKeepsData(s, p, path, o);
    NewFileKeepsNumbers(s, p, path, o);
    var s' := NewFile(s, path, o);
    assert forall a :: a in s.fs.names && a != path ==>
      a in s'.fs.names && s'.fs.names[a] == s.fs.names[a] != s.nextIno;
  }

  lemma NewFileKeepsData(s: State, p: Pid, path: Path, o: Origin)
    requires FsInv(s) && OriginInv(s) && MayCreate(s, p, path, o)
    ensures var s' := NewFile(s, path, o);
      && Data(s', s.nextIno) == []
      && forall i :: i in s'.origin ==> Holds(s'.origin[i], Data(s', i), s'.uploads)
  {
    hide Holds;
    var s' := NewFile(s, path, o);
    assert forall i :: i in s.origin ==> i != s.nextIno && s'.origin[i] == s.origin[i] && Data(s', i) == Data(s, i);
    NewFileHolds(s, p, path, o);
  }

  lemma NewFileKeepsNumbers(s: State, p: Pid, path: Path, o: Origin)
    requires FsInv(s) && OriginInv(s) && MayCreate(s, p, path, o)
    ensures var s' := NewFile(s, path, o);
      forall i, k, id ::
        i in s'.origin && k in s'.origin && FromUpload(s'.origin[i], id) && FromUpload(s'.origin[k], id) ==> i == k
  {
    hide Holds;
  }

  lemma NewFileHolds(s: State, p: Pid, path: Path, o: Origin)
    requires MayCreate(s, p, path, o)
    ensures Holds(o, [], s.uploads)
  {
  }

  lemma NewFileIsDiscreet(s: State, p: Pid, path: Path, o: Origin)
    requires Inv(s) && MayCreate(s, p, path, o)
    ensures World(NewFile(s, path, o)) && Discreet(s, NewFile(s, path, o), p)
    ensures Data(NewFile(s, path, o), s.nextIno) == []
  {
    var s' := NewFile(s, path, o);
    NewFileKeepsFs(s, path, o);
    NewFileKeepsOrigin(s, p, path, o);
    assert LockInv(s');
    forall q | q in s.jobs && q != p ensures Undisturbed(s, s', q, s.jobs[q]) {
      NewFileUnnoticed(s, p, path, o, q);
    }
  }

  lemma NewFileUnnoticed(s: State, p: Pid, path: Path, o: Origin, q: Pid)
    requires FsInv(s) && JobsInv(s) && MayCreate(s, p, path, o) && q in s.jobs && q != p
    ensures Undisturbed(s, NewFile(s, path, o), q, s.jobs[q])
  {
    var s' := NewFile(s, path, o);
    assert forall i :: i in s.fs.nodes ==>
      i != s.nextIno && s'.fs.nodes[i] == s.fs.nodes[i] && s'.origin[i] == s.origin[i];
    forall t | OwnsTemp(s, q, t) ensures SameTemp(s, s', t) {
      assert s.fs.names[t] in s.fs.nodes;
    }
  }

  /** A file nobody else can be reading, writing or uploading. */
  ghost predicate MayStore(s: State, p: Pid, i: Ino, data: seq<byte>, o: Origin) {
    && i in s.fs.nodes && s.fs.nodes[i].File? && i in s.origin && Holds(o, data, s.uploads)
    && ((Public(s, i) && (p, i) in s.writers && o == Patched)
        || (s.origin[i].Partial? && s.origin[i].owner == p && o == s.origin[i]))
  }

  lemma StoreIsDiscreet(s: State, p: Pid, i: Ino, data: seq<byte>, o: Origin)
    requires Inv(s) && MayStore(s, p, i, data, o)
    ensures World(Store(s, i, data, o)) && Discreet(s, Store(s, i, data, o), p)
    ensures Data(Store(s, i, data, o), i) == data
  {
    var s' := Store(s, i, data, o);
    assert s'.fs.names == s.fs.names && s'.readers == s.readers && s'.writers == s.writers;
    StoreKeepsOrigin(s, p, i, data, o);
    forall q | q in s.jobs && q != p ensures Undisturbed(s, s', q, s.jobs[q]) {
      StoreUnnoticed(s, p, i, data, o, q);
    }
  }

  lemma StoreKeepsOrigin(s: State, p: Pid, i: Ino, data: seq<byte>, o: Origin)
    requires FsInv(s) && OriginInv(s) && MayStore(s, p, i, data, o)
    ensures OriginInv(Store(s, i, data, o)) && FsInv(Store(s, i, data, o))
  {
    var s' := Store(s, i, data, o);
    assert forall k :: k in s.origin && k != i ==> s'.origin[k] == s.origin[k] && Data(s', k) == Data(s, k);
  }

  lemma StoreUnnoticed(s: State, p: Pid, i: Ino, data: seq<byte>, o: Origin, q: Pid)
    requires Inv(s) && MayStore(s, p, i, data, o) && q in s.jobs && q != p
    ensures Undisturbed(s, Store(s, i, data, o), q, s.jobs[q])
  {
    var s' := Store(s, i, data, o);
    assert forall k :: k in s.fs.nodes && k != i ==> s'.fs.nodes[k] == s.fs.nodes[k];
    assert forall k :: k in s.origin && k != i ==> s'.origin[k] == s.origin[k];
    forall t | OwnsTemp(s, q, t) ensures SameTemp(s, s', t) {
      assert s.fs.names[t] != i;
    }
  }

  /** Names a process may remove: those of clients and its own temporary one. */
  ghost predicate MayDrop(s: State, p: Pid, path: Path) {
    !Temporary(path) || OwnsTemp(s, p, path)
  }

  lemma DropIsDiscreet(s: State, p: Pid, path: Path)
    requires Inv(s) && MayDrop(s, p, path)
    ensures World(Drop(s, path)) && Discreet(s, Drop(s, path), p)
  {
    var s' := Drop(s, path);
    DropKeepsWorld(s, path);
    forall q | q in s.jobs && q != p ensures Undisturbed(s, s', q, s.jobs[q]) {
      DropUnnoticed(s, p, path, q);
    }
  }

  lemma DropKeepsWorld(s: State, path: Path)
    requires World(s)
    ensures World(Drop(s, path))
  {
    assert forall i :: Data(Drop(s, path), i) == Data(s, i);
  }

  lemma DropUnnoticed(s: State, p: Pid, path: Path, q: Pid)
    requires FsInv(s) && MayDrop(s, p, path) && q in s.jobs && q != p
    ensures Undisturbed(s, Drop(s, path), q, s.jobs[q])
  {
    var s' := Drop(s, path);
    assert s'.fs.nodes == s.fs.nodes;
    forall t | OwnsTemp(s, q, t) ensures SameTemp(s, s', t) {
      assert t != path;
    }
  }

  lemma RenameKeepsFs(s: State, from: Path, to: Path)
    requires FsInv(s) && CanRename(s, from, to)
    ensures FsInv(s.(fs := Rename(s.fs, from, to)))
  {
  }

  /** Renaming between names clients may use. */
  lemma RenameIsDiscreet(s: State, p: Pid, from: Path, to: Path)
    requires Inv(s) && CanRename(s, from, to) && !Temporary(from) && !Temporary(to)
    ensures World(s.(fs := Rename(s.fs, from, to))) && Discreet(s, s.(fs := Rename(s.fs, from, to)), p)
  {
    var s' := s.(fs := Rename(s.fs, from, to));
    RenameKeepsFs(s, from, to);
    assert s'.fs.nodes == s.fs.nodes;
    RenameKeepsOrigin(s, from, to);
    forall q | q in s.jobs && q != p ensures Undisturbed(s, s', q, s.jobs[q]) {
      RenameUnnoticed(s, from, to, q);
    }
  }

  lemma RenameKeepsOrigin(s: State, from: Path, to: Path)
    requires FsInv(s) && OriginInv(s) && CanRename(s, from, to) && !Temporary(from)
    ensures OriginInv(s.(fs := Rename(s.fs, from, to)))
  {
    var s' := s.(fs := Rename(s.fs, from, to));
    assert forall i :: Data(s', i) == Data(s, i);
  }

  lemma RenameUnnoticed(s: State, from: Path, to: Path, q: Pid)
    requires Inv(s) && CanRename(s, from, to) && !Temporary(from) && !Temporary(to) && q in s.jobs
    ensures Undisturbed(s, s.(fs := Rename(s.fs, from, to)), q, s.jobs[q])
  {
    var s' := s.(fs := Rename(s.fs, from, to));
    forall t | OwnsTemp(s, q, t) ensures SameTemp(s, s', t) {
      assert t != from && t != to;
    }
  }

  /** An upload is put in place. */
  lemma PlaceIsDiscreet(s: State, p: Pid, u: Up, t: Path, ti: Ino)
    requires Inv(s) && p in s.jobs && CanRename(s, t, u.path) && Private(s, p, u, t, ti, |u.source|)
    requires UploadOf(s.jobs[p]) == Some(u.id)
    ensures World(Placed(s, u, t, ti)) && Discreet(s, Placed(s, u, t, ti), p)
  {
    var s' := Placed(s, u, t, ti);
    RenameKeepsFs(s, t, u.path);
    PlaceKeepsOrigin(s, p, u, t, ti);
    assert LockInv(s');
    forall q | q in s.jobs && q != p ensures Undisturbed(s, s', q, s.jobs[q]) {
      PlaceUnnoticed(s, p, u, t, ti, q);
    }
  }

  lemma PlaceKeepsOrigin(s: State, p: Pid, u: Up, t: Path, ti: Ino)
    requires FsInv(s) && OriginInv(s) && CanRename(s, t, u.path) && Private(s, p, u, t, ti, |u.source|)
    ensures OriginInv(Placed(s, u, t, ti))
  {
    var s' := Placed(s, u, t, ti);
    assert u.source[..|u.source|] == u.source;
    assert forall i :: Data(s', i) == Data(s, i);
    assert forall k :: k in s.origin && k != ti ==> s'.origin[k] == s.origin[k];
  }

  lemma PlaceUnnoticed(s: State, p: Pid, u: Up, t: Path, ti: Ino, q: Pid)
    requires FsInv(s) && q in s.jobs && q != p && UploadOf(s.jobs[q]) != Some(u.id)
    requires CanRename(s, t, u.path) && Private(s, p, u, t, ti, |u.source|)
    ensures Undisturbed(s, Placed(s, u, t, ti), q, s.jobs[q])
  {
    var s' := Placed(s, u, t, ti);
    assert forall k :: k in s.origin && k != ti ==> s'.origin[k] == s.origin[k];
    forall x | OwnsTemp(s, q, x) ensures SameTemp(s, s', x) {
      assert x != t && x != u.path && s.fs.names[x] != ti;
    }
  }
}
