/** Which locks a process holds between two system calls. */
module HeldLocks {
  import opened Core
  import opened Posix
  import opened Processes
  import opened ProcessInvariants
  import opened ProcessSteps
  import opened OneCall

  /** The files a process has locked for reading, by where its command is. */
  function ReadLocks(j: Job): set<Ino> {
    match j
    case DlLocked(i, _, _) => {i}
    case DlSending(i, _, _, _, _) => {i}
    case DlDone(i, _, _, _, _) => {i}
    case CpReading(si, _, _, _) => {si}
    case CpCopying(si, _, _, _, _, _) => {si}
    case CpDone(si, _, _, _, _) => {si}
    case _ => {}
  }

  /** The files it has locked for a change. */
  function WriteLocks(j: Job): set<Ino> {
    match j
    case UpLocked(_, _, _, li, _) => {li}
    case UpReady(_, _, _, li) => {li}
    case UpPlaced(li) => {li}
    case WrLocked(_, _, _, i, _, _) => {i}
    case CpCopying(_, _, di, _, _, _) => {di}
    case CpDone(_, _, di, _, _) => {di}
    case MvLocked(_, _, si, _) => {si}
    case MvDest(_, _, si, _) => {si}
    case MvReady(_, _, si, dest) => if dest.Some? then {si, dest.value} else {si}
    case MvDone(si, dest, _) => if dest.Some? then {si, dest.value} else {si}
    case RmLocked(_, i) => {i}
    case RmDone(i, _) => {i}
    case _ => {}
  }

  /** The process has locked exactly these. */
  ghost predicate Has(s: State, p: Pid, rs: set<Ino>, ws: set<Ino>) {
    && (forall i :: (p, i) in s.readers <==> i in rs)
    && (forall i :: (p, i) in s.writers <==> i in ws)
  }

  ghost predicate Holding(s: State, p: Pid, j: Job) {
    Has(s, p, ReadLocks(j), WriteLocks(j))
  }

  ghost predicate OthersKeep(s: State, s': State, p: Pid) {
    forall q, i :: q != p ==>
      ((q, i) in s'.readers <==> (q, i) in s.readers) && ((q, i) in s'.writers <==> (q, i) in s.writers)
  }

  /** A call of `p` leaves the locks of the others, and its own are those of its new place. */
  ghost predicate Handles(s: State, s': State, p: Pid) {
    Holding(s', p, JobOf(s', p)) && OthersKeep(s, s', p)
  }

  lemma Kept(s: State, s': State, p: Pid, rs: set<Ino>, ws: set<Ino>)
    requires Has(s, p, rs, ws) && s'.readers == s.readers && s'.writers == s.writers
    requires ReadLocks(JobOf(s', p)) == rs && WriteLocks(JobOf(s', p)) == ws
    ensures Handles(s, s', p)
  {
  }

  lemma ReadLocked(s: State, p: Pid, i: Ino, j: Job, rs: set<Ino>, ws: set<Ino>)
    requires Has(s, p, rs, ws) && ReadLocks(j) == rs + {i} && WriteLocks(j) == ws - {i}
    ensures Handles(s, Become(LockRead(s, p, i), p, j), p)
  {
  }

  lemma WriteLocked(s: State, p: Pid, i: Ino, j: Job, rs: set<Ino>, ws: set<Ino>)
    requires Has(s, p, rs, ws) && ReadLocks(j) == rs - {i} && WriteLocks(j) == ws + {i}
    ensures Handles(s, Become(LockWrite(s, p, i), p, j), p)
  {
  }

  lemma Unlocked(s: State, p: Pid, i: Ino, j: Job, rs: set<Ino>, ws: set<Ino>)
    requires Has(s, p, rs, ws) && ReadLocks(j) == rs - {i} && WriteLocks(j) == ws - {i}
    ensures Handles(s, Become(Close(s, p, i), p, j), p)
  {
  }

  lemma BothUnlocked(s: State, p: Pid, i: Ino, k: Option<Ino>, j: Job, rs: set<Ino>, ws: set<Ino>)
    requires Has(s, p, rs, ws) && ReadLocks(j) == {} && WriteLocks(j) == {}
    requires forall x :: x in rs || x in ws ==> x == i || k == Some(x)
    ensures Handles(s, Become(CloseBoth(s, p, i, k), p, j), p)
  {
  }

  lemma DownloadHandles(s: State, p: Pid, j: Job, ok: bool, n: nat)
    requires Holding(s, p, j) && (j.DlOpen? || j.DlLocked? || j.DlSending? || j.DlDone?)
    ensures Handles(s, DownloadStep(s, p, j, ok, n), p)
  {
    hide LockRead, Close, Has, OthersKeep, Data, ChunkLength;
    var s', j' := DownloadStep(s, p, j, ok, n), JobOf(DownloadStep(s, p, j, ok, n), p);
    if j'.Replies? {
      Unlocked(s, p, j.i, j', ReadLocks(j), WriteLocks(j));
    } else if j'.DlLocked? {
      ReadLocked(s, p, j.i, j', ReadLocks(j), WriteLocks(j));
    } else {
      Kept(s, s', p, ReadLocks(j), WriteLocks(j));
    }
  }

  lemma UploadHandles(s: State, p: Pid, j: Job, ok: bool, n: nat, name: Path)
    requires Holding(s, p, j) && IsUpload(j)
    ensures Handles(s, UploadStep(s, p, j, ok, n, name), p)
  {
    hide LockWrite, Close, Has, OthersKeep, Overlay, IsFile, CreateFile, Temporary, Data, ChunkLength;
    var s', j' := UploadStep(s, p, j, ok, n, name), JobOf(UploadStep(s, p, j, ok, n, name), p);
    if j.UpPlaced? || ((j.UpOpen? || j.UpLocked? || j.UpReady?) && j'.UpUndoTemp?) {
      UploadCloses(s, p, j, ok, n, name, j');
    } else if j'.UpLocked? && j.UpOpen? {
      WriteLocked(s, p, j.li, j', ReadLocks(j), WriteLocks(j));
    } else {
      Kept(s, s', p, ReadLocks(j), WriteLocks(j));
    }
  }

  lemma UploadCloses(s: State, p: Pid, j: Job, ok: bool, n: nat, name: Path, j': Job)
    requires Holding(s, p, j) && IsUpload(j) && j' == JobOf(UploadStep(s, p, j, ok, n, name), p)
    requires j.UpPlaced? || ((j.UpOpen? || j.UpLocked? || j.UpReady?) && j'.UpUndoTemp?)
    ensures Handles(s, UploadStep(s, p, j, ok, n, name), p)
  {
    hide Close, Has, OthersKeep, Overlay, IsFile, Data, ChunkLength;
    Unlocked(s, p, j.li, j', ReadLocks(j), WriteLocks(j));
  }

  lemma WriteHandles(s: State, p: Pid, j: Job, ok: bool, bytes: seq<byte>)
    requires Holding(s, p, j) && IsWrite(j)
    ensures Handles(s, WriteStep(s, p, j, ok, bytes), p)
  {
    hide LockWrite, Close, Has, OthersKeep, Overlay, IsFile, CreateFile, Data;
    var s', j' := WriteStep(s, p, j, ok, bytes), JobOf(WriteStep(s, p, j, ok, bytes), p);
    if (j.WrOpen? || j.WrLocked?) && !j'.WrLocked? {
      Unlocked(s, p, j.i, j', ReadLocks(j), WriteLocks(j));
    } else if j.WrOpen? {
      WriteLocked(s, p, j.i, j', ReadLocks(j), WriteLocks(j));
    } else {
      Kept(s, s', p, ReadLocks(j), WriteLocks(j));
    }
  }

  lemma CopyHandles(s: State, p: Pid, j: Job, ok: bool, n: nat)
    requires Holding(s, p, j) && IsCopy(j) && (j.CpReading? ==> j.si != j.di)
    ensures Handles(s, CopyStep(s, p, j, ok, n), p)
  {
    hide LockRead, LockWrite, Close, CloseBoth, Has, OthersKeep, Overlay, CreateFile, Data, ChunkLength;
    var s', j' := CopyStep(s, p, j, ok, n), JobOf(CopyStep(s, p, j, ok, n), p);
    if j.CpUndo? {
      Kept(s, s', p, {}, {});
    } else if j'.Replies? || j'.CpUndo? {
      if j.CpSource? {
        Unlocked(s, p, j.si, j', {}, {});
      } else {
        BothUnlocked(s, p, j.si, Some(j.di), j', ReadLocks(j), WriteLocks(j));
      }
    } else if j'.CpReading? {
      ReadLocked(s, p, j.si, j', {}, {});
    } else if j.CpReading? {
      WriteLocked(s, p, j.di, j', {j.si}, {});
    } else {
      Kept(s, s', p, ReadLocks(j), WriteLocks(j));
    }
  }

  lemma MoveHandles(s: State, p: Pid, j: Job, ok: bool)
    requires Holding(s, p, j) && IsMove(j)
    ensures Handles(s, MoveStep(s, p, j, ok), p)
  {
    hide LockWrite, Close, CloseBoth, Has, OthersKeep, IsFile, CreateFile, CanRename, Rename, CanWrite;
    var s', j' := MoveStep(s, p, j, ok), JobOf(MoveStep(s, p, j, ok), p);
    if j'.Replies? {
      if j.MvOpen? || j.MvLocked? {
        Unlocked(s, p, j.si, j', ReadLocks(j), WriteLocks(j));
      } else {
        MoveCloses(s, p, j, ok, j');
      }
    } else if j.MvOpen? {
      WriteLocked(s, p, j.si, j', {}, {});
    } else if j.MvDest? && j.dest.Some? {
      WriteLocked(s, p, j.dest.value, j', {}, {j.si});
    } else {
      Kept(s, s', p, ReadLocks(j), WriteLocks(j));
    }
  }

  lemma MoveCloses(s: State, p: Pid, j: Job, ok: bool, j': Job)
    requires Holding(s, p, j) && (j.MvDest? || j.MvDone?)
    requires j' == JobOf(MoveStep(s, p, j, ok), p) && j'.Replies?
    ensures Handles(s, MoveStep(s, p, j, ok), p)
  {
    hide LockWrite, CloseBoth, Has, OthersKeep, CanWrite;
    BothUnlocked(s, p, j.si, j.dest, j', {}, WriteLocks(j));
  }

  lemma DeleteHandles(s: State, p: Pid, j: Job, ok: bool)
    requires Holding(s, p, j) && (j.RmOpen? || j.RmLocked? || j.RmDone?)
    ensures Handles(s, DeleteStep(s, p, j, ok), p)
  {
    hide LockWrite, Close, Has, OthersKeep, IsFile, CanWrite;
    var s', j' := DeleteStep(s, p, j, ok), JobOf(DeleteStep(s, p, j, ok), p);
    if j'.Replies? {
      Unlocked(s, p, j.i, j', ReadLocks(j), WriteLocks(j));
    } else if j'.RmLocked? {
      WriteLocked(s, p, j.i, j', {}, {});
    } else {
      Kept(s, s', p, ReadLocks(j), WriteLocks(j));
    }
  }

  lemma GoHandles(s: State, p: Pid, ok: bool, n: nat, bytes: seq<byte>, name: Path)
    requires Inv(s) && p in s.jobs && Holding(s, p, s.jobs[p])
    ensures Handles(s, GoStep(s, p, s.jobs[p], ok, n, bytes, name), p)
  {
    hide Handles, Holding;
    var j := s.jobs[p];
    if j.Idle? || j.Replies? {
      AnsweredHandles(s, p, j);
    } else if j.DlOpen? || j.DlLocked? || j.DlSending? || j.DlDone? {
      DownloadHandles(s, p, j, ok, n);
    } else if IsUpload(j) {
      UploadHandles(s, p, j, ok, n, name);
    } else if IsWrite(j) {
      WriteHandles(s, p, j, ok, bytes);
    } else if IsCopy(j) {
      JobHolds(s, p);
      CopyHandles(s, p, j, ok, n);
    } else if IsMove(j) {
      MoveHandles(s, p, j, ok);
    } else {
      DeleteHandles(s, p, j, ok);
    }
  }

  lemma AnsweredHandles(s: State, p: Pid, j: Job)
    requires p in s.jobs && s.jobs[p] == j && Holding(s, p, j) && (j.Idle? || j.Replies?)
    ensures Handles(s, s, p) && Handles(s, Become(s, p, Idle), p)
  {
  }

  lemma BeginHandles(s: State, p: Pid, c: Command)
    requires Holding(s, p, Idle)
    ensures Handles(s, BeginStep(s, p, c), p)
  {
  }

  lemma StepHolds(s: State, a: Action, p: Pid)
    requires Inv(s) && Holding(s, a.p, JobOf(s, a.p)) && Holding(s, p, JobOf(s, p))
    ensures Holding(Step(s, a), p, JobOf(Step(s, a), p))
  {
    hide Inv, BeginStep, GoStep;
    if a.p != p {
      OthersKeepTheirJob(s, a, p);
    }
    if a.Begin? && a.p in s.jobs && s.jobs[a.p].Idle? && Admissible(a.c) {
      BeginHandles(s, a.p, a.c);
      OthersHold(s, Step(s, a), a.p, p);
    } else if a.Go? && a.p in s.jobs {
      GoHandles(s, a.p, a.ok, a.n, a.bytes, a.name);
      OthersHold(s, Step(s, a), a.p, p);
    }
  }

  lemma OthersHold(s: State, s': State, q: Pid, p: Pid)
    requires Handles(s, s', q) && (p != q ==> Holding(s, p, JobOf(s, p)) && JobOf(s', p) == JobOf(s, p))
    ensures Holding(s', p, JobOf(s', p))
  {
  }

  /**
    In every run and at every step a process holds exactly the locks its command needs where it
    is: none before the command has asked for one, none when the client is told how it went, and
    none after the process died.
  */
  lemma {:induction false} HoldsExactly(boot: State, acts: seq<Action>, p: Pid)
    requires Boot(boot)
    ensures Holding(Run(boot, acts), p, JobOf(Run(boot, acts), p))
  {
    hide Holding, Step, Inv;
    if acts == [] {
      NoneAtBoot(boot, p);
    } else {
      var before, a := acts[..|acts| - 1], acts[|acts| - 1];
      RunKeepsInv(boot, before);
      HoldsExactly(boot, before, p);
      HoldsExactly(boot, before, a.p);
      StepHolds(Run(boot, before), a, p);
    }
  }

  lemma NoneAtBoot(boot: State, p: Pid)
    requires Boot(boot)
    ensures Holding(boot, p, JobOf(boot, p))
  {
  }
}
