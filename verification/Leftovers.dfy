/** What failed commands leave behind. */
module Leftovers {
  import opened Core
  import opened Posix
  import opened Processes
  import opened ProcessInvariants
  import opened ProcessSteps
  import opened OneCall
  import opened CommandRuns
  import opened RacingWriters

  // ---------------------------------------------------------------- at the target

  /** A copy that has locked the file it created. */
  predicate Copies(j: Job) {
    j.CpCopying? || j.CpDone? || j.CpUndo? || j.Replies?
  }

  lemma UploadTidies(s: State, p: Pid, j: Job, ok: bool, n: nat, name: Path, c: Command, s0: State)
    requires IsUpload(j) && Serves(j, c, s0) && c.path !in s0.fs.names
    requires JobOf(UploadStep(s, p, j, ok, n, name), p) == Replies(false)
    ensures !IsFile(UploadStep(s, p, j, ok, n, name).fs, c.path)
  {
    hide Overlay;
  }

  lemma WriteTidies(s: State, p: Pid, j: Job, ok: bool, bytes: seq<byte>, c: Command, s0: State)
    requires IsWrite(j) && Serves(j, c, s0) && c.path !in s0.fs.names
    requires JobOf(WriteStep(s, p, j, ok, bytes), p) == Replies(false)
    ensures !IsFile(WriteStep(s, p, j, ok, bytes).fs, c.path)
  {
    hide Overlay;
  }

  lemma CopyTidies(s: State, p: Pid, j: Job, ok: bool, n: nat, c: Command, s0: State)
    requires IsCopy(j) && Serves(j, c, s0) && Copies(j)
    requires JobOf(CopyStep(s, p, j, ok, n), p) == Replies(false)
    ensures !IsFile(CopyStep(s, p, j, ok, n).fs, c.dst)
  {
    hide Overlay;
  }

  lemma CopyGoesOn(s: State, p: Pid, j: Job, ok: bool, n: nat)
    requires IsCopy(j) && Copies(j)
    ensures Copies(JobOf(CopyStep(s, p, j, ok, n), p))
  {
    hide Overlay;
  }

  /** The command works on a path it found absent, or on a copy it has begun to write. */
  predicate Owes(j: Job, c: Command, s0: State) {
    || ((c.Upload? || c.Write?) && c.path !in s0.fs.names)
    || (c.Copy? && Copies(j))
  }

  lemma KindOfJob(j: Job, c: Command, s0: State)
    requires Serves(j, c, s0) && !j.Replies?
    ensures c.Upload? ==> IsUpload(j)
    ensures c.Write? ==> IsWrite(j)
    ensures c.Copy? ==> IsCopy(j)
  {
  }

  lemma StepTidies(s: State, a: Action, p: Pid, c: Command, s0: State)
    requires Serves(JobOf(s, p), c, s0) && !JobOf(s, p).Replies? && Owes(JobOf(s, p), c, s0)
    requires JobOf(Step(s, a), p) == Replies(false)
    ensures !IsFile(Step(s, a).fs, if c.Copy? then c.dst else c.path)
  {
    hide Serves, UploadStep, WriteStep, CopyStep, BeginStep;
    var j := JobOf(s, p);
    KindOfJob(j, c, s0);
    if a.p != p {
      OthersKeepTheirJob(s, a, p);
    } else if a.Go? && p in s.jobs {
      if c.Upload? {
        UploadTidies(s, p, j, a.ok, a.n, a.name, c, s0);
      } else if c.Write? {
        WriteTidies(s, p, j, a.ok, a.bytes, c, s0);
      } else {
        CopyTidies(s, p, j, a.ok, a.n, c, s0);
      }
    }
  }

  lemma StepGoesOn(s: State, a: Action, p: Pid, c: Command, s0: State)
    requires Serves(JobOf(s, p), c, s0) && c.Copy? && Copies(JobOf(s, p))
    ensures JobOf(Step(s, a), p).Idle? || Copies(JobOf(Step(s, a), p))
  {
    hide Serves, CopyStep, BeginStep;
    var j := JobOf(s, p);
    if a.p != p {
      OthersKeepTheirJob(s, a, p);
    } else if a.Go? && p in s.jobs && !j.Replies? {
      KindOfJob(j, c, s0);
      CopyGoesOn(s, p, j, a.ok, a.n);
    }
  }

  lemma {:induction false} OnceCopying(boot: State, acts: seq<Action>, p: Pid, b: nat, w: nat, n: nat)
    requires Since(boot, acts, p, b) && acts[b].c.Copy? && b < w <= n <= |acts|
    requires JobOf(Run(boot, acts[..w]), p).CpCopying?
    ensures Copies(JobOf(Run(boot, acts[..n]), p))
  {
    hide Serves, Step, Run;
    if w < n {
      OnceCopying(boot, acts, p, b, w, n - 1);
      StepOfRun(boot, acts, n - 1);
      StepGoesOn(Run(boot, acts[..n - 1]), acts[n - 1], p, acts[b].c, Run(boot, acts[..b]));
      assert Serves(JobOf(Run(boot, acts[..n]), p), acts[b].c, Run(boot, acts[..b]));
      NotIdle(JobOf(Run(boot, acts[..n]), p), acts[b].c, Run(boot, acts[..b]));
    }
  }

  lemma NotIdle(j: Job, c: Command, s0: State)
    requires Serves(j, c, s0)
    ensures !j.Idle?
  {
  }

  /** Since step `m` the client of the command begun at `b` is to be told that it failed. */
  ghost predicate FailedAt(boot: State, acts: seq<Action>, p: Pid, b: nat, m: nat) {
    && Since(boot, acts, p, b) && b <= m < |acts| && !JobOf(Run(boot, acts[..m]), p).Replies?
    && forall n :: m < n <= |acts| ==> JobOf(Run(boot, acts[..n]), p) == Replies(false)
  }

  /**
    A failure leaves no part behind: when a command that found its target absent, or a copy that had
    begun to write the file it created, is over without success, no file is at its target.
  */
  lemma FailureLeavesNothing(boot: State, acts: seq<Action>, p: Pid) returns (b: nat, m: nat)
    requires Boot(boot) && JobOf(Run(boot, acts), p) == Replies(false)
    ensures FailedAt(boot, acts, p, b, m)
    ensures var c := acts[b].c;
      && ((c.Upload? || c.Write?) && c.path !in Run(boot, acts[..b]).fs.names ==>
        !IsFile(Run(boot, acts[..m + 1]).fs, c.path))
      && (c.Copy? && (exists w :: b < w <= m && JobOf(Run(boot, acts[..w]), p).CpCopying?) ==>
        !IsFile(Run(boot, acts[..m + 1]).fs, c.dst))
  {
    hide Serves, Step, Run;
    b := BegunByCommand(boot, acts, p);
    m := FailsAt(boot, acts, p, b);
    var s, c := Run(boot, acts[..m]), acts[b].c;
    StepOfRun(boot, acts, m);
    if c.Copy? && exists w :: b < w <= m && JobOf(Run(boot, acts[..w]), p).CpCopying? {
      var w :| b < w <= m && JobOf(Run(boot, acts[..w]), p).CpCopying?;
      OnceCopying(boot, acts, p, b, w, m);
      assert Serves(JobOf(s, p), c, Run(boot, acts[..b]));
      StepTidies(s, acts[m], p, c, Run(boot, acts[..b]));
    } else if (c.Upload? || c.Write?) && c.path !in Run(boot, acts[..b]).fs.names {
      if m == b {
        NeverAtOnce(s, p, c);
      } else {
        assert Serves(JobOf(s, p), c, Run(boot, acts[..b]));
        StepTidies(s, acts[m], p, c, Run(boot, acts[..b]));
      }
    }
  }

  lemma NeverAtOnce(s: State, p: Pid, c: Command)
    requires c.Upload? || c.Write?
    ensures !JobOf(Step(s, Begin(p, c)), p).Replies? || JobOf(s, p).Replies?
  {
  }

  lemma FailsAt(boot: State, acts: seq<Action>, p: Pid, b: nat) returns (m: nat)
    requires Since(boot, acts, p, b) && JobOf(Run(boot, acts), p) == Replies(false)
    ensures FailedAt(boot, acts, p, b, m)
  {
    hide Serves;
    assert acts[..|acts|] == acts;
    var failed := (n: nat) => n <= |acts| && JobOf(Run(boot, acts[..n]), p) == Replies(false);
    assert !failed(b);
    m := HoldsSince(failed, b, |acts|);
    assert failed(m + 1) && !failed(m);
    forall n | m < n <= |acts| ensures JobOf(Run(boot, acts[..n]), p) == Replies(false) {
      assert failed(n);
    }
    StepOfRun(boot, acts, m);
    if JobOf(Run(boot, acts[..m]), p).Replies? {
      AnsweredOnce(Run(boot, acts[..m]), acts[m], p);
    }
  }

  lemma AnsweredOnce(s: State, a: Action, p: Pid)
    requires JobOf(s, p).Replies? && JobOf(Step(s, a), p) != JobOf(s, p)
    ensures JobOf(Step(s, a), p).Idle?
  {
    if a.p != p {
      OthersKeepTheirJob(s, a, p);
    }
  }

  // ---------------------------------------------------------------- temporary files

  /** The inode is that of a temporary file, and a name leads to it. */
  predicate IsTemp(s: State, i: Ino) {
    i in s.origin && s.origin[i].Partial? && !Nameless(s.fs, i)
  }

  /** It belongs to the upload of a process at work, or of one that died. */
  ghost predicate Belongs(s: State, acts: seq<Action>, i: Ino) {
    i in s.origin && s.origin[i].Partial? &&
    (UploadOf(JobOf(s, s.origin[i].owner)) == Some(s.origin[i].id) || Dies(s.origin[i].owner) in acts)
  }

  /** A temporary file was one before, or is the new one of the process that made the call. */
  ghost predicate Stems(s: State, s': State, p: Pid, i: Ino) {
    i in s'.origin && s'.origin[i].Partial? ==>
      || (i in s.origin && s.origin[i] == s'.origin[i])
      || (s'.origin[i].owner == p && UploadOf(JobOf(s', p)) == Some(s'.origin[i].id))
  }

  lemma UploadStems(s: State, p: Pid, j: Job, ok: bool, n: nat, name: Path, i: Ino)
    requires IsUpload(j)
    ensures Stems(s, UploadStep(s, p, j, ok, n, name), p, i)
  {
    hide Overlay, IsFile;
  }

  lemma WriteStems(s: State, p: Pid, j: Job, ok: bool, bytes: seq<byte>, i: Ino)
    requires IsWrite(j)
    ensures Stems(s, WriteStep(s, p, j, ok, bytes), p, i)
  {
    hide Overlay;
  }

  lemma CopyStems(s: State, p: Pid, j: Job, ok: bool, n: nat, i: Ino)
    requires IsCopy(j)
    ensures Stems(s, CopyStep(s, p, j, ok, n), p, i)
  {
    hide Overlay;
  }

  lemma MoveStems(s: State, p: Pid, j: Job, ok: bool, i: Ino)
    requires IsMove(j)
    ensures Stems(s, MoveStep(s, p, j, ok), p, i)
  {
    hide Rename, CanRename, CanWrite;
  }

  lemma OthersStem(s: State, p: Pid, j: Job, ok: bool, n: nat, i: Ino)
    ensures j.DlOpen? || j.DlLocked? || j.DlSending? || j.DlDone? ==> Stems(s, DownloadStep(s, p, j, ok, n), p, i)
    ensures j.RmOpen? || j.RmLocked? || j.RmDone? ==> Stems(s, DeleteStep(s, p, j, ok), p, i)
  {
  }

  lemma GoStems(s: State, p: Pid, ok: bool, n: nat, bytes: seq<byte>, name: Path, i: Ino)
    requires p in s.jobs
    ensures Stems(s, GoStep(s, p, s.jobs[p], ok, n, bytes, name), p, i)
  {
    var j := s.jobs[p];
    if j.Idle? || j.Replies? {
    } else if IsUpload(j) {
      UploadStems(s, p, j, ok, n, name, i);
    } else if IsWrite(j) {
      WriteStems(s, p, j, ok, bytes, i);
    } else if IsCopy(j) {
      CopyStems(s, p, j, ok, n, i);
    } else if IsMove(j) {
      MoveStems(s, p, j, ok, i);
    } else {
      OthersStem(s, p, j, ok, n, i);
    }
  }

  lemma StepStems(s: State, a: Action, i: Ino)
    ensures Stems(s, Step(s, a), a.p, i)
  {
    if a.Go? && a.p in s.jobs {
      GoStems(s, a.p, a.ok, a.n, a.bytes, a.name, i);
    }
  }

  lemma UploadKeepsNumber(s: State, p: Pid, j: Job, ok: bool, n: nat, name: Path)
    requires j.UpTemp? || j.UpOpen? || j.UpLocked? || (j.UpReady? && !(ok && CanRename(s, j.t, j.u.path)))
    ensures UploadOf(JobOf(UploadStep(s, p, j, ok, n, name), p)) == UploadOf(j)
  {
    hide Overlay, IsFile;
  }

  lemma ReadyPlaces(s: State, p: Pid, u: Up, t: Path, ti: Ino, li: Ino, n: nat, name: Path)
    requires t in s.fs.names && CanRename(s, t, u.path)
    ensures UploadStep(s, p, UpReady(u, t, ti, li), true, n, name) == Become(Placed(s, u, t, ti), p, UpPlaced(li))
  {
  }

  lemma UndoDrops(s: State, p: Pid, u: Up, t: Path, ti: Ino, ok: bool, n: nat, name: Path)
    ensures UploadStep(s, p, UpUndoTemp(u, t, ti), ok, n, name)
      == Become(Drop(s, t), p, if u.existed then Replies(false) else UpUndoTarget(u.path))
  {
  }

  /** A process that ends its work for an upload has seen to its temporary file. */
  lemma UploadLetsGo(s: State, p: Pid, j: Job, ok: bool, n: nat, name: Path, i: Ino)
    requires Inv(s) && p in s.jobs && s.jobs[p] == j && IsUpload(j)
    requires i in s.origin && s.origin[i].Partial? && UploadOf(j) == Some(s.origin[i].id)
    ensures var s' := UploadStep(s, p, j, ok, n, name);
      UploadOf(JobOf(s', p)) == UploadOf(j) || !IsTemp(s', i)
  {
    hide UploadStep, IsFile, LockInv, FsInv, OriginInv, Placed, Drop;
    JobHolds(s, p);
    assert FromUpload(s.origin[i], UploadOf(j).value);
    if j.UpReady? && ok && CanRename(s, j.t, j.u.path) {
      ReadyPlaces(s, p, j.u, j.t, j.ti, j.li, n, name);
      PlacesTemp(s, j.u, j.t, j.ti, i);
    } else if j.UpUndoTemp? {
      UndoDrops(s, p, j.u, j.t, j.ti, ok, n, name);
      DropsTemp(s, p, j.u, j.t, j.ti, i);
    } else if !j.UpStart? {
      UploadKeepsNumber(s, p, j, ok, n, name);
    }
  }

  lemma PlacesTemp(s: State, u: Up, t: Path, ti: Ino, i: Ino)
    requires OriginInv(s) && t in s.fs.names && ti in s.origin && FromUpload(s.origin[ti], u.id)
    requires i in s.origin && FromUpload(s.origin[i], u.id)
    ensures i in Placed(s, u, t, ti).origin && !Placed(s, u, t, ti).origin[i].Partial?
  {
  }

  lemma DropsTemp(s: State, p: Pid, u: Up, t: Path, ti: Ino, i: Ino)
    requires FsInv(s) && OriginInv(s) && exists got :: Private(s, p, u, t, ti, got)
    requires i in s.origin && FromUpload(s.origin[i], u.id)
    ensures Nameless(Drop(s, t).fs, i)
  {
    var got: nat :| Private(s, p, u, t, ti, got);
    assert FromUpload(s.origin[ti], u.id);
    assert i == ti && IsFile(s.fs, t);
  }

  lemma StepBelongs(s: State, a: Action, acts: seq<Action>, i: Ino)
    requires Inv(s) && IsTemp(Step(s, a), i) && (IsTemp(s, i) ==> Belongs(s, acts, i))
    ensures Belongs(Step(s, a), acts + [a], i)
  {
    hide Inv, BeginStep, GoStep;
    var s' := Step(s, a);
    StepStems(s, a, i);
    if i in s.origin && s.origin[i] == s'.origin[i] {
      OldInode(s, i);
      if Nameless(s.fs, i) {
        StepGivesNoName(s, a, i);
      }
      var q := s.origin[i].owner;
      if Dies(q) in acts {
        assert Dies(q) in acts + [a];
      } else if a.p != q {
        OthersKeepTheirJob(s, a, q);
      } else {
        OwnerGoesOn(s, a, i);
        assert (acts + [a])[|acts|] == a;
      }
    }
  }

  lemma OldInode(s: State, i: Ino)
    requires Inv(s) && i in s.origin
    ensures i < s.nextIno
  {
  }

  lemma OwnerGoesOn(s: State, a: Action, i: Ino)
    requires Inv(s) && i in s.origin && s.origin[i].Partial? && a.p == s.origin[i].owner
    requires UploadOf(JobOf(s, a.p)) == Some(s.origin[i].id) && IsTemp(Step(s, a), i)
    ensures UploadOf(JobOf(Step(s, a), a.p)) == Some(s.origin[i].id) || a.Dies?
  {
    hide Inv, BeginStep, UploadStep;
    assert a.p in s.jobs && IsUpload(s.jobs[a.p]);
    if a.Go? {
      UploadLetsGo(s, a.p, s.jobs[a.p], a.ok, a.n, a.name, i);
    }
  }

  /**
    No temporary file is left behind but by a process that died: in every run each one that still has
    a name belongs to an upload under way or to a process that was killed.
  */
  lemma {:induction false} TempsBelong(boot: State, acts: seq<Action>, i: Ino)
    requires Boot(boot) && IsTemp(Run(boot, acts), i)
    ensures Belongs(Run(boot, acts), acts, i)
  {
    hide Step, Inv, IsTemp, Belongs;
    if acts == [] {
      NoTempsAtBoot(boot, i);
    } else {
      var init, a := acts[..|acts| - 1], acts[|acts| - 1];
      assert acts == init + [a];
      RunKeepsInv(boot, init);
      if IsTemp(Run(boot, init), i) {
        TempsBelong(boot, init, i);
      }
      StepBelongs(Run(boot, init), a, init, i);
    }
  }

  lemma NoTempsAtBoot(boot: State, i: Ino)
    requires Boot(boot)
    ensures !IsTemp(boot, i)
  {
    if i in boot.origin {
      assert i in boot.fs.nodes && boot.origin[i] == Initial(Data(boot, i));
    }
  }
}
