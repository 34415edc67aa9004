/**
  What a process does is what its client asked for: every job goes back to one command, with the
  arguments of that command and the files its paths led to, and the answer tells whether the
  command took effect.
*/
module CommandRuns {
  import opened Core
  import opened Posix
  import opened Processes
  import opened ProcessInvariants
  import opened ProcessSteps
  import opened OneCall

  // ---------------------------------------------------------------- which command a job works for

  /** The path leads to the file. */
  predicate LeadsTo(s: State, a: (Path, Ino)) {
    a.0 in s.fs.names && s.fs.names[a.0] == a.1
  }

  /** stat() and open() went to a regular file. */
  predicate Opens(s: State, path: Path, i: Ino) {
    IsFile(s.fs, path) && LeadsTo(s, (path, i))
  }

  predicate ServesDownload(i: Ino, offset: nat, c: Command, s: State) {
    c.Download? && c.offset == offset && Opens(s, c.path, i)
  }

  predicate ServesUpload(u: Up, c: Command, s: State) {
    c == Upload(u.path, u.source) && u.id == |s.uploads| && (u.existed <==> u.path in s.fs.names)
  }

  predicate ServesWrite(path: Path, existed: bool, offset: nat, c: Command, s: State) {
    c == Write(path, offset) && (existed <==> path in s.fs.names)
  }

  predicate ServesCopy(si: Ino, dst: Path, c: Command, s: State) {
    c.Copy? && c.dst == dst && Opens(s, c.path, si)
  }

  predicate ServesMove(from: Path, to: Path, si: Ino, c: Command, s: State) {
    c.Move? && c.path == from && c.to == to && Opens(s, from, si)
  }

  /** The job works for command `c`, which was begun in state `s`. */
  predicate Serves(j: Job, c: Command, s: State) {
    match j
    case Idle => false
    case Replies(_) => true
    case DlOpen(i, offset) => ServesDownload(i, offset, c, s)
    case DlLocked(i, offset, _) => ServesDownload(i, offset, c, s)
    case DlSending(i, offset, _, _, _) => ServesDownload(i, offset, c, s)
    case DlDone(i, offset, _, _, _) => ServesDownload(i, offset, c, s)
    case UpStart(u) => ServesUpload(u, c, s)
    case UpTemp(u, _, _) => ServesUpload(u, c, s)
    case UpOpen(u, _, _, _) => ServesUpload(u, c, s)
    case UpLocked(u, _, _, _, _) => ServesUpload(u, c, s)
    case UpReady(u, _, _, _) => ServesUpload(u, c, s)
    case UpPlaced(_) => c.Upload?
    case UpUndoTemp(u, _, _) => ServesUpload(u, c, s)
    case UpUndoTarget(path) => c.Upload? && c.path == path && path !in s.fs.names
    case WrStart(path, existed, offset) => ServesWrite(path, existed, offset, c, s)
    case WrOpen(path, existed, offset, _) => ServesWrite(path, existed, offset, c, s)
    case WrLocked(path, existed, offset, _, _, _) => ServesWrite(path, existed, offset, c, s)
    case WrUndo(path) => c.Write? && c.path == path && path !in s.fs.names
    case CpSource(si, dst) => ServesCopy(si, dst, c, s)
    case CpCreated(si, dst, _) => ServesCopy(si, dst, c, s)
    case CpReading(si, dst, _, _) => ServesCopy(si, dst, c, s)
    case CpCopying(si, dst, _, _, _, _) => ServesCopy(si, dst, c, s)
    case CpDone(si, dst, _, _, _) => ServesCopy(si, dst, c, s)
    case CpUndo(dst) => c.Copy? && c.dst == dst
    case MvOpen(from, to, si, into) => ServesMove(from, to, si, c, s) && c.into == into
    case MvLocked(from, to, si, into) => ServesMove(from, to, si, c, s) && c.into == into
    case MvDest(from, to, si, _) => ServesMove(from, to, si, c, s)
    case MvReady(from, to, si, _) => ServesMove(from, to, si, c, s)
    case MvDone(si, _, _) => c.Move? && Opens(s, c.path, si)
    case RmOpen(path, i) => c == Delete(path) && Opens(s, path, i)
    case RmLocked(path, i) => c == Delete(path) && Opens(s, path, i)
    case RmDone(i, _) => c.Delete? && Opens(s, c.path, i)
  }

  lemma BeginServes(s: State, p: Pid, c: Command)
    ensures Serves(JobOf(BeginStep(s, p, c), p), c, s)
  {
  }

  lemma DownloadServes(s: State, p: Pid, j: Job, ok: bool, n: nat, c: Command, s0: State)
    requires (j.DlOpen? || j.DlLocked? || j.DlSending? || j.DlDone?) && Serves(j, c, s0)
    ensures Serves(JobOf(DownloadStep(s, p, j, ok, n), p), c, s0)
  {
  }

  lemma UploadServes(s: State, p: Pid, j: Job, ok: bool, n: nat, name: Path, c: Command, s0: State)
    requires IsUpload(j) && Serves(j, c, s0)
    ensures Serves(JobOf(UploadStep(s, p, j, ok, n, name), p), c, s0)
  {
    hide Overlay, IsFile;
  }

  lemma WriteServes(s: State, p: Pid, j: Job, ok: bool, bytes: seq<byte>, c: Command, s0: State)
    requires IsWrite(j) && Serves(j, c, s0)
    ensures Serves(JobOf(WriteStep(s, p, j, ok, bytes), p), c, s0)
  {
    hide Overlay;
  }

  lemma CopyServes(s: State, p: Pid, j: Job, ok: bool, n: nat, c: Command, s0: State)
    requires IsCopy(j) && Serves(j, c, s0)
    ensures Serves(JobOf(CopyStep(s, p, j, ok, n), p), c, s0)
  {
    hide Overlay, Opens, Data, ChunkLength, CanRead, CanWrite;
  }

  lemma MoveServes(s: State, p: Pid, j: Job, ok: bool, c: Command, s0: State)
    requires IsMove(j) && Serves(j, c, s0)
    ensures Serves(JobOf(MoveStep(s, p, j, ok), p), c, s0)
  {
    hide Opens, Rename;
    if j.MvOpen? || j.MvLocked? {
      MoveStartServes(s, p, j, ok, c, s0);
    }
  }

  lemma MoveStartServes(s: State, p: Pid, j: Job, ok: bool, c: Command, s0: State)
    requires (j.MvOpen? || j.MvLocked?) && Serves(j, c, s0)
    ensures Serves(JobOf(MoveStep(s, p, j, ok), p), c, s0)
  {
    hide Opens, CreateFile;
  }

  lemma DeleteServes(s: State, p: Pid, j: Job, ok: bool, c: Command, s0: State)
    requires (j.RmOpen? || j.RmLocked? || j.RmDone?) && Serves(j, c, s0)
    ensures Serves(JobOf(DeleteStep(s, p, j, ok), p), c, s0)
  {
  }

  lemma GoServes(s: State, p: Pid, ok: bool, n: nat, bytes: seq<byte>, name: Path, c: Command, s0: State)
    requires p in s.jobs && Serves(s.jobs[p], c, s0)
    ensures var j' := JobOf(GoStep(s, p, s.jobs[p], ok, n, bytes, name), p); j'.Idle? || Serves(j', c, s0)
  {
    hide Serves;
    var j := s.jobs[p];
    if j.Idle? || j.Replies? {
    } else if j.DlOpen? || j.DlLocked? || j.DlSending? || j.DlDone? {
      DownloadServes(s, p, j, ok, n, c, s0);
    } else if IsUpload(j) {
      UploadServes(s, p, j, ok, n, name, c, s0);
    } else if IsWrite(j) {
      WriteServes(s, p, j, ok, bytes, c, s0);
    } else if IsCopy(j) {
      CopyServes(s, p, j, ok, n, c, s0);
    } else if IsMove(j) {
      MoveServes(s, p, j, ok, c, s0);
    } else {
      DeleteServes(s, p, j, ok, c, s0);
    }
  }

  lemma StepServes(s: State, a: Action, p: Pid, c: Command, s0: State)
    requires Serves(JobOf(s, p), c, s0)
    ensures JobOf(Step(s, a), p).Idle? || Serves(JobOf(Step(s, a), p), c, s0)
  {
    if a.p != p {
      OthersKeepTheirJob(s, a, p);
    } else if a.Go? && p in s.jobs {
      GoServes(s, p, a.ok, a.n, a.bytes, a.name, c, s0);
    }
  }

  /** Only a command that is begun makes an idle process work. */
  lemma LeavesIdle(s: State, a: Action, p: Pid)
    requires JobOf(s, p).Idle? && !JobOf(Step(s, a), p).Idle?
    ensures a.Begin? && a.p == p && Admissible(a.c) && p in s.jobs && Serves(JobOf(Step(s, a), p), a.c, s)
  {
    if a.p != p {
      OthersKeepTheirJob(s, a, p);
    } else if a.Begin? && p in s.jobs && Admissible(a.c) {
      BeginServes(s, p, a.c);
    }
  }

  /** Since step `b`, where it was idle, the process has worked for the command it began there. */
  ghost predicate Since(boot: State, acts: seq<Action>, p: Pid, b: nat) {
    && b < |acts| && acts[b].Begin? && acts[b].p == p && Admissible(acts[b].c)
    && p in Run(boot, acts[..b]).jobs && JobOf(Run(boot, acts[..b]), p).Idle?
    && forall n :: b < n <= |acts| ==> Serves(JobOf(Run(boot, acts[..n]), p), acts[b].c, Run(boot, acts[..b]))
  }

  lemma StepOfRun(boot: State, acts: seq<Action>, k: nat)
    requires k < |acts|
    ensures Run(boot, acts[..k + 1]) == Step(Run(boot, acts[..k]), acts[k])
  {
    PrefixOfPrefix(acts, k + 1, k);
  }

  lemma {:induction false} ServedSince(boot: State, acts: seq<Action>, p: Pid, b: nat, n: nat)
    requires b < n <= |acts| && forall k :: b < k <= n ==> !JobOf(Run(boot, acts[..k]), p).Idle?
    requires JobOf(Run(boot, acts[..b]), p).Idle?
    ensures acts[b].Begin? && acts[b].p == p && Admissible(acts[b].c) && p in Run(boot, acts[..b]).jobs
    ensures Serves(JobOf(Run(boot, acts[..n]), p), acts[b].c, Run(boot, acts[..b]))
  {
    hide Serves, Step, Run;
    StepOfRun(boot, acts, n - 1);
    if n == b + 1 {
      LeavesIdle(Run(boot, acts[..b]), acts[b], p);
    } else {
      ServedSince(boot, acts, p, b, n - 1);
      StepServes(Run(boot, acts[..n - 1]), acts[n - 1], p, acts[b].c, Run(boot, acts[..b]));
    }
  }

  /**
    Every job in every run goes back to one command: the process was idle at some step, began the
    command there, and has worked for it ever since, with its paths, its offset and its data, and
    with the files its paths led to at that step.
  */
  lemma BegunByCommand(boot: State, acts: seq<Action>, p: Pid) returns (b: nat)
    requires Boot(boot) && !JobOf(Run(boot, acts), p).Idle?
    ensures Since(boot, acts, p, b) && Serves(JobOf(Run(boot, acts), p), acts[b].c, Run(boot, acts[..b]))
  {
    hide Serves, Step;
    assert acts[..|acts|] == acts;
    var busy := (n: nat) => n <= |acts| && !JobOf(Run(boot, acts[..n]), p).Idle?;
    b := HoldsSince(busy, 0, |acts|);
    forall k | b < k <= |acts| ensures !JobOf(Run(boot, acts[..k]), p).Idle? {
      assert busy(k);
    }
    assert !busy(b);
    ServedSince(boot, acts, p, b, |acts|);
    forall n | b < n <= |acts| ensures Serves(JobOf(Run(boot, acts[..n]), p), acts[b].c, Run(boot, acts[..b])) {
      ServedSince(boot, acts, p, b, n);
    }
  }

  // ---------------------------------------------------------------- the file it opens later

  /** The file a command opened or created after it was begun, and the path it did so by. */
  function OpenedAt(j: Job): Option<(Path, Ino)> {
    match j
    case UpOpen(u, _, _, li) => Some((u.path, li))
    case UpLocked(u, _, _, li, _) => Some((u.path, li))
    case UpReady(u, _, _, li) => Some((u.path, li))
    case WrOpen(path, _, _, i) => Some((path, i))
    case WrLocked(path, _, _, i, _, _) => Some((path, i))
    case CpCreated(_, dst, di) => Some((dst, di))
    case CpReading(_, dst, di, _) => Some((dst, di))
    case CpCopying(_, dst, di, _, _, _) => Some((dst, di))
    case CpDone(_, dst, di, _, _) => Some((dst, di))
    case MvDest(_, to, _, dest) => if dest.Some? then Some((to, dest.value)) else None
    case MvReady(_, to, _, dest) => if dest.Some? then Some((to, dest.value)) else None
    case _ => None
  }

  /** The path led to the file already, or was absent and leads to a new empty file. */
  predicate Arrives(s: State, s': State, a: (Path, Ino)) {
    && LeadsTo(s', a)
    && (LeadsTo(s, a) || (a.0 !in s.fs.names && a.1 == s.nextIno && Data(s', a.1) == []))
  }

  predicate Reaches(s: State, s': State, j: Job, j': Job) {
    OpenedAt(j').None? || OpenedAt(j) == OpenedAt(j') ||
    (Arrives(s, s', OpenedAt(j').value) && (IsCopy(j') ==> OpenedAt(j').value.0 !in s.fs.names))
  }

  lemma UploadReaches(s: State, p: Pid, j: Job, ok: bool, n: nat, name: Path)
    requires IsUpload(j)
    ensures Reaches(s, UploadStep(s, p, j, ok, n, name), j, JobOf(UploadStep(s, p, j, ok, n, name), p))
  {
    hide Overlay;
  }

  lemma WriteReaches(s: State, p: Pid, j: Job, ok: bool, bytes: seq<byte>)
    requires IsWrite(j)
    ensures Reaches(s, WriteStep(s, p, j, ok, bytes), j, JobOf(WriteStep(s, p, j, ok, bytes), p))
  {
    hide Overlay;
  }

  lemma CopyReaches(s: State, p: Pid, j: Job, ok: bool, n: nat)
    requires IsCopy(j)
    ensures Reaches(s, CopyStep(s, p, j, ok, n), j, JobOf(CopyStep(s, p, j, ok, n), p))
  {
    hide Overlay;
  }

  lemma MoveReaches(s: State, p: Pid, j: Job, ok: bool)
    requires IsMove(j)
    ensures Reaches(s, MoveStep(s, p, j, ok), j, JobOf(MoveStep(s, p, j, ok), p))
  {
    hide CanWrite, CanRename, Rename;
  }

  lemma OthersReachNothing(s: State, p: Pid, j: Job, ok: bool, n: nat)
    ensures j.DlOpen? || j.DlLocked? || j.DlSending? || j.DlDone? ==>
      OpenedAt(JobOf(DownloadStep(s, p, j, ok, n), p)).None?
    ensures j.RmOpen? || j.RmLocked? || j.RmDone? ==> OpenedAt(JobOf(DeleteStep(s, p, j, ok), p)).None?
  {
  }

  lemma StepReaches(s: State, a: Action, p: Pid)
    ensures Reaches(s, Step(s, a), JobOf(s, p), JobOf(Step(s, a), p))
  {
    hide Arrives;
    if a.p != p {
      OthersKeepTheirJob(s, a, p);
    } else if a.Go? && p in s.jobs {
      GoReaches(s, p, a.ok, a.n, a.bytes, a.name);
    }
  }

  lemma GoReaches(s: State, p: Pid, ok: bool, n: nat, bytes: seq<byte>, name: Path)
    requires p in s.jobs
    ensures var s' := GoStep(s, p, s.jobs[p], ok, n, bytes, name); Reaches(s, s', s.jobs[p], JobOf(s', p))
  {
    hide Arrives;
    var j := s.jobs[p];
    if j.Idle? || j.Replies? {
    } else if IsUpload(j) {
      UploadReaches(s, p, j, ok, n, name);
    } else if IsWrite(j) {
      WriteReaches(s, p, j, ok, bytes);
    } else if IsCopy(j) {
      CopyReaches(s, p, j, ok, n);
    } else if IsMove(j) {
      MoveReaches(s, p, j, ok);
    } else {
      OthersReachNothing(s, p, j, ok, n);
    }
  }

  lemma BeginReachesNothing(s: State, p: Pid, c: Command)
    ensures OpenedAt(JobOf(BeginStep(s, p, c), p)).None?
  {
  }

  /** The command of step `b` opened or created the file at step `o`, and has it open since. */
  ghost predicate OpenedSince(boot: State, acts: seq<Action>, p: Pid, b: nat, o: nat, a: (Path, Ino)) {
    && b < o < |acts| && acts[b].Begin? && Arrives(Run(boot, acts[..o]), Run(boot, acts[..o + 1]), a)
    && (acts[b].c.Copy? ==> a.0 !in Run(boot, acts[..o]).fs.names)
    && OpenedAt(JobOf(Run(boot, acts[..o]), p)) != Some(a)
    && forall n :: o < n <= |acts| ==> OpenedAt(JobOf(Run(boot, acts[..n]), p)) == Some(a)
  }

  lemma CopyIsServed(j: Job, c: Command, s0: State)
    requires Serves(j, c, s0) && c.Copy? && OpenedAt(j).Some?
    ensures IsCopy(j)
  {
  }

  lemma OpenedOnce(boot: State, acts: seq<Action>, p: Pid, b: nat, a: (Path, Ino)) returns (o: nat)
    requires Since(boot, acts, p, b) && OpenedAt(JobOf(Run(boot, acts), p)) == Some(a)
    ensures OpenedSince(boot, acts, p, b, o, a)
  {
    hide Arrives, Serves, Run, BeginStep, GoStep;
    assert acts[..|acts|] == acts;
    var open := (n: nat) => n <= |acts| && OpenedAt(JobOf(Run(boot, acts[..n]), p)) == Some(a);
    assert !open(b);
    o := HoldsSince(open, b, |acts|);
    assert open(o + 1) && !open(o);
    StepOfRun(boot, acts, o);
    BeginReachesNothing(Run(boot, acts[..b]), p, acts[b].c);
    StepReaches(Run(boot, acts[..o]), acts[o], p);
    if acts[b].c.Copy? {
      CopyIsServed(JobOf(Run(boot, acts[..o + 1]), p), acts[b].c, Run(boot, acts[..b]));
    }
    forall n | o < n <= |acts| ensures OpenedAt(JobOf(Run(boot, acts[..n]), p)) == Some(a) {
      assert open(n);
    }
  }
}
