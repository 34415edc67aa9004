/**
  How a file loses its name, and how a finished upload is lost through the clean-up of a failed
  command: transfer.c:404-406 unlinks whatever the path leads to by then.
*/
module LostUploads {
  import opened Core
  import opened Posix
  import opened Processes
  import opened ProcessInvariants
  import opened ProcessSteps
  import opened OneCall
  import opened CommandRuns
  import opened VersionTheorems
  import opened RacingWriters

  // ---------------------------------------------------------------- the step that takes a name away

  /** The path a step takes from the file that bears it. */
  function Takes(s: State, a: Action): Option<Path> {
    if !a.Go? then None
    else
      match JobOf(s, a.p)
      case UpReady(u, t, _, _) => if a.ok && CanRename(s, t, u.path) then Some(u.path) else None
      case UpUndoTemp(_, t, _) => Some(t)
      case MvReady(from, to, _, _) => if a.ok && CanRename(s, from, to) && from != to then Some(to) else None
      case RmLocked(path, _) => if a.ok then Some(path) else None
      case _ => Undoes(JobOf(s, a.p))
  }

  /** The target a failed command removes because stat() had not found it, or open() had created it. */
  function Undoes(j: Job): Option<Path> {
    match j
    case UpUndoTarget(path) => Some(path)
    case WrUndo(path) => Some(path)
    case CpUndo(dst) => Some(dst)
    case _ => None
  }

  /** What steps do to the names. */
  datatype Change = Same | Adds(path: Path) | Removes(path: Path) | Renames(from: Path, to: Path)

  ghost predicate Changes(s: State, s': State, c: Change) {
    s'.nextIno >= s.nextIno &&
    match c
    case Same => s'.fs.names == s.fs.names
    case Adds(path) => path !in s.fs.names && s'.fs.names == s.fs.names[path := s.nextIno]
    case Removes(path) => s'.fs.names == s.fs.names - {path} || (s'.fs.names == s.fs.names && !IsFile(s.fs, path))
    case Renames(from, to) => from in s.fs.names && s'.fs.names == Rename(s.fs, from, to).names
  }

  /** The path such a change takes away. */
  function TakenBy(c: Change): Option<Path> {
    match c
    case Removes(path) => Some(path)
    case Renames(from, to) => if from != to then Some(to) else None
    case _ => None
  }

  lemma ChangeLoses(s: State, s': State, path: Path, c: Change)
    requires FsInv(s) && IsFile(s.fs, path) && Changes(s, s', c)
    ensures Nameless(s'.fs, s.fs.names[path]) <==> TakenBy(c) == Some(path)
  {
    var i := s.fs.names[path];
    match c
    case Same => assert path in s'.fs.names;
    case Adds(_) => assert path in s'.fs.names;
    case Removes(gone) => if gone != path { assert path in s'.fs.names; }
    case Renames(from, to) =>
      if path == from {
        assert to in s'.fs.names && s'.fs.names[to] == i;
      } else if path != to {
        assert path in s'.fs.names && s'.fs.names[path] == i;
      }
  }

  lemma DownloadChange(s: State, p: Pid, j: Job, ok: bool, n: nat)
    requires j.DlOpen? || j.DlLocked? || j.DlSending? || j.DlDone?
    ensures Changes(s, DownloadStep(s, p, j, ok, n), Same)
  {
  }

  lemma UploadChange(s: State, p: Pid, j: Job, ok: bool, n: nat, name: Path) returns (c: Change)
    requires IsUpload(j)
    ensures Changes(s, UploadStep(s, p, j, ok, n, name), c)
    ensures match j
      case UpReady(u, t, _, _) => c == if ok && CanRename(s, t, u.path) then Renames(t, u.path) else Same
      case UpUndoTemp(_, t, _) => c == Removes(t)
      case UpUndoTarget(path) => c == Removes(path)
      case _ => c.Same? || c.Adds?
  {
    c := match j
      case UpStart(u) => if ok && Temporary(name) && name !in s.fs.names then Adds(name) else Same
      case UpTemp(u, _, _) => if !ok || u.path in s.fs.names then Same else Adds(u.path)
      case UpReady(u, t, _, _) => if ok && CanRename(s, t, u.path) then Renames(t, u.path) else Same
      case UpUndoTemp(_, t, _) => Removes(t)
      case UpUndoTarget(path) => Removes(path)
      case _ => Same;
  }

  lemma WriteChange(s: State, p: Pid, j: Job, ok: bool, bytes: seq<byte>) returns (c: Change)
    requires IsWrite(j)
    ensures Changes(s, WriteStep(s, p, j, ok, bytes), c)
    ensures if j.WrUndo? then c == Removes(j.path) else c.Same? || c.Adds?
  {
    c := match j
      case WrStart(path, _, _) => if !ok || path in s.fs.names then Same else Adds(path)
      case WrUndo(path) => Removes(path)
      case _ => Same;
  }

  lemma CopyChange(s: State, p: Pid, j: Job, ok: bool, n: nat) returns (c: Change)
    requires IsCopy(j)
    ensures Changes(s, CopyStep(s, p, j, ok, n), c)
    ensures if j.CpUndo? then c == Removes(j.dst) else c.Same? || c.Adds?
  {
    hide Overlay, Data, ChunkLength;
    c := match j
      case CpSource(_, dst) => if ok && dst !in s.fs.names then Adds(dst) else Same
      case CpUndo(dst) => Removes(dst)
      case _ => Same;
  }

  lemma MoveChange(s: State, p: Pid, j: Job, ok: bool) returns (c: Change)
    requires IsMove(j)
    ensures Changes(s, MoveStep(s, p, j, ok), c)
    ensures if j.MvReady? && ok && CanRename(s, j.from, j.to) then c == Renames(j.from, j.to) else c.Same? || c.Adds?
  {
    c := match j
      case MvLocked(_, to, _, into) => if !ok || to in s.fs.names || !into then Same else Adds(to)
      case MvReady(from, to, _, _) => if ok && CanRename(s, from, to) then Renames(from, to) else Same
      case _ => Same;
  }

  lemma DeleteChange(s: State, p: Pid, j: Job, ok: bool) returns (c: Change)
    requires j.RmOpen? || j.RmLocked? || j.RmDone?
    ensures Changes(s, DeleteStep(s, p, j, ok), c)
    ensures c == if j.RmLocked? && ok then Removes(j.path) else Same
  {
    c := if j.RmLocked? && ok then Removes(j.path) else Same;
  }

  lemma GoChange(s: State, p: Pid, ok: bool, n: nat, bytes: seq<byte>, name: Path) returns (c: Change)
    requires Inv(s) && p in s.jobs
    ensures Changes(s, GoStep(s, p, s.jobs[p], ok, n, bytes, name), c)
    ensures TakenBy(c) == Takes(s, Go(p, ok, n, bytes, name))
  {
    var j := s.jobs[p];
    if j.Idle? || j.Replies? {
      c := Same;
    } else if j.DlOpen? || j.DlLocked? || j.DlSending? || j.DlDone? {
      DownloadChange(s, p, j, ok, n);
      c := Same;
    } else if IsUpload(j) {
      c := UploadChange(s, p, j, ok, n, name);
      assert JobInv(s, p, j);
    } else if IsWrite(j) {
      c := WriteChange(s, p, j, ok, bytes);
    } else if IsCopy(j) {
      c := CopyChange(s, p, j, ok, n);
    } else if IsMove(j) {
      c := MoveChange(s, p, j, ok);
    } else {
      c := DeleteChange(s, p, j, ok);
    }
  }

  lemma BeginChange(s: State, p: Pid, cmd: Command) returns (c: Change)
    ensures Changes(s, BeginStep(s, p, cmd), c) && TakenBy(c).None?
  {
    c := if cmd.Create? && cmd.path !in s.fs.names then Adds(cmd.path) else Same;
  }

  lemma StepChange(s: State, a: Action) returns (c: Change)
    requires Inv(s)
    ensures Changes(s, Step(s, a), c) && TakenBy(c) == Takes(s, a)
  {
    c := Same;
    if a.Go? && a.p in s.jobs {
      c := GoChange(s, a.p, a.ok, a.n, a.bytes, a.name);
    } else if a.Begin? && a.p in s.jobs && s.jobs[a.p].Idle? && Admissible(a.c) {
      c := BeginChange(s, a.p, a.c);
    }
  }

  /**
    Exactly when a file is lost: after any run, a step leaves no path to the file at `path` if and
    only if it is a deletion, a rename over it, or the clean-up of a command that failed there.
    From then on no path ever leads to it again.
  */
  lemma LostExactly(boot: State, acts: seq<Action>, a: Action, path: Path, more: seq<Action>)
    requires Boot(boot) && IsFile(Run(boot, acts).fs, path)
    ensures var s, i := Run(boot, acts), Run(boot, acts).fs.names[path];
      && (Nameless(Run(boot, acts + [a]).fs, i) <==> Takes(s, a) == Some(path))
      && (Takes(s, a) == Some(path) ==> Nameless(Run(boot, acts + [a] + more).fs, i))
  {
    var s := Run(boot, acts);
    var i := s.fs.names[path];
    RunKeepsInv(boot, acts);
    RunOneMore(boot, acts, a);
    var c := StepChange(s, a);
    ChangeLoses(s, Step(s, a), path, c);
    if Takes(s, a) == Some(path) {
      NamelessForGood(boot, acts + [a], more, i);
    }
  }

  // ---------------------------------------------------------------- who finds the target absent

  /** The target of a command under way that found it absent and removes it if it fails. */
  function Creates(j: Job): Option<Path> {
    match j
    case UpStart(u) => if u.existed then None else Some(u.path)
    case UpTemp(u, _, _) => if u.existed then None else Some(u.path)
    case UpOpen(u, _, _, _) => if u.existed then None else Some(u.path)
    case UpLocked(u, _, _, _, _) => if u.existed then None else Some(u.path)
    case UpReady(u, _, _, _) => if u.existed then None else Some(u.path)
    case UpUndoTemp(u, _, _) => if u.existed then None else Some(u.path)
    case WrStart(path, existed, _) => if existed then None else Some(path)
    case WrOpen(path, existed, _, _) => if existed then None else Some(path)
    case WrLocked(path, existed, _, _, _, _) => if existed then None else Some(path)
    case CpCreated(_, dst, _) => Some(dst)
    case CpReading(_, dst, _, _) => Some(dst)
    case CpCopying(_, dst, _, _, _, _) => Some(dst)
    case _ => Undoes(j)
  }

  /** Whoever works on an absent target did so before, or sees it absent now. */
  ghost predicate FoundAbsent(s: State, j: Job, j': Job) {
    Creates(j').Some? ==> Creates(j) == Creates(j') || Creates(j').value !in s.fs.names
  }

  lemma MoveFoundAbsent(s: State, p: Pid, j: Job, ok: bool)
    requires IsMove(j)
    ensures FoundAbsent(s, j, JobOf(MoveStep(s, p, j, ok), p))
  {
  }

  lemma DeleteFoundAbsent(s: State, p: Pid, j: Job, ok: bool)
    requires j.RmOpen? || j.RmLocked? || j.RmDone?
    ensures FoundAbsent(s, j, JobOf(DeleteStep(s, p, j, ok), p))
  {
  }

  lemma DownloadFoundAbsent(s: State, p: Pid, j: Job, ok: bool, n: nat)
    requires j.DlOpen? || j.DlLocked? || j.DlSending? || j.DlDone?
    ensures FoundAbsent(s, j, JobOf(DownloadStep(s, p, j, ok, n), p))
  {
  }

  lemma UploadFoundAbsent(s: State, p: Pid, j: Job, ok: bool, n: nat, name: Path)
    requires IsUpload(j)
    ensures FoundAbsent(s, j, JobOf(UploadStep(s, p, j, ok, n, name), p))
  {
  }

  lemma WriteFoundAbsent(s: State, p: Pid, j: Job, ok: bool, bytes: seq<byte>)
    requires IsWrite(j)
    ensures FoundAbsent(s, j, JobOf(WriteStep(s, p, j, ok, bytes), p))
  {
  }

  lemma CopyFoundAbsent(s: State, p: Pid, j: Job, ok: bool, n: nat)
    requires IsCopy(j)
    ensures FoundAbsent(s, j, JobOf(CopyStep(s, p, j, ok, n), p))
  {
  }

  lemma BeginFoundAbsent(s: State, p: Pid, c: Command)
    ensures FoundAbsent(s, Idle, JobOf(BeginStep(s, p, c), p))
  {
  }

  lemma GoFoundAbsent(s: State, p: Pid, ok: bool, n: nat, bytes: seq<byte>, name: Path)
    requires p in s.jobs
    ensures FoundAbsent(s, s.jobs[p], JobOf(GoStep(s, p, s.jobs[p], ok, n, bytes, name), p))
  {
    var j := s.jobs[p];
    if j.Idle? || j.Replies? {
    } else if IsUpload(j) {
      UploadFoundAbsent(s, p, j, ok, n, name);
    } else if IsWrite(j) {
      WriteFoundAbsent(s, p, j, ok, bytes);
    } else if IsCopy(j) {
      CopyFoundAbsent(s, p, j, ok, n);
    } else if IsMove(j) {
      MoveFoundAbsent(s, p, j, ok);
    } else if j.DlOpen? || j.DlLocked? || j.DlSending? || j.DlDone? {
      DownloadFoundAbsent(s, p, j, ok, n);
    } else {
      DeleteFoundAbsent(s, p, j, ok);
    }
  }

  lemma StepFoundAbsent(s: State, a: Action, p: Pid)
    ensures FoundAbsent(s, JobOf(s, p), JobOf(Step(s, a), p))
  {
    match a
    case Fork(_) =>
    case Dies(_) =>
    case Begin(q, c) =>
      if q in s.jobs && s.jobs[q].Idle? && Admissible(c) {
        if q == p {
          BeginFoundAbsent(s, p, c);
        } else {
          BeginIsOwn(s, q, c, p);
        }
      }
    case Go(q, ok, n, bytes, name) =>
      if q in s.jobs {
        if q == p {
          GoFoundAbsent(s, p, ok, n, bytes, name);
        } else {
          GoIsLocal(s, q, s.jobs[q], ok, n, bytes, name);
        }
      }
  }

  lemma BeginIsOwn(s: State, q: Pid, c: Command, p: Pid)
    requires p != q
    ensures JobOf(BeginStep(s, q, c), p) == JobOf(s, p)
  {
  }

  /** The command of `p` has worked on the absent target since step `k`. */
  ghost predicate AbsentSince(boot: State, acts: seq<Action>, p: Pid, path: Path, k: nat) {
    && k < |acts| && path !in Run(boot, acts[..k]).fs.names
    && forall n :: k < n <= |acts| ==> Creates(JobOf(Run(boot, acts[..n]), p)) == Some(path)
  }

  lemma FoundAbsentOnce(boot: State, acts: seq<Action>, p: Pid, path: Path) returns (k: nat)
    requires Boot(boot) && Creates(JobOf(Run(boot, acts), p)) == Some(path)
    ensures AbsentSince(boot, acts, p, path, k)
  {
    assert acts[..|acts|] == acts;
    var holds := (n: nat) => n <= |acts| && Creates(JobOf(Run(boot, acts[..n]), p)) == Some(path);
    k := HoldsSince(holds, 0, |acts|);
    assert holds(k + 1);
    StepOfRun(boot, acts, k);
    StepFoundAbsent(Run(boot, acts[..k]), acts[k], p);
    forall n | k < n <= |acts| ensures Creates(JobOf(Run(boot, acts[..n]), p)) == Some(path) {
      assert holds(n);
    }
  }

  /** What a path leads to now but did not at step `k` was put there in between. */
  lemma PutThereSince(boot: State, acts: seq<Action>, k: nat, a: (Path, Ino)) returns (m: nat)
    requires k <= |acts| && !LeadsTo(Run(boot, acts[..k]), a) && LeadsTo(Run(boot, acts), a)
    ensures k <= m < |acts| && !LeadsTo(Run(boot, acts[..m]), a) && LeadsTo(Run(boot, acts[..m + 1]), a)
  {
    assert acts[..|acts|] == acts;
    var holds := (n: nat) => n <= |acts| && LeadsTo(Run(boot, acts[..n]), a);
    m := HoldsSince(holds, k, |acts|);
    assert holds(m + 1);
  }

  /**
    The clean-up of a failed command loses whatever file its path leads to, for good. The command
    had found the path absent at step `k`, and the file was put there at a later step `m`, while
    the command was under way: an upload of another session that was acknowledged meanwhile is lost.
  */
  lemma UndoLosesUpload(boot: State, acts: seq<Action>, p: Pid, path: Path, more: seq<Action>)
    returns (k: nat, m: nat)
    requires Boot(boot) && Undoes(JobOf(Run(boot, acts), p)) == Some(path) && IsFile(Run(boot, acts).fs, path)
    ensures var s, i := Run(boot, acts), Run(boot, acts).fs.names[path];
      && JobOf(Run(boot, acts + [Calls(p, "")]), p) == Replies(false)
      && Nameless(Run(boot, acts + [Calls(p, "")] + more).fs, i)
      && AbsentSince(boot, acts, p, path, k) && k <= m < |acts|
      && !LeadsTo(Run(boot, acts[..m]), (path, i)) && LeadsTo(Run(boot, acts[..m + 1]), (path, i))
  {
    var s, i := Run(boot, acts), Run(boot, acts).fs.names[path];
    LostExactly(boot, acts, Calls(p, ""), path, more);
    RunOneMore(boot, acts, Calls(p, ""));
    UndoneReplies(s, p);
    k := FoundAbsentOnce(boot, acts, p, path);
    m := PutThereSince(boot, acts, k, (path, i));
  }

  lemma UndoneReplies(s: State, p: Pid)
    requires Undoes(JobOf(s, p)).Some?
    ensures JobOf(Step(s, Calls(p, "")), p) == Replies(false)
  {
  }
}
