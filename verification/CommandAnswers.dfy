/** A command is answered with success exactly when it took effect. */
module CommandAnswers {
  import opened Core
  import opened Posix
  import opened Processes
  import opened ProcessInvariants
  import opened ProcessSteps
  import opened OneCall
  import opened CommandRuns

  /** The path comes to lead to what was a temporary file with these bytes. */
  predicate PutsInPlace(s: State, s': State, t: Path, path: Path, source: seq<byte>) {
    && Temporary(t) && t in s.fs.names && Data(s, s.fs.names[t]) == source
    && s'.fs == Fs((s.fs.names - {t})[path := s.fs.names[t]], s.fs.nodes)
  }

  /** The step in which process `p` does what its command is for. */
  ghost predicate TakesEffect(s: State, a: Action, s': State, p: Pid, c: Command) {
    a.p == p &&
    var j := JobOf(s, p);
    match c
    case Download(_, _) => !j.DlDone? && JobOf(s', p).DlDone?
    case Upload(path, source) => exists t :: PutsInPlace(s, s', t, path, source)
    case Write(_, _) => j.WrLocked? && a.Go? && a.ok && a.bytes == [] // the end frame
    case Copy(_, _) => !j.CpDone? && JobOf(s', p).CpDone?
    case Move(from, to, _) =>
      && j.MvReady? && a.Go? && a.ok && IsFile(s.fs, from)
      && s'.fs == Fs((s.fs.names - {from})[to := s.fs.names[from]], s.fs.nodes)
    case Delete(path) => path in s.fs.names && s'.fs == Fs(s.fs.names - {path}, s.fs.nodes)
    case Create(path) =>
      && path !in s.fs.names && IsFile(s'.fs, path) && Data(s', s'.fs.names[path]) == []
      && s'.fs.names == s.fs.names[path := s'.fs.names[path]]
  }

  /** The job knows whether its command has taken effect. */
  predicate Knows(j: Job, done: bool) {
    match j
    case Idle => true
    case Replies(ok) => ok == done
    case DlDone(_, _, _, _, _) => done
    case UpPlaced(_) => done
    case CpDone(_, _, _, _, _) => done
    case MvDone(_, _, ok) => ok == done
    case RmDone(_, ok) => ok == done
    case _ => !done
  }

  lemma BeginKnows(s: State, p: Pid, c: Command)
    requires p in s.jobs && s.jobs[p].Idle? && Admissible(c)
    ensures Knows(JobOf(BeginStep(s, p, c), p), TakesEffect(s, Begin(p, c), BeginStep(s, p, c), p, c))
  {
    var s' := BeginStep(s, p, c);
    if c.Upload? {
      assert forall t :: t in s.fs.names ==> t in s'.fs.names;
    } else if c.Delete? && c.path in s.fs.names {
      assert c.path in s'.fs.names;
    }
  }

  ghost predicate KnowsNext(s: State, a: Action, s': State, p: Pid, c: Command, done: bool) {
    Knows(JobOf(s', p), done || TakesEffect(s, a, s', p, c))
  }

  lemma DownloadKnows(s: State, a: Action, p: Pid, c: Command, s0: State, done: bool)
    requires p in s.jobs && Serves(s.jobs[p], c, s0) && Knows(s.jobs[p], done) && a.Go? && a.p == p
    requires s.jobs[p].DlOpen? || s.jobs[p].DlLocked? || s.jobs[p].DlSending? || s.jobs[p].DlDone?
    ensures KnowsNext(s, a, DownloadStep(s, p, s.jobs[p], a.ok, a.n), p, c, done)
  {
    assert c.Download?;
  }

  lemma WriteKnows(s: State, a: Action, p: Pid, c: Command, s0: State, done: bool)
    requires p in s.jobs && Serves(s.jobs[p], c, s0) && Knows(s.jobs[p], done) && a.Go? && a.p == p
    requires IsWrite(s.jobs[p])
    ensures KnowsNext(s, a, WriteStep(s, p, s.jobs[p], a.ok, a.bytes), p, c, done)
  {
    hide Overlay;
    assert c.Write?;
  }

  lemma CopyKnows(s: State, a: Action, p: Pid, c: Command, s0: State, done: bool)
    requires p in s.jobs && Serves(s.jobs[p], c, s0) && Knows(s.jobs[p], done) && a.Go? && a.p == p
    requires IsCopy(s.jobs[p])
    ensures KnowsNext(s, a, CopyStep(s, p, s.jobs[p], a.ok, a.n), p, c, done)
  {
    hide Overlay, Opens, Data, CanRead, CanWrite, ChunkLength;
    assert c.Copy?;
  }

  lemma DeleteKnows(s: State, a: Action, p: Pid, c: Command, s0: State, done: bool)
    requires p in s.jobs && Serves(s.jobs[p], c, s0) && Knows(s.jobs[p], done) && a.Go? && a.p == p
    requires s.jobs[p].RmOpen? || s.jobs[p].RmLocked? || s.jobs[p].RmDone?
    ensures KnowsNext(s, a, DeleteStep(s, p, s.jobs[p], a.ok), p, c, done)
  {
    hide Opens, CanWrite;
    assert c.Delete?;
    if s.jobs[p].RmLocked? {
      UnlinkKnows(s, a, p, s.jobs[p].path, s.jobs[p].i);
    } else if c.path in s.fs.names {
      SameNames(s.fs, c.path);
    }
  }

  lemma UnlinkKnows(s: State, a: Action, p: Pid, path: Path, i: Ino)
    requires p in s.jobs && s.jobs[p] == RmLocked(path, i) && a.Go? && a.p == p
    ensures KnowsNext(s, a, DeleteStep(s, p, s.jobs[p], a.ok), p, Delete(path), false)
  {
    if path in s.fs.names {
      SameNames(s.fs, path);
    }
  }

  lemma SameNames(fs: Fs, path: Path)
    requires path in fs.names
    ensures fs.names - {path} != fs.names
  {
    assert path !in fs.names - {path};
  }

  lemma MoveKnows(s: State, a: Action, p: Pid, c: Command, s0: State, done: bool)
    requires p in s.jobs && Serves(s.jobs[p], c, s0) && Knows(s.jobs[p], done) && a.Go? && a.p == p
    requires FsInv(s) && IsMove(s.jobs[p])
    ensures KnowsNext(s, a, MoveStep(s, p, s.jobs[p], a.ok), p, c, done)
  {
    hide Opens, IsFile, CanWrite, CanRename, Rename, FsInv, CloseBoth, Close;
    assert c.Move?;
    if s.jobs[p].MvReady? {
      RenameKnows(s, a, p, s.jobs[p].from, s.jobs[p].to, s.jobs[p].si, s.jobs[p].dest, c);
    }
  }

  lemma RenameKnows(s: State, a: Action, p: Pid, from: Path, to: Path, si: Ino, dest: Option<Ino>, c: Command)
    requires p in s.jobs && s.jobs[p] == MvReady(from, to, si, dest) && FsInv(s) && a.Go? && a.p == p
    requires c.Move? && c.path == from && c.to == to
    ensures KnowsNext(s, a, MoveStep(s, p, s.jobs[p], a.ok), p, c, false)
  {
    if IsFile(s.fs, from) {
      RenameMoves(s.fs, from, to);
      if !CanRename(s, from, to) {
        assert from != to && from !in (s.fs.names - {from})[to := s.fs.names[from]];
      }
    }
  }

  lemma RenameMoves(fs: Fs, from: Path, to: Path)
    requires from in fs.names
    requires forall a, b :: a in fs.names && b in fs.names && a != b ==> fs.names[a] != fs.names[b]
    ensures Rename(fs, from, to) == Fs((fs.names - {from})[to := fs.names[from]], fs.nodes)
  {
    if to in fs.names && fs.names[to] == fs.names[from] {
      assert from == to;
      assert (fs.names - {from})[to := fs.names[from]] == fs.names;
    }
  }

  lemma UploadKnows(s: State, a: Action, p: Pid, c: Command, s0: State, done: bool)
    requires p in s.jobs && Serves(s.jobs[p], c, s0) && Knows(s.jobs[p], done) && a.Go? && a.p == p
    requires Inv(s) && IsUpload(s.jobs[p]) && Admissible(c)
    ensures KnowsNext(s, a, UploadStep(s, p, s.jobs[p], a.ok, a.n, a.name), p, c, done)
  {
    hide FsInv, LockInv, OriginInv, JobsInv, Opens, Overlay, Data;
    var j, s' := s.jobs[p], UploadStep(s, p, s.jobs[p], a.ok, a.n, a.name);
    assert c.Upload?;
    if j.UpReady? && a.ok && CanRename(s, j.t, j.u.path) {
      PlacedKnows(s, p, j.u, j.t, j.ti, j.li);
      assert PutsInPlace(s, s', j.t, c.path, c.source);
    } else if j.UpUndoTemp? {
      UndoPutsNothing(s, s', j.t, c.path, c.source);
    } else if j.UpUndoTarget? {
      UndoPutsNothing(s, s', j.path, c.path, c.source);
    } else if !j.UpPlaced? {
      UploadKeepsNames(s, p, j, a.ok, a.n, a.name);
    }
  }

  lemma UploadKeepsNames(s: State, p: Pid, j: Job, ok: bool, n: nat, name: Path)
    requires j.UpStart? || j.UpTemp? || j.UpOpen? || j.UpLocked? || (j.UpReady? && !(ok && CanRename(s, j.t, j.u.path)))
    ensures s.fs.names.Keys <= UploadStep(s, p, j, ok, n, name).fs.names.Keys
  {
    hide Overlay;
  }

  lemma PlacedKnows(s: State, p: Pid, u: Up, t: Path, ti: Ino, li: Ino)
    requires Inv(s) && p in s.jobs && s.jobs[p] == UpReady(u, t, ti, li)
    ensures t in s.fs.names && PutsInPlace(s, Placed(s, u, t, ti), t, u.path, u.source)
  {
    assert JobInv(s, p, s.jobs[p]);
    RenameMoves(s.fs, t, u.path);
  }

  /** Where a name is only taken away, none is put in place. */
  lemma UndoPutsNothing(s: State, s': State, gone: Path, path: Path, source: seq<byte>)
    requires FsInv(s) && !Temporary(path) && s'.fs == Drop(s, gone).fs
    ensures forall t :: !PutsInPlace(s, s', t, path, source)
  {
    forall t ensures !PutsInPlace(s, s', t, path, source) {
      if t in s.fs.names && t != path {
        var target := (s.fs.names - {t})[path := s.fs.names[t]];
        assert path in target && target[path] == s.fs.names[t];
        assert path in s'.fs.names ==> s'.fs.names[path] == s.fs.names[path] != s.fs.names[t];
      }
    }
  }

  lemma GoKnows(s: State, a: Action, p: Pid, c: Command, s0: State, done: bool)
    requires p in s.jobs && Serves(s.jobs[p], c, s0) && Knows(s.jobs[p], done) && a.Go? && a.p == p
    requires Inv(s) && Admissible(c)
    ensures KnowsNext(s, a, GoStep(s, p, s.jobs[p], a.ok, a.n, a.bytes, a.name), p, c, done)
  {
    hide Serves, KnowsNext;
    var j := s.jobs[p];
    if j.Idle? || j.Replies? {
      AnsweredKnows(s, a, p, c, done);
    } else if j.DlOpen? || j.DlLocked? || j.DlSending? || j.DlDone? {
      DownloadKnows(s, a, p, c, s0, done);
    } else if IsUpload(j) {
      UploadKnows(s, a, p, c, s0, done);
    } else if IsWrite(j) {
      WriteKnows(s, a, p, c, s0, done);
    } else if IsCopy(j) {
      CopyKnows(s, a, p, c, s0, done);
    } else if IsMove(j) {
      MoveKnows(s, a, p, c, s0, done);
    } else {
      DeleteKnows(s, a, p, c, s0, done);
    }
  }

  lemma AnsweredKnows(s: State, a: Action, p: Pid, c: Command, done: bool)
    requires p in s.jobs && (s.jobs[p].Idle? || s.jobs[p].Replies?) && a.Go?
    ensures KnowsNext(s, a, GoStep(s, p, s.jobs[p], a.ok, a.n, a.bytes, a.name), p, c, done)
  {
  }

  lemma StepKnows(s: State, a: Action, p: Pid, c: Command, s0: State, done: bool)
    requires p in s.jobs && Serves(s.jobs[p], c, s0) && Knows(s.jobs[p], done)
    requires Inv(s) && Admissible(c)
    ensures KnowsNext(s, a, Step(s, a), p, c, done)
  {
    hide Serves, Inv, FsInv;
    if a.p != p {
      OthersKeepTheirJob(s, a, p);
    } else if a.Go? {
      GoKnows(s, a, p, c, s0, done);
    } else {
      AtWork(s, p, c, s0);
      OtherwiseNothing(s, a, p, c);
    }
  }

  /** A process at work is neither forked nor given another command, and nothing is left of one that dies. */
  lemma OtherwiseNothing(s: State, a: Action, p: Pid, c: Command)
    requires p in s.jobs && !s.jobs[p].Idle? && a.p == p && !a.Go? && Admissible(c)
    ensures JobOf(Step(s, a), p).Idle? || (Step(s, a) == s && !TakesEffect(s, a, s, p, c))
  {
    if a.Fork? || a.Begin? {
      assert Step(s, a) == s;
      if c.Delete? && c.path in s.fs.names {
        SameNames(s.fs, c.path);
      }
    }
  }

  ghost predicate Deed(boot: State, acts: seq<Action>, p: Pid, m: nat, c: Command) {
    m < |acts| && TakesEffect(Run(boot, acts[..m]), acts[m], Run(boot, acts[..m + 1]), p, c)
  }

  /** The command begun at step `b` took effect before step `n`. */
  ghost predicate Effective(boot: State, acts: seq<Action>, p: Pid, b: nat, n: nat) {
    b < |acts| && acts[b].Begin? &&
    exists m :: b <= m < n && Deed(boot, acts, p, m, acts[b].c)
  }

  lemma {:induction false} KnowsSince(boot: State, acts: seq<Action>, p: Pid, b: nat, n: nat)
    requires Boot(boot) && Since(boot, acts, p, b) && b < n <= |acts|
    ensures Knows(JobOf(Run(boot, acts[..n]), p), Effective(boot, acts, p, b, n))
  {
    hide TakesEffect, Knows, Run, Serves, Inv, BeginStep, GoStep;
    var m := n - 1;
    var s := Run(boot, acts[..m]);
    StepOfRun(boot, acts, m);
    if m == b {
      BeginKnows(s, p, acts[b].c);
      assert acts[b] == Begin(p, acts[b].c);
      assert Effective(boot, acts, p, b, n) <==> Deed(boot, acts, p, m, acts[b].c);
    } else {
      KnowsSince(boot, acts, p, b, m);
      RunKeepsInv(boot, acts[..m]);
      assert Serves(JobOf(s, p), acts[b].c, Run(boot, acts[..b]));
      AtWork(s, p, acts[b].c, Run(boot, acts[..b]));
      StepKnows(s, acts[m], p, acts[b].c, Run(boot, acts[..b]), Effective(boot, acts, p, b, m));
      assert Effective(boot, acts, p, b, n) <==>
        Effective(boot, acts, p, b, m) || Deed(boot, acts, p, m, acts[b].c);
    }
  }

  lemma AtWork(s: State, p: Pid, c: Command, s0: State)
    requires Serves(JobOf(s, p), c, s0)
    ensures p in s.jobs && !s.jobs[p].Idle?
  {
  }

  /**
    Whatever the other sessions do: the client is told that its command went well if and only if
    the process that worked for it did what the command is for, at some step since it was begun.
  */
  lemma AnswersTell(boot: State, acts: seq<Action>, p: Pid) returns (b: nat)
    requires Boot(boot) && JobOf(Run(boot, acts), p).Replies?
    ensures Since(boot, acts, p, b)
    ensures JobOf(Run(boot, acts), p).ok <==> Effective(boot, acts, p, b, |acts|)
  {
    b := BegunByCommand(boot, acts, p);
    KnowsSince(boot, acts, p, b, |acts|);
    assert acts[..|acts|] == acts;
  }
}
