/** Locks belong to inodes while clients name paths: how two sessions come to write under one path. */
module RacingWriters {
  import opened Core
  import opened Posix
  import opened Processes
  import opened ProcessInvariants
  import opened ProcessSteps
  import opened OneCall
  import opened CommandRuns
  import opened VersionTheorems

  // ---------------------------------------------------------------- who gets a lock

  /** The file a process asks a write lock for next, and the path it came by. */
  function Asks(j: Job): Option<(Path, Ino)> {
    match j
    case UpOpen(u, _, _, li) => Some((u.path, li))
    case WrOpen(path, _, _, i) => Some((path, i))
    case CpReading(_, dst, di, _) => Some((dst, di))
    case MvOpen(from, _, si, _) => Some((from, si))
    case MvDest(_, to, _, dest) => if dest.Some? then Some((to, dest.value)) else None
    case RmOpen(path, i) => Some((path, i))
    case _ => None
  }

  function Calls(p: Pid, name: Path): Action {
    Go(p, true, 1, [], name)
  }

  /** The lock is granted exactly when nobody stands in the way, and that changes nothing else. */
  ghost predicate Gets(s: State, s': State, q: Pid, b: (Path, Ino)) {
    && (b in Writes(JobOf(s', q)) <==> CanWrite(s, q, b.1))
    && (CanWrite(s, q, b.1) ==> s'.fs == s.fs)
  }

  lemma UploadGets(s: State, q: Pid, j: Job, name: Path, b: (Path, Ino))
    requires j.UpOpen? && Asks(j) == Some(b)
    ensures Gets(s, UploadStep(s, q, j, true, 1, name), q, b)
  {
  }

  lemma WriteGets(s: State, q: Pid, j: Job, b: (Path, Ino))
    requires j.WrOpen? && Asks(j) == Some(b)
    ensures Gets(s, WriteStep(s, q, j, true, []), q, b)
  {
  }

  lemma CopyGets(s: State, q: Pid, j: Job, b: (Path, Ino))
    requires j.CpReading? && Asks(j) == Some(b)
    ensures Gets(s, CopyStep(s, q, j, true, 1), q, b)
  {
  }

  lemma MoveGets(s: State, q: Pid, j: Job, b: (Path, Ino))
    requires IsMove(j) && Asks(j) == Some(b)
    ensures Gets(s, MoveStep(s, q, j, true), q, b)
  {
  }

  lemma DeleteGets(s: State, q: Pid, j: Job, b: (Path, Ino))
    requires j.RmOpen? && Asks(j) == Some(b)
    ensures Gets(s, DeleteStep(s, q, j, true), q, b)
  {
  }

  lemma LockIsAskedFor(s: State, q: Pid, name: Path, b: (Path, Ino))
    requires q in s.jobs && Asks(s.jobs[q]) == Some(b)
    ensures Gets(s, Step(s, Calls(q, name)), q, b)
    ensures forall p :: p in s.jobs && p != q ==> JobOf(Step(s, Calls(q, name)), p) == s.jobs[p]
  {
    var j := s.jobs[q];
    GoIsLocal(s, q, j, true, 1, [], name);
    if j.UpOpen? {
      UploadGets(s, q, j, name, b);
    } else if j.WrOpen? {
      WriteGets(s, q, j, b);
    } else if j.CpReading? {
      CopyGets(s, q, j, b);
    } else if j.RmOpen? {
      DeleteGets(s, q, j, b);
    } else {
      MoveGets(s, q, j, b);
    }
  }

  /** Read locks go together: one is granted exactly when nobody else holds a write lock on the file. */
  lemma ReadersShare(s: State, p: Pid, i: Ino, name: Path)
    requires p in s.jobs
    requires (s.jobs[p].DlOpen? && s.jobs[p].i == i) || (s.jobs[p].CpCreated? && s.jobs[p].si == i)
    ensures var s' := Step(s, Calls(p, name));
      && (Found(JobOf(s', p)).Some? <==> forall q :: (q, i) in s.writers ==> q == p)
      && s'.fs == s.fs
  {
    assert CanRead(s, p, i) <==> forall q :: (q, i) in s.writers ==> q == p by {
      assert forall w :: w in s.writers ==> w == (w.0, w.1);
    }
  }

  predicate NobodyElse(s: State, q: Pid, i: Ino) {
    && (forall r :: r in s.readers && r.1 == i ==> r.0 == q)
    && (forall w :: w in s.writers && w.1 == i ==> w.0 == q)
  }

  /**
    Whatever kind of change waits for its lock: it joins another one under the same path exactly
    when nobody else holds a lock on the file it has opened. That is then another file than the
    other one has locked, and the path leads to one of the two at most.
  */
  lemma JoinsWriter(boot: State, acts: seq<Action>, p: Pid, q: Pid, name: Path, a: (Path, Ino), b: (Path, Ino))
    requires Boot(boot) && p != q && a in Writes(JobOf(Run(boot, acts), p))
    requires Asks(JobOf(Run(boot, acts), q)) == Some(b) && a.0 == b.0
    ensures var s, s' := Run(boot, acts), Run(boot, acts + [Calls(q, name)]);
      && a in Writes(JobOf(s', p))
      && (b in Writes(JobOf(s', q)) <==> NobodyElse(s, q, b.1))
      && (NobodyElse(s, q, b.1) ==> a.1 != b.1 && !(LeadsTo(s', a) && LeadsTo(s', b)))
      && (a.1 == b.1 ==> b !in Writes(JobOf(s', q)))
  {
    var s := Run(boot, acts);
    RunOneMore(boot, acts, Calls(q, name));
    RunKeepsInv(boot, acts);
    HoldsItsLocks(s, p, a);
    LockIsAskedFor(s, q, name, b);
    assert (p, a.1) in s.writers;
  }

  // ---------------------------------------------------------------- what happens to a change of a replaced file

  predicate Nameless(fs: Fs, i: Ino) {
    forall path :: path in fs.names ==> fs.names[path] != i
  }

  /** No path comes to lead to an old inode again once none does. */
  ghost predicate StaysNameless(s: State, s': State, i: Ino) {
    Nameless(s'.fs, i) && s'.nextIno >= s.nextIno
  }

  lemma UploadGivesNoName(s: State, p: Pid, j: Job, ok: bool, n: nat, name: Path, i: Ino)
    requires Nameless(s.fs, i) && i < s.nextIno && IsUpload(j)
    ensures StaysNameless(s, UploadStep(s, p, j, ok, n, name), i)
  {
  }

  lemma WriteGivesNoName(s: State, p: Pid, j: Job, ok: bool, bytes: seq<byte>, i: Ino)
    requires Nameless(s.fs, i) && i < s.nextIno && IsWrite(j)
    ensures StaysNameless(s, WriteStep(s, p, j, ok, bytes), i)
  {
  }

  lemma CopyGivesNoName(s: State, p: Pid, j: Job, ok: bool, n: nat, i: Ino)
    requires Nameless(s.fs, i) && i < s.nextIno && IsCopy(j)
    ensures StaysNameless(s, CopyStep(s, p, j, ok, n), i)
  {
  }

  lemma MoveGivesNoName(s: State, p: Pid, j: Job, ok: bool, i: Ino)
    requires Nameless(s.fs, i) && i < s.nextIno && IsMove(j)
    ensures StaysNameless(s, MoveStep(s, p, j, ok), i)
  {
  }

  lemma DownloadGivesNoName(s: State, p: Pid, j: Job, ok: bool, n: nat, i: Ino)
    requires Nameless(s.fs, i) && (j.DlOpen? || j.DlLocked? || j.DlSending? || j.DlDone?)
    ensures StaysNameless(s, DownloadStep(s, p, j, ok, n), i)
  {
  }

  lemma DeleteGivesNoName(s: State, p: Pid, j: Job, ok: bool, i: Ino)
    requires Nameless(s.fs, i) && (j.RmOpen? || j.RmLocked? || j.RmDone?)
    ensures StaysNameless(s, DeleteStep(s, p, j, ok), i)
  {
  }

  lemma GoGivesNoName(s: State, p: Pid, j: Job, ok: bool, n: nat, bytes: seq<byte>, name: Path, i: Ino)
    requires Nameless(s.fs, i) && i < s.nextIno
    ensures StaysNameless(s, GoStep(s, p, j, ok, n, bytes, name), i)
  {
    if j.DlOpen? || j.DlLocked? || j.DlSending? || j.DlDone? {
      DownloadGivesNoName(s, p, j, ok, n, i);
    } else if IsUpload(j) {
      UploadGivesNoName(s, p, j, ok, n, name, i);
    } else if IsWrite(j) {
      WriteGivesNoName(s, p, j, ok, bytes, i);
    } else if IsCopy(j) {
      CopyGivesNoName(s, p, j, ok, n, i);
    } else if IsMove(j) {
      MoveGivesNoName(s, p, j, ok, i);
    } else if !j.Idle? && !j.Replies? {
      DeleteGivesNoName(s, p, j, ok, i);
    }
  }

  lemma StepGivesNoName(s: State, a: Action, i: Ino)
    requires Nameless(s.fs, i) && i < s.nextIno
    ensures StaysNameless(s, Step(s, a), i)
  {
    if a.Go? && a.p in s.jobs {
      GoGivesNoName(s, a.p, s.jobs[a.p], a.ok, a.n, a.bytes, a.name, i);
    }
  }

  lemma {:induction false} NamelessForGood(boot: State, acts: seq<Action>, more: seq<Action>, i: Ino)
    requires Nameless(Run(boot, acts).fs, i) && i < Run(boot, acts).nextIno
    ensures Nameless(Run(boot, acts + more).fs, i) && i < Run(boot, acts + more).nextIno
  {
    if more == [] {
      assert acts + more == acts;
    } else {
      var init, last := acts + more[..|more| - 1], more[|more| - 1];
      NamelessForGood(boot, acts, more[..|more| - 1], i);
      StepGivesNoName(Run(boot, init), last, i);
      LastApart(acts, more);
      RunOneMore(boot, init, last);
    }
  }

  /**
    The end frame of a write at an offset: the client is told that it went well exactly when the
    last call did, whatever became of the file. As long as the path still leads there it shows the
    content at the write lock overlaid by the bytes; if no path leads there any more, none ever
    will, and the acknowledged bytes are lost.
  */
  lemma AcknowledgedWrite(boot: State, acts: seq<Action>, p: Pid, ok: bool, n: nat, name: Path, more: seq<Action>)
    requires Boot(boot) && JobOf(Run(boot, acts), p).WrLocked?
    ensures var s, j := Run(boot, acts), JobOf(Run(boot, acts), p);
      var done := acts + [Go(p, ok, n, [], name)];
      && Run(boot, done).fs == s.fs
      && (JobOf(Run(boot, done), p) == Replies(true) <==> ok)
      && (JobOf(Run(boot, done), p) == Replies(false) <==> !ok && j.existed)
      && (LeadsTo(s, (j.path, j.i)) ==>
        Data(Run(boot, done), Run(boot, done).fs.names[j.path]) == Overlay(j.base, j.offset, j.written))
      && (Nameless(s.fs, j.i) ==> Nameless(Run(boot, done + more).fs, j.i))
  {
    var s, j := Run(boot, acts), JobOf(Run(boot, acts), p);
    var done := acts + [Go(p, ok, n, [], name)];
    RunOneMore(boot, acts, Go(p, ok, n, [], name));
    RunKeepsInv(boot, acts);
    assert JobInv(s, p, j);
    WriteEndStep(s, p, ok, n, name);
    if Nameless(s.fs, j.i) {
      StepGivesNoName(s, Go(p, ok, n, [], name), j.i);
      NamelessForGood(boot, done, more, j.i);
    }
  }

  lemma WriteEndStep(s: State, p: Pid, ok: bool, n: nat, name: Path)
    requires JobOf(s, p).WrLocked?
    ensures var j := JobOf(s, p);
      Step(s, Go(p, ok, n, [], name)) ==
        Become(Close(s, p, j.i), p, if ok then Replies(true) else if j.existed then Replies(false) else WrUndo(j.path))
  {
  }

  /**
    So a write whose file was replaced or removed between its open() and its lock is carried out,
    acknowledged and lost: `received` is the run up to the last data frame.
  */
  lemma WriteToReplacedFile(boot: State, acts: seq<Action>, p: Pid, bytes: seq<byte>, more: seq<Action>)
    returns (received: seq<Action>)
    requires Boot(boot) && JobOf(Run(boot, acts), p).WrOpen? && bytes != []
    requires var s := Run(boot, acts); Nameless(s.fs, s.jobs[p].i) && CanWrite(s, p, s.jobs[p].i)
    ensures var j := JobOf(Run(boot, acts), p);
      && acts <= received
      && JobOf(Run(boot, received), p) == WrLocked(j.path, j.existed, j.offset, j.i, Data(Run(boot, acts), j.i), bytes)
      && JobOf(Run(boot, received + [Calls(p, "")]), p) == Replies(true)
      && Nameless(Run(boot, received + [Calls(p, "")] + more).fs, j.i)
  {
    var s, j := Run(boot, acts), JobOf(Run(boot, acts), p);
    RunKeepsInv(boot, acts);
    assert JobInv(s, p, j);
    var locked := acts + [Calls(p, "")];
    RunOneMore(boot, acts, Calls(p, ""));
    received := locked + [Go(p, true, 0, bytes, "")];
    RunOneMore(boot, locked, Go(p, true, 0, bytes, ""));
    LocksAndReceives(s, p, j.path, j.existed, j.offset, j.i, bytes);
    NamelessForGood(boot, acts, [Calls(p, ""), Go(p, true, 0, bytes, "")], j.i);
    assert acts + [Calls(p, ""), Go(p, true, 0, bytes, "")] == received;
    AcknowledgedWrite(boot, received, p, true, 1, "", more);
  }

  lemma LocksAndReceives(s: State, p: Pid, path: Path, existed: bool, offset: nat, i: Ino, bytes: seq<byte>)
    requires p in s.jobs && s.jobs[p] == WrOpen(path, existed, offset, i) && CanWrite(s, p, i) && bytes != []
    ensures JobOf(Step(Step(s, Calls(p, "")), Go(p, true, 0, bytes, "")), p)
      == WrLocked(path, existed, offset, i, Data(s, i), bytes)
  {
    WriteLocks(s, p, path, existed, offset, i);
    WriteReceives(Step(s, Calls(p, "")), p, path, existed, offset, i, Data(s, i), bytes);
  }

  lemma WriteLocks(s: State, p: Pid, path: Path, existed: bool, offset: nat, i: Ino)
    requires p in s.jobs && s.jobs[p] == WrOpen(path, existed, offset, i) && CanWrite(s, p, i)
    ensures var s' := Step(s, Calls(p, ""));
      p in s'.jobs && s'.jobs[p] == WrLocked(path, existed, offset, i, Data(s, i), [])
  {
  }

  lemma WriteReceives(s: State, p: Pid, path: Path, existed: bool, offset: nat, i: Ino, base: seq<byte>,
                      bytes: seq<byte>)
    requires p in s.jobs && s.jobs[p] == WrLocked(path, existed, offset, i, base, []) && bytes != []
    ensures JobOf(Step(s, Go(p, true, 0, bytes, "")), p) == WrLocked(path, existed, offset, i, base, bytes)
  {
    StepOfWrite(s, p, path, existed, offset, i, base, bytes);
    WriteChunkStep(s, p, path, existed, offset, i, base, [], true, bytes);
    assert [] + bytes == bytes;
  }

  lemma StepOfWrite(s: State, p: Pid, path: Path, existed: bool, offset: nat, i: Ino, base: seq<byte>, bytes: seq<byte>)
    requires p in s.jobs && s.jobs[p] == WrLocked(path, existed, offset, i, base, [])
    ensures Step(s, Go(p, true, 0, bytes, ""))
      == WriteStep(s, p, WrLocked(path, existed, offset, i, base, []), true, bytes)
  {
  }
}
