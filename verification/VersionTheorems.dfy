/** What clients can rely on, in every interleaving of the server processes. */
module VersionTheorems {
  import opened Core
  import opened Posix
  import opened Processes
  import opened ProcessInvariants
  import opened ProcessSteps
  import opened OneCall
  import opened CommandRuns

  // ---------------------------------------------------------------- the moment a lock was granted

  /** What a process that waits for a lock wants it for: an inode and an offset. */
  function Wants(j: Job): Option<(Ino, nat)> {
    match j
    case DlOpen(i, offset) => Some((i, offset))
    case WrOpen(_, _, offset, i) => Some((i, offset))
    case CpCreated(si, _, _) => Some((si, 0))
    case _ => None
  }

  /** The inode it then holds, with the content it found there. */
  function Found(j: Job): Option<(Ino, nat, seq<byte>)> {
    match j
    case DlLocked(i, offset, snap) => Some((i, offset, snap))
    case DlSending(i, offset, snap, _, _) => Some((i, offset, snap))
    case DlDone(i, offset, snap, _, _) => Some((i, offset, snap))
    case WrLocked(_, _, offset, i, base, _) => Some((i, offset, base))
    case CpReading(si, _, _, snap) => Some((si, 0, snap))
    case CpCopying(si, _, _, snap, _, _) => Some((si, 0, snap))
    case CpDone(si, _, _, snap, _) => Some((si, 0, snap))
    case _ => None
  }

  /** In `s` the process waits for the lock and the inode holds `data`; the next step grants it. */
  ghost predicate Grants(s: State, s': State, p: Pid, f: (Ino, nat, seq<byte>)) {
    && Wants(JobOf(s, p)) == Some((f.0, f.1)) && Data(s, f.0) == f.2
    && Found(JobOf(s', p)) == Some(f) && ((p, f.0) in s'.readers || (p, f.0) in s'.writers)
  }

  lemma GoFinds(s: State, p: Pid, ok: bool, n: nat, bytes: seq<byte>, name: Path, f: (Ino, nat, seq<byte>))
    requires p in s.jobs
    requires Found(JobOf(GoStep(s, p, s.jobs[p], ok, n, bytes, name), p)) == Some(f)
    ensures Found(s.jobs[p]) == Some(f) || Grants(s, GoStep(s, p, s.jobs[p], ok, n, bytes, name), p, f)
  {
    var j := s.jobs[p];
    if j.Idle? || j.Replies? {
    } else if IsUpload(j) {
      UploadFindsNothing(s, p, j, ok, n, name);
    } else if IsMove(j) {
      MoveFindsNothing(s, p, j, ok);
    } else if IsWrite(j) {
      WriteFinds(s, p, j, ok, bytes, f);
    } else if IsCopy(j) {
      CopyFinds(s, p, j, ok, n, f);
    } else if j.DlOpen? || j.DlLocked? || j.DlSending? || j.DlDone? {
      DownloadFinds(s, p, j, ok, n, f);
    } else {
      DeleteFindsNothing(s, p, j, ok);
    }
  }

  lemma DownloadFinds(s: State, p: Pid, j: Job, ok: bool, n: nat, f: (Ino, nat, seq<byte>))
    requires p in s.jobs && s.jobs[p] == j && (j.DlOpen? || j.DlLocked? || j.DlSending? || j.DlDone?)
    requires Found(JobOf(DownloadStep(s, p, j, ok, n), p)) == Some(f)
    ensures Found(j) == Some(f) || Grants(s, DownloadStep(s, p, j, ok, n), p, f)
  {
  }

  lemma WriteFinds(s: State, p: Pid, j: Job, ok: bool, bytes: seq<byte>, f: (Ino, nat, seq<byte>))
    requires p in s.jobs && s.jobs[p] == j && IsWrite(j)
    requires Found(JobOf(WriteStep(s, p, j, ok, bytes), p)) == Some(f)
    ensures Found(j) == Some(f) || Grants(s, WriteStep(s, p, j, ok, bytes), p, f)
  {
  }

  lemma CopyFinds(s: State, p: Pid, j: Job, ok: bool, n: nat, f: (Ino, nat, seq<byte>))
    requires p in s.jobs && s.jobs[p] == j && IsCopy(j)
    requires Found(JobOf(CopyStep(s, p, j, ok, n), p)) == Some(f)
    ensures Found(j) == Some(f) || Grants(s, CopyStep(s, p, j, ok, n), p, f)
  {
  }

  lemma DeleteFindsNothing(s: State, p: Pid, j: Job, ok: bool)
    requires j.RmOpen? || j.RmLocked? || j.RmDone?
    ensures Found(JobOf(DeleteStep(s, p, j, ok), p)).None?
  {
  }

  lemma UploadFindsNothing(s: State, p: Pid, j: Job, ok: bool, n: nat, name: Path)
    requires IsUpload(j)
    ensures Found(JobOf(UploadStep(s, p, j, ok, n, name), p)).None?
  {
  }

  lemma MoveFindsNothing(s: State, p: Pid, j: Job, ok: bool)
    requires IsMove(j)
    ensures Found(JobOf(MoveStep(s, p, j, ok), p)).None?
  {
  }

  lemma StepFinds(s: State, a: Action, p: Pid, f: (Ino, nat, seq<byte>))
    requires Found(JobOf(Step(s, a), p)) == Some(f)
    ensures Found(JobOf(s, p)) == Some(f) || Grants(s, Step(s, a), p, f)
  {
    if a.p != p {
      OthersKeepTheirJob(s, a, p);
    } else if a.Go? && p in s.jobs {
      GoFinds(s, p, a.ok, a.n, a.bytes, a.name, f);
    }
  }

  /** The content a process works from is what the inode held when its lock was granted. */
  lemma GrantedBefore(boot: State, acts: seq<Action>, p: Pid, f: (Ino, nat, seq<byte>)) returns (k: nat)
    requires Boot(boot) && Found(JobOf(Run(boot, acts), p)) == Some(f)
    ensures k < |acts| && Grants(Run(boot, acts[..k]), Run(boot, acts[..k + 1]), p, f)
    ensures forall n :: k < n <= |acts| ==> Found(JobOf(Run(boot, acts[..n]), p)) == Some(f)
  {
    hide Grants;
    assert acts[..|acts|] == acts;
    var found := (n: nat) => n <= |acts| && Found(JobOf(Run(boot, acts[..n]), p)) == Some(f);
    k := HoldsSince(found, 0, |acts|);
    assert found(k + 1) && !found(k);
    StepOfRun(boot, acts, k);
    StepFinds(Run(boot, acts[..k]), acts[k], p, f);
    forall n | k < n <= |acts| ensures Found(JobOf(Run(boot, acts[..n]), p)) == Some(f) {
      assert found(n);
    }
  }

  /** And that lock was granted to the command the process works for. */
  lemma GrantedToCommand(boot: State, acts: seq<Action>, p: Pid, f: (Ino, nat, seq<byte>)) returns (b: nat, k: nat)
    requires Boot(boot) && Found(JobOf(Run(boot, acts), p)) == Some(f)
    ensures Since(boot, acts, p, b) && b < k < |acts|
    ensures Grants(Run(boot, acts[..k]), Run(boot, acts[..k + 1]), p, f)
    ensures forall n :: k < n <= |acts| ==> Found(JobOf(Run(boot, acts[..n]), p)) == Some(f)
  {
    hide Serves;
    b := BegunByCommand(boot, acts, p);
    k := GrantedBefore(boot, acts, p, f);
    assert JobOf(Run(boot, acts[..b]), p).Idle?;
  }

  // ---------------------------------------------------------------- stable downloads

  /** At step `k` the command of step `b` got its lock on the file, at its offset and with that content. */
  ghost predicate LockedAt(boot: State, acts: seq<Action>, p: Pid, b: nat, k: nat, f: (Ino, nat, seq<byte>)) {
    && Since(boot, acts, p, b) && b < k < |acts|
    && f.2 == Data(Run(boot, acts[..k]), f.0)
    && Grants(Run(boot, acts[..k]), Run(boot, acts[..k + 1]), p, f)
  }

  /**
    Whatever other sessions do, a download delivers the file its path led to when the command
    came, as it was when the read lock was granted, from the offset the client asked for; the size
    announced first is the number of bytes that follow.
  */
  lemma StableDownload(boot: State, acts: seq<Action>, p: Pid) returns (b: nat, k: nat)
    requires Boot(boot) && (JobOf(Run(boot, acts), p).DlSending? || JobOf(Run(boot, acts), p).DlDone?)
    ensures b < k < |acts| && acts[b].Begin? && acts[b].p == p && acts[b].c.Download?
    ensures var j, c := JobOf(Run(boot, acts), p), acts[b].c;
      var content := Data(Run(boot, acts[..k]), j.i);
      && Opens(Run(boot, acts[..b]), c.path, j.i)
      && LockedAt(boot, acts, p, b, k, (j.i, c.offset, content))
      && Data(Run(boot, acts), j.i) == content
      && j.announced == |From(content, c.offset)|
      && j.sent <= From(content, c.offset)
      && (j.DlDone? ==> j.sent == From(content, c.offset) && |j.sent| == j.announced)
  {
    var s := Run(boot, acts);
    var j := JobOf(s, p);
    RunKeepsInv(boot, acts);
    assert JobInv(s, p, j);
    b, k := GrantedToCommand(boot, acts, p, (j.i, j.offset, j.snap));
    ServedNow(boot, acts, p, b);
  }

  lemma ServedNow(boot: State, acts: seq<Action>, p: Pid, b: nat)
    requires Since(boot, acts, p, b)
    ensures Serves(JobOf(Run(boot, acts), p), acts[b].c, Run(boot, acts[..b]))
  {
    assert acts[..|acts|] == acts;
  }

  // ---------------------------------------------------------------- in-place changes

  /**
    While it runs, a write at an offset has made the file its path came to lead to at step `o` what
    it was at its write lock, with exactly the bytes received so far laid over it from the offset
    the client asked for.
  */
  lemma IsolatedWrite(boot: State, acts: seq<Action>, p: Pid) returns (b: nat, o: nat, k: nat)
    requires Boot(boot) && JobOf(Run(boot, acts), p).WrLocked?
    ensures b < o < k < |acts| && acts[b].Begin? && acts[b].p == p && acts[b].c.Write?
    ensures var j, c := JobOf(Run(boot, acts), p), acts[b].c;
      var content := Data(Run(boot, acts[..k]), j.i);
      && j.path == c.path && (j.existed <==> c.path in Run(boot, acts[..b]).fs.names)
      && OpenedSince(boot, acts, p, b, o, (c.path, j.i))
      && LockedAt(boot, acts, p, b, k, (j.i, c.offset, content))
      && Data(Run(boot, acts), j.i) == Overlay(content, c.offset, j.written)
  {
    hide Arrives, Inv, Run;
    var s := Run(boot, acts);
    var j := JobOf(s, p);
    RunKeepsInv(boot, acts);
    JobHolds(s, p);
    b, k := GrantedToCommand(boot, acts, p, (j.i, j.offset, j.base));
    ServedNow(boot, acts, p, b);
    o := OpenedOnce(boot, acts, p, b, (j.path, j.i));
    OpenedBeforeLock(boot, acts, p, b, o, k, (j.i, j.offset, j.base));
  }

  lemma OpenedBeforeLock(boot: State, acts: seq<Action>, p: Pid, b: nat, o: nat, k: nat, f: (Ino, nat, seq<byte>))
    requires Since(boot, acts, p, b) && acts[b].c.Write? && OpenedSince(boot, acts, p, b, o, (acts[b].c.path, f.0))
    requires LockedAt(boot, acts, p, b, k, f)
    requires forall n :: k < n <= |acts| ==> Found(JobOf(Run(boot, acts[..n]), p)) == Some(f)
    ensures o < k
  {
    hide Serves, Run, Arrives;
    assert Serves(JobOf(Run(boot, acts[..o]), p), acts[b].c, Run(boot, acts[..b]));
    WantedIsOpen(JobOf(Run(boot, acts[..o]), p), acts[b].c, Run(boot, acts[..b]));
  }

  /** A write that waits for its lock, or has it, has its file open. */
  lemma WantedIsOpen(j: Job, c: Command, s0: State)
    requires Serves(j, c, s0) && c.Write?
    ensures Wants(j).Some? ==> OpenedAt(j) == Some((c.path, Wants(j).value.0))
    ensures Found(j).Some? ==> OpenedAt(j) == Some((c.path, Found(j).value.0))
  {
  }

  /**
    A transfer copy that ends without an error: the destination, which was absent until the copy
    created it at step `o`, starts with the source as it was at the read lock, and equals it exactly
    when nobody had put more bytes than that into the new file before the copy had locked it.
  */
  lemma CopiedVersion(boot: State, acts: seq<Action>, p: Pid) returns (b: nat, o: nat, k: nat)
    requires Boot(boot) && JobOf(Run(boot, acts), p).CpDone?
    ensures b < o < |acts| && b < k < |acts| && acts[b].Begin? && acts[b].p == p && acts[b].c.Copy?
    ensures var j, c := JobOf(Run(boot, acts), p), acts[b].c;
      var content := Data(Run(boot, acts[..k]), j.si);
      && Opens(Run(boot, acts[..b]), c.path, j.si)
      && OpenedSince(boot, acts, p, b, o, (c.dst, j.di)) && c.dst !in Run(boot, acts[..o]).fs.names
      && LockedAt(boot, acts, p, b, k, (j.si, 0, content))
      && content <= Data(Run(boot, acts), j.di)
      && (Data(Run(boot, acts), j.di) == content <==> |j.base| <= |content|)
  {
    var s := Run(boot, acts);
    var j := JobOf(s, p);
    RunKeepsInv(boot, acts);
    assert JobInv(s, p, j);
    b, k := GrantedToCommand(boot, acts, p, (j.si, 0, j.snap));
    ServedNow(boot, acts, p, b);
    o := OpenedOnce(boot, acts, p, b, (j.dst, j.di));
    OverlayAtStart(j.base, j.snap);
  }

  lemma OverlayAtStart(base: seq<byte>, data: seq<byte>)
    ensures data <= Overlay(base, 0, data)
    ensures Overlay(base, 0, data) == data <==> |base| <= |data|
  {
    if |base| > |data| {
      assert |Overlay(base, 0, data)| == |base|;
    }
  }

  // ---------------------------------------------------------------- whole versions

  /** The byte sequences that are versions: an empty placeholder, a file from before, an upload. */
  ghost predicate Version(boot: State, acts: seq<Action>, data: seq<byte>) {
    || data == []
    || (exists i :: i in boot.fs.nodes && data == Data(boot, i))
    || (exists k :: 0 <= k < |acts| && Uploads(acts[k], data))
  }

  predicate Uploads(a: Action, data: seq<byte>) {
    a.Begin? && a.c.Upload? && a.c.source == data
  }

  /** No session writes at an offset or copies a transferred file. */
  predicate ReplacesOnly(acts: seq<Action>) {
    forall k :: 0 <= k < |acts| ==> !InPlace(acts[k])
  }

  predicate InPlace(a: Action) {
    a.Begin? && (a.c.Write? || a.c.Copy?)
  }

  /** The histories are those of the run. */
  ghost predicate Traced(boot: State, acts: seq<Action>, s: State) {
    && (forall i :: i in s.origin && s.origin[i].Initial? ==> i in boot.fs.nodes && s.origin[i].data == Data(boot, i))
    && (forall id :: 0 <= id < |s.uploads| ==> exists k :: 0 <= k < |acts| && Uploads(acts[k], s.uploads[id]))
  }

  lemma StepOrigins(s: State, a: Action)
    ensures var s' := Step(s, a);
      && s.uploads <= s'.uploads && |s'.uploads| <= |s.uploads| + 1
      && (|s'.uploads| > |s.uploads| ==> Uploads(a, s'.uploads[|s.uploads|]))
      && forall i :: i in s'.origin && s'.origin[i].Initial? ==> i in s.origin && s'.origin[i] == s.origin[i]
  {
    if a.Go? && a.p in s.jobs {
      GoIsLocal(s, a.p, s.jobs[a.p], a.ok, a.n, a.bytes, a.name);
    }
  }

  lemma {:induction false} RunIsTraced(boot: State, acts: seq<Action>)
    requires Boot(boot)
    ensures Traced(boot, acts, Run(boot, acts))
  {
    var n := |acts|;
    if n > 0 {
      var s, s' := Run(boot, acts[..n - 1]), Run(boot, acts);
      RunIsTraced(boot, acts[..n - 1]);
      StepOrigins(s, acts[n - 1]);
      forall id | 0 <= id < |s'.uploads| ensures exists k :: 0 <= k < n && Uploads(acts[k], s'.uploads[id]) {
        if id < |s.uploads| {
          var k :| 0 <= k < n - 1 && Uploads(acts[..n - 1][k], s.uploads[id]);
          assert Uploads(acts[k], s'.uploads[id]);
        }
      }
    }
  }

  /** Without in-place commands no process is ever at work on one, and no inode is patched. */
  ghost predicate Unpatched(s: State) {
    && (forall i :: i in s.origin ==> !s.origin[i].Patched?)
    && (forall p :: p in s.jobs ==> !IsWrite(s.jobs[p]) && !IsCopy(s.jobs[p]))
  }

  lemma StepStaysUnpatched(s: State, a: Action)
    requires Unpatched(s) && !InPlace(a)
    ensures Unpatched(Step(s, a))
  {
    hide GoStep, IsFile;
    if a.Go? && a.p in s.jobs {
      GoIsLocal(s, a.p, s.jobs[a.p], a.ok, a.n, a.bytes, a.name);
      assert forall q :: q in Step(s, a).jobs && q != a.p ==> q in s.jobs && Step(s, a).jobs[q] == s.jobs[q];
    }
  }

  lemma {:induction false} RunStaysUnpatched(boot: State, acts: seq<Action>)
    requires Boot(boot) && ReplacesOnly(acts)
    ensures Unpatched(Run(boot, acts))
  {
    var n := |acts|;
    if n == 0 {
      assert forall i :: i in boot.origin ==> boot.origin[i] == Initial(Data(boot, i));
    } else {
      RunStaysUnpatched(boot, acts[..n - 1]);
      StepStaysUnpatched(Run(boot, acts[..n - 1]), acts[n - 1]);
    }
  }

  lemma WholeInode(boot: State, acts: seq<Action>, i: Ino)
    requires Boot(boot)
    requires var s := Run(boot, acts); i in s.origin && !s.origin[i].Patched? && !s.origin[i].Partial?
    ensures Version(boot, acts, Data(Run(boot, acts), i))
  {
    var s := Run(boot, acts);
    RunKeepsInv(boot, acts);
    RunIsTraced(boot, acts);
    assert Holds(s.origin[i], Data(s, i), s.uploads);
  }

  /**
    Whatever uploads, downloads, moves and deletions do at the same time, and wherever processes
    die: every path leads to a whole version, never to a part or a mixture.
  */
  lemma WholeVersions(boot: State, acts: seq<Action>, path: Path)
    requires Boot(boot) && ReplacesOnly(acts)
    requires !Temporary(path) && IsFile(Run(boot, acts).fs, path)
    ensures Version(boot, acts, Data(Run(boot, acts), Run(boot, acts).fs.names[path]))
  {
    var s := Run(boot, acts);
    RunKeepsInv(boot, acts);
    RunStaysUnpatched(boot, acts);
    OpenedIsPublic(s, path);
    WholeInode(boot, acts, s.fs.names[path]);
  }

  /** With in-place commands about, a path can only lead to anything else after one has changed that file. */
  lemma OnlyInPlaceMixes(boot: State, acts: seq<Action>, path: Path)
    requires Boot(boot) && !Temporary(path) && IsFile(Run(boot, acts).fs, path)
    ensures var s := Run(boot, acts);
      s.origin.Keys == s.fs.nodes.Keys
      && (Version(boot, acts, Data(s, s.fs.names[path])) || s.origin[s.fs.names[path]] == Patched)
  {
    var s := Run(boot, acts);
    RunKeepsInv(boot, acts);
    OpenedIsPublic(s, path);
    if s.origin[s.fs.names[path]] != Patched {
      WholeInode(boot, acts, s.fs.names[path]);
    }
  }

  /** An upload ends up in one file at most: no two paths lead to the same upload. */
  lemma OneFilePerUpload(boot: State, acts: seq<Action>, a: Path, b: Path, id: nat)
    requires Boot(boot)
    requires var s := Run(boot, acts);
      && a in s.fs.names && s.fs.names[a] in s.origin && s.origin[s.fs.names[a]] == Complete(id)
      && b in s.fs.names && s.fs.names[b] in s.origin && s.origin[s.fs.names[b]] == Complete(id)
    ensures a == b
  {
    var s := Run(boot, acts);
    RunKeepsInv(boot, acts);
    assert FromUpload(s.origin[s.fs.names[a]], id) && FromUpload(s.origin[s.fs.names[b]], id);
  }

  /**
    So a finished download hands over one whole version of the file its path led to when the
    command came, from the offset the client asked for.
  */
  lemma DownloadsAreWhole(boot: State, acts: seq<Action>, p: Pid) returns (b: nat, k: nat)
    requires Boot(boot) && ReplacesOnly(acts) && JobOf(Run(boot, acts), p).DlDone?
    ensures b < k < |acts| && acts[b].Begin? && acts[b].p == p && acts[b].c.Download?
    ensures IsFile(Run(boot, acts[..b]).fs, acts[b].c.path)
    ensures var version := Data(Run(boot, acts[..k]), Run(boot, acts[..b]).fs.names[acts[b].c.path]);
      Version(boot, acts, version) && JobOf(Run(boot, acts), p).sent == From(version, acts[b].c.offset)
  {
    var s := Run(boot, acts);
    var j := JobOf(s, p);
    RunKeepsInv(boot, acts);
    RunStaysUnpatched(boot, acts);
    assert JobInv(s, p, j) && Public(s, j.i);
    WholeInode(boot, acts, j.i);
    b, k := StableDownload(boot, acts, p);
  }

  // ---------------------------------------------------------------- writers

  /** The files a process holds write locks on for a change it has not finished, and the paths they came by. */
  function Writes(j: Job): set<(Path, Ino)> {
    match j
    case UpLocked(u, _, _, li, _) => {(u.path, li)}
    case UpReady(u, _, _, li) => {(u.path, li)}
    case WrLocked(path, _, _, i, _, _) => {(path, i)}
    case CpCopying(_, dst, di, _, _, _) => {(dst, di)}
    case CpDone(_, dst, di, _, _) => {(dst, di)}
    case MvLocked(from, _, si, _) => {(from, si)}
    case MvDest(from, _, si, _) => {(from, si)}
    case MvReady(from, to, si, dest) => if dest.Some? then {(from, si), (to, dest.value)} else {(from, si)}
    case RmLocked(path, i) => {(path, i)}
    case _ => {}
  }

  /**
    Locks belong to inodes. Two processes may be changing files under one path, but never the same
    inode, so at most one of them is at work on the file the path leads to; and nobody reads a
    file that another is changing.
  */
  lemma WritersExclude(boot: State, acts: seq<Action>, p: Pid, q: Pid, a: (Path, Ino))
    requires Boot(boot) && p != q && a in Writes(JobOf(Run(boot, acts), p))
    ensures var s := Run(boot, acts);
      && (forall b :: b in Writes(JobOf(s, q)) ==> b.1 != a.1 && (b.0 == a.0 && LeadsTo(s, b) ==> !LeadsTo(s, a)))
      && (JobOf(s, q).DlSending? ==> JobOf(s, q).i != a.1)
      && (q, a.1) !in s.readers && (q, a.1) !in s.writers
  {
    var s := Run(boot, acts);
    RunKeepsInv(boot, acts);
    HoldsItsLocks(s, p, a);
    forall b | b in Writes(JobOf(s, q)) ensures b.1 != a.1 {
      HoldsItsLocks(s, q, b);
    }
    if q in s.jobs {
      assert JobInv(s, q, s.jobs[q]);
    }
  }

  lemma HoldsItsLocks(s: State, p: Pid, a: (Path, Ino))
    requires Inv(s) && a in Writes(JobOf(s, p))
    ensures (p, a.1) in s.writers
  {
    assert JobInv(s, p, s.jobs[p]);
  }
}
