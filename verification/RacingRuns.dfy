/**
  Concrete runs of the machine of Processes, each from a file system with the one file "f".

  In the first two processes upload to one path at a time, each holding its lock. In the second a
  write is acknowledged although its file has lost its name, and in the third the clean-up of a
  failed upload unlinks another upload that was acknowledged. They show that what RacingWriters
  and LostUploads say about all runs is not said about none.

  A run is built one call at a time: `Then` adds a step to a run whose last state is known, and a
  small lemma for every kind of call says which state follows, so that no proof has to look into
  more than one step.
*/
module RacingRuns {
  import opened Core
  import opened Posix
  import opened Processes
  import opened ProcessInvariants
  import opened ProcessSteps
  import opened OneCall
  import opened CommandRuns
  import opened VersionTheorems
  import opened RacingWriters
  import opened LostUploads

  /** One file "f", inode 1. */
  function OneFile(): State {
    State(Fs(map["f" := 1], map[1 := File([], 0)]), {}, {}, map[], 2, map[1 := Initial([])], [])
  }

  lemma OneFileBoots()
    ensures Boot(OneFile())
  {
  }

  lemma ShortNames()
    ensures !Temporary("f") && Temporary(".temp1") && Temporary(".temp2")
  {
    NoSlash("f");
    NoSlash(".temp1");
    NoSlash(".temp2");
  }

  lemma {:induction false} NoSlash(p: Path)
    requires '/' !in p
    ensures DirPart(p) == ""
  {
    if p != "" {
      assert p[|p| - 1] in p;
      NoSlash(p[..|p| - 1]);
    }
  }

  /** `acts` lead from `boot` to `s`. */
  ghost predicate Leads(boot: State, acts: seq<Action>, s: State) {
    Run(boot, acts) == s
  }

  lemma Then(boot: State, acts: seq<Action>, s: State, a: Action, s': State) returns (longer: seq<Action>)
    requires Leads(boot, acts, s) && Step(s, a) == s'
    ensures Leads(boot, longer, s')
  {
    longer := acts + [a];
    RunOneMore(boot, acts, a);
  }

  /** Process 2 has opened "f" for an upload and has not locked it yet. */
  lemma Opens() returns (acts: seq<Action>, s: State)
    ensures Leads(OneFile(), acts, s)
    ensures s.jobs == map[1 := Idle, 2 := UpOpen(Up("f", [], 0, true), ".temp1", 2, 1)]
    ensures s.fs.names == map["f" := 1, ".temp1" := 2] && s.fs.nodes.Keys == {1, 2} && s.fs.nodes[1] == File([], 0)
    ensures s.readers == {} && s.writers == {} && s.nextIno == 3 && s.uploads == [[]]
  {
    ShortNames();
    var u := Up("f", [], 0, true);
    var s0 := OneFile();
    acts := [];
    var s1 := Become(s0, 1, Idle);
    acts := Then(s0, acts, s0, Fork(1), s1);
    var s2 := Become(s1, 2, Idle);
    acts := Then(s0, acts, s1, Fork(2), s2);
    var s3 := Become(s2, 2, UpStart(u)).(uploads := [[]]);
    assert s2.uploads + [[]] == [[]];
    acts := Then(s0, acts, s2, Begin(2, Upload("f", [])), s3);
    var s4 := Become(NewFile(s3, ".temp1", Partial(2, 0)), 2, UpTemp(u, ".temp1", 2));
    acts := Then(s0, acts, s3, Calls(2, ".temp1"), s4);
    s := Become(s4, 2, UpOpen(u, ".temp1", 2, 1));
    acts := Then(s0, acts, s4, Calls(2, ""), s);
  }

  lemma DeleteBegins(boot: State, before: seq<Action>, s: State, p: Pid, path: Path, i: Ino) returns (acts: seq<Action>)
    requires Leads(boot, before, s) && p in s.jobs && s.jobs[p] == Idle
    requires !Temporary(path) && IsFile(s.fs, path) && s.fs.names[path] == i
    ensures Leads(boot, acts, Become(s, p, RmOpen(path, i)))
  {
    acts := Then(boot, before, s, Begin(p, Delete(path)), Become(s, p, RmOpen(path, i)));
  }

  lemma UploadBegins(boot: State, before: seq<Action>, s: State, p: Pid, u: Up) returns (acts: seq<Action>)
    requires Leads(boot, before, s) && p in s.jobs && s.jobs[p] == Idle
    requires !Temporary(u.path) && u.id == |s.uploads| && (u.existed <==> u.path in s.fs.names)
    ensures Leads(boot, acts, Become(s, p, UpStart(u)).(uploads := s.uploads + [u.source]))
  {
    acts := Then(boot, before, s, Begin(p, Upload(u.path, u.source)),
      Become(s, p, UpStart(u)).(uploads := s.uploads + [u.source]));
  }

  lemma DeleteLocks(boot: State, before: seq<Action>, s: State, p: Pid, path: Path, i: Ino) returns (acts: seq<Action>)
    requires Leads(boot, before, s) && p in s.jobs && s.jobs[p] == RmOpen(path, i) && CanWrite(s, p, i)
    ensures Leads(boot, acts, Become(LockWrite(s, p, i), p, RmLocked(path, i)))
  {
    acts := Then(boot, before, s, Calls(p, ""), Become(LockWrite(s, p, i), p, RmLocked(path, i)));
  }

  lemma DeleteDrops(boot: State, before: seq<Action>, s: State, p: Pid, path: Path, i: Ino) returns (acts: seq<Action>)
    requires Leads(boot, before, s) && p in s.jobs && s.jobs[p] == RmLocked(path, i) && IsFile(s.fs, path)
    ensures Leads(boot, acts, Become(Drop(s, path), p, RmDone(i, true)))
  {
    acts := Then(boot, before, s, Calls(p, ""), Become(Drop(s, path), p, RmDone(i, true)));
  }

  lemma DeleteEnds(boot: State, before: seq<Action>, s: State, p: Pid, i: Ino) returns (acts: seq<Action>)
    requires Leads(boot, before, s) && p in s.jobs && s.jobs[p] == RmDone(i, true)
    ensures Leads(boot, acts, Become(Close(s, p, i), p, Replies(true)))
  {
    acts := Then(boot, before, s, Calls(p, ""), Become(Close(s, p, i), p, Replies(true)));
  }

  lemma Replied(boot: State, before: seq<Action>, s: State, p: Pid, ok: bool) returns (acts: seq<Action>)
    requires Leads(boot, before, s) && p in s.jobs && s.jobs[p] == Replies(ok)
    ensures Leads(boot, acts, Become(s, p, Idle))
  {
    acts := Then(boot, before, s, Calls(p, ""), Become(s, p, Idle));
  }

  lemma UploadLocks(boot: State, before: seq<Action>, s: State, p: Pid, u: Up, t: Path, ti: Ino,
                    li: Ino) returns (acts: seq<Action>)
    requires Leads(boot, before, s) && p in s.jobs && s.jobs[p] == UpOpen(u, t, ti, li) && CanWrite(s, p, li)
    ensures Leads(boot, acts, Become(LockWrite(s, p, li), p, UpLocked(u, t, ti, li, 0)))
  {
    acts := Then(boot, before, s, Calls(p, ""), Become(LockWrite(s, p, li), p, UpLocked(u, t, ti, li, 0)));
  }

  lemma UploadOpensNew(boot: State, before: seq<Action>, s: State, p: Pid, u: Up, t: Path, ti: Ino)
    returns (acts: seq<Action>)
    requires Leads(boot, before, s) && p in s.jobs && s.jobs[p] == UpTemp(u, t, ti) && u.path !in s.fs.names
    ensures Leads(boot, acts, Become(NewFile(s, u.path, Blank), p, UpOpen(u, t, ti, s.nextIno)))
  {
    acts := Then(boot, before, s, Calls(p, ""), Become(NewFile(s, u.path, Blank), p, UpOpen(u, t, ti, s.nextIno)));
  }

  lemma UploadMakesTemp(boot: State, before: seq<Action>, s: State, p: Pid, u: Up, t: Path) returns (acts: seq<Action>)
    requires Leads(boot, before, s) && p in s.jobs && s.jobs[p] == UpStart(u) && Temporary(t) && t !in s.fs.names
    ensures Leads(boot, acts, Become(NewFile(s, t, Partial(p, u.id)), p, UpTemp(u, t, s.nextIno)))
  {
    acts := Then(boot, before, s, Calls(p, t), Become(NewFile(s, t, Partial(p, u.id)), p, UpTemp(u, t, s.nextIno)));
  }

  /** An idle process deletes a file nobody has locked. */
  lemma Deletes(boot: State, before: seq<Action>, s: State, p: Pid, path: Path, i: Ino) returns (acts: seq<Action>)
    requires Leads(boot, before, s) && p in s.jobs && s.jobs[p] == Idle && s.readers == {} && s.writers == {}
    requires !Temporary(path) && IsFile(s.fs, path) && s.fs.names[path] == i
    ensures Leads(boot, acts, s.(fs := Unlink(s.fs, path)))
  {
    acts := DeleteBegins(boot, before, s, p, path, i);
    var s1 := Become(s, p, RmOpen(path, i));
    acts := DeleteLocks(boot, acts, s1, p, path, i);
    var s2 := Become(LockWrite(s1, p, i), p, RmLocked(path, i));
    acts := DeleteDrops(boot, acts, s2, p, path, i);
    var s3 := Become(Drop(s2, path), p, RmDone(i, true));
    acts := DeleteEnds(boot, acts, s3, p, i);
    var s4 := Become(Close(s3, p, i), p, Replies(true));
    acts := Replied(boot, acts, s4, p, true);
    DeletedState(s, p, path, i);
  }

  lemma DeletedState(s: State, p: Pid, path: Path, i: Ino)
    requires p in s.jobs && s.jobs[p] == Idle && s.readers == {} && s.writers == {} && IsFile(s.fs, path)
    ensures var s2 := Become(LockWrite(Become(s, p, RmOpen(path, i)), p, i), p, RmLocked(path, i));
      Become(Become(Close(Become(Drop(s2, path), p, RmDone(i, true)), p, i), p, Replies(true)), p, Idle)
        == s.(fs := Unlink(s.fs, path))
  {
    var s2 := Become(LockWrite(Become(s, p, RmOpen(path, i)), p, i), p, RmLocked(path, i));
    var s4 := Become(Become(Close(Become(Drop(s2, path), p, RmDone(i, true)), p, i), p, Replies(true)), p, Idle);
    assert s4.jobs == s.jobs && s4.readers == {} && s4.writers == {};
  }

  /** It then uploads a new "f"... */
  lemma UploadsAnew(boot: State, before: seq<Action>, s: State) returns (acts: seq<Action>, s': State, u: Up)
    requires Leads(boot, before, s) && s.jobs.Keys == {1, 2} && s.jobs[1] == Idle
    requires s.readers == {} && s.writers == {} && "f" !in s.fs.names && ".temp2" !in s.fs.names
    ensures Leads(boot, acts, s') && s'.jobs.Keys == {1, 2} && s'.jobs[2] == s.jobs[2]
    ensures u.path == "f" && s'.jobs[1] == UpTemp(u, ".temp2", s.nextIno) && "f" !in s'.fs.names
    ensures s'.readers == {} && s'.writers == {} && s'.nextIno == s.nextIno + 1
  {
    ShortNames();
    u := Up("f", [], |s.uploads|, false);
    var s1 := Become(s, 1, UpStart(u)).(uploads := s.uploads + [[]]);
    acts := UploadBegins(boot, before, s, 1, u);
    acts := UploadMakesTemp(boot, acts, s1, 1, u, ".temp2");
    s' := Become(NewFile(s1, ".temp2", Partial(1, u.id)), 1, UpTemp(u, ".temp2", s.nextIno));
  }

  /** ...and holds the lock on the new file. */
  lemma LocksAnew(boot: State, before: seq<Action>, s: State, u: Up, ti: Ino) returns (acts: seq<Action>, s': State)
    requires Leads(boot, before, s) && s.jobs.Keys == {1, 2} && s.jobs[1] == UpTemp(u, ".temp2", ti)
    requires u.path == "f" && s.readers == {} && s.writers == {} && "f" !in s.fs.names
    ensures Leads(boot, acts, s') && s'.jobs.Keys == {1, 2} && s'.jobs[2] == s.jobs[2]
    ensures ("f", s.nextIno) in Writes(s'.jobs[1]) && s'.readers == {} && s'.writers == {(1, s.nextIno)}
  {
    acts := UploadOpensNew(boot, before, s, 1, u, ".temp2", ti);
    var s1 := Become(NewFile(s, "f", Blank), 1, UpOpen(u, ".temp2", ti, s.nextIno));
    acts := UploadLocks(boot, acts, s1, 1, u, ".temp2", ti, s.nextIno);
    s' := Become(LockWrite(s1, 1, s.nextIno), 1, UpLocked(u, ".temp2", ti, s.nextIno, 0));
  }

  /** Process 2 gets its lock too, on the file that "f" no longer leads to. */
  lemma LocksStale(boot: State, before: seq<Action>, s: State, a: (Path, Ino)) returns (acts: seq<Action>)
    requires Leads(boot, before, s) && s.jobs.Keys == {1, 2} && s.readers == {} && s.writers == {(1, a.1)} && a.1 != 1
    requires s.jobs[2] == UpOpen(Up("f", [], 0, true), ".temp1", 2, 1) && a in Writes(s.jobs[1])
    ensures a in Writes(JobOf(Run(boot, acts), 1)) && ("f", 1) in Writes(JobOf(Run(boot, acts), 2))
  {
    acts := UploadLocks(boot, before, s, 2, Up("f", [], 0, true), ".temp1", 2, 1);
    var s' := Become(LockWrite(s, 2, 1), 2, UpLocked(Up("f", [], 0, true), ".temp1", 2, 1, 0));
    assert Run(boot, acts) == s' && JobOf(s', 1) == s.jobs[1];
  }

  /** "f" as process 2 opened it is gone. */
  lemma OpensThenGone() returns (acts: seq<Action>, s: State)
    ensures Leads(OneFile(), acts, s) && s.jobs.Keys == {1, 2} && s.jobs[1] == Idle
    ensures s.jobs[2] == UpOpen(Up("f", [], 0, true), ".temp1", 2, 1)
    ensures s.readers == {} && s.writers == {} && "f" !in s.fs.names && ".temp2" !in s.fs.names && s.nextIno == 3
  {
    var before, s0 := Opens();
    ShortNames();
    acts := Deletes(OneFile(), before, s0, 1, "f", 1);
    s := s0.(fs := Unlink(s0.fs, "f"));
    assert ".temp2" != ".temp1" && ".temp2" != "f";
  }

  /**
    The promise that nobody else can write while someone is writing (SUMMARY.md, line 39) is kept
    for inodes only: a run in which two sessions upload to one path at the same time, each holding its lock.
  */
  lemma TwoWritersOnePath() returns (boot: State, acts: seq<Action>)
    ensures Boot(boot)
    ensures var s := Run(boot, acts);
      ("f", 4) in Writes(JobOf(s, 1)) && ("f", 1) in Writes(JobOf(s, 2))
  {
    boot := OneFile();
    OneFileBoots();
    var a1, s1 := OpensThenGone();
    var a2, s2, u := UploadsAnew(boot, a1, s1);
    var a3, s3 := LocksAnew(boot, a2, s2, u, 3);
    acts := LocksStale(boot, a3, s3, ("f", 4));
  }

  /** Process 2 has opened "f" for a write, and process 1 deletes "f". */
  lemma OpensForWriteThenGone() returns (acts: seq<Action>, s: State)
    ensures Leads(OneFile(), acts, s) && s.jobs == map[1 := Idle, 2 := WrOpen("f", true, 0, 1)]
    ensures s.readers == {} && s.writers == {} && s.fs.names == map[] && Data(s, 1) == []
  {
    ShortNames();
    var s0 := OneFile();
    acts := [];
    var s1 := Become(s0, 1, Idle);
    acts := Then(s0, acts, s0, Fork(1), s1);
    var s2 := Become(s1, 2, Idle);
    acts := Then(s0, acts, s1, Fork(2), s2);
    var s3 := Become(s2, 2, WrStart("f", true, 0));
    acts := Then(s0, acts, s2, Begin(2, Write("f", 0)), s3);
    var s4 := Become(s3, 2, WrOpen("f", true, 0, 1));
    acts := Then(s0, acts, s3, Calls(2, ""), s4);
    acts := Deletes(s0, acts, s4, 1, "f", 1);
    s := s4.(fs := Unlink(s4.fs, "f"));
    assert s.fs.names == map[];
  }

  /** A run in which a write is acknowledged although its bytes can never be read again. */
  lemma LostWrite(more: seq<Action>) returns (boot: State, acts: seq<Action>)
    ensures Boot(boot) && JobOf(Run(boot, acts), 2) == WrLocked("f", true, 0, 1, [], [7])
    ensures JobOf(Run(boot, acts + [Calls(2, "")]), 2) == Replies(true)
    ensures Nameless(Run(boot, acts + [Calls(2, "")] + more).fs, 1)
  {
    boot := OneFile();
    OneFileBoots();
    var before, s := OpensForWriteThenGone();
    RunKeepsInv(boot, before);
    acts := WriteToReplacedFile(boot, before, 2, [7], more);
  }

  // ---------------------------------------------------------------- an acknowledged upload is lost

  const FAILING: Up := Up("g", [], 0, false)
  const WINNING: Up := Up("g", [], 1, true)

  /** Two processes, and the first starts to upload to the absent "g". */
  lemma FirstStarts() returns (acts: seq<Action>, s: State)
    ensures Leads(OneFile(), acts, s)
    ensures s == OneFile().(jobs := map[1 := UpStart(FAILING), 2 := Idle], uploads := [[]])
  {
    ShortNames();
    NoSlash("g");
    var s0 := OneFile();
    var s1 := Become(s0, 1, Idle);
    acts := Then(s0, [], s0, Fork(1), s1);
    var s2 := Become(s1, 2, Idle);
    acts := Then(s0, acts, s1, Fork(2), s2);
    acts := UploadBegins(s0, acts, s2, 1, FAILING);
    s := Become(s2, 1, UpStart(FAILING)).(uploads := s2.uploads + [[]]);
  }

  /** It makes its temporary file... */
  lemma FirstMakesTemp() returns (acts: seq<Action>, s: State)
    ensures Leads(OneFile(), acts, s)
    ensures s.jobs == map[1 := UpTemp(FAILING, ".temp1", 2), 2 := Idle]
    ensures s.fs == Fs(map["f" := 1, ".temp1" := 2], map[1 := File([], 0), 2 := File([], 448)])
    ensures s.readers == {} && s.writers == {} && s.nextIno == 3 && |s.uploads| == 1
  {
    hide Run, Step;
    ShortNames();
    var s3;
    acts, s3 := FirstStarts();
    acts := UploadMakesTemp(OneFile(), acts, s3, 1, FAILING, ".temp1");
    s := Become(NewFile(s3, ".temp1", Partial(1, 0)), 1, UpTemp(FAILING, ".temp1", 2));
  }

  /** ...and a placeholder, and fails. */
  lemma FirstFails() returns (acts: seq<Action>, s: State)
    ensures Leads(OneFile(), acts, s)
    ensures s.jobs == map[1 := UpUndoTemp(FAILING, ".temp1", 2), 2 := Idle]
    ensures s.fs.names == map["f" := 1, ".temp1" := 2, "g" := 3]
    ensures s.fs.nodes == map[1 := File([], 0), 2 := File([], 448), 3 := File([], 448)]
    ensures s.readers == {} && s.writers == {} && s.nextIno == 4 && |s.uploads| == 1
  {
    hide Run, Step;
    var s4;
    acts, s4 := FirstMakesTemp();
    var s5 := Become(NewFile(s4, "g", Blank), 1, UpOpen(FAILING, ".temp1", 2, 3));
    acts := UploadOpensNew(OneFile(), acts, s4, 1, FAILING, ".temp1", 2);
    s := Become(Close(s5, 1, 3), 1, UpUndoTemp(FAILING, ".temp1", 2));
    acts := UploadFails(OneFile(), acts, s5, 1, FAILING, ".temp1", 2, 3);
  }

  lemma UploadFails(boot: State, before: seq<Action>, s: State, p: Pid, u: Up, t: Path, ti: Ino, li: Ino)
    returns (acts: seq<Action>)
    requires Leads(boot, before, s) && p in s.jobs && s.jobs[p] == UpOpen(u, t, ti, li)
    ensures Leads(boot, acts, Become(Close(s, p, li), p, UpUndoTemp(u, t, ti)))
  {
    acts := Then(boot, before, s, Go(p, false, 0, [], ""), Become(Close(s, p, li), p, UpUndoTemp(u, t, ti)));
  }

  lemma UploadOpensOld(boot: State, before: seq<Action>, s: State, p: Pid, u: Up, t: Path, ti: Ino)
    returns (acts: seq<Action>)
    requires Leads(boot, before, s) && p in s.jobs && s.jobs[p] == UpTemp(u, t, ti) && IsFile(s.fs, u.path)
    ensures Leads(boot, acts, Become(s, p, UpOpen(u, t, ti, s.fs.names[u.path])))
  {
    acts := Then(boot, before, s, Calls(p, ""), Become(s, p, UpOpen(u, t, ti, s.fs.names[u.path])));
  }

  lemma EmptyUploadEnds(boot: State, before: seq<Action>, s: State, p: Pid, u: Up, t: Path, ti: Ino, li: Ino)
    returns (acts: seq<Action>)
    requires Leads(boot, before, s) && p in s.jobs && s.jobs[p] == UpLocked(u, t, ti, li, 0) && u.source == []
    ensures Leads(boot, acts, Become(s, p, UpReady(u, t, ti, li)))
  {
    acts := Then(boot, before, s, Calls(p, ""), Become(s, p, UpReady(u, t, ti, li)));
  }

  lemma UploadPlaces(boot: State, before: seq<Action>, s: State, p: Pid, u: Up, t: Path, ti: Ino, li: Ino)
    returns (acts: seq<Action>)
    requires Leads(boot, before, s) && p in s.jobs && s.jobs[p] == UpReady(u, t, ti, li) && CanRename(s, t, u.path)
    ensures Leads(boot, acts, Become(Placed(s, u, t, ti), p, UpPlaced(li)))
  {
    acts := Then(boot, before, s, Calls(p, ""), Become(Placed(s, u, t, ti), p, UpPlaced(li)));
  }

  lemma UploadAnswers(boot: State, before: seq<Action>, s: State, p: Pid, li: Ino) returns (acts: seq<Action>)
    requires Leads(boot, before, s) && p in s.jobs && s.jobs[p] == UpPlaced(li)
    ensures Leads(boot, acts, Become(Close(s, p, li), p, Replies(true)))
  {
    acts := Then(boot, before, s, Calls(p, ""), Become(Close(s, p, li), p, Replies(true)));
  }

  /** Meanwhile process 2 has made its temporary file... */
  lemma SecondStarts() returns (acts: seq<Action>, s: State)
    ensures Leads(OneFile(), acts, s)
    ensures s.jobs == map[1 := UpUndoTemp(FAILING, ".temp1", 2), 2 := UpTemp(WINNING, ".temp2", 4)]
    ensures s.fs.names == map["f" := 1, ".temp1" := 2, "g" := 3, ".temp2" := 4]
    ensures IsFile(s.fs, ".temp1") && IsFile(s.fs, "g") && IsFile(s.fs, ".temp2")
    ensures s.readers == {} && s.writers == {}
  {
    hide Run, Step;
    var s0 := OneFile();
    var before, s1 := FirstFails();
    ShortNames();
    NoSlash("g");
    acts := UploadBegins(s0, before, s1, 2, WINNING);
    var s2 := Become(s1, 2, UpStart(WINNING)).(uploads := s1.uploads + [[]]);
    acts := UploadMakesTemp(s0, acts, s2, 2, WINNING, ".temp2");
    s := Become(NewFile(s2, ".temp2", Partial(2, 1)), 2, UpTemp(WINNING, ".temp2", 4));
  }

  /** ...finds the placeholder and locks it... */
  lemma SecondLocks() returns (acts: seq<Action>, s: State)
    ensures Leads(OneFile(), acts, s)
    ensures s.jobs == map[1 := UpUndoTemp(FAILING, ".temp1", 2), 2 := UpLocked(WINNING, ".temp2", 4, 3, 0)]
    ensures s.fs.names == map["f" := 1, ".temp1" := 2, "g" := 3, ".temp2" := 4]
    ensures IsFile(s.fs, ".temp1") && IsFile(s.fs, "g") && IsFile(s.fs, ".temp2")
  {
    hide Run, Step;
    var s0 := OneFile();
    var before, s3 := SecondStarts();
    acts := UploadOpensOld(s0, before, s3, 2, WINNING, ".temp2", 4);
    var s4 := Become(s3, 2, UpOpen(WINNING, ".temp2", 4, 3));
    acts := UploadLocks(s0, acts, s4, 2, WINNING, ".temp2", 4, 3);
    s := Become(LockWrite(s4, 2, 3), 2, UpLocked(WINNING, ".temp2", 4, 3, 0));
  }

  /** ...and its upload is put in place... */
  lemma SecondIsPlaced() returns (acts: seq<Action>, s: State)
    ensures Leads(OneFile(), acts, s)
    ensures s.jobs == map[1 := UpUndoTemp(FAILING, ".temp1", 2), 2 := UpPlaced(3)]
    ensures IsFile(s.fs, ".temp1") && IsFile(s.fs, "g") && s.fs.names["g"] == 4
    ensures 4 in s.origin && s.origin[4] == Complete(1)
  {
    hide Run, Step;
    var s0 := OneFile();
    var before, s1 := SecondLocks();
    acts := EmptyUploadEnds(s0, before, s1, 2, WINNING, ".temp2", 4, 3);
    var s2 := Become(s1, 2, UpReady(WINNING, ".temp2", 4, 3));
    acts := UploadPlaces(s0, acts, s2, 2, WINNING, ".temp2", 4, 3);
    s := Become(Placed(s2, WINNING, ".temp2", 4), 2, UpPlaced(3));
  }

  /** ...and acknowledged. */
  lemma SecondIsAcknowledged() returns (acts: seq<Action>, s: State)
    ensures Leads(OneFile(), acts, s)
    ensures s.jobs == map[1 := UpUndoTemp(FAILING, ".temp1", 2), 2 := Replies(true)]
    ensures IsFile(s.fs, ".temp1") && IsFile(s.fs, "g") && s.fs.names["g"] == 4
    ensures 4 in s.origin && s.origin[4] == Complete(1)
  {
    hide Run, Step;
    var before, s3 := SecondIsPlaced();
    acts := UploadAnswers(OneFile(), before, s3, 2, 3);
    s := Become(Close(s3, 2, 3), 2, Replies(true));
  }

  /**
    A run in which an acknowledged upload is lost: process 1 creates the target and fails to lock it,
    process 2 uploads to it, and the clean-up of process 1 unlinks the upload of process 2.
  */
  lemma LostUpload(more: seq<Action>) returns (acts: seq<Action>)
    ensures Boot(OneFile())
    ensures var s := Run(OneFile(), acts);
      && JobOf(s, 2) == Replies(true) && LeadsTo(s, ("g", 4)) && 4 in s.origin && s.origin[4] == Complete(1)
      && JobOf(s, 1) == UpUndoTemp(FAILING, ".temp1", 2)
    ensures Nameless(Run(OneFile(), acts + [Calls(1, ""), Calls(1, "")] + more).fs, 4)
  {
    OneFileBoots();
    var s;
    acts, s := SecondIsAcknowledged();
    var s1 := Become(Drop(s, ".temp1"), 1, UpUndoTarget("g"));
    var undone := acts + [Calls(1, "")];
    RunOneMore(OneFile(), acts, Calls(1, ""));
    assert Run(OneFile(), undone) == s1;
    assert undone + [Calls(1, "")] == acts + [Calls(1, ""), Calls(1, "")];
    LostExactly(OneFile(), undone, Calls(1, ""), "g", more);
  }
}
