/**
  The System V semaphore around the shared segment, with SEM_UNDO, used by any number of
  processes that may be killed at any instruction. Every critical section is a list of
  stores; the log remembers, in lock order, how far each section got.
*/
module Semaphore {
  type Pid = int

  datatype Store = Store(address: int, value: int)

  type Memory = map<int, int>

  datatype Fate = Running | Finished | Killed

  datatype Section = Section(owner: Pid, script: seq<Store>, done: nat, fate: Fate)

  /** `undo` is the kernel's semadj value of every process that exists. */
  datatype State = State(value: int, undo: map<Pid, int>, memory: Memory, log: seq<Section>)

  datatype Action =
    | Fork(p: Pid)
    | Lock(p: Pid, script: seq<Store>) // semop -1, blocks while the value is 0
    | Write(p: Pid)                    // the next store of the section
    | Unlock(p: Pid)                   // semop +1 after the last store
    | Kill(p: Pid)                     // the kernel adds semadj back

  const INIT: State := State(1, map[], map[], [])

  predicate RunBy(x: Section, p: Pid) {
    x.owner == p && x.fate.Running?
  }

  /** The section of the log `p` is running, or the length of the log. */
  function SectionOf(log: seq<Section>, p: Pid): (k: nat)
    ensures k <= |log|
    ensures k < |log| ==> RunBy(log[k], p)
    ensures k == |log| ==> forall i :: 0 <= i < |log| ==> !RunBy(log[i], p)
  {
    if log == [] || RunBy(log[0], p) then 0 else 1 + SectionOf(log[1..], p)
  }

  /** `p` is in a critical section, of which there could be any number at once as far as this says. */
  predicate Inside(s: State, p: Pid) {
    SectionOf(s.log, p) < |s.log|
  }

  function Replace(s: State, k: nat, x: Section): State
    requires k < |s.log|
  {
    s.(log := s.log[k := x])
  }

  /** One step; an action that is blocked or makes no sense changes nothing. */
  function Step(s: State, a: Action): State {
    match a
    case Fork(p) => if p in s.undo then s else s.(undo := s.undo[p := 0])
    case Lock(p, script) =>
      if p !in s.undo || Inside(s, p) || s.value == 0 then s
      else s.(value := s.value - 1, undo := s.undo[p := s.undo[p] + 1], log := s.log + [Section(p, script, 0, Running)])
    case Write(p) =>
      var k := SectionOf(s.log, p);
      if p !in s.undo || k == |s.log| || s.log[k].done >= |s.log[k].script| then s
      else
        var w := s.log[k].script[s.log[k].done];
        Replace(s, k, s.log[k].(done := s.log[k].done + 1)).(memory := s.memory[w.address := w.value])
    case Unlock(p) =>
      var k := SectionOf(s.log, p);
      if p !in s.undo || k == |s.log| || s.log[k].done < |s.log[k].script| then s
      else Replace(s, k, s.log[k].(fate := Finished)).(value := s.value + 1, undo := s.undo[p := s.undo[p] - 1])
    case Kill(p) =>
      if p !in s.undo then s
      else
        var k := SectionOf(s.log, p);
        var s' := if k < |s.log| then Replace(s, k, s.log[k].(fate := Killed)) else s;
        s'.(value := s.value + s.undo[p], undo := s.undo - {p})
  }

  function Exec(acts: seq<Action>): State {
    if acts == [] then INIT else Step(Exec(acts[..|acts| - 1]), acts[|acts| - 1])
  }

  // ---------------------------------------------------------------- what every run keeps

  function Perform(m: Memory, ws: seq<Store>): Memory {
    if ws == [] then m
    else
      var w := ws[|ws| - 1];
      Perform(m, ws[..|ws| - 1])[w.address := w.value]
  }

  /** The sections of the log one after another, each as far as it got. */
  function Serial(log: seq<Section>): Memory
    requires forall i :: 0 <= i < |log| ==> log[i].done <= |log[i].script|
  {
    if log == [] then map[]
    else
      var x := log[|log| - 1];
      Perform(Serial(log[..|log| - 1]), x.script[..x.done])
  }

  predicate SomeoneInside(s: State) {
    s.log != [] && s.log[|s.log| - 1].fate.Running?
  }

  ghost predicate Inv(s: State) {
    && (forall i :: 0 <= i < |s.log| ==> s.log[i].done <= |s.log[i].script|)
    && (forall i :: 0 <= i < |s.log| && s.log[i].fate.Finished? ==> s.log[i].done == |s.log[i].script|)
    && (forall i :: 0 <= i < |s.log| - 1 ==> !s.log[i].fate.Running?)
    && (SomeoneInside(s) ==> s.log[|s.log| - 1].owner in s.undo)
    && (forall p :: p in s.undo ==> s.undo[p] == if Inside(s, p) then 1 else 0)
    && s.value == (if SomeoneInside(s) then 0 else 1)
    && s.memory == Serial(s.log)
  }

  /** Whoever is inside runs the last section of the log. */
  lemma OnlyTheLast(s: State, p: Pid)
    requires Inv(s)
    ensures Inside(s, p) <==> SomeoneInside(s) && s.log[|s.log| - 1].owner == p
    ensures Inside(s, p) ==> SectionOf(s.log, p) == |s.log| - 1
  {
  }

  lemma LockKeeps(s: State, p: Pid, script: seq<Store>)
    requires Inv(s)
    ensures Inv(Step(s, Lock(p, script)))
  {
    var s' := Step(s, Lock(p, script));
    if s' != s {
      var x := Section(p, script, 0, Running);
      assert s'.log[..|s.log|] == s.log && s'.log[|s.log|] == x;
      assert script[..0] == [];
      forall q | q in s'.undo ensures s'.undo[q] == if Inside(s', q) then 1 else 0 {
        OnlyTheLast(s, q);
        assert q == p ==> RunBy(s'.log[|s.log|], q);
      }
    }
  }

  lemma WriteKeeps(s: State, p: Pid)
    requires Inv(s)
    ensures Inv(Step(s, Write(p)))
  {
    OnlyTheLast(s, p);
    var s' := Step(s, Write(p));
    if s' != s {
      var n := |s.log| - 1;
      var x, init := s.log[n], s.log[..n];
      assert s'.log[..n] == init;
      assert x.script[..x.done + 1][..x.done] == x.script[..x.done];
      assert Perform(Serial(init), x.script[..x.done + 1])
        == s.memory[x.script[x.done].address := x.script[x.done].value];
      forall q | q in s'.undo ensures s'.undo[q] == if Inside(s', q) then 1 else 0 {
        OnlyTheLast(s, q);
        assert RunBy(s'.log[n], q) <==> RunBy(s.log[n], q);
      }
    }
  }

  /** The process inside is done or dead: its section ends as it stands. */
  lemma EndKeeps(s: State, p: Pid, fate: Fate, undo: map<Pid, int>)
    requires Inv(s) && Inside(s, p) && !fate.Running?
    requires fate.Finished? ==> s.log[|s.log| - 1].done == |s.log[|s.log| - 1].script|
    requires forall q :: q in undo ==> undo[q] == 0
    ensures var n := |s.log| - 1;
      Inv(State(1, undo, s.memory, s.log[n := s.log[n].(fate := fate)]))
  {
    var n := |s.log| - 1;
    OnlyTheLast(s, p);
    var log' := s.log[n := s.log[n].(fate := fate)];
    assert log'[..n] == s.log[..n];
  }

  lemma ForkKeeps(s: State, p: Pid)
    requires Inv(s)
    ensures Inv(Step(s, Fork(p)))
  {
    OnlyTheLast(s, p);
  }

  lemma UnlockKeeps(s: State, p: Pid)
    requires Inv(s)
    ensures Inv(Step(s, Unlock(p)))
  {
    OnlyTheLast(s, p);
    if Step(s, Unlock(p)) != s {
      EndKeeps(s, p, Finished, Step(s, Unlock(p)).undo);
    }
  }

  lemma KillKeeps(s: State, p: Pid)
    requires Inv(s)
    ensures Inv(Step(s, Kill(p)))
  {
    OnlyTheLast(s, p);
    if p in s.undo && Inside(s, p) {
      EndKeeps(s, p, Killed, Step(s, Kill(p)).undo);
    }
  }

  lemma StepKeepsInv(s: State, a: Action)
    requires Inv(s)
    ensures Inv(Step(s, a))
  {
    match a
    case Fork(p) => ForkKeeps(s, p);
    case Lock(p, script) => LockKeeps(s, p, script);
    case Write(p) => WriteKeeps(s, p);
    case Unlock(p) => UnlockKeeps(s, p);
    case Kill(p) => KillKeeps(s, p);
  }

  lemma {:induction false} RunKeepsInv(acts: seq<Action>)
    ensures Inv(Exec(acts))
  {
    if acts != [] {
      RunKeepsInv(acts[..|acts| - 1]);
      StepKeepsInv(Exec(acts[..|acts| - 1]), acts[|acts| - 1]);
    }
  }

  // ---------------------------------------------------------------- results over all runs

  ghost function Holders(s: State): set<Pid> {
    set p | p in s.undo && Inside(s, p)
  }

  /**
    In every run the semaphore value plus the number of processes in a critical section is 1,
    and a process is owed an undo of 1 exactly while it is inside.
  */
  lemma ValuePlusHolders(acts: seq<Action>)
    ensures Exec(acts).value + |Holders(Exec(acts))| == 1
    ensures forall p :: p in Exec(acts).undo ==>
      0 <= Exec(acts).undo[p] <= 1 && (Exec(acts).undo[p] == 1 <==> Inside(Exec(acts), p))
  {
    RunKeepsInv(acts);
    var s := Exec(acts);
    forall p | p in s.undo ensures Inside(s, p) <==> SomeoneInside(s) && s.log[|s.log| - 1].owner == p {
      OnlyTheLast(s, p);
    }
    assert Holders(s) == if SomeoneInside(s) then {s.log[|s.log| - 1].owner} else {};
  }

  lemma Enters(s: State, p: Pid, script: seq<Store>)
    requires Inv(s) && p in s.undo && s.value == 1
    ensures Inside(Step(s, Lock(p, script)), p)
  {
    OnlyTheLast(s, p);
    var s' := Step(s, Lock(p, script));
    assert s'.log == s.log + [Section(p, script, 0, Running)];
    assert RunBy(s'.log[|s.log|], p);
  }

  /** Mutual exclusion, both ways: after any run a process that is outside gets in exactly when nobody is inside. */
  lemma EntersExactly(acts: seq<Action>, p: Pid, script: seq<Store>)
    requires p in Exec(acts).undo && !Inside(Exec(acts), p)
    ensures var s := Exec(acts);
      Inside(Step(s, Lock(p, script)), p) <==> forall q :: q in s.undo ==> !Inside(s, q)
  {
    RunKeepsInv(acts);
    var s := Exec(acts);
    if s.value == 1 {
      Enters(s, p, script);
      forall q | q in s.undo ensures !Inside(s, q) {
        OnlyTheLast(s, q);
      }
    } else {
      OnlyTheLast(s, s.log[|s.log| - 1].owner);
    }
  }

  /** Whoever leaves after its last store lets every waiting process in. */
  lemma UnlockLetsIn(acts: seq<Action>, holder: Pid, waiting: Pid, script: seq<Store>)
    requires waiting in Exec(acts).undo && waiting != holder
    requires holder in Exec(acts).undo && Inside(Exec(acts), holder)
    requires var x := Exec(acts).log[SectionOf(Exec(acts).log, holder)]; x.done == |x.script|
    ensures var s := Step(Exec(acts), Unlock(holder));
      && !Inside(s, holder) && s.memory == Exec(acts).memory
      && Inside(Step(s, Lock(waiting, script)), waiting)
  {
    RunKeepsInv(acts);
    var s := Step(Exec(acts), Unlock(holder));
    StepKeepsInv(Exec(acts), Unlock(holder));
    OnlyTheLast(Exec(acts), holder);
    OnlyTheLast(s, holder);
    Enters(s, waiting, script);
  }

  /** Killing whoever holds the semaphore lets every waiting process in. */
  lemma KillNeverBlocks(acts: seq<Action>, holder: Pid, waiting: Pid, script: seq<Store>)
    requires waiting in Exec(acts).undo && waiting != holder
    requires holder in Exec(acts).undo && Inside(Exec(acts), holder)
    ensures var s := Step(Exec(acts), Kill(holder));
      Step(s, Lock(waiting, script)) != s && Inside(Step(s, Lock(waiting, script)), waiting)
  {
    RunKeepsInv(acts);
    var s := Step(Exec(acts), Kill(holder));
    StepKeepsInv(Exec(acts), Kill(holder));
    OnlyTheLast(Exec(acts), holder);
    OnlyTheLast(s, waiting);
    Enters(s, waiting, script);
  }

  /**
    Critical sections are atomic: in every run the segment holds what the sections write one
    after another in lock order. Only the last may still be running, and only a killed one
    wrote less than it had to.
  */
  lemma SectionsAreSerial(acts: seq<Action>)
    ensures var s := Exec(acts);
      && (forall i :: 0 <= i < |s.log| ==> s.log[i].done <= |s.log[i].script|)
      && (forall i :: 0 <= i < |s.log| && s.log[i].fate.Finished? ==> s.log[i].done == |s.log[i].script|)
      && (forall i :: 0 <= i < |s.log| - 1 ==> !s.log[i].fate.Running?)
      && s.memory == Serial(s.log)
  {
    RunKeepsInv(acts);
  }
}
