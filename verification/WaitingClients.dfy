/** Which client waits for the answer to which request. */
module WaitingClients {
  import opened Core
  import opened SharedTable
  import opened Notification
  import opened AnsweredRequests

  ghost predicate HasRoom(t: Table) {
    |t.entries| < MAX_ENTRIES || exists e :: e in t.entries && !e.status.Pending?
  }

  /** The move that adds the request and leaves its sender waiting: its recipient was told, or was not to be told. */
  ghost predicate AsksFor(s: World, m: Move, p: Pid, id: int) {
    && m.Asks? && m.p == p && m.announced && Free(s, p) && ValidDest(m.dest)
    && id == s.table.nextId && HasRoom(s.table)
  }

  /** The moves that end the wait of a session: any line written to it, its end, its death. */
  predicate Releases(s: World, m: Move, p: Pid) {
    match m
    case Tells(q, ok) => ok && q in s.errands && s.errands[q].Found? && s.errands[q].target == p
    case Leaves(r) => r == p
    case Die(ps) => p in ps
    case _ => false
  }

  lemma AddSucceeds(t: Table, source: string, dest: string, path: string)
    ensures Add(t, source, dest, path).1.Ok? <==> HasRoom(t)
    ensures Add(t, source, dest, path).1.Ok? ==> Add(t, source, dest, path).1.value == t.nextId
  {
    var free := FirstFree(t.entries);
    if free < |t.entries| {
      assert t.entries[free] in t.entries;
    }
  }

  predicate WaitsFor(s: World, p: Pid, id: int) {
    p in s.waits && s.waits[p] == id
  }

  lemma MoveWaits(s: World, m: Move, p: Pid, id: int)
    requires PeopleInv(s)
    ensures WaitsFor(Next(s, m), p, id) <==> AsksFor(s, m, p, id) || (WaitsFor(s, p, id) && !Releases(s, m, p))
  {
    hide Add, Take, FailSent, CollectStale, AddSession, FindSession, HasRoom, WellFormed, SessionsInv;
    if m.Asks? && Free(s, m.p) {
      AddSucceeds(s.table, s.users[m.p], m.dest, m.path);
    }
  }

  /** Since move `k` the session has waited for that request. */
  ghost predicate WaitsSince(ms: seq<Move>, p: Pid, id: int, k: nat) {
    && k < |ms| && AsksFor(After(ms[..k]), ms[k], p, id)
    && forall j :: k < j < |ms| ==> !Releases(After(ms[..j]), ms[j], p)
  }

  lemma WaitsLonger(ms: seq<Move>, m: Move, p: Pid, id: int, k: nat)
    requires k < |ms|
    ensures WaitsSince(ms + [m], p, id, k) <==> WaitsSince(ms, p, id, k) && !Releases(After(ms), m, p)
  {
    var all := ms + [m];
    assert all[..k] == ms[..k] && all[..|ms|] == ms;
    assert forall j :: k < j < |ms| ==> all[..j] == ms[..j] && all[j] == ms[j];
    if WaitsSince(all, p, id, k) {
      assert !Releases(After(all[..|ms|]), all[|ms|], p);
      forall j | k < j < |ms| ensures !Releases(After(ms[..j]), ms[j], p) {
        assert !Releases(After(all[..j]), all[j], p);
      }
    }
  }

  /**
    Exactly who waits: in every run a session waits for the answer to a request if and only if it sent
    that request, its recipient did not fail to be told, and since then no line was written to the
    session, which has neither ended nor died.
  */
  lemma {:induction false} WaitsExactly(ms: seq<Move>, p: Pid, id: int)
    ensures WaitsFor(After(ms), p, id) <==> exists k :: WaitsSince(ms, p, id, k)
  {
    if ms != [] {
      var init, m := ms[..|ms| - 1], ms[|ms| - 1];
      assert ms == init + [m];
      WaitsExactly(init, p, id);
      AfterKeeps(init, p, 1);
      MoveWaits(After(init), m, p, id);
      forall k: nat | k < |init|
        ensures WaitsSince(ms, p, id, k) <==> WaitsSince(init, p, id, k) && !Releases(After(init), m, p)
      {
        WaitsLonger(init, m, p, id, k);
      }
      assert WaitsSince(ms, p, id, |init|) <==> AsksFor(After(init), m, p, id);
    }
  }
}
