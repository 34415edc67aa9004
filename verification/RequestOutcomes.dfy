/** Which step decides what about a transfer request, in every run. */
module RequestOutcomes {
  import opened Core
  import opened SharedTable
  import opened RequestRuns

  // ---------------------------------------------------------------- who writes which status

  /** The request is in the table and waits for an answer of that user. */
  ghost predicate AwaitsAnswer(t: Table, id: int, user: string) {
    exists e :: e in t.entries && e.id == id && e.status.Pending? && e.dest == user
  }

  /** One of the first `slots` slots holds the request, which still waits and was sent by that user. */
  ghost predicate SentWithin(t: Table, id: int, user: string, slots: nat) {
    exists i :: 0 <= i < |t.entries| && i < slots && t.entries[i].id == id && t.entries[i].status.Pending?
      && t.entries[i].source == user
  }

  ghost predicate HasRoom(t: Table) {
    |t.entries| < MAX_ENTRIES || exists e :: e in t.entries && !e.status.Pending?
  }

  /** The step that gives a request a status. */
  ghost predicate Writes(s: State, a: Action, id: int, st: Status) {
    match st
    case Pending => a.SendRequest? && id == s.table.nextId && HasRoom(s.table)
    case Accepted => a.Accept? && a.id == id && a.p !in s.copying && AwaitsAnswer(s.table, id, a.user)
    case Rejected => a.Reject? && a.id == id && AwaitsAnswer(s.table, id, a.user)
    case Failed =>
      || (a.CopyEnds? && !a.ok && a.p in s.copying && s.copying[a.p].id == id
          && exists e :: e in s.table.entries && e.id == id)
      || (a.Disconnect? && a.user != "" && SentWithin(s.table, id, a.user, |s.table.entries|))
      || (a.CrashInSetFailed? && a.user != "" && SentWithin(s.table, id, a.user, a.slots))
  }

  /** The status an id comes to be seen with. */
  function Moved(t: Table, t': Table, id: int): Option<Status> {
    if StatusOf(t', id) == StatusOf(t, id) then None else StatusOf(t', id)
  }

  lemma OnlySlot(t: Table, id: int)
    requires Sound(t) && id > 0
    ensures forall e :: e in t.entries && e.id == id ==>
      SlotOf(t.entries, id) < |t.entries| && e == t.entries[SlotOf(t.entries, id)]
  {
  }

  lemma WaitsInSlot(t: Table, id: int, user: string, to: Status)
    requires Sound(t) && id > 0
    ensures Take(t, id, user, to).1.Ok? <==> AwaitsAnswer(t, id, user)
  {
    OnlySlot(t, id);
    if Take(t, id, user, to).1.Ok? {
      assert t.entries[SlotOf(t.entries, id)] in t.entries;
    }
  }

  lemma TakeWrites(t: Table, id: int, user: string, to: Status, other: int)
    requires Sound(t) && id > 0 && other > 0 && !to.Pending?
    ensures Moved(t, Take(t, id, user, to).0, other)
      == if other == id && AwaitsAnswer(t, id, user) then Some(to) else None
  {
    TakeMoves(t, id, user, to, other);
    WaitsInSlot(t, id, user, to);
  }

  lemma AddWrites(t: Table, source: string, dest: string, path: string, other: int)
    requires Sound(t) && other > 0
    ensures var t' := Add(t, source, dest, path).0;
      Moved(t, t', other) == if other == t.nextId && HasRoom(t) then Some(Pending) else None
  {
    AddMoves(t, source, dest, path, other);
    var free := FirstFree(t.entries);
    assert HasRoom(t) <==> Add(t, source, dest, path).1.Ok? by {
      if free < |t.entries| {
        assert t.entries[free] in t.entries;
      }
    }
  }

  lemma FailWrites(t: Table, user: string, slots: nat, id: int)
    requires Sound(t) && id > 0
    ensures Moved(t, FailFirst(t, user, slots), id) == if SentWithin(t, id, user, slots) then Some(Failed) else None
  {
    var t', i := FailFirst(t, user, slots), SlotOf(t.entries, id);
    SameSlot(t.entries, t'.entries, id);
    OnlySlot(t, id);
    if SentWithin(t, id, user, slots) {
      var k :| 0 <= k < |t.entries| && k < slots && t.entries[k].id == id && t.entries[k].status.Pending?
        && t.entries[k].source == user;
      SlotIsUnique(t, k);
    }
  }

  lemma SetWrites(s: State, p: Pid, id: int)
    requires Inv(s) && p in s.copying && id > 0
    ensures Moved(s.table, SetStatus(s.table, s.copying[p].id, Failed).0, id)
      == if s.copying[p].id == id && (exists e :: e in s.table.entries && e.id == id) then Some(Failed) else None
  {
    var r := s.copying[p];
    assert CopyInv(s.table, s.history, r);
    assert EndsIn(s.history[r.id], StatusOf(s.table, r.id));
    SetMoves(s.table, r.id, Failed, id);
    OnlySlot(s.table, id);
    var i := SlotOf(s.table.entries, id);
    if i < |s.table.entries| {
      assert s.table.entries[i] in s.table.entries;
    }
  }

  lemma GrowthWrites(t: Table, t': Table, id: int)
    requires Sound(t) && t'.entries == GrownTable(t).entries && id > 0
    ensures Moved(t, t', id).None?
  {
    GrowthMoves(t, id);
  }

  lemma StepWrites(s: State, a: Action, id: int)
    requires Inv(s) && id > 0
    ensures forall st: Status :: Moved(s.table, Step(s, a).table, id) == Some(st) <==> Writes(s, a, id, st)
  {
    hide Inv, CopyInv, HistoryInv, Add, Take, SetStatus, FailSent, GrownTable, Moved, AwaitsAnswer, SentWithin, HasRoom;
    IsSound(s);
    Still(s.table, id);
    match a
    case SendRequest(source, dest, path) => AddWrites(s.table, source, dest, path, id);
    case Accept(p, i, user, _) => if i > 0 { TakeWrites(s.table, i, user, Accepted, id); }
    case CopyEnds(p, ok) => if p in s.copying { SetWrites(s, p, id); }
    case Reject(i, user) => if i > 0 { TakeWrites(s.table, i, user, Rejected, id); }
    case Disconnect(user) =>
      AllSlots(s.table, user);
      FailWrites(s.table, user, |s.table.entries|, id);
    case Dies(_) =>
    case CrashBeforeId => GrowthWrites(s.table, GrownTable(s.table), id);
    case CrashBeforeStore => GrowthWrites(s.table, SkippedId(s.table), id);
    case CrashInSetFailed(user, slots) => FailWrites(s.table, user, slots, id);
  }

  lemma IsSound(s: State)
    requires Inv(s)
    ensures Sound(s.table) && HistoryInv(s.table, s.history)
  {
  }

  lemma Still(t: Table, id: int)
    ensures Moved(t, t, id).None?
  {
  }

  lemma AllSlots(t: Table, user: string)
    ensures FailSent(t, user) == FailFirst(t, user, |t.entries|)
  {
  }

  lemma ObservesMove(h: map<int, seq<Status>>, t: Table, t': Table, id: int)
    requires HistoryInv(t, h) && Sound(t') && t'.nextId >= t.nextId && id > 0
    ensures Seen(Observe(h, t, t'), id) == Seen(h, id) + if Moved(t, t', id).Some? then [Moved(t, t', id).value] else []
  {
    if id >= t'.nextId {
      NewIdIsUnknown(t', id);
    }
  }

  /**
    Exactly which step writes which status to the history of a request, after any run: PENDING is
    written by the request that is sent under that id while there is room, REJECTED and ACCEPTED by
    an answer of the recipient it waits for, FAILED by the failed copy of that request, or by a
    disconnect of its sender, complete or cut short behind its slot, while it still waits. No other
    step writes anything, and a step writes one status at most. A copy is started for a request
    exactly by the accept that took it, if the sender is known.
  */
  lemma StatusExactly(acts: seq<Action>, a: Action, id: int)
    requires id > 0
    ensures var s, s' := Exec(acts), Exec(acts + [a]);
      var h, h' := Seen(s.history, id), Seen(s'.history, id);
      && (forall st: Status :: h' == h + [st] <==> Writes(s, a, id, st))
      && (h' == h <==> forall st: Status :: !Writes(s, a, id, st))
      && (s'.starts == s.starts + [id] <==> Writes(s, a, id, Accepted) && a.sourceKnown)
  {
    hide Moved, Writes;
    var s, s' := Exec(acts), Exec(acts + [a]);
    ExecOneMore(acts, a);
    RunKeepsInv(acts);
    RunKeepsInv(acts + [a]);
    IsSound(s);
    IsSound(s');
    StepWrites(s, a, id);
    StartsOnce(s, a, id);
    StepShape(s, a);
    Still(s.table, id);
    if s'.history == Observe(s.history, s.table, s'.table) {
      ObservesMove(s.history, s.table, s'.table, id);
    }
    OneLonger(Seen(s.history, id));
  }

  lemma OneLonger(h: seq<Status>)
    ensures forall st: Status :: h + [st] != h && (h + [st])[|h|] == st
  {
  }

  lemma StartsOnce(s: State, a: Action, id: int)
    requires Inv(s) && id > 0
    ensures Step(s, a).starts == s.starts + [id] <==> Writes(s, a, id, Accepted) && a.sourceKnown
  {
    if a.Accept? && a.id > 0 {
      WaitsInSlot(s.table, a.id, a.user, Accepted);
      assert (s.starts + [a.id])[|s.starts|] == a.id && (s.starts + [id])[|s.starts|] == id;
    }
  }

  // ---------------------------------------------------------------- what is copied is what was sent

  /** strncpy() into a field of `size` bytes. */
  function Cut(s: string, size: nat): string
    requires size > 0
  {
    s[..Min(|s|, size - 1)]
  }

  /** At step `k` the request was sent, with these names and this path as far as their fields hold them. */
  ghost predicate SentAt(acts: seq<Action>, k: nat, r: Request) {
    && k < |acts| && acts[k].SendRequest? && Exec(acts[..k]).table.nextId == r.id
    && r.source == Cut(acts[k].source, 33) && r.dest == Cut(acts[k].dest, 33) && r.path == Cut(acts[k].path, 4096)
  }

  ghost predicate WasSent(acts: seq<Action>, r: Request) {
    exists k :: SentAt(acts, k, r)
  }

  predicate Same(r: Request, r': Request) {
    r'.id == r.id && r'.source == r.source && r'.dest == r.dest && r'.path == r.path
  }

  ghost predicate AllSent(acts: seq<Action>, s: State) {
    && (forall e :: e in s.table.entries && e.id > 0 ==> WasSent(acts, e))
    && (forall p :: p in s.copying ==> WasSent(acts, s.copying[p]))
  }

  /** A request in the table after a step was there before, or is the one that is sent. */
  ghost predicate Descends(s: State, a: Action, e: Request) {
    || (exists e0 :: e0 in s.table.entries && Same(e0, e))
    || (a.SendRequest? && e.id == s.table.nextId
        && e.source == Cut(a.source, 33) && e.dest == Cut(a.dest, 33) && e.path == Cut(a.path, 4096))
  }

  /** The statuses of some slots change at most. */
  ghost predicate KeepsRequests(t: Table, t': Table) {
    |t'.entries| == |t.entries| && forall i :: 0 <= i < |t.entries| ==> Same(t.entries[i], t'.entries[i])
  }

  lemma StatusChangesOnly(t: Table, id: int, user: string, to: Status, slots: nat)
    ensures KeepsRequests(t, Take(t, id, user, to).0) && KeepsRequests(t, SetStatus(t, id, to).0)
    ensures KeepsRequests(t, FailSent(t, user)) && KeepsRequests(t, FailFirst(t, user, slots))
  {
  }

  lemma TableDescends(t: Table, t': Table, e: Request)
    requires KeepsRequests(t, t') && e in t'.entries
    ensures exists e0 :: e0 in t.entries && Same(e0, e)
  {
    var i :| 0 <= i < |t'.entries| && t'.entries[i] == e;
    assert t.entries[i] in t.entries && Same(t.entries[i], e);
  }

  lemma AddDescends(s: State, a: Action, e: Request)
    requires a.SendRequest? && e in Step(s, a).table.entries
    ensures Descends(s, a, e)
  {
    var t' := Add(s.table, a.source, a.dest, a.path).0;
    if !(e.id == s.table.nextId && e == NewRequest(e.id, a.source, a.dest, a.path)) {
      var i :| 0 <= i < |t'.entries| && t'.entries[i] == e;
      assert s.table.entries[i] == e && Same(e, e);
    }
  }

  lemma GrowthDescends(t: Table, e: Request)
    requires e in GrownTable(t).entries && e.id > 0
    ensures e in t.entries && Same(e, e)
  {
  }

  lemma StepDescends(s: State, a: Action, e: Request)
    requires e in Step(s, a).table.entries && e.id > 0
    ensures Descends(s, a, e)
  {
    assert Same(e, e);
    if a.SendRequest? {
      AddDescends(s, a, e);
    } else if e in s.table.entries {
    } else if a.CrashBeforeId? || a.CrashBeforeStore? {
      GrowthDescends(s.table, e);
    } else {
      StepKeepsRequests(s, a);
      TableDescends(s.table, Step(s, a).table, e);
    }
  }

  lemma StepKeepsRequests(s: State, a: Action)
    requires !a.SendRequest? && !a.CrashBeforeId? && !a.CrashBeforeStore?
    ensures KeepsRequests(s.table, Step(s, a).table)
  {
    hide Take, SetStatus, FailSent, FailFirst, KeepsRequests;
    Unchanged(s.table);
    match a
    case Accept(_, id, user, _) => StatusChangesOnly(s.table, id, user, Accepted, 0);
    case CopyEnds(p, _) => if p in s.copying { StatusChangesOnly(s.table, s.copying[p].id, "", Failed, 0); }
    case Reject(id, user) => StatusChangesOnly(s.table, id, user, Rejected, 0);
    case Disconnect(user) => StatusChangesOnly(s.table, 0, user, Failed, 0);
    case Dies(_) =>
    case CrashInSetFailed(user, slots) => StatusChangesOnly(s.table, 0, user, Failed, slots);
  }

  lemma Unchanged(t: Table)
    ensures KeepsRequests(t, t)
  {
  }

  lemma CopyDescends(s: State, a: Action, p: Pid)
    requires p in Step(s, a).copying
    ensures (p in s.copying && Step(s, a).copying[p] == s.copying[p]) ||
      exists e :: e in s.table.entries && e.id == Step(s, a).copying[p].id > 0 && Same(e, Step(s, a).copying[p])
  {
    if a.Accept? && a.id > 0 && Take(s.table, a.id, a.user, Accepted).1.Ok? {
      assert s.table.entries[SlotOf(s.table.entries, a.id)] in s.table.entries;
    }
  }

  lemma StillSent(acts: seq<Action>, a: Action, r: Request, r': Request)
    requires WasSent(acts, r) && Same(r, r')
    ensures WasSent(acts + [a], r')
  {
    var k: nat :| SentAt(acts, k, r);
    assert (acts + [a])[..k] == acts[..k];
    assert SentAt(acts + [a], k, r');
  }

  lemma {:induction false} RunSends(acts: seq<Action>)
    ensures AllSent(acts, Exec(acts))
  {
    if acts != [] {
      hide Step, Same, SentAt, Cut;
      var init, a := acts[..|acts| - 1], acts[|acts| - 1];
      RunSends(init);
      assert acts == init + [a];
      forall e | e in Exec(acts).table.entries && e.id > 0 ensures WasSent(acts, e) {
        StepDescends(Exec(init), a, e);
        EntrySent(init, a, e);
      }
      forall p | p in Exec(acts).copying ensures WasSent(acts, Exec(acts).copying[p]) {
        CopyDescends(Exec(init), a, p);
        CopySent(init, a, p);
      }
    }
  }

  lemma EntrySent(acts: seq<Action>, a: Action, e: Request)
    requires AllSent(acts, Exec(acts)) && Descends(Exec(acts), a, e) && e.id > 0
    ensures WasSent(acts + [a], e)
  {
    if e0 :| e0 in Exec(acts).table.entries && Same(e0, e) {
      StillSent(acts, a, e0, e);
    } else {
      assert (acts + [a])[..|acts|] == acts;
      assert SentAt(acts + [a], |acts|, e);
    }
  }

  lemma CopySent(acts: seq<Action>, a: Action, p: Pid)
    requires AllSent(acts, Exec(acts)) && p in Step(Exec(acts), a).copying
    ensures WasSent(acts + [a], Step(Exec(acts), a).copying[p])
  {
    var r := Step(Exec(acts), a).copying[p];
    CopyDescends(Exec(acts), a, p);
    if p in Exec(acts).copying && r == Exec(acts).copying[p] {
      StillSent(acts, a, r, r);
    } else {
      var e :| e in Exec(acts).table.entries && e.id == r.id > 0 && Same(e, r);
      StillSent(acts, a, e, r);
    }
  }

  /**
    What is copied is what was sent: in every run a process that copies for an accepted request has
    the sender, the recipient and the path of the step that sent it, cut only where their fields end.
  */
  lemma CopiesWhatWasSent(acts: seq<Action>, p: Pid) returns (k: nat)
    requires p in Exec(acts).copying
    ensures k < |acts| && acts[k].SendRequest?
    ensures var r := Exec(acts).copying[p];
      && r.id == Exec(acts[..k]).table.nextId
      && r.source == acts[k].source[..Min(|acts[k].source|, 32)] && r.dest == acts[k].dest[..Min(|acts[k].dest|, 32)]
      && r.path == acts[k].path[..Min(|acts[k].path|, 4095)]
  {
    RunSends(acts);
    var r := Exec(acts).copying[p];
    k :| SentAt(acts, k, r);
  }
}
