/**
  Every run of the transfer-request protocol: any number of processes send, accept, reject,
  copy, disconnect and crash, one critical section of sh_mem.c at a time.
*/
module RequestRuns {
  import opened Core
  import opened SharedTable

  type Pid = int

  datatype Action =
    | SendRequest(source: string, dest: string, path: string)
    | Accept(p: Pid, id: int, user: string, sourceKnown: bool)
    | CopyEnds(p: Pid, ok: bool)
    | Reject(id: int, user: string)
    | Disconnect(user: string)
    | Dies(p: Pid)
    | CrashBeforeId   // inside shm_request_add, after `count` grew
    | CrashBeforeStore // inside shm_request_add, after `next_id` grew
    | CrashInSetFailed(user: string, slots: nat) // inside shm_requests_set_failed, after some slots

  /**
    `history` is what an observer of the shared segment writes down: for every id the
    statuses it was seen with. `starts` lists the ids a copy was started for.
  */
  datatype State = State(
    table: Table,
    copying: map<Pid, Request>,
    history: map<int, seq<Status>>,
    starts: seq<int>)

  const INIT: State := State(EMPTY, map[], map[], [])

  function StatusOf(t: Table, id: int): Option<Status> {
    var i := SlotOf(t.entries, id);
    if i < |t.entries| then Some(t.entries[i].status) else None
  }

  function Seen(h: map<int, seq<Status>>, id: int): seq<Status> {
    if id in h then h[id] else []
  }

  /** The observer compares two successive tables id by id. */
  function Observe(h: map<int, seq<Status>>, t: Table, t': Table): map<int, seq<Status>> {
    map id | 0 < id < t'.nextId ::
      match StatusOf(t', id)
      case Some(st) => if StatusOf(t, id) == Some(st) then Seen(h, id) else Seen(h, id) + [st]
      case None => Seen(h, id)
  }

  /** shm_request_add cut short once `count` grew, if it did. */
  function GrownTable(t: Table): Table {
    if FirstFree(t.entries) == |t.entries| < MAX_ENTRIES then t.(entries := t.entries + [ZERO_REQUEST]) else t
  }

  /** ... and cut short once `next_id` grew. */
  function SkippedId(t: Table): Table {
    Table(GrownTable(t).entries, t.nextId + 1)
  }

  /** shm_requests_set_failed cut short behind the first `slots` slots. */
  function FailFirst(t: Table, user: string, slots: nat): Table {
    t.(entries := seq(|t.entries|, i requires 0 <= i < |t.entries| =>
      if i < slots then FailSlot(t.entries[i], user) else t.entries[i]))
  }

  function AfterTable(s: State, t': Table): State {
    s.(table := t', history := Observe(s.history, s.table, t'))
  }

  /** One step; an action that cannot happen leaves the state as it is. */
  function Step(s: State, a: Action): State {
    match a
    case SendRequest(source, dest, path) => AfterTable(s, Add(s.table, source, dest, path).0)
    case Accept(p, id, user, sourceKnown) =>
      if p in s.copying || id <= 0 then s
      else
        var (t', r) := Take(s.table, id, user, Accepted);
        var s' := AfterTable(s, t');
        if r.Ok? && sourceKnown then s'.(copying := s.copying[p := r.value], starts := s.starts + [id]) else s'
    case CopyEnds(p, ok) =>
      if p !in s.copying then s
      else if ok then s.(copying := s.copying - {p})
      else AfterTable(s, SetStatus(s.table, s.copying[p].id, Failed).0).(copying := s.copying - {p})
    case Reject(id, user) =>
      if id <= 0 then s else AfterTable(s, Take(s.table, id, user, Rejected).0)
    case Disconnect(user) =>
      if user == "" then s else AfterTable(s, FailSent(s.table, user)) // a logged-in user has a name
    case Dies(p) => s.(copying := s.copying - {p})
    case CrashBeforeId => AfterTable(s, GrownTable(s.table))
    case CrashBeforeStore =>
      if FirstFree(s.table.entries) == |s.table.entries| == MAX_ENTRIES then s
      else AfterTable(s, SkippedId(s.table))
    case CrashInSetFailed(user, slots) => if user == "" then s else AfterTable(s, FailFirst(s.table, user, slots))
  }

  function Exec(acts: seq<Action>): State {
    if acts == [] then INIT else Step(Exec(acts[..|acts| - 1]), acts[|acts| - 1])
  }

  lemma ExecOneMore(acts: seq<Action>, a: Action)
    ensures Exec(acts + [a]) == Step(Exec(acts), a)
  {
    OneMore(acts, a);
  }

  // ---------------------------------------------------------------- what every run keeps

  /** Prefixes of PENDING-ACCEPTED-FAILED, PENDING-REJECTED and PENDING-FAILED. */
  predicate LegalHistory(h: seq<Status>) {
    || h <= [Pending, Accepted, Failed]
    || h == [Pending, Rejected]
    || h == [Pending, Failed]
  }

  /** A history that ends in the status the observer sees now. */
  predicate EndsIn(h: seq<Status>, st: Option<Status>) {
    st.Some? ==> h != [] && h[|h| - 1] == st.value
  }

  ghost predicate HistoryInv(t: Table, h: map<int, seq<Status>>) {
    && Sound(t)
    && (forall id :: id in h <==> 0 < id < t.nextId)
    && (forall id :: id in h ==> LegalHistory(h[id]))
    && (forall id :: id in h ==> EndsIn(h[id], StatusOf(t, id)))
  }

  /** A process that copies works for the request it took, wherever its slot went. */
  ghost predicate CopyInv(t: Table, h: map<int, seq<Status>>, r: Request) {
    && r.id in h && h[r.id] == [Pending, Accepted]
    && (SlotOf(t.entries, r.id) < |t.entries| ==> t.entries[SlotOf(t.entries, r.id)] == r)
  }

  ghost predicate Inv(s: State) {
    && HistoryInv(s.table, s.history)
    && (forall p :: p in s.copying ==> CopyInv(s.table, s.history, s.copying[p]) && s.copying[p].id in s.starts)
    && (forall p, q :: p in s.copying && q in s.copying && p != q ==> s.copying[p].id != s.copying[q].id)
    && (forall i, j :: 0 <= i < j < |s.starts| ==> s.starts[i] != s.starts[j])
    && (forall id :: id in s.starts ==> id in s.history && [Pending, Accepted] <= s.history[id])
  }

  /** How one id may look after a step of the table, given how it looked before. */
  ghost predicate LegalMove(t: Table, t': Table, id: int) {
    var before, after := StatusOf(t, id), StatusOf(t', id);
    || after == before
    || after.None?
    || (after == Some(Pending) && id >= t.nextId)
    || (before == Some(Pending) && after != Some(Pending))
  }

  lemma TakeMoves(t: Table, id: int, user: string, to: Status, other: int)
    requires Sound(t) && id > 0 && other > 0
    ensures var (t', r) := Take(t, id, user, to);
      && SlotOf(t'.entries, other) == SlotOf(t.entries, other)
      && (r.Ok? && other == id ==> StatusOf(t, id) == Some(Pending) && StatusOf(t', id) == Some(to))
      && (r.Ok? && other == id ==> r.value == t'.entries[SlotOf(t'.entries, id)])
      && (r.Err? || other != id ==> StatusOf(t', other) == StatusOf(t, other))
  {
    var t' := Take(t, id, user, to).0;
    SameSlot(t.entries, t'.entries, other);
  }

  lemma SetMoves(t: Table, id: int, to: Status, other: int)
    requires Sound(t) && id > 0 && other > 0
    ensures var t' := SetStatus(t, id, to).0;
      && SlotOf(t'.entries, other) == SlotOf(t.entries, other)
      && (other == id && StatusOf(t, id).Some? ==> StatusOf(t', id) == Some(to))
      && (other != id || StatusOf(t, id).None? ==> StatusOf(t', other) == StatusOf(t, other))
  {
    var t' := SetStatus(t, id, to).0;
    SameSlot(t.entries, t'.entries, other);
  }

  /** Some requests of the user that were pending are failed, and nothing else happens. */
  ghost predicate FailsSome(t: Table, t': Table, user: string) {
    && t'.nextId == t.nextId && |t'.entries| == |t.entries|
    && forall i :: 0 <= i < |t.entries| ==>
      t'.entries[i] == t.entries[i] || t'.entries[i] == FailSlot(t.entries[i], user)
  }

  lemma FailSomeKeeps(t: Table, t': Table, user: string)
    requires Sound(t) && FailsSome(t, t', user)
    ensures Sound(t')
  {
    assert forall i :: 0 <= i < |t.entries| ==> t'.entries[i].id == t.entries[i].id;
  }

  lemma FailMoves(t: Table, t': Table, user: string, other: int)
    requires Sound(t) && other > 0 && FailsSome(t, t', user)
    ensures SlotOf(t'.entries, other) == SlotOf(t.entries, other)
    ensures
      || StatusOf(t', other) == StatusOf(t, other)
      || (StatusOf(t, other) == Some(Pending) && StatusOf(t', other) == Some(Failed))
  {
    assert forall i :: 0 <= i < |t.entries| ==> t'.entries[i].id == t.entries[i].id;
    SameSlot(t.entries, t'.entries, other);
  }

  lemma AppendMoves(es: seq<Request>, r: Request, other: int)
    requires other > 0
    ensures SlotOf(es + [r], other) ==
      if SlotOf(es, other) < |es| then SlotOf(es, other) else if r.id == other then |es| else |es| + 1
  {
    var fs := es + [r];
    assert fs[|es|] == r;
    assert forall k :: 0 <= k < |es| ==> fs[k] == es[k];
  }

  lemma AddMoves(t: Table, source: string, dest: string, path: string, other: int)
    requires Sound(t) && other > 0
    ensures var (t', r) := Add(t, source, dest, path);
      && (r.Ok? && other == r.value ==> StatusOf(t, other).None? && StatusOf(t', other) == Some(Pending))
      && (r.Ok? && other != r.value ==> StatusOf(t', other).None? || StatusOf(t', other) == StatusOf(t, other))
      && (r.Ok? && other != r.value && StatusOf(t', other).Some? ==>
            SlotOf(t.entries, other) < |t.entries| &&
              t'.entries[SlotOf(t'.entries, other)] == t.entries[SlotOf(t.entries, other)])
  {
    var (t', r) := Add(t, source, dest, path);
    AddKeeps(t, source, dest, path);
    var free := FirstFree(t.entries);
    if r.Ok? {
      if other == r.value {
        assert t'.entries[free].id == other;
        SlotIsUnique(t', free);
      } else {
        var j := SlotOf(t'.entries, other);
        if j < |t'.entries| {
          assert t'.entries[j].id == other && j != free;
          assert t'.entries[j] == t.entries[j];
          SlotIsUnique(t, j);
        }
      }
    }
  }

  lemma GrowthMoves(t: Table, other: int)
    requires Sound(t) && other > 0
    ensures Sound(GrownTable(t))
    ensures SlotOf(GrownTable(t).entries, other) < |GrownTable(t).entries| <==> SlotOf(t.entries, other) < |t.entries|
    ensures SlotOf(t.entries, other) < |t.entries| ==>
      SlotOf(GrownTable(t).entries, other) == SlotOf(t.entries, other)
      && GrownTable(t).entries[SlotOf(t.entries, other)] == t.entries[SlotOf(t.entries, other)]
  {
    AppendMoves(t.entries, ZERO_REQUEST, other);
  }

  lemma HistoryExtends(h: seq<Status>, before: Option<Status>, after: Status)
    requires LegalHistory(h) && EndsIn(h, before)
    requires (before.None? && after == Pending && h == []) || (before == Some(Pending) && after != Pending)
      || (before == Some(Accepted) && after == Failed)
    ensures LegalHistory(h + [after])
  {
    if before == Some(Pending) {
      assert h == [Pending];
      assert h + [Accepted] == [Pending, Accepted];
    } else if before == Some(Accepted) {
      assert h == [Pending, Accepted];
    } else {
      assert h + [after] == [Pending];
    }
  }

  /** Legal moves of every id make legal histories. */
  lemma HistoryKept(t: Table, h: map<int, seq<Status>>, t': Table)
    requires HistoryInv(t, h) && Sound(t') && t'.nextId >= t.nextId
    requires forall id :: 0 < id < t'.nextId ==>
      LegalMove(t, t', id) || (StatusOf(t, id) == Some(Accepted) && StatusOf(t', id) == Some(Failed))
    ensures HistoryInv(t', Observe(h, t, t'))
  {
    var h' := Observe(h, t, t');
    forall id | id in h' ensures LegalHistory(h'[id]) && EndsIn(h'[id], StatusOf(t', id)) {
      HistoryKeptAt(t, h, t', id);
    }
  }

  lemma NewIdIsUnknown(t: Table, id: int)
    requires Sound(t) && id >= t.nextId
    ensures StatusOf(t, id).None?
  {
  }

  lemma HistoryKeptAt(t: Table, h: map<int, seq<Status>>, t': Table, id: int)
    requires HistoryInv(t, h) && 0 < id < t'.nextId
    requires LegalMove(t, t', id) || (StatusOf(t, id) == Some(Accepted) && StatusOf(t', id) == Some(Failed))
    ensures id in Observe(h, t, t')
    ensures LegalHistory(Observe(h, t, t')[id]) && EndsIn(Observe(h, t, t')[id], StatusOf(t', id))
  {
    var before, after := StatusOf(t, id), StatusOf(t', id);
    if id >= t.nextId {
      NewIdIsUnknown(t, id);
    }
    assert LegalHistory(Seen(h, id)) && EndsIn(Seen(h, id), before);
    if after.Some? && after != before {
      HistoryExtends(Seen(h, id), before, after.value);
    }
  }

  lemma ObserveGrows(h: map<int, seq<Status>>, t: Table, t': Table, id: int)
    requires HistoryInv(t, h) && t'.nextId >= t.nextId && id in h
    ensures id in Observe(h, t, t') && h[id] <= Observe(h, t, t')[id]
    ensures StatusOf(t', id) == StatusOf(t, id) || StatusOf(t', id).None? ==> Observe(h, t, t')[id] == h[id]
  {
  }

  lemma CopyKept(t: Table, h: map<int, seq<Status>>, t': Table, r: Request)
    requires HistoryInv(t, h) && CopyInv(t, h, r) && t'.nextId >= t.nextId
    requires SlotOf(t'.entries, r.id) < |t'.entries| ==>
      SlotOf(t.entries, r.id) < |t.entries| &&
        t'.entries[SlotOf(t'.entries, r.id)] == t.entries[SlotOf(t.entries, r.id)]
    ensures CopyInv(t', Observe(h, t, t'), r)
  {
  }

  /** A step of the table that starts no copy. */
  lemma TableStepKeeps(s: State, t': Table, gone: set<Pid>)
    requires Inv(s) && Sound(t') && t'.nextId >= s.table.nextId
    requires forall id :: 0 < id < t'.nextId ==>
      LegalMove(s.table, t', id) || (StatusOf(s.table, id) == Some(Accepted) && StatusOf(t', id) == Some(Failed))
    requires forall p :: p in s.copying && p !in gone ==> CopyInv(t', Observe(s.history, s.table, t'), s.copying[p])
    ensures Inv(AfterTable(s, t').(copying := s.copying - gone))
  {
    HistoryKept(s.table, s.history, t');
    var h' := Observe(s.history, s.table, t');
    forall id | id in s.starts ensures id in h' && [Pending, Accepted] <= h'[id] {
      ObserveGrows(s.history, s.table, t', id);
    }
  }

  lemma SendKeeps(s: State, source: string, dest: string, path: string)
    requires Inv(s)
    ensures Inv(Step(s, SendRequest(source, dest, path)))
  {
    var t' := Add(s.table, source, dest, path).0;
    AddKeeps(s.table, source, dest, path);
    forall id | 0 < id < t'.nextId ensures LegalMove(s.table, t', id) {
      AddMoves(s.table, source, dest, path, id);
    }
    forall p | p in s.copying ensures CopyInv(t', Observe(s.history, s.table, t'), s.copying[p]) {
      AddMoves(s.table, source, dest, path, s.copying[p].id);
      CopyKept(s.table, s.history, t', s.copying[p]);
    }
    TableStepKeeps(s, t', {});
    assert s.copying - {} == s.copying;
  }

  lemma TakeSparesCopy(t: Table, h: map<int, seq<Status>>, id: int, user: string, to: Status, r: Request)
    requires HistoryInv(t, h) && CopyInv(t, h, r) && id > 0
    ensures CopyInv(Take(t, id, user, to).0, Observe(h, t, Take(t, id, user, to).0), r)
  {
    TakeMoves(t, id, user, to, r.id);
    assert EndsIn(h[r.id], StatusOf(t, r.id));
    CopyKept(t, h, Take(t, id, user, to).0, r);
  }

  lemma TakeStepKeeps(s: State, id: int, user: string, to: Status)
    requires Inv(s) && id > 0 && !to.Pending?
    ensures Inv(AfterTable(s, Take(s.table, id, user, to).0))
  {
    var t' := Take(s.table, id, user, to).0;
    TakeKeeps(s.table, id, user, to);
    forall k | 0 < k < t'.nextId ensures LegalMove(s.table, t', k) {
      TakeMoves(s.table, id, user, to, k);
    }
    forall p | p in s.copying ensures CopyInv(t', Observe(s.history, s.table, t'), s.copying[p]) {
      TakeSparesCopy(s.table, s.history, id, user, to, s.copying[p]);
    }
    TableStepKeeps(s, t', {});
    assert s.copying - {} == s.copying;
  }

  lemma AcceptKeeps(s: State, p: Pid, id: int, user: string, sourceKnown: bool)
    requires Inv(s)
    ensures Inv(Step(s, Accept(p, id, user, sourceKnown)))
  {
    if p !in s.copying && id > 0 {
      var (t', r) := Take(s.table, id, user, Accepted);
      TakeStepKeeps(s, id, user, Accepted);
      if r.Ok? && sourceKnown {
        TakenForCopy(s, id, user);
        assert id !in s.starts;
        CopyStarts(AfterTable(s, t'), p, r.value);
      }
    }
  }

  lemma TakenForCopy(s: State, id: int, user: string)
    requires Inv(s) && id > 0 && Take(s.table, id, user, Accepted).1.Ok?
    ensures var (t', r) := Take(s.table, id, user, Accepted);
      && id in s.history && s.history[id] == [Pending]
      && r.value.id == id && CopyInv(t', Observe(s.history, s.table, t'), r.value)
  {
    TakeMoves(s.table, id, user, Accepted, id);
    assert id in s.history && LegalHistory(s.history[id]) && EndsIn(s.history[id], Some(Pending));
  }

  lemma CopyStarts(s: State, p: Pid, r: Request)
    requires Inv(s) && p !in s.copying && r.id !in s.starts && CopyInv(s.table, s.history, r)
    ensures Inv(s.(copying := s.copying[p := r], starts := s.starts + [r.id]))
  {
  }

  lemma CopyEndKeeps(s: State, p: Pid, ok: bool)
    requires Inv(s)
    ensures Inv(Step(s, CopyEnds(p, ok)))
  {
    if p in s.copying && ok {
      ForgetKeeps(s, p);
    } else if p in s.copying {
      var id := s.copying[p].id;
      var t' := SetStatus(s.table, id, Failed).0;
      SetStatusKeeps(s.table, id, Failed);
      forall k | 0 < k < t'.nextId
        ensures LegalMove(s.table, t', k) || (StatusOf(s.table, k) == Some(Accepted) && StatusOf(t', k) == Some(Failed))
      {
        SetMoves(s.table, id, Failed, k);
      }
      forall q | q in s.copying && q !in {p} ensures CopyInv(t', Observe(s.history, s.table, t'), s.copying[q]) {
        SetMoves(s.table, id, Failed, s.copying[q].id);
        CopyKept(s.table, s.history, t', s.copying[q]);
      }
      TableStepKeeps(s, t', {p});
    }
  }

  lemma DisconnectKeeps(s: State, t': Table, user: string)
    requires Inv(s) && FailsSome(s.table, t', user)
    ensures Inv(AfterTable(s, t'))
  {
    FailSomeKeeps(s.table, t', user);
    forall k | 0 < k < t'.nextId ensures LegalMove(s.table, t', k) {
      FailMoves(s.table, t', user, k);
    }
    forall p | p in s.copying ensures CopyInv(t', Observe(s.history, s.table, t'), s.copying[p]) {
      FailSparesCopy(s.table, s.history, t', user, s.copying[p]);
    }
    TableStepKeeps(s, t', {});
    assert s.copying - {} == s.copying;
  }

  lemma FailSparesCopy(t: Table, h: map<int, seq<Status>>, t': Table, user: string, r: Request)
    requires HistoryInv(t, h) && CopyInv(t, h, r) && FailsSome(t, t', user)
    ensures CopyInv(t', Observe(h, t, t'), r)
  {
    FailMoves(t, t', user, r.id);
    assert EndsIn(h[r.id], StatusOf(t, r.id));
    CopyKept(t, h, t', r);
  }

  lemma GrowthSparesCopy(t: Table, h: map<int, seq<Status>>, t': Table, r: Request)
    requires HistoryInv(t, h) && CopyInv(t, h, r)
    requires t'.entries == GrownTable(t).entries && t'.nextId >= t.nextId
    ensures CopyInv(t', Observe(h, t, t'), r)
  {
    GrowthMoves(t, r.id);
    CopyKept(t, h, t', r);
  }

  lemma GrownIsSound(t: Table, t': Table)
    requires Sound(t) && t'.entries == GrownTable(t).entries && t'.nextId >= t.nextId
    ensures Sound(t')
  {
    GrowthMoves(t, 1);
  }

  lemma GrownIsLegal(t: Table, t': Table, id: int)
    requires Sound(t) && t'.entries == GrownTable(t).entries && id > 0
    ensures LegalMove(t, t', id)
  {
    GrowthMoves(t, id);
  }

  lemma CrashKeeps(s: State, t': Table)
    requires Inv(s) && t'.entries == GrownTable(s.table).entries && t'.nextId >= s.table.nextId
    ensures Inv(AfterTable(s, t'))
  {
    GrownIsSound(s.table, t');
    forall k | 0 < k < t'.nextId ensures LegalMove(s.table, t', k) {
      GrownIsLegal(s.table, t', k);
    }
    forall p | p in s.copying ensures CopyInv(t', Observe(s.history, s.table, t'), s.copying[p]) {
      GrowthSparesCopy(s.table, s.history, t', s.copying[p]);
    }
    TableStepKeeps(s, t', {});
    assert s.copying - {} == s.copying;
  }

  lemma StepKeepsInv(s: State, a: Action)
    requires Inv(s)
    ensures Inv(Step(s, a))
  {
    match a
    case SendRequest(source, dest, path) => SendKeeps(s, source, dest, path);
    case Accept(p, id, user, sourceKnown) => AcceptKeeps(s, p, id, user, sourceKnown);
    case CopyEnds(p, ok) => CopyEndKeeps(s, p, ok);
    case _ => QuietStepKeeps(s, a);
  }

  lemma QuietStepKeeps(s: State, a: Action)
    requires Inv(s) && !a.SendRequest? && !a.Accept? && !a.CopyEnds?
    ensures Inv(Step(s, a))
  {
    match a
    case Reject(id, user) => RejectKeeps(s, id, user);
    case Disconnect(user) => if user != "" { DisconnectKeeps(s, FailSent(s.table, user), user); }
    case Dies(p) => ForgetKeeps(s, p);
    case CrashBeforeId => CrashKeeps(s, GrownTable(s.table));
    case CrashBeforeStore => CrashBeforeStoreKeeps(s);
    case CrashInSetFailed(user, slots) => if user != "" { DisconnectKeeps(s, FailFirst(s.table, user, slots), user); }
  }

  lemma RejectKeeps(s: State, id: int, user: string)
    requires Inv(s)
    ensures Inv(Step(s, Reject(id, user)))
  {
    if id > 0 {
      TakeStepKeeps(s, id, user, Rejected);
    }
  }

  lemma CrashBeforeStoreKeeps(s: State)
    requires Inv(s)
    ensures Inv(Step(s, CrashBeforeStore))
  {
    if !(FirstFree(s.table.entries) == |s.table.entries| == MAX_ENTRIES) {
      CrashKeeps(s, SkippedId(s.table));
    }
  }

  lemma ForgetKeeps(s: State, p: Pid)
    requires Inv(s)
    ensures Inv(s.(copying := s.copying - {p}))
  {
  }

  lemma {:induction false} RunKeepsInv(acts: seq<Action>)
    ensures Inv(Exec(acts))
  {
    if acts != [] {
      RunKeepsInv(acts[..|acts| - 1]);
      StepKeepsInv(Exec(acts[..|acts| - 1]), acts[|acts| - 1]);
    }
  }

  // ---------------------------------------------------------------- results over all runs

  /**
    Exactly one winner: in every run each id leaves PENDING at most once, through accept,
    reject or the sender's disconnect, and at most one copy is ever started for it.
  */
  lemma OneWinner(acts: seq<Action>)
    ensures forall id :: id in Exec(acts).history ==> LegalHistory(Exec(acts).history[id])
    ensures forall i, j :: 0 <= i < j < |Exec(acts).starts| ==> Exec(acts).starts[i] != Exec(acts).starts[j]
  {
    RunKeepsInv(acts);
  }

  ghost predicate Extends(s: State, s': State, id: int) {
    id in s.history ==> id in s'.history && s.history[id] <= s'.history[id]
  }

  /** What was observed stays observed: a later run only extends the history of an id. */
  lemma {:induction false} HistoryOnlyGrows(acts: seq<Action>, more: seq<Action>, id: int)
    ensures Extends(Exec(acts), Exec(acts + more), id)
  {
    hide Exec, Step;
    if more == [] {
      assert acts + more == acts;
    } else {
      var init, last := more[..|more| - 1], more[|more| - 1];
      HistoryOnlyGrows(acts, init, id);
      assert acts + more == acts + init + [last];
      StepExtends(acts + init, last, id);
    }
  }

  lemma StepExtends(acts: seq<Action>, a: Action, id: int)
    ensures Extends(Exec(acts), Exec(acts + [a]), id)
  {
    ExecOneMore(acts, a);
    RunKeepsInv(acts);
    StepObserves(Exec(acts), a, id);
  }

  lemma IdsGrow(t: Table, a: string, b: string, path: string, id: int, st: Status, slots: nat)
    ensures Add(t, a, b, path).0.nextId >= t.nextId && FailSent(t, a).nextId == t.nextId
    ensures Take(t, id, a, st).0.nextId == SetStatus(t, id, st).0.nextId == t.nextId
    ensures t.nextId <= GrownTable(t).nextId <= SkippedId(t).nextId
    ensures FailFirst(t, a, slots).nextId == t.nextId
  {
  }

  lemma StepShape(s: State, a: Action)
    ensures var s' := Step(s, a);
      && s'.table.nextId >= s.table.nextId
      && (s'.history == Observe(s.history, s.table, s'.table) || (s'.history == s.history && s'.table == s.table))
  {
    hide Add, Take, SetStatus, FailSent, FailFirst, Observe;
    match a
    case SendRequest(source, dest, path) => IdsGrow(s.table, source, dest, path, 0, Failed, 0);
    case Accept(p, id, user, _) => IdsGrow(s.table, user, "", "", id, Accepted, 0);
    case CopyEnds(p, _) => if p in s.copying { IdsGrow(s.table, "", "", "", s.copying[p].id, Failed, 0); }
    case Reject(id, user) => IdsGrow(s.table, user, "", "", id, Rejected, 0);
    case Disconnect(user) => IdsGrow(s.table, user, "", "", 0, Failed, 0);
    case CrashInSetFailed(user, slots) => IdsGrow(s.table, user, "", "", 0, Failed, slots);
    case _ => IdsGrow(s.table, "", "", "", 0, Failed, 0);
  }

  lemma StepObserves(s: State, a: Action, id: int)
    requires Inv(s)
    ensures Extends(s, Step(s, a), id)
  {
    StepShape(s, a);
    if id in s.history && Step(s, a).history != s.history {
      ObserveGrows(s.history, s.table, Step(s, a).table, id);
    }
  }

  /**
    An id that left PENDING is lost to everyone else for the rest of the run, although its
    slot may carry newer requests: it can be neither taken nor failed by a disconnect again.
  */
  lemma LoserIsRefused(acts: seq<Action>, more: seq<Action>, id: int, user: string, to: Status)
    requires id in Exec(acts).history && |Exec(acts).history[id]| >= 2
    ensures var t := Exec(acts + more).table;
      && Take(t, id, user, to) == (t, Take(t, id, user, to).1)
      && Take(t, id, user, to).1.Err?
      && StatusOf(FailSent(t, user), id) == StatusOf(t, id)
  {
    HistoryOnlyGrows(acts, more, id);
    RunKeepsInv(acts + more);
    SettledIsRefused(Exec(acts + more), id, user, to);
  }

  lemma SettledIsRefused(s: State, id: int, user: string, to: Status)
    requires Inv(s) && id in s.history && |s.history[id]| >= 2
    ensures Take(s.table, id, user, to).0 == s.table && Take(s.table, id, user, to).1.Err?
    ensures StatusOf(FailSent(s.table, user), id) == StatusOf(s.table, id)
  {
    assert EndsIn(s.history[id], StatusOf(s.table, id));
    assert StatusOf(s.table, id) != Some(Pending);
    FailMoves(s.table, FailSent(s.table, user), user, id);
  }

  /**
    The late status write after a failed copy hits the request that was taken or nothing;
    a newer request in a recycled slot is never touched.
  */
  lemma LateWriteIsSafe(acts: seq<Action>, p: Pid)
    requires p in Exec(acts).copying
    ensures var t, r := Exec(acts).table, Exec(acts).copying[p];
      var (t', answer) := SetStatus(t, r.id, Failed);
      && (answer.Err? ==> answer.errno == ENOENT && t' == t && forall e :: e in t.entries ==> e.id != r.id)
      && (answer.Ok? ==>
        r in t.entries && t' == t.(entries := t.entries[SlotOf(t.entries, r.id) := r.(status := Failed)]))
  {
    RunKeepsInv(acts);
    var t, r := Exec(acts).table, Exec(acts).copying[p];
    var i := SlotOf(t.entries, r.id);
    if i < |t.entries| {
      assert t.entries[i] == r;
    }
  }

  /** Slot `i` carries the trace of a crash: a pending request without an id, a sender or a recipient. */
  ghost predicate Leaked(t: Table, i: nat) {
    i < |t.entries| && t.entries[i] == ZERO_REQUEST
  }

  predicate CrashesInAdd(a: Action) {
    a.CrashBeforeId? || a.CrashBeforeStore?
  }

  /** shm_request_add has to use a new slot, and there is one. */
  predicate Appends(t: Table) {
    FirstFree(t.entries) == |t.entries| < MAX_ENTRIES
  }

  /**
    A crash between `count++` and the store of the entry, after any run: it leaks the next slot
    exactly when no settled slot could be reused and the table was not full. A leaked slot is
    lost in every continuation of the run.
  */
  lemma CrashLeaksSlot(before: seq<Action>, crash: Action, more: seq<Action>)
    requires CrashesInAdd(crash)
    ensures var t := Exec(before).table;
      && (Leaked(Exec(before + [crash]).table, |t.entries|) <==> Appends(t))
      && (Appends(t) ==> Leaked(Exec(before + [crash] + more).table, |t.entries|))
      && (!Appends(t) ==> Exec(before + [crash]).table.entries == t.entries)
  {
    ExecOneMore(before, crash);
    if Appends(Exec(before).table) {
      LeakIsForGood(before + [crash], more, |Exec(before).table.entries|);
    }
  }

  lemma {:induction false} LeakIsForGood(acts: seq<Action>, more: seq<Action>, i: nat)
    requires Leaked(Exec(acts).table, i)
    ensures Leaked(Exec(acts + more).table, i)
  {
    if more == [] {
      assert acts + more == acts;
    } else {
      var init := acts + more[..|more| - 1];
      LeakIsForGood(acts, more[..|more| - 1], i);
      RunKeepsInv(init);
      LeakStays(Exec(init), more[|more| - 1], i);
      LastAction(acts, more);
    }
  }

  lemma LastAction(acts: seq<Action>, more: seq<Action>)
    requires more != []
    ensures Exec(acts + more) == Step(Exec(acts + more[..|more| - 1]), more[|more| - 1])
  {
    LastApart(acts, more);
    ExecOneMore(acts + more[..|more| - 1], more[|more| - 1]);
  }

  lemma LeakStays(s: State, a: Action, i: nat)
    requires Inv(s) && Leaked(s.table, i)
    ensures Leaked(Step(s, a).table, i)
  {
    match a
    case SendRequest(source, dest, path) => AddSparesLeak(s.table, source, dest, path, i);
    case Accept(_, id, user, _) => if id > 0 { TakeSparesLeak(s.table, id, user, Accepted, i); }
    case Reject(id, user) => if id > 0 { TakeSparesLeak(s.table, id, user, Rejected, i); }
    case CopyEnds(p, _) => CopiesHaveIds(s);
    case _ => OthersSpareLeak(s, a, i);
  }

  lemma AddSparesLeak(t: Table, source: string, dest: string, path: string, i: nat)
    requires Leaked(t, i)
    ensures Leaked(Add(t, source, dest, path).0, i)
  {
  }

  lemma TakeSparesLeak(t: Table, id: int, user: string, to: Status, i: nat)
    requires Leaked(t, i) && id > 0
    ensures Leaked(Take(t, id, user, to).0, i)
  {
  }

  lemma OthersSpareLeak(s: State, a: Action, i: nat)
    requires Leaked(s.table, i) && !a.SendRequest? && !a.Accept? && !a.Reject? && !a.CopyEnds?
    ensures Leaked(Step(s, a).table, i)
  {
  }

  lemma CopiesHaveIds(s: State)
    requires Inv(s)
    ensures forall p :: p in s.copying ==> s.copying[p].id > 0
  {
  }
}
