/**
  Who tells the sender of a transfer request? Whoever accepts or rejects it takes it from the
  table, looks the sender's user up and writes a line to the session found. The sender's client
  waits meanwhile. Runs interleave these critical sections of any number of processes with logins,
  ends of sessions, deaths and the collection of stale sessions.
*/
module AnsweredRequests {
  import opened Core
  import opened SharedTable
  import opened Notification

  /** What the taker of a request has still to do for its sender. */
  datatype Errand =
    | Taken(id: int, source: string)
    | Found(id: int, target: Pid)

  datatype World = World(
    sessions: seq<Session>,
    table: Table,
    alive: set<Pid>,
    users: map<Pid, string>,   // who logged in; process ids are not used twice
    waits: map<Pid, int>,      // sessions whose client waits for the answer to a request
    errands: map<Pid, Errand>,
    lines: set<(Pid, int)>)    // history: which session was told about which request

  datatype Move =
    | Connects(p: Pid)
    | LogsIn(p: Pid, user: string, listed: bool)  // shm_session_add may fail, which a login ignores
    | Asks(p: Pid, dest: string, path: string, announced: bool) // not announced: the REQ line failed
    | Takes(q: Pid, id: int, to: Status)          // main-server.c:360, 437
    | LooksUp(q: Pid)                             // main-server.c:369, 444
    | Tells(q: Pid, ok: bool)                     // main-server.c:393-407, 456-463
    | Leaves(p: Pid)                              // the end of a session, main-server.c:1175-1178
    | Die(ps: set<Pid>)
    | Collects

  const EMPTY_WORLD: World := World([], EMPTY, {}, map[], map[], map[], {})

  function Gone(s: World, ps: set<Pid>): World {
    s.(alive := s.alive - ps, waits := s.waits - ps, errands := s.errands - ps)
  }

  /** A session that can run the next command of its client. */
  predicate Free(s: World, p: Pid) {
    p in s.alive && p in s.users && p !in s.waits && p !in s.errands
  }

  /** One move; a move that is not possible changes nothing. */
  function Next(s: World, m: Move): World {
    match m
    case Connects(p) => if p in s.alive || p in s.users then s else s.(alive := s.alive + {p})
    case LogsIn(p, user, listed) =>
      if p !in s.alive || p in s.users || !ValidName(user) then s
      else
        s.(users := s.users[p := user], sessions := if listed then AddSession(s.sessions, user, p).0 else s.sessions)
    case Asks(p, dest, path, announced) =>
      if !Free(s, p) || !ValidDest(dest) then s
      else
        var (t, r) := Add(s.table, s.users[p], dest, path);
        s.(table := t, waits := if r.Ok? && announced then s.waits[p := r.value] else s.waits)
    case Takes(q, id, to) =>
      if !Free(s, q) || id <= 0 || !(to.Accepted? || to.Rejected?) then s
      else
        var (t, r) := Take(s.table, id, s.users[q], to);
        s.(table := t, errands := if r.Ok? then s.errands[q := Taken(id, r.value.source)] else s.errands)
    case LooksUp(q) =>
      if q !in s.errands || s.errands[q].Found? then s
      else
        var e, found := s.errands[q], FindSession(s.sessions, s.errands[q].source);
        if found.Some? && found.value.1 then s.(errands := s.errands[q := Found(e.id, found.value.0)])
        else s.(errands := s.errands - {q})
    case Tells(q, ok) =>
      if q !in s.errands || s.errands[q].Taken? then s
      else
        var e := s.errands[q];
        var s' := s.(errands := s.errands - {q});
        if !ok || e.target !in s.alive then s'
        else
          s'.(lines := s.lines + {(e.target, e.id)}, waits := s.waits - {e.target}) // any such line ends the wait
    case Leaves(p) =>
      if p !in s.alive || p !in s.users then s else Gone(s, {p}).(table := FailSent(s.table, s.users[p]))
    case Die(ps) => Gone(s, ps)
    case Collects => s.(sessions := CollectStale(s.sessions, s.alive))
  }

  function After(ms: seq<Move>): World {
    if ms == [] then EMPTY_WORLD else Next(After(ms[..|ms| - 1]), ms[|ms| - 1])
  }

  lemma AfterOneMore(ms: seq<Move>, m: Move)
    ensures After(ms + [m]) == Next(After(ms), m)
  {
    OneMore(ms, m);
  }

  // ---------------------------------------------------------------- one request on the table

  function Entry(t: Table, id: int): Option<Request> {
    var i := SlotOf(t.entries, id);
    if i < |t.entries| then Some(t.entries[i]) else None
  }

  predicate IsPending(t: Table, id: int) {
    Entry(t, id).Some? && Entry(t, id).value.status.Pending?
  }

  /** A new request takes a new id and never the slot of a pending one. */
  lemma AddEntry(t: Table, source: string, dest: string, path: string, id: int)
    requires WellFormed(t) && id > 0
    ensures var (t', r) := Add(t, source, dest, path);
      && WellFormed(t')
      && (r.Err? ==> t' == t)
      && (r.Ok? ==> r.value == t.nextId && t'.nextId == t.nextId + 1)
      && (r.Ok? && id == r.value ==> Entry(t', id) == Some(NewRequest(id, source, dest, path)))
      && (r.Err? || id != r.value ==>
            Entry(t', id) == Entry(t, id) || (Entry(t', id).None? && !IsPending(t, id)))
  {
    AddKeeps(t, source, dest, path);
    var (t', r) := Add(t, source, dest, path);
    var free := FirstFree(t.entries);
    var i := SlotOf(t.entries, id);
    if r.Ok? {
      assert t'.entries[free] == NewRequest(t.nextId, source, dest, path);
      if id == r.value {
        SlotIsUnique(t', free);
      } else if i < |t.entries| && i != free {
        assert t'.entries[i] == t.entries[i];
        SlotIsUnique(t', i);
      }
    }
  }

  lemma TakeEntry(t: Table, k: int, user: string, to: Status, id: int)
    requires WellFormed(t) && id > 0 && k > 0
    ensures var (t', r) := Take(t, k, user, to);
      && WellFormed(t') && t'.nextId == t.nextId
      && (r.Err? ==> t' == t)
      && (r.Ok? && id == k ==>
            IsPending(t, id) && Entry(t, id).value.dest == user && Entry(t', id) == Some(r.value)
            && r.value == Entry(t, id).value.(status := to))
      && (id != k ==> Entry(t', id) == Entry(t, id))
      && (id == k && IsPending(t, id) && Entry(t, id).value.dest == user ==> r.Ok?)
  {
    TakeKeeps(t, k, user, to);
    SameSlot(t.entries, Take(t, k, user, to).0.entries, id);
  }

  lemma FailEntry(t: Table, user: string, id: int)
    requires WellFormed(t) && id > 0
    ensures var t' := FailSent(t, user);
      && WellFormed(t') && t'.nextId == t.nextId
      && (Entry(t', id).Some? <==> Entry(t, id).Some?)
      && (Entry(t, id).Some? ==> Entry(t', id).value == FailSlot(Entry(t, id).value, user))
  {
    FailSentKeeps(t, user);
    SameSlot(t.entries, FailSent(t, user).entries, id);
  }

  lemma UnissuedEntry(t: Table, id: int)
    requires WellFormed(t)
    ensures id >= t.nextId ==> Entry(t, id).None?
  {
  }

  // ---------------------------------------------------------------- what every run keeps

  /** Processes and their names, whatever the request. */
  ghost predicate PeopleInv(s: World) {
    && WellFormed(s.table) && SessionsInv(s.sessions)
    && (forall p :: p in s.users ==> ValidName(s.users[p]))
    && (forall p :: p in s.waits ==> p in s.alive && p in s.users && p !in s.errands && 0 < s.waits[p] < s.table.nextId)
    && (forall q :: q in s.errands ==> q in s.alive && q in s.users && 0 < s.errands[q].id < s.table.nextId)
  }

  /** At most one process runs an errand for the request, and only once it is settled; it is told at most once. */
  ghost predicate RequestInv(s: World, id: int) {
    && (forall q :: q in s.errands && s.errands[q].id == id ==> !IsPending(s.table, id))
    && (forall q, r :: q in s.errands && r in s.errands && s.errands[q].id == id && s.errands[r].id == id ==> q == r)
    && (forall t :: (t, id) in s.lines ==> id < s.table.nextId && !IsPending(s.table, id))
    && (forall t, q :: (t, id) in s.lines && q in s.errands ==> s.errands[q].id != id)
  }

  /** All that is known of the request names this user as its sender. */
  ghost predicate SentByUser(s: World, id: int, user: string) {
    && (Entry(s.table, id).Some? ==> Entry(s.table, id).value.source == user)
    && (forall q :: q in s.errands && s.errands[q].id == id && s.errands[q].Taken? ==> s.errands[q].source == user)
  }

  ghost predicate WaitInv(s: World, p: Pid, id: int) {
    p in s.waits && s.waits[p] == id ==> p in s.users && SentByUser(s, id, s.users[p]) && (p, id) !in s.lines
  }

  ghost predicate WorldInv(s: World, p: Pid, id: int) {
    PeopleInv(s) && RequestInv(s, id) && WaitInv(s, p, id)
  }

  lemma GoneKeeps(s: World, ps: set<Pid>, p: Pid, id: int)
    requires WorldInv(s, p, id)
    ensures WorldInv(Gone(s, ps), p, id)
  {
  }

  lemma LoginKeeps(s: World, q: Pid, user: string, listed: bool, p: Pid, id: int)
    requires WorldInv(s, p, id)
    ensures WorldInv(Next(s, LogsIn(q, user, listed)), p, id)
  {
    if ValidName(user) {
      AddSessionKeeps(s.sessions, user, q);
    }
  }

  lemma AskKeeps(s: World, q: Pid, dest: string, path: string, announced: bool, p: Pid, id: int)
    requires WorldInv(s, p, id) && id > 0
    ensures WorldInv(Next(s, Asks(q, dest, path, announced)), p, id)
  {
    AskMove(s, q, dest, path, announced);
    if Free(s, q) && ValidDest(dest) && Add(s.table, s.users[q], dest, path).1.Ok? {
      AskedKeeps(s, q, dest, path, announced, p, id);
    }
  }

  lemma AskMove(s: World, q: Pid, dest: string, path: string, announced: bool)
    ensures Next(s, Asks(q, dest, path, announced)) ==
      if Free(s, q) && ValidDest(dest) && Add(s.table, s.users[q], dest, path).1.Ok? then
        s.(table := Add(s.table, s.users[q], dest, path).0,
           waits := if announced then s.waits[q := s.table.nextId] else s.waits)
      else s
  {
  }

  lemma AskedKeeps(s: World, q: Pid, dest: string, path: string, announced: bool, p: Pid, id: int)
    requires WorldInv(s, p, id) && id > 0 && Free(s, q) && Add(s.table, s.users[q], dest, path).1.Ok?
    ensures var t := Add(s.table, s.users[q], dest, path).0;
      WorldInv(s.(table := t, waits := if announced then s.waits[q := s.table.nextId] else s.waits), p, id)
  {
    AddEntry(s.table, s.users[q], dest, path, id);
    UnissuedEntry(s.table, id);
    AskedWaits(s, q, dest, path, announced, p, id);
  }

  lemma AskedWaits(s: World, q: Pid, dest: string, path: string, announced: bool, p: Pid, id: int)
    requires WorldInv(s, p, id) && id > 0 && Free(s, q) && Add(s.table, s.users[q], dest, path).1.Ok?
    ensures var t := Add(s.table, s.users[q], dest, path).0;
      WaitInv(s.(table := t, waits := if announced then s.waits[q := s.table.nextId] else s.waits), p, id)
  {
    AddEntry(s.table, s.users[q], dest, path, id);
    UnissuedEntry(s.table, id);
  }

  lemma TakeKeepsWorld(s: World, q: Pid, k: int, to: Status, p: Pid, id: int)
    requires WorldInv(s, p, id) && id > 0
    ensures WorldInv(Next(s, Takes(q, k, to)), p, id)
  {
    TakeMove(s, q, k, to);
    if CanTake(s, q, k, to) {
      TakenKeeps(s, q, k, to, p, id);
    }
  }

  predicate CanTake(s: World, q: Pid, k: int, to: Status) {
    Free(s, q) && k > 0 && (to.Accepted? || to.Rejected?) && Take(s.table, k, s.users[q], to).1.Ok?
  }

  /** What the move is, apart from the invariant. */
  lemma TakeMove(s: World, q: Pid, k: int, to: Status)
    ensures Next(s, Takes(q, k, to)) ==
      if CanTake(s, q, k, to) then
        var (t, r) := Take(s.table, k, s.users[q], to);
        s.(table := t, errands := s.errands[q := Taken(k, r.value.source)])
      else s
  {
  }

  lemma TakenKeeps(s: World, q: Pid, k: int, to: Status, p: Pid, id: int)
    requires WorldInv(s, p, id) && id > 0 && CanTake(s, q, k, to)
    ensures var (t, r) := Take(s.table, k, s.users[q], to);
      WorldInv(s.(table := t, errands := s.errands[q := Taken(k, r.value.source)]), p, id)
  {
    TakeEntry(s.table, k, s.users[q], to, id);
    TakeEntry(s.table, k, s.users[q], to, k);
    if k >= s.table.nextId {
      UnissuedEntry(s.table, k);
    }
  }

  lemma LookUpKeepsWorld(s: World, q: Pid, p: Pid, id: int)
    requires WorldInv(s, p, id)
    ensures WorldInv(Next(s, LooksUp(q)), p, id)
  {
    hide FindSession, WellFormed, SessionsInv, Entry, IsPending;
  }

  lemma TellKeeps(s: World, q: Pid, ok: bool, p: Pid, id: int)
    requires WorldInv(s, p, id)
    ensures WorldInv(Next(s, Tells(q, ok)), p, id)
  {
  }

  lemma LeaveKeepsWorld(s: World, q: Pid, p: Pid, id: int)
    requires WorldInv(s, p, id) && id > 0
    ensures WorldInv(Next(s, Leaves(q)), p, id)
  {
    if q in s.alive && q in s.users {
      FailEntry(s.table, s.users[q], id);
      GoneKeeps(s, {q}, p, id);
    }
  }

  lemma NextKeeps(s: World, m: Move, p: Pid, id: int)
    requires WorldInv(s, p, id) && id > 0
    ensures WorldInv(Next(s, m), p, id)
  {
    match m
    case Connects(_) =>
    case LogsIn(q, user, listed) => LoginKeeps(s, q, user, listed, p, id);
    case Asks(q, dest, path, announced) => AskKeeps(s, q, dest, path, announced, p, id);
    case Takes(q, k, to) => TakeKeepsWorld(s, q, k, to, p, id);
    case LooksUp(q) => LookUpKeepsWorld(s, q, p, id);
    case Tells(q, ok) => TellKeeps(s, q, ok, p, id);
    case Leaves(q) => LeaveKeepsWorld(s, q, p, id);
    case Die(ps) => GoneKeeps(s, ps, p, id);
    case Collects => CollectKeeps(s.sessions, s.alive);
  }

  /** The last move of a longer run. */
  lemma LastMove(ms: seq<Move>, more: seq<Move>)
    requires more != []
    ensures After(ms + more) == Next(After(ms + more[..|more| - 1]), more[|more| - 1])
  {
    LastApart(ms, more);
    AfterOneMore(ms + more[..|more| - 1], more[|more| - 1]);
  }

  lemma {:induction false} AfterKeeps(ms: seq<Move>, p: Pid, id: int)
    requires id > 0
    ensures WorldInv(After(ms), p, id)
  {
    if ms != [] {
      AfterKeeps(ms[..|ms| - 1], p, id);
      NextKeeps(After(ms[..|ms| - 1]), ms[|ms| - 1], p, id);
    }
  }

  // ---------------------------------------------------------------- whom a look-up finds

  /** No session of a process to keep, under this name, comes before slot `i`. */
  predicate Clear(ss: seq<Session>, i: nat, user: string, keep: set<Pid>)
    requires i <= |ss|
  {
    forall k :: 0 <= k < i ==> !(ss[k].inUse && ss[k].username == user && ss[k].pid in keep)
  }

  /** Among the sessions of these processes the first of `user` is that of `p`. */
  ghost predicate First(ss: seq<Session>, user: string, p: Pid, keep: set<Pid>) {
    exists i :: 0 <= i < |ss| && ss[i] == Session(user, p, true) && Clear(ss, i, user, keep)
  }

  /** Once the others are dead and collected the look-up finds `p`. */
  lemma FirstIsFound(ss: seq<Session>, user: string, p: Pid, keep: set<Pid>)
    requires First(ss, user, p, keep) && SessionsInv(ss) && p in keep && user != ""
    ensures FindSession(CollectStale(ss, keep), user) == Some((p, true))
  {
    var i :| 0 <= i < |ss| && ss[i] == Session(user, p, true) && Clear(ss, i, user, keep);
    var kept := CollectStale(ss, keep);
    assert kept[i] == ss[i];
    assert forall k :: 0 <= k < i ==> kept[k] == Sweep(ss[k], keep) && kept[k].username != user;
  }

  lemma FoundIsFirst(ss: seq<Session>, user: string, p: Pid, keep: set<Pid>)
    requires FindSession(ss, user) == Some((p, true))
    ensures First(ss, user, p, keep)
  {
    assert ss[SessionOf(ss, user)] == Session(user, p, true);
  }

  lemma FirstOfFewer(ss: seq<Session>, user: string, p: Pid, q: Pid)
    requires First(ss, user, p, {p, q})
    ensures First(ss, user, p, {p})
  {
    var i :| 0 <= i < |ss| && ss[i] == Session(user, p, true) && Clear(ss, i, user, {p, q});
    assert Clear(ss, i, user, {p});
  }

  lemma FirstBeforeLogin(ss: seq<Session>, user: string, p: Pid, keep: set<Pid>, other: string, r: Pid)
    requires First(AddSession(ss, other, r).0, user, p, keep) && p in keep && r !in keep
    ensures First(ss, user, p, keep)
  {
    var ss' := AddSession(ss, other, r).0;
    var i :| 0 <= i < |ss'| && ss'[i] == Session(user, p, true) && Clear(ss', i, user, keep);
    assert i < |ss| && ss[i] == ss'[i];
    assert forall k :: 0 <= k < i && ss'[k] != ss[k] ==> !ss[k].inUse;
    assert Clear(ss, i, user, keep);
  }

  lemma FirstBeforeCollect(ss: seq<Session>, user: string, p: Pid, keep: set<Pid>, alive: set<Pid>)
    requires First(CollectStale(ss, alive), user, p, keep) && keep <= alive
    ensures First(ss, user, p, keep)
  {
    var ss' := CollectStale(ss, alive);
    var i :| 0 <= i < |ss'| && ss'[i] == Session(user, p, true) && Clear(ss', i, user, keep);
    assert ss'[i] == Sweep(ss[i], alive) && ss[i] == ss'[i];
    assert forall k :: 0 <= k < i ==> ss'[k] == Sweep(ss[k], alive);
    assert Clear(ss, i, user, keep);
  }

  // ---------------------------------------------------------------- who can still be told

  /**
    The sender `p` can still be told about its request: somebody is about to write to its session,
    or has taken the request and comes before `p` with no session of his own under the sender's
    name, or the request is pending and its recipient has a name one can log in with.
  */
  ghost predicate CanBeTold(s: World, p: Pid, id: int) {
    && p in s.alive && p in s.users
    && (|| (exists q :: q in s.errands && s.errands[q] == Found(id, p))
        || (exists q ::
            q in s.errands && s.errands[q].Taken? && s.errands[q].id == id && First(s.sessions, s.users[p], p, {p, q}))
        || (IsPending(s.table, id) && ValidName(Entry(s.table, id).value.dest) &&
          First(s.sessions, s.users[p], p, {p})))
  }

  /** `p` was not told and, while it lives, cannot be. */
  ghost predicate Hopeless(s: World, p: Pid, id: int) {
    && 0 < id < s.table.nextId && p in s.users && (p, id) !in s.lines
    && (p in s.alive ==> SentByUser(s, id, s.users[p]) && !CanBeTold(s, p, id))
  }

  lemma LoginStaysHopeless(s: World, q: Pid, user: string, listed: bool, p: Pid, id: int)
    requires WorldInv(s, p, id) && Hopeless(s, p, id)
    ensures Hopeless(Next(s, LogsIn(q, user, listed)), p, id)
  {
    var s' := Next(s, LogsIn(q, user, listed));
    if s' != s && p in s.alive && CanBeTold(s', p, id) {
      if r :|
        r in s.errands && s.errands[r].Taken? && s.errands[r].id == id && First(s'.sessions, s.users[p], p, {p, r})
      {
        if listed {
          FirstBeforeLogin(s.sessions, s.users[p], p, {p, r}, user, q);
        }
      } else if IsPending(s.table, id) && First(s'.sessions, s.users[p], p, {p}) && listed {
        FirstBeforeLogin(s.sessions, s.users[p], p, {p}, user, q);
      }
      assert CanBeTold(s, p, id);
    }
  }

  lemma AskStaysHopeless(s: World, q: Pid, dest: string, path: string, announced: bool, p: Pid, id: int)
    requires WorldInv(s, p, id) && Hopeless(s, p, id)
    ensures Hopeless(Next(s, Asks(q, dest, path, announced)), p, id)
  {
    if Free(s, q) && ValidDest(dest) {
      AddEntry(s.table, s.users[q], dest, path, id);
    }
  }

  lemma TakeStaysHopeless(s: World, q: Pid, k: int, to: Status, p: Pid, id: int)
    requires WorldInv(s, p, id) && Hopeless(s, p, id)
    ensures Hopeless(Next(s, Takes(q, k, to)), p, id)
  {
    TakeMove(s, q, k, to);
    if CanTake(s, q, k, to) {
      TakenStaysHopeless(s, q, k, to, p, id);
    }
  }

  lemma TakenStaysHopeless(s: World, q: Pid, k: int, to: Status, p: Pid, id: int)
    requires WorldInv(s, p, id) && Hopeless(s, p, id) && CanTake(s, q, k, to)
    ensures var (t, r) := Take(s.table, k, s.users[q], to);
      Hopeless(s.(table := t, errands := s.errands[q := Taken(k, r.value.source)]), p, id)
  {
    TakeEntry(s.table, k, s.users[q], to, id);
    var (t, r) := Take(s.table, k, s.users[q], to);
    var s' := s.(table := t, errands := s.errands[q := Taken(k, r.value.source)]);
    if p in s.alive && CanBeTold(s', p, id) {
      if k == id && First(s.sessions, s.users[p], p, {p, q}) {
        FirstOfFewer(s.sessions, s.users[p], p, q);
      }
      assert CanBeTold(s, p, id);
    }
  }

  lemma FoundCanBeTold(s: World, q: Pid, p: Pid, id: int)
    requires p in s.alive && p in s.users && q in s.errands && s.errands[q].id == id
    requires if s.errands[q].Found? then s.errands[q].target == p
             else s.errands[q].source == s.users[p] && FindSession(s.sessions, s.users[p]) == Some((p, true))
    ensures CanBeTold(s, p, id)
  {
    if s.errands[q].Taken? {
      FoundIsFirst(s.sessions, s.users[p], p, {p, q});
    }
  }

  lemma LookUpStaysHopeless(s: World, q: Pid, p: Pid, id: int)
    requires WorldInv(s, p, id) && Hopeless(s, p, id)
    ensures Hopeless(Next(s, LooksUp(q)), p, id)
  {
    if q in s.errands && s.errands[q].Taken? && s.errands[q].id == id && p in s.alive {
      if FindSession(s.sessions, s.errands[q].source) == Some((p, true)) {
        FoundCanBeTold(s, q, p, id);
      }
    }
  }

  lemma TellStaysHopeless(s: World, q: Pid, ok: bool, p: Pid, id: int)
    requires WorldInv(s, p, id) && Hopeless(s, p, id)
    ensures Hopeless(Next(s, Tells(q, ok)), p, id)
  {
    if q in s.errands && s.errands[q] == Found(id, p) && p in s.alive {
      FoundCanBeTold(s, q, p, id);
    }
  }

  lemma LeaveStaysHopeless(s: World, q: Pid, p: Pid, id: int)
    requires WorldInv(s, p, id) && Hopeless(s, p, id)
    ensures Hopeless(Next(s, Leaves(q)), p, id)
  {
    if q in s.alive && q in s.users {
      FailEntry(s.table, s.users[q], id);
    }
  }

  lemma CollectStaysHopeless(s: World, p: Pid, id: int)
    requires WorldInv(s, p, id) && Hopeless(s, p, id)
    ensures Hopeless(Next(s, Collects), p, id)
  {
    if p in s.alive && CanBeTold(Next(s, Collects), p, id) {
      ToldBeforeCollect(s, p, id);
    }
  }

  lemma ToldBeforeCollect(s: World, p: Pid, id: int)
    requires WorldInv(s, p, id) && CanBeTold(Next(s, Collects), p, id)
    ensures CanBeTold(s, p, id)
  {
    var s' := Next(s, Collects);
    if r :|
        r in s.errands && s.errands[r].Taken? && s.errands[r].id == id && First(s'.sessions, s.users[p], p, {p, r})
      {
      FirstBeforeCollect(s.sessions, s.users[p], p, {p, r}, s.alive);
    } else if IsPending(s.table, id) && First(s'.sessions, s.users[p], p, {p}) {
      FirstBeforeCollect(s.sessions, s.users[p], p, {p}, s.alive);
    }
  }

  lemma StaysHopeless(s: World, m: Move, p: Pid, id: int)
    requires WorldInv(s, p, id) && Hopeless(s, p, id)
    ensures Hopeless(Next(s, m), p, id)
  {
    match m
    case Connects(_) =>
    case LogsIn(q, user, listed) => LoginStaysHopeless(s, q, user, listed, p, id);
    case Asks(q, dest, path, announced) => AskStaysHopeless(s, q, dest, path, announced, p, id);
    case Takes(q, k, to) => TakeStaysHopeless(s, q, k, to, p, id);
    case LooksUp(q) => LookUpStaysHopeless(s, q, p, id);
    case Tells(q, ok) => TellStaysHopeless(s, q, ok, p, id);
    case Leaves(q) => LeaveStaysHopeless(s, q, p, id);
    case Die(_) =>
    case Collects => CollectStaysHopeless(s, p, id);
  }

  /** Whoever cannot be told now never will be. */
  lemma {:induction false} NeverTold(ms: seq<Move>, more: seq<Move>, p: Pid, id: int)
    requires Hopeless(After(ms), p, id)
    ensures Hopeless(After(ms + more), p, id)
  {
    if more == [] {
      assert ms + more == ms;
    } else {
      var init := ms + more[..|more| - 1];
      NeverTold(ms, more[..|more| - 1], p, id);
      AfterKeeps(init, p, id);
      StaysHopeless(After(init), more[|more| - 1], p, id);
      LastMove(ms, more);
    }
  }

  // ---------------------------------------------------------------- how the others can still tell it

  function Going(s: World, more: seq<Move>): World
    decreases |more|
  {
    if more == [] then s else Going(Next(s, more[0]), more[1..])
  }

  lemma {:induction false} GoingAfter(ms: seq<Move>, more: seq<Move>)
    ensures After(ms + more) == Going(After(ms), more)
    decreases |more|
  {
    if more == [] {
      assert ms + more == ms;
    } else {
      AfterOneMore(ms, more[0]);
      GoingAfter(ms + [more[0]], more[1..]);
      assert ms + [more[0]] + more[1..] == ms + more;
    }
  }

  /** Whoever found the session only has to write. */
  lemma ToldByFound(s: World, q: Pid, p: Pid, id: int)
    requires p in s.alive && q in s.errands && s.errands[q] == Found(id, p)
    ensures (p, id) in Going(s, [Tells(q, true)]).lines
  {
    assert [Tells(q, true)][1..] == [];
  }

  /** Whoever took the request finds the session once only the two of them are left. */
  lemma ToldByTaker(s: World, q: Pid, p: Pid, id: int)
    requires SessionsInv(s.sessions) && p in s.alive && p in s.users && ValidName(s.users[p]) && q in s.alive &&
      q in s.errands
    requires s.errands[q] == Taken(id, s.users[p]) && First(s.sessions, s.users[p], p, {p, q})
    ensures (p, id) in Going(s, [Die(s.alive - {p, q}), Collects, LooksUp(q), Tells(q, true)]).lines
  {
    var more := [Die(s.alive - {p, q}), Collects, LooksUp(q), Tells(q, true)];
    var s2 := OthersVanish(s, q, p);
    var s3 := LookUpMove(s2, q, p);
    ToldByFound(s3, q, p, id);
    FourMoves(s, more);
  }

  /** Only `p` and `q` are left and the table of sessions knows it. */
  lemma OthersVanish(s: World, q: Pid, p: Pid) returns (s2: World)
    requires SessionsInv(s.sessions) && p in s.alive && p in s.users && ValidName(s.users[p]) && q in s.alive &&
      q in s.errands
    requires First(s.sessions, s.users[p], p, {p, q})
    ensures s2 == Next(Next(s, Die(s.alive - {p, q})), Collects)
    ensures s2.alive == {p, q} && q in s2.errands && s2.errands[q] == s.errands[q]
    ensures FindSession(s2.sessions, s.users[p]) == Some((p, true))
  {
    FirstIsFound(s.sessions, s.users[p], p, {p, q});
    var s1 := Next(s, Die(s.alive - {p, q}));
    assert s1.alive == {p, q};
    s2 := Next(s1, Collects);
  }

  lemma LookUpMove(s: World, q: Pid, p: Pid) returns (s': World)
    requires q in s.errands && s.errands[q].Taken? && FindSession(s.sessions, s.errands[q].source) == Some((p, true))
    ensures s' == Next(s, LooksUp(q)) == s.(errands := s.errands[q := Found(s.errands[q].id, p)])
  {
    s' := Next(s, LooksUp(q));
  }

  lemma FourMoves(s: World, m: seq<Move>)
    requires |m| == 4
    ensures Going(s, m) == Going(Next(Next(Next(s, m[0]), m[1]), m[2]), [m[3]])
  {
    assert m[1..][1..] == m[2..] && m[2..][1..] == [m[3]];
    assert Going(s, m) == Going(Next(s, m[0]), m[1..]) == Going(Next(Next(s, m[0]), m[1]), m[2..]);
  }

  /** A pending request can be rejected by a session of its recipient that logs in now. */
  lemma ToldByNewcomer(s: World, p: Pid, id: int, q: Pid)
    requires PeopleInv(s) && id > 0 && p in s.alive && p in s.users && q !in s.alive && q !in s.users
    requires IsPending(s.table, id) && Entry(s.table, id).value.source == s.users[p]
    requires ValidName(Entry(s.table, id).value.dest) && First(s.sessions, s.users[p], p, {p})
    ensures var dest := Entry(s.table, id).value.dest;
      (p, id) in Going(s, [Die(s.alive - {p}), Collects, Connects(q), LogsIn(q, dest, false), Takes(q, id, Rejected),
                           LooksUp(q), Tells(q, true)]).lines
  {
    var dest := Entry(s.table, id).value.dest;
    var more := [Die(s.alive - {p}), Collects, Connects(q), LogsIn(q, dest, false), Takes(q, id, Rejected),
      LooksUp(q), Tells(q, true)];
    var s4 := NewcomerLogsIn(s, p, q, dest);
    TakeEntry(s.table, id, dest, Rejected, id);
    TakeMove(s4, q, id, Rejected);
    var s5 := Next(s4, Takes(q, id, Rejected));
    assert s5.errands[q] == Taken(id, s.users[p]) && s5.sessions == s4.sessions && s5.alive == s4.alive;
    var s6 := Next(s5, LooksUp(q));
    assert s6 == s5.(errands := s5.errands[q := Found(id, p)]);
    ToldByFound(s6, q, p, id);
    SevenMoves(s, more);
  }

  lemma SevenMoves(s: World, m: seq<Move>)
    requires |m| == 7
    ensures Going(s, m) == Going(Next(Next(Next(Next(Next(Next(s, m[0]), m[1]), m[2]), m[3]), m[4]), m[5]), [m[6]])
  {
    var s2 := Next(Next(s, m[0]), m[1]);
    var s4 := Next(Next(s2, m[2]), m[3]);
    assert m[1..][1..] == m[2..] && m[2..][1..] == m[3..] && m[3..][1..] == m[4..] && m[4..][1..] == m[5..] &&
      m[5..][1..] == [m[6]];
    assert Going(s, m) == Going(Next(s, m[0]), m[1..]) == Going(s2, m[2..]);
    assert Going(s2, m[2..]) == Going(Next(s2, m[2]), m[3..]) == Going(s4, m[4..]);
    assert Going(s4, m[4..]) == Going(Next(s4, m[4]), m[5..]);
  }

  /** Only `p` is left, and a newcomer logs in without a session of its own on the table. */
  lemma NewcomerLogsIn(s: World, p: Pid, q: Pid, dest: string) returns (s4: World)
    requires PeopleInv(s) && p in s.alive && p in s.users && q !in s.alive && q !in s.users && ValidName(dest)
    requires First(s.sessions, s.users[p], p, {p})
    ensures s4 == Next(Next(Next(Next(s, Die(s.alive - {p})), Collects), Connects(q)), LogsIn(q, dest, false))
    ensures s4.table == s.table && s4.alive == {p, q} && Free(s4, q) && s4.users[q] == dest
    ensures FindSession(s4.sessions, s.users[p]) == Some((p, true))
  {
    FirstIsFound(s.sessions, s.users[p], p, {p});
    var s1 := Next(s, Die(s.alive - {p}));
    assert s1.alive == {p} && q !in s1.waits && q !in s1.errands;
    var s2 := Next(s1, Collects);
    var s3 := Next(s2, Connects(q));
    s4 := Next(s3, LogsIn(q, dest, false));
  }

  // ---------------------------------------------------------------- results over all runs

  ghost predicate EverTold(ms: seq<Move>, p: Pid, id: int) {
    exists more :: (p, id) in After(ms + more).lines
  }

  /**
    Exactly when a waiting sender can still be answered. `q` is any process id not in use. The
    recipient's name matters because names of 32 letters pass for recipients but not for logins.
  */
  lemma AnswerableExactly(ms: seq<Move>, p: Pid, q: Pid)
    requires var s := After(ms); p in s.waits && q !in s.alive && q !in s.users
    ensures EverTold(ms, p, After(ms).waits[p]) <==> CanBeTold(After(ms), p, After(ms).waits[p])
  {
    var s := After(ms);
    AfterKeeps(ms, p, 1);
    var id := s.waits[p];
    AfterKeeps(ms, p, id);
    if CanBeTold(s, p, id) {
      var more := ToldSomehow(s, p, id, q);
      GoingAfter(ms, more);
      assert (p, id) in After(ms + more).lines;
    } else {
      forall more ensures (p, id) !in After(ms + more).lines {
        NeverTold(ms, more, p, id);
      }
    }
  }

  lemma ToldSomehow(s: World, p: Pid, id: int, newcomer: Pid) returns (more: seq<Move>)
    requires WorldInv(s, p, id) && p in s.waits && s.waits[p] == id && CanBeTold(s, p, id)
    requires newcomer !in s.alive && newcomer !in s.users
    ensures (p, id) in Going(s, more).lines
  {
    if q :| q in s.errands && s.errands[q] == Found(id, p) {
      more := [Tells(q, true)];
      ToldByFound(s, q, p, id);
    } else if q :|
        q in s.errands && s.errands[q].Taken? && s.errands[q].id == id && First(s.sessions, s.users[p], p, {p, q})
      {
      more := [Die(s.alive - {p, q}), Collects, LooksUp(q), Tells(q, true)];
      ToldByTaker(s, q, p, id);
    } else {
      more := [Die(s.alive - {p}), Collects, Connects(newcomer), LogsIn(newcomer, Entry(s.table, id).value.dest, false),
               Takes(newcomer, id, Rejected), LooksUp(newcomer), Tells(newcomer, true)];
      ToldByNewcomer(s, p, id, newcomer);
    }
  }

  function NameOf(s: World, p: Pid): string {
    if p in s.users then s.users[p] else ""
  }

  /** Nobody owes the sender anything, and the request is settled. */
  ghost predicate Dropped(s: World, id: int) {
    !IsPending(s.table, id) && forall q :: q in s.errands ==> s.errands[q].id != id
  }

  /** No line about any request was written to the session since. */
  ghost predicate Undisturbed(since: World, s: World, p: Pid) {
    forall k :: (p, k) in s.lines ==> (p, k) in since.lines
  }

  ghost predicate StillWaiting(since: World, s: World, p: Pid, id: int) {
    && p in s.users && since.lines <= s.lines
    && (p in s.alive && Undisturbed(since, s, p) ==> p in s.waits && s.waits[p] == id)
  }

  /** The sender is never told; it waits for as long as it lives and is not misled by a line about another request. */
  lemma WaitsForEver(ms: seq<Move>, more: seq<Move>, p: Pid)
    requires var s := After(ms); p in s.waits && Dropped(s, s.waits[p])
    ensures var s, s' := After(ms), After(ms + more);
      (p, s.waits[p]) !in s'.lines && StillWaiting(s, s', p, s.waits[p])
  {
    var id := After(ms).waits[p];
    AfterKeeps(ms, p, 1);
    AfterKeeps(ms, p, id);
    DroppedIsHopeless(After(ms), p, id);
    NeverTold(ms, more, p, id);
    WaitsOn(ms, more, p, id);
  }

  lemma {:induction false} WaitsOn(ms: seq<Move>, more: seq<Move>, p: Pid, id: int)
    requires Hopeless(After(ms), p, id) && StillWaiting(After(ms), After(ms), p, id)
    ensures StillWaiting(After(ms), After(ms + more), p, id)
  {
    if more == [] {
      assert ms + more == ms;
    } else {
      var init, last := ms + more[..|more| - 1], more[|more| - 1];
      WaitsOn(ms, more[..|more| - 1], p, id);
      NeverTold(ms, more, p, id);
      AfterKeeps(init, p, id);
      if last.Tells? && last.q in After(init).errands {
        AfterKeeps(init, p, After(init).errands[last.q].id);
      }
      LastMove(ms, more);
      StillWaits(After(ms), After(init), last, p, id);
    }
  }

  lemma DroppedIsHopeless(s: World, p: Pid, id: int)
    requires WorldInv(s, p, id) && p in s.waits && s.waits[p] == id && Dropped(s, id)
    ensures Hopeless(s, p, id)
  {
  }

  /** Only a line about a request or its end stops a client from waiting. */
  lemma StillWaits(since: World, s: World, m: Move, p: Pid, id: int)
    requires PeopleInv(s) && StillWaiting(since, s, p, id)
    requires m.Tells? && m.q in s.errands ==> RequestInv(s, s.errands[m.q].id)
    ensures StillWaiting(since, Next(s, m), p, id)
  {
    var s' := Next(s, m);
    if m.Tells? && s'.lines != s.lines {
      var e := s.errands[m.q];
      assert s'.lines == s.lines + {(e.target, e.id)} && (e.target, e.id) !in s.lines;
    }
  }

  /**
    The end of any other session of the sender's user settles the request without a word: the
    sender waits for ever.
  */
  lemma DisconnectStrands(ms: seq<Move>, p: Pid, q: Pid, more: seq<Move>)
    requires var s := After(ms);
      && p in s.waits && q != p && q in s.alive && q in s.users && s.users[q] == NameOf(s, p)
      && IsPending(s.table, s.waits[p])
    ensures var s, s' := After(ms), After(ms + [Leaves(q)] + more);
      (p, s.waits[p]) !in s'.lines && StillWaiting(s, s', p, s.waits[p])
  {
    var s := After(ms);
    AfterKeeps(ms, p, 1);
    AfterKeeps(ms, p, s.waits[p]);
    AfterOneMore(ms, Leaves(q));
    FailEntry(s.table, s.users[q], s.waits[p]);
    WaitsForEver(ms + [Leaves(q)], more, p);
  }

  /** So does a taker that finds nobody, fails to write, or writes to another session of the user. */
  lemma ErrandStrands(ms: seq<Move>, p: Pid, q: Pid, m: Move, more: seq<Move>)
    requires var s := After(ms);
      && p in s.waits && q in s.errands && s.errands[q].id == s.waits[p]
      && (m == LooksUp(q) || m.Tells?) && m.q == q
    requires var s' := After(ms + [m]);
      q !in s'.errands && (p, After(ms).waits[p]) !in s'.lines
    ensures var s, s' := After(ms), After(ms + [m] + more);
      (p, s.waits[p]) !in s'.lines && StillWaiting(s, s', p, s.waits[p])
  {
    var s := After(ms);
    AfterKeeps(ms, p, 1);
    AfterKeeps(ms, p, s.waits[p]);
    AfterOneMore(ms, m);
    WaitsForEver(ms + [m], more, p);
  }

  /**
    To whom the line goes: the look-up for a waiting sender finds it exactly when the first slot
    that bears the user's name is its own. A line for another session is a stray answer there.
  */
  lemma FirstSlotIsTold(ms: seq<Move>, p: Pid, q: Pid)
    requires var s := After(ms); p in s.waits && q in s.errands && s.errands[q].Taken? && s.errands[q].id == s.waits[p]
    ensures var s := After(ms);
      var i := SessionOf(s.sessions, NameOf(s, p));
      var s' := After(ms + [LooksUp(q)]);
      && (q in s'.errands && s'.errands[q] == Found(s.waits[p], p) <==> i < |s.sessions| && s.sessions[i].pid == p)
      && (q in s'.errands ==> i < |s.sessions| && s'.errands[q] == Found(s.waits[p], s.sessions[i].pid))
  {
    var s := After(ms);
    AfterKeeps(ms, p, 1);
    AfterKeeps(ms, p, s.waits[p]);
    AfterOneMore(ms, LooksUp(q));
  }

  /** A run after which a sender waits while another session of its user goes on. */
  lemma WaitsBesideTwin() returns (ms: seq<Move>)
    ensures var s := After(ms);
      && 1 in s.waits && 2 in s.alive && s.users == map[1 := "ann", 2 := "ann"] && IsPending(s.table, s.waits[1])
  {
    ms := TwoSessions();
    AfterOneMore(ms, Asks(1, "bob", "/f", true));
    AddEntry(EMPTY, "ann", "bob", "/f", 1);
    ms := ms + [Asks(1, "bob", "/f", true)];
  }

  lemma TwoSessions() returns (ms: seq<Move>)
    ensures var s := After(ms);
      s.table == EMPTY && s.alive == {1, 2} && s.users == map[1 := "ann", 2 := "ann"] && s.waits == map[] &&
        s.errands == map[]
  {
    ms := [];
    AfterOneMore(ms, Connects(1));
    ms := ms + [Connects(1)];
    AfterOneMore(ms, LogsIn(1, "ann", true));
    ms := ms + [LogsIn(1, "ann", true)];
    assert After(ms).users == map[1 := "ann"] && After(ms).alive == {1};
    AfterOneMore(ms, Connects(2));
    ms := ms + [Connects(2)];
    AfterOneMore(ms, LogsIn(2, "ann", true));
    ms := ms + [LogsIn(2, "ann", true)];
  }
}
