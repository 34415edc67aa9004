/**
  When does a pending request reach a user who logs in while it is being sent? The sender
  looks the user up, adds the request and then signals; the user registers a session and
  then scans for requests. Runs interleave these critical sections of any number of
  processes with answers, disconnects, process deaths and the collection of stale sessions.
*/
module Notification {
  import opened Core
  import opened SharedTable
  import TableRefinement

  type Pid = int

  const LOGIN_SIZE: nat := 32

  /** Names a login accepts (main-server.c:245). */
  predicate ValidName(user: string) {
    0 < |user| < LOGIN_SIZE
  }

  /** Names an account may have: at most 32 characters. */
  predicate ValidDest(user: string) {
    0 < |user| < USER_SIZE
  }

  /** A sender between its look-up and its request-add: the one session the look-up found, if any. */
  datatype Look = Look(dest: string, found: Option<Pid>, at: nat)

  /** What became of the REQ message of a request that was added; a dead session cannot be written to. */
  datatype Signal = Due | Sent | Undelivered | NotWanted | SenderGone

  datatype Record = Record(owner: Pid, look: Look, addedAt: nat, signal: Signal)

  /** A login goes on when the session table is full; such a session is not `listed`. */
  datatype Login =
    | Registered(user: string, listed: bool, at: nat)
    | Scanned(user: string, listed: bool, at: nat, scanAt: nat, reported: seq<Request>)

  datatype State = State(
    sessions: seq<Session>,
    table: Table,
    alive: set<Pid>,
    looks: map<Pid, Look>,
    sent: map<int, Record>,
    logins: map<Pid, Login>,
    clock: nat)

  datatype Action =
    | Connect(p: Pid)
    | Register(p: Pid, user: string)                    // main-server.c:263
    | Scan(p: Pid)                                      // main-server.c:270
    | LookUp(p: Pid, user: string, dest: string, account: bool) // main-server.c:498-527
    | AddRequest(p: Pid, user: string, path: string)    // main-server.c:529
    | SignalDest(p: Pid, id: int)                       // main-server.c:536-546
    | Answer(id: int, user: string, to: Status)
    | Disconnect(p: Pid, user: string)
    | Dies(p: Pid)
    | Collect

  const INIT: State := State([], EMPTY, {}, map[], map[], map[], 0)

  /** Whoever dies no longer sends the signals that were due. */
  function Orphan(r: Record, p: Pid): Record {
    if r.owner == p && r.signal.Due? then r.(signal := SenderGone) else r
  }

  function Leave(s: State, p: Pid): State {
    s.(alive := s.alive - {p},
       looks := s.looks - {p},
       sent := map id | id in s.sent :: Orphan(s.sent[id], p))
  }

  /** What a sender learns from shm_session_find: the process of the first slot with the name, if it is in use. */
  function OnlineSession(ss: seq<Session>, user: string): Option<Pid> {
    var found := FindSession(ss, user);
    if found.Some? && found.value.1 then Some(found.value.0) else None
  }

  /** notify_pid writes to the session that was found, and to no other. */
  function Written(s: State, id: int): Signal
    requires id in s.sent
  {
    var target := s.sent[id].look.found;
    if target.Some? && target.value in s.alive then Sent else Undelivered
  }

  /** One step; an action that cannot happen only lets time pass. */
  function Step(s: State, a: Action): State {
    Effect(s, a).(clock := s.clock + 1)
  }

  function Effect(s: State, a: Action): State {
    match a
    case Connect(p) => if p in s.alive || p in s.logins then s else s.(alive := s.alive + {p})
    case Register(p, user) =>
      if p !in s.alive || p in s.logins || !ValidName(user) then s
      else
        var (ss, r) := AddSession(s.sessions, user, p);
        s.(sessions := ss, logins := s.logins[p := Registered(user, r.Ok?, s.clock)])
    case Scan(p) =>
      if p in s.alive && p in s.logins && s.logins[p].Registered? then
        var l := s.logins[p];
        s.(logins := s.logins[p := Scanned(l.user, l.listed, l.at, s.clock, ForDest(s.table, l.user, MAX_ENTRIES))])
      else s
    case LookUp(p, user, dest, account) =>
      if p !in s.alive || p in s.looks || !ValidDest(dest) then s
      else
        var found := OnlineSession(s.sessions, dest);
        if found.None? && (!account || dest == user) then s
        else s.(looks := s.looks[p := Look(dest, found, s.clock)])
    case AddRequest(p, user, path) =>
      if p !in s.alive || p !in s.looks then s
      else
        var look := s.looks[p];
        var (t, r) := Add(s.table, user, look.dest, path);
        var s' := s.(table := t, looks := s.looks - {p});
        if r.Err? then s'
        else s'.(sent := s.sent[r.value := Record(p, look, s.clock, if look.found.Some? then Due else NotWanted)])
    case SignalDest(p, id) =>
      if p in s.alive && id in s.sent && s.sent[id].owner == p && s.sent[id].signal.Due? then
        s.(sent := s.sent[id := s.sent[id].(signal := Written(s, id))])
      else s
    case Answer(id, user, to) => if id <= 0 || to.Pending? then s else s.(table := Take(s.table, id, user, to).0)
    case Disconnect(p, user) => if p !in s.alive then s else Leave(s, p).(table := FailSent(s.table, user))
    case Dies(p) => Leave(s, p)
    case Collect => s.(sessions := CollectStale(s.sessions, s.alive))
  }

  function Exec(acts: seq<Action>): State {
    if acts == [] then INIT else Step(Exec(acts[..|acts| - 1]), acts[|acts| - 1])
  }

  lemma ExecOneMore(acts: seq<Action>, a: Action)
    ensures Exec(acts + [a]) == Step(Exec(acts), a)
  {
    OneMore(acts, a);
  }

  // ---------------------------------------------------------------- what every run keeps

  /** A slot with a name is in use, so the first match of a look-up is online. */
  ghost predicate SessionsInv(ss: seq<Session>) {
    forall i :: 0 <= i < |ss| && ss[i].username != "" ==> ss[i].inUse
  }

  ghost predicate OnTable(ss: seq<Session>, user: string, p: Pid) {
    Session(user, p, true) in ss
  }

  /** The session of a live process is on the table, unless there was no room for it. */
  ghost predicate Known(ss: seq<Session>, l: Login, p: Pid) {
    ValidName(l.user) && (l.listed ==> OnTable(ss, l.user, p))
  }

  /** Someone who looked after the registration of a session that still lives saw it. */
  ghost predicate LookInv(look: Look, l: Login, now: nat) {
    && look.at < now && l.at < now && look.at != l.at
    && (look.dest == l.user && l.listed && l.at < look.at ==> look.found.Some?)
  }

  ghost predicate RecordInv(t: Table, id: int, r: Record, now: nat) {
    && 0 < id < t.nextId
    && r.look.at < r.addedAt < now
    && (r.look.found.Some? <==> !r.signal.NotWanted?)
  }

  ghost predicate Listed(reported: seq<Request>, id: int) {
    exists i :: 0 <= i < |reported| && reported[i].id == id
  }

  /** A scan lists what was added before it and still waits, and nothing that came later. */
  ghost predicate ScanInv(e: Request, r: Record, l: Login) {
    && (l.Scanned? ==> r.addedAt != l.scanAt)
    && (l.Scanned? && e.dest == l.user && r.addedAt < l.scanAt ==> Listed(l.reported, e.id))
    && (l.Scanned? && r.addedAt > l.scanAt ==> !Listed(l.reported, e.id))
  }

  ghost predicate EntryInv(s: State, e: Request) {
    && e.id in s.sent
    && e.dest == s.sent[e.id].look.dest
    && forall p :: p in s.logins ==> ScanInv(e, s.sent[e.id], s.logins[p])
  }

  ghost predicate Inv(s: State) {
    && WellFormed(s.table)
    && SessionsInv(s.sessions)
    && (forall p :: p in s.logins && p in s.alive ==> Known(s.sessions, s.logins[p], p))
    && (forall p :: p in s.looks ==> ValidDest(s.looks[p].dest) && s.looks[p].at < s.clock)
    && (forall p :: p in s.logins ==>
      s.logins[p].at < s.clock && (s.logins[p].Scanned? ==> s.logins[p].at < s.logins[p].scanAt < s.clock))
    && (forall id :: id in s.sent ==> RecordInv(s.table, id, s.sent[id], s.clock))
    && (forall p, q :: p in s.logins && p in s.alive && q in s.looks ==> LookInv(s.looks[q], s.logins[p], s.clock))
    && (forall p, id :: p in s.logins && p in s.alive && id in s.sent ==>
      LookInv(s.sent[id].look, s.logins[p], s.clock))
    && (forall e :: e in s.table.entries && e.status.Pending? ==> EntryInv(s, e))
    && (forall p, id :: p in s.logins && s.logins[p].Scanned? && Listed(s.logins[p].reported, id) ==>
      0 < id < s.table.nextId)
  }

  // ---------------------------------------------------------------- sessions

  lemma AddSessionKeeps(ss: seq<Session>, user: string, p: Pid)
    requires SessionsInv(ss) && ValidName(user)
    ensures SessionsInv(AddSession(ss, user, p).0)
    ensures AddSession(ss, user, p).1.Ok? ==> OnTable(AddSession(ss, user, p).0, user, p)
    ensures forall u: string, q :: OnTable(ss, u, q) ==> OnTable(AddSession(ss, user, p).0, u, q)
  {
    var (ss', r) := AddSession(ss, user, p);
    var i := FirstVacant(ss);
    if r.Ok? {
      assert ss'[i] == Session(user, p, true);
    }
    forall u: string, q | OnTable(ss, u, q) ensures OnTable(ss', u, q) {
      var k :| 0 <= k < |ss| && ss[k] == Session(u, q, true);
      assert ss'[k] == ss[k];
    }
  }

  lemma CollectKeeps(ss: seq<Session>, alive: set<Pid>)
    requires SessionsInv(ss)
    ensures SessionsInv(CollectStale(ss, alive))
    ensures forall u: string, q :: OnTable(ss, u, q) && q in alive ==> OnTable(CollectStale(ss, alive), u, q)
  {
    var ss' := CollectStale(ss, alive);
    forall i | 0 <= i < |ss'| && ss'[i].username != "" ensures ss'[i].inUse {
      assert ss'[i] == Sweep(ss[i], alive);
    }
    forall u: string, q | OnTable(ss, u, q) && q in alive ensures OnTable(ss', u, q) {
      var k :| 0 <= k < |ss| && ss[k] == Session(u, q, true);
      assert ss'[k] == Sweep(ss[k], alive);
    }
  }

  /** While a session of `user` is on the table a look-up finds the user online. */
  lemma LookUpSeesSession(ss: seq<Session>, user: string, p: Pid)
    requires SessionsInv(ss) && ValidName(user) && OnTable(ss, user, p)
    ensures FindSession(ss, user).Some? && FindSession(ss, user).value.1
  {
    var k :| 0 <= k < |ss| && ss[k] == Session(user, p, true);
    assert SessionOf(ss, user) <= k;
  }

  // ---------------------------------------------------------------- one step

  /** Steps that leave the records and logins alone and add no request keep what holds of the requests. */
  lemma EntryFrame(s: State, s': State)
    requires forall e :: e in s.table.entries && e.status.Pending? ==> EntryInv(s, e)
    requires s'.sent == s.sent && s'.logins == s.logins
    requires forall e :: e in s'.table.entries && e.status.Pending? ==> e in s.table.entries
    ensures forall e :: e in s'.table.entries && e.status.Pending? ==> EntryInv(s', e)
  {
    forall e | e in s'.table.entries && e.status.Pending? ensures EntryInv(s', e) {
      assert EntryInv(s, e);
    }
  }

  /** Steps that only end look-ups and processes, or change the session table, keep the invariant. */
  lemma FrameKeeps(s: State, s': State)
    requires Inv(s) && s'.sent == s.sent && s'.logins == s.logins && s'.clock >= s.clock
    requires WellFormed(s'.table) && s'.table.nextId == s.table.nextId
    requires forall e :: e in s'.table.entries && e.status.Pending? ==> e in s.table.entries
    requires forall q :: q in s'.looks ==> q in s.looks && s'.looks[q] == s.looks[q]
    requires forall p :: p in s'.logins && p in s'.alive ==> p in s.alive && Known(s'.sessions, s'.logins[p], p)
    requires SessionsInv(s'.sessions)
    ensures Inv(s')
  {
    EntryFrame(s, s');
    forall p, q | p in s'.logins && p in s'.alive && q in s'.looks
      ensures LookInv(s'.looks[q], s'.logins[p], s'.clock) {
      assert LookInv(s.looks[q], s.logins[p], s.clock);
    }
    forall p, id | p in s'.logins && p in s'.alive && id in s'.sent
      ensures LookInv(s'.sent[id].look, s'.logins[p], s'.clock) {
      assert LookInv(s.sent[id].look, s.logins[p], s.clock);
    }
    forall id | id in s'.sent ensures RecordInv(s'.table, id, s'.sent[id], s'.clock) {
      assert RecordInv(s.table, id, s.sent[id], s.clock);
    }
  }

  lemma IdleKeeps(s: State)
    requires Inv(s)
    ensures Inv(s.(clock := s.clock + 1))
  {
    FrameKeeps(s, s.(clock := s.clock + 1));
  }

  lemma RegisterKeeps(s: State, p: Pid, user: string)
    requires Inv(s)
    ensures Inv(Step(s, Register(p, user)))
  {
    RegisterStep(s, p, user);
    if Registers(s, p, user) {
      AddSessionKeeps(s.sessions, user, p);
      var (ss, r) := AddSession(s.sessions, user, p);
      NewLoginKeeps(s, p, user, r.Ok?, ss);
    } else {
      IdleKeeps(s);
    }
  }

  predicate Registers(s: State, p: Pid, user: string) {
    p in s.alive && p !in s.logins && ValidName(user)
  }

  /** What the step is, apart from the invariant. */
  lemma RegisterStep(s: State, p: Pid, user: string)
    ensures Step(s, Register(p, user)) ==
      if Registers(s, p, user) then
        var (ss, r) := AddSession(s.sessions, user, p);
        s.(sessions := ss, logins := s.logins[p := Registered(user, r.Ok?, s.clock)], clock := s.clock + 1)
      else s.(clock := s.clock + 1)
  {
  }

  lemma NewLoginKeeps(s: State, p: Pid, user: string, listed: bool, ss: seq<Session>)
    requires Inv(s) && p !in s.logins && ValidName(user) && SessionsInv(ss)
    requires listed ==> OnTable(ss, user, p)
    requires forall u: string, q :: OnTable(s.sessions, u, q) ==> OnTable(ss, u, q)
    ensures Inv(s.(sessions := ss, logins := s.logins[p := Registered(user, listed, s.clock)], clock := s.clock + 1))
  {
    var s' := s.(sessions := ss, logins := s.logins[p := Registered(user, listed, s.clock)], clock := s.clock + 1);
    forall e | e in s'.table.entries && e.status.Pending? ensures EntryInv(s', e) {
      assert EntryInv(s, e);
    }
  }

  lemma ScanKeeps(s: State, p: Pid)
    requires Inv(s)
    ensures Inv(Step(s, Scan(p)))
  {
    ScanStep(s, p);
    if p in s.alive && p in s.logins && s.logins[p].Registered? {
      ScanLists(s.table, s.logins[p].user);
      ReportKeeps(s, p, ForDest(s.table, s.logins[p].user, MAX_ENTRIES));
    } else {
      IdleKeeps(s);
    }
  }

  /** What the step is, apart from the invariant. */
  lemma ScanStep(s: State, p: Pid)
    ensures Step(s, Scan(p)) ==
      if p in s.alive && p in s.logins && s.logins[p].Registered? then
        var l := s.logins[p];
        var out := ForDest(s.table, l.user, MAX_ENTRIES);
        s.(logins := s.logins[p := Scanned(l.user, l.listed, l.at, s.clock, out)], clock := s.clock + 1)
      else s.(clock := s.clock + 1)
  {
  }

  lemma ReportKeeps(s: State, p: Pid, reported: seq<Request>)
    requires Inv(s) && p in s.alive && p in s.logins && s.logins[p].Registered?
    requires forall e :: e in s.table.entries && WaitsFor(e, s.logins[p].user) ==> Listed(reported, e.id)
    requires forall id :: Listed(reported, id) ==> 0 < id < s.table.nextId
    ensures var l := Scanned(s.logins[p].user, s.logins[p].listed, s.logins[p].at, s.clock, reported);
      Inv(s.(logins := s.logins[p := l], clock := s.clock + 1))
  {
    var l := Scanned(s.logins[p].user, s.logins[p].listed, s.logins[p].at, s.clock, reported);
    var s' := s.(logins := s.logins[p := l], clock := s.clock + 1);
    forall e | e in s'.table.entries && e.status.Pending? ensures EntryInv(s', e) {
      assert EntryInv(s, e);
      assert RecordInv(s.table, e.id, s.sent[e.id], s.clock);
    }
    forall q | q in s'.looks ensures LookInv(s'.looks[q], l, s'.clock) {
      assert LookInv(s.looks[q], s.logins[p], s.clock);
    }
    forall id | id in s'.sent ensures LookInv(s'.sent[id].look, l, s'.clock) {
      assert LookInv(s.sent[id].look, s.logins[p], s.clock);
    }
  }

  /** The scan of the table lists exactly the requests that wait for the user. */
  lemma ScanLists(t: Table, user: string)
    requires WellFormed(t)
    ensures var out := ForDest(t, user, MAX_ENTRIES);
      && (forall e :: e in t.entries && WaitsFor(e, user) ==> Listed(out, e.id))
      && (forall id :: Listed(out, id) ==> 0 < id < t.nextId)
  {
    TableRefinement.ForDestRefines(t, user);
    TableRefinement.WaitingContents(t.entries, user);
    var out := ForDest(t, user, MAX_ENTRIES);
    forall e | e in t.entries && WaitsFor(e, user) ensures Listed(out, e.id) {
      assert e in out;
    }
    forall id | Listed(out, id) ensures 0 < id < t.nextId {
      var i :| 0 <= i < |out| && out[i].id == id;
      assert out[i] in out;
    }
  }

  lemma LookUpKeeps(s: State, p: Pid, user: string, dest: string, account: bool)
    requires Inv(s)
    ensures Inv(Step(s, LookUp(p, user, dest, account)))
  {
    var s' := Step(s, LookUp(p, user, dest, account));
    if s'.looks == s.looks {
      assert s' == s.(clock := s.clock + 1);
      IdleKeeps(s);
    } else {
      var look := s'.looks[p];
      forall q | q in s.logins && q in s.alive ensures LookInv(look, s.logins[q], s'.clock) {
        if s.logins[q].user == dest && s.logins[q].listed {
          LookUpSeesSession(s.sessions, dest, q);
        }
      }
      EntryFrame(s, s');
    }
  }

  lemma AddKeepsInv(s: State, p: Pid, user: string, path: string)
    requires Inv(s)
    ensures Inv(Step(s, AddRequest(p, user, path)))
  {
    if p !in s.alive || p !in s.looks {
      IdleKeeps(s);
    } else {
      var look := s.looks[p];
      var (t, r) := Add(s.table, user, look.dest, path);
      AddKeeps(s.table, user, look.dest, path);
      AddStep(s, p, user, path);
      if r.Ok? {
        NewRecordKeeps(s, p, t, NewRequest(r.value, user, look.dest, path));
      } else {
        ForgetLookKeeps(s, p);
      }
    }
  }

  /** What the step is, apart from the invariant. */
  lemma AddStep(s: State, p: Pid, user: string, path: string)
    requires p in s.alive && p in s.looks
    ensures var look := s.looks[p];
      var (t, r) := Add(s.table, user, look.dest, path);
      var s' := Step(s, AddRequest(p, user, path));
      && (r.Err? ==> s' == s.(looks := s.looks - {p}, clock := s.clock + 1))
      && (r.Ok? ==> s' == s.(table := t, looks := s.looks - {p}, clock := s.clock + 1,
            sent := s.sent[r.value := Record(p, look, s.clock, if look.found.Some? then Due else NotWanted)]))
  {
  }

  lemma ForgetLookKeeps(s: State, p: Pid)
    requires Inv(s)
    ensures Inv(s.(looks := s.looks - {p}, clock := s.clock + 1))
  {
    FrameKeeps(s, s.(looks := s.looks - {p}, clock := s.clock + 1));
  }

  lemma NewRecordKeeps(s: State, p: Pid, t: Table, added: Request)
    requires Inv(s) && p in s.looks && WellFormed(t) && t.nextId == s.table.nextId + 1
    requires added.id == s.table.nextId && added.dest == s.looks[p].dest
    requires forall e :: e in t.entries ==> e == added || e in s.table.entries
    ensures var look := s.looks[p];
      Inv(s.(table := t, looks := s.looks - {p}, clock := s.clock + 1,
        sent := s.sent[added.id := Record(p, look, s.clock, if look.found.Some? then Due else NotWanted)]))
  {
    var look := s.looks[p];
    var r := Record(p, look, s.clock, if look.found.Some? then Due else NotWanted);
    var s' := s.(table := t, looks := s.looks - {p}, clock := s.clock + 1, sent := s.sent[added.id := r]);
    forall e | e in s'.table.entries && e.status.Pending? ensures EntryInv(s', e) {
      if e != added {
        assert EntryInv(s, e);
      }
    }
    forall id | id in s'.sent ensures RecordInv(s'.table, id, s'.sent[id], s'.clock) {
      if id != added.id {
        assert RecordInv(s.table, id, s.sent[id], s.clock);
      }
    }
    forall q, id | q in s'.logins && q in s'.alive && id in s'.sent
      ensures LookInv(s'.sent[id].look, s'.logins[q], s'.clock) {
      if id != added.id {
        assert LookInv(s.sent[id].look, s.logins[q], s.clock);
      } else {
        assert LookInv(look, s.logins[q], s.clock);
      }
    }
  }

  /** Only the fate of some REQ messages changes. */
  lemma SignalsKeep(s: State, sent: map<int, Record>)
    requires Inv(s) && sent.Keys == s.sent.Keys
    requires forall id :: id in sent ==>
      && sent[id].look == s.sent[id].look && sent[id].addedAt == s.sent[id].addedAt
      && (sent[id].signal.NotWanted? <==> s.sent[id].signal.NotWanted?)
    ensures Inv(s.(sent := sent))
  {
    var s' := s.(sent := sent);
    forall e | e in s'.table.entries && e.status.Pending? ensures EntryInv(s', e) {
      assert EntryInv(s, e);
    }
    forall id | id in sent ensures RecordInv(s.table, id, sent[id], s.clock) {
      assert RecordInv(s.table, id, s.sent[id], s.clock);
    }
    forall p, id | p in s.logins && p in s.alive && id in sent ensures LookInv(sent[id].look, s.logins[p], s.clock) {
      assert LookInv(s.sent[id].look, s.logins[p], s.clock);
    }
  }

  lemma SignalledKeeps(s: State, sent: map<int, Record>)
    requires Inv(s) && sent.Keys == s.sent.Keys
    requires forall id :: id in sent ==>
      && sent[id].look == s.sent[id].look && sent[id].addedAt == s.sent[id].addedAt
      && (sent[id].signal.NotWanted? <==> s.sent[id].signal.NotWanted?)
    ensures Inv(s.(sent := sent, clock := s.clock + 1))
  {
    hide Inv;
    SignalsKeep(s, sent);
    IdleKeeps(s.(sent := sent));
  }

  lemma SignalKeeps(s: State, p: Pid, id: int)
    requires Inv(s)
    ensures Inv(Step(s, SignalDest(p, id)))
  {
    hide Inv;
    SignalStep(s, p, id);
    if Signals(s, p, id) {
      SignalledKeeps(s, s.sent[id := s.sent[id].(signal := Written(s, id))]);
    } else {
      IdleKeeps(s);
    }
  }

  predicate Signals(s: State, p: Pid, id: int) {
    p in s.alive && id in s.sent && s.sent[id].owner == p && s.sent[id].signal.Due?
  }

  /** What the step is, apart from the invariant. */
  lemma SignalStep(s: State, p: Pid, id: int)
    ensures Step(s, SignalDest(p, id)) ==
      if Signals(s, p, id) then
        s.(sent := s.sent[id := s.sent[id].(signal := Written(s, id))], clock := s.clock + 1)
      else s.(clock := s.clock + 1)
  {
  }

  /** A step of the table that neither adds nor revives a request. */
  lemma ShrinkKeeps(s: State, t: Table)
    requires Inv(s) && WellFormed(t) && t.nextId == s.table.nextId
    requires forall e :: e in t.entries && e.status.Pending? ==> e in s.table.entries
    ensures Inv(s.(table := t, clock := s.clock + 1))
  {
    FrameKeeps(s, s.(table := t, clock := s.clock + 1));
  }

  lemma AnswerKeeps(s: State, id: int, user: string, to: Status)
    requires Inv(s)
    ensures Inv(Step(s, Answer(id, user, to)))
  {
    AnswerStep(s, id, user, to);
    if id <= 0 || to.Pending? {
      IdleKeeps(s);
    } else {
      TakeKeeps(s.table, id, user, to);
      ShrinkKeeps(s, Take(s.table, id, user, to).0);
    }
  }

  /** What the step is, apart from the invariant. */
  lemma AnswerStep(s: State, id: int, user: string, to: Status)
    ensures Step(s, Answer(id, user, to)) ==
      if id <= 0 || to.Pending? then s.(clock := s.clock + 1)
      else s.(table := Take(s.table, id, user, to).0, clock := s.clock + 1)
  {
  }

  lemma LeaveKeeps(s: State, p: Pid)
    requires Inv(s)
    ensures Inv(Leave(s, p))
  {
    SignalsKeep(s, Leave(s, p).sent);
    FrameKeeps(s.(sent := Leave(s, p).sent), Leave(s, p));
  }

  lemma DisconnectKeeps(s: State, p: Pid, user: string)
    requires Inv(s)
    ensures Inv(Step(s, Disconnect(p, user)))
  {
    DisconnectStep(s, p, user);
    if p !in s.alive {
      IdleKeeps(s);
    } else {
      LeaveAndFailKeeps(s, p, user);
    }
  }

  lemma LeaveAndFailKeeps(s: State, p: Pid, user: string)
    requires Inv(s)
    ensures var l := Leave(s, p);
      Inv(l.(table := FailSent(l.table, user), clock := l.clock + 1))
  {
    LeaveKeeps(s, p);
    FailKeeps(Leave(s, p), user);
  }

  lemma FailKeeps(s: State, user: string)
    requires Inv(s)
    ensures Inv(s.(table := FailSent(s.table, user), clock := s.clock + 1))
  {
    FailSentKeeps(s.table, user);
    FailedWereListed(s.table, user);
    ShrinkKeeps(s, FailSent(s.table, user));
  }

  /** What the step is, apart from the invariant. */
  lemma DisconnectStep(s: State, p: Pid, user: string)
    ensures var l := Leave(s, p);
      Step(s, Disconnect(p, user)) ==
        if p in s.alive then l.(table := FailSent(l.table, user), clock := l.clock + 1) else s.(clock := s.clock + 1)
  {
  }

  lemma FailedWereListed(t: Table, user: string)
    ensures forall e :: e in FailSent(t, user).entries && e.status.Pending? ==> e in t.entries
  {
    var es := FailSent(t, user).entries;
    forall e | e in es && e.status.Pending? ensures e in t.entries {
      var i :| 0 <= i < |es| && es[i] == e;
      assert es[i] == FailSlot(t.entries[i], user);
    }
  }

  lemma StepKeepsInv(s: State, a: Action)
    requires Inv(s)
    ensures Inv(Step(s, a))
  {
    match a
    case Connect(p) => ConnectKeeps(s, p);
    case Register(p, user) => RegisterKeeps(s, p, user);
    case Scan(p) => ScanKeeps(s, p);
    case LookUp(p, user, dest, account) => LookUpKeeps(s, p, user, dest, account);
    case AddRequest(p, user, path) => AddKeepsInv(s, p, user, path);
    case SignalDest(p, id) => SignalKeeps(s, p, id);
    case Answer(id, user, to) => AnswerKeeps(s, id, user, to);
    case Disconnect(p, user) => DisconnectKeeps(s, p, user);
    case Dies(p) => DiesKeeps(s, p);
    case Collect => CollectStepKeeps(s);
  }

  lemma ConnectKeeps(s: State, p: Pid)
    requires Inv(s)
    ensures Inv(Step(s, Connect(p)))
  {
    FrameKeeps(s, Step(s, Connect(p)));
  }

  lemma DiesKeeps(s: State, p: Pid)
    requires Inv(s)
    ensures Inv(Step(s, Dies(p)))
  {
    hide Inv;
    LeaveKeeps(s, p);
    IdleKeeps(Leave(s, p));
    assert Step(s, Dies(p)) == Leave(s, p).(clock := s.clock + 1);
  }

  lemma CollectStepKeeps(s: State)
    requires Inv(s)
    ensures Inv(Step(s, Collect))
  {
    CollectKeeps(s.sessions, s.alive);
    FrameKeeps(s, Step(s, Collect));
  }

  lemma {:induction false} RunKeepsInv(acts: seq<Action>)
    ensures Inv(Exec(acts))
  {
    if acts != [] {
      RunKeepsInv(acts[..|acts| - 1]);
      StepKeepsInv(Exec(acts[..|acts| - 1]), acts[|acts| - 1]);
    }
  }

  // ---------------------------------------------------------------- results over all runs

  /** What a run has done for the pending request `id` and the login of process `p`. */
  ghost predicate Reported(s: State, p: Pid, id: int)
    requires p in s.logins && s.logins[p].Scanned?
  {
    Listed(s.logins[p].reported, id)
  }

  /** A REQ message for the request was written to this very session, or still will be. */
  predicate MessageFor(r: Record, p: Pid) {
    r.look.found == Some(p) && (r.signal.Due? || r.signal.Sent?)
  }

  /** The slot of `p` is the first that bears the user's name. */
  ghost predicate FirstSlot(ss: seq<Session>, user: string, p: Pid) {
    exists i :: 0 <= i < |ss| && ss[i] == Session(user, p, true) && forall k :: 0 <= k < i ==> ss[k].username != user
  }

  lemma FirstSlotIsFound(ss: seq<Session>, user: string, p: Pid)
    requires SessionsInv(ss) && user != ""
    ensures OnlineSession(ss, user) == Some(p) <==> FirstSlot(ss, user, p)
  {
    var i := SessionOf(ss, user);
    if i < |ss| && ss[i].pid == p {
      assert ss[i] == Session(user, p, true);
    }
  }

  /**
    Who hears of a request. Take any run, a session of user u that has scanned at its login and
    still lives, and a pending request for u. The session gets neither a REQ message nor a line of
    the scan exactly when the request-add came after the scan and either the sender was gone before
    its signal or, when the sender looked, the session's slot was not the first with the name.
    That happens for two reasons: the session was not registered yet, and then registration and
    scan both lie between look-up and add; or the message went to another session of the user.
  */
  lemma WindowOnly(acts: seq<Action>, p: Pid, e: Request)
    requires var s := Exec(acts);
      && p in s.logins && p in s.alive && s.logins[p].Scanned?
      && e in s.table.entries && WaitsFor(e, s.logins[p].user)
    ensures var s := Exec(acts);
      && e.id in s.sent && s.sent[e.id].look.at < |acts|
      && var l, r := s.logins[p], s.sent[e.id];
        var first := FirstSlot(Exec(acts[..r.look.at]).sessions, l.user, p);
        && (!Reported(s, p, e.id) && !MessageFor(r, p) <==> l.scanAt < r.addedAt && (r.signal.SenderGone? || !first))
        && (!Reported(s, p, e.id) && !first && l.listed ==>
              || r.look.at < l.at < l.scanAt < r.addedAt
              || (r.look.found.Some? && AnotherSession(s, r.look.found.value, p)))
        && (r.signal.SenderGone? ==> r.look.found.Some?)
  {
    hide Exec, Step;
    RunKeepsInv(acts);
    RunRecalls(acts);
    RunKeepsPids(acts);
    var s := Exec(acts);
    assert EntryInv(s, e);
    assert ScanInv(e, s.sent[e.id], s.logins[p]);
    assert LookInv(s.sent[e.id].look, s.logins[p], s.clock);
    RunKeepsInv(acts[..s.sent[e.id].look.at]);
    FirstSlotIsFound(Exec(acts[..s.sent[e.id].look.at]).sessions, s.logins[p].user, p);
  }

  /** `o` is a session of the same user as `p`, alive or not. */
  predicate AnotherSession(s: State, o: Pid, p: Pid)
    requires p in s.logins
  {
    o != p && o in s.logins && s.logins[o].user == s.logins[p].user
  }

  // ---------------------------------------------------------------- what a look-up saw, and of whom

  /** What the sender learned is what the table said when it looked. */
  ghost predicate Recalled(acts: seq<Action>, look: Look) {
    look.at < |acts| && look.found == OnlineSession(Exec(acts[..look.at]).sessions, look.dest)
  }

  ghost predicate Recalls(acts: seq<Action>) {
    var s := Exec(acts);
    && s.clock == |acts|
    && (forall q :: q in s.looks ==> Recalled(acts, s.looks[q]))
    && (forall id :: id in s.sent ==> Recalled(acts, s.sent[id].look))
  }

  /** Look-ups are kept as they were made. */
  lemma LooksComeFrom(s: State, a: Action)
    ensures var s' := Step(s, a);
      && s'.clock == s.clock + 1
      && (forall q :: q in s'.looks ==>
            || (q in s.looks && s'.looks[q] == s.looks[q])
            || (s'.looks[q].at == s.clock && s'.looks[q].found == OnlineSession(s.sessions, s'.looks[q].dest)))
      && (forall id :: id in s'.sent ==>
            || (id in s.sent && s'.sent[id].look == s.sent[id].look)
            || (exists q :: q in s.looks && s'.sent[id].look == s.looks[q]))
  {
  }

  lemma RecalledLonger(acts: seq<Action>, a: Action, look: Look)
    requires Recalled(acts, look)
    ensures Recalled(acts + [a], look)
  {
    assert (acts + [a])[..look.at] == acts[..look.at];
  }

  lemma {:induction false} RunRecalls(acts: seq<Action>)
    ensures Recalls(acts)
  {
    if acts != [] {
      var init, last := acts[..|acts| - 1], acts[|acts| - 1];
      RunRecalls(init);
      assert acts == init + [last];
      StepRecalls(init, last);
    }
  }

  lemma StepRecalls(init: seq<Action>, last: Action)
    requires Recalls(init)
    ensures Recalls(init + [last])
  {
    var s, s' := Exec(init), Step(Exec(init), last);
    ExecOneMore(init, last);
    LooksComeFrom(s, last);
    forall q | q in s'.looks ensures Recalled(init + [last], s'.looks[q]) {
      if q in s.looks && s'.looks[q] == s.looks[q] {
        RecalledLonger(init, last, s.looks[q]);
      }
    }
    forall id | id in s'.sent ensures Recalled(init + [last], s'.sent[id].look) {
      if id in s.sent && s'.sent[id].look == s.sent[id].look {
        RecalledLonger(init, last, s.sent[id].look);
      } else {
        var q :| q in s.looks && s'.sent[id].look == s.looks[q];
        RecalledLonger(init, last, s.looks[q]);
      }
    }
  }

  /** What was found is a session of the user. */
  ghost predicate FoundInv(logins: map<Pid, Login>, look: Look) {
    look.found.Some? ==> look.found.value in logins && logins[look.found.value].user == look.dest
  }

  ghost predicate SlotsInv(ss: seq<Session>, logins: map<Pid, Login>) {
    forall u: string, q :: OnTable(ss, u, q) ==> q in logins && logins[q].user == u
  }

  ghost predicate PidsInv(s: State) {
    && SlotsInv(s.sessions, s.logins)
    && (forall q :: q in s.looks ==> FoundInv(s.logins, s.looks[q]))
    && (forall id :: id in s.sent ==> FoundInv(s.logins, s.sent[id].look))
    && (forall id :: id in s.sent && s.sent[id].signal.Undelivered? ==>
          s.sent[id].look.found.Some? && s.sent[id].look.found.value !in s.alive)
  }

  lemma SlotsAfterAdd(ss: seq<Session>, user: string, p: Pid, u: string, q: Pid)
    requires ValidName(user) && OnTable(AddSession(ss, user, p).0, u, q)
    ensures OnTable(ss, u, q) || (AddSession(ss, user, p).1.Ok? && u == user && q == p)
  {
    var (ss', r) := AddSession(ss, user, p);
    var k :| 0 <= k < |ss'| && ss'[k] == Session(u, q, true);
    if k < |ss| && ss'[k] == ss[k] {
      assert ss[k] in ss;
    }
  }

  lemma SlotsAfterCollect(ss: seq<Session>, alive: set<Pid>, u: string, q: Pid)
    requires OnTable(CollectStale(ss, alive), u, q)
    ensures OnTable(ss, u, q)
  {
    var ss' := CollectStale(ss, alive);
    var k :| 0 <= k < |ss'| && ss'[k] == Session(u, q, true);
    assert ss'[k] == Sweep(ss[k], alive) && ss[k] in ss;
  }

  lemma OnlineIsOnTable(ss: seq<Session>, user: string)
    ensures OnlineSession(ss, user).Some? ==> OnTable(ss, user, OnlineSession(ss, user).value)
  {
    var i := SessionOf(ss, user);
    if i < |ss| && ss[i].inUse {
      assert ss[i] == Session(user, ss[i].pid, true);
    }
  }

  lemma RegisterKeepsPids(s: State, p: Pid, user: string)
    requires PidsInv(s)
    ensures PidsInv(Step(s, Register(p, user)))
  {
    RegisterStep(s, p, user);
    if Registers(s, p, user) {
      var s' := Step(s, Register(p, user));
      forall u: string, q | OnTable(s'.sessions, u, q) ensures q in s'.logins && s'.logins[q].user == u {
        SlotsAfterAdd(s.sessions, user, p, u, q);
      }
    }
  }

  lemma LookUpKeepsPids(s: State, p: Pid, user: string, dest: string, account: bool)
    requires PidsInv(s)
    ensures PidsInv(Step(s, LookUp(p, user, dest, account)))
  {
    OnlineIsOnTable(s.sessions, dest);
  }

  lemma CollectKeepsPids(s: State)
    requires PidsInv(s)
    ensures PidsInv(Step(s, Collect))
  {
    var s' := Step(s, Collect);
    forall u: string, q | OnTable(s'.sessions, u, q) ensures q in s'.logins && s'.logins[q].user == u {
      SlotsAfterCollect(s.sessions, s.alive, u, q);
    }
  }

  lemma AddKeepsPids(s: State, p: Pid, user: string, path: string)
    requires PidsInv(s)
    ensures PidsInv(Step(s, AddRequest(p, user, path)))
  {
    if p in s.alive && p in s.looks {
      AddStep(s, p, user, path);
    }
  }

  lemma SignalKeepsPids(s: State, p: Pid, id: int)
    requires PidsInv(s) && (id in s.sent ==> RecordInv(s.table, id, s.sent[id], s.clock))
    ensures PidsInv(Step(s, SignalDest(p, id)))
  {
    SignalStep(s, p, id);
  }

  /** The other steps find no session and write to none. */
  lemma OtherStepKeepsPids(s: State, a: Action)
    requires PidsInv(s) && (a.Connect? || a.Scan? || a.Answer? || a.Disconnect? || a.Dies?)
    ensures PidsInv(Step(s, a))
  {
    match a
    case Connect(_) =>
    case Scan(p) => ScanStep(s, p);
    case Answer(id, user, to) => AnswerStep(s, id, user, to);
    case Disconnect(p, user) => DisconnectStep(s, p, user);
    case Dies(_) =>
  }

  lemma StepKeepsPids(s: State, a: Action)
    requires Inv(s) && PidsInv(s)
    ensures PidsInv(Step(s, a))
  {
    match a
    case Register(p, user) => RegisterKeepsPids(s, p, user);
    case LookUp(p, user, dest, account) => LookUpKeepsPids(s, p, user, dest, account);
    case AddRequest(p, user, path) => AddKeepsPids(s, p, user, path);
    case SignalDest(p, id) => SignalKeepsPids(s, p, id);
    case Collect => CollectKeepsPids(s);
    case _ => OtherStepKeepsPids(s, a);
  }

  lemma {:induction false} RunKeepsPids(acts: seq<Action>)
    ensures PidsInv(Exec(acts))
  {
    if acts != [] {
      RunKeepsInv(acts[..|acts| - 1]);
      RunKeepsPids(acts[..|acts| - 1]);
      StepKeepsPids(Exec(acts[..|acts| - 1]), acts[|acts| - 1]);
    }
  }

  /** A sender that is killed behind its request-add leaves the request unsignalled for good. */
  lemma {:induction false} DeadSenderNeverSignals(acts: seq<Action>, more: seq<Action>, p: Pid, id: int)
    requires id in Exec(acts).sent && Exec(acts).sent[id].owner == p && Exec(acts).sent[id].signal.Due?
    ensures id in Exec(acts + [Dies(p)] + more).sent && Exec(acts + [Dies(p)] + more).sent[id].signal.SenderGone?
  {
    var dead := acts + [Dies(p)];
    ExecOneMore(acts, Dies(p));
    if more == [] {
      assert dead + more == dead;
    } else {
      var init, last := dead + more[..|more| - 1], more[|more| - 1];
      DeadSenderNeverSignals(acts, more[..|more| - 1], p, id);
      RunKeepsInv(init);
      GoneStays(Exec(init), last, id);
      LastApart(dead, more);
      ExecOneMore(init, last);
    }
  }

  lemma GoneStays(s: State, a: Action, id: int)
    requires Inv(s) && id in s.sent && s.sent[id].signal.SenderGone?
    ensures id in Step(s, a).sent && Step(s, a).sent[id].signal.SenderGone?
  {
    assert RecordInv(s.table, id, s.sent[id], s.clock);
  }

  /**
    The first slot decides: while another session of the user holds it, alive or killed and not
    collected, a request sent now leaves a session that has scanned without message or line.
  */
  lemma TwinTakesMessage(acts: seq<Action>, p: Pid, o: Pid, q: Pid, user: string, path: string)
    requires var s := Exec(acts);
      && p in s.logins && p in s.alive && s.logins[p].Scanned? && AnotherSession(s, o, p)
      && OnlineSession(s.sessions, s.logins[p].user) == Some(o)
      && q in s.alive && q !in s.looks && Add(s.table, user, s.logins[p].user, path).1.Ok?
    ensures var s, dest := Exec(acts), Exec(acts).logins[p].user;
      var id := s.table.nextId;
      var s' := Exec(acts + [LookUp(q, user, dest, true), AddRequest(q, user, path), SignalDest(q, id)]);
      && p in s'.alive && p in s'.logins && s'.logins[p] == s.logins[p]
      && NewRequest(id, user, dest, path) in s'.table.entries && id in s'.sent
      && !Reported(s', p, id) && !MessageFor(s'.sent[id], p)
      && s'.sent[id].signal == (if o in s.alive then Sent else Undelivered)
  {
    RunKeepsInv(acts);
    var s, dest := Exec(acts), Exec(acts).logins[p].user;
    var id := s.table.nextId;
    var look, add, tell := LookUp(q, user, dest, true), AddRequest(q, user, path), SignalDest(q, id);
    assert acts + [look, add, tell] == acts + [look] + [add] + [tell];
    ExecOneMore(acts, look);
    ExecOneMore(acts + [look], add);
    ExecOneMore(acts + [look] + [add], tell);
    RequestGoesTo(s, o, q, user, dest, path);
    assert !Listed(s.logins[p].reported, id);
  }

  /** The three steps of a sender, undisturbed. */
  lemma RequestGoesTo(s: State, o: Pid, q: Pid, user: string, dest: string, path: string)
    requires OnlineSession(s.sessions, dest) == Some(o) && ValidDest(dest)
    requires q in s.alive && q !in s.looks && Add(s.table, user, dest, path).1.Ok?
    ensures var id := s.table.nextId;
      var s' := Step(Step(Step(s, LookUp(q, user, dest, true)), AddRequest(q, user, path)), SignalDest(q, id));
      && s'.alive == s.alive && s'.logins == s.logins && s'.table == Add(s.table, user, dest, path).0
      && NewRequest(id, user, dest, path) in s'.table.entries
      && id in s'.sent && s'.sent[id].look.found == Some(o)
      && s'.sent[id].signal == (if o in s.alive then Sent else Undelivered)
  {
    var s1 := Step(s, LookUp(q, user, dest, true));
    assert s1 == s.(looks := s.looks[q := Look(dest, Some(o), s.clock)], clock := s.clock + 1);
    AddStep(s1, q, user, path);
    SignalStep(Step(s1, AddRequest(q, user, path)), q, s.table.nextId);
    var t := Add(s.table, user, dest, path).0;
    assert t.entries[FirstFree(s.table.entries)] == NewRequest(s.table.nextId, user, dest, path);
  }

  /** Such runs: bob logs in twice, the second session scans, and the first lives on or is killed. */
  lemma TwinsLogIn(killed: bool) returns (acts: seq<Action>)
    ensures var s := Exec(acts);
      && 2 in s.logins && s.logins[2].Scanned? && s.logins[2].user == "bob" && AnotherSession(s, 3, 2)
      && OnlineSession(s.sessions, "bob") == Some(3) && s.alive == (if killed then {1, 2} else {1, 2, 3})
      && s.looks == map[] && s.table == EMPTY
  {
    acts := TwinsRegister();
    ExecOneMore(acts, Scan(2));
    ScanStep(Exec(acts), 2);
    acts := acts + [Scan(2)];
    if killed {
      ExecOneMore(acts, Dies(3));
      acts := acts + [Dies(3)];
    }
  }

  lemma ThreeConnect() returns (acts: seq<Action>)
    ensures Exec(acts) == State([], EMPTY, {1, 2, 3}, map[], map[], map[], 3)
  {
    acts := [];
    ExecOneMore(acts, Connect(1));
    acts := acts + [Connect(1)];
    ExecOneMore(acts, Connect(2));
    acts := acts + [Connect(2)];
    ExecOneMore(acts, Connect(3));
    acts := acts + [Connect(3)];
    assert Exec(acts).alive == {1, 2, 3};
  }

  lemma TwinSlots()
    ensures AddSession([], "bob", 3) == ([Session("bob", 3, true)], Ok(()))
    ensures AddSession([Session("bob", 3, true)], "bob", 2)
      == ([Session("bob", 3, true), Session("bob", 2, true)], Ok(()))
  {
    var one := [Session("bob", 3, true)];
    assert FirstVacant(one) == 1 && Fit("bob", USER_SIZE) == "bob";
    assert one + [Session("bob", 2, true)] == [Session("bob", 3, true), Session("bob", 2, true)];
    assert [] + one == one;
  }

  lemma TwinsRegister() returns (acts: seq<Action>)
    ensures var s := Exec(acts);
      && s.sessions == [Session("bob", 3, true), Session("bob", 2, true)] && s.alive == {1, 2, 3}
      && s.looks == map[] && s.table == EMPTY && s.logins.Keys == {2, 3}
      && s.logins[2].Registered? && s.logins[2].user == "bob" && s.logins[3].user == "bob"
  {
    hide Exec, Step;
    TwinSlots();
    acts := ThreeConnect();
    ExecOneMore(acts, Register(3, "bob"));
    RegisterStep(Exec(acts), 3, "bob");
    acts := acts + [Register(3, "bob")];
    var one := map[3 := Registered("bob", true, 3)];
    assert Exec(acts) == State([Session("bob", 3, true)], EMPTY, {1, 2, 3}, map[], map[], one, 4);
    ExecOneMore(acts, Register(2, "bob"));
    RegisterStep(Exec(acts), 2, "bob");
    acts := acts + [Register(2, "bob")];
    assert Exec(acts).logins == one[2 := Registered("bob", true, 4)];
  }

  const LOST_RUN: seq<Action> :=
    [Connect(1), Connect(2), LookUp(1, "ann", "bob", true), Register(2, "bob"), Scan(2), AddRequest(1, "ann", "/f")]

  function Play(s: State, acts: seq<Action>): State
    decreases |acts|
  {
    if acts == [] then s else Play(Step(s, acts[0]), acts[1..])
  }

  lemma {:induction false} PlayIsExec(done: seq<Action>, acts: seq<Action>)
    ensures Play(Exec(done), acts) == Exec(done + acts)
    decreases |acts|
  {
    if acts == [] {
      assert done + acts == done;
    } else {
      ExecOneMore(done, acts[0]);
      PlayIsExec(done + [acts[0]], acts[1..]);
      assert done + [acts[0]] + acts[1..] == done + acts;
    }
  }

  /** The window is real: bob logs in between ann's look-up and request-add and hears nothing. */
  lemma WindowLosesRequest()
    ensures Exec(LOST_RUN) == State(
      [Session("bob", 2, true)], Table([Request(1, "ann", "bob", "/f", Pending)], 2), {1, 2}, map[],
      map[1 := Record(1, Look("bob", None, 2), 5, NotWanted)], map[2 := Scanned("bob", true, 3, 4, [])], 6)
  {
    var looked := State([], EMPTY, {1, 2}, map[1 := Look("bob", None, 2)], map[], map[], 3);
    var looking := Step(Step(INIT, LOST_RUN[0]), LOST_RUN[1]);
    assert looking == State([], EMPTY, {1, 2}, map[], map[], map[], 2);
    assert Step(looking, LOST_RUN[2]) == looked;
    var scanned := State([Session("bob", 2, true)], EMPTY, {1, 2}, looked.looks, map[],
      map[2 := Scanned("bob", true, 3, 4, [])], 5);
    LoginScansEmpty(looked);
    assert Step(Step(looked, LOST_RUN[3]), LOST_RUN[4]) == scanned;
    AddAfterScan(scanned);
    PlaySix(LOST_RUN);
    PlayIsExec([], LOST_RUN);
    assert [] + LOST_RUN == LOST_RUN;
  }

  lemma PlaySix(a: seq<Action>)
    requires |a| == 6
    ensures Play(Exec([]), a) == Step(Step(Step(Step(Step(Step(INIT, a[0]), a[1]), a[2]), a[3]), a[4]), a[5])
  {
    var s1 := Step(INIT, a[0]);
    var s2, s3 := Step(s1, a[1]), Step(Step(s1, a[1]), a[2]);
    var s4, s5 := Step(s3, a[3]), Step(Step(s3, a[3]), a[4]);
    assert a[1..][1..] == a[2..] && a[2..][1..] == a[3..] && a[3..][1..] == a[4..] && a[4..][1..] == a[5..] &&
      a[5..][1..] == [];
    assert Play(INIT, a) == Play(s1, a[1..]) == Play(s2, a[2..]);
    assert Play(s2, a[2..]) == Play(s3, a[3..]) == Play(s4, a[4..]);
    assert Play(s4, a[4..]) == Play(s5, a[5..]) == Play(Step(s5, a[5]), []);
  }

  lemma LoginScansEmpty(s: State)
    requires s == State([], EMPTY, {1, 2}, map[1 := Look("bob", None, 2)], map[], map[], 3)
    ensures Step(Step(s, Register(2, "bob")), Scan(2)) ==
      State([Session("bob", 2, true)], EMPTY, {1, 2}, s.looks, map[], map[2 := Scanned("bob", true, 3, 4, [])], 5)
  {
    var s' := Step(s, Register(2, "bob"));
    assert s'.sessions == [Session("bob", 2, true)];
    assert s'.logins == map[2 := Registered("bob", true, 3)];
    assert ForDest(EMPTY, "bob", MAX_ENTRIES) == [];
  }

  lemma AddAfterScan(s: State)
    requires s == State([Session("bob", 2, true)], EMPTY, {1, 2}, map[1 := Look("bob", None, 2)], map[],
      map[2 := Scanned("bob", true, 3, 4, [])], 5)
    ensures Step(s, AddRequest(1, "ann", "/f")) == State(
      s.sessions, Table([Request(1, "ann", "bob", "/f", Pending)], 2), {1, 2}, map[],
      map[1 := Record(1, Look("bob", None, 2), 5, NotWanted)], s.logins, 6)
  {
    assert s.looks - {1} == map[];
  }
}
