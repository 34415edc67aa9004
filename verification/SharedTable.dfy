/**
  The two tables kept in shared memory (sh_mem.h:40-70) as values, and what one critical
  section does to them. `entries` holds the first `count` slots; the slots behind them are
  never read before being written.
*/
module SharedTable {
  import opened Core

  const MAX_ENTRIES: nat := 1024
  const INT_MAX: int := 0x7FFF_FFFF
  const USER_SIZE: nat := 33
  // ---------------------------------------------------------------- transfer requests

  datatype Status = Pending | Accepted | Rejected | Failed

  datatype Request = Request(id: int, source: string, dest: string, path: string, status: Status)

  datatype Table = Table(entries: seq<Request>, nextId: int)

  const ZERO_REQUEST: Request := Request(0, "", "", "", Pending)

  /** The first slot whose request is no longer pending, or `count`. */
  function FirstFree(es: seq<Request>): (i: nat)
    ensures i <= |es|
    ensures forall k :: 0 <= k < i ==> es[k].status.Pending?
    ensures i < |es| ==> !es[i].status.Pending?
  {
    if es == [] || !es[0].status.Pending? then 0 else 1 + FirstFree(es[1..])
  }

  /** The first slot holding `id`, or `count`. */
  function SlotOf(es: seq<Request>, id: int): (i: nat)
    ensures i <= |es|
    ensures forall k :: 0 <= k < i ==> es[k].id != id
    ensures i < |es| ==> es[i].id == id
  {
    if es == [] || es[0].id == id then 0 else 1 + SlotOf(es[1..], id)
  }

  function NewRequest(id: int, source: string, dest: string, path: string): Request {
    Request(id, Fit(source, USER_SIZE), Fit(dest, USER_SIZE), Fit(path, PATH_MAX), Pending)
  }

  /** What fits into the fields of a slot. */
  lemma Stored(id: int, source: string, dest: string, path: string)
    ensures NewRequest(id, source, dest, path) == Request(id,
      source[..Min(|source|, 32)], dest[..Min(|dest|, 32)], path[..Min(|path|, 4095)], Pending)
  {
  }

  /** shm_request_add */
  function Add(t: Table, source: string, dest: string, path: string): (Table, Result<int>) {
    var free := FirstFree(t.entries);
    var r := NewRequest(t.nextId, source, dest, path);
    if free < |t.entries| then
      (Table(t.entries[free := r], t.nextId + 1), Ok(t.nextId))
    else if |t.entries| < MAX_ENTRIES then
      (Table(t.entries + [r], t.nextId + 1), Ok(t.nextId))
    else
      (t, Err(ENOMEM))
  }

  /** shm_request_take */
  function Take(t: Table, id: int, user: string, to: Status): (Table, Result<Request>) {
    var i := SlotOf(t.entries, id);
    if i == |t.entries| then (t, Err(ENOENT))
    else if t.entries[i].dest != user then (t, Err(EACCES))
    else if !t.entries[i].status.Pending? then (t, Err(EALREADY))
    else
      var r := t.entries[i].(status := to);
      (t.(entries := t.entries[i := r]), Ok(r))
  }

  /** shm_request_set */
  function SetStatus(t: Table, id: int, to: Status): (Table, Result<()>) {
    var i := SlotOf(t.entries, id);
    if i == |t.entries| then (t, Err(ENOENT))
    else (t.(entries := t.entries[i := t.entries[i].(status := to)]), Ok(()))
  }

  predicate SentBy(r: Request, user: string) {
    r.status.Pending? && r.source == user
  }

  function FailSlot(r: Request, user: string): Request {
    if SentBy(r, user) then r.(status := Failed) else r
  }

  /** shm_requests_set_failed */
  function FailSent(t: Table, user: string): Table {
    t.(entries := seq(|t.entries|, i requires 0 <= i < |t.entries| => FailSlot(t.entries[i], user)))
  }

  function CountSent(es: seq<Request>, user: string): nat {
    if es == [] then 0
    else CountSent(es[..|es| - 1], user) + if SentBy(es[|es| - 1], user) then 1 else 0
  }

  predicate WaitsFor(r: Request, user: string) {
    r.status.Pending? && r.dest == user
  }

  /** The requests `user` has to answer, in slot order. */
  function Waiting(es: seq<Request>, user: string): seq<Request> {
    if es == [] then []
    else
      var init := Waiting(es[..|es| - 1], user);
      if WaitsFor(es[|es| - 1], user) then init + [es[|es| - 1]] else init
  }

  /** shm_requests_for_dest: the scan stops once `max` requests are copied. */
  function ForDest(t: Table, user: string, max: nat): seq<Request> {
    var w := Waiting(t.entries, user);
    if |w| <= max then w else w[..max]
  }

  // ---------------------------------------------------------------- what every step keeps

  /**
    Ids are distinct and were issued. A zero id is the trace of a crash between the
    increment of `count` and the store of the entry; several slots may carry it.
  */
  ghost predicate Sound(t: Table) {
    && |t.entries| <= MAX_ENTRIES
    && 1 <= t.nextId
    && (forall i :: 0 <= i < |t.entries| ==> 0 <= t.entries[i].id < t.nextId)
    && (forall i, j :: 0 <= i < j < |t.entries| && t.entries[i].id != 0 ==> t.entries[i].id != t.entries[j].id)
  }

  /** No critical section was cut short by a crash. */
  ghost predicate WellFormed(t: Table) {
    && Sound(t)
    && forall i :: 0 <= i < |t.entries| ==> t.entries[i].id != 0
  }

  const EMPTY: Table := Table([], 1)

  lemma SlotIsUnique(t: Table, i: nat)
    requires Sound(t) && i < |t.entries| && t.entries[i].id != 0
    ensures SlotOf(t.entries, t.entries[i].id) == i
  {
  }

  /** Two tables that agree on which slot holds which id find every id in the same slot. */
  lemma SameSlot(es: seq<Request>, fs: seq<Request>, id: int)
    requires |es| == |fs| && forall i :: 0 <= i < |es| ==> es[i].id == fs[i].id
    ensures SlotOf(es, id) == SlotOf(fs, id)
  {
    var i, j := SlotOf(es, id), SlotOf(fs, id);
    if i < |es| { assert fs[i].id == id; }
    if j < |fs| { assert es[j].id == id; }
  }

  lemma AddKeeps(t: Table, source: string, dest: string, path: string)
    requires Sound(t)
    ensures Sound(Add(t, source, dest, path).0)
    ensures WellFormed(t) ==> WellFormed(Add(t, source, dest, path).0)
  {
  }

  lemma TakeKeeps(t: Table, id: int, user: string, to: Status)
    requires Sound(t)
    ensures Sound(Take(t, id, user, to).0)
    ensures WellFormed(t) ==> WellFormed(Take(t, id, user, to).0)
  {
    var t' := Take(t, id, user, to).0;
    assert forall k :: 0 <= k < |t.entries| ==> t'.entries[k].id == t.entries[k].id;
  }

  lemma SetStatusKeeps(t: Table, id: int, to: Status)
    requires Sound(t)
    ensures Sound(SetStatus(t, id, to).0)
    ensures WellFormed(t) ==> WellFormed(SetStatus(t, id, to).0)
  {
    var t' := SetStatus(t, id, to).0;
    assert forall k :: 0 <= k < |t.entries| ==> t'.entries[k].id == t.entries[k].id;
  }

  lemma FailSentKeeps(t: Table, user: string)
    requires Sound(t)
    ensures Sound(FailSent(t, user))
    ensures WellFormed(t) ==> WellFormed(FailSent(t, user))
  {
    var t' := FailSent(t, user);
    assert forall k :: 0 <= k < |t.entries| ==> t'.entries[k].id == t.entries[k].id;
  }

  // ---------------------------------------------------------------- sessions

  datatype Session = Session(username: string, pid: int, inUse: bool)

  const NO_SESSION: Session := Session("", -1, false)

  predicate Vacant(s: Session) {
    !s.inUse
  }

  function FirstVacant(ss: seq<Session>): (i: nat)
    ensures i <= |ss|
    ensures forall k :: 0 <= k < i ==> ss[k].inUse
    ensures i < |ss| ==> Vacant(ss[i])
  {
    if ss == [] || Vacant(ss[0]) then 0 else 1 + FirstVacant(ss[1..])
  }

  /** shm_session_add */
  function AddSession(ss: seq<Session>, user: string, pid: int): (seq<Session>, Result<()>) {
    var i := FirstVacant(ss);
    var s := Session(Fit(user, USER_SIZE), pid, true);
    if i < |ss| then (ss[i := s], Ok(()))
    else if |ss| < MAX_ENTRIES then (ss + [s], Ok(()))
    else (ss, Err(ENOMEM))
  }

  /** The first slot carrying `user`, or `count`. */
  function SessionOf(ss: seq<Session>, user: string): (i: nat)
    ensures i <= |ss|
    ensures forall k :: 0 <= k < i ==> ss[k].username != user
    ensures i < |ss| ==> ss[i].username == user
  {
    if ss == [] || ss[0].username == user then 0 else 1 + SessionOf(ss[1..], user)
  }

  /** shm_session_find: the pid and the online flag of the first matching slot. */
  function FindSession(ss: seq<Session>, user: string): Option<(int, bool)> {
    var i := SessionOf(ss, user);
    if i < |ss| then Some((ss[i].pid, ss[i].inUse)) else None
  }

  function Sweep(s: Session, alive: set<int>): Session {
    if s.inUse && s.pid !in alive then NO_SESSION else s
  }

  /** shm_sessions_collect_stale */
  function CollectStale(ss: seq<Session>, alive: set<int>): seq<Session> {
    seq(|ss|, i requires 0 <= i < |ss| => Sweep(ss[i], alive))
  }
}
