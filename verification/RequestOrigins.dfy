/** Where an announced or unannounced request comes from, in every run. */
module RequestOrigins {
  import opened Core
  import opened SharedTable
  import opened Notification

  /** At step `look.at` the process looked the recipient up and was allowed to go on. */
  ghost predicate LookedUp(acts: seq<Action>, p: Pid, look: Look) {
    && look.at < |acts| && acts[look.at].LookUp? && acts[look.at].p == p && acts[look.at].dest == look.dest
    && look.found == OnlineSession(Exec(acts[..look.at]).sessions, look.dest)
    && (look.found.Some? || (acts[look.at].account && acts[look.at].dest != acts[look.at].user))
  }

  ghost predicate Added(acts: seq<Action>, id: int, r: Record) {
    && r.addedAt < |acts| && acts[r.addedAt].AddRequest? && acts[r.addedAt].p == r.owner
    && Exec(acts[..r.addedAt]).table.nextId == id
    && LookedUp(acts, r.owner, r.look) && r.look.at < r.addedAt
  }

  /** At step `k` the sender wrote to the session it had found, which was alive or not. */
  ghost predicate WroteAt(acts: seq<Action>, k: nat, id: int, r: Record, alive: bool) {
    && k < |acts| && acts[k] == SignalDest(r.owner, id)
    && r.look.found.Some? && (r.look.found.value in Exec(acts[..k]).alive <==> alive)
  }

  ghost predicate Signalled(acts: seq<Action>, id: int, r: Record) {
    match r.signal
    case Sent => exists k :: r.addedAt < k && WroteAt(acts, k, id, r, true)
    case Undelivered => exists k :: r.addedAt < k && WroteAt(acts, k, id, r, false)
    case NotWanted => r.look.found.None?
    case _ => r.look.found.Some?
  }

  ghost predicate Traced(acts: seq<Action>) {
    var s := Exec(acts);
    && s.clock == |acts|
    && (forall q :: q in s.looks ==> LookedUp(acts, q, s.looks[q]))
    && (forall id :: id in s.sent ==> Added(acts, id, s.sent[id]) && Signalled(acts, id, s.sent[id]))
  }

  predicate SameBut(r: Record, r': Record) {
    r'.owner == r.owner && r'.look == r.look && r'.addedAt == r.addedAt
  }

  /** How a step may change what is known of a request. */
  ghost predicate Continues(s: State, a: Action, id: int, r: Record, r': Record) {
    && SameBut(r, r')
    && (r'.signal == r.signal || (r.signal.Due? && r'.signal.SenderGone?)
        || (r.signal.Due? && a == SignalDest(r.owner, id) && id in s.sent && s.sent[id] == r
            && r'.signal == Written(s, id)))
  }

  ghost predicate Begins(s: State, a: Action, id: int, r: Record) {
    && a.AddRequest? && a.p == r.owner && a.p in s.looks && r.look == s.looks[a.p]
    && r.addedAt == s.clock && id == s.table.nextId
    && r.signal == (if r.look.found.Some? then Due else NotWanted)
  }

  lemma RecordsComeFrom(s: State, a: Action, id: int)
    requires id in Step(s, a).sent
    ensures (id in s.sent && Continues(s, a, id, s.sent[id], Step(s, a).sent[id]))
      || Begins(s, a, id, Step(s, a).sent[id])
  {
    hide Add, Take, FailSent, CollectStale, AddSession, ForDest, OnlineSession;
    if a.AddRequest? {
      NextId(s.table, a.user, if a.p in s.looks then s.looks[a.p].dest else "", a.path);
    }
  }

  lemma NextId(t: Table, source: string, dest: string, path: string)
    ensures Add(t, source, dest, path).1.Ok? ==> Add(t, source, dest, path).1.value == t.nextId
  {
  }

  lemma LooksBegin(s: State, a: Action, q: Pid)
    requires q in Step(s, a).looks
    ensures var look := Step(s, a).looks[q];
      || (q in s.looks && look == s.looks[q])
      || (a.LookUp? && a.p == q && a.dest == look.dest && look.at == s.clock
          && look.found == OnlineSession(s.sessions, look.dest)
          && (look.found.Some? || (a.account && a.dest != a.user)))
  {
    hide Add, Take, FailSent, CollectStale, AddSession, ForDest, OnlineSession;
  }

  lemma LookedUpLonger(acts: seq<Action>, a: Action, p: Pid, look: Look)
    requires LookedUp(acts, p, look)
    ensures LookedUp(acts + [a], p, look)
  {
    assert (acts + [a])[..look.at] == acts[..look.at];
  }

  lemma AddedLonger(acts: seq<Action>, a: Action, id: int, r: Record, r': Record)
    requires Added(acts, id, r) && SameBut(r, r')
    ensures Added(acts + [a], id, r')
  {
    LookedUpLonger(acts, a, r.owner, r.look);
    assert (acts + [a])[..r.addedAt] == acts[..r.addedAt];
  }

  lemma WroteLonger(acts: seq<Action>, a: Action, k: nat, id: int, r: Record, r': Record, alive: bool)
    requires WroteAt(acts, k, id, r, alive) && SameBut(r, r')
    ensures WroteAt(acts + [a], k, id, r', alive)
  {
    assert (acts + [a])[..k] == acts[..k];
  }

  lemma SignalledLonger(acts: seq<Action>, a: Action, id: int, r: Record, r': Record)
    requires Signalled(acts, id, r) && Added(acts, id, r) && Exec(acts).clock == |acts|
    requires Continues(Exec(acts), a, id, r, r')
    ensures Signalled(acts + [a], id, r')
  {
    if r'.signal == r.signal {
      if r.signal.Sent? || r.signal.Undelivered? {
        var k: nat :| r.addedAt < k && WroteAt(acts, k, id, r, r.signal.Sent?);
        WroteLonger(acts, a, k, id, r, r', r.signal.Sent?);
      }
    } else if !r'.signal.SenderGone? {
      assert (acts + [a])[..|acts|] == acts;
      assert WroteAt(acts + [a], |acts|, id, r', r'.signal.Sent?);
    }
  }

  lemma {:induction false} RunIsTraced(acts: seq<Action>)
    ensures Traced(acts)
  {
    if acts != [] {
      var init, a := acts[..|acts| - 1], acts[|acts| - 1];
      RunIsTraced(init);
      assert acts == init + [a];
      StepIsTraced(init, a);
    }
  }

  lemma StepIsTraced(acts: seq<Action>, a: Action)
    requires Traced(acts)
    ensures Traced(acts + [a])
  {
    hide Effect, Added, Signalled, LookedUp, Continues, Begins;
    var s, s' := Exec(acts), Exec(acts + [a]);
    ExecOneMore(acts, a);
    forall q | q in s'.looks ensures LookedUp(acts + [a], q, s'.looks[q]) {
      LookIsTraced(acts, a, q);
    }
    forall id | id in s'.sent ensures Added(acts + [a], id, s'.sent[id]) && Signalled(acts + [a], id, s'.sent[id]) {
      RecordIsTraced(acts, a, id);
    }
    ClockTicks(s, a);
  }

  lemma ClockTicks(s: State, a: Action)
    ensures Step(s, a).clock == s.clock + 1
  {
  }

  lemma LookIsTraced(acts: seq<Action>, a: Action, q: Pid)
    requires Traced(acts) && q in Step(Exec(acts), a).looks
    ensures LookedUp(acts + [a], q, Step(Exec(acts), a).looks[q])
  {
    hide Effect, OnlineSession;
    var s, look := Exec(acts), Step(Exec(acts), a).looks[q];
    LooksBegin(s, a, q);
    if q in s.looks && look == s.looks[q] {
      LookedUpLonger(acts, a, q, look);
    } else {
      assert (acts + [a])[..|acts|] == acts && (acts + [a])[|acts|] == a;
    }
  }

  lemma RecordIsTraced(acts: seq<Action>, a: Action, id: int)
    requires Traced(acts) && id in Step(Exec(acts), a).sent
    ensures Added(acts + [a], id, Step(Exec(acts), a).sent[id])
    ensures Signalled(acts + [a], id, Step(Exec(acts), a).sent[id])
  {
    hide Effect, OnlineSession;
    var s, r' := Exec(acts), Step(Exec(acts), a).sent[id];
    RecordsComeFrom(s, a, id);
    if id in s.sent && Continues(s, a, id, s.sent[id], r') {
      AddedLonger(acts, a, id, s.sent[id], r');
      SignalledLonger(acts, a, id, s.sent[id], r');
    } else {
      LookedUpLonger(acts, a, r'.owner, r'.look);
      assert (acts + [a])[..|acts|] == acts && (acts + [a])[|acts|] == a;
    }
  }

  /**
    Where every request comes from: after any run the request was added by its sender under the id
    that was next, behind a look-up of its recipient that found a session of that user, or an account
    of somebody else. A message was sent exactly when the session found then was still alive at a
    later step of the sender, it failed exactly when it was not, and nobody was to be told exactly when
    none was found.
  */
  lemma SentByCommand(acts: seq<Action>, id: int)
    requires id in Exec(acts).sent
    ensures var r := Exec(acts).sent[id];
      && Added(acts, id, r)
      && (r.signal.NotWanted? <==> r.look.found.None?)
      && (r.signal.Sent? ==> exists k :: r.addedAt < k && WroteAt(acts, k, id, r, true))
      && (r.signal.Undelivered? ==> exists k :: r.addedAt < k && WroteAt(acts, k, id, r, false))
  {
    RunIsTraced(acts);
    var r := Exec(acts).sent[id];
    assert Signalled(acts, id, r);
    if r.signal.Sent? || r.signal.Undelivered? {
      var k: nat :| r.addedAt < k && WroteAt(acts, k, id, r, r.signal.Sent?);
    }
  }

  /**
    What the end of a session leaves: exactly the requests of its user that still waited have failed,
    no other is touched, and the messages its process had still to write are never sent.
  */
  lemma DisconnectEnds(acts: seq<Action>, p: Pid, user: string)
    requires p in Exec(acts).alive
    ensures var s, s' := Exec(acts), Exec(acts + [Disconnect(p, user)]);
      var es, es' := s.table.entries, s'.table.entries;
      && p !in s'.alive && p !in s'.looks && |es'| == |es|
      && (forall i :: 0 <= i < |es| ==>
        es'[i] == if es[i].status.Pending? && es[i].source == user then es[i].(status := Failed) else es[i])
      && s'.sent.Keys == s.sent.Keys
      && (forall id :: id in s.sent ==> SameBut(s.sent[id], s'.sent[id]))
      && (forall id :: id in s.sent && (s.sent[id].owner != p || !s.sent[id].signal.Due?) ==> s'.sent[id] == s.sent[id])
      && (forall id :: id in s.sent && s.sent[id].owner == p && s.sent[id].signal.Due? ==>
            s'.sent[id].signal.SenderGone?)
  {
    ExecOneMore(acts, Disconnect(p, user));
  }
}
