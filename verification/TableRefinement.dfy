/**
  The array with recycled slots refines a finite map from id to pending request: every
  critical section of sh_mem.c commutes with the map operation a caller has in mind.
*/
module TableRefinement {
  import opened Core
  import opened SharedTable

  /** `id` names a request that waits for an answer. */
  predicate Open(t: Table, id: int) {
    var i := SlotOf(t.entries, id);
    i < |t.entries| && t.entries[i].status.Pending?
  }

  /** The pending requests, by id. */
  function PendingMap(t: Table): map<int, Request> {
    map id | 0 <= id < t.nextId && Open(t, id) :: t.entries[SlotOf(t.entries, id)]
  }

  lemma MapContents(t: Table)
    requires WellFormed(t)
    ensures forall i :: 0 <= i < |t.entries| && t.entries[i].status.Pending? ==>
      t.entries[i].id in PendingMap(t) && PendingMap(t)[t.entries[i].id] == t.entries[i]
    ensures forall id :: id in PendingMap(t) ==> PendingMap(t)[id].id == id && PendingMap(t)[id] in t.entries
  {
    forall i | 0 <= i < |t.entries| ensures SlotOf(t.entries, t.entries[i].id) == i {
      SlotIsUnique(t, i);
    }
  }

  function CountPending(es: seq<Request>): nat {
    if es == [] then 0
    else CountPending(es[..|es| - 1]) + if es[|es| - 1].status.Pending? then 1 else 0
  }

  lemma PrefixIsWellFormed(t: Table)
    requires WellFormed(t) && t.entries != []
    ensures WellFormed(Table(t.entries[..|t.entries| - 1], t.nextId))
  {
  }

  lemma {:induction false} MapSize(t: Table)
    requires WellFormed(t)
    ensures |PendingMap(t)| == CountPending(t.entries)
    decreases |t.entries|
  {
    if t.entries == [] {
      assert PendingMap(t) == map[];
    } else {
      hide PendingMap, WellFormed;
      PrefixIsWellFormed(t);
      MapSize(Table(t.entries[..|t.entries| - 1], t.nextId));
      LastSlotInMap(t);
    }
  }

  lemma LastSlotInMap(t: Table)
    requires WellFormed(t) && t.entries != []
    ensures var n := |t.entries| - 1;
      var m, last := PendingMap(Table(t.entries[..n], t.nextId)), t.entries[n];
      && last.id !in m
      && PendingMap(t) == if last.status.Pending? then m[last.id := last] else m
  {
    var n := |t.entries| - 1;
    var m, last := PendingMap(Table(t.entries[..n], t.nextId)), t.entries[n];
    var expected := if last.status.Pending? then m[last.id := last] else m;
    LastSlotInMapAt(t, last.id);
    forall id ensures id in PendingMap(t) <==> id in expected {
      LastSlotInMapAt(t, id);
    }
    forall id | id in PendingMap(t) ensures PendingMap(t)[id] == expected[id] {
      LastSlotInMapAt(t, id);
    }
  }

  lemma LastSlotInMapAt(t: Table, id: int)
    requires WellFormed(t) && t.entries != []
    ensures var n := |t.entries| - 1;
      var m, last := PendingMap(Table(t.entries[..n], t.nextId)), t.entries[n];
      && last.id !in m
      && (id in m ==> id in PendingMap(t) && PendingMap(t)[id] == m[id])
      && (id in PendingMap(t) ==> id in m || (id == last.id && last.status.Pending?))
      && (id == last.id && last.status.Pending? ==> id in PendingMap(t) && PendingMap(t)[id] == last)
  {
    LastSlotAt(t, id);
    LastSlotAt(t, t.entries[|t.entries| - 1].id);
  }

  /** What the last slot adds for one id. */
  lemma LastSlotAt(t: Table, id: int)
    requires WellFormed(t) && t.entries != []
    ensures var n := |t.entries| - 1;
      var init, last := Table(t.entries[..n], t.nextId), t.entries[n];
      && 0 <= last.id < t.nextId
      && (Open(init, id) ==>
        id != last.id && Open(t, id) && t.entries[SlotOf(t.entries, id)] == init.entries[SlotOf(init.entries, id)])
      && (Open(t, id) ==> Open(init, id) || (id == last.id && last.status.Pending?))
      && (id == last.id ==> SlotOf(t.entries, id) == n && (Open(t, id) <==> last.status.Pending?))
  {
    var n := |t.entries| - 1;
    assert t.entries == t.entries[..n] + [t.entries[n]];
    LastIsNew(t);
    AppendedSlot(t.entries[..n], t.entries[n], id);
  }

  lemma LastIsNew(t: Table)
    requires WellFormed(t) && t.entries != []
    ensures SlotOf(t.entries[..|t.entries| - 1], t.entries[|t.entries| - 1].id) == |t.entries| - 1
  {
    var init, id := t.entries[..|t.entries| - 1], t.entries[|t.entries| - 1].id;
    assert forall k :: 0 <= k < |init| ==> init[k] == t.entries[k];
  }

  lemma AppendedSlot(es: seq<Request>, r: Request, id: int)
    ensures SlotOf(es + [r], id) ==
      if SlotOf(es, id) < |es| then SlotOf(es, id) else if r.id == id then |es| else |es| + 1
  {
    var fs := es + [r];
    assert fs[|es|] == r;
    assert forall k :: 0 <= k < |es| ==> fs[k] == es[k];
  }

  /** Overwriting a slot that no longer matters moves no other id. */
  lemma OverwrittenSlot(t: Table, slot: nat, r: Request, id: int)
    requires WellFormed(t) && slot < |t.entries| && id != r.id && id != t.entries[slot].id
    ensures SlotOf(t.entries[slot := r], id) == SlotOf(t.entries, id)
  {
    var fs := t.entries[slot := r];
    var i, j := SlotOf(t.entries, id), SlotOf(fs, id);
    if i < |fs| { assert fs[i].id == id; }
    if j < |fs| { assert t.entries[j].id == id; }
  }

  lemma {:induction false} AllPending(es: seq<Request>)
    ensures CountPending(es) <= |es|
    ensures CountPending(es) == |es| <==> forall i :: 0 <= i < |es| ==> es[i].status.Pending?
  {
    if es != [] {
      AllPending(es[..|es| - 1]);
    }
  }

  /**
    shm_request_add inserts a request under a fresh id, pending, with the names and the path it was
    given, each cut only where its field ends; it never disturbs a pending request and refuses
    exactly when MAX_ENTRIES requests are pending.
  */
  lemma AddRefines(t: Table, source: string, dest: string, path: string)
    requires WellFormed(t)
    ensures var (t', r) := Add(t, source, dest, path);
      && WellFormed(t')
      && (r == Err(ENOMEM) <==> |PendingMap(t)| == MAX_ENTRIES)
      && (r.Err? ==> r == Err(ENOMEM) && t' == t)
      && (r.Ok? ==> r.value !in PendingMap(t) && t'.nextId == r.value + 1)
      && (r.Ok? ==> PendingMap(t') == PendingMap(t)[r.value := Request(r.value,
            source[..Min(|source|, 32)], dest[..Min(|dest|, 32)], path[..Min(|path|, 4095)], Pending)])
  {
    AddKeeps(t, source, dest, path);
    MapSize(t);
    AllPending(t.entries);
    var (t', r) := Add(t, source, dest, path);
    if r.Ok? {
      var free := FirstFree(t.entries);
      var added := NewRequest(r.value, source, dest, path);
      forall id ensures
        && (id != r.value ==> Open(t', id) == Open(t, id))
        && (id != r.value && Open(t, id) ==>
          SlotOf(t'.entries, id) == SlotOf(t.entries, id) && SlotOf(t.entries, id) != free)
      {
        AddedSlot(t, source, dest, path, id);
      }
      AddedSlot(t, source, dest, path, r.value);
      MapAfterAdd(t, t', free, added);
      Stored(r.value, source, dest, path);
    }
  }

  /**
    Sending and answering: under the id that shm_request_add returned, the recipient, and nobody
    else, takes exactly the request that was sent, if its names and its path fit their fields. A
    slot leaked by a crash does no harm.
  */
  lemma TakesWhatWasSent(t: Table, source: string, dest: string, path: string, user: string, to: Status)
    requires Sound(t) && Add(t, source, dest, path).1.Ok?
    requires |source| <= 32 && |dest| <= 32 && |path| <= 4095
    ensures var (t', id) := Add(t, source, dest, path);
      Take(t', id.value, user, to).1
        == if user == dest then Ok(Request(id.value, source, dest, path, to)) else Err(EACCES)
  {
    var (t', id) := Add(t, source, dest, path);
    AddKeeps(t, source, dest, path);
    Stored(id.value, source, dest, path);
    assert t'.entries[FirstFree(t.entries)].id == id.value;
    SlotIsUnique(t', FirstFree(t.entries));
  }

  lemma MapAfterAdd(t: Table, t': Table, free: nat, r: Request)
    requires t'.nextId == t.nextId + 1 && r.id == t.nextId >= 1 && r.status.Pending? && free <= |t.entries|
    requires t'.entries == if free < |t.entries| then t.entries[free := r] else t.entries + [r]
    requires SlotOf(t'.entries, r.id) == free
    requires forall id :: id != r.id ==> Open(t', id) == Open(t, id)
    requires forall id :: id != r.id && Open(t, id) ==>
      SlotOf(t'.entries, id) == SlotOf(t.entries, id) && SlotOf(t.entries, id) != free
    ensures PendingMap(t') == PendingMap(t)[r.id := r]
  {
  }

  /** Where an id is found after an insertion. */
  lemma AddedSlot(t: Table, source: string, dest: string, path: string, id: int)
    requires WellFormed(t) && Add(t, source, dest, path).1.Ok?
    ensures var t' := Add(t, source, dest, path).0;
      && (id == t.nextId ==> !Open(t, id) && SlotOf(t'.entries, id) == FirstFree(t.entries))
      && (id != t.nextId ==>
        Open(t', id) == Open(t, id) && (Open(t, id) ==> SlotOf(t'.entries, id) == SlotOf(t.entries, id)))
  {
    var free, r := FirstFree(t.entries), NewRequest(t.nextId, source, dest, path);
    var t' := Add(t, source, dest, path).0;
    AddKeeps(t, source, dest, path);
    if id == t.nextId {
      assert t'.entries[free].id == id;
      SlotIsUnique(t', free);
    } else if free == |t.entries| {
      AppendedSlot(t.entries, r, id);
    } else if id == t.entries[free].id {
      SlotIsUnique(t, free);
      VanishedSlot(t, free, r);
    } else {
      OverwrittenSlot(t, free, r, id);
    }
  }

  lemma VanishedSlot(t: Table, slot: nat, r: Request)
    requires WellFormed(t) && slot < |t.entries| && r.id != t.entries[slot].id
    ensures SlotOf(t.entries[slot := r], t.entries[slot].id) == |t.entries|
  {
    var fs, id := t.entries[slot := r], t.entries[slot].id;
    forall k | 0 <= k < |fs| ensures fs[k].id != id {
      if k != slot { assert fs[k] == t.entries[k]; }
    }
  }

  /**
    shm_request_take removes the request exactly when it is pending and addressed to the
    caller; the error code tells an unknown id, a foreign request and a handled one apart.
  */
  lemma TakeRefines(t: Table, id: int, user: string, to: Status)
    requires WellFormed(t) && !to.Pending?
    ensures var (t', r) := Take(t, id, user, to);
      && WellFormed(t')
      && (r.Ok? <==> id in PendingMap(t) && PendingMap(t)[id].dest == user)
      && (r.Ok? ==> r.value == PendingMap(t)[id].(status := to) && PendingMap(t') == PendingMap(t) - {id})
      && (r.Err? ==> t' == t)
      && (r == Err(ENOENT) <==> forall e :: e in t.entries ==> e.id != id)
      && (r == Err(EACCES) <==> exists e :: e in t.entries && e.id == id && e.dest != user)
      && (r == Err(EALREADY) <==> exists e :: e in t.entries && e.id == id && e.dest == user && !e.status.Pending?)
  {
    TakeKeeps(t, id, user, to);
    var (t', r) := Take(t, id, user, to);
    var slot := SlotOf(t.entries, id);
    if slot < |t.entries| {
      assert forall e :: e in t.entries && e.id == id ==> e == t.entries[slot];
    }
    if r.Ok? {
      RemovalRefines(t, slot, r.value);
    }
  }

  /** Overwriting one slot with a request of the same id that is not pending removes that id. */
  lemma RemovalRefines(t: Table, slot: nat, r: Request)
    requires WellFormed(t) && slot < |t.entries| && r.id == t.entries[slot].id && !r.status.Pending?
    ensures PendingMap(t.(entries := t.entries[slot := r])) == PendingMap(t) - {r.id}
  {
    var t' := t.(entries := t.entries[slot := r]);
    forall id ensures id in PendingMap(t') <==> id in PendingMap(t) && id != r.id {
      RemovedAt(t, slot, r, id);
    }
    forall id | id in PendingMap(t') ensures PendingMap(t')[id] == PendingMap(t)[id] {
      RemovedAt(t, slot, r, id);
    }
  }

  lemma RemovedAt(t: Table, slot: nat, r: Request, id: int)
    requires WellFormed(t) && slot < |t.entries| && r.id == t.entries[slot].id && !r.status.Pending?
    ensures var t' := t.(entries := t.entries[slot := r]);
      && (id in PendingMap(t') <==> id in PendingMap(t) && id != r.id)
      && (id in PendingMap(t') ==> PendingMap(t')[id] == PendingMap(t)[id])
  {
    SlotIsUnique(t, slot);
    SameSlot(t.entries, t.entries[slot := r], id);
  }

  /** shm_request_set with a final status: the map loses at most that id. */
  lemma SetStatusRefines(t: Table, id: int, to: Status)
    requires WellFormed(t) && !to.Pending?
    ensures var (t', r) := SetStatus(t, id, to);
      && WellFormed(t')
      && (r == Err(ENOENT) <==> forall e :: e in t.entries ==> e.id != id)
      && (r.Err? ==> r == Err(ENOENT) && t' == t)
      && PendingMap(t') == PendingMap(t) - {id}
  {
    SetStatusKeeps(t, id, to);
    var (t', r) := SetStatus(t, id, to);
    var slot := SlotOf(t.entries, id);
    if slot < |t.entries| {
      RemovalRefines(t, slot, t.entries[slot].(status := to));
    } else {
      assert id !in PendingMap(t);
    }
  }

  /** shm_requests_set_failed drops exactly the pending requests the user sent, and counts them. */
  lemma FailSentRefines(t: Table, user: string)
    requires WellFormed(t)
    ensures var t' := FailSent(t, user);
      && WellFormed(t')
      && PendingMap(t') == (map id | id in PendingMap(t) && PendingMap(t)[id].source != user :: PendingMap(t)[id])
      && CountSent(t.entries, user) == |PendingMap(t)| - |PendingMap(t')|
  {
    FailSentKeeps(t, user);
    var t' := FailSent(t, user);
    MapAfterFail(t, user);
    MapSize(t);
    MapSize(t');
    FailedCount(t.entries, t'.entries, user);
  }

  lemma MapAfterFail(t: Table, user: string)
    ensures PendingMap(FailSent(t, user))
      == (map id | id in PendingMap(t) && PendingMap(t)[id].source != user :: PendingMap(t)[id])
  {
    var t' := FailSent(t, user);
    forall id ensures Open(t', id) <==> Open(t, id) && t.entries[SlotOf(t.entries, id)].source != user {
      FailedAt(t, user, id);
    }
    forall id | Open(t', id) ensures t'.entries[SlotOf(t'.entries, id)] == t.entries[SlotOf(t.entries, id)] {
      FailedAt(t, user, id);
    }
  }

  lemma FailedAt(t: Table, user: string, id: int)
    ensures var t' := FailSent(t, user);
      && (Open(t', id) <==> Open(t, id) && t.entries[SlotOf(t.entries, id)].source != user)
      && (Open(t', id) ==> t'.entries[SlotOf(t'.entries, id)] == t.entries[SlotOf(t.entries, id)])
  {
    SameSlot(t.entries, FailSent(t, user).entries, id);
  }

  lemma {:induction false} FailedCount(es: seq<Request>, fs: seq<Request>, user: string)
    requires |es| == |fs| && forall i :: 0 <= i < |es| ==> fs[i] == FailSlot(es[i], user)
    ensures CountPending(es) == CountPending(fs) + CountSent(es, user)
  {
    if es != [] {
      FailedCount(es[..|es| - 1], fs[..|es| - 1], user);
    }
  }

  /**
    shm_requests_for_dest with room for the whole table: every pending request addressed to
    the user is reported, nothing else is, and none twice.
  */
  lemma ForDestRefines(t: Table, user: string)
    requires WellFormed(t)
    ensures var out := ForDest(t, user, MAX_ENTRIES);
      && (forall r :: r in out <==> r.id in PendingMap(t) && PendingMap(t)[r.id] == r && r.dest == user)
      && (forall i, j :: 0 <= i < j < |out| ==> out[i].id != out[j].id)
  {
    MapContents(t);
    WaitingContents(t.entries, user);
    var out := ForDest(t, user, MAX_ENTRIES);
    assert out == Waiting(t.entries, user);
    forall r ensures r in out <==> r.id in PendingMap(t) && PendingMap(t)[r.id] == r && r.dest == user {
      if r in t.entries && r.status.Pending? {
        assert r.id in PendingMap(t) && PendingMap(t)[r.id] == r;
      }
    }
  }

  lemma {:induction false} WaitingContents(es: seq<Request>, user: string)
    ensures |Waiting(es, user)| <= |es|
    ensures forall r :: r in Waiting(es, user) <==> r in es && WaitsFor(r, user)
    ensures (forall i, j :: 0 <= i < j < |es| ==> es[i].id != es[j].id) ==>
      forall i, j :: 0 <= i < j < |Waiting(es, user)| ==> Waiting(es, user)[i].id != Waiting(es, user)[j].id
  {
    if es != [] {
      var init, last := es[..|es| - 1], es[|es| - 1];
      WaitingContents(init, user);
      assert es == init + [last];
      assert forall r :: r in es <==> r in init || r == last;
      if forall i, j :: 0 <= i < j < |es| ==> es[i].id != es[j].id {
        forall r | r in init ensures r.id != last.id {
          var k :| 0 <= k < |init| && init[k] == r;
          assert es[k] == r;
        }
      }
    }
  }
}
