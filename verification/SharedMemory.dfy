/**
  sh_mem.c over its arrays: each operation locks the semaphore, scans and updates the slots
  in place and unlocks it again. Every operation is tied to the step of SharedTable it performs.
*/
module SharedMemory {
  import opened Core
  import opened SharedTable

  lemma CountNone(es: seq<Request>, user: string)
    ensures CountSent(es[..0], user) == 0
  {
  }

  lemma CountOneMore(es: seq<Request>, i: nat, user: string)
    requires i < |es|
    ensures CountSent(es[..i + 1], user) == CountSent(es[..i], user) + if SentBy(es[i], user) then 1 else 0
  {
    PrefixOfPrefix(es, i + 1, i);
  }

  class SharedMemory {
    const sessions: array<Session>
    var sessionCount: nat
    const requests: array<Request>
    var requestCount: nat
    var nextId: int

    var semaphore: nat       // value of the System V semaphore, 1 when free
    var removed: bool        // the semaphore set no longer exists
    var interrupts: nat      // signals that will still interrupt a semop()

    ghost predicate Valid()
      reads this, sessions, requests
    {
      && sessions as object != requests as object
      && sessions.Length == requests.Length == MAX_ENTRIES
      && sessionCount <= MAX_ENTRIES && requestCount <= MAX_ENTRIES
    }

    ghost function Sessions(): seq<Session>
      reads this, sessions
      requires sessionCount <= sessions.Length
    {
      sessions[..sessionCount]
    }

    ghost function Requests(): Table
      reads this, requests
      requires requestCount <= requests.Length
    {
      Table(requests[..requestCount], nextId)
    }

    /** setup_shmem: a zeroed segment, first id 1, semaphore free. */
    constructor ()
      ensures Valid() && fresh(sessions) && fresh(requests)
      ensures Sessions() == [] && Requests() == EMPTY && semaphore == 1 && !removed
    {
      sessions := new Session[MAX_ENTRIES](_ => Session("", 0, false));
      requests := new Request[MAX_ENTRIES](_ => ZERO_REQUEST);
      sessionCount, requestCount, nextId := 0, 0, 1;
      semaphore, removed, interrupts := 1, false, 0;
    }

    /** One semop() that is scheduled when the semaphore is free: it may be interrupted. */
    method Decrement() returns (r: Option<Result<()>>)
      requires semaphore == 1
      modifies this`semaphore, this`interrupts
      ensures r.None? ==> semaphore == 1 && interrupts < old(interrupts)
      ensures r.Some? && r.value.Ok? ==> !removed && semaphore == 0
      ensures r.Some? && r.value.Err? ==> r.value.errno == EIDRM && removed && semaphore == 1
    {
      if removed {
        return Some(Err(EIDRM));
      }
      if interrupts > 0 {
        interrupts := interrupts - 1;
        return None;
      }
      semaphore := 0;
      return Some(Ok(()));
    }

    method SemLock() returns (r: Result<()>)
      requires semaphore == 1
      modifies this`semaphore, this`interrupts
      ensures r.Ok? <==> !removed
      ensures semaphore == if removed then 1 else 0
      ensures r.Err? ==> r.errno == EIDRM
    {
      var answer := Decrement();
      while answer.None?
        invariant answer.None? ==> semaphore == 1
        invariant answer.Some? && answer.value.Ok? ==> !removed && semaphore == 0
        invariant answer.Some? && answer.value.Err? ==> answer.value.errno == EIDRM && removed && semaphore == 1
        decreases answer.None?, interrupts
      {
        answer := Decrement();
      }
      r := answer.value;
    }

    method SemUnlock()
      requires semaphore == 0
      modifies this`semaphore
      ensures semaphore == 1
    {
      semaphore := 1;
    }

    method SessionAdd(user: string, pid: int) returns (r: Result<()>)
      requires Valid() && semaphore == 1
      modifies sessions, this`sessionCount, this`semaphore, this`interrupts
      ensures Valid() && semaphore == 1
      ensures removed ==> r == Err(EIDRM) && Sessions() == old(Sessions())
      ensures !removed ==> (Sessions(), r) == AddSession(old(Sessions()), user, pid)
      ensures r.Ok? ==> Session(user[..Min(|user|, 32)], pid, true) in Sessions()
    {
      var locked := SemLock();
      if locked.Err? {
        return Err(locked.errno);
      }
      ghost var was := Sessions();
      var entry := Session(Fit(user, USER_SIZE), pid, true);
      assert entry.username == user[..Min(|user|, 32)];
      r := Err(ENOMEM);
      var i := 0;
      while i < sessionCount && r.Err?
        invariant semaphore == 0 && i <= sessionCount == |was|
        invariant r.Err? ==> r == Err(ENOMEM) && Sessions() == was && forall k :: 0 <= k < i ==> was[k].inUse
        invariant r.Ok? ==> r == Ok(()) && FirstVacant(was) < |was| && Sessions() == was[FirstVacant(was) := entry]
        decreases sessionCount - i, r.Err?
      {
        if !sessions[i].inUse {
          assert FirstVacant(was) == i;
          sessions[i] := entry;
          r := Ok(());
        } else {
          i := i + 1;
        }
      }
      assert r.Err? ==> FirstVacant(was) == |was|;
      assert r.Ok? ==> Sessions()[FirstVacant(was)] == entry;
      if r.Err? && sessionCount < MAX_ENTRIES {
        sessions[sessionCount] := entry;
        sessionCount := sessionCount + 1;
        assert Sessions() == was + [entry] && Sessions()[|was|] == entry;
        r := Ok(());
      }
      SemUnlock();
    }

    method SessionFind(user: string) returns (r: Result<Option<(int, bool)>>)
      requires Valid() && semaphore == 1
      modifies this`semaphore, this`interrupts
      ensures semaphore == 1
      ensures r == if removed then Err(EIDRM) else Ok(FindSession(Sessions(), user))
    {
      var locked := SemLock();
      if locked.Err? {
        return Err(locked.errno);
      }
      var found := None;
      var i := 0;
      while i < sessionCount && found.None?
        invariant semaphore == 0 && i <= sessionCount
        invariant found.None? ==> forall k :: 0 <= k < i ==> sessions[k].username != user
        invariant found.Some? ==> i < sessionCount && SessionOf(Sessions(), user) == i
        invariant found.Some? ==> found.value == (sessions[i].pid, sessions[i].inUse)
        decreases sessionCount - i, found.None?
      {
        if sessions[i].username == user {
          assert Sessions()[i] == sessions[i];
          found := Some((sessions[i].pid, sessions[i].inUse));
        } else {
          i := i + 1;
        }
      }
      SemUnlock();
      r := Ok(found);
    }

    /** `alive` stands for the answers of kill(pid, 0). */
    method SessionsCollectStale(alive: set<int>) returns (r: Result<()>)
      requires Valid() && semaphore == 1
      modifies sessions, this`semaphore, this`interrupts
      ensures Valid() && semaphore == 1
      ensures removed ==> r == Err(EIDRM) && Sessions() == old(Sessions())
      ensures !removed ==> r == Ok(()) && Sessions() == CollectStale(old(Sessions()), alive)
    {
      var locked := SemLock();
      if locked.Err? {
        return Err(locked.errno);
      }
      ghost var was := Sessions();
      for i := 0 to sessionCount
        invariant semaphore == 0
        invariant forall k :: 0 <= k < i ==> sessions[k] == Sweep(was[k], alive)
        invariant forall k :: i <= k < sessionCount ==> sessions[k] == was[k]
      {
        if sessions[i].inUse && sessions[i].pid !in alive {
          sessions[i] := NO_SESSION;
        }
      }
      SemUnlock();
      r := Ok(());
    }

    /** The counter is assumed not to have reached INT_MAX. */
    method RequestAdd(source: string, dest: string, path: string) returns (r: Result<int>)
      requires Valid() && semaphore == 1 && nextId < INT_MAX
      modifies requests, this`requestCount, this`nextId, this`semaphore, this`interrupts
      ensures Valid() && semaphore == 1
      ensures removed ==> r == Err(EIDRM) && Requests() == old(Requests())
      ensures !removed ==> (Requests(), r) == Add(old(Requests()), source, dest, path)
      ensures r.Ok? ==> Request(r.value, source[..Min(|source|, 32)], dest[..Min(|dest|, 32)],
                                path[..Min(|path|, 4095)], Pending) in Requests().entries
    {
      var locked := SemLock();
      if locked.Err? {
        return Err(locked.errno);
      }
      ghost var was := Requests();
      var slot := -1;
      var i := 0;
      while i < requestCount && slot < 0
        invariant semaphore == 0 && i <= requestCount
        invariant slot < 0 ==> slot == -1 && forall k :: 0 <= k < i ==> was.entries[k].status.Pending?
        invariant slot >= 0 ==> slot == i < requestCount && !was.entries[i].status.Pending?
        invariant slot >= 0 ==> forall k :: 0 <= k < i ==> was.entries[k].status.Pending?
        decreases requestCount - i, slot < 0
      {
        if !requests[i].status.Pending? {
          slot := i;
        } else {
          i := i + 1;
        }
      }
      if slot < 0 {
        if requestCount < MAX_ENTRIES {
          slot := requestCount;
          requestCount := requestCount + 1;
        } else {
          SemUnlock();
          return Err(ENOMEM);
        }
      }
      var id := nextId;
      nextId := nextId + 1;
      requests[slot] := NewRequest(id, source, dest, path);
      assert slot == FirstFree(was.entries) && requests[slot] == Requests().entries[slot];
      Stored(id, source, dest, path);
      assert Requests().entries == if slot < |was.entries| then was.entries[slot := requests[slot]]
                                   else was.entries + [requests[slot]];
      SemUnlock();
      r := Ok(id);
    }

    method RequestTake(id: int, user: string, to: Status) returns (r: Result<Request>)
      requires Valid() && semaphore == 1
      modifies requests, this`semaphore, this`interrupts
      ensures Valid() && semaphore == 1
      ensures removed ==> r == Err(EIDRM) && Requests() == old(Requests())
      ensures !removed ==> (Requests(), r) == Take(old(Requests()), id, user, to)
    {
      var locked := SemLock();
      if locked.Err? {
        return Err(locked.errno);
      }
      ghost var was := Requests();
      r := Err(ENOENT);
      var i := 0;
      var searching := true;
      while i < requestCount && searching
        invariant semaphore == 0 && i <= requestCount
        invariant searching ==> r == Err(ENOENT) && Requests() == was
        invariant searching ==> forall k :: 0 <= k < i ==> was.entries[k].id != id
        invariant !searching ==> (Requests(), r) == Take(was, id, user, to)
        decreases requestCount - i, searching
      {
        if requests[i].id == id {
          assert SlotOf(was.entries, id) == i && was.entries[i] == requests[i];
          if requests[i].dest != user {
            r := Err(EACCES);
          } else if !requests[i].status.Pending? {
            r := Err(EALREADY);
          } else {
            requests[i] := requests[i].(status := to);
            r := Ok(requests[i]);
            assert Requests().entries == was.entries[i := requests[i]];
          }
          searching := false;
        } else {
          i := i + 1;
        }
      }
      SemUnlock();
    }

    method RequestSet(id: int, to: Status) returns (r: Result<()>)
      requires Valid() && semaphore == 1
      modifies requests, this`semaphore, this`interrupts
      ensures Valid() && semaphore == 1
      ensures removed ==> r == Err(EIDRM) && Requests() == old(Requests())
      ensures !removed ==> (Requests(), r) == SetStatus(old(Requests()), id, to)
    {
      var locked := SemLock();
      if locked.Err? {
        return Err(locked.errno);
      }
      ghost var was := Requests();
      r := Err(ENOENT);
      var i := 0;
      while i < requestCount && r.Err?
        invariant semaphore == 0 && i <= requestCount
        invariant r.Err? ==> r == Err(ENOENT) && Requests() == was && forall k :: 0 <= k < i ==> was.entries[k].id != id
        invariant r.Ok? ==> (Requests(), r) == SetStatus(was, id, to)
        decreases requestCount - i, r.Err?
      {
        if requests[i].id == id {
          assert SlotOf(was.entries, id) == i && was.entries[i] == requests[i];
          requests[i] := requests[i].(status := to);
          assert Requests().entries == was.entries[i := requests[i]];
          r := Ok(());
        } else {
          i := i + 1;
        }
      }
      SemUnlock();
    }

    method RequestsSetFailed(user: string) returns (r: Result<nat>)
      requires Valid() && semaphore == 1
      modifies requests, this`semaphore, this`interrupts
      ensures Valid() && semaphore == 1
      ensures removed ==> r == Err(EIDRM) && Requests() == old(Requests())
      ensures !removed ==> Requests() == FailSent(old(Requests()), user)
      ensures !removed ==> r == Ok(CountSent(old(Requests()).entries, user))
    {
      hide CountSent;
      var locked := SemLock();
      if locked.Err? {
        return Err(locked.errno);
      }
      ghost var was := Requests();
      var n := 0;
      CountNone(was.entries, user);
      for i := 0 to requestCount
        invariant semaphore == 0
        invariant forall k :: 0 <= k < i ==> requests[k] == FailSlot(was.entries[k], user)
        invariant forall k :: i <= k < requestCount ==> requests[k] == was.entries[k]
        invariant n == CountSent(was.entries[..i], user)
      {
        CountOneMore(was.entries, i, user);
        if requests[i].status.Pending? && requests[i].source == user {
          requests[i] := requests[i].(status := Failed);
          n := n + 1;
        }
      }
      assert was.entries[..requestCount] == was.entries;
      SemUnlock();
      r := Ok(n);
    }

    /** Copies the pending requests of `user` into the caller's buffer. */
    method RequestsForDest(user: string, out: array<Request>, max: nat) returns (r: Result<nat>)
      requires Valid() && semaphore == 1
      requires max <= out.Length && out != requests && out as object != sessions
      modifies out, this`semaphore, this`interrupts
      ensures Valid() && semaphore == 1 && Requests() == old(Requests())
      ensures removed ==> r == Err(EIDRM) && out[..] == old(out[..])
      ensures !removed ==> r.Ok? && r.value <= max && out[..r.value] == ForDest(Requests(), user, max)
    {
      var locked := SemLock();
      if locked.Err? {
        return Err(locked.errno);
      }
      ghost var es := Requests().entries;
      var n, i := 0, 0;
      while i < requestCount && n < max
        invariant semaphore == 0 && i <= requestCount && n <= max
        invariant out[..n] == Waiting(es[..i], user)
      {
        assert es[..i + 1][..i] == es[..i];
        if requests[i].status.Pending? && requests[i].dest == user {
          out[n] := requests[i];
          n := n + 1;
        }
        i := i + 1;
      }
      WaitingPrefix(es, user, i);
      assert es[..|es|] == es;
      SemUnlock();
      r := Ok(n);
    }
  }

  /** Scanning further only adds to what was found. */
  lemma {:induction false} WaitingPrefix(es: seq<Request>, user: string, i: nat)
    requires i <= |es|
    ensures Waiting(es[..i], user) <= Waiting(es, user)
  {
    if i == |es| {
      assert es[..i] == es;
    } else {
      WaitingPrefix(es[..|es| - 1], user, i);
      assert es[..|es| - 1][..i] == es[..i];
    }
  }
}
