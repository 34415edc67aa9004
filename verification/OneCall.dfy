/** What one call of a process can change, and for whom. */
module OneCall {
  import opened Core
  import opened Posix
  import opened Processes
  import opened ProcessSteps

  /** A call of `p` leaves the other processes where they are, starts no upload and invents no old file. */
  ghost predicate Local(s: State, s': State, p: Pid) {
    && (forall q :: q != p ==> JobOf(s', q) == JobOf(s, q) && (q in s'.jobs <==> q in s.jobs))
    && s'.uploads == s.uploads
    && (forall i :: i in s'.origin && s'.origin[i].Initial? ==> i in s.origin && s'.origin[i] == s.origin[i])
  }

  /** Nothing is written in place. */
  ghost predicate Replaces(s: State, s': State, p: Pid) {
    && (forall i :: i in s'.origin && s'.origin[i].Patched? ==> i in s.origin && s.origin[i].Patched?)
    && (p in s'.jobs ==> !IsWrite(s'.jobs[p]) && !IsCopy(s'.jobs[p]))
  }

  lemma DownloadIsLocal(s: State, p: Pid, j: Job, ok: bool, n: nat)
    requires j.DlOpen? || j.DlLocked? || j.DlSending? || j.DlDone?
    ensures Local(s, DownloadStep(s, p, j, ok, n), p) && Replaces(s, DownloadStep(s, p, j, ok, n), p)
  {
  }

  lemma StoreIsLocal(s: State, p: Pid, i: Ino, data: seq<byte>, o: Origin)
    requires !o.Initial?
    ensures Local(s, Store(s, i, data, o), p)
    ensures o.Patched? || forall k :: k in Store(s, i, data, o).origin && Store(s, i, data, o).origin[k].Patched? ==>
      k in s.origin && s.origin[k].Patched?
  {
  }

  lemma UploadChunkIsLocal(s: State, p: Pid, j: Job, ok: bool, n: nat)
    requires j.UpLocked?
    ensures Local(s, UploadStep(s, p, j, ok, n, ""), p) && Replaces(s, UploadStep(s, p, j, ok, n, ""), p)
  {
    if ok {
      var data, _ := UploadChunkStep(s, p, j.u, j.t, j.ti, j.li, j.got, n);
      if j.got < |j.u.source| {
        StoreIsLocal(s, p, j.ti, data, Partial(p, j.u.id));
      }
    }
  }

  lemma UploadCreatesIsLocal(s: State, p: Pid, j: Job, ok: bool, name: Path)
    requires j.UpStart? || j.UpTemp?
    ensures Local(s, UploadStep(s, p, j, ok, 0, name), p) && Replaces(s, UploadStep(s, p, j, ok, 0, name), p)
  {
  }

  lemma UploadCallIsLocal(s: State, p: Pid, j: Job, ok: bool, name: Path)
    requires IsUpload(j) && !j.UpLocked? && !j.UpStart? && !j.UpTemp?
    ensures Local(s, UploadStep(s, p, j, ok, 0, name), p) && Replaces(s, UploadStep(s, p, j, ok, 0, name), p)
  {
  }

  lemma UploadIsLocal(s: State, p: Pid, j: Job, ok: bool, n: nat, name: Path)
    requires IsUpload(j)
    ensures Local(s, UploadStep(s, p, j, ok, n, name), p) && Replaces(s, UploadStep(s, p, j, ok, n, name), p)
  {
    if j.UpLocked? {
      UploadChunkIsLocal(s, p, j, ok, n);
    } else if j.UpStart? || j.UpTemp? {
      UploadCreatesIsLocal(s, p, j, ok, name);
    } else {
      UploadCallIsLocal(s, p, j, ok, name);
    }
  }

  lemma WriteIsLocal(s: State, p: Pid, j: Job, ok: bool, bytes: seq<byte>)
    requires IsWrite(j)
    ensures Local(s, WriteStep(s, p, j, ok, bytes), p)
  {
  }

  lemma CopyIsLocal(s: State, p: Pid, j: Job, ok: bool, n: nat)
    requires IsCopy(j)
    ensures Local(s, CopyStep(s, p, j, ok, n), p)
  {
  }

  lemma MoveIsLocal(s: State, p: Pid, j: Job, ok: bool)
    requires IsMove(j)
    ensures Local(s, MoveStep(s, p, j, ok), p) && Replaces(s, MoveStep(s, p, j, ok), p)
  {
    if j.MvOpen? || j.MvLocked? {
      MoveStartIsLocal(s, p, j, ok);
    } else {
      MoveEndIsLocal(s, p, j, ok);
    }
  }

  lemma MoveStartIsLocal(s: State, p: Pid, j: Job, ok: bool)
    requires j.MvOpen? || j.MvLocked?
    ensures Local(s, MoveStep(s, p, j, ok), p) && Replaces(s, MoveStep(s, p, j, ok), p)
  {
  }

  lemma MoveEndIsLocal(s: State, p: Pid, j: Job, ok: bool)
    requires j.MvDest? || j.MvReady? || j.MvDone?
    ensures Local(s, MoveStep(s, p, j, ok), p) && Replaces(s, MoveStep(s, p, j, ok), p)
  {
  }

  lemma DeleteIsLocal(s: State, p: Pid, j: Job, ok: bool)
    requires j.RmOpen? || j.RmLocked? || j.RmDone?
    ensures Local(s, DeleteStep(s, p, j, ok), p) && Replaces(s, DeleteStep(s, p, j, ok), p)
  {
  }

  lemma GoIsLocal(s: State, p: Pid, j: Job, ok: bool, n: nat, bytes: seq<byte>, name: Path)
    requires p in s.jobs && s.jobs[p] == j
    ensures Local(s, GoStep(s, p, j, ok, n, bytes, name), p)
    ensures !IsWrite(j) && !IsCopy(j) ==> Replaces(s, GoStep(s, p, j, ok, n, bytes, name), p)
  {
    if j.Idle? || j.Replies? {
    } else if j.DlOpen? || j.DlLocked? || j.DlSending? || j.DlDone? {
      DownloadIsLocal(s, p, j, ok, n);
    } else if IsUpload(j) {
      UploadIsLocal(s, p, j, ok, n, name);
    } else if IsWrite(j) {
      WriteIsLocal(s, p, j, ok, bytes);
    } else if IsCopy(j) {
      CopyIsLocal(s, p, j, ok, n);
    } else if IsMove(j) {
      MoveIsLocal(s, p, j, ok);
    } else {
      DeleteIsLocal(s, p, j, ok);
    }
  }

  lemma OthersKeepTheirJob(s: State, a: Action, p: Pid)
    requires a.p != p
    ensures JobOf(Step(s, a), p) == JobOf(s, p)
  {
    if a.Go? && a.p in s.jobs {
      GoIsLocal(s, a.p, s.jobs[a.p], a.ok, a.n, a.bytes, a.name);
    }
  }
}
