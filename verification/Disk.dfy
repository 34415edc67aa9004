/**
  The system calls one server process makes on its files. Calls may be cut short,
  interrupted or refused. `trail` keeps every state of the file system, so that it also
  tells what a crash at any point would leave behind.
*/
module Disk {
  import opened Core
  import opened Posix
  import opened Network

  const MODE_0600: int := 384
  const MODE_0700: int := 448

  /** `mode & 0777` */
  function Permissions(mode: int): int {
    mode % 512
  }

  /** The name mkstemp() makes of a template that ends in XXXXXX. */
  function TempFor(template: Path, suffix: string): Option<Path> {
    if |template| >= 6 && template[|template| - 6..] == "XXXXXX" && |suffix| == 6
    then Some(template[..|template| - 6] + suffix) else None
  }

  /** The text of a template after a failing mkstemp(). */
  function Spoiled(template: Path, spoiled: string): Path {
    var made := TempFor(template, spoiled);
    if made.Some? then made.value else template
  }

  /** An open file description: an inode and an offset. */
  class OpenFile {
    const ino: Ino
    var pos: nat

    constructor (ino: Ino)
      ensures this.ino == ino && pos == 0
    {
      this.ino, this.pos := ino, 0;
    }
  }

  class Disk {
    var fs: Fs
    ghost var trail: seq<Fs>
    var nextIno: Ino
    var locks: set<Ino>             // inodes this process holds a record lock on
    const readLocked: set<Ino>      // inodes others hold a read lock on
    const writeLocked: set<Ino>     // inodes others hold a write lock on
    var interrupts: nat
    const suffix: string            // what mkstemp() will put in place of XXXXXX
    const spoiled: string           // what a failing mkstemp() leaves there: POSIX does not say
    const reliable: bool            // no call is refused for lack of space, rights or a device error

    ghost predicate Valid()
      reads this
    {
      && Closed(fs)
      && trail != [] && trail[|trail| - 1] == fs
      && (forall i :: i in fs.nodes ==> i < nextIno)
      && (forall i :: i in readLocked || i in writeLocked ==> i < nextIno)
    }

    constructor (fs: Fs, nextIno: Ino, readLocked: set<Ino>, writeLocked: set<Ino>, suffix: string, spoiled: string,
                 reliable: bool)
      requires Closed(fs) && (forall i :: i in fs.nodes ==> i < nextIno)
      requires forall i :: i in readLocked || i in writeLocked ==> i < nextIno
      ensures Valid() && this.fs == fs && trail == [fs] && locks == {}
    {
      this.fs, this.trail, this.nextIno, this.locks := fs, [fs], nextIno, {};
      this.readLocked, this.writeLocked, this.suffix, this.spoiled := readLocked, writeLocked, suffix, spoiled;
      this.reliable, this.interrupts := reliable, 0;
    }

    method Commit(fs': Fs)
      modifies this`fs, this`trail
      ensures fs == fs' && trail == old(trail) + [fs']
    {
      fs := fs';
      trail := trail + [fs'];
    }

    /** open(path, O_WRONLY | O_CREAT | O_NOFOLLOW, mode) */
    method OpenCreate(p: Path, mode: int) returns (r: Result<Ino>)
      requires Valid()
      modifies this`fs, this`trail, this`nextIno
      ensures Valid()
      ensures r.Err? ==> fs == old(fs) && trail == old(trail) && (reliable ==> Lookup(fs, p) == Some(Directory))
      ensures r.Ok? && p in old(fs).names ==>
        IsFile(fs, p) && r.value == fs.names[p] && fs == old(fs) && trail == old(trail)
      ensures r.Ok? && p !in old(fs).names ==>
        r.value !in old(fs).nodes && fs == CreateFile(old(fs), p, r.value, mode) && trail == old(trail) + [fs]
      ensures r.Ok? && p !in old(fs).names ==> r.value !in readLocked && r.value !in writeLocked
    {
      var refused: bool := *;
      if !reliable && refused {
        return Err(EOTHER);
      }
      if p in fs.names {
        if fs.nodes[fs.names[p]].Directory? {
          return Err(EISDIR);
        }
        return Ok(fs.names[p]);
      }
      r := Ok(nextIno);
      Commit(CreateFile(fs, p, nextIno, mode));
      nextIno := nextIno + 1;
    }

    /** open(path, O_WRONLY | O_CREAT | O_EXCL, mode) */
    method OpenExclusive(p: Path, mode: int) returns (r: Result<Ino>)
      requires Valid()
      modifies this`fs, this`trail, this`nextIno
      ensures Valid()
      ensures p in old(fs).names ==> r.Err?
      ensures r.Err? ==> fs == old(fs) && trail == old(trail) && (reliable ==> r.errno == EEXIST && p in fs.names)
      ensures r.Ok? ==>
        r.value !in old(fs).nodes && fs == CreateFile(old(fs), p, r.value, mode) && trail == old(trail) + [fs]
      ensures r.Ok? ==> r.value !in readLocked && r.value !in writeLocked
    {
      var refused: bool := *;
      if !reliable && refused {
        return Err(EOTHER);
      }
      if p in fs.names {
        return Err(EEXIST);
      }
      r := Ok(nextIno);
      Commit(CreateFile(fs, p, nextIno, mode));
      nextIno := nextIno + 1;
    }

    /** open(path, O_RDONLY) */
    method OpenRead(p: Path) returns (r: Result<Ino>)
      requires Valid()
      ensures r.Ok? ==> p in fs.names && r.value == fs.names[p]
      ensures r.Err? && reliable ==> p !in fs.names
    {
      var refused: bool := *;
      if !reliable && refused {
        return Err(EOTHER);
      }
      r := if p in fs.names then Ok(fs.names[p]) else Err(ENOENT);
    }

    /** mkstemp(): a fresh name made from the template, mode 0600. */
    method Mkstemp(template: Path) returns (r: Result<Ino>, name: Path)
      requires Valid()
      modifies this`fs, this`trail, this`nextIno
      ensures Valid()
      ensures r.Err? ==> fs == old(fs) && trail == old(trail) && name == Spoiled(template, spoiled)
      ensures r.Ok? ==> TempFor(template, suffix) == Some(name) && name !in old(fs).names && r.value !in old(fs).nodes
      ensures r.Ok? ==> fs == CreateFile(old(fs), name, r.value, MODE_0600) && trail == old(trail) + [fs]
      ensures reliable ==>
        (r.Ok? <==> TempFor(template, suffix).Some? && TempFor(template, suffix).value !in old(fs).names)
    {
      var made := TempFor(template, suffix);
      name := Spoiled(template, spoiled);
      if made.None? {
        return Err(EINVAL), name;
      }
      if made.value in fs.names {
        return Err(EEXIST), name;
      }
      var refused: bool := *;
      if !reliable && refused {
        return Err(EOTHER), name;
      }
      name := made.value;
      r := Ok(nextIno);
      Commit(CreateFile(fs, name, nextIno, MODE_0600));
      nextIno := nextIno + 1;
    }

    /** read(): nothing only at the end of the file. */
    method Read(f: OpenFile, len: nat) returns (a: Answer, data: seq<byte>)
      requires Valid() && f.ino in fs.nodes && fs.nodes[f.ino].File? && len > 0
      modifies this`interrupts, f`pos
      ensures Valid() && fs == old(fs) && trail == old(trail)
      ensures a.Moved? ==> var file := fs.nodes[f.ino].data;
        && a.n == |data| <= len && f.pos == old(f.pos) + a.n && interrupts == old(interrupts)
        && (a.n == 0 <==> old(f.pos) >= |file|)
        && (a.n > 0 ==> f.pos <= |file| && data == file[old(f.pos)..f.pos])
      ensures !a.Moved? ==> f.pos == old(f.pos)
      ensures a.Interrupted? ==> interrupts < old(interrupts)
      ensures a.Failed? ==> !reliable
    {
      var signalled: bool, fails: bool := *, *;
      data := [];
      if interrupts > 0 && signalled {
        interrupts := interrupts - 1;
        return Interrupted, [];
      }
      if !reliable && fails {
        return Failed, [];
      }
      var file := fs.nodes[f.ino].data;
      if f.pos >= |file| {
        return Moved(0), [];
      }
      assert 0 < 1 <= Min(len, |file| - f.pos);
      var n: nat :| 0 < n <= Min(len, |file| - f.pos);
      data := file[f.pos..f.pos + n];
      f.pos := f.pos + n;
      a := Moved(n);
    }

    /** write(): a non-empty part of `data`, at the offset of the description. */
    method Write(f: OpenFile, data: seq<byte>) returns (a: Answer)
      requires Valid() && f.ino in fs.nodes && fs.nodes[f.ino].File? && data != []
      modifies this`fs, this`trail, this`interrupts, f`pos
      ensures Valid()
      ensures a.Moved? ==> 0 < a.n <= |data| && f.pos == old(f.pos) + a.n && interrupts == old(interrupts)
      ensures a.Moved? ==> Wrote(old(fs), fs, f.ino, old(f.pos), data[..a.n])
      ensures a.Moved? ==> trail == old(trail) + [fs]
      ensures !a.Moved? ==> fs == old(fs) && trail == old(trail) && f.pos == old(f.pos)
      ensures a.Interrupted? ==> interrupts < old(interrupts)
      ensures a.Failed? ==> !reliable
    {
      var signalled: bool, fails: bool := *, *;
      if interrupts > 0 && signalled {
        interrupts := interrupts - 1;
        return Interrupted;
      }
      if !reliable && fails {
        return Failed;
      }
      var n: nat :| 0 < n <= |data|;
      Commit(SetData(fs, f.ino, Overlay(fs.nodes[f.ino].data, f.pos, data[..n])));
      f.pos := f.pos + n;
      a := Moved(n);
    }

    /** lseek(SEEK_SET) */
    method Seek(f: OpenFile, offset: nat) returns (ok: bool)
      modifies f`pos
      ensures ok ==> f.pos == offset
      ensures !ok ==> f.pos == old(f.pos) && !reliable
    {
      var refused: bool := *;
      if !reliable && refused {
        return false;
      }
      f.pos := offset;
      ok := true;
    }

    method Fchmod(i: Ino, mode: int) returns (ok: bool)
      requires Valid() && i in fs.nodes && fs.nodes[i].File?
      modifies this`fs, this`trail
      ensures Valid() && (!ok ==> !reliable)
      ensures ok ==>
        fs == old(fs).(nodes := old(fs).nodes[i := File(old(fs).nodes[i].data, mode)]) && trail == old(trail) + [fs]
      ensures !ok ==> fs == old(fs) && trail == old(trail)
    {
      var refused: bool := *;
      if !reliable && refused {
        return false;
      }
      Commit(fs.(nodes := fs.nodes[i := File(fs.nodes[i].data, mode)]));
      ok := true;
    }

    /** close(): the record locks the process holds on the inode go with it. */
    method Close(i: Ino) returns (ok: bool)
      modifies this`locks
      ensures locks == old(locks) - {i}
      ensures !ok ==> !reliable
    {
      var refused: bool := *;
      locks := locks - {i};
      ok := reliable || !refused;
    }

    method RenameFile(from: Path, to: Path) returns (ok: bool)
      requires Valid() && from in fs.names
      modifies this`fs, this`trail
      ensures Valid() && (!ok ==> !reliable)
      ensures ok ==> fs == Rename(old(fs), from, to) && trail == old(trail) + [fs]
      ensures !ok ==> fs == old(fs) && trail == old(trail)
    {
      var refused: bool := *;
      if !reliable && refused {
        return false;
      }
      Commit(Rename(fs, from, to));
      ok := true;
    }

    /** unlink(); its result is ignored by every caller. */
    method UnlinkFile(p: Path)
      requires Valid()
      modifies this`fs, this`trail
      ensures Valid() && fs == Remove(old(fs), p)
      ensures trail == old(trail) + [fs]
    {
      Commit(Remove(fs, p));
    }

    /** fcntl(F_SETLK, F_WRLCK): refused while anyone else holds a lock. */
    method AcquireWriteLock(i: Ino) returns (ok: bool)
      modifies this`locks
      ensures ok ==> i !in readLocked && i !in writeLocked && locks == old(locks) + {i}
      ensures !ok ==> locks == old(locks) && (reliable ==> i in readLocked || i in writeLocked)
    {
      var refused: bool := *;
      if i in readLocked || i in writeLocked || (!reliable && refused) {
        return false;
      }
      locks := locks + {i};
      ok := true;
    }

    /** fcntl(F_SETLK, F_RDLCK): refused while anyone else holds a write lock. */
    method AcquireReadLock(i: Ino) returns (ok: bool)
      modifies this`locks
      ensures ok ==> i !in writeLocked && locks == old(locks) + {i}
      ensures !ok ==> locks == old(locks) && (reliable ==> i in writeLocked)
    {
      var refused: bool := *;
      if i in writeLocked || (!reliable && refused) {
        return false;
      }
      locks := locks + {i};
      ok := true;
    }

    method ReleaseLock(i: Ino)
      modifies this`locks
      ensures locks == old(locks) - {i}
    {
      locks := locks - {i};
    }
  }
}
