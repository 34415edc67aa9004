/**
  The file system as a value: a directory of names over inodes, with the effect of the
  system calls of POSIX.1-2017 the server relies on (System Interfaces volume: open(),
  rename(), unlink(), write()). Only regular files and directories are modelled.
*/
module Posix {
  import opened Core

  type Path = string
  type Ino = int

  datatype Node =
    | File(data: seq<byte>, mode: int)
    | Directory

  datatype Fs = Fs(names: map<Path, Ino>, nodes: map<Ino, Node>)

  /** Names lead to inodes that exist. */
  ghost predicate Closed(fs: Fs) {
    forall p :: p in fs.names ==> fs.names[p] in fs.nodes
  }

  predicate IsFile(fs: Fs, p: Path) {
    p in fs.names && fs.names[p] in fs.nodes && fs.nodes[fs.names[p]].File?
  }

  function Lookup(fs: Fs, p: Path): Option<Node> {
    if p in fs.names && fs.names[p] in fs.nodes then Some(fs.nodes[fs.names[p]]) else None
  }

  function Zeros(n: nat): (z: seq<byte>)
    ensures |z| == n && forall i :: 0 <= i < n ==> z[i] == 0
  {
    if n == 0 then [] else Zeros(n - 1) + [0]
  }

  /** The first `n` bytes of a file; a gap behind its end reads as zeros. */
  function Head(file: seq<byte>, n: nat): (h: seq<byte>)
    ensures |h| == n
  {
    if n <= |file| then file[..n] else file + Zeros(n - |file|)
  }

  /** The part of a file a stream from `pos` brings. */
  function From(file: seq<byte>, pos: nat): seq<byte> {
    if pos >= |file| then [] else file[pos..]
  }

  /** write() at `pos`; an empty write changes nothing. */
  function Overlay(file: seq<byte>, pos: nat, data: seq<byte>): (r: seq<byte>) {
    if data == [] then file else Head(file, pos) + data + From(file, pos + |data|)
  }

  /**
    What pwrite() does byte by byte: the data stands at its place, the rest of the file stays, a gap
    behind the old end reads as zeros, and the file grows no further than the data reaches.
  */
  lemma OverlayBytes(file: seq<byte>, pos: nat, data: seq<byte>)
    requires data != []
    ensures var r := Overlay(file, pos, data);
      && |r| == Max(|file|, pos + |data|)
      && forall k :: 0 <= k < |r| ==>
        r[k] == if pos <= k < pos + |data| then data[k - pos] else if k < |file| then file[k] else 0
  {
  }

  lemma FromBytes(file: seq<byte>, pos: nat)
    ensures |From(file, pos)| == Max(0, |file| - pos)
    ensures forall k :: 0 <= k < |From(file, pos)| ==> From(file, pos)[k] == file[pos + k]
  {
  }

  /** Successive writes add up. */
  lemma OverlayAppend(file: seq<byte>, pos: nat, a: seq<byte>, b: seq<byte>)
    ensures Overlay(Overlay(file, pos, a), pos + |a|, b) == Overlay(file, pos, a + b)
  {
    if a == [] {
      assert a + b == b;
    } else if b == [] {
      assert a + b == a;
    } else {
      var one := Overlay(file, pos, a);
      OverlayHead(file, pos, a);
      OverlayTail(file, pos, a, |b|);
      assert Head(file, pos) + a + b == Head(file, pos) + (a + b);
    }
  }

  lemma OverlayHead(file: seq<byte>, pos: nat, a: seq<byte>)
    requires a != []
    ensures Head(Overlay(file, pos, a), pos + |a|) == Head(file, pos) + a
  {
  }

  lemma OverlayTail(file: seq<byte>, pos: nat, a: seq<byte>, n: nat)
    requires a != []
    ensures From(Overlay(file, pos, a), pos + |a| + n) == From(file, pos + |a| + n)
  {
  }

  /** Writing a file from its start leaves exactly what was written. */
  lemma OverlayFresh(data: seq<byte>)
    ensures Overlay([], 0, data) == data
  {
  }

  function SetData(fs: Fs, i: Ino, data: seq<byte>): Fs
    requires i in fs.nodes && fs.nodes[i].File?
  {
    fs.(nodes := fs.nodes[i := fs.nodes[i].(data := data)])
  }

  /** `fs` is `fs0` with `data` written to an open file at `pos`. */
  ghost predicate Wrote(fs0: Fs, fs: Fs, i: Ino, pos: nat, data: seq<byte>) {
    && i in fs0.nodes && fs0.nodes[i].File?
    && fs == SetData(fs0, i, Overlay(fs0.nodes[i].data, pos, data))
  }

  /** open(O_CREAT) of an absent name. */
  function CreateFile(fs: Fs, p: Path, i: Ino, mode: int): Fs {
    Fs(fs.names[p := i], fs.nodes[i := File([], mode)])
  }

  function Unlink(fs: Fs, p: Path): Fs {
    fs.(names := fs.names - {p})
  }

  /** unlink() refuses a directory. */
  function Remove(fs: Fs, p: Path): Fs {
    if Lookup(fs, p) == Some(Directory) then fs else Unlink(fs, p)
  }

  /** rename() replaces the target in one step. */
  function Rename(fs: Fs, from: Path, to: Path): Fs
    requires from in fs.names
  {
    if fs.names.Keys >= {to} && fs.names[to] == fs.names[from] then fs // both names are one file: nothing happens
    else fs.(names := (fs.names - {from})[to := fs.names[from]])
  }

  /** The directory part up to and including the last '/', as strrchr finds it. */
  function DirPart(p: Path): (d: Path)
    ensures d <= p
  {
    if p == "" then "" else if p[|p| - 1] == '/' then p else DirPart(p[..|p| - 1])
  }

  /** Names of the kind mkstemp() makes for uploads; clients are assumed not to use them. */
  predicate Temporary(p: Path) {
    ".temp" <= p[|DirPart(p)|..]
  }
}
