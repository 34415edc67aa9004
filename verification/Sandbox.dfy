/**
  paths.c: keeping clients inside the root directory. realpath() is a parameter: it answers with
  the components of a canonical path, or with an error.
*/
module Sandbox {
  import opened Core
  import opened Posix

  /** A name inside a canonical path. */
  predicate IsComponent(s: string) {
    s != "" && '/' !in s && s != "." && s != ".."
  }

  type Component = s: string | IsComponent(s) witness "a"

  /** Each component behind a slash; the root itself is the empty text. */
  function Render(cs: seq<Component>): (r: string)
    ensures r == "" <==> cs == []
    ensures r != "" ==> r[0] == '/' && r[|r| - 1] != '/'
  {
    if cs == [] then ""
    else
      var c := cs[0];
      assert c[|c| - 1] in c;
      "/" + c + Render(cs[1..])
  }

  /** How realpath() writes it. */
  function Show(cs: seq<Component>): string {
    if cs == [] then "/" else Render(cs)
  }

  function Slashes(n: nat): string {
    seq(n, _ => '/')
  }

  // ---------------------------------------------------------------- the test

  /** strncmp() over the root's length, then the character behind it. */
  predicate Below(v: string, nroot: string) {
    nroot <= v && (|v| == |nroot| || v[|nroot|] == '/')
  }

  /** Where two paths agree as text up to a boundary, their first components are the same. */
  lemma FirstAgrees(x: Component, y: Component, r: string, s: string)
    requires (r == "" || r[0] == '/') && (s == "" || s[0] == '/')
    requires Below("/" + y + s, "/" + x + r)
    ensures x == y
  {
    var v, n := "/" + y + s, "/" + x + r;
    assert v[1..|y| + 1] == y && n[1..|x| + 1] == x;
    assert |x| == |y|;
    assert forall k :: 0 <= k < |x| ==> x[k] == n[k + 1] == v[k + 1] == y[k];
  }

  /** The textual test is right: it holds exactly when the root's components come first. */
  lemma {:induction false} PrefixOfComponents(root: seq<Component>, path: seq<Component>)
    ensures Below(Show(path), Render(root)) <==> root <= path
    decreases |root|, 0
  {
    if root != [] && path != [] {
      var x, y := root[0], path[0];
      var r, s := Render(root[1..]), Render(path[1..]);
      var v, n := "/" + y + s, "/" + x + r;
      assert Show(path) == v && Render(root) == n;
      if Below(v, n) {
        FirstAgrees(x, y, r, s);
      }
      if x == y {
        assert v == ("/" + x) + s && n == ("/" + x) + r;
        BelowShift("/" + x, s, r);
        RestBelow(root[1..], path[1..]);
        assert root <= path <==> root[1..] <= path[1..] by {
          PrefixShift(root, path);
        }
      }
    }
  }

  lemma PrefixShift(a: seq<Component>, b: seq<Component>)
    requires a != [] && b != [] && a[0] == b[0]
    ensures a <= b <==> a[1..] <= b[1..]
  {
    assert a == [a[0]] + a[1..] && b == [b[0]] + b[1..];
    if a[1..] <= b[1..] {
      assert b == a + b[|a|..];
    }
  }

  lemma BelowShift(p: string, v: string, n: string)
    ensures Below(p + v, p + n) <==> Below(v, n)
  {
    if Below(p + v, p + n) {
      assert forall k :: 0 <= k < |n| ==> n[k] == (p + n)[|p| + k] == (p + v)[|p| + k] == v[k];
      assert |v| > |n| ==> (p + v)[|p + n|] == v[|n|];
    }
    if Below(v, n) {
      assert forall k :: 0 <= k < |p + n| ==> (p + n)[k] == (p + v)[k];
      assert |v| > |n| ==> (p + v)[|p + n|] == v[|n|];
    }
  }

  /** Past the first component a path may be used up, which `Show` would write as a slash. */
  lemma {:induction false} RestBelow(root: seq<Component>, path: seq<Component>)
    ensures Below(Render(path), Render(root)) <==> root <= path
    decreases |root|, 1
  {
    if path == [] {
      assert Render(path) == "";
    } else if root != [] {
      PrefixOfComponents(root, path);
    }
  }

  // ---------------------------------------------------------------- dirname() and basename()

  function Strip(p: string): (r: string)
    ensures r <= p && (r != "" ==> r[|r| - 1] != '/')
  {
    if p != "" && p[|p| - 1] == '/' then Strip(p[..|p| - 1]) else p
  }

  function BaseName(p: string): string {
    if p == "" then "."
    else
      var q := Strip(p);
      if q == "" then "/" else q[|DirPart(q)|..]
  }

  function DirName(p: string): string {
    if p == "" then "."
    else
      var q := Strip(p);
      if q == "" then "/"
      else if DirPart(q) == "" then "."
      else if Strip(DirPart(q)) == "" then "/"
      else Strip(DirPart(q))
  }

  lemma {:induction false} StripBehind(p: string, n: nat)
    requires p == "" || p[|p| - 1] != '/'
    ensures Strip(p + Slashes(n)) == p
  {
    if n == 0 {
      assert p + Slashes(n) == p;
    } else {
      assert (p + Slashes(n))[..|p + Slashes(n)| - 1] == p + Slashes(n - 1);
      StripBehind(p, n - 1);
    }
  }

  lemma {:induction false} DirPartEnds(d: string, c: string)
    requires '/' !in c && (d == "" || d[|d| - 1] == '/')
    ensures DirPart(d + c) == d
  {
    if c == "" {
      assert d + c == d;
    } else {
      assert (d + c)[..|d + c| - 1] == d + c[..|c| - 1] && (d + c)[|d + c| - 1] == c[|c| - 1];
      assert c[|c| - 1] in c;
      DirPartEnds(d, c[..|c| - 1]);
    }
  }

  /**
    dirname() and basename() take a path apart at its last name, whatever slashes stand behind it:
    the name itself, and the directory without the slashes at its end.
  */
  lemma LastName(d: string, c: Component, n: nat)
    ensures BaseName(d + "/" + c + Slashes(n)) == c
    ensures DirName(d + "/" + c + Slashes(n)) == (if Strip(d) == "" then "/" else Strip(d))
  {
    assert c[|c| - 1] in c;
    StripBehind(d + "/" + c, n);
    assert d + "/" + c == (d + "/") + c;
    DirPartEnds(d + "/", c);
    assert (d + "/")[..|d|] == d;
    assert Strip(d + "/") == Strip(d);
  }

  /** A name without a directory is one in the working directory. */
  lemma BareName(c: Component, n: nat)
    ensures BaseName(c + Slashes(n)) == c && DirName(c + Slashes(n)) == "."
  {
    assert c[|c| - 1] in c;
    StripBehind(c, n);
    assert "" + c == c;
    DirPartEnds("", c);
  }

  // ---------------------------------------------------------------- validate_path

  type Realpath = string -> Result<seq<Component>>

  /** What the caller gets, in terms of components. `memory`: strdup() succeeds. */
  function Validated(path: string, root: seq<Component>, resolve: Realpath, memory: bool): Result<string> {
    match resolve(path)
    case Ok(cs) => if root <= cs then Ok(Show(cs)) else Err(EPERM)
    case Err(e) =>
      if e != ENOENT then Err(e)
      else if !memory then Err(ENOMEM)
      else
        match resolve(DirName(path))
        case Err(e') => Err(e')
        case Ok(parent) =>
          var full := Show(parent) + (if parent == [] then "" else "/") + BaseName(path);
          if !(root <= parent) then Err(EPERM)
          else if |full| >= PATH_MAX then Err(ENAMETOOLONG)
          else Ok(full)
  }

  /** The loop that removes the root's trailing slashes, in the buffer. */
  method Trim(nroot: array<char>, length: nat) returns (rootLen: nat)
    requires length < nroot.Length
    modifies nroot
    ensures rootLen <= length && nroot[..rootLen] == Strip(old(nroot[..length]))
    ensures forall k :: rootLen <= k < length ==> nroot[k] == '\0'
    ensures forall k :: length <= k < nroot.Length ==> nroot[k] == old(nroot[k])
  {
    rootLen := length;
    while rootLen > 0 && nroot[rootLen - 1] == '/'
      invariant rootLen <= length && nroot[..rootLen] == old(nroot[..rootLen])
      invariant Strip(nroot[..rootLen]) == Strip(old(nroot[..length]))
      invariant forall k :: rootLen <= k < length ==> nroot[k] == '\0'
      invariant forall k :: length <= k < nroot.Length ==> nroot[k] == old(nroot[k])
    {
      assert nroot[..rootLen][..rootLen - 1] == nroot[..rootLen - 1];
      nroot[rootLen - 1] := '\0';
      rootLen := rootLen - 1;
    }
  }

  lemma {:induction false} StripSlashes(cs: seq<Component>, n: nat)
    ensures Strip(Render(cs) + Slashes(n)) == Render(cs)
  {
    var p := Render(cs) + Slashes(n);
    if n == 0 {
      assert p == Render(cs);
    } else {
      assert p[..|p| - 1] == Render(cs) + Slashes(n - 1);
      StripSlashes(cs, n - 1);
    }
  }

  /** `root` is written with any number of slashes behind it ("" and "/" for the root directory). */
  method ValidatePath(path: string, root: string, ghost rootCs: seq<Component>, ghost slashes: nat,
                      resolve: Realpath, memory: bool)
    returns (r: Result<string>)
    requires root == Render(rootCs) + Slashes(slashes) && |root| < PATH_MAX
    ensures r == Validated(path, rootCs, resolve, memory)
  {
    var nroot := new char[PATH_MAX](k requires 0 <= k < PATH_MAX => if k < |root| then root[k] else '\0'); // strncpy
    assert nroot[..|root|] == root;
    var rootLen := Trim(nroot, |root|);
    StripSlashes(rootCs, slashes);
    var top := nroot[..rootLen];
    assert top == Render(rootCs);
    var v := resolve(path);
    if v.Ok? {
      var validated := Show(v.value);
      PrefixOfComponents(rootCs, v.value);
      if !(top <= validated) || !(|validated| == rootLen || validated[rootLen] == '/') {
        return Err(EPERM);
      }
      return Ok(validated);
    }
    if v.errno != ENOENT {
      return Err(v.errno);
    }
    if !memory {
      return Err(ENOMEM);
    }
    var parent := resolve(DirName(path));
    if parent.Err? {
      return Err(parent.errno);
    }
    var resolved := Show(parent.value);
    PrefixOfComponents(rootCs, parent.value);
    if !(top <= resolved) || !(|resolved| == rootLen || resolved[rootLen] == '/') {
      return Err(EPERM);
    }
    SlashIsRoot(parent.value);
    var full := resolved + (if resolved == "/" then "" else "/") + BaseName(path);
    if |full| >= PATH_MAX {
      return Err(ENAMETOOLONG);
    }
    r := Ok(full);
  }

  lemma SlashIsRoot(cs: seq<Component>)
    ensures Show(cs) == "/" <==> cs == []
  {
    if cs != [] {
      assert Render(cs)[|Render(cs)| - 1] != '/';
    }
  }

  // ---------------------------------------------------------------- what the sandbox is for

  /**
    realpath() does not say that a name is missing whose parent exists when the name is "." or ".."
    or the root: such names always exist.
  */
  ghost predicate Coherent(resolve: Realpath) {
    forall p :: p != "" && resolve(DirName(p)).Ok? && !IsComponent(BaseName(p)) ==> resolve(p) != Err(ENOENT)
  }

  /** `v` is a canonical path inside the root. */
  ghost predicate Inside(v: string, root: seq<Component>) {
    exists cs: seq<Component> :: root <= cs && v == Show(cs)
  }

  lemma {:induction false} RenderAppend(cs: seq<Component>, c: Component)
    ensures Render(cs + [c]) == Render(cs) + "/" + c
  {
    if cs == [] {
      assert cs + [c] == [c] && [c][1..] == [];
    } else {
      assert (cs + [c])[1..] == cs[1..] + [c];
      RenderAppend(cs[1..], c);
    }
  }

  /** The path of a name in a directory that exists. */
  predicate InDirectory(v: string, dir: Result<seq<Component>>, name: string) {
    dir.Ok? && IsComponent(name) && v == Render(dir.value) + "/" + name
  }

  /**
    No accepted path leads outside, and it is the file the client named: for one that exists the
    path realpath() answered, for one that is to be created the canonical path of its parent with
    the last name of the text behind it.
  */
  lemma Sandboxed(path: string, root: seq<Component>, resolve: Realpath, memory: bool)
    requires Coherent(resolve) && path != "" && Validated(path, root, resolve, memory).Ok?
    ensures var v := Validated(path, root, resolve, memory).value;
      && Inside(v, root)
      && (resolve(path).Ok? ==> v == Show(resolve(path).value))
      && (resolve(path).Err? ==> resolve(path) == Err(ENOENT) && InDirectory(v, resolve(DirName(path)), BaseName(path)))
  {
    if resolve(path).Err? {
      var parent := resolve(DirName(path)).value;
      var c := BaseName(path);
      assert IsComponent(c);
      RenderAppend(parent, c);
      var cs := parent + [c];
      assert Show(cs) == Show(parent) + (if parent == [] then "" else "/") + c;
      assert root <= cs;
    }
  }

  /**
    Exactly what is accepted: a file that exists inside the root, or a name that does not exist in a
    directory inside the root, if the text fits its buffer. What exists outside is refused with EPERM.
  */
  lemma AcceptedExactly(path: string, root: seq<Component>, resolve: Realpath, memory: bool)
    ensures var r, parent := Validated(path, root, resolve, memory), resolve(DirName(path));
      && (r.Ok? <==>
        || (resolve(path).Ok? && root <= resolve(path).value)
        || (resolve(path) == Err(ENOENT) && memory && parent.Ok? && root <= parent.value
            && |Render(parent.value)| + 1 + |BaseName(path)| < 4096))
      && (resolve(path).Ok? && !(root <= resolve(path).value) ==> r == Err(EPERM))
      && (resolve(path) == Err(ENOENT) && memory && parent.Ok? && !(root <= parent.value) ==> r == Err(EPERM))
  {
  }

  /**
    The one text that slips through uncanonical is the empty path, which dirname() and basename()
    both read as ".": it is accepted as the working directory followed by "/.". No command line
    yields an empty argument, so only a caller of its own making could pass it.
  */
  lemma EmptyPath(root: seq<Component>, resolve: Realpath, cwd: seq<Component>)
    requires resolve("") == Err(ENOENT) && resolve(".") == Ok(cwd) && root <= cwd && |Show(cwd)| + 2 < PATH_MAX
    ensures Validated("", root, resolve, true) == Ok(Render(cwd) + "/.")
    ensures !Inside(Render(cwd) + "/.", root)
  {
    assert Show(cwd) + (if cwd == [] then "" else "/") + "." == Render(cwd) + "/.";
    forall cs: seq<Component> ensures Render(cwd) + "/." != Show(cs) {
      if cs != [] {
        LastComponent(cs);
        var v := Render(cwd) + "/.";
        assert v[|v| - 2] == '/' && v[|v| - 1] == '.';
      }
    }
  }

  /** A canonical path does not end in "/.". */
  lemma {:induction false} LastComponent(cs: seq<Component>)
    requires cs != []
    ensures var r := Render(cs); |r| >= 2 && !(r[|r| - 2] == '/' && r[|r| - 1] == '.')
  {
    var n := |cs| - 1;
    var c := cs[n];
    assert cs == cs[..n] + [c];
    RenderAppend(cs[..n], c);
    if |c| == 1 {
      assert c[0] != '.' by {
        assert c == [c[0]];
      }
    } else {
      assert c[|c| - 2] in c;
    }
  }
}
