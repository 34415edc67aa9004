/** utils.c: the growable buffer listings are built in. Sizes are unbounded: size_t does not overflow here. */
module StringBuffer {
  import opened Core

  const INITIAL: nat := 1024

  /** The sizes of a buffer, and how many bytes reallocations have moved so far. */
  datatype Sizes = Sizes(len: nat, cap: nat, moved: nat)

  /** Doubling until `need` bytes fit. */
  function Doubled(cap: nat, need: nat): (c: nat)
    requires cap > 0
    ensures c >= need && c >= cap
    ensures c == cap || c < 2 * need
    decreases need - cap
  {
    if need > cap then Doubled(2 * cap, need) else cap
  }

  function AppendSize(b: Sizes, n: nat): Sizes
    requires b.cap > 0
  {
    if b.len + n + 1 > b.cap then Sizes(b.len + n, Doubled(2 * b.cap, b.len + n + 1), b.moved + b.cap)
    else b.(len := b.len + n)
  }

  /** Room for the terminator, never more than twice what is needed, and cheap growth. */
  predicate Fits(b: Sizes) {
    && b.len + 1 <= b.cap && b.cap >= INITIAL
    && (b.cap == INITIAL || b.cap < 2 * (b.len + 1))
    && b.moved + INITIAL <= b.cap
  }

  lemma AppendFits(b: Sizes, n: nat)
    requires Fits(b)
    ensures Fits(AppendSize(b, n))
  {
  }

  function Total(ns: seq<nat>): nat {
    if ns == [] then 0 else Total(ns[..|ns| - 1]) + ns[|ns| - 1]
  }

  /** The sizes after appending pieces of these lengths. */
  function Appended(ns: seq<nat>): (b: Sizes)
    ensures b.cap > 0
  {
    if ns == [] then Sizes(0, INITIAL, 0) else AppendSize(Appended(ns[..|ns| - 1]), ns[|ns| - 1])
  }

  /**
    However a text is cut into pieces: the buffer is never more than twice too large, and all its
    moves together copied fewer bytes than it now has.
  */
  lemma {:induction false} GrowthIsCheap(ns: seq<nat>)
    ensures var b := Appended(ns);
      b.len == Total(ns) && b.len + 1 <= b.cap && (b.cap == INITIAL || b.cap < 2 * (b.len + 1)) && b.moved < b.cap
    ensures Fits(Appended(ns))
  {
    if ns != [] {
      GrowthIsCheap(ns[..|ns| - 1]);
      AppendFits(Appended(ns[..|ns| - 1]), ns[|ns| - 1]);
    }
  }

  /** strbuf_t. */
  class Buffer {
    var data: array?<byte>
    var len: nat
    var cap: nat
    ghost var moved: nat

    ghost predicate Valid()
      reads this, data
    {
      data != null ==> data.Length == cap && Fits(SizesNow()) && data[len] == 0
    }

    ghost function SizesNow(): Sizes
      reads this
    {
      Sizes(len, cap, moved)
    }

    ghost function Contents(): seq<byte>
      requires Valid()
      reads this, data
    {
      if data == null then [] else data[..len]
    }

    /** A zeroed structure. */
    constructor ()
      ensures Valid() && data == null && Contents() == []
    {
      data, len, cap, moved := null, 0, 0, 0;
    }

    /** sb_init. `memory`: malloc() succeeds. */
    method Init(memory: bool) returns (rc: Result<()>)
      modifies this
      ensures rc == if memory then Ok(()) else Err(ENOMEM)
      ensures Valid() && Contents() == [] && (data != null <==> memory)
      ensures memory ==> fresh(data) && SizesNow() == Appended([])
    {
      cap, len, moved, data := INITIAL, 0, 0, null;
      if !memory {
        return Err(ENOMEM);
      }
      var block := new byte[INITIAL];
      block[0] := 0;
      data := block;
      rc := Ok(());
    }

    /** sb_append: all of `s` behind what is there, or nothing. */
    method Append(s: seq<byte>, memory: bool) returns (rc: int)
      requires Valid()
      modifies this, data
      ensures Valid() && (rc == 0 || rc == -1) && (memory ==> rc == 0)
      ensures Contents() == if rc == 0 then old(Contents()) + s else old(Contents())
      ensures rc == 0 && old(data) != null ==> SizesNow() == AppendSize(old(SizesNow()), |s|)
      ensures rc == 0 && old(data) == null ==> SizesNow() == AppendSize(Appended([]), |s|)
    {
      if data == null {
        var r := Init(memory);
        if r.Err? {
          return -1;
        }
      }
      ghost var before := SizesNow();
      if len + |s| + 1 > cap {
        var newCap := if cap > 0 then cap * 2 else INITIAL;
        while len + |s| + 1 > newCap
          invariant newCap >= 2 * cap && Doubled(newCap, len + |s| + 1) == Doubled(2 * cap, len + |s| + 1)
          decreases len + |s| + 1 - newCap
        {
          newCap := newCap * 2;
        }
        if !memory {
          return -1;
        }
        Reallocate(newCap);
      }
      Copy(s);
      assert SizesNow() == AppendSize(before, |s|);
      AppendFits(before, |s|);
      rc := 0;
    }

    /** realloc() to more room. */
    method Reallocate(newCap: nat)
      requires data != null && data.Length == cap && len < cap <= newCap
      modifies this
      ensures fresh(data) && data.Length == cap == newCap && len == old(len) && moved == old(moved) + old(cap)
      ensures data[..len] == old(data[..len])
    {
      var block := new byte[newCap];
      var i := 0;
      while i < cap
        invariant 0 <= i <= cap
        invariant block[..i] == data[..i]
        modifies block
      {
        block[i] := data[i];
        i := i + 1;
      }
      assert block[..len] == block[..cap][..len] == data[..cap][..len] == data[..len];
      moved := moved + cap;
      data, cap := block, newCap;
    }

    /** memcpy() behind the contents, the new length and the terminator. */
    method Copy(s: seq<byte>)
      requires data != null && data.Length == cap && len + |s| + 1 <= cap
      modifies `len, data
      ensures len == old(len) + |s| && data[..len] == old(data[..len]) + s && data[len] == 0
    {
      var i := 0;
      while i < |s|
        invariant 0 <= i <= |s|
        invariant data[..len + i] == old(data[..len]) + s[..i]
        modifies data
      {
        data[len + i] := s[i];
        i := i + 1;
      }
      assert s[..i] == s;
      len := len + |s|;
      data[len] := 0;
    }
  }
}
