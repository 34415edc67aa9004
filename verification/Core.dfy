/** Shared vocabulary: results of system calls, error numbers and C strings. */
module Core {

  /** The errno values the modelled code distinguishes. */
  datatype Errno =
    | EINVAL | ENOENT | EACCES | EALREADY | ENOMEM | EIDRM | EPERM | ENAMETOOLONG
    | EIO | EPROTO | EAGAIN | EEXIST | EISDIR | EOTHER

  datatype Option<+T> = None | Some(value: T)

  datatype Result<+T> = Ok(value: T) | Err(errno: Errno)

  /** A single octet. */
  type byte = x: int | 0 <= x < 256

  /** The room for a path with its terminator, as limits.h has it. */
  const PATH_MAX: nat := 4096

  function Min(a: int, b: int): int {
    if a < b then a else b
  }

  function Max(a: int, b: int): int {
    if a < b then b else a
  }

  /** `snprintf(dst, size, "%s", s)`: the text is cut so that the terminator fits. */
  function Fit(s: string, size: nat): (r: string)
    requires size > 0
    ensures |r| < size && r <= s
    ensures |s| < size ==> r == s
  {
    if |s| < size then s else s[..size - 1]
  }

  // ---------------------------------------------------------------- runs as sequences

  /** A run and its last step. */
  lemma OneMore<T>(a: seq<T>, x: T)
    ensures (a + [x])[..|a + [x]| - 1] == a && (a + [x])[|a + [x]| - 1] == x
  {
  }

  /** The last step of a continuation is the last step of the longer run. */
  lemma LastApart<T>(a: seq<T>, b: seq<T>)
    requires b != []
    ensures a + b == a + b[..|b| - 1] + [b[|b| - 1]]
  {
  }

  lemma PrefixOfPrefix<T>(a: seq<T>, n: nat, m: nat)
    requires m <= n <= |a|
    ensures a[..n][..m] == a[..m]
  {
  }

  /** What does not hold at `k` and holds at `n` has held since some step in between. */
  lemma {:induction false} HoldsSince(holds: nat -> bool, k: nat, n: nat) returns (m: nat)
    requires k <= n && !holds(k) && holds(n)
    ensures k <= m < n && !holds(m) && forall j :: m < j <= n ==> holds(j)
  {
    m := n - 1;
    if holds(m) {
      m := HoldsSince(holds, k, m);
    }
  }
}
