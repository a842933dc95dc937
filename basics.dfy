/** Small helpers shared by every module: an optional value and Python's list idioms. */
module Basics {

  /** A value or Python's `None`. */
  datatype Option<+T> = None | Some(value: T)

  function Min(a: int, b: int): int { if a <= b then a else b }

  function Max(a: int, b: int): int { if a >= b then a else b }

  /** `[x] * n`. */
  function Replicate<T>(x: T, n: nat): (r: seq<T>)
    ensures |r| == n && forall i :: 0 <= i < n ==> r[i] == x
  {
    seq(n, _ => x)
  }

  /** Concatenation is associative; stated once so that proofs need not rediscover it. */
  lemma AppendAssoc<T>(a: seq<T>, b: seq<T>, c: seq<T>)
    ensures (a + b) + c == a + (b + c)
  {
  }

  /** Two extensions in a row extend by their concatenation. */
  lemma ExtendTwice<T>(x: seq<T>, y: seq<T>, z: seq<T>, u: seq<T>, v: seq<T>)
    requires y == x + u && z == y + v
    ensures z == x + (u + v)
  {
    AppendAssoc(x, u, v);
  }

  /** Of two prefixes at least one of which is empty, either may go first. */
  lemma SwapEmpty<T>(a: seq<T>, b: seq<T>, c: seq<T>)
    requires a == [] || b == []
    ensures a + (b + c) == b + (a + c)
  {
    if a == [] {
      assert a + (b + c) == b + c && a + c == c;
    } else {
      assert b + (a + c) == a + c && b + c == c;
    }
  }

  /** A non-empty sequence is its head followed by its tail. */
  lemma HeadTail<T>(s: seq<T>)
    requires s != []
    ensures s == [s[0]] + s[1..]
  {
  }
}
