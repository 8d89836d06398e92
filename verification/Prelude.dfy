/** Shared definitions: optional values and the 64-bit unsigned arithmetic of the indexer. */
module Prelude {

  datatype Option<+T> = None | Some(value: T)

  const TWO_64: int := 0x1_0000_0000_0000_0000

  type uint64 = x: int | 0 <= x < TWO_64

  /** What an unsigned 64-bit operation leaves of a mathematical result. */
  function Wrap(x: int): uint64 {
    x % TWO_64
  }

  lemma NoWrap(x: int)
    requires 0 <= x < TWO_64
    ensures Wrap(x) == x
  {
  }

  function Min(a: int, b: int): int {
    if a <= b then a else b
  }

  function Max(a: int, b: int): int {
    if a <= b then b else a
  }

  /** `a` agrees with `b` wherever `a` is defined. */
  ghost predicate Submap<K, V>(a: map<K, V>, b: map<K, V>) {
    forall k | k in a :: k in b && a[k] == b[k]
  }

  ghost predicate NoDuplicates<T>(s: seq<T>) {
    forall i, j | 0 <= i < j < |s| :: s[i] != s[j]
  }
}
