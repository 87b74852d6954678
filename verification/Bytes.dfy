/** Byte strings and the bytewise order in which the store's keys and block hashes are sorted. */
module Bytes {

  type byte = x: int | 0 <= x < 256

  const U64_SIZE: nat := 0x1_0000_0000_0000_0000
  const U32_SIZE: nat := 0x1_0000_0000

  type u64 = x: int | 0 <= x < 0x1_0000_0000_0000_0000

  /** The value a uint64 holds after an operation whose exact result is `x`. */
  function Wrap64(x: nat): u64 {
    x % U64_SIZE
  }

  /** Lexicographic order, a proper prefix coming first (Go's `<` on strings, bytes.Compare). */
  predicate LexLess(a: seq<byte>, b: seq<byte>) {
    b != [] && (a == [] || a[0] < b[0] || (a[0] == b[0] && LexLess(a[1..], b[1..])))
  }

  lemma {:induction false} LexIrreflexive(a: seq<byte>)
    ensures !LexLess(a, a)
  {
    if a != [] {
      LexIrreflexive(a[1..]);
    }
  }

  lemma {:induction false} LexTransitive(a: seq<byte>, b: seq<byte>, c: seq<byte>)
    requires LexLess(a, b) && LexLess(b, c)
    ensures LexLess(a, c)
  {
    if a != [] && a[0] == b[0] && b[0] == c[0] {
      LexTransitive(a[1..], b[1..], c[1..]);
    }
  }

  lemma {:induction false} LexTotal(a: seq<byte>, b: seq<byte>)
    ensures a == b || LexLess(a, b) || LexLess(b, a)
  {
    if a != [] && b != [] && a[0] == b[0] {
      LexTotal(a[1..], b[1..]);
      assert a == [a[0]] + a[1..] && b == [b[0]] + b[1..];
    }
  }
}
