/**
 * Byte strings, the contents of a C++ `std::string` or `uint256`, and the
 * order in which `std::string::compare` and `memcmp` put them.
 */
module Bytes {
  import opened Ordering

  newtype byte = x: int | 0 <= x < 256

  type Bytes = seq<byte>

  /**
   * Lexicographic order on unsigned bytes: the first differing byte decides,
   * and a proper prefix comes before the longer string.
   */
  predicate LexLess(a: Bytes, b: Bytes) {
    if |a| == 0 then |b| > 0
    else |b| > 0 && (a[0] < b[0] || (a[0] == b[0] && LexLess(a[1..], b[1..])))
  }

  lemma {:induction false} LexIrreflexive(a: Bytes)
    ensures !LexLess(a, a)
  {
    if |a| > 0 {
      LexIrreflexive(a[1..]);
    }
  }

  lemma {:induction false} LexTransitive(a: Bytes, b: Bytes, c: Bytes)
    requires LexLess(a, b) && LexLess(b, c)
    ensures LexLess(a, c)
  {
    if |a| > 0 && a[0] == b[0] && b[0] == c[0] {
      LexTransitive(a[1..], b[1..], c[1..]);
    }
  }

  lemma {:induction false} LexConnected(a: Bytes, b: Bytes)
    requires a != b
    ensures LexLess(a, b) || LexLess(b, a)
  {
    if |a| > 0 && |b| > 0 && a[0] == b[0] {
      assert a == [a[0]] + a[1..] && b == [b[0]] + b[1..];
      LexConnected(a[1..], b[1..]);
    }
  }

  /** So a `std::set<std::string>` is iterated in `LexLess` order. */
  lemma LexLessIsStrictTotalOrder()
    ensures StrictTotalOrder(LexLess)
  {
    forall a: Bytes
      ensures !LexLess(a, a)
    {
      LexIrreflexive(a);
    }
    forall a: Bytes, b: Bytes, c: Bytes | LexLess(a, b) && LexLess(b, c)
      ensures LexLess(a, c)
    {
      LexTransitive(a, b, c);
    }
    forall a: Bytes, b: Bytes | a != b
      ensures LexLess(a, b) || LexLess(b, a)
    {
      LexConnected(a, b);
    }
  }
}
