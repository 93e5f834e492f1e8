/**
 * The order in which a C++ `std::set` hands out its elements: ascending under
 * the strict total order its comparator defines, each element once.
 */
module Ordering {

  /** `lt` is irreflexive, transitive and relates any two distinct values. */
  ghost predicate StrictTotalOrder<K(!new)>(lt: (K, K) -> bool) {
    && (forall x :: !lt(x, x))
    && (forall x, y, z :: lt(x, y) && lt(y, z) ==> lt(x, z))
    && (forall x, y :: x != y ==> lt(x, y) || lt(y, x))
  }

  /** Every element of `s` is strictly below every later one. */
  ghost predicate Ascending<K>(s: seq<K>, lt: (K, K) -> bool) {
    forall i, j :: 0 <= i < j < |s| ==> lt(s[i], s[j])
  }

  /** The least element of a non-empty set, found by one pass over it. */
  method Least<K(==,!new)>(s: set<K>, lt: (K, K) -> bool) returns (m: K)
    requires s != {}
    requires StrictTotalOrder(lt)
    ensures m in s
    ensures forall y :: y in s && y != m ==> lt(m, y)
  {
    m :| m in s;
    var rest := s - {m};
    while rest != {}
      invariant m in s && m !in rest && rest <= s
      invariant forall y :: y in s - rest && y != m ==> lt(m, y)
      decreases rest
    {
      var y :| y in rest;
      if lt(y, m) {
        forall z | z in s - rest && z != m
          ensures lt(y, z)
        {
          assert lt(m, z) && lt(y, m);
        }
        m := y;
      }
      rest := rest - {y};
    }
  }

  /**
   * The elements of `s` in the order a `std::set` iterates them: strictly
   * ascending, so no element is listed twice, and each element of `s` listed.
   */
  method InOrder<K(==,!new)>(s: set<K>, lt: (K, K) -> bool) returns (r: seq<K>)
    requires StrictTotalOrder(lt)
    ensures Ascending(r, lt)
    ensures forall x :: x in r <==> x in s
    ensures |r| == |s|
  {
    r := [];
    var rest := s;
    while rest != {}
      invariant rest <= s
      invariant forall x :: x in s <==> x in r || x in rest
      invariant Ascending(r, lt)
      invariant forall i, y :: 0 <= i < |r| && y in rest ==> lt(r[i], y)
      invariant |r| + |rest| == |s|
      decreases rest
    {
      var m := Least(rest, lt);
      r := r + [m];
      rest := rest - {m};
    }
  }
}
