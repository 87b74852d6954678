/** Cardinality facts that several modules use. */
module Sets {

  function Elements(s: seq<nat>): set<nat> {
    set x | x in s
  }

  lemma CardinalityGrows<T>(a: set<T>, b: set<T>)
    requires a <= b
    ensures |a| <= |b|
  {
    assert b == a + (b - a);
  }

  lemma SameSize<T>(a: set<T>, b: set<T>)
    requires a <= b && |a| == |b|
    ensures a == b
  {
    assert b == a + (b - a);
  }
}
