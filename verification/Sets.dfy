module Sets {
  function Elements<T>(s: seq<T>): set<T> {
    set x | x in s
  }

  lemma SubsetIsSmaller<T>(a: set<T>, b: set<T>)
    requires a <= b
    ensures |a| <= |b|
  {
    assert b == a + (b - a);
  }
}
