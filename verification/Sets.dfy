/** Counting members of finite sets. */
module Sets {

  lemma SubsetSize<T>(a: set<T>, b: set<T>)
    requires a <= b
    ensures |b| == |a| + |b - a|
    ensures |a| == |b| <==> a == b
  {
    assert b == a + (b - a);
    assert a != b ==> b - a != {};
  }
}
