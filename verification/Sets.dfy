/** One fact about finite sets that several termination measures rest on: a subset
    is no larger than the set, and a proper subset is smaller. It is stated here
    once, for elements of any type, and used wherever a loop runs out of something
    that is left: nodes not yet visited, roots not yet merged away, constraints not
    yet taken, positions not yet passed. */
module Sets {

  lemma SubsetIsSmaller<T>(xs: set<T>, ys: set<T>)
    requires xs <= ys
    ensures |xs| <= |ys| && (xs != ys ==> |xs| < |ys|)
  {
    assert ys == xs + (ys - xs);
    assert |ys| == |xs| + |ys - xs|;
  }
}
