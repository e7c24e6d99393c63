/** Shared vocabulary: optional values and the few facts about finite sets used elsewhere. */
module Base {

  datatype Option<+T> = None | Some(value: T)

  lemma SubsetCardinality<T>(a: set<T>, b: set<T>)
    requires a <= b
    ensures |a| <= |b|
  {
    if a != {} {
      var x :| x in a;
      SubsetCardinality(a - {x}, b - {x});
    }
  }
}
