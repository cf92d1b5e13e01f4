/** Orders in which a set or the keys of a map are walked. */
module Orders {
  /** The order meets each element, once. */
  ghost predicate Enumerates<T>(order: seq<T>, s: set<T>) {
    && (forall x :: x in order ==> x in s) && (forall x :: x in s ==> x in order)
    && (forall i, j :: 0 <= i < j < |order| ==> order[i] != order[j])
  }

  /** Every finite set can be walked. */
  lemma SomeOrder<T>(s: set<T>) returns (order: seq<T>)
    ensures Enumerates(order, s)
  {
    order := [];
    if s != {} {
      var x :| x in s;
      order := SomeOrder(s - {x});
      order := order + [x];
    }
  }
}
