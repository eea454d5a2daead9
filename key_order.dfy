/** Listing the keys of a map once each, in an order nothing may rely on: any order, sorted included. */
module KeyOrder {

  predicate Distinct<K(==)>(ks: seq<K>) {
    forall i, j :: 0 <= i < j < |ks| ==> ks[i] != ks[j]
  }

  /** Lists every element of `s` exactly once, in whatever order the choices fall (Go's sorted order is one of them). */
  method Enumerate<K(==)>(s: set<K>) returns (ks: seq<K>)
    ensures Distinct(ks)
    ensures forall k :: k in ks <==> k in s
  {
    ks := [];
    var rest := s;
    while rest != {}
      invariant rest <= s
      invariant Distinct(ks)
      invariant forall k :: k in ks <==> k in s && k !in rest
      decreases rest
    {
      var k :| k in rest;
      ks := ks + [k];
      rest := rest - {k};
    }
  }
}
