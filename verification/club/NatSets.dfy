/** Ordered iteration over sets of numbers. */
module NatSets {

  predicate IsLeast(s: set<nat>, m: nat) {
    m in s && forall x <- s :: m <= x
  }

  lemma {:induction false} LeastExists(s: set<nat>)
    requires s != {}
    ensures exists m :: IsLeast(s, m)
  {
    var x :| x in s;
    var rest := s - {x};
    assert forall y <- s :: y == x || y in rest;
    if rest == {} {
      assert IsLeast(s, x);
    } else {
      LeastExists(rest);
      var m :| IsLeast(rest, m);
      assert IsLeast(s, if x < m then x else m);
    }
  }

  /** `*begin()` of an ordered container. */
  function Least(s: set<nat>): (m: nat)
    requires s != {}
    ensures IsLeast(s, m)
  {
    LeastExists(s);
    var m :| IsLeast(s, m);
    m
  }

  /** The elements in increasing order. */
  function Sorted(s: set<nat>): (q: seq<nat>)
    ensures |q| == |s|
    ensures forall i :: 0 <= i < |q| ==> q[i] in s
    ensures forall x <- s :: x in q
  {
    if s == {} then [] else [Least(s)] + Sorted(s - {Least(s)})
  }

  lemma {:induction false} SortedAscends(s: set<nat>)
    ensures forall i, j :: 0 <= i < j < |Sorted(s)| ==> Sorted(s)[i] < Sorted(s)[j]
  {
    if s != {} {
      SortedAscends(s - {Least(s)});
    }
  }
}
