// The containers base::flat_map and base::flat_set keep their keys sorted, and
// the loops of this project visit them in that order.  Keys are numbers here:
// a pointer or an identifier stands for its place in that order.
module FlatMap {

  lemma {:induction false} LeastBelow(s: set<nat>, y: nat)
    requires y in s
    ensures exists m :: m in s && forall x :: x in s ==> m <= x
    decreases |s|
  {
    if z :| z in s && z < y {
      var rest := s - {y};
      LeastBelow(rest, z);
      var m :| m in rest && forall x :: x in rest ==> m <= x;
      assert forall x :: x in s ==> x == y || x in rest;
      assert m <= z;
      assert m in s && forall x :: x in s ==> m <= x;
    }
  }

  /** The key that a loop over a container visits first; it then goes on with the others. */
  function Least(s: set<nat>): (m: nat)
    requires s != {}
    ensures m in s && forall x :: x in s ==> m <= x
  {
    assert exists m :: m in s && forall x :: x in s ==> m <= x by {
      var y :| y in s;
      LeastBelow(s, y);
    }
    var m :| m in s && forall x :: x in s ==> m <= x;
    m
  }
}
