/** Identifiers in ascending order, whatever order a set or a dictionary held them in. */
module Ordering {

  ghost predicate IsLeast(m: nat, s: set<nat>) { m in s && forall y | y in s :: m <= y }

  lemma {:induction false} LeastExists(s: set<nat>)
    requires s != {}
    ensures exists m :: IsLeast(m, s)
    decreases |s|
  {
    var m :| m in s;
    var others := s - {m};
    if others == {} {
      assert forall y | y in s :: y == m || y in others;
      assert IsLeast(m, s);
    } else {
      LeastExists(others);
      var rest :| IsLeast(rest, others);
      assert forall y | y in s :: y == m || y in others;
      assert IsLeast(if m < rest then m else rest, s);
    }
  }

  function LeastOf(s: set<nat>): (m: nat)
    requires s != {}
    ensures IsLeast(m, s)
  {
    LeastExists(s);
    assert forall m, n | IsLeast(m, s) && IsLeast(n, s) :: m == n;
    var m :| m in s && forall y | y in s :: m <= y;
    m
  }

  function SortedIds(s: set<nat>): (r: seq<nat>)
    ensures forall g :: g in r <==> g in s
    ensures forall i, j | 0 <= i < j < |r| :: r[i] < r[j]
    decreases |s|
  {
    if s == {} then []
    else
      var m := LeastOf(s);
      var rest := SortedIds(s - {m});
      assert forall k | 0 <= k < |rest| :: rest[k] in rest && m < rest[k];
      [m] + rest
  }
}
