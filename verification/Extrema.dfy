/** The least and the greatest of a finite set of numbers. */
module Extrema {
  ghost function Least(s: set<nat>): (least: nat)
    requires s != {}
    ensures least in s && forall x :: x in s ==> least <= x
    decreases s
  {
    var x :| x in s;
    if s == {x} then x
    else
      var rest := Least(s - {x});
      assert forall y :: y in s ==> y == x || y in s - {x};
      if x < rest then x else rest
  }

  /** `Math.max(0, ...s)` */
  ghost function Greatest(s: set<nat>): (greatest: nat)
    ensures forall x :: x in s ==> x <= greatest
    ensures greatest == 0 || greatest in s
    decreases s
  {
    if s == {} then 0
    else
      var x :| x in s;
      var rest := Greatest(s - {x});
      assert forall y :: y in s ==> y == x || y in s - {x};
      if x < rest then rest else x
  }

  lemma LeastIsUnique(s: set<nat>, m: nat)
    requires m in s && forall x :: x in s ==> m <= x
    ensures m == Least(s)
  {}

  lemma GreatestIsUnique(s: set<nat>, m: nat)
    requires (forall x :: x in s ==> x <= m) && (m == 0 || m in s)
    ensures m == Greatest(s)
  {}

  method FindLeast(s: set<nat>) returns (least: nat)
    requires s != {}
    ensures least == Least(s)
  {
    least :| least in s;
    var todo := s - {least};
    while todo != {}
      invariant todo <= s && least in s
      invariant forall x :: x in s && x !in todo ==> least <= x
      decreases todo
    {
      var x :| x in todo;
      if x < least { least := x; }
      todo := todo - {x};
    }
    LeastIsUnique(s, least);
  }

  method FindGreatest(s: set<nat>) returns (greatest: nat)
    ensures greatest == Greatest(s)
  {
    greatest := 0;
    var todo := s;
    while todo != {}
      invariant todo <= s
      invariant forall x :: x in s && x !in todo ==> x <= greatest
      invariant greatest == 0 || greatest in s
      decreases todo
    {
      var x :| x in todo;
      if greatest < x { greatest := x; }
      todo := todo - {x};
    }
    GreatestIsUnique(s, greatest);
  }
}
