/** The iteration order of a `std::set` of ids: ascending. */
module Ordered {

  /** The least element of a non-empty set of naturals. */
  function Min(s: set<nat>): (m: nat)
    requires s != {}
    ensures m in s && forall y :: y in s ==> m <= y
  {
    MinExists(s);
    var m :| IsMin(m, s); m
  }

  predicate IsMin(m: nat, s: set<nat>)
  {
    m in s && forall y :: y in s ==> m <= y
  }

  lemma {:induction false} MinExists(s: set<nat>)
    requires s != {}
    ensures exists m :: IsMin(m, s)
  {
    var x :| x in s;
    var rest := s - {x};
    if rest == {} {
      assert IsMin(x, s) by {
        forall y | y in s ensures x <= y {
          assert y !in rest;
        }
      }
    } else {
      MinExists(rest);
      var m :| IsMin(m, rest);
      var w := if x < m then x else m;
      assert IsMin(w, s) by {
        forall y | y in s ensures w <= y {
          if y != x { assert y in rest; }
        }
      }
    }
  }

  /** The elements of `s` in the order a `std::set` visits them. */
  function Ascending(s: set<nat>): (r: seq<nat>)
    ensures |r| == |s|
    ensures forall x :: x in s <==> x in r
    ensures forall i, j :: 0 <= i < j < |r| ==> r[i] < r[j]
    decreases |s|
  {
    if s == {} then []
    else
      var m := Min(s);
      var rest := Ascending(s - {m});
      AscendingCons(m, s, rest);
      [m] + rest
  }

  /** The least element in front of the others in ascending order gives
      all of them in ascending order. */
  lemma AscendingCons(m: nat, s: set<nat>, rest: seq<nat>)
    requires IsMin(m, s)
    requires |rest| == |s - {m}|
    requires forall x :: x in s - {m} <==> x in rest
    requires forall i, j :: 0 <= i < j < |rest| ==> rest[i] < rest[j]
    ensures |[m] + rest| == |s|
    ensures forall x :: x in s <==> x in [m] + rest
    ensures forall i, j :: 0 <= i < j < |[m] + rest| ==> ([m] + rest)[i] < ([m] + rest)[j]
  {
    var r := [m] + rest;
    forall i, j | 0 <= i < j < |r| ensures r[i] < r[j] {
      assert r[j] == rest[j - 1];
      if i == 0 {
        assert rest[j - 1] in s - {m};
      } else {
        assert r[i] == rest[i - 1];
      }
    }
  }
}
