/** The keys of an integer-keyed dict in ascending order: `sorted(d.keys())`. */
module Keys {

  lemma SomeElement<A>(s: set<A>) returns (x: A)
    requires s != {}
    ensures x in s
  {
    x :| x in s;
  }

  lemma {:induction false} MinExists(s: set<int>)
    requires s != {}
    ensures exists m :: m in s && forall x :: x in s ==> m <= x
  {
    var x := SomeElement(s);
    var r := s - {x};
    if r != {} {
      MinExists(r);
      var m: int :| m in r && forall y :: y in r ==> m <= y;
      var least := if m <= x then m else x;
      forall y | y in s ensures least <= y {
        if y != x { assert y in r; }
      }
      assert least in s;
    } else {
      forall y | y in s ensures x <= y {
        assert y !in r;
      }
    }
  }

  function SortedKeys(s: set<int>): (r: seq<int>)
    ensures forall i, j :: 0 <= i < j < |r| ==> r[i] < r[j]
    ensures forall x :: x in r <==> x in s
  {
    if s == {} then []
    else
      MinExists(s);
      var m :| m in s && forall x :: x in s ==> m <= x;
      [m] + SortedKeys(s - {m})
  }
}
