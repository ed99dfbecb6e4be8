/** Python's `sorted` with a tuple of numbers as the key: stable, ascending. */
module Ranking {

  /** A tuple of numbers, compared one after the other. */
  type Key = seq<real>

  predicate Le(a: Key, b: Key) {
    a == [] || (b != [] && (a[0] < b[0] || (a[0] == b[0] && Le(a[1..], b[1..]))))
  }

  lemma {:induction false} LeTotal(a: Key, b: Key)
    ensures Le(a, b) || Le(b, a)
  {
    if a != [] && b != [] && a[0] == b[0] { LeTotal(a[1..], b[1..]); }
  }

  lemma {:induction false} LeTransitive(a: Key, b: Key, c: Key)
    requires Le(a, b) && Le(b, c)
    ensures Le(a, c)
  {
    if a != [] && a[0] == b[0] == c[0] { LeTransitive(a[1..], b[1..], c[1..]); }
  }

  /** Put `x` after everything that is not greater. */
  function Insert<T>(key: T -> Key, s: seq<T>, x: T): seq<T> {
    if s == [] then [x]
    else if Le(key(s[|s| - 1]), key(x)) then s + [x]
    else Insert(key, s[..|s| - 1], x) + [s[|s| - 1]]
  }

  function SortBy<T>(key: T -> Key, s: seq<T>): seq<T> {
    if s == [] then [] else Insert(key, SortBy(key, s[..|s| - 1]), s[|s| - 1])
  }

  ghost predicate Ascends<T>(key: T -> Key, s: seq<T>) {
    forall i, j :: 0 <= i < j < |s| ==> Le(key(s[i]), key(s[j]))
  }

  lemma {:induction false} InsertIs<T>(key: T -> Key, s: seq<T>, x: T)
    requires Ascends(key, s)
    ensures multiset(Insert(key, s, x)) == multiset(s) + multiset{x}
    ensures Ascends(key, Insert(key, s, x))
  {
    hide Le;
    if s != [] {
      var h, l := s[..|s| - 1], s[|s| - 1];
      assert s == h + [l];
      if Le(key(l), key(x)) {
        forall i | 0 <= i < |s| ensures Le(key(s[i]), key(x)) {
          if i < |h| { LeTransitive(key(s[i]), key(l), key(x)); }
        }
      } else {
        LeTotal(key(l), key(x));
        InsertIs(key, h, x);
        var r := Insert(key, h, x);
        forall i | 0 <= i < |r| ensures Le(key(r[i]), key(l)) {
          assert r[i] in multiset(r);
          if r[i] != x {
            assert r[i] in multiset(h);
            var k :| 0 <= k < |h| && h[k] == r[i];
            assert Le(key(s[k]), key(s[|s| - 1]));
          }
        }
      }
    }
  }

  /** Sorting keeps the elements and puts them in order. */
  lemma {:induction false} SortIs<T>(key: T -> Key, s: seq<T>)
    ensures multiset(SortBy(key, s)) == multiset(s) && |SortBy(key, s)| == |s|
    ensures Ascends(key, SortBy(key, s))
  {
    hide Insert, Le;
    if s != [] {
      SortIs(key, s[..|s| - 1]);
      InsertIs(key, SortBy(key, s[..|s| - 1]), s[|s| - 1]);
      assert s == s[..|s| - 1] + [s[|s| - 1]];
    }
    SameSize(SortBy(key, s), s);
  }

  lemma SameSize<T>(a: seq<T>, b: seq<T>)
    requires multiset(a) == multiset(b)
    ensures |a| == |b|
    ensures forall x :: x in a <==> x in b
  {
    assert |multiset(a)| == |a| && |multiset(b)| == |b|;
    forall x ensures x in a <==> x in b {
      assert x in multiset(a) <==> x in a;
      assert x in multiset(b) <==> x in b;
    }
  }
}
