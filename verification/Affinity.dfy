/**
 The in-memory conversation affinity map (conversation_affinity.py): bindings from a fingerprint
 to an account, kept for a time to live and bounded by dropping the least recently seen.
 */
module Affinity {
  import opened Texts

  datatype Binding = Binding(key: Text, account: Text, boundAt: real, lastSeen: real, hits: int)

  /** A dict: its items in insertion order. */
  type Table = seq<Binding>

  ghost predicate UniqueKeys(t: Table) {
    forall i, j :: 0 <= i < j < |t| ==> t[i].key != t[j].key
  }

  function Find(t: Table, k: Text): Option<Binding> {
    if t == [] then None else if t[0].key == k then Some(t[0]) else Find(t[1..], k)
  }

  /** `t[b.key] = b`. */
  function Put(t: Table, b: Binding): Table {
    if t == [] then [b] else if t[0].key == b.key then [b] + t[1..] else [t[0]] + Put(t[1..], b)
  }

  /** `t.pop(k, None)` for every key of `ks`. */
  function Without(t: Table, ks: set<Text>): Table {
    if t == [] then [] else if t[0].key in ks then Without(t[1..], ks) else [t[0]] + Without(t[1..], ks)
  }

  // ---------- _purge_locked ----------

  datatype Config = Config(ttl: real, max: nat)

  predicate Expired(cfg: Config, b: Binding, now: real) { now - b.lastSeen > cfg.ttl }

  function Live(cfg: Config, t: Table, now: real): Table {
    if t == [] then []
    else if Expired(cfg, t[0], now) then Live(cfg, t[1..], now)
    else [t[0]] + Live(cfg, t[1..], now)
  }

  /** Where `b` goes in a list sorted by `lastSeen`: after everything that is not later. */
  function Place(s: Table, b: Binding): (p: nat)
    ensures p <= |s|
    ensures forall i :: 0 <= i < p ==> s[i].lastSeen <= b.lastSeen
    ensures p < |s| ==> s[p].lastSeen > b.lastSeen
  {
    if s == [] || s[0].lastSeen > b.lastSeen then 0 else 1 + Place(s[1..], b)
  }

  /** `sorted(..., key=last_seen)`, which is stable. */
  function Sorted(t: Table): Table {
    if t == [] then []
    else
      var s, b := Sorted(t[..|t| - 1]), t[|t| - 1];
      s[..Place(s, b)] + [b] + s[Place(s, b)..]
  }

  function KeysOf(t: Table): set<Text> { set b | b in t :: b.key }

  /** The keys that go when a table is over its bound: the least recently seen. */
  function Oldest(cfg: Config, t: Table): (r: set<Text>) {
    if |t| <= cfg.max then {} else KeysOf(Sorted(t)[..Min(|t| - cfg.max, |Sorted(t)|)])
  }

  function Min(a: nat, b: nat): nat { if a < b then a else b }

  /** `_purge_locked`. */
  function Purged(cfg: Config, t: Table, now: real): Table {
    var live := Live(cfg, t, now);
    Without(live, Oldest(cfg, live))
  }

  // ---------- operations ----------

  /** `get_affinity`: the table after it and its result.  The clock is read twice. */
  function Got(cfg: Config, t: Table, k: Text, now: real, later: real): (Table, Option<Text>) {
    if k == [] then (t, None)
    else
      var u := Purged(cfg, t, now);
      match Find(u, k)
      case None => (u, None)
      case Some(b) =>
        if b.account == [] then (u, None)
        else (Put(u, b.(lastSeen := later, hits := b.hits + 1)), Some(b.account))
  }

  /** `bind_affinity`. */
  function Bound(cfg: Config, t: Table, k: Text, account: Text, now: real): Table {
    if k == [] || account == [] then t
    else
      var u := Purged(cfg, t, now);
      match Find(u, k)
      case None => Put(u, Binding(k, account, now, now, 1))
      case Some(b) =>
        if b.account == account then Put(u, b.(lastSeen := now, hits := b.hits + 1))
        else Put(u, Binding(k, account, now, now, b.hits + 1))
  }

  /** `clear_affinity`. */
  function Cleared(t: Table, k: Text): Table {
    if k == [] then t else Without(t, {k})
  }

  /** `rebind_on_failover`: a binding that has meanwhile moved elsewhere is left alone. */
  predicate Moved(t: Table, k: Text, failed: Text) {
    Find(t, k).Some? && failed != [] && Find(t, k).value.account != failed
  }

  function Rebound(cfg: Config, t: Table, k: Text, failed: Text, account: Text, now: real): Table {
    if k == [] || account == [] || Moved(t, k, failed) then t else Bound(cfg, t, k, account, now)
  }

  // ---------- the dict ----------

  lemma {:induction false} FindIs(t: Table, k: Text)
    ensures match Find(t, k)
            case None => forall b :: b in t ==> b.key != k
            case Some(b) => b in t && b.key == k
  {
    if t != [] { FindIs(t[1..], k); }
  }

  lemma {:induction false} FindUnique(t: Table, b: Binding)
    requires UniqueKeys(t) && b in t
    ensures Find(t, b.key) == Some(b)
  {
    if t[0] == b { return; }
    assert b in t[1..];
    assert forall i, j :: 0 <= i < j < |t[1..]| ==> t[1..][i].key == t[i + 1].key && t[1..][j].key == t[j + 1].key;
    FindUnique(t[1..], b);
    var i :| 0 <= i < |t| && t[i] == b;
  }

  lemma Cons(x: Binding, u: Table)
    ensures UniqueKeys([x] + u) <==> UniqueKeys(u) && forall b :: b in u ==> b.key != x.key
    ensures forall b :: b in [x] + u <==> b == x || b in u
    ensures forall k :: Find([x] + u, k) == if k == x.key then Some(x) else Find(u, k)
  {
    var t := [x] + u;
    assert t[1..] == u;
    if UniqueKeys(t) { UniqueTail(x, u); }
  }

  lemma UniqueTail(x: Binding, u: Table)
    requires UniqueKeys([x] + u)
    ensures UniqueKeys(u) && forall b :: b in u ==> b.key != x.key
  {
    var t := [x] + u;
    forall i | 0 <= i < |u| ensures u[i].key != x.key {
      assert t[0].key != t[i + 1].key;
    }
    forall i, j | 0 <= i < j < |u| ensures u[i].key != u[j].key {
      assert t[i + 1].key != t[j + 1].key;
    }
  }

  lemma {:induction false} PutIs(t: Table, b: Binding)
    requires UniqueKeys(t)
    ensures UniqueKeys(Put(t, b))
    ensures forall k :: Find(Put(t, b), k) == if k == b.key then Some(b) else Find(t, k)
    ensures forall x :: x in Put(t, b) <==> x == b || (x in t && x.key != b.key)
    ensures |Put(t, b)| == |t| + (if Find(t, b.key).Some? then 0 else 1)
  {
    hide UniqueKeys, Find;
    if t == [] {
      Cons(b, []);
      Nothing();
      assert [b] + [] == [b];
    } else {
      var u := t[1..];
      assert t == [t[0]] + u;
      Cons(t[0], u);
      PutIs(u, b);
      Cons(b, u);
      Cons(t[0], Put(u, b));
    }
  }

  lemma Nothing()
    ensures UniqueKeys([]) && forall k :: Find([], k) == None
  {
  }

  lemma {:induction false} WithoutIs(t: Table, ks: set<Text>)
    requires UniqueKeys(t)
    ensures UniqueKeys(Without(t, ks))
    ensures forall x :: x in Without(t, ks) <==> x in t && x.key !in ks
    ensures forall k :: Find(Without(t, ks), k) == if k in ks then None else Find(t, k)
    ensures |Without(t, ks)| <= |t|
  {
    hide UniqueKeys, Find;
    if t == [] {
      Nothing();
    } else {
      var u := t[1..];
      assert t == [t[0]] + u;
      Cons(t[0], u);
      WithoutIs(u, ks);
      Cons(t[0], Without(u, ks));
    }
  }

  /** Popping distinct keys of the table makes it smaller by as many. */
  lemma {:induction false} WithoutSize(t: Table, ks: set<Text>)
    requires UniqueKeys(t) && ks <= KeysOf(t)
    ensures |Without(t, ks)| == |t| - |ks|
  {
    hide UniqueKeys;
    if t == [] {
      assert ks == {};
    } else {
      var u := t[1..];
      assert t == [t[0]] + u;
      Cons(t[0], u);
      WithoutSize(u, ks - {t[0].key});
      WithoutOther(u, ks, t[0].key);
    }
  }

  lemma {:induction false} WithoutOther(t: Table, ks: set<Text>, k: Text)
    requires forall b :: b in t ==> b.key != k
    ensures Without(t, ks - {k}) == Without(t, ks)
  {
    if t != [] {
      assert t == [t[0]] + t[1..];
      WithoutOther(t[1..], ks, k);
    }
  }

  // ---------- what a purge drops ----------

  lemma {:induction false} LiveIs(cfg: Config, t: Table, now: real)
    requires UniqueKeys(t)
    ensures UniqueKeys(Live(cfg, t, now))
    ensures forall x :: x in Live(cfg, t, now) <==> x in t && !Expired(cfg, x, now)
  {
    hide UniqueKeys, Expired;
    if t != [] {
      var u := t[1..];
      assert t == [t[0]] + u;
      Cons(t[0], u);
      LiveIs(cfg, u, now);
      Cons(t[0], Live(cfg, u, now));
    } else {
      Nothing();
    }
  }

  /** `x` was seen after the binding at `i`, or at the same time and stands behind it. */
  predicate Behind(t: Table, i: nat, j: nat)
    requires i < |t| && j < |t|
  {
    t[j].lastSeen > t[i].lastSeen || (t[j].lastSeen == t[i].lastSeen && j > i)
  }

  /** How many of the first `n` bindings are behind the one at `i`. */
  function CountBehind(t: Table, i: nat, n: nat): nat
    requires i < |t| && n <= |t|
  {
    if n == 0 then 0 else CountBehind(t, i, n - 1) + (if Behind(t, i, n - 1) then 1 else 0)
  }

  /** How many bindings are behind the one at `i`. */
  function Later(t: Table, i: nat): nat
    requires i < |t|
  {
    CountBehind(t, i, |t|)
  }

  lemma {:induction false} CountFront(t: Table, b: Binding, i: nat, n: nat)
    requires i < |t| && n <= |t|
    ensures CountBehind(t + [b], i, n) == CountBehind(t, i, n)
  {
    if n > 0 { CountFront(t, b, i, n - 1); }
  }

  ghost predicate Ascending(s: Table) {
    forall i, j :: 0 <= i < j < |s| ==> s[i].lastSeen <= s[j].lastSeen
  }

  /** How many bindings were seen after `v`. */
  function SeenAfter(t: Table, v: real): nat {
    if t == [] then 0 else SeenAfter(t[..|t| - 1], v) + (if t[|t| - 1].lastSeen > v then 1 else 0)
  }

  lemma {:induction false} SeenConcat(a: Table, b: Table, v: real)
    ensures SeenAfter(a + b, v) == SeenAfter(a, v) + SeenAfter(b, v)
  {
    if b == [] {
      assert a + b == a;
    } else {
      SeenConcat(a, b[..|b| - 1], v);
      assert (a + b)[..|a + b| - 1] == a + b[..|b| - 1];
    }
  }

  /** Where a binding is put in does not matter for the count. */
  lemma SeenInserted(s: Table, p: nat, b: Binding, v: real)
    requires p <= |s|
    ensures SeenAfter(s[..p] + [b] + s[p..], v) == SeenAfter(s + [b], v)
  {
    hide SeenAfter;
    SeenConcat(s[..p] + [b], s[p..], v);
    SeenConcat(s[..p], [b], v);
    SeenConcat(s[..p], s[p..], v);
    assert s[..p] + s[p..] == s;
    SeenConcat(s, [b], v);
  }

  lemma {:induction false} SeenSorted(t: Table, v: real)
    ensures SeenAfter(Sorted(t), v) == SeenAfter(t, v)
  {
    hide SeenAfter, Place;
    if t != [] {
      var n := |t| - 1;
      var s, b := Sorted(t[..n]), t[n];
      SeenSorted(t[..n], v);
      SeenInserted(s, Place(s, b), b, v);
      SeenConcat(s, [b], v);
      SeenConcat(t[..n], [b], v);
      assert t[..n] + [b] == t;
    }
  }

  lemma {:induction false} SeenIn(s: Table, v: real, p: nat)
    requires p <= |s| && (forall i :: 0 <= i < p ==> s[i].lastSeen <= v)
    requires forall i :: p <= i < |s| ==> s[i].lastSeen > v
    ensures SeenAfter(s, v) == |s| - p
  {
    if |s| > 0 {
      var u := s[..|s| - 1];
      SeenIn(u, v, if p == |s| then p - 1 else p);
    }
  }

  lemma {:induction false} CountIsSeen(t: Table, b: Binding, n: nat)
    requires n <= |t|
    ensures CountBehind(t + [b], |t|, n) == SeenAfter(t[..n], b.lastSeen)
  {
    if n > 0 {
      CountIsSeen(t, b, n - 1);
      assert t[..n][..n - 1] == t[..n - 1];
    }
  }

  lemma LaterLast(u: Table, b: Binding)
    requires |Sorted(u)| == |u| && Ascending(Sorted(u))
    ensures Later(u + [b], |u|) == |u| - Place(Sorted(u), b)
  {
    hide CountBehind, Behind, Sorted, SeenAfter;
    var t := u + [b];
    assert t[..|u|] == u && u[..|u|] == u;
    CountIsSeen(u, b, |u|);
    assert CountBehind(t, |u|, |u| + 1) == CountBehind(t, |u|, |u|) by { CountSelf(t, |u|); }
    SeenSorted(u, b.lastSeen);
    SeenIn(Sorted(u), b.lastSeen, Place(Sorted(u), b));
  }

  lemma CountSelf(t: Table, i: nat)
    requires i < |t|
    ensures CountBehind(t, i, i + 1) == CountBehind(t, i, i)
  {
  }

  lemma LaterFront(u: Table, b: Binding, i: nat)
    requires i < |u|
    ensures Later(u + [b], i) == Later(u, i) + (if b.lastSeen >= u[i].lastSeen then 1 else 0)
  {
    CountFront(u, b, i, |u|);
  }

  lemma InsertAscends(s: Table, b: Binding)
    requires Ascending(s)
    ensures Ascending(s[..Place(s, b)] + [b] + s[Place(s, b)..])
  {
  }

  /** `Sorted` puts every binding where the number of bindings behind it says. */
  lemma {:induction false} SortedIs(t: Table)
    ensures |Sorted(t)| == |t| && Ascending(Sorted(t))
    ensures forall x :: x in Sorted(t) <==> x in t
    ensures forall i: nat :: i < |t| ==> Later(t, i) < |t| && Sorted(t)[|t| - 1 - Later(t, i)] == t[i]
  {
    hide CountBehind, Behind, Later, Sorted, Ascending;
    if t == [] {
      SortedNone();
    } else {
      var n := |t| - 1;
      var u, b := t[..n], t[n];
      assert t == u + [b];
      SortedIs(u);
      var s := Sorted(u);
      var p := Place(s, b);
      var r := s[..p] + [b] + s[p..];
      SortedOne(u, b);
      assert s == s[..p] + s[p..];
      InsertAscends(s, b);
      LaterLast(u, b);
      forall i: nat | i < n ensures Later(t, i) < |t| && r[n - Later(t, i)] == t[i] {
        LaterFront(u, b, i);
        var q := n - 1 - Later(u, i);
        assert s[q] == u[i];
        AscendsPlace(s, b, q);
      }
    }
  }

  lemma AscendsPlace(s: Table, b: Binding, q: nat)
    requires Ascending(s) && q < |s|
    ensures s[q].lastSeen <= b.lastSeen <==> q < Place(s, b)
  {
    var p := Place(s, b);
    if p < q { assert s[p].lastSeen <= s[q].lastSeen; }
  }

  lemma SortedNone()
    ensures Sorted([]) == [] && Ascending([])
  {
  }

  lemma SortedOne(u: Table, b: Binding)
    ensures var s := Sorted(u); Sorted(u + [b]) == s[..Place(s, b)] + [b] + s[Place(s, b)..]
  {
    assert (u + [b])[..|u|] == u;
  }

  lemma KeysConcat(a: Table, b: Table)
    ensures KeysOf(a + b) == KeysOf(a) + KeysOf(b)
  {
  }

  lemma {:induction false} KeysCount(t: Table)
    requires UniqueKeys(t)
    ensures |KeysOf(t)| == |t|
  {
    hide UniqueKeys;
    if t != [] {
      assert t == [t[0]] + t[1..];
      Cons(t[0], t[1..]);
      KeysCount(t[1..]);
      KeysConcat([t[0]], t[1..]);
      assert KeysOf([t[0]]) == {t[0].key};
      assert t[0].key !in KeysOf(t[1..]);
    } else {
      assert KeysOf(t) == {};
    }
  }

  lemma {:induction false} KeysFewer(t: Table)
    ensures |KeysOf(t)| <= |t|
  {
    if t != [] {
      assert t == [t[0]] + t[1..];
      KeysFewer(t[1..]);
      KeysConcat([t[0]], t[1..]);
      assert KeysOf([t[0]]) == {t[0].key};
    } else {
      assert KeysOf(t) == {};
    }
  }

  /** As many keys as items: no key twice. */
  lemma UniqueByCount(t: Table)
    requires |KeysOf(t)| == |t|
    ensures UniqueKeys(t)
  {
    hide KeysOf;
    forall i, j | 0 <= i < j < |t| ensures t[i].key != t[j].key {
      if t[i].key == t[j].key {
        var a, b := t[..j], t[j + 1..];
        assert t == a + ([t[j]] + b);
        KeysConcat(a, [t[j]] + b);
        KeysConcat([t[j]], b);
        KeysFewer(a);
        KeysFewer(b);
        assert KeysOf([t[j]]) <= KeysOf(a) by { OneKey(a, t[j], i); }
        UnionBound(KeysOf(a), KeysOf([t[j]]), KeysOf(b));
      }
    }
  }

  lemma OneKey(a: Table, x: Binding, i: nat)
    requires i < |a| && a[i].key == x.key
    ensures KeysOf([x]) <= KeysOf(a)
  {
    assert a[i] in a;
  }

  lemma UnionBound<K>(a: set<K>, x: set<K>, b: set<K>)
    requires x <= a
    ensures |a + (x + b)| <= |a| + |b|
  {
    assert a + (x + b) == a + b;
  }

  lemma SortedUnique(t: Table)
    requires UniqueKeys(t)
    ensures UniqueKeys(Sorted(t))
  {
    hide Sorted, UniqueKeys;
    SortedIs(t);
    KeysCount(t);
    assert KeysOf(Sorted(t)) == KeysOf(t);
    UniqueByCount(Sorted(t));
  }

  /** Exactly the bindings with fewer than `max` others behind them stay. */
  lemma OldestIs(cfg: Config, t: Table)
    requires UniqueKeys(t)
    ensures Oldest(cfg, t) <= KeysOf(t)
    ensures |Oldest(cfg, t)| == if |t| <= cfg.max then 0 else |t| - cfg.max
    ensures forall i: nat :: i < |t| ==> (t[i].key in Oldest(cfg, t) <==> Later(t, i) >= cfg.max)
  {
    hide Sorted, Later;
    var s := Sorted(t);
    SortedIs(t);
    SortedUnique(t);
    if |t| > cfg.max {
      var d := |t| - cfg.max;
      var head := s[..d];
      assert UniqueKeys(head);
      KeysCount(head);
      assert Oldest(cfg, t) == KeysOf(head);
      forall i: nat | i < |t| ensures t[i].key in KeysOf(head) <==> Later(t, i) >= cfg.max {
        HeadKeys(s, d, |t| - 1 - Later(t, i));
      }
    }
  }

  lemma HeadKeys(s: Table, d: nat, p: nat)
    requires UniqueKeys(s) && d <= |s| && p < |s|
    ensures s[p].key in KeysOf(s[..d]) <==> p < d
  {
    if p < d { assert s[..d][p] == s[p]; } else { NotAmong(s, d, p); }
  }

  lemma NotAmong(s: Table, d: nat, p: nat)
    requires UniqueKeys(s) && d <= p < |s|
    ensures forall b :: b in s[..d] ==> b.key != s[p].key
  {
    forall b | b in s[..d] ensures b.key != s[p].key {
      var q :| 0 <= q < d && s[..d][q] == b;
    }
  }

  /** What `_purge_locked` leaves: at most `max` bindings, unchanged, and exactly those that should stay. */
  lemma PurgedIs(cfg: Config, t: Table, now: real)
    requires UniqueKeys(t)
    ensures var live, u := Live(cfg, t, now), Purged(cfg, t, now);
      && UniqueKeys(u) && |u| <= cfg.max
      && (forall b :: b in u ==> b in live && b in t)
      && (forall i: nat :: i < |live| ==> (live[i] in u <==> Later(live, i) < cfg.max))
      && (forall b :: b in t && b !in u ==> Expired(cfg, b, now) || b in live)
  {
    hide UniqueKeys, Expired, Live, Oldest, Later;
    var live := Live(cfg, t, now);
    LiveIs(cfg, t, now);
    OldestIs(cfg, live);
    WithoutIs(live, Oldest(cfg, live));
    WithoutSize(live, Oldest(cfg, live));
    assert forall i: nat :: i < |live| ==> live[i] in live;
  }

  /** The other bindings that were seen no earlier than `b`. */
  function NoOlder(t: Table, b: Binding): set<Text> {
    set x | x in t && x.key != b.key && x.lastSeen >= b.lastSeen :: x.key
  }

  lemma {:induction false} BehindAreNoOlder(t: Table, i: nat, n: nat)
    requires UniqueKeys(t) && i < |t| && n <= |t|
    ensures CountBehind(t, i, n) <= |NoOlder(t[..n], t[i])|
  {
    if n > 0 {
      BehindAreNoOlder(t, i, n - 1);
      var a, b := NoOlder(t[..n - 1], t[i]), NoOlder(t[..n], t[i]);
      assert t[..n] == t[..n - 1] + [t[n - 1]];
      if Behind(t, i, n - 1) {
        assert t[n - 1].key != t[i].key;
        NotAmong(t, n - 1, n - 1);
        assert t[n - 1].key !in a;
        assert b == a + {t[n - 1].key};
      } else {
        assert a <= b;
        SubsetSize(a, b);
      }
    }
  }

  lemma {:induction false} SubsetSize<K>(a: set<K>, b: set<K>)
    requires a <= b
    ensures |a| <= |b|
  {
    assert b == a + (b - a);
  }

  /** A binding younger than the time to live goes only when `max` others were seen no earlier. */
  lemma DroppedOnlyWhenCrowded(cfg: Config, t: Table, now: real, b: Binding)
    requires UniqueKeys(t) && b in t && !Expired(cfg, b, now) && b !in Purged(cfg, t, now)
    ensures |NoOlder(t, b)| >= cfg.max
  {
    hide UniqueKeys, Live, Purged, Later, Expired;
    var live := Live(cfg, t, now);
    LiveIs(cfg, t, now);
    PurgedIs(cfg, t, now);
    assert b in live;
    var i :| 0 <= i < |live| && live[i] == b;
    assert Later(live, i) >= cfg.max;
    BehindAll(live, i);
    assert NoOlder(live, b) <= NoOlder(t, b);
    SubsetSize(NoOlder(live, b), NoOlder(t, b));
  }

  lemma BehindAll(t: Table, i: nat)
    requires UniqueKeys(t) && i < |t|
    ensures Later(t, i) <= |NoOlder(t, t[i])|
  {
    BehindAreNoOlder(t, i, |t|);
    assert t[..|t|] == t;
  }

  // ---------- what the operations keep ----------

  /** Distinct fingerprints, each with an account. */
  ghost predicate Proper(t: Table) {
    UniqueKeys(t) && forall b :: b in t ==> b.account != []
  }

  function AccountOf(t: Table, k: Text): Option<Text> {
    match Find(t, k)
    case None => None
    case Some(b) => Some(b.account)
  }

  lemma PurgedKeeps(cfg: Config, t: Table, now: real)
    requires Proper(t)
    ensures var u := Purged(cfg, t, now);
      && Proper(u) && |u| <= cfg.max
      && forall k :: Find(u, k) == None || Find(u, k) == Find(t, k)
  {
    hide UniqueKeys, Purged, Live, Later, Expired, Find;
    PurgedIs(cfg, t, now);
    var u := Purged(cfg, t, now);
    forall k | Find(u, k).Some? ensures Find(u, k) == Find(t, k) {
      FindIs(u, k);
      FindUnique(t, Find(u, k).value);
    }
  }

  /** `get_affinity` answers with the binding that a purge leaves, and refreshes it. */
  lemma GotIs(cfg: Config, t: Table, k: Text, now: real, later: real)
    requires Proper(t) && k != []
    ensures var (t', r) := Got(cfg, t, k, now, later);
      var u := Purged(cfg, t, now);
      && Proper(t') && |t'| <= cfg.max
      && r == AccountOf(u, k)
      && (forall x :: AccountOf(t', x) == AccountOf(u, x))
      && (forall x :: x != k ==> Find(t', x) == Find(u, x))
      && (r.Some? ==> Find(t', k).Some? && Find(t', k).value.lastSeen == later)
  {
    hide UniqueKeys, Purged, Find;
    PurgedKeeps(cfg, t, now);
    var u := Purged(cfg, t, now);
    FindIs(u, k);
    if Find(u, k).Some? {
      var b := Find(u, k).value;
      PutIs(u, b.(lastSeen := later, hits := b.hits + 1));
    }
  }

  /** `bind_affinity` binds its fingerprint, freshly seen, and leaves what the purge leaves. */
  lemma BoundIs(cfg: Config, t: Table, k: Text, account: Text, now: real)
    requires Proper(t) && k != [] && account != []
    ensures var t' := Bound(cfg, t, k, account, now);
      var u := Purged(cfg, t, now);
      && Proper(t') && |t'| <= cfg.max + 1
      && Find(t', k).Some? && Find(t', k).value.account == account && Find(t', k).value.lastSeen == now
      && (forall x :: x != k ==> Find(t', x) == Find(u, x))
  {
    hide UniqueKeys, Purged, Find;
    PurgedKeeps(cfg, t, now);
    var u := Purged(cfg, t, now);
    FindIs(u, k);
    match Find(u, k)
    case None => PutIs(u, Binding(k, account, now, now, 1));
    case Some(b) => PutIs(u, if b.account == account then b.(lastSeen := now, hits :=
      b.hits + 1) else Binding(k, account, now, now, b.hits + 1));
  }

  lemma ClearedIs(t: Table, k: Text)
    requires Proper(t)
    ensures Proper(Cleared(t, k)) && |Cleared(t, k)| <= |t|
    ensures k != [] ==> forall x :: Find(Cleared(t, k), x) == if x == k then None else Find(t, x)
  {
    hide UniqueKeys, Find;
    WithoutIs(t, {k});
  }

  // ---------- runs ----------

  datatype Op =
    | Get(k: Text, now: real, later: real)
    | Bind(k: Text, account: Text, now: real)
    | Clear(k: Text)
    | Rebind(k: Text, failed: Text, account: Text, now: real)

  function Applied(cfg: Config, t: Table, op: Op): Table {
    match op
    case Get(k, now, later) => Got(cfg, t, k, now, later).0
    case Bind(k, account, now) => Bound(cfg, t, k, account, now)
    case Clear(k) => Cleared(t, k)
    case Rebind(k, failed, account, now) => Rebound(cfg, t, k, failed, account, now)
  }

  /** The table after some operations. */
  function After(cfg: Config, t: Table, ops: seq<Op>): Table {
    if ops == [] then t else Applied(cfg, After(cfg, t, ops[..|ops| - 1]), ops[|ops| - 1])
  }

  /** What an operation makes of the binding of `key`: an account, or nothing; `None` if it leaves it alone. */
  function Sets(t: Table, op: Op, key: Text): Option<Option<Text>> {
    match op
    case Get(_, _, _) => None
    case Bind(k, account, _) => if k == key && account != [] then Some(Some(account)) else None
    case Clear(k) => if k == key then Some(None) else None
    case Rebind(k, failed, account, _) =>
      if k == key && account != [] && !Moved(t, k, failed) then Some(Some(account)) else None
  }

  /** The account last bound to `key`, if it has not been cleared since: nothing here ever expires. */
  function LastBound(cfg: Config, ops: seq<Op>, key: Text): Option<Text> {
    if ops == [] then None
    else
      var front := ops[..|ops| - 1];
      match Sets(After(cfg, [], front), ops[|ops| - 1], key)
      case Some(account) => account
      case None => LastBound(cfg, front, key)
  }

  /** Whether an operation purges the table, and when. */
  function PurgesAt(t: Table, op: Op): Option<real> {
    match op
    case Get(k, now, _) => if k == [] then None else Some(now)
    case Bind(k, account, now) => if k == [] || account == [] then None else Some(now)
    case Clear(_) => None
    case Rebind(k, failed, account, now) => if k == [] || account == [] || Moved(t, k, failed) then None else Some(now)
  }

  /** A binding that a purge leaves: younger than the time to live, with fewer than `max` others behind it. */
  ghost predicate Stays(cfg: Config, t: Table, now: real, b: Binding) {
    var live := Live(cfg, t, now);
    !Expired(cfg, b, now) && exists i: nat :: i < |live| && live[i] == b && Later(live, i) < cfg.max
  }

  /** Every purge since `key` was last bound or cleared has found its binding one that stays. */
  ghost predicate Survives(cfg: Config, ops: seq<Op>, key: Text) {
    ops == [] ||
    (var t, op := After(cfg, [], ops[..|ops| - 1]), ops[|ops| - 1];
     || Sets(t, op, key).Some?
     || (&& Survives(cfg, ops[..|ops| - 1], key)
         && (PurgesAt(t, op).Some? && Find(t, key).Some? ==> Stays(cfg, t, PurgesAt(t, op).value, Find(t, key).value))))
  }

  /** The same with a plainer test: young, and fewer than `max` others seen no earlier. */
  ghost predicate StaysYoung(cfg: Config, ops: seq<Op>, key: Text) {
    ops == [] ||
    (var t, op := After(cfg, [], ops[..|ops| - 1]), ops[|ops| - 1];
     || Sets(t, op, key).Some?
     || (&& StaysYoung(cfg, ops[..|ops| - 1], key)
         && (PurgesAt(t, op).Some? && Find(t, key).Some? ==>
               !Expired(cfg, Find(t, key).value, PurgesAt(t, op).value) && |NoOlder(t, Find(t, key).value)| < cfg.max)))
  }

  lemma AppliedKeeps(cfg: Config, t: Table, op: Op)
    requires Proper(t)
    ensures Proper(Applied(cfg, t, op))
    ensures |t| <= cfg.max + 1 || PurgesAt(t, op).Some? ==> |Applied(cfg, t, op)| <= cfg.max + 1
  {
    hide UniqueKeys, Find, Purged, Bound, Cleared;
    match op
    case Get(k, now, later) => if k != [] { GotIs(cfg, t, k, now, later); }
    case Bind(k, account, now) =>
      if k != [] && account != [] { BoundIs(cfg, t, k, account, now); } else { BoundNothing(cfg, t, k, account, now); }
    case Clear(k) => ClearedIs(t, k);
    case Rebind(k, failed, account, now) =>
      if k != [] && account != [] { BoundIs(cfg, t, k, account, now); } else { BoundNothing(cfg, t, k, account, now); }
  }

  lemma BoundNothing(cfg: Config, t: Table, k: Text, account: Text, now: real)
    requires k == [] || account == []
    ensures Bound(cfg, t, k, account, now) == t
  {
  }

  /** `rebind_on_failover` leaves a fingerprint alone that is bound to another account than the one that failed. */
  lemma ReboundIs(cfg: Config, t: Table, k: Text, failed: Text, account: Text, now: real)
    requires Proper(t) && k != [] && account != []
    ensures var t' := Rebound(cfg, t, k, failed, account, now);
      if failed != [] && exists b :: b in t && b.key == k && b.account != failed then t' == t
      else Find(t', k).Some? && Find(t', k).value.account == account && Find(t', k).value.lastSeen == now
  {
    hide Bound, Find;
    BoundIs(cfg, t, k, account, now);
    FindIs(t, k);
    forall b | b in t && b.key == k ensures Find(t, k) == Some(b) { FindUnique(t, b); }
  }

  /** At every time the map is within one of its bound. */
  lemma {:induction false} SizeIsBounded(cfg: Config, ops: seq<Op>)
    ensures Proper(After(cfg, [], ops)) && |After(cfg, [], ops)| <= cfg.max + 1
  {
    hide Applied, PurgesAt;
    if ops != [] {
      SizeIsBounded(cfg, ops[..|ops| - 1]);
      AppliedKeeps(cfg, After(cfg, [], ops[..|ops| - 1]), ops[|ops| - 1]);
    }
  }

  /** A purge leaves a binding exactly if it is one that stays. */
  lemma PurgedExactly(cfg: Config, t: Table, now: real, key: Text)
    requires Proper(t)
    ensures Find(Purged(cfg, t, now), key) ==
      if Find(t, key).Some? && Stays(cfg, t, now, Find(t, key).value) then Find(t, key) else None
  {
    hide UniqueKeys, Purged, Live, Later, Expired, Find;
    PurgedIs(cfg, t, now);
    LiveIs(cfg, t, now);
    PurgedKeeps(cfg, t, now);
    FindIs(t, key);
    var u, live := Purged(cfg, t, now), Live(cfg, t, now);
    FindIs(u, key);
    if Find(t, key).Some? {
      var b := Find(t, key).value;
      if Stays(cfg, t, now, b) {
        var i: nat :| i < |live| && live[i] == b && Later(live, i) < cfg.max;
        assert live[i] in u <==> Later(live, i) < cfg.max;
        assert b in u;
      }
      if b in u {
        FindUnique(u, b);
        assert b in live;
        var i: nat :| i < |live| && live[i] == b;
        assert live[i] in u <==> Later(live, i) < cfg.max;
      }
    }
  }

  /** What one operation makes of `key`. */
  lemma AppliedSets(cfg: Config, t: Table, op: Op, key: Text)
    requires Proper(t) && key != []
    ensures AccountOf(Applied(cfg, t, op), key) ==
      if Sets(t, op, key).Some? then Sets(t, op, key).value
      else if PurgesAt(t, op).Some? then AccountOf(Purged(cfg, t, PurgesAt(t, op).value), key)
      else AccountOf(t, key)
  {
    hide UniqueKeys, Find, Purged, Bound, Cleared;
    match op
    case Get(k, now, later) => if k != [] { GotIs(cfg, t, k, now, later); }
    case Bind(k, account, now) =>
      if k != [] && account != [] { BoundIs(cfg, t, k, account, now); } else { BoundNothing(cfg, t, k, account, now); }
    case Clear(k) =>
      ClearedIs(t, k);
      if k == [] { ClearNothing(t); }
    case Rebind(k, failed, account, now) =>
      if k != [] && account != [] { BoundIs(cfg, t, k, account, now); } else { BoundNothing(cfg, t, k, account, now); }
  }

  lemma ClearNothing(t: Table)
    ensures Cleared(t, []) == t
  {
  }

  /**
   After any run a fingerprint is bound to the account last bound to it, if every purge since then
   has found that binding young enough and not crowded out, and otherwise to nothing: never to
   another account.
   */
  lemma {:induction false} BoundToTheLast(cfg: Config, ops: seq<Op>, key: Text)
    requires key != []
    ensures AccountOf(After(cfg, [], ops), key) == if Survives(cfg, ops, key) then LastBound(cfg, ops, key) else None
  {
    hide Applied, Purged, PurgesAt, Find, Stays, Sets;
    if ops == [] {
      Nothing();
    } else {
      var front, op := ops[..|ops| - 1], ops[|ops| - 1];
      var t := After(cfg, [], front);
      BoundToTheLast(cfg, front, key);
      SizeIsBounded(cfg, front);
      AppliedSets(cfg, t, op, key);
      if PurgesAt(t, op).Some? { PurgedExactly(cfg, t, PurgesAt(t, op).value, key); }
    }
  }

  /** `get_affinity` after any run, its own purge included. */
  lemma GetIsLastBound(cfg: Config, ops: seq<Op>, key: Text, now: real, later: real)
    requires key != []
    ensures var t := After(cfg, [], ops);
      Got(cfg, t, key, now, later).1 ==
        if Survives(cfg, ops, key) && (Find(t, key).Some? ==> Stays(cfg, t, now, Find(t, key).value))
        then LastBound(cfg, ops, key)
        else None
  {
    hide Survives, LastBound, Purged, Find, Stays, Got;
    var t := After(cfg, [], ops);
    BoundToTheLast(cfg, ops, key);
    SizeIsBounded(cfg, ops);
    GotIs(cfg, t, key, now, later);
    PurgedExactly(cfg, t, now, key);
  }

  /** A young binding with fewer than `max` others seen no earlier is one that stays. */
  lemma YoungStays(cfg: Config, t: Table, now: real, b: Binding)
    requires Proper(t) && b in t && !Expired(cfg, b, now) && |NoOlder(t, b)| < cfg.max
    ensures Stays(cfg, t, now, b)
  {
    hide UniqueKeys, Live, Purged, Later, Expired, NoOlder;
    LiveIs(cfg, t, now);
    PurgedIs(cfg, t, now);
    if b !in Purged(cfg, t, now) { DroppedOnlyWhenCrowded(cfg, t, now, b); }
    var live := Live(cfg, t, now);
    var i :| 0 <= i < |live| && live[i] == b;
    assert Later(live, i) < cfg.max;
  }

  lemma {:induction false} YoungSurvives(cfg: Config, ops: seq<Op>, key: Text)
    requires StaysYoung(cfg, ops, key)
    ensures Survives(cfg, ops, key)
  {
    hide After, Sets, PurgesAt, Find, Stays, Expired, NoOlder;
    if ops != [] {
      var front, op := ops[..|ops| - 1], ops[|ops| - 1];
      var t := After(cfg, [], front);
      if Sets(t, op, key).None? {
        YoungSurvives(cfg, front, key);
        SizeIsBounded(cfg, front);
        FindIs(t, key);
        if PurgesAt(t, op).Some? && Find(t, key).Some? {
          YoungStays(cfg, t, PurgesAt(t, op).value, Find(t, key).value);
        }
      }
    }
  }

  /** So while its binding is young and not crowded a lookup gives the account last bound. */
  lemma YoungGetIsLastBound(cfg: Config, ops: seq<Op>, key: Text, now: real, later: real)
    requires key != [] && StaysYoung(cfg, ops + [Get(key, now, later)], key)
    ensures Got(cfg, After(cfg, [], ops), key, now, later).1 == LastBound(cfg, ops, key)
  {
    hide After, Find, Stays, Survives, LastBound, Expired, NoOlder, Got;
    var t := After(cfg, [], ops);
    assert (ops + [Get(key, now, later)])[..|ops|] == ops;
    YoungSurvives(cfg, ops, key);
    SizeIsBounded(cfg, ops);
    FindIs(t, key);
    if Find(t, key).Some? { YoungStays(cfg, t, now, Find(t, key).value); }
    GetIsLastBound(cfg, ops, key, now, later);
  }

  // ---------- the map ----------

  class AffinityMap {
    const cfg: Config
    var table: Table

    constructor (cfg: Config)
      ensures this.cfg == cfg && table == []
    {
      this.cfg := cfg;
      table := [];
    }

    /** `_map.pop(k, None)`. */
    method Pop(k: Text)
      modifies this`table
      ensures table == Without(old(table), {k})
    {
      var rest, i := [], 0;
      while i < |table|
        invariant 0 <= i <= |table|
        invariant rest + Without(table[i..], {k}) == Without(table, {k})
      {
        assert table[i..][1..] == table[i + 1..];
        if table[i].key != k { rest := rest + [table[i]]; }
        i := i + 1;
      }
      assert rest + [] == rest;
      table := rest;
    }

    /** Pop the keys of some bindings, one after the other. */
    method PopAll(bs: seq<Binding>)
      modifies this`table
      ensures table == Without(old(table), KeysOf(bs))
    {
      var i := 0;
      assert Without(table, {}) == table by { WithoutNone(table); }
      assert KeysOf(bs[..0]) == {};
      while i < |bs|
        invariant 0 <= i <= |bs|
        invariant table == Without(old(table), KeysOf(bs[..i]))
      {
        Pop(bs[i].key);
        WithoutTwice(old(table), KeysOf(bs[..i]), {bs[i].key});
        assert bs[..i + 1] == bs[..i] + [bs[i]];
        KeysConcat(bs[..i], [bs[i]]);
        assert KeysOf([bs[i]]) == {bs[i].key};
        i := i + 1;
      }
      assert bs[..i] == bs;
    }

    /** `_purge_locked`. */
    method Purge(now: real)
      requires UniqueKeys(table)
      modifies this`table
      ensures table == Purged(cfg, old(table), now)
    {
      hide UniqueKeys, Sorted, Expired, Without, Live, KeysOf;
      var dead, i := [], 0;
      assert table[..0] == [];
      while i < |table|
        invariant 0 <= i <= |table|
        invariant dead == DeadOf(cfg, table[..i], now)
      {
        assert table[..i + 1][..i] == table[..i];
        if Expired(cfg, table[i], now) { dead := dead + [table[i]]; }
        i := i + 1;
      }
      assert table[..i] == table;
      WithoutDead(cfg, table, now);
      PopAll(dead);
      ghost var live := table;
      if |table| > cfg.max {
        SortedIs(table);
        var ordered := Sorted(table);
        PopAll(ordered[..|table| - cfg.max]);
      } else {
        WithoutNone(live);
      }
    }

    /** `get_affinity`. */
    method GetAffinity(fingerprint: Text, now: real, later: real) returns (account: Option<Text>)
      requires Proper(table)
      modifies this`table
      ensures (table, account) == Got(cfg, old(table), fingerprint, now, later)
      ensures Proper(table)
    {
      hide Purged, UniqueKeys;
      AppliedKeeps(cfg, table, Get(fingerprint, now, later));
      if fingerprint == [] { return None; }
      Purge(now);
      match Find(table, fingerprint)
      case None => return None;
      case Some(b) =>
        if b.account == [] { return None; }
        table := Put(table, b.(lastSeen := later, hits := b.hits + 1));
        account := Some(b.account);
    }

    /** `bind_affinity`. */
    method BindAffinity(fingerprint: Text, account: Text, now: real)
      requires Proper(table)
      modifies this`table
      ensures table == Bound(cfg, old(table), fingerprint, account, now)
      ensures Proper(table)
    {
      hide Purged, UniqueKeys;
      AppliedKeeps(cfg, table, Bind(fingerprint, account, now));
      if fingerprint == [] || account == [] { return; }
      Purge(now);
      match Find(table, fingerprint)
      case None => table := Put(table, Binding(fingerprint, account, now, now, 1));
      case Some(prev) =>
        if prev.account == account {
          table := Put(table, prev.(lastSeen := now, hits := prev.hits + 1));
          return;
        }
        table := Put(table, Binding(fingerprint, account, now, now, prev.hits + 1));
    }

    /** `clear_affinity`. */
    method ClearAffinity(fingerprint: Text)
      requires Proper(table)
      modifies this`table
      ensures table == Cleared(old(table), fingerprint) && Proper(table)
    {
      ClearedIs(table, fingerprint);
      if fingerprint == [] { return; }
      Pop(fingerprint);
    }

    /** `rebind_on_failover`, for one worker. */
    method RebindOnFailover(fingerprint: Text, failed: Text, account: Text, now: real)
      requires Proper(table)
      modifies this`table
      ensures table == Rebound(cfg, old(table), fingerprint, failed, account, now) && Proper(table)
    {
      hide Bound, Find, UniqueKeys;
      if fingerprint == [] || account == [] || Moved(table, fingerprint, failed) { return; }
      BindAffinity(fingerprint, account, now);
    }
  }

  lemma {:induction false} WithoutNone(t: Table)
    ensures Without(t, {}) == t
  {
    if t != [] { WithoutNone(t[1..]); }
  }

  lemma {:induction false} WithoutTwice(t: Table, a: set<Text>, b: set<Text>)
    ensures Without(Without(t, a), b) == Without(t, a + b)
  {
    if t != [] {
      WithoutTwice(t[1..], a, b);
      if t[0].key !in a { assert Without(t, a)[1..] == Without(t[1..], a); }
    }
  }

  /** The expired bindings. */
  function DeadOf(cfg: Config, t: Table, now: real): Table {
    if t == [] then []
    else DeadOf(cfg, t[..|t| - 1], now) + (if Expired(cfg, t[|t| - 1], now) then [t[|t| - 1]] else [])
  }

  lemma {:induction false} DeadIs(cfg: Config, t: Table, now: real)
    ensures forall b :: b in DeadOf(cfg, t, now) <==> b in t && Expired(cfg, b, now)
  {
    hide Expired;
    if t != [] {
      DeadIs(cfg, t[..|t| - 1], now);
      assert t == t[..|t| - 1] + [t[|t| - 1]];
    }
  }

  lemma WithoutDead(cfg: Config, t: Table, now: real)
    requires UniqueKeys(t)
    ensures Without(t, KeysOf(DeadOf(cfg, t, now))) == Live(cfg, t, now)
  {
    DeadIs(cfg, t, now);
    forall b | b in t ensures b.key in KeysOf(DeadOf(cfg, t, now)) <==> Expired(cfg, b, now) {
      if b.key in KeysOf(DeadOf(cfg, t, now)) {
        var x :| x in DeadOf(cfg, t, now) && x.key == b.key;
        FindUnique(t, x);
        FindUnique(t, b);
      }
    }
    WithoutIsLive(cfg, t, now, KeysOf(DeadOf(cfg, t, now)));
  }

  lemma {:induction false} WithoutIsLive(cfg: Config, t: Table, now: real, ks: set<Text>)
    requires forall b :: b in t ==> (b.key in ks <==> Expired(cfg, b, now))
    ensures Without(t, ks) == Live(cfg, t, now)
  {
    hide Expired;
    if t != [] {
      assert t == [t[0]] + t[1..];
      WithoutIsLive(cfg, t[1..], now, ks);
    }
  }
}
