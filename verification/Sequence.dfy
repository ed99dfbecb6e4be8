/**
 The failover chain (account_pool.py, the full path of `try_acquire_sequence`, without Redis): a
 bounded window of the pool, the best accounts in it, one a user, ordered by mode and affinity.
 */
module Sequence {
  import opened Texts
  import opened Ranking
  import opened Scheduling
  import Acq = Acquire

  /**
   The arguments of one call, and what it reads.  An empty `prefer` stands for no preferred account;
   `policy` is the configured number of attempts.
   */
  datatype Call = Call(
    live: seq<Cred>, maxAttempts: Option<int>, policy: nat, model: Text, prefer: Text, mode: Mode, pool: Pool)

  /** What the call gets from outside: shuffles, and the refresh of one credential. */
  datatype World = World(shuffle: (nat, seq<Cred>) -> seq<Cred>, refresh: Cred -> Cred)

  const DEFAULT_ATTEMPTS: nat := 4

  function Max(a: int, b: int): int { if a < b then b else a }

  function MinNat(a: nat, b: nat): nat { if a < b then a else b }

  /** The first `n`, or all of them. */
  function Take(s: seq<Cred>, n: nat): (r: seq<Cred>)
    ensures |r| <= n && forall c :: c in r ==> c in s
  {
    s[..MinNat(n, |s|)]
  }

  // ---------- the window ----------

  function LimitTarget(q: Call): nat {
    if q.maxAttempts.Some? then Max(1, q.maxAttempts.value) else DEFAULT_ATTEMPTS
  }

  /** The preferred account by its key, its user, or the end of its key. */
  predicate Matches(q: Call, c: Cred) {
    var suffix := T("::") + q.prefer;
    c.id == q.prefer || c.user == q.prefer || (|suffix| <= |c.id| && c.id[|c.id| - |suffix|..] == suffix)
  }

  predicate CanUse(c: Cred) { Usable(true, c) }

  /** Tokens that are still good, then those that can be refreshed. */
  function ByFreshness(q: Call): seq<Cred> {
    Pick(q.live, (c: Cred) => !c.expired) + Pick(q.live, (c: Cred) => c.expired && c.refreshable)
  }

  function Preferred(q: Call, cs: seq<Cred>): seq<Cred> {
    if q.prefer == [] then [] else Pick(cs, (c: Cred) => Matches(q, c))
  }

  function Others(q: Call, cs: seq<Cred>): seq<Cred> {
    if q.prefer == [] then cs else Pick(cs, (c: Cred) => !Matches(q, c))
  }

  function PoolOrder(q: Call): seq<Cred> {
    Preferred(q, ByFreshness(q)) + Others(q, ByFreshness(q))
  }

  function WindowSize(q: Call): nat {
    MinNat(|PoolOrder(q)|, Max(24, LimitTarget(q) * 12))
  }

  predicate Rotates(q: Call) { q.mode == RoundRobin && |PoolOrder(q)| > WindowSize(q) }

  /** The window before the preferred account is put in front. */
  function FirstWindow(q: Call, w: World, rrIndex: nat): seq<Cred> {
    var po, n := PoolOrder(q), WindowSize(q);
    if q.mode == Random && |po| > n then Take(w.shuffle(0, po), n)
    else if Rotates(q) then
      var start := rrIndex % |po|;
      var window := Take(po[start..] + po[..start], n);
      if q.prefer == [] then window
      else
        var sticky := Preferred(q, window);
        if sticky == [] then window else sticky + Pick(window, (c: Cred) => c !in sticky)
    else Take(po, Max(n, 64))
  }

  function Window(q: Call, w: World, rrIndex: nat): seq<Cred> {
    var head := Preferred(q, ByFreshness(q));
    var window := FirstWindow(q, w, rrIndex);
    if head == [] then window
    else Take([head[0]] + Pick(window, (c: Cred) => c.id != head[0].id), Max(1, WindowSize(q)))
  }

  // ---------- who is in the chain ----------

  const RUNGS: nat := 4

  predicate OnRung(q: Call, r: nat, c: Cred) {
    && CanUse(c)
    && match r
       case 0 => Enabled(q.pool, c) && !Blocked(q.pool, c, q.model)
       case 1 => Enabled(q.pool, c) && !DurablyBlocked(q.pool, c, q.model)
       case 2 => Enabled(q.pool, c)
       case 3 => !QuotaOut(q.pool, c)
       case _ => true
  }

  function Rung(q: Call, r: nat, cs: seq<Cred>): seq<Cred> { Pick(cs, (c: Cred) => OnRung(q, r, c)) }

  /** The first rung from `r` on that has an account of the window; the last takes them all. */
  function Best(q: Call, r: nat, cs: seq<Cred>): seq<Cred>
    requires r <= RUNGS
    decreases RUNGS - r
  {
    if r == RUNGS || Rung(q, r, cs) != [] then Rung(q, r, cs) else Best(q, r + 1, cs)
  }

  /** Two credentials with the same value here are one user. */
  function UserOf(c: Cred): Text { if c.user != [] then c.user else c.id }

  /** The first credential of every user. */
  function OnePerUser(cs: seq<Cred>): seq<Cred> {
    if cs == [] then []
    else
      var front, c := OnePerUser(cs[..|cs| - 1]), cs[|cs| - 1];
      if exists d :: d in front && UserOf(d) == UserOf(c) then front else front + [c]
  }

  // ---------- order ----------

  function CoolingRank(q: Call, c: Cred): real { if Cooling(q.pool, c) then 1.0 else 0.0 }

  function RandomKey(q: Call): Cred -> Key {
    (c: Cred) => [CoolingRank(q, c), Penalty(q.pool, c)]
  }

  function LeastUsedKey(q: Call): Cred -> Key {
    (c: Cred) => [CoolingRank(q, c), Penalty(q.pool, c), StatsOf(q.pool, c).requests as real,
      StatsOf(q.pool, c).lastUsed]
  }

  function BucketKey(q: Call): Cred -> Key {
    (c: Cred) => [(Penalty(q.pool, c) / 3.0).Floor as real]
  }

  function UntilKey(q: Call): Cred -> Key {
    (c: Cred) => [UntilOf(q.pool, c)]
  }

  function Ready(q: Call, cs: seq<Cred>): seq<Cred> { Pick(cs, (c: Cred) => !Cooling(q.pool, c)) }

  function CoolingOnes(q: Call, cs: seq<Cred>): seq<Cred> { Pick(cs, (c: Cred) => Cooling(q.pool, c)) }

  function Ordered(q: Call, w: World, cs: seq<Cred>): seq<Cred> {
    match q.mode
    case Random => SortBy(RandomKey(q), w.shuffle(1, cs))
    case LeastUsed => SortBy(LeastUsedKey(q), cs)
    case RoundRobin => SortBy(BucketKey(q), Ready(q, cs)) + SortBy(UntilKey(q), CoolingOnes(q, cs))
  }

  /** A preferred account that does not go first. */
  predicate SetBack(q: Call, c: Cred) {
    Cooling(q.pool, c) || Blocked(q.pool, c, q.model) || MetaOf(q.pool, c).consecutiveFails >= 2 || c.expired
  }

  function WithAffinity(q: Call, cs: seq<Cred>): seq<Cred> {
    var sticky := Preferred(q, cs);
    if sticky == [] then cs
    else if SetBack(q, sticky[0]) then Others(q, cs) + sticky
    else sticky + Others(q, cs)
  }

  // ---------- length and refresh ----------

  function Limit(q: Call, cs: seq<Cred>): nat {
    if q.maxAttempts.Some? then Max(1, q.maxAttempts.value)
    else
      var ready := Pick(cs, (c: Cred) => !Cooling(q.pool, c) && !Blocked(q.pool, c, q.model));
      var eighth := if |cs| / 8 == 0 then 4 else |cs| / 8;
      Max(1, if |ready| < 2 then Max(Max(q.policy, 1), MinNat(8, Max(4, eighth))) else q.policy)
  }

  /** `_ensure_fresh_creds`. */
  function Refreshed(w: World, c: Cred): Cred {
    if c.id == [] || !c.expired || !c.refreshable then c else w.refresh(c)
  }

  /** Only the first is refreshed; if that leaves it unusable, it is dropped. */
  function WithFirstRefreshed(w: World, cs: seq<Cred>): seq<Cred> {
    if cs == [] then []
    else
      var first := Refreshed(w, cs[0]);
      if CanUse(first) then [first] + Pick(cs[1..], (c: Cred) => CanUse(c)) else Pick(cs[1..], (c: Cred) => CanUse(c))
  }

  /** The chain before its first account is refreshed. */
  function Chain(q: Call, w: World, rrIndex: nat): seq<Cred> {
    var cs := WithAffinity(q, Ordered(q, w, OnePerUser(Best(q, 0, Window(q, w, rrIndex)))));
    Take(cs, Limit(q, cs))
  }

  /** The full path of `try_acquire_sequence`. */
  function Acquired(q: Call, w: World, rrIndex: nat): seq<Cred> {
    WithFirstRefreshed(w, Chain(q, w, rrIndex))
  }

  /** The round-robin index after it. */
  function NextIndex(q: Call, rrIndex: nat): nat {
    if Rotates(q) then Wrapped(q, rrIndex) else rrIndex
  }

  // ---------- the window ----------

  /** A shuffle keeps the elements. */
  ghost predicate Shuffles(w: World) {
    forall k, s :: multiset(w.shuffle(k, s)) == multiset(s)
  }

  /** Every live credential that could be used is in the order, and nothing else. */
  lemma PoolOrderIs(q: Call)
    ensures forall c :: c in PoolOrder(q) <==> c in q.live && CanUse(c)
  {
  }

  lemma FirstWindowIs(q: Call, w: World, rrIndex: nat)
    requires Shuffles(w)
    ensures forall c :: c in FirstWindow(q, w, rrIndex) ==> c in PoolOrder(q)
    ensures PoolOrder(q) != [] ==> FirstWindow(q, w, rrIndex) != []
  {
    hide PoolOrder, Matches;
    var po, n := PoolOrder(q), WindowSize(q);
    SameSize(w.shuffle(0, po), po);
    if Rotates(q) {
      var start := rrIndex % |po|;
      assert forall c :: c in po[start..] + po[..start] ==> c in po;
    }
  }

  lemma WindowIs(q: Call, w: World, rrIndex: nat)
    requires Shuffles(w)
    ensures forall c :: c in Window(q, w, rrIndex) ==> c in q.live && CanUse(c)
    ensures Window(q, w, rrIndex) == [] <==> forall c :: c in q.live ==> !CanUse(c)
  {
    hide PoolOrder, FirstWindow, Matches;
    PoolOrderIs(q);
    FirstWindowIs(q, w, rrIndex);
    PreferredInOrder(q);
    var po := PoolOrder(q);
    if po != [] { assert po[0] in po; }
    var head := Preferred(q, ByFreshness(q));
    if head != [] { assert head[0] in po; }
    var window := Window(q, w, rrIndex);
    if window != [] { assert window[0] in window; }
  }

  lemma PreferredInOrder(q: Call)
    ensures forall c :: c in Preferred(q, ByFreshness(q)) ==> c in PoolOrder(q)
  {
    hide Preferred, Others, ByFreshness;
  }

  // ---------- who is in the chain ----------

  lemma {:induction false} BestIs(q: Call, r: nat, cs: seq<Cred>)
    requires r <= RUNGS && forall c :: c in cs ==> CanUse(c)
    ensures forall c :: c in Best(q, r, cs) ==> c in cs
    ensures Best(q, r, cs) == [] <==> cs == []
    decreases RUNGS - r
  {
    if r < RUNGS && Rung(q, r, cs) == [] { BestIs(q, r + 1, cs); }
    if r == RUNGS && cs != [] { assert cs[0] in Rung(q, r, cs); }
    if Rung(q, r, cs) != [] { assert Rung(q, r, cs)[0] in cs; }
  }

  ghost predicate OneEach(cs: seq<Cred>) {
    forall i, j :: 0 <= i < j < |cs| ==> UserOf(cs[i]) != UserOf(cs[j])
  }

  lemma {:induction false} OnePerUserIs(cs: seq<Cred>)
    ensures OneEach(OnePerUser(cs))
    ensures forall c :: c in OnePerUser(cs) ==> c in cs
    ensures cs != [] ==> OnePerUser(cs) != [] && OnePerUser(cs)[0] == cs[0]
  {
    hide UserOf;
    if cs != [] {
      var front, c := cs[..|cs| - 1], cs[|cs| - 1];
      assert cs == front + [c];
      OnePerUserIs(front);
    }
  }

  /** No user twice, whatever the order. */
  lemma OneEachStays(a: seq<Cred>, b: seq<Cred>)
    requires OneEach(a) && multiset(a) == multiset(b)
    ensures OneEach(b)
  {
    hide UserOf;
    SameSize(a, b);
    forall i, j | 0 <= i < j < |b| ensures UserOf(b[i]) != UserOf(b[j]) {
      if b[i] == b[j] {
        Twice(b, i, j);
        Once(a, b[i]);
      } else {
        assert b[i] in b && b[j] in b;
        var k :| 0 <= k < |a| && a[k] == b[i];
        var l :| 0 <= l < |a| && a[l] == b[j];
      }
    }
  }

  lemma Twice<T>(s: seq<T>, i: nat, j: nat)
    requires i < j < |s| && s[i] == s[j]
    ensures multiset(s)[s[i]] >= 2
  {
    assert s == s[..j] + ([s[j]] + s[j + 1..]);
    assert s[i] in s[..j];
    assert multiset(s) == multiset(s[..j]) + (multiset([s[j]]) + multiset(s[j + 1..]));
    assert multiset(s[..j])[s[i]] >= 1 by { assert s[..j][i] == s[i]; }
  }

  lemma {:induction false} Once(a: seq<Cred>, x: Cred)
    requires OneEach(a)
    ensures multiset(a)[x] <= 1
  {
    hide UserOf;
    if a != [] {
      var h, l := a[..|a| - 1], a[|a| - 1];
      assert a == h + [l];
      Once(h, x);
      LastIsNew(a);
      assert multiset(a) == multiset(h) + multiset([l]);
      assert x !in h ==> multiset(h)[x] == 0;
    }
  }

  lemma LastIsNew(a: seq<Cred>)
    requires OneEach(a) && a != []
    ensures a[|a| - 1] !in a[..|a| - 1]
  {
    forall x | x in a[..|a| - 1] ensures UserOf(x) != UserOf(a[|a| - 1]) {
      var k :| 0 <= k < |a| - 1 && a[k] == x;
    }
  }

  // ---------- order ----------

  /** Ready accounts before cooling ones. */
  ghost predicate ReadyFirst(q: Call, cs: seq<Cred>) {
    forall i, j :: 0 <= i < j < |cs| ==> Cooling(q.pool, cs[i]) ==> Cooling(q.pool, cs[j])
  }

  lemma LeFirst(a: Key, b: Key)
    requires Le(a, b) && a != []
    ensures b != [] && a[0] <= b[0]
  {
  }

  lemma SortReadyFirst(q: Call, key: Cred -> Key, cs: seq<Cred>)
    requires forall c :: key(c) != [] && key(c)[0] == CoolingRank(q, c)
    ensures ReadyFirst(q, SortBy(key, cs))
  {
    hide Le, Cooling;
    SortIs(key, cs);
    var r := SortBy(key, cs);
    forall i, j | 0 <= i < j < |r| && Cooling(q.pool, r[i]) ensures Cooling(q.pool, r[j]) {
      LeFirst(key(r[i]), key(r[j]));
    }
  }

  lemma {:induction false} PickSplits(cs: seq<Cred>, keep: Cred -> bool, drop: Cred -> bool)
    requires forall c :: keep(c) <==> !drop(c)
    ensures multiset(Pick(cs, keep)) + multiset(Pick(cs, drop)) == multiset(cs)
  {
    if cs != [] {
      assert cs == cs[..|cs| - 1] + [cs[|cs| - 1]];
      PickSplits(cs[..|cs| - 1], keep, drop);
    }
  }

  lemma OrderedIs(q: Call, w: World, cs: seq<Cred>)
    requires Shuffles(w)
    ensures multiset(Ordered(q, w, cs)) == multiset(cs)
    ensures ReadyFirst(q, Ordered(q, w, cs))
  {
    hide Le, Cooling, SortBy, Penalty, Ready, CoolingOnes, ReadyFirst;
    match q.mode
    case Random =>
      SortIs(RandomKey(q), w.shuffle(1, cs));
      SortReadyFirst(q, RandomKey(q), w.shuffle(1, cs));
    case LeastUsed =>
      SortIs(LeastUsedKey(q), cs);
      SortReadyFirst(q, LeastUsedKey(q), cs);
    case RoundRobin =>
      RotatedIs(q, cs);
  }

  lemma RotatedIs(q: Call, cs: seq<Cred>)
    ensures var r := SortBy(BucketKey(q), Ready(q, cs)) + SortBy(UntilKey(q), CoolingOnes(q, cs));
      multiset(r) == multiset(cs) && ReadyFirst(q, r)
  {
    hide Le, Cooling, SortBy, Penalty, BucketKey, UntilKey;
    var a, b := SortBy(BucketKey(q), Ready(q, cs)), SortBy(UntilKey(q), CoolingOnes(q, cs));
    SortIs(BucketKey(q), Ready(q, cs));
    SortIs(UntilKey(q), CoolingOnes(q, cs));
    SameSize(a, Ready(q, cs));
    SameSize(b, CoolingOnes(q, cs));
    PickSplits(cs, (c: Cred) => !Cooling(q.pool, c), (c: Cred) => Cooling(q.pool, c));
    ReadyThenCooling(q, a, b);
  }

  lemma ReadyThenCooling(q: Call, a: seq<Cred>, b: seq<Cred>)
    requires forall c :: c in a ==> !Cooling(q.pool, c)
    requires forall c :: c in b ==> Cooling(q.pool, c)
    ensures ReadyFirst(q, a + b)
  {
    hide Cooling;
    var r := a + b;
    assert forall i :: 0 <= i < |a| ==> r[i] in a;
    assert forall i :: |a| <= i < |r| ==> r[i] == b[i - |a|];
  }

  lemma WithAffinityIs(q: Call, cs: seq<Cred>)
    ensures multiset(WithAffinity(q, cs)) == multiset(cs)
    ensures q.prefer == [] ==> WithAffinity(q, cs) == cs
  {
    hide Matches, SetBack;
    if q.prefer != [] { PickSplits(cs, (c: Cred) => Matches(q, c), (c: Cred) => !Matches(q, c)); }
  }

  // ---------- the chain ----------

  /** The chain before the refresh: who is in it, one a user, in order, and not empty without reason. */
  lemma ChainIs(q: Call, w: World, rrIndex: nat)
    requires Shuffles(w)
    ensures var cs := Chain(q, w, rrIndex);
      && (forall c :: c in cs ==> c in q.live && CanUse(c))
      && (cs == [] <==> forall c :: c in q.live ==> !CanUse(c))
      && OneEach(cs)
      && (q.maxAttempts.Some? ==> |cs| <= Max(1, q.maxAttempts.value))
      && (q.prefer == [] ==> ReadyFirst(q, cs))
  {
    hide Window, Best, OnePerUser, Ordered, WithAffinity, CanUse, Cooling, UserOf;
    var window := Window(q, w, rrIndex);
    WindowIs(q, w, rrIndex);
    BestIs(q, 0, window);
    var best := Best(q, 0, window);
    OnePerUserIs(best);
    var one := OnePerUser(best);
    OrderedIs(q, w, one);
    WithAffinityIs(q, Ordered(q, w, one));
    var cs := WithAffinity(q, Ordered(q, w, one));
    OneEachStays(one, cs);
    SameSize(one, cs);
    TakeKeeps(q, cs, Limit(q, cs));
    NothingOfNothing();
    if cs != [] { assert cs[0] in cs; }
  }

  lemma NothingOfNothing()
    ensures OnePerUser([]) == []
  {
  }

  lemma TakeKeeps(q: Call, cs: seq<Cred>, n: nat)
    ensures OneEach(cs) ==> OneEach(Take(cs, n))
    ensures ReadyFirst(q, cs) ==> ReadyFirst(q, Take(cs, n))
  {
    hide Cooling, UserOf;
  }

  // ---------- the whole call ----------

  /** A refresh gives a credential of the same account. */
  ghost predicate SameAccount(w: World) {
    forall c :: w.refresh(c).id == c.id && w.refresh(c).user == c.user
  }

  lemma {:induction false} PickAll(cs: seq<Cred>, keep: Cred -> bool)
    requires forall c :: c in cs ==> keep(c)
    ensures Pick(cs, keep) == cs
  {
    if cs != [] {
      assert cs == cs[..|cs| - 1] + [cs[|cs| - 1]];
      PickAll(cs[..|cs| - 1], keep);
    }
  }

  lemma RestKeeps(q: Call, cs: seq<Cred>)
    requires cs != []
    ensures OneEach(cs) ==> OneEach(cs[1..])
    ensures ReadyFirst(q, cs) ==> ReadyFirst(q, cs[1..])
  {
    hide UserOf, Cooling;
    assert forall i :: 0 <= i < |cs[1..]| ==> cs[1..][i] == cs[i + 1];
  }

  lemma RefreshedKeeps(q: Call, w: World, cs: seq<Cred>)
    requires SameAccount(w) && cs != []
    ensures OneEach(cs) ==> OneEach([Refreshed(w, cs[0])] + cs[1..]) && OneEach(cs[1..])
    ensures ReadyFirst(q, cs) ==> ReadyFirst(q, [Refreshed(w, cs[0])] + cs[1..]) && ReadyFirst(q, cs[1..])
  {
    hide UserOf, MetaOf, OneEach, ReadyFirst;
    var r := [Refreshed(w, cs[0])] + cs[1..];
    SameUser(q, cs[0], Refreshed(w, cs[0]));
    SameOrder(q, cs, r);
    RestKeeps(q, cs);
  }

  lemma SameUser(q: Call, c: Cred, d: Cred)
    requires d.id == c.id && d.user == c.user
    ensures UserOf(d) == UserOf(c) && MetaOf(q.pool, d) == MetaOf(q.pool, c)
  {
  }

  lemma SameOrder(q: Call, a: seq<Cred>, b: seq<Cred>)
    requires |a| == |b|
    requires forall i :: 0 <= i < |a| ==> UserOf(b[i]) == UserOf(a[i]) && MetaOf(q.pool, b[i]) == MetaOf(q.pool, a[i])
    ensures OneEach(a) ==> OneEach(b)
    ensures ReadyFirst(q, a) ==> ReadyFirst(q, b)
  {
    hide UserOf, MetaOf;
    assert forall i :: 0 <= i < |a| ==> Cooling(q.pool, b[i]) == Cooling(q.pool, a[i]);
  }

  /**
   The failover chain.  It is empty exactly when no live account could be used, unless its only
   account was expired and its refresh came to nothing.  Every account in it can be used, no user
   comes twice, a given number of attempts bounds it, and without a preferred account everything
   ready comes before everything that is cooling, in every mode.
   */
  lemma SequenceIsSound(q: Call, w: World, rrIndex: nat)
    requires Shuffles(w) && SameAccount(w)
    ensures var r, cs := Acquired(q, w, rrIndex), Chain(q, w, rrIndex);
      && (r == [] <==> (forall c :: c in q.live ==> !CanUse(c)) || (|cs| == 1 && !CanUse(Refreshed(w, cs[0]))))
      && (forall c :: c in r ==> CanUse(c))
      && OneEach(r)
      && (q.maxAttempts.Some? ==> |r| <= Max(1, q.maxAttempts.value))
      && (q.prefer == [] ==> ReadyFirst(q, r))
  {
    hide Chain, OneEach, ReadyFirst, Refreshed;
    ChainIs(q, w, rrIndex);
    var cs := Chain(q, w, rrIndex);
    if cs != [] {
      assert forall c :: c in cs[1..] ==> c in cs;
      PickAll(cs[1..], (c: Cred) => CanUse(c));
      RefreshedKeeps(q, w, cs);
    } else {
      NobodyTwice(q);
    }
  }

  lemma NobodyTwice(q: Call)
    ensures OneEach([]) && ReadyFirst(q, [])
  {
  }

  /**
   Only the first account of the chain is refreshed, and only if its token has expired and it has a
   key to be looked up by; it is dropped if that leaves it unusable.
   */
  lemma OnlyFirstIsRefreshed(q: Call, w: World, rrIndex: nat)
    requires Shuffles(w) && Chain(q, w, rrIndex) != []
    ensures var r, cs := Acquired(q, w, rrIndex), Chain(q, w, rrIndex);
      r == if cs[0].id == [] || !cs[0].expired then cs
           else if CanUse(w.refresh(cs[0])) then [w.refresh(cs[0])] + cs[1..]
           else cs[1..]
  {
    hide Chain, OneEach, ReadyFirst, CanUse, WithFirstRefreshed;
    ChainIs(q, w, rrIndex);
    FirstRefreshed(w, Chain(q, w, rrIndex));
  }

  lemma FirstRefreshed(w: World, cs: seq<Cred>)
    requires cs != [] && forall c :: c in cs ==> CanUse(c)
    ensures WithFirstRefreshed(w, cs) ==
      if cs[0].id == [] || !cs[0].expired then cs
      else if CanUse(w.refresh(cs[0])) then [w.refresh(cs[0])] + cs[1..]
      else cs[1..]
  {
    hide CanUse;
    assert forall c :: c in cs[1..] ==> c in cs;
    PickAll(cs[1..], (c: Cred) => CanUse(c));
    assert cs == [cs[0]] + cs[1..] && cs[0] in cs;
    UsableWhenExpired(cs[0]);
  }

  lemma UsableWhenExpired(c: Cred)
    ensures CanUse(c) && c.expired ==> c.refreshable
  {
  }

  /** Whenever a refresh gives a token that can be used, the chain is empty only if no account could be. */
  lemma SequenceFindsSomeone(q: Call, w: World, rrIndex: nat)
    requires Shuffles(w) && SameAccount(w) && forall c :: CanUse(w.refresh(c))
    ensures Acquired(q, w, rrIndex) != [] <==> exists c :: c in q.live && CanUse(c)
  {
    hide Acquired, Chain, CanUse, OneEach, ReadyFirst;
    SequenceIsSound(q, w, rrIndex);
    ChainIs(q, w, rrIndex);
    var cs := Chain(q, w, rrIndex);
    if |cs| == 1 { assert cs[0] in cs; }
  }

  // ---------- the preferred account ----------

  lemma {:induction false} PickFirst(cs: seq<Cred>, keep: Cred -> bool)
    requires cs != [] && keep(cs[0])
    ensures Pick(cs, keep) != [] && Pick(cs, keep)[0] == cs[0]
  {
    if |cs| > 1 { PickFirst(cs[..|cs| - 1], keep); }
  }

  /** An account is meant by its key, by its user, or by what stands behind `::` in its key. */
  ghost predicate Means(prefer: Text, c: Cred) {
    c.id == prefer || c.user == prefer || exists x: Text :: c.id == x + T("::") + prefer
  }

  lemma MatchesWhatIsMeant(q: Call)
    ensures forall c :: Matches(q, c) <==> Means(q.prefer, c)
  {
    hide Means, Matches;
    forall c ensures Matches(q, c) <==> Means(q.prefer, c) { MatchesMeant(q, c); }
  }

  lemma MatchesMeant(q: Call, c: Cred)
    ensures Matches(q, c) <==> Means(q.prefer, c)
  {
    EndsWithIs(c.id, T("::") + q.prefer);
    assert forall x: Text :: x + T("::") + q.prefer == x + (T("::") + q.prefer);
  }

  lemma EndsWithIs(s: Text, suffix: Text)
    ensures (|suffix| <= |s| && s[|s| - |suffix|..] == suffix) <==> exists x: Text :: s == x + suffix
  {
    if |suffix| <= |s| && s[|s| - |suffix|..] == suffix {
      assert s == s[..|s| - |suffix|] + suffix;
    }
  }

  /** `c` is the only usable account that is meant. */
  ghost predicate OnlyMatch(q: Call, c: Cred) {
    && q.prefer != [] && Means(q.prefer, c)
    && (forall d :: d in q.live && CanUse(d) && Means(q.prefer, d) ==> d == c)
  }

  /** What speaks against trying an account first. */
  predicate Troubled(q: Call, c: Cred) {
    Cooling(q.pool, c) || Blocked(q.pool, c, q.model) || MetaOf(q.pool, c).consecutiveFails >= 2 || c.expired
  }

  /** `c` is the only account that is meant, and nothing speaks against it. */
  ghost predicate OnlyReadyMatch(q: Call, c: Cred) {
    OnlyMatch(q, c) && c in q.live && Enabled(q.pool, c) && !Troubled(q, c)
  }

  lemma PreferredInWindow(q: Call, w: World, rrIndex: nat, c: Cred)
    requires OnlyReadyMatch(q, c)
    ensures Window(q, w, rrIndex) != [] && Window(q, w, rrIndex)[0] == c
  {
    hide Matches, Means, Enabled, FirstWindow, SetBack, Troubled;
    NotTroubled(q, c);
    MatchesWhatIsMeant(q);
    var head := Preferred(q, ByFreshness(q));
    assert c in ByFreshness(q);
    assert c in head && head[0] in head;
  }

  lemma NotTroubled(q: Call, c: Cred)
    requires !Troubled(q, c)
    ensures !c.expired && !Blocked(q.pool, c, q.model) && !SetBack(q, c)
  {
    hide Cooling, Blocked;
  }

  /** A preferred account that is the only match, enabled and ready, is the first in the chain. */
  lemma PreferredComesFirst(q: Call, w: World, rrIndex: nat, c: Cred)
    requires Shuffles(w) && OnlyReadyMatch(q, c)
    ensures Acquired(q, w, rrIndex) != [] && Acquired(q, w, rrIndex)[0] == c
  {
    hide Window, OnePerUser, Ordered, Matches, Means, Enabled, Blocked, Limit, SetBack, Troubled;
    NotTroubled(q, c);
    MatchesWhatIsMeant(q);
    var window := Window(q, w, rrIndex);
    PreferredInWindow(q, w, rrIndex, c);
    WindowIs(q, w, rrIndex);
    PickFirst(window, (d: Cred) => OnRung(q, 0, d));
    var best := Best(q, 0, window);
    assert best != [] && best[0] == c;
    BestIs(q, 0, window);
    OnePerUserIs(best);
    var one := OnePerUser(best);
    var ordered := Ordered(q, w, one);
    OrderedIs(q, w, one);
    SameSize(ordered, one);
    assert c in one;
    var sticky := Preferred(q, ordered);
    assert c in sticky;
    assert sticky[0] in sticky;
    assert sticky[0] == c;
    assert WithAffinity(q, ordered)[0] == c;
    LimitPositive(q, WithAffinity(q, ordered));
    assert Refreshed(w, c) == c;
  }

  lemma LimitPositive(q: Call, cs: seq<Cred>)
    ensures Limit(q, cs) >= 1
  {
    hide Cooling, Blocked;
  }

  // ---------- who is kept out ----------

  /** How much speaks against an account: nothing, a block that passes, a lasting one, being disabled. */
  function Level(q: Call, c: Cred): nat {
    if Enabled(q.pool, c) then
      if !Blocked(q.pool, c, q.model) then 0 else if !DurablyBlocked(q.pool, c, q.model) then 1 else 2
    else if !QuotaOut(q.pool, c) then 3
    else 4
  }

  lemma RungIsLevel(q: Call, r: nat, cs: seq<Cred>, c: Cred)
    requires c in cs && CanUse(c) && r <= RUNGS
    ensures c in Rung(q, r, cs) <==> (if r < 3 then Level(q, c) <= r else r == RUNGS || !QuotaOut(q.pool, c))
    ensures Level(q, c) <= 4 && (Level(q, c) == 3 ==> !QuotaOut(q.pool, c))
      && (Level(q, c) == 4 ==> QuotaOut(q.pool, c))
  {
    hide Enabled, QuotaOut, Blocked, DurablyBlocked, CanUse;
    if DurablyBlocked(q.pool, c, q.model) { Acq.DurablyBlockedIsBlocked(q.pool, c, q.model); }
  }

  /** The rungs keep exactly those of the window that have the least against them. */
  lemma {:induction false} BestIsLeast(q: Call, r: nat, cs: seq<Cred>)
    requires r <= RUNGS && forall c :: c in cs ==> CanUse(c) && Level(q, c) >= r
    ensures forall c :: c in Best(q, r, cs) <==> c in cs && forall d :: d in cs ==> Level(q, c) <= Level(q, d)
    decreases RUNGS - r
  {
    hide Rung, Level, CanUse, QuotaOut;
    forall c | c in cs
      ensures c in Rung(q, r, cs) <==> Level(q, c) == r
      ensures Level(q, c) <= 4
    {
      RungIsLevel(q, r, cs, c);
    }
    RungIsPart(q, r, cs);
    if Rung(q, r, cs) == [] {
      if r < RUNGS { BestIsLeast(q, r + 1, cs); }
    } else {
      assert Rung(q, r, cs)[0] in Rung(q, r, cs);
    }
  }

  lemma RungIsPart(q: Call, r: nat, cs: seq<Cred>)
    ensures forall c :: c in Rung(q, r, cs) ==> c in cs
  {
    hide OnRung;
  }

  /** Nobody in the chain has more against it than anyone in the window. */
  lemma ChainIsLeast(q: Call, w: World, rrIndex: nat)
    requires Shuffles(w)
    ensures forall c, d :: c in Chain(q, w, rrIndex) && d in Window(q, w, rrIndex) ==> Level(q, c) <= Level(q, d)
  {
    hide Window, Best, OnePerUser, Ordered, WithAffinity, Limit, Level;
    var window := Window(q, w, rrIndex);
    WindowIs(q, w, rrIndex);
    BestIsLeast(q, 0, window);
    var one := OnePerUser(Best(q, 0, window));
    OnePerUserIs(Best(q, 0, window));
    OrderedIs(q, w, one);
    WithAffinityIs(q, Ordered(q, w, one));
    SameSize(one, WithAffinity(q, Ordered(q, w, one)));
  }

  /** The accounts of a chain before its first one is refreshed. */
  lemma RefreshedIsOneOf(q: Call, w: World, rrIndex: nat, c: Cred)
    requires SameAccount(w) && c in Acquired(q, w, rrIndex)
    ensures exists d :: d in Chain(q, w, rrIndex) && d.id == c.id
  {
    hide Chain, CanUse;
    var cs := Chain(q, w, rrIndex);
    if c in cs[1..] { assert c in cs; } else { assert cs[0] in cs && c.id == cs[0].id; }
  }

  /** No account of `cs` has more against it than any of the window. */
  ghost predicate LeastOf(q: Call, cs: seq<Cred>, window: seq<Cred>) {
    forall c, d :: c in cs && d in window ==> Level(q, c) <= Level(q, d)
  }

  /** Refreshing the first changes nothing about that. */
  lemma AcquiredIsLeast(q: Call, w: World, rrIndex: nat)
    requires Shuffles(w) && SameAccount(w)
    ensures LeastOf(q, Acquired(q, w, rrIndex), Window(q, w, rrIndex))
  {
    hide Acquired, Chain, Window, MetaOf, SameAccount, Shuffles;
    ChainIsLeast(q, w, rrIndex);
    forall c, d | c in Acquired(q, w, rrIndex) && d in Window(q, w, rrIndex) ensures Level(q, c) <= Level(q, d) {
      RefreshedIsOneOf(q, w, rrIndex, c);
      var e :| e in Chain(q, w, rrIndex) && e.id == c.id;
      SameMeta(q.pool, c, e);
    }
  }

  /**
   Who is kept out of the chain.  A disabled account is in it only if no account of the window is
   enabled; one whose model is blocked, or blocked for good, only if every enabled account is as well;
   and a disabled one that is out of quota only if all of them are.
   */
  lemma KeptOut(q: Call, w: World, rrIndex: nat, c: Cred, d: Cred)
    requires Shuffles(w) && SameAccount(w) && c in Acquired(q, w, rrIndex) && d in Window(q, w, rrIndex)
    ensures Enabled(q.pool, d) ==> Enabled(q.pool, c)
    ensures Enabled(q.pool, d) && !Blocked(q.pool, d, q.model) ==> !Blocked(q.pool, c, q.model)
    ensures Enabled(q.pool, d) && !DurablyBlocked(q.pool, d, q.model) ==> !DurablyBlocked(q.pool, c, q.model)
    ensures Enabled(q.pool, d) || !QuotaOut(q.pool, d) ==> Enabled(q.pool, c) || !QuotaOut(q.pool, c)
  {
    hide Acquired, Window, MetaOf, SameAccount, Shuffles, Enabled, Blocked, DurablyBlocked, QuotaOut;
    AcquiredIsLeast(q, w, rrIndex);
    if DurablyBlocked(q.pool, c, q.model) { Acq.DurablyBlockedIsBlocked(q.pool, c, q.model); }
  }

  lemma SameMeta(p: Pool, c: Cred, d: Cred)
    requires c.id == d.id
    ensures MetaOf(p, c) == MetaOf(p, d)
  {
  }

  // ---------- who is left out ----------

  lemma {:induction false} OnePerUserCovers(cs: seq<Cred>, c: Cred)
    requires c in cs
    ensures exists d :: d in OnePerUser(cs) && UserOf(d) == UserOf(c)
  {
    hide UserOf;
    var front, l := cs[..|cs| - 1], cs[|cs| - 1];
    if c in front {
      OnePerUserCovers(front, c);
      var d :| d in OnePerUser(front) && UserOf(d) == UserOf(c);
      assert d in OnePerUser(cs);
    } else {
      assert c == l;
      if forall d :: d in OnePerUser(front) ==> UserOf(d) != UserOf(l) {
        assert OnePerUser(cs) == OnePerUser(front) + [c];
      }
      if exists d :: d in OnePerUser(front) && UserOf(d) == UserOf(l) {
        var d :| d in OnePerUser(front) && UserOf(d) == UserOf(l);
        assert d in OnePerUser(cs);
      }
    }
  }

  /** How long a chain gets when fewer than two of its accounts are ready: an eighth, between 4 and 8. */
  function Longer(n: nat): nat { if n < 40 then 4 else if n >= 64 then 8 else n / 8 }

  /** At least two accounts are ready and unblocked. */
  ghost predicate TwoReady(q: Call, cs: seq<Cred>) {
    exists i, j :: 0 <= i < j < |cs|
      && !Cooling(q.pool, cs[i]) && !Blocked(q.pool, cs[i], q.model) && !Cooling(q.pool, cs[j])
        && !Blocked(q.pool, cs[j], q.model)
  }

  /** Two accounts are kept. */
  ghost predicate KeepsTwo(cs: seq<Cred>, keep: Cred -> bool) {
    exists i, j :: 0 <= i < j < |cs| && keep(cs[i]) && keep(cs[j])
  }

  lemma KeepsTwoMore(h: seq<Cred>, c: Cred, keep: Cred -> bool)
    ensures KeepsTwo(h + [c], keep) <==> KeepsTwo(h, keep) || (keep(c) && exists d :: d in h && keep(d))
  {
    var cs := h + [c];
    if KeepsTwo(cs, keep) {
      var i, j :| 0 <= i < j < |cs| && keep(cs[i]) && keep(cs[j]);
      assert cs[i] in h;
      assert j < |h| ==> h[i] == cs[i] && h[j] == cs[j];
    }
    if KeepsTwo(h, keep) {
      var i, j :| 0 <= i < j < |h| && keep(h[i]) && keep(h[j]);
      assert cs[i] == h[i] && cs[j] == h[j];
    }
    if keep(c) && exists d :: d in h && keep(d) {
      var i :| 0 <= i < |h| && keep(h[i]);
      assert cs[i] == h[i] && cs[|h|] == c;
    }
  }

  lemma {:induction false} PickTwo(cs: seq<Cred>, keep: Cred -> bool)
    ensures |Pick(cs, keep)| >= 2 <==> KeepsTwo(cs, keep)
  {
    hide KeepsTwo;
    if cs == [] {
      NoTwo(keep);
    } else {
      var h, c := cs[..|cs| - 1], cs[|cs| - 1];
      PickTwo(h, keep);
      assert cs == h + [c];
      KeepsTwoMore(h, c, keep);
      assert Pick(h, keep) == [] || Pick(h, keep)[0] in Pick(h, keep);
    }
  }

  lemma NoTwo(keep: Cred -> bool)
    ensures !KeepsTwo([], keep)
  {
  }

  /** How many accounts a chain may have. */
  lemma LimitIs(q: Call, cs: seq<Cred>)
    ensures Limit(q, cs) ==
      if q.maxAttempts.Some? then Max(1, q.maxAttempts.value)
      else if TwoReady(q, cs) then Max(1, q.policy)
      else Max(Max(1, q.policy), Longer(|cs|))
  {
    hide Cooling, Blocked;
    PickTwo(cs, (c: Cred) => !Cooling(q.pool, c) && !Blocked(q.pool, c, q.model));
  }

  /** Of everyone in the window with the least against them, only those are left out for whom the chain is too long. */
  lemma NobodyIsLeftOut(q: Call, w: World, rrIndex: nat, c: Cred)
    requires Shuffles(w) && c in Window(q, w, rrIndex)
    requires forall d :: d in Window(q, w, rrIndex) ==> Level(q, c) <= Level(q, d)
    ensures var cs := Chain(q, w, rrIndex);
      || (exists d :: d in cs && UserOf(d) == UserOf(c))
      || |cs| >= Max(1, if q.maxAttempts.Some? then q.maxAttempts.value else q.policy)
  {
    hide Window, Best, OnePerUser, Ordered, WithAffinity, Limit, Level, UserOf;
    var window := Window(q, w, rrIndex);
    WindowIs(q, w, rrIndex);
    BestIsLeast(q, 0, window);
    var best := Best(q, 0, window);
    OnePerUserCovers(best, c);
    var d :| d in OnePerUser(best) && UserOf(d) == UserOf(c);
    var one := OnePerUser(best);
    OrderedIs(q, w, one);
    WithAffinityIs(q, Ordered(q, w, one));
    var cs := WithAffinity(q, Ordered(q, w, one));
    SameSize(one, cs);
    LimitIs(q, cs);
    assert d in cs;
  }

  /** A window has room for twelve accounts an attempt, with four attempts unless told and two at least. */
  function Room(q: Call): nat {
    match q.maxAttempts
    case None => 48
    case Some(n) => if n <= 2 then 24 else 12 * n
  }

  lemma RoomIs(q: Call)
    ensures WindowSize(q) == if |PoolOrder(q)| <= Room(q) then |PoolOrder(q)| else Room(q)
  {
    hide PoolOrder;
  }

  /** A pool that fits has every usable account in the window. */
  lemma SmallPoolIsAllThere(q: Call, w: World, rrIndex: nat, c: Cred)
    requires c in q.live && (!c.expired || c.refreshable) && |PoolOrder(q)| <= Room(q)
    ensures exists d :: d in Window(q, w, rrIndex) && d.id == c.id
  {
    hide PoolOrder, Matches, ByFreshness, WindowSize;
    PoolOrderIs(q);
    RoomIs(q);
    var po := PoolOrder(q);
    assert po[..|po|] == po;
    assert FirstWindow(q, w, rrIndex) == po;
    var head := Preferred(q, ByFreshness(q));
    if head != [] {
      HeadIsFirst(q);
      WindowKeeps(po, head[0], c);
    }
  }

  lemma HeadIsFirst(q: Call)
    requires Preferred(q, ByFreshness(q)) != []
    ensures PoolOrder(q) != [] && PoolOrder(q)[0] == Preferred(q, ByFreshness(q))[0]
  {
    hide Matches, ByFreshness;
  }

  /** Putting the first account in front again drops none but its namesakes. */
  lemma WindowKeeps(po: seq<Cred>, first: Cred, c: Cred)
    requires po != [] && po[0] == first && c in po
    ensures var r := Take([first] + Pick(po, (d: Cred) => d.id != first.id), Max(1, |po|));
      exists d :: d in r && d.id == c.id
  {
    var rest := Pick(po, (d: Cred) => d.id != first.id);
    PickDropsFirst(po, (d: Cred) => d.id != first.id);
    var all := [first] + rest;
    assert all[..|all|] == all;
    assert all[0] == first;
    if c.id != first.id { assert c in rest; assert c in all; }
  }

  lemma {:induction false} PickDropsFirst(cs: seq<Cred>, keep: Cred -> bool)
    requires cs != [] && !keep(cs[0])
    ensures |Pick(cs, keep)| < |cs|
  {
    if |cs| > 1 { PickDropsFirst(cs[..|cs| - 1], keep); }
  }

  // ---------- fresh tokens first ----------

  lemma PickSnoc(s: seq<Cred>, c: Cred, keep: Cred -> bool)
    ensures Pick(s + [c], keep) == Pick(s, keep) + (if keep(c) then [c] else [])
  {
    assert (s + [c])[..|s|] == s;
  }

  lemma {:induction false} PickConcat(a: seq<Cred>, b: seq<Cred>, keep: Cred -> bool)
    ensures Pick(a + b, keep) == Pick(a, keep) + Pick(b, keep)
  {
    hide Pick;
    if b == [] {
      assert a + b == a;
      PickAll([], keep);
    } else {
      var h, l := b[..|b| - 1], b[|b| - 1];
      PickConcat(a, h, keep);
      PickSnoc(a + h, l, keep);
      PickSnoc(h, l, keep);
      assert a + b == a + h + [l] && b == h + [l];
    }
  }

  lemma {:induction false} BestIsRung(q: Call, r: nat, cs: seq<Cred>) returns (k: nat)
    requires r <= RUNGS
    ensures Best(q, r, cs) == Rung(q, k, cs)
    decreases RUNGS - r
  {
    hide Rung;
    if r == RUNGS || Rung(q, r, cs) != [] { k := r; } else { k := BestIsRung(q, r + 1, cs); }
  }

  /** The credential that stays is the first of its user. */
  lemma {:induction false} OnePerUserFirst(cs: seq<Cred>, c: Cred) returns (i: nat)
    requires c in OnePerUser(cs)
    ensures i < |cs| && cs[i] == c && forall j :: 0 <= j < i ==> UserOf(cs[j]) != UserOf(c)
  {
    hide UserOf;
    var front := cs[..|cs| - 1];
    if c in OnePerUser(front) {
      i := OnePerUserFirst(front, c);
    } else {
      i := |cs| - 1;
      forall j | 0 <= j < i ensures UserOf(cs[j]) != UserOf(c) {
        OnePerUserCovers(front, front[j]);
      }
    }
  }

  /** In a pool that fits, a user goes with an expired token only if no fresh one of the same user is as good. */
  lemma FreshComesFirst(q: Call, w: World, rrIndex: nat, c: Cred, d: Cred)
    requires Shuffles(w) && q.prefer == [] && |PoolOrder(q)| <= Room(q)
    requires c in Chain(q, w, rrIndex) && d in q.live && !d.expired && UserOf(d) == UserOf(c)
    requires forall e :: e in Window(q, w, rrIndex) ==> Level(q, d) <= Level(q, e)
    ensures !c.expired
  {
    hide Best, OnePerUser, Ordered, WithAffinity, Limit, Level, UserOf, OnRung;
    var po := PoolOrder(q);
    PoolOrderIs(q);
    RoomIs(q);
    assert po[..|po|] == po;
    assert Window(q, w, rrIndex) == po;
    var best := Best(q, 0, po);
    BestIsLeast(q, 0, po);
    OnePerUserIs(best);
    OrderedIs(q, w, OnePerUser(best));
    WithAffinityIs(q, Ordered(q, w, OnePerUser(best)));
    SameSize(OnePerUser(best), WithAffinity(q, Ordered(q, w, OnePerUser(best))));
    var k := BestIsRung(q, 0, po);
    var i := OnePerUserFirst(best, c);
    FreshHalf(q, k, best, i, d);
  }

  lemma FreshHalf(q: Call, k: nat, best: seq<Cred>, i: nat, d: Cred)
    requires q.prefer == [] && best == Rung(q, k, PoolOrder(q)) && i < |best| && d in best && !d.expired
    requires forall j :: 0 <= j < i ==> UserOf(best[j]) != UserOf(best[i])
    requires UserOf(d) == UserOf(best[i])
    ensures !best[i].expired
  {
    hide OnRung, UserOf;
    var keep := (c: Cred) => OnRung(q, k, c);
    var young, stale := Pick(q.live, (c: Cred) => !c.expired), Pick(q.live, (c: Cred) => c.expired && c.refreshable);
    assert PoolOrder(q) == young + stale by { assert [] + (young + stale) == young + stale; }
    PickConcat(young, stale, keep);
    YoungThenStale(Pick(young, keep), Pick(stale, keep), best, i, d);
  }

  lemma YoungThenStale(a: seq<Cred>, b: seq<Cred>, best: seq<Cred>, i: nat, d: Cred)
    requires best == a + b && (forall c :: c in a ==> !c.expired) && (forall c :: c in b ==> c.expired)
    requires i < |best| && d in best && !d.expired && UserOf(d) == UserOf(best[i])
    requires forall j :: 0 <= j < i ==> UserOf(best[j]) != UserOf(best[i])
    ensures !best[i].expired
  {
    hide UserOf;
    var j :| 0 <= j < |best| && best[j] == d;
    forall m | 0 <= m < |best| ensures best[m].expired <==> m >= |a| {
      assert best[m] == if m < |a| then a[m] else b[m - |a|];
    }
  }

  // ---------- the order of the mode ----------

  /**
   Ready accounts first; then healthier ones, or in round robin healthier by steps of 3 and cooling
   ones by their end.
   */
  ghost predicate NoLater(q: Call, c: Cred, d: Cred) {
    var p := q.pool;
    && (Cooling(p, c) ==> Cooling(p, d))
    && (Cooling(p, c) == Cooling(p, d) ==>
          match q.mode
          case Random => Penalty(p, c) <= Penalty(p, d)
          case LeastUsed =>
            && Penalty(p, c) <= Penalty(p, d)
            && (Penalty(p, c) == Penalty(p, d) ==>
                  && StatsOf(p, c).requests <= StatsOf(p, d).requests
                  && (StatsOf(p, c).requests == StatsOf(p, d).requests ==>
                        StatsOf(p, c).lastUsed <= StatsOf(p, d).lastUsed))
          case RoundRobin =>
            if Cooling(p, c) then UntilOf(p, c) <= UntilOf(p, d)
            else (Penalty(p, c) / 3.0).Floor <= (Penalty(p, d) / 3.0).Floor)
  }

  ghost predicate InOrder(q: Call, cs: seq<Cred>) {
    forall i, j :: 0 <= i < j < |cs| ==> NoLater(q, cs[i], cs[j])
  }

  lemma Le1(a: Key, b: Key)
    requires |a| == 1 && |b| == 1 && Le(a, b)
    ensures a[0] <= b[0]
  {
  }

  lemma Le2(a: Key, b: Key)
    requires |a| == 2 && |b| == 2 && Le(a, b)
    ensures a[0] <= b[0] && (a[0] == b[0] ==> a[1] <= b[1])
  {
    if a[0] == b[0] { Le1(a[1..], b[1..]); }
  }

  lemma Le4(a: Key, b: Key)
    requires |a| == 4 && |b| == 4 && Le(a, b)
    ensures a[0] <= b[0] && (a[0] == b[0] ==>
      a[1] <= b[1] && (a[1] == b[1] ==> a[2] <= b[2] && (a[2] == b[2] ==> a[3] <= b[3])))
  {
    if a[0] == b[0] && a[1] == b[1] {
      assert a[1..][1..] == a[2..] && b[1..][1..] == b[2..];
      Le2(a[2..], b[2..]);
    }
  }

  /** In every mode, each account stands no later than those after it. */
  lemma OrderedInOrder(q: Call, w: World, cs: seq<Cred>)
    requires Shuffles(w)
    ensures InOrder(q, Ordered(q, w, cs))
  {
    hide Le, Cooling, SortBy, Penalty, StatsOf, UntilOf, Ready, CoolingOnes;
    var r := Ordered(q, w, cs);
    match q.mode
    case Random =>
      SortIs(RandomKey(q), w.shuffle(1, cs));
      forall i, j | 0 <= i < j < |r| ensures NoLater(q, r[i], r[j]) { Le2(RandomKey(q)(r[i]), RandomKey(q)(r[j])); }
    case LeastUsed =>
      SortIs(LeastUsedKey(q), cs);
      forall i, j | 0 <= i < j < |r| ensures NoLater(q, r[i], r[j]) {
        Le4(LeastUsedKey(q)(r[i]), LeastUsedKey(q)(r[j]));
      }
    case RoundRobin =>
      RotatedInOrder(q, cs);
  }

  lemma RotatedInOrder(q: Call, cs: seq<Cred>)
    requires q.mode == RoundRobin
    ensures InOrder(q, SortBy(BucketKey(q), Ready(q, cs)) + SortBy(UntilKey(q), CoolingOnes(q, cs)))
  {
    hide Le, Cooling, SortBy, Penalty, UntilOf;
    var a, b := SortBy(BucketKey(q), Ready(q, cs)), SortBy(UntilKey(q), CoolingOnes(q, cs));
    SortIs(BucketKey(q), Ready(q, cs));
    SortIs(UntilKey(q), CoolingOnes(q, cs));
    SameSize(a, Ready(q, cs));
    SameSize(b, CoolingOnes(q, cs));
    var r := a + b;
    forall i, j | 0 <= i < j < |r| ensures NoLater(q, r[i], r[j]) {
      if j < |a| {
        assert a[i] in a && a[j] in a;
        Le1(BucketKey(q)(a[i]), BucketKey(q)(a[j]));
      } else if i >= |a| {
        assert b[i - |a|] in b && b[j - |a|] in b;
        Le1(UntilKey(q)(b[i - |a|]), UntilKey(q)(b[j - |a|]));
      } else {
        assert a[i] in a && b[j - |a|] in b;
      }
    }
  }

  /** Without a preferred account the chain stands in the order of the mode. */
  lemma ChainInOrder(q: Call, w: World, rrIndex: nat)
    requires Shuffles(w) && q.prefer == []
    ensures InOrder(q, Chain(q, w, rrIndex))
  {
    hide Window, Best, OnePerUser, Ordered, Limit, NoLater;
    var one := OnePerUser(Best(q, 0, Window(q, w, rrIndex)));
    OrderedInOrder(q, w, one);
    WithAffinityIs(q, Ordered(q, w, one));
  }

  // ---------- round robin ----------

  lemma {:induction false} SortSame(key: Cred -> Key, cs: seq<Cred>)
    requires Ascends(key, cs)
    ensures SortBy(key, cs) == cs
  {
    hide Le;
    if cs != [] {
      var h := cs[..|cs| - 1];
      SortSame(key, h);
      assert cs == h + [cs[|cs| - 1]];
      if h != [] { assert Le(key(cs[|h| - 1]), key(cs[|h|])); }
    }
  }

  lemma {:induction false} AllReady(q: Call, cs: seq<Cred>)
    requires forall c :: c in cs ==> !Cooling(q.pool, c)
    ensures Ready(q, cs) == cs && CoolingOnes(q, cs) == []
  {
    hide Cooling;
    if cs != [] {
      assert cs == cs[..|cs| - 1] + [cs[|cs| - 1]];
      AllReady(q, cs[..|cs| - 1]);
    }
  }

  lemma SameBucket(q: Call, cs: seq<Cred>)
    requires forall c, d :: c in cs && d in cs ==> (Penalty(q.pool, c) / 3.0).Floor == (Penalty(q.pool, d) / 3.0).Floor
    ensures Ascends(BucketKey(q), cs)
  {
    hide Le, Penalty;
    forall i, j | 0 <= i < j < |cs| ensures Le(BucketKey(q)(cs[i]), BucketKey(q)(cs[j])) {
      assert cs[i] in cs && cs[j] in cs;
      LeTotal(BucketKey(q)(cs[i]), BucketKey(q)(cs[j]));
    }
  }

  /** Round robin keeps the turn of the window among ready accounts that are about as healthy. */
  lemma RoundRobinKeepsTurn(q: Call, w: World, cs: seq<Cred>)
    requires q.mode == RoundRobin && forall c :: c in cs ==> !Cooling(q.pool, c)
    requires forall c, d :: c in cs && d in cs ==> (Penalty(q.pool, c) / 3.0).Floor == (Penalty(q.pool, d) / 3.0).Floor
    ensures Ordered(q, w, cs) == cs
  {
    hide Le, Cooling, Penalty, UntilOf, Ready, CoolingOnes, BucketKey, UntilKey, SortBy;
    AllReady(q, cs);
    SameBucket(q, cs);
    SortSame(BucketKey(q), cs);
    SortSame(UntilKey(q), []);
    assert cs + [] == cs;
  }

  /** In round robin a window of a large pool begins at the index and goes around, and the index moves on by one. */
  lemma WindowTurns(q: Call, w: World, rrIndex: nat, k: nat)
    requires q.mode == RoundRobin && q.prefer == [] && |PoolOrder(q)| > Room(q)
    ensures var po, window := PoolOrder(q), Window(q, w, rrIndex);
      && |window| == Room(q)
      && (k < |window| ==>
            window[k] == if rrIndex % |po| + k < |po| then po[rrIndex % |po| + k] else po[rrIndex % |po| + k - |po|])
      && NextIndex(q, rrIndex) == if rrIndex % |po| + 1 == |po| then 0 else rrIndex % |po| + 1
  {
    hide PoolOrder;
    RoomIs(q);
    var po := PoolOrder(q);
    Acq.SmallMod(rrIndex % |po| + 1, |po|);
  }

  // ---------- preferred accounts in the window ----------

  /** No account that is meant stands behind one that is not. */
  ghost predicate MeantFirst(q: Call, cs: seq<Cred>) {
    forall i, j :: 0 <= i < j < |cs| && Matches(q, cs[j]) ==> Matches(q, cs[i])
  }

  lemma MeantThenOthers(q: Call, a: seq<Cred>, b: seq<Cred>)
    requires (forall c :: c in a ==> Matches(q, c)) && forall c :: c in b ==> !Matches(q, c)
    ensures MeantFirst(q, a + b)
  {
    hide Matches;
    forall i | 0 <= i < |a| ensures Matches(q, (a + b)[i]) { assert (a + b)[i] in a; }
    forall j | |a| <= j < |a + b| ensures !Matches(q, (a + b)[j]) { assert (a + b)[j] in b; }
  }

  lemma {:induction false} PickMeantFirst(q: Call, cs: seq<Cred>, keep: Cred -> bool)
    requires MeantFirst(q, cs)
    ensures MeantFirst(q, Pick(cs, keep))
  {
    hide Matches;
    if cs != [] {
      var front, c := cs[..|cs| - 1], cs[|cs| - 1];
      PickMeantFirst(q, front, keep);
      var r := Pick(front, keep);
      if keep(c) && Matches(q, c) {
        forall i | 0 <= i < |r| ensures Matches(q, r[i]) {
          assert r[i] in front;
        }
      }
    }
  }

  /** Unless it is drawn at random, the window too has the accounts that are meant in front. */
  lemma WindowMeantFirst(q: Call, w: World, rrIndex: nat)
    requires q.prefer != [] && (q.mode == Random ==> |PoolOrder(q)| <= Room(q))
    ensures var window := Window(q, w, rrIndex);
      forall i, j :: 0 <= i < j < |window| && Means(q.prefer, window[j]) ==> Means(q.prefer, window[i])
  {
    hide Matches, Means, ByFreshness, WindowSize, FirstWindow;
    MatchesWhatIsMeant(q);
    FirstMeantFirst(q, w, rrIndex);
    var head := Preferred(q, ByFreshness(q));
    if head != [] {
      assert head[0] in head;
      PickMeantFirst(q, FirstWindow(q, w, rrIndex), (c: Cred) => c.id != head[0].id);
    }
    assert MeantFirst(q, Window(q, w, rrIndex));
  }

  lemma RotatedMeantFirst(q: Call, window: seq<Cred>)
    requires q.prefer != []
    ensures var sticky := Preferred(q, window);
      && MeantFirst(q, sticky + Pick(window, (c: Cred) => c !in sticky))
      && (sticky == [] ==> MeantFirst(q, window))
  {
    hide Matches;
    var sticky := Preferred(q, window);
    MeantThenOthers(q, sticky, Pick(window, (c: Cred) => c !in sticky));
    if sticky == [] {
      assert forall c :: c in window ==> !Matches(q, c);
      MeantThenOthers(q, [], window);
      assert [] + window == window;
    }
  }

  lemma FirstMeantFirst(q: Call, w: World, rrIndex: nat)
    requires q.prefer != [] && (q.mode == Random ==> |PoolOrder(q)| <= Room(q))
    ensures MeantFirst(q, FirstWindow(q, w, rrIndex))
  {
    hide Matches, ByFreshness, WindowSize;
    RoomIs(q);
    var po := PoolOrder(q);
    MeantThenOthers(q, Preferred(q, ByFreshness(q)), Others(q, ByFreshness(q)));
    if Rotates(q) {
      var start := rrIndex % |po|;
      RotatedMeantFirst(q, Take(po[start..] + po[..start], WindowSize(q)));
    }
  }

  // ---------- a preferred account that is set back ----------

  /** `c` is the only usable account that is meant, and something speaks against trying it first. */
  ghost predicate OnlySetBackMatch(q: Call, c: Cred) { OnlyMatch(q, c) && Troubled(q, c) }

  /** Then it is tried after everyone else. */
  lemma SetBackComesLast(q: Call, w: World, rrIndex: nat, c: Cred)
    requires Shuffles(w) && OnlySetBackMatch(q, c) && c in Chain(q, w, rrIndex)
    ensures var cs := Chain(q, w, rrIndex); cs[|cs| - 1] == c && c !in cs[..|cs| - 1]
  {
    hide Window, Best, OnePerUser, Ordered, Limit, Matches, OnlySetBackMatch, CanUse, Cooling, Blocked, MetaOf,
      WithAffinity, OneEach;
    var window := Window(q, w, rrIndex);
    WindowIs(q, w, rrIndex);
    BestIs(q, 0, window);
    var one := OnePerUser(Best(q, 0, window));
    OnePerUserIs(Best(q, 0, window));
    var ordered := Ordered(q, w, one);
    OrderedIs(q, w, one);
    SameSize(one, ordered);
    WithAffinityIs(q, ordered);
    var all := WithAffinity(q, ordered);
    SameSize(ordered, all);
    OneEachStays(one, ordered);
    assert c in ordered;
    SetBackGoesBehind(q, ordered, c);
    LastOfAll(Others(q, ordered), c, Limit(q, all));
  }

  lemma SetBackGoesBehind(q: Call, ordered: seq<Cred>, c: Cred)
    requires OnlySetBackMatch(q, c) && OneEach(ordered) && c in ordered
    requires forall d :: d in ordered ==> d in q.live && CanUse(d)
    ensures WithAffinity(q, ordered) == Others(q, ordered) + [c] && c !in Others(q, ordered)
  {
    hide Matches, Means, CanUse, Cooling, Blocked, MetaOf, OneEach;
    MatchesWhatIsMeant(q);
    OnlyOne(q, ordered, c);
  }

  lemma LastOfAll(others: seq<Cred>, c: Cred, n: nat)
    requires c !in others && c in Take(others + [c], n)
    ensures Take(others + [c], n) == others + [c]
  {
    var r := Take(others + [c], n);
    var k :| 0 <= k < |r| && r[k] == c;
    assert (others + [c])[k] == c;
  }

  lemma {:induction false} OnlyOne(q: Call, cs: seq<Cred>, c: Cred)
    requires OneEach(cs) && q.prefer != [] && forall d :: d in Preferred(q, cs) ==> d == c
    requires c in Preferred(q, cs)
    ensures Preferred(q, cs) == [c]
  {
    hide Matches, UserOf;
    var r := Preferred(q, cs);
    Once(cs, c);
    Acq.PickBag(cs, (d: Cred) => Matches(q, d), c);
    assert multiset(r)[c] <= 1;
    assert forall i :: 0 <= i < |r| ==> r[i] in r;
    if |r| > 1 {
      assert r[0] == r[1];
      Twice(r, 0, 1);
    }
  }

  // ---------- the method ----------

  /** One pass over the window. */
  method Filter(q: Call, cs: seq<Cred>, r: nat) returns (enabled: seq<Cred>)
    ensures enabled == Rung(q, r, cs)
  {
    hide OnRung;
    enabled := [];
    var i := 0;
    while i < |cs|
      invariant 0 <= i <= |cs|
      invariant enabled == Rung(q, r, cs[..i])
    {
      assert cs[..i + 1][..i] == cs[..i];
      if OnRung(q, r, cs[i]) { enabled := enabled + [cs[i]]; }
      i := i + 1;
    }
    assert cs[..i] == cs;
  }

  /** Drop further credentials of a user already seen. */
  method Dedupe(cs: seq<Cred>) returns (deduped: seq<Cred>)
    ensures deduped == OnePerUser(cs) && OneEach(deduped)
  {
    hide UserOf;
    OnePerUserIs(cs);
    var seen: set<Text> := {};
    deduped := [];
    var i := 0;
    while i < |cs|
      invariant 0 <= i <= |cs|
      invariant deduped == OnePerUser(cs[..i])
      invariant forall u :: u in seen <==> exists d :: d in deduped && UserOf(d) == u
    {
      assert cs[..i + 1][..i] == cs[..i];
      if UserOf(cs[i]) !in seen {
        seen := seen + {UserOf(cs[i])};
        deduped := deduped + [cs[i]];
      }
      i := i + 1;
    }
    assert cs[..i] == cs;
  }

  /** The full path of `try_acquire_sequence`, over the round-robin index that `acquire` uses too. */
  method TryAcquireSequence(s: Acq.Scheduler, q: Call, w: World) returns (chain: seq<Cred>)
    requires Shuffles(w) && SameAccount(w)
    modifies s
    ensures chain == Acquired(q, w, old(s.rrIndex)) && s.rrIndex == NextIndex(q, old(s.rrIndex))
    ensures OneEach(chain) && (q.maxAttempts.Some? ==> |chain| <= Max(1, q.maxAttempts.value))
    ensures LeastOf(q, chain, Window(q, w, old(s.rrIndex)))
  {
    hide LeastOf, Window, Rung, OnePerUser, Ordered, WithAffinity, Limit, Refreshed, Rotates, Shuffles,
      SameAccount, OneEach, CanUse, PoolOrder;
    SequenceIsSound(q, w, s.rrIndex);
    AcquiredIsLeast(q, w, s.rrIndex);
    var window := Window(q, w, s.rrIndex);
    if Rotates(q) { s.rrIndex := Wrapped(q, s.rrIndex); }
    var r := 0;
    var enabled := Filter(q, window, 0);
    while r < RUNGS && enabled == []
      invariant 0 <= r <= RUNGS
      invariant enabled == Rung(q, r, window)
      invariant Best(q, 0, window) == Best(q, r, window)
      invariant s.rrIndex == NextIndex(q, old(s.rrIndex))
    {
      r := r + 1;
      enabled := Filter(q, window, r);
    }
    assert enabled == Best(q, 0, window);
    var deduped := Dedupe(enabled);
    var ordered := WithAffinity(q, Ordered(q, w, deduped));
    ordered := Take(ordered, Limit(q, ordered));
    assert ordered == Chain(q, w, old(s.rrIndex));
    if ordered == [] { return []; }
    var first := Refreshed(w, ordered[0]);
    var rest := Pick(ordered[1..], (c: Cred) => CanUse(c));
    chain := if CanUse(first) then [first] + rest else rest;
  }

  function Wrapped(q: Call, rrIndex: nat): nat
    requires Rotates(q)
  {
    (rrIndex % |PoolOrder(q)| + 1) % |PoolOrder(q)|
  }
}
