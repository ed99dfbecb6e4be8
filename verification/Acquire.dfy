/**
 Picking one account (account_pool.py, `acquire`): a ladder of ever weaker demands, then a choice
 by mode among the accounts of the first rung that is not empty.
 */
module Acquire {
  import opened Texts
  import opened Ranking
  import opened Scheduling

  /** The arguments of one call, and what it reads. */
  datatype Call = Call(live: seq<Cred>, exclude: set<Text>, model: Text, autoRefresh: bool, mode: Mode, pool: Pool)

  // ---------- the ladder ----------

  const RUNGS: nat := 5

  /** Whether an account is on a rung of the ladder. */
  predicate OnRung(q: Call, r: nat, c: Cred) {
    && Usable(q.autoRefresh, c)
    && match r
       case 0 => Enabled(q.pool, c) && !Cooling(q.pool, c) && !Blocked(q.pool, c, q.model)
       case 1 => Enabled(q.pool, c) && !Blocked(q.pool, c, q.model)
       case 2 => Enabled(q.pool, c) && !DurablyBlocked(q.pool, c, q.model)
       case 3 => Enabled(q.pool, c)
       case _ => !QuotaOut(q.pool, c)
  }

  /** Live credentials that are not excluded; without refresh, expired ones are not listed. */
  function Candidates(q: Call): seq<Cred> {
    Pick(q.live, (c: Cred) => (q.autoRefresh || !c.expired) && c.id !in q.exclude)
  }

  function Rung(q: Call, r: nat): seq<Cred> { Pick(Candidates(q), (c: Cred) => OnRung(q, r, c)) }

  /** The first rung from `r` on that has an account, or one past the last. */
  function FirstRung(q: Call, r: nat): nat
    requires r <= RUNGS
    decreases RUNGS - r
  {
    if r == RUNGS || Rung(q, r) != [] then r else FirstRung(q, r + 1)
  }

  /** No candidate could be used without a refresh: the pool is in soft recovery. */
  predicate Recovering(q: Call) {
    forall c :: c in Candidates(q) ==> !(OnRung(q, 0, c) && !c.expired)
  }

  // ---------- the choice ----------

  /** In soft recovery: unblocked first, then soonest ready, then healthiest. */
  function RecoveryKey(q: Call): Cred -> Key {
    (c: Cred) => [if Blocked(q.pool, c, q.model) then 1.0 else 0.0, UntilOf(q.pool, c), Penalty(q.pool, c)]
  }

  function LeastUsedKey(q: Call): Cred -> Key {
    (c: Cred) => [Penalty(q.pool, c), StatsOf(q.pool, c).requests as real, StatsOf(q.pool, c).lastUsed]
  }

  /** `min`: the first of the least. */
  function Least(key: Cred -> Key, cs: seq<Cred>): Cred
    requires cs != []
  {
    if |cs| == 1 then cs[0]
    else
      var m := Least(key, cs[..|cs| - 1]);
      if Le(key(m), key(cs[|cs| - 1])) then m else cs[|cs| - 1]
  }

  /** How many of the best accounts a choice in soft recovery looks at. */
  function WindowSize(n: nat): nat
    requires n > 3
  {
    var q := if n / 4 == 0 then 3 else n / 4;
    if q > 12 then 12 else if q < 3 then 3 else q
  }

  datatype Result = Picked(c: Cred) | AuthError

  /** What `acquire` returns, before a refresh of the picked token, and the new round-robin index. */
  datatype Answer = Answer(result: Result, rrIndex: nat)

  /** `random.choices`, given the roll of the dice. */
  function Rolled(cs: seq<Cred>, roll: nat): Cred
    requires cs != []
  {
    cs[roll % |cs|]
  }

  /** The choice in soft recovery. */
  function RecoveryChoice(q: Call, eligible: seq<Cred>, roll: nat): Cred
    requires eligible != []
  {
    SortIs(RecoveryKey(q), eligible);
    var ranked := SortBy(RecoveryKey(q), eligible);
    if q.mode == RoundRobin || |ranked| <= 3 then ranked[0]
    else
      var window := ranked[..WindowSize(|ranked|)];
      if q.mode == Random then Rolled(window, roll) else Least(LeastUsedKey(q), window)
  }

  /** The choice among accounts that are ready. */
  function Choice(q: Call, eligible: seq<Cred>, rrIndex: nat, roll: nat): Cred
    requires eligible != []
  {
    match q.mode
    case RoundRobin => eligible[rrIndex % |eligible|]
    case Random => Rolled(eligible, roll)
    case LeastUsed => Least(LeastUsedKey(q), eligible)
  }

  function Acquired(q: Call, rrIndex: nat, roll: nat): Answer {
    var r := FirstRung(q, 0);
    FirstRungIs(q, 0);
    if r == RUNGS then Answer(AuthError, rrIndex)
    else
      var eligible := Rung(q, r);
      if Recovering(q) then Answer(Picked(RecoveryChoice(q, eligible, roll)), rrIndex)
      else Answer(Picked(Choice(q, eligible, rrIndex, roll)),
                  if q.mode == RoundRobin then (rrIndex % |eligible| + 1) % |eligible| else rrIndex)
  }

  // ---------- what a pick promises ----------

  lemma {:induction false} FirstRungIs(q: Call, r: nat)
    requires r <= RUNGS
    ensures r <= FirstRung(q, r) <= RUNGS
    ensures forall k :: r <= k < FirstRung(q, r) ==> Rung(q, k) == []
    ensures FirstRung(q, r) < RUNGS ==> Rung(q, FirstRung(q, r)) != []
    decreases RUNGS - r
  {
    hide Rung;
    if r < RUNGS && Rung(q, r) == [] { FirstRungIs(q, r + 1); }
  }

  lemma {:induction false} LeastIs(key: Cred -> Key, cs: seq<Cred>)
    requires cs != []
    ensures Least(key, cs) in cs
    ensures forall c :: c in cs ==> Le(key(Least(key, cs)), key(c))
  {
    hide Le;
    var n := |cs| - 1;
    assert cs == cs[..n] + [cs[n]];
    if n > 0 {
      var m := Least(key, cs[..n]);
      LeastIs(key, cs[..n]);
      LeTotal(key(m), key(cs[n]));
      LeTotal(key(cs[n]), key(cs[n]));
      if !Le(key(m), key(cs[n])) {
        forall c | c in cs[..n] ensures Le(key(cs[n]), key(c)) { LeTransitive(key(cs[n]), key(m), key(c)); }
      }
    } else {
      LeTotal(key(cs[0]), key(cs[0]));
    }
  }

  /** Every choice is a choice among the eligible. */
  lemma ChoiceIsEligible(q: Call, eligible: seq<Cred>, rrIndex: nat, roll: nat)
    requires eligible != []
    ensures RecoveryChoice(q, eligible, roll) in eligible && Choice(q, eligible, rrIndex, roll) in eligible
  {
    hide Le, LeastUsedKey, RecoveryKey, Least, SortBy;
    var ranked := SortBy(RecoveryKey(q), eligible);
    SortIs(RecoveryKey(q), eligible);
    SameSize(ranked, eligible);
    LeastIs(LeastUsedKey(q), eligible);
    if |ranked| > 3 {
      var window := ranked[..WindowSize(|ranked|)];
      LeastIs(LeastUsedKey(q), window);
      assert forall c :: c in window ==> c in ranked;
    }
  }

  /** The account picked is on the first rung of the ladder that has one. */
  lemma PickedFromFirstRung(q: Call, rrIndex: nat, roll: nat)
    ensures var r, a := FirstRung(q, 0), Acquired(q, rrIndex, roll).result;
      && (a.AuthError? <==> r == RUNGS)
      && (a.Picked? ==> r < RUNGS && a.c in Rung(q, r))
  {
    hide Rung, Recovering, RecoveryChoice, Choice;
    FirstRungIs(q, 0);
    var r := FirstRung(q, 0);
    if r < RUNGS { ChoiceIsEligible(q, Rung(q, r), rrIndex, roll); }
  }

  /** Each of the first four rungs holds whatever the ones before it hold. */
  lemma RungsWiden(q: Call, r: nat, c: Cred)
    requires r < 4 && OnRung(q, r, c)
    ensures OnRung(q, 3, c)
  {
  }

  /** A disabled account is picked only when no account that could be used is enabled. */
  lemma PicksEnabled(q: Call, rrIndex: nat, roll: nat)
    requires Acquired(q, rrIndex, roll).result.Picked?
    ensures Enabled(q.pool, Acquired(q, rrIndex, roll).result.c) <==>
      exists d :: d in Candidates(q) && Usable(q.autoRefresh, d) && Enabled(q.pool, d)
  {
    hide Acquired, Enabled, QuotaOut, Cooling, Blocked, DurablyBlocked, Candidates;
    PickedFromFirstRung(q, rrIndex, roll);
    FirstRungIs(q, 0);
    var r, c := FirstRung(q, 0), Acquired(q, rrIndex, roll).result.c;
    assert c in Candidates(q) && OnRung(q, r, c);
    if r < 4 {
      RungsWiden(q, r, c);
    } else {
      assert Rung(q, 3) == [];
      forall d | d in Candidates(q) ensures !OnRung(q, 3, d) {
        assert d !in Rung(q, 3);
      }
    }
  }

  // ---------- round robin ----------

  /** The index after `k` picks from a list of `n`. */
  function Turned(index: nat, n: nat, k: nat): nat
    requires n > 0
  {
    if k == 0 then index else (Turned(index, n, k - 1) % n + 1) % n
  }

  lemma SmallMod(x: nat, n: nat)
    requires x <= n && n > 0
    ensures x % n == if x == n then 0 else x
  {
  }

  lemma {:induction false} TurnedIs(index: nat, n: nat, k: nat)
    requires n > 0 && k <= n
    ensures Turned(index, n, k) % n == if index % n + k < n then index % n + k else index % n + k - n
  {
    if k > 0 {
      TurnedIs(index, n, k - 1);
      var x := Turned(index, n, k - 1) % n;
      SmallMod(x + 1, n);
      SmallMod((x + 1) % n, n);
    }
  }

  /** The round-robin index after `k` calls. */
  function IndexAfter(q: Call, rrIndex: nat, k: nat): nat {
    if k == 0 then rrIndex else Acquired(q, IndexAfter(q, rrIndex, k - 1), 0).rrIndex
  }

  /** The answers of `k` calls one after the other. */
  function Answers(q: Call, rrIndex: nat, k: nat): seq<Result> {
    if k == 0 then [] else Answers(q, rrIndex, k - 1) + [Acquired(q, IndexAfter(q, rrIndex, k - 1), 0).result]
  }

  /** A list turned so that it begins at `i`. */
  function Rotated(cs: seq<Cred>, i: nat): seq<Cred>
    requires i <= |cs|
  {
    cs[i..] + cs[..i]
  }

  /** One call outside soft recovery. */
  lemma OneTurn(q: Call, i: nat)
    requires q.mode == RoundRobin && !Recovering(q) && FirstRung(q, 0) < RUNGS && Rung(q, FirstRung(q, 0)) != []
    ensures var cs := Rung(q, FirstRung(q, 0));
      Acquired(q, i, 0) == Answer(Picked(cs[i % |cs|]), (i % |cs| + 1) % |cs|)
  {
    hide Rung, Recovering, FirstRung;
  }

  lemma RotatedAt(cs: seq<Cred>, i: nat, j: nat)
    requires i <= |cs| && j < |cs|
    ensures Rotated(cs, i)[j] == if i + j < |cs| then cs[i + j] else cs[i + j - |cs|]
  {
  }

  lemma {:induction false} AnswersTurn(q: Call, rrIndex: nat, k: nat)
    requires q.mode == RoundRobin && !Recovering(q) && FirstRung(q, 0) < RUNGS && Rung(q, FirstRung(q, 0)) != []
    requires k <= |Rung(q, FirstRung(q, 0))|
    ensures var cs := Rung(q, FirstRung(q, 0));
      && |Answers(q, rrIndex, k)| == k && IndexAfter(q, rrIndex, k) == Turned(rrIndex, |cs|, k)
      && forall j: nat :: j < k ==> Answers(q, rrIndex, k)[j] == Picked(Rotated(cs, rrIndex % |cs|)[j])
  {
    hide Rung, Recovering, FirstRung, Acquired, Rotated;
    var cs := Rung(q, FirstRung(q, 0));
    if k > 0 {
      AnswersTurn(q, rrIndex, k - 1);
      TurnedIs(rrIndex, |cs|, k - 1);
      OneTurn(q, IndexAfter(q, rrIndex, k - 1));
      RotatedAt(cs, rrIndex % |cs|, k - 1);
    }
  }

  /**
   As many calls in a row as there are eligible accounts, with nothing else changed, pick each of them
   once, from the index on and around.
   */
  lemma RoundRobinTakesEach(q: Call, rrIndex: nat)
    requires q.mode == RoundRobin && !Recovering(q) && FirstRung(q, 0) < RUNGS
    ensures var cs := Rung(q, FirstRung(q, 0));
      && cs != []
      && var turned := Rotated(cs, rrIndex % |cs|);
         && multiset(turned) == multiset(cs)
         && |Answers(q, rrIndex, |cs|)| == |turned|
         && forall j: nat :: j < |turned| ==> Answers(q, rrIndex, |cs|)[j] == Picked(turned[j])
  {
    hide Rung, Recovering, FirstRung, Answers;
    FirstRungIs(q, 0);
    var cs := Rung(q, FirstRung(q, 0));
    var i := rrIndex % |cs|;
    assert cs == cs[..i] + cs[i..];
    AnswersTurn(q, rrIndex, |cs|);
  }

  // ---------- the best accounts ----------

  /** An account that this call could use at all. */
  predicate Free(q: Call, c: Cred) {
    c in q.live && c.id !in q.exclude && (!c.expired || (q.autoRefresh && c.refreshable))
  }

  /** How much speaks against an account: nothing, a cooldown, a block that passes, a lasting one, being disabled. */
  function Level(q: Call, c: Cred): nat {
    if Enabled(q.pool, c) then
      if !Blocked(q.pool, c, q.model) then (if Cooling(q.pool, c) then 1 else 0)
      else if !DurablyBlocked(q.pool, c, q.model) then 2
      else 3
    else if !QuotaOut(q.pool, c) then 4
    else 5
  }

  /** Usable, not out of quota while disabled, and no usable account has less against it. */
  ghost predicate IsBest(q: Call, c: Cred) {
    Free(q, c) && Level(q, c) < 5 && forall d :: Free(q, d) ==> Level(q, c) <= Level(q, d)
  }

  lemma DurablyBlockedIsBlocked(p: Pool, c: Cred, model: Text)
    requires DurablyBlocked(p, c, model)
    ensures Blocked(p, c, model)
  {
  }

  /** The rungs, by level: each of the first four holds all that have no more against them. */
  lemma RungIsLevel(q: Call, r: nat, c: Cred)
    requires r < RUNGS
    ensures c in Rung(q, r) <==>
      Free(q, c) && (if r < 4 then Level(q, c) <= r else !QuotaOut(q.pool, c))
  {
    hide Enabled, Cooling, QuotaOut, Blocked, DurablyBlocked;
    if DurablyBlocked(q.pool, c, q.model) { DurablyBlockedIsBlocked(q.pool, c, q.model); }
  }

  /** The accounts that `acquire` chooses from. */
  function Eligible(q: Call): seq<Cred> {
    if FirstRung(q, 0) < RUNGS then Rung(q, FirstRung(q, 0)) else []
  }

  /** The choice is made among exactly the best accounts. */
  lemma EligibleIsBest(q: Call)
    ensures forall c :: c in Eligible(q) <==> IsBest(q, c)
  {
    hide Rung, Level, Free, FirstRung;
    FirstRungIs(q, 0);
    var r := FirstRung(q, 0);
    forall d | Free(q, d) ensures Level(q, d) >= r {
      LevelIs(q, d);
      NotBelow(q, r, d);
    }
    if r < RUNGS {
      var w := Rung(q, r)[0];
      RungIsLevel(q, r, w);
      LevelIs(q, w);
      assert Free(q, w) && Level(q, w) == r;
    }
    forall c ensures c in Eligible(q) <==> IsBest(q, c) {
      LevelIs(q, c);
      if r < RUNGS { RungIsLevel(q, r, c); }
    }
  }

  lemma LevelIs(q: Call, c: Cred)
    ensures Level(q, c) <= 5 && (Level(q, c) == 4 ==> !QuotaOut(q.pool, c))
      && (Level(q, c) == 5 ==> QuotaOut(q.pool, c))
  {
    hide Enabled, Cooling, QuotaOut, Blocked, DurablyBlocked;
  }

  /** An account on no rung before `r` has at least `r` against it. */
  lemma NotBelow(q: Call, r: nat, d: Cred)
    requires r <= RUNGS && Free(q, d)
    requires forall k: nat :: k < r ==> d !in Rung(q, k)
    ensures Level(q, d) >= r
  {
    hide Level, Free, Rung;
    LevelIs(q, d);
    if r == 5 { RungIsLevel(q, 3, d); }
    if r > 0 { RungIsLevel(q, r - 1, d); }
  }

  /**
   In every mode: the pick is one of the best accounts, so no demand is dropped that a usable account
   could meet; and there is an error exactly when there is none, so that every usable account is
   disabled and out of quota.
   */
  lemma PicksBest(q: Call, rrIndex: nat, roll: nat)
    ensures match Acquired(q, rrIndex, roll).result
      case Picked(c) => IsBest(q, c)
      case AuthError => forall c :: Free(q, c) ==> !Enabled(q.pool, c) && QuotaOut(q.pool, c)
  {
    hide Acquired, Rung, FirstRung, IsBest, Free;
    PickedFromFirstRung(q, rrIndex, roll);
    EligibleIsBest(q);
    if Acquired(q, rrIndex, roll).result.AuthError? { NoneIsBest(q); }
  }

  lemma NoneIsBest(q: Call)
    requires forall c :: !IsBest(q, c)
    ensures forall c :: Free(q, c) ==> !Enabled(q.pool, c) && QuotaOut(q.pool, c)
  {
    hide Enabled, Cooling, QuotaOut, Blocked, DurablyBlocked, Level, Free;
    forall c | Free(q, c) ensures Level(q, c) == 5 { Above(q, c, 5); LevelIs(q, c); }
    forall c | Free(q, c) ensures !Enabled(q.pool, c) && QuotaOut(q.pool, c) { LevelFive(q, c); }
  }

  lemma LevelFive(q: Call, c: Cred)
    requires Level(q, c) == 5
    ensures !Enabled(q.pool, c) && QuotaOut(q.pool, c)
  {
    hide Enabled, Cooling, QuotaOut, Blocked, DurablyBlocked;
  }

  /** If no account is best, each has at least `n` against it. */
  lemma {:induction false} Above(q: Call, c: Cred, n: nat)
    requires n <= 5 && Free(q, c) && forall d :: !IsBest(q, d)
    ensures Level(q, c) >= n
    decreases n
  {
    hide Level, Free;
    if n > 0 {
      forall d | Free(q, d) ensures Level(q, d) >= n - 1 { Above(q, d, n - 1); }
      assert !IsBest(q, c);
    }
  }

  // ---------- the choice of the mode ----------

  /** Least used: healthier first, then fewer requests, then not used for longer. */
  ghost predicate NoWorse(p: Pool, c: Cred, d: Cred) {
    && Penalty(p, c) <= Penalty(p, d)
    && (Penalty(p, c) == Penalty(p, d) ==>
          && StatsOf(p, c).requests <= StatsOf(p, d).requests
          && (StatsOf(p, c).requests == StatsOf(p, d).requests ==> StatsOf(p, c).lastUsed <= StatsOf(p, d).lastUsed))
  }

  lemma Le3(a: Key, b: Key)
    requires |a| == 3 && |b| == 3
    ensures Le(a, b) <==> a[0] < b[0] || (a[0] == b[0] && (a[1] < b[1] || (a[1] == b[1] && a[2] <= b[2])))
  {
    assert a[1..][0] == a[1] && a[1..][1..][0] == a[2] && a[1..][1..][1..] == [];
    assert b[1..][0] == b[1] && b[1..][1..][0] == b[2];
    assert Le(a[1..][1..], b[1..][1..]) <==> a[2] <= b[2];
  }

  /** The pool is in soft recovery exactly when no account is enabled, ready, unblocked and unexpired. */
  lemma RecoveringExactly(q: Call)
    ensures Recovering(q) <==>
      forall c :: c in q.live && c.id !in q.exclude && !c.expired ==>
        !(Enabled(q.pool, c) && !Cooling(q.pool, c) && !Blocked(q.pool, c, q.model))
  {
    hide Enabled, Cooling, Blocked;
  }

  /** Without soft recovery, least used picks the healthiest, least used of the best accounts. */
  lemma LeastUsedIsLeast(q: Call, rrIndex: nat, roll: nat)
    requires q.mode == LeastUsed && !Recovering(q) && Acquired(q, rrIndex, roll).result.Picked?
    ensures forall d :: IsBest(q, d) ==> NoWorse(q.pool, Acquired(q, rrIndex, roll).result.c, d)
  {
    hide Le, Recovering, Rung, FirstRung, IsBest, Penalty, StatsOf;
    EligibleIsBest(q);
    var eligible := Eligible(q);
    if eligible != [] { LeastIs(LeastUsedKey(q), eligible); }
    var c := Acquired(q, rrIndex, roll).result.c;
    forall d | IsBest(q, d) ensures NoWorse(q.pool, c, d) {
      assert Le(LeastUsedKey(q)(c), LeastUsedKey(q)(d));
      Le3(LeastUsedKey(q)(c), LeastUsedKey(q)(d));
    }
  }

  /** In soft recovery: unblocked before blocked, then ready sooner, then healthier. */
  ghost predicate NoLater(q: Call, c: Cred, d: Cred) {
    && (Blocked(q.pool, c, q.model) ==> Blocked(q.pool, d, q.model))
    && (Blocked(q.pool, c, q.model) == Blocked(q.pool, d, q.model) ==>
          && UntilOf(q.pool, c) <= UntilOf(q.pool, d)
          && (UntilOf(q.pool, c) == UntilOf(q.pool, d) ==> Penalty(q.pool, c) <= Penalty(q.pool, d)))
  }

  lemma RecoveryOrder(q: Call, c: Cred, d: Cred)
    ensures Le(RecoveryKey(q)(c), RecoveryKey(q)(d)) <==> NoLater(q, c, d)
  {
    hide Le, Penalty, UntilOf, Blocked;
    Le3(RecoveryKey(q)(c), RecoveryKey(q)(d));
  }

  /** How many accounts a choice in soft recovery looks at: a quarter, between 3 and 12. */
  function Looked(n: nat): nat { if n < 12 then 3 else if n > 48 then 12 else n / 4 }

  /** The best accounts that would be ready before `c`. */
  function Sooner(q: Call, c: Cred): seq<Cred> {
    Pick(Eligible(q), (d: Cred) => !Le(RecoveryKey(q)(c), RecoveryKey(q)(d)))
  }

  /**
   In soft recovery, round robin and small pools take the account that is ready soonest; otherwise
   the pick is one of the few that are, of which there are at most twelve.
   */
  lemma RecoveryPicksSoonest(q: Call, rrIndex: nat, roll: nat)
    requires Recovering(q) && Acquired(q, rrIndex, roll).result.Picked?
    ensures var c := Acquired(q, rrIndex, roll).result.c;
      && (forall d :: d in Sooner(q, c) <==> IsBest(q, d) && !NoLater(q, c, d))
      && (q.mode == RoundRobin || |Eligible(q)| <= 3 ==> Sooner(q, c) == [])
      && |Sooner(q, c)| < Looked(|Eligible(q)|)
  {
    hide Le, Recovering, Rung, FirstRung, IsBest, NoLater, Least, RecoveryKey, SortBy, LeastUsedKey;
    EligibleIsBest(q);
    FirstRungIs(q, 0);
    var eligible := Eligible(q);
    var ranked := SortBy(RecoveryKey(q), eligible);
    SortIs(RecoveryKey(q), eligible);
    var c := Acquired(q, rrIndex, roll).result.c;
    forall d ensures d in Sooner(q, c) <==> IsBest(q, d) && !NoLater(q, c, d) { RecoveryOrder(q, c, d); }
    var i := RecoveryPlace(q, eligible, roll);
    FewBefore(q, ranked, eligible, i);
  }

  /** The place of the pick among the best, soonest first. */
  lemma RecoveryPlace(q: Call, eligible: seq<Cred>, roll: nat) returns (i: nat)
    requires eligible != []
    ensures var ranked := SortBy(RecoveryKey(q), eligible);
      i < |ranked| && ranked[i] == RecoveryChoice(q, eligible, roll)
    ensures i < Looked(|eligible|) && (q.mode == RoundRobin || |eligible| <= 3 ==> i == 0)
  {
    hide Le, Least, RecoveryKey, SortBy, LeastUsedKey;
    SortIs(RecoveryKey(q), eligible);
    var ranked := SortBy(RecoveryKey(q), eligible);
    i := 0;
    if q.mode != RoundRobin && |ranked| > 3 {
      var window := ranked[..WindowSize(|ranked|)];
      LeastIs(LeastUsedKey(q), window);
      var c := RecoveryChoice(q, eligible, roll);
      assert c in window;
      i :| 0 <= i < |window| && window[i] == c;
    }
  }

  lemma {:induction false} PickFew(cs: seq<Cred>, keep: Cred -> bool, i: nat)
    requires i <= |cs| && forall j :: i <= j < |cs| ==> !keep(cs[j])
    ensures |Pick(cs, keep)| <= i
  {
    if |cs| > i { PickFew(cs[..|cs| - 1], keep, i); }
  }

  lemma {:induction false} PickBag(cs: seq<Cred>, keep: Cred -> bool, x: Cred)
    ensures multiset(Pick(cs, keep))[x] == if keep(x) then multiset(cs)[x] else 0
  {
    if cs != [] {
      assert cs == cs[..|cs| - 1] + [cs[|cs| - 1]];
      PickBag(cs[..|cs| - 1], keep, x);
    }
  }

  /** At most `i` accounts come before the one at place `i`. */
  lemma FewBefore(q: Call, ranked: seq<Cred>, eligible: seq<Cred>, i: nat)
    requires i < |ranked| && multiset(ranked) == multiset(eligible) && Ascends(RecoveryKey(q), ranked)
    ensures |Pick(eligible, (d: Cred) => !Le(RecoveryKey(q)(ranked[i]), RecoveryKey(q)(d)))| <= i
  {
    hide Le, RecoveryKey;
    var keep := (d: Cred) => !Le(RecoveryKey(q)(ranked[i]), RecoveryKey(q)(d));
    LeTotal(RecoveryKey(q)(ranked[i]), RecoveryKey(q)(ranked[i]));
    PickFew(ranked, keep, i);
    PickSameSize(ranked, eligible, keep);
  }

  // ---------- what the dice may pick ----------

  /** Among accounts that are ready, the dice may pick any of the best. */
  lemma DiceMayPickAnyBest(q: Call, rrIndex: nat, c: Cred)
    requires q.mode == Random && !Recovering(q) && IsBest(q, c)
    ensures exists roll: nat :: Acquired(q, rrIndex, roll).result == Picked(c)
  {
    hide Recovering, Rung, FirstRung, IsBest;
    EligibleIsBest(q);
    FirstRungIs(q, 0);
    var cs := Eligible(q);
    var i :| 0 <= i < |cs| && cs[i] == c;
    SmallMod(i, |cs|);
    assert Acquired(q, rrIndex, i).result == Picked(c);
  }

  /** The best accounts that would be ready no later than `c`, itself among them. */
  function Earlier(q: Call, c: Cred): seq<Cred> {
    Pick(Eligible(q), (d: Cred) => Le(RecoveryKey(q)(d), RecoveryKey(q)(c)))
  }

  /** `c` is surely among the accounts that a choice in soft recovery looks at. */
  ghost predicate LookedAt(q: Call, c: Cred) {
    IsBest(q, c) && |Earlier(q, c)| <= Looked(|Eligible(q)|)
  }

  lemma EarlierIs(q: Call, c: Cred)
    ensures forall d :: d in Earlier(q, c) <==> IsBest(q, d) && NoLater(q, d, c)
  {
    hide Le, Eligible, IsBest, RecoveryKey, NoLater;
    EligibleIsBest(q);
    forall d ensures d in Earlier(q, c) <==> IsBest(q, d) && NoLater(q, d, c) { RecoveryOrder(q, d, c); }
  }

  lemma {:induction false} PickMany(cs: seq<Cred>, keep: Cred -> bool, i: nat)
    requires i <= |cs| && forall j :: 0 <= j < i ==> keep(cs[j])
    ensures |Pick(cs, keep)| >= i
  {
    if i > 0 { PickMany(cs[..|cs| - 1], keep, if i == |cs| then i - 1 else i); }
  }

  /** The place of an account that is looked at. */
  lemma LookedAtPlace(q: Call, c: Cred) returns (i: nat)
    requires LookedAt(q, c)
    ensures var ranked := SortBy(RecoveryKey(q), Eligible(q));
      i < |ranked| == |Eligible(q)| && ranked[i] == c && i < Looked(|Eligible(q)|)
  {
    hide Le, Eligible, IsBest, RecoveryKey, SortBy, Looked;
    EligibleIsBest(q);
    SortIs(RecoveryKey(q), Eligible(q));
    var eligible, ranked := Eligible(q), SortBy(RecoveryKey(q), Eligible(q));
    SameSize(ranked, eligible);
    i :| 0 <= i < |ranked| && ranked[i] == c;
    ManyBefore(q, ranked, eligible, i);
  }

  /** No fewer than `i + 1` accounts are ready no later than the one at place `i`. */
  lemma ManyBefore(q: Call, ranked: seq<Cred>, eligible: seq<Cred>, i: nat)
    requires i < |ranked| && multiset(ranked) == multiset(eligible) && Ascends(RecoveryKey(q), ranked)
    ensures |Pick(eligible, (d: Cred) => Le(RecoveryKey(q)(d), RecoveryKey(q)(ranked[i])))| > i
  {
    hide Le, RecoveryKey;
    var keep := (d: Cred) => Le(RecoveryKey(q)(d), RecoveryKey(q)(ranked[i]));
    LeTotal(RecoveryKey(q)(ranked[i]), RecoveryKey(q)(ranked[i]));
    PickMany(ranked, keep, i + 1);
    PickSameSize(ranked, eligible, keep);
  }

  lemma PickSameSize(a: seq<Cred>, b: seq<Cred>, keep: Cred -> bool)
    requires multiset(a) == multiset(b)
    ensures |Pick(a, keep)| == |Pick(b, keep)|
  {
    forall x ensures multiset(Pick(a, keep))[x] == multiset(Pick(b, keep))[x] {
      PickBag(a, keep, x);
      PickBag(b, keep, x);
    }
    assert multiset(Pick(a, keep)) == multiset(Pick(b, keep));
    SameSize(Pick(a, keep), Pick(b, keep));
  }

  /** In soft recovery the dice may pick any account that is looked at. */
  lemma DiceMayPickAnyLookedAt(q: Call, rrIndex: nat, c: Cred)
    requires q.mode == Random && Recovering(q) && |Eligible(q)| > 3 && LookedAt(q, c)
    ensures exists roll: nat :: Acquired(q, rrIndex, roll).result == Picked(c)
  {
    hide Recovering, Rung, FirstRung, LookedAt, RecoveryKey, SortBy;
    FirstRungIs(q, 0);
    var i := LookedAtPlace(q, c);
    SmallMod(i, Looked(|Eligible(q)|));
    SortIs(RecoveryKey(q), Eligible(q));
    assert Acquired(q, rrIndex, i).result == Picked(c);
  }

  /** In soft recovery the least used of those that are looked at is picked. */
  lemma RecoveryLeastUsed(q: Call, rrIndex: nat, roll: nat, c: Cred)
    requires q.mode == LeastUsed && Recovering(q) && |Eligible(q)| > 3 && LookedAt(q, c)
    ensures Acquired(q, rrIndex, roll).result.Picked?
    ensures NoWorse(q.pool, Acquired(q, rrIndex, roll).result.c, c)
  {
    hide Le, Recovering, Rung, FirstRung, LookedAt, RecoveryKey, SortBy, LeastUsedKey, Least, NoWorse;
    FirstRungIs(q, 0);
    var i := LookedAtPlace(q, c);
    var window := SortBy(RecoveryKey(q), Eligible(q))[..Looked(|Eligible(q)|)];
    LeastIs(LeastUsedKey(q), window);
    assert window[i] == c;
    LeastOrder(q, Least(LeastUsedKey(q), window), c);
  }

  lemma LeastOrder(q: Call, c: Cred, d: Cred)
    requires Le(LeastUsedKey(q)(c), LeastUsedKey(q)(d))
    ensures NoWorse(q.pool, c, d)
  {
    hide Le, Penalty, StatsOf;
    Le3(LeastUsedKey(q)(c), LeastUsedKey(q)(d));
  }

  /** As many round-robin calls in a row as there are best accounts pick every one of them. */
  lemma RoundRobinTakesEveryBest(q: Call, rrIndex: nat, c: Cred)
    requires q.mode == RoundRobin && !Recovering(q) && IsBest(q, c)
    ensures Picked(c) in Answers(q, rrIndex, |Eligible(q)|)
  {
    hide Recovering, Rung, FirstRung, Answers, IsBest, Acquired;
    EligibleIsBest(q);
    FirstRungIs(q, 0);
    RoundRobinTakesEach(q, rrIndex);
    var cs := Eligible(q);
    var turned := Rotated(cs, rrIndex % |cs|);
    SameSize(turned, cs);
    var j :| 0 <= j < |turned| && turned[j] == c;
    assert Answers(q, rrIndex, |cs|)[j] == Picked(turned[j]);
  }

  // ---------- the scheduler ----------

  class Scheduler {
    var rrIndex: nat

    constructor ()
      ensures rrIndex == 0
    {
      rrIndex := 0;
    }

    method Filter(q: Call, cs: seq<Cred>, r: nat) returns (eligible: seq<Cred>)
      ensures eligible == Pick(cs, (c: Cred) => OnRung(q, r, c))
    {
      hide OnRung;
      var keep := (c: Cred) => OnRung(q, r, c);
      eligible := [];
      var i := 0;
      while i < |cs|
        invariant 0 <= i <= |cs|
        invariant eligible == Pick(cs[..i], keep)
      {
        assert cs[..i + 1][..i] == cs[..i];
        if OnRung(q, r, cs[i]) { eligible := eligible + [cs[i]]; }
        i := i + 1;
      }
      assert cs[..i] == cs;
    }

    /** `_pick_round_robin`. */
    method PickRoundRobin(eligible: seq<Cred>) returns (c: Cred)
      requires eligible != []
      modifies this
      ensures c == eligible[old(rrIndex) % |eligible|]
      ensures rrIndex == Turned(old(rrIndex), |eligible|, 1)
    {
      var idx := rrIndex % |eligible|;
      assert Turned(rrIndex, |eligible|, 0) == rrIndex;
      rrIndex := (idx + 1) % |eligible|;
      c := eligible[idx];
    }

    /** `acquire`, up to the refresh of the picked token. */
    method Acquire(q: Call, roll: nat) returns (result: Result)
      modifies this
      ensures Answer(result, rrIndex) == Acquired(q, old(rrIndex), roll)
      ensures match result
        case Picked(c) => IsBest(q, c)
        case AuthError => forall c :: Free(q, c) ==> !Enabled(q.pool, c) && QuotaOut(q.pool, c)
    {
      hide OnRung, Usable, RecoveryChoice, Choice, Recovering, Candidates, IsBest, Free;
      PicksBest(q, rrIndex, roll);
      var candidates := Candidates(q);
      var r := 0;
      var eligible := Filter(q, candidates, 0);
      while r < RUNGS && eligible == []
        invariant 0 <= r <= RUNGS
        invariant r < RUNGS ==> eligible == Rung(q, r)
        invariant FirstRung(q, 0) == FirstRung(q, r)
        invariant r == RUNGS ==> eligible == []
        invariant rrIndex == old(rrIndex)
      {
        r := r + 1;
        if r < RUNGS { eligible := Filter(q, candidates, r); }
      }
      assert r == FirstRung(q, 0);
      FirstRungIs(q, 0);
      if eligible == [] { return AuthError; }
      var c;
      if Recovering(q) {
        c := ChooseInRecovery(q, eligible, roll);
      } else if q.mode == RoundRobin {
        c := PickRoundRobin(eligible);
        ReadyChoice(q, eligible, old(rrIndex), roll);
      } else {
        c := Choice(q, eligible, rrIndex, roll);
      }
      result := Picked(c);
    }

    method ChooseInRecovery(q: Call, eligible: seq<Cred>, roll: nat) returns (c: Cred)
      requires eligible != []
      ensures c == RecoveryChoice(q, eligible, roll)
    {
      hide Le, RecoveryKey, LeastUsedKey, Least, SortBy;
      SortIs(RecoveryKey(q), eligible);
      var ranked := SortBy(RecoveryKey(q), eligible);
      if q.mode != RoundRobin && |ranked| > 3 {
        var window := ranked[..WindowSize(|ranked|)];
        if q.mode == Random { return Rolled(window, roll); }
        c := PickLeast(LeastUsedKey(q), window);
        return;
      }
      c := ranked[0];
    }

    /** `min`. */
    method PickLeast(key: Cred -> Key, cs: seq<Cred>) returns (c: Cred)
      requires cs != []
      ensures c == Least(key, cs)
    {
      hide Le;
      c := cs[0];
      var i := 1;
      while i < |cs|
        invariant 1 <= i <= |cs|
        invariant c == Least(key, cs[..i])
      {
        assert cs[..i + 1][..i] == cs[..i];
        if !Le(key(c), key(cs[i])) { c := cs[i]; }
        i := i + 1;
      }
      assert cs[..i] == cs;
    }
  }

  lemma ReadyChoice(q: Call, eligible: seq<Cred>, rrIndex: nat, roll: nat)
    requires eligible != [] && q.mode == RoundRobin
    ensures Choice(q, eligible, rrIndex, roll) == eligible[rrIndex % |eligible|]
    ensures Turned(rrIndex, |eligible|, 1) == (rrIndex % |eligible| + 1) % |eligible|
  {
    assert Turned(rrIndex, |eligible|, 0) == rrIndex;
  }
}
