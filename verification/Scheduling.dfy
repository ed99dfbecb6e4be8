/**
 What both account pickers of account_pool.py look at: credentials, pool records, and how an
 account ranks.
 */
module Scheduling {
  import opened Texts
  import Record = PoolRecord

  /** A live credential.  `expired` is what the clock of this pick says. */
  datatype Cred = Cred(id: Text, user: Text, expired: bool, refreshable: bool)

  /** Counters of an account. */
  datatype Stats = Stats(requests: nat, fails: nat, oks: nat, lastUsed: real)

  datatype Mode = RoundRobin | Random | LeastUsed

  /** The pool state as one pick sees it. */
  datatype Pool = Pool(records: map<Text, Record.Meta>, stats: map<Text, Stats>, now: real)

  /** `_pool_meta`. */
  function MetaOf(p: Pool, c: Cred): Record.Meta {
    Record.View(if c.id in p.records then p.records[c.id] else Record.NEW, p.now)
  }

  function StatsOf(p: Pool, c: Cred): Stats {
    if c.id in p.stats then p.stats[c.id] else Stats(0, 0, 0, 0.0)
  }

  predicate Enabled(p: Pool, c: Cred) { MetaOf(p, c).enabled }

  predicate Cooling(p: Pool, c: Cred) { Record.InCooldown(MetaOf(p, c), p.now) }

  /** An empty `model` stands for no model. */
  predicate Blocked(p: Pool, c: Cred, model: Text) { Record.ModelIsBlocked(MetaOf(p, c), model, p.now, false) }

  predicate DurablyBlocked(p: Pool, c: Cred, model: Text) { Record.ModelIsBlocked(MetaOf(p, c), model, p.now, true) }

  predicate QuotaOut(p: Pool, c: Cred) { MetaOf(p, c).quotaDisabled }

  function UntilOf(p: Pool, c: Cred): real {
    var m := MetaOf(p, c);
    if m.until.Some? then m.until.value else 0.0
  }

  /** `_health_penalty`. */
  function Penalty(p: Pool, c: Cred): real {
    var m, s := MetaOf(p, c), StatsOf(p, c);
    var total := if s.fails + s.oks < 1 then 1.0 else (s.fails + s.oks) as real;
    m.consecutiveFails as real * 3.0 + (s.fails as real / total) * 5.0
    + (if Cooling(p, c) then Record.MaxReal(0.0, UntilOf(p, c) - p.now) / 30.0 else 0.0)
  }

  /** How long an account in cooldown still waits. */
  function Wait(p: Pool, c: Cred): real {
    if Cooling(p, c) then Record.MaxReal(0.0, UntilOf(p, c) - p.now) else 0.0
  }

  /** The share of an account's requests that failed. */
  function FailShare(p: Pool, c: Cred): real {
    var s := StatsOf(p, c);
    if s.fails + s.oks == 0 then 0.0 else s.fails as real / (s.fails + s.oks) as real
  }

  /**
   An account with more failures in a row, a greater share of failures or a longer wait is less
   healthy, and two more failures in a row outweigh any share.
   */
  lemma PenaltyGrows(p: Pool, c: Cred, d: Cred)
    requires MetaOf(p, c).consecutiveFails <= MetaOf(p, d).consecutiveFails && Wait(p, c) <= Wait(p, d)
    ensures FailShare(p, c) <= FailShare(p, d) ==> Penalty(p, c) <= Penalty(p, d)
    ensures FailShare(p, c) < FailShare(p, d) ==> Penalty(p, c) < Penalty(p, d)
    ensures FailShare(p, c) <= FailShare(p, d) && Wait(p, c) < Wait(p, d) ==> Penalty(p, c) < Penalty(p, d)
    ensures MetaOf(p, c).consecutiveFails + 2 <= MetaOf(p, d).consecutiveFails ==> Penalty(p, c) < Penalty(p, d)
  {
    hide MetaOf, Cooling, UntilOf, StatsOf;
    PenaltyIs(p, c);
    PenaltyIs(p, d);
  }

  lemma PenaltyIs(p: Pool, c: Cred)
    ensures Penalty(p, c) == MetaOf(p, c).consecutiveFails as real * 3.0 + FailShare(p, c) * 5.0 + Wait(p, c) / 30.0
    ensures 0.0 <= FailShare(p, c) <= 1.0
  {
    hide MetaOf, Cooling, UntilOf, StatsOf;
    var s := StatsOf(p, c);
    if s.fails + s.oks > 0 { ShareIsSmall(s.fails as real, (s.fails + s.oks) as real); }
  }

  lemma ShareIsSmall(a: real, b: real)
    requires 0.0 <= a <= b && b > 0.0
    ensures 0.0 <= a / b <= 1.0
  {
    assert a / b * b == a;
  }

  /** Expired tokens count while they can be refreshed. */
  predicate Usable(autoRefresh: bool, c: Cred) { !c.expired || (autoRefresh && c.refreshable) }

  function Pick(cs: seq<Cred>, keep: Cred -> bool): (r: seq<Cred>)
    ensures forall c :: c in r <==> c in cs && keep(c)
    ensures |r| <= |cs|
  {
    if cs == [] then []
    else Pick(cs[..|cs| - 1], keep) + (if keep(cs[|cs| - 1]) then [cs[|cs| - 1]] else [])
  }
}
