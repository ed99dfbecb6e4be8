/**
 What each event of an account's life does to its pool record, field by field: whether it can be
 scheduled, until when it cools, and which of its models are blocked.
 */
module PoolRecordEffects {
  import opened Texts
  import opened PoolRecord
  import opened PoolRecordLaws

  /** The blocks of all other models are as they were. */
  ghost predicate OthersKept(m: Meta, r: Meta, model: Text) {
    forall k :: k != model ==> (k in r.blocked <==> k in m.blocked) && (k in m.blocked ==> r.blocked[k] == m.blocked[k])
  }

  /** A block that has been set: for good without a length, and otherwise at least for the length. */
  ghost predicate BlockSet(r: Meta, model: Text, source: Source, ttl: real, now: real) {
    && model in r.blocked && r.blocked[model].source == source
    && (if ttl > 0.0 then r.blocked[model].until.Some? && r.blocked[model].until.value >= now + ttl
        else r.blocked[model].until == None)
  }

  /** Everything but the blocks and the label. */
  ghost predicate SameButBlocks(m: Meta, r: Meta) { r == m.(blocked := r.blocked, status := r.status) }

  lemma WithBlockIs(m: Meta, model: Text, source: Source, ttl: real, now: real)
    ensures var r := WithBlock(m, model, source, ttl, now);
      && SameButBlocks(m, r) && OthersKept(m, r, model)
      && (model != [] ==> BlockSet(r, model, source, ttl, now)) && (model == [] ==> r == m)
  {
    hide Derive;
  }

  lemma KickedIs(m: Meta, sec: real, now: real)
    ensures var r := Kicked(m, sec, now);
      && r.blocked == m.blocked && r.stack == m.stack && r.quotaDisabled == m.quotaDisabled
        && r.probeStreak == m.probeStreak
      && (if sec > 0.0 then
            && r.enabled == m.enabled && r.count == NextCount(View(m, now), now)
            && r.until == Some(now + Scaled(MaxReal(sec, 60.0), r.count))
          else !r.enabled && r.count == m.count && r.until == m.until && r.consecutiveFails == m.consecutiveFails)
  {
    hide Derive, NextCount, View, Scaled;
  }

  /** Every entry of a stack adds the base length once. */
  lemma ScaledIs(base: real, n: int)
    ensures Scaled(base, 1) == base
    ensures n >= 1 ==> Scaled(base, n + 1) == Scaled(base, n) + base
  {
    if n >= 1 { assert (n + 1) as real == n as real + 1.0; }
  }

  lemma FreeUsedIs(cfg: Config, m: Meta, model: Text, statusCode: int, now: real)
    ensures var r := FreeUsed(cfg, m, model, statusCode, now);
      && r.enabled && r.quotaDisabled == m.quotaDisabled
      && r.consecutiveFails == m.consecutiveFails && r.probeStreak == m.probeStreak
      && |r.stack| > 0 && r.until == Some(now + Scaled(MaxReal(3600.0, cfg.kickSec), |r.stack|))
      && OthersKept(m, r, model) && (model != [] ==> BlockSet(r, model, Temporary, cfg.kickSec, now))
        && (model == [] ==> r.blocked == m.blocked)
  {
    hide Derive, WithBlock, Push, Scaled;
    WithBlockIs(m, model, Temporary, cfg.kickSec, now);
    var stack := Push(m.stack, Entry(FreeUsage, model, statusCode, now));
    PushSome(m.stack, Entry(FreeUsage, model, statusCode, now));
  }

  /** The block that an error calls for. */
  datatype Wanted = Nothing | Wanted(source: Source, ttl: real)

  function WantedBlock(cfg: Config, model: Text, e: Error): Wanted {
    if model == [] then Nothing
    else if e.free || e.health.TemporaryUsage? then Wanted(Temporary, cfg.kickSec)
    else if e.health.ModelUnavailable? then Wanted(Lasting, e.health.ttl)
    else Nothing
  }

  ghost predicate Blocks(m: Meta, r: Meta, model: Text, wanted: Wanted, now: real) {
    && OthersKept(m, r, model)
    && match wanted
       case Nothing => r.blocked == m.blocked
       case Wanted(source, ttl) => BlockSet(r, model, source, ttl, now)
  }

  /** What an error of the model or of the account does by itself. */
  lemma HealthIs(cfg: Config, m: Meta, model: Text, e: Error, now: real)
    requires model != []
    ensures var r := HealthHandled(cfg, m, model, e, now);
      && r.probeStreak == m.probeStreak
      && r.quotaDisabled == (m.quotaDisabled || e.health.AccountBlocked?)
      && (!e.free ==> r.enabled == match e.health
            case AccountBlocked(_) => false
            case ModelUnavailable(_, sec) => m.enabled && sec > 0.0
            case _ => m.enabled)
      && Blocks(m, r, model, if e.health.TemporaryUsage? then Wanted(Temporary, cfg.kickSec)
                             else if e.health.ModelUnavailable? then Wanted(Lasting, e.health.ttl) else Nothing, now)
  {
    hide Derive, WithBlock, Kicked, FreeUsed;
    match e.health
    case Fine =>
    case TemporaryUsage =>
      FreeUsedIs(cfg, m, model, e.statusCode, now);
      WithBlockIs(m, model, Temporary, cfg.kickSec, now);
    case AccountBlocked(sec) => KickedIs(m, sec, now);
    case ModelUnavailable(ttl, sec) =>
      WithBlockIs(m, model, Lasting, ttl, now);
      KickedIs(WithBlock(m, model, Lasting, ttl, now), sec, now);
  }

  /** Whether an error takes the account out of the rotation. */
  predicate Disables(model: Text, e: Error) {
    || e.quota
    || (model != [] && (e.health.AccountBlocked? || (e.health.ModelUnavailable? && e.health.sec <= 0.0)))
  }

  /** The scheduling fields of a failed account. */
  ghost predicate Cools(r: Meta, base: real, now: real) {
    |r.stack| > 0 && r.until == Some(now + Scaled(base, |r.stack|))
  }

  lemma FailedFreeIs(cfg: Config, m: Meta, model: Text, e: Error, fails: int, now: real)
    ensures var r := FailedFree(cfg, m, model, e, fails, now);
      && r.enabled && r.quotaDisabled == m.quotaDisabled && r.consecutiveFails == fails
        && r.probeStreak == m.probeStreak
      && Cools(r, MaxReal(3600.0, cfg.kickSec), now)
      && Blocks(m, r, model, if model == [] then Nothing else Wanted(Temporary, cfg.kickSec), now)
  {
    hide Derive, FreeUsed, Scaled;
    FreeUsedIs(cfg, m, model, e.statusCode, now);
  }

  lemma FailedOtherIs(m: Meta, stack: seq<Entry>, model: Text, e: Error, fails: int, now: real)
    ensures var r := FailedOther(m, stack, model, e, fails, now);
      && r.enabled == m.enabled && r.quotaDisabled == m.quotaDisabled && r.consecutiveFails == fails
        && r.probeStreak == m.probeStreak
      && Cools(r, MaxReal(e.cooldown, 60.0), now) && r.blocked == m.blocked
  {
    hide Derive, Push, Scaled;
    PushSome(stack, Entry(RequestFail, model, e.statusCode, now));
  }

  /**
   A failure, unless it is of the shared egress: one more in a row; disabled for good on a quota error,
   which only free usage overrides; cooling for the base length times the height of the stack; and the
   model blocked as the error calls for, with no other model touched.
   */
  lemma FailureExactly(cfg: Config, m: Meta, model: Text, e: Error, now: real)
    ensures var r := Failed(cfg, m, model, e, now);
      if e.shared then r == m
      else
        && r.consecutiveFails == m.consecutiveFails + 1 && r.probeStreak == m.probeStreak
        && r.enabled == (e.free || (m.enabled && !Disables(model, e)))
        && r.quotaDisabled == (m.quotaDisabled || e.quota || (model != [] && e.health.AccountBlocked?))
        && Cools(r, if e.free then MaxReal(3600.0, cfg.kickSec) else MaxReal(e.cooldown, 60.0), now)
        && Blocks(m, r, model, WantedBlock(cfg, model, e), now)
  {
    hide Derive, HealthHandled, FailedFree, FailedOther, OthersKept, BlockSet, Cools;
    if !e.shared {
      var m1 := if e.quota then DisabledForQuota(m, now) else m;
      QuotaIs(m, now);
      SameBlocks(m1, m1, model);
      if model != [] { HealthIs(cfg, m1, model, e, now); }
      var m2 := if model != [] then HealthHandled(cfg, m1, model, e, now) else m1;
      SameBlocks(m, m1, model);
      OthersThrough(m, m1, m2, model);
      if e.free {
        FailedFreeIs(cfg, m2, model, e, m.consecutiveFails + 1, now);
        OthersThrough(m, m2, FailedFree(cfg, m2, model, e, m.consecutiveFails + 1, now), model);
      } else {
        FailedOtherIs(m2, m.stack, model, e, m.consecutiveFails + 1, now);
        SameBlocks(m2, FailedOther(m2, m.stack, model, e, m.consecutiveFails + 1, now), model);
        OthersThrough(m, m2, FailedOther(m2, m.stack, model, e, m.consecutiveFails + 1, now), model);
      }
    }
  }

  lemma QuotaIs(m: Meta, now: real)
    ensures var r := DisabledForQuota(m, now); r == m.(enabled := false, quotaDisabled := true, status := r.status)
  {
  }

  lemma OthersThrough(a: Meta, b: Meta, c: Meta, model: Text)
    requires OthersKept(a, b, model) && OthersKept(b, c, model)
    ensures OthersKept(a, c, model)
  {
  }

  /** Only the blocks decide about blocks. */
  lemma SameBlocks(a: Meta, b: Meta, model: Text)
    requires a.blocked == b.blocked
    ensures OthersKept(a, b, model)
    ensures forall source, ttl, now :: BlockSet(a, model, source, ttl, now) <==> BlockSet(b, model, source, ttl, now)
  {
  }

  /** A failed probe: free usage cools and blocks like a failure; a streak cools; otherwise only the streak grows. */
  lemma ProbeFailureExactly(cfg: Config, m: Meta, model: Text, e: Error, autoKick: bool, now: real)
    ensures var r := ProbeFailed(cfg, m, model, e, autoKick, now);
      && r.probeStreak == m.probeStreak + 1 && r.consecutiveFails == m.consecutiveFails
        && r.quotaDisabled == m.quotaDisabled
      && r.enabled == (m.enabled || e.free)
      && Blocks(m, r, model, if e.free && model != [] then Wanted(Temporary, cfg.kickSec) else Nothing, now)
      && (if e.free then r.until == Some(now + Scaled(MaxReal(3600.0, cfg.kickSec), |r.stack|))
          else if autoKick && m.probeStreak + 1 >= cfg.kickAt
          then r.until == Some(now + Scaled(cfg.probeKickSec, |r.stack|))
          else r.until == m.until && r.stack == m.stack && r.count == m.count)
  {
    hide Derive, FreeUsed, Push, Scaled, OthersKept, BlockSet;
    FreeUsedIs(cfg, m, model, e.statusCode, now);
    PushSome(m.stack, Entry(ProbeFail, model, e.statusCode, now));
    var r := ProbeFailed(cfg, m, model, e, autoKick, now);
    if e.free {
      SameBlocks(FreeUsed(cfg, m, model, e.statusCode, now), r, model);
      OthersThrough(m, FreeUsed(cfg, m, model, e.statusCode, now), r, model);
    } else {
      SameBlocks(m, r, model);
    }
  }

  /** Whether a block answers `is_model_blocked` at some time. */
  ghost predicate BlockedAt(m: Meta, model: Text, t: real, durableOnly: bool) {
    ModelIsBlocked(View(m, t), model, t, durableOnly)
  }

  lemma BlockedAtIs(m: Meta, model: Text, t: real, durableOnly: bool)
    ensures BlockedAt(m, model, t, durableOnly) <==>
      && model != [] && model in m.blocked
      && if durableOnly then m.blocked[model].until.None? && m.blocked[model].source != Temporary
         else m.blocked[model].until.None? || t < m.blocked[model].until.value
  {
    hide InCooldown;
  }

  /**
   A successful probe: any cooldown ends, a disabled account comes back if its reason allows it, and
   the model is free from then on unless it is blocked for good; no other model's answer changes.
   */
  lemma ProbeSuccessExactly(m: Meta, model: Text, mayEnable: bool, now: real)
    ensures var r := ProbeSucceeded(m, model, mayEnable, now);
      && r.enabled == (m.enabled || (!m.quotaDisabled && mayEnable)) && r.quotaDisabled == m.quotaDisabled
      && r.stack == [] && r.count == 0 && r.until == None && r.consecutiveFails == 0 && r.probeStreak == 0
      && forall k: Text, t: real, d: bool :: t >= now ==>
           (BlockedAt(r, k, t, d) <==>
              BlockedAt(m, k, t, d) && (k == model ==> m.blocked[k].until.None? && m.blocked[k].source == Lasting))
  {
    hide Derive, BlockedAt;
    var r := ProbeSucceeded(m, model, mayEnable, now);
    forall k: Text, t: real, d: bool | t >= now
      ensures BlockedAt(m, k, t, d) ==> k in m.blocked
      ensures BlockedAt(r, k, t, d) <==>
        BlockedAt(m, k, t, d) && (k == model ==> m.blocked[k].until.None? && m.blocked[k].source == Lasting)
    {
      BlockedAtIs(m, k, t, d);
      BlockedAtIs(r, k, t, d);
    }
  }

  /**
   A live success: the failures in a row are forgotten, and if the account is not cooling so is the
   probe streak, and the model is free again unless it is blocked for good.
   */
  lemma SuccessExactly(m: Meta, model: Text, now: real)
    ensures var r := Succeeded(m, model, now);
      r == m.(
        status := r.status, consecutiveFails := 0,
        probeStreak := if InCooldown(m, now) then m.probeStreak else 0,
        blocked := if !InCooldown(m, now) && model in m.blocked
                      && (m.blocked[model].until.Some?
                        || m.blocked[model].source == Temporary) then m.blocked - {model} else m.blocked)
  {
    hide Derive, InCooldown, View, TouchedSuccess;
    ViewInCooldown(m, now);
    TouchedIs(m, now);
  }

  lemma TouchedIs(m: Meta, now: real)
    ensures var r := TouchedSuccess(m, now); r == m.(status := r.status, consecutiveFails := 0)
  {
    hide Derive;
  }

  /** A kick: for a while, longer with every kick before, or for good. */
  lemma KickExactly(m: Meta, sec: real, now: real)
    requires m.count >= 0
    ensures var r := Kicked(m, sec, now);
      && r.blocked == m.blocked && r.quotaDisabled == m.quotaDisabled
      && (if sec > 0.0 then
            && r.enabled == m.enabled && r.count == (if m.count == 0 && InCooldown(m, now) then 2 else m.count + 1)
            && r.until == Some(now + Scaled(MaxReal(sec, 60.0), r.count))
          else !r.enabled && r.until == m.until && r.count == m.count)
  {
    hide Derive, InCooldown, Scaled;
    KickedIs(m, sec, now);
    NextCountIs(m, now);
  }

  lemma NextCountIs(m: Meta, now: real)
    requires m.count >= 0
    ensures NextCount(View(m, now), now) == if m.count == 0 && InCooldown(m, now) then 2 else m.count + 1
  {
    hide InCooldown;
    ViewInCooldown(m, now);
    ViewCount(m, now);
  }

  lemma ViewCount(m: Meta, now: real)
    ensures View(m, now).count == m.count
  {
    hide InCooldown;
  }

  /**
   Switching an account on lifts its blocks and the clock of its cooldown, not its stack; switching
   off does nothing else.
   */
  lemma EnableExactly(m: Meta, on: bool, now: real)
    ensures var r := SetEnabled(m, on, now);
      && r.enabled == on && r.stack == m.stack && r.count == m.count && r.probeStreak == m.probeStreak
      && (if on then !r.quotaDisabled && r.blocked == map[] && r.until == None && r.consecutiveFails == 0
          else
            && r.quotaDisabled == m.quotaDisabled && r.blocked == m.blocked && r.until == m.until
            && r.consecutiveFails == m.consecutiveFails)
  {
    hide Derive;
  }

  // ---------- the label ----------

  /** The label says the worst that is true of the record. */
  ghost predicate LabelTells(m: Meta, now: real) {
    var cooling := m.count > 0 || (m.until.Some? && m.until.value > now);
    && m.status != Unset
    && (m.status == QuotaDisabled <==> m.quotaDisabled)
    && (m.status == Disabled <==> !m.quotaDisabled && !m.enabled)
    && (m.status == Cooldown <==> !m.quotaDisabled && m.enabled && cooling)
    && (m.status == ModelBlocked <==> !m.quotaDisabled && m.enabled && !cooling && m.blocked != map[])
  }

  /** A success or a failure for want of free usage keeps the label `Cooldown` while the clock of a cooldown runs. */
  ghost predicate KeepsLabel(e: Event, r: Meta) {
    && (e.Success? || (e.Failure? && e.error.free))
    && r.status == Cooldown && r.until.Some? && r.until.value > e.now
  }

  lemma LabelIs(m: Meta, now: real)
    ensures LabelTells(m, now) <==> m.status == Derive(m, now)
  {
  }

  /** Every event that changes the record leaves a label that tells it, or keeps that of a cooldown. */
  lemma LabelIsTrue(cfg: Config, m: Meta, e: Event)
    ensures var r := Stepped(cfg, m, e); r == m || LabelTells(r, e.now) || KeepsLabel(e, r)
  {
    hide LabelTells, Derive, Failed, View, NextCount, LiveBlocks, Scaled, FreeUsed;
    LabelIs(Stepped(cfg, m, e), e.now);
    match e
    case Failure(model, error, now) => FailureLabel(cfg, m, model, error, now);
    case ProbeFailure(model, error, autoKick, now) => ProbeFailureLabel(cfg, m, model, error, autoKick, now);
    case Success(model, now) => SuccessLabel(m, model, now);
    case Kick(sec, now) => KickLabel(m, sec, now);
    case _ => OtherLabel(cfg, m, e);
  }

  lemma SuccessLabel(m: Meta, model: Text, now: real)
    ensures var r := Succeeded(m, model, now);
      r.status == Derive(r, now) || (r.status == Cooldown && r.until.Some? && r.until.value > now)
  {
    hide View, LiveBlocks;
  }

  lemma FailureLabel(cfg: Config, m: Meta, model: Text, e: Error, now: real)
    ensures var r := Failed(cfg, m, model, e, now);
      r == m || r.status == Derive(r, now) || (e.free && r.status == Cooldown && r.until.Some? && r.until.value > now)
  {
    hide HealthHandled, DisabledForQuota, FreeUsed, Scaled;
  }

  lemma ProbeFailureLabel(cfg: Config, m: Meta, model: Text, e: Error, autoKick: bool, now: real)
    ensures var r := ProbeFailed(cfg, m, model, e, autoKick, now); r.status == Derive(r, now)
  {
    hide FreeUsed, Scaled;
  }

  lemma KickLabel(m: Meta, sec: real, now: real)
    ensures var r := Kicked(m, sec, now); r.status == Derive(r, now)
  {
    hide View, NextCount, Scaled;
  }

  lemma OtherLabel(cfg: Config, m: Meta, e: Event)
    requires !e.Failure? && !e.ProbeFailure? && !e.Success? && !e.Kick?
    ensures var r := Stepped(cfg, m, e); r == m || r.status == Derive(r, e.now)
  {
    hide LiveBlocks;
  }

  /** What a reader of the record sees is never unset, and normal only if the account is not cooling. */
  lemma ViewLabel(m: Meta, now: real)
    ensures var v := View(m, now);
      && v.status != Unset && (v.status == Normal ==> !InCooldown(v, now))
      && (m.status !in {Unset, Normal} ==> v.status == m.status)
      && (m.status == Normal ==> v.status in {Normal, Cooldown})
  {
    hide LiveBlocks;
  }
}
