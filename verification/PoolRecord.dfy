/**
 One account's pool record (account_pool.py over settings_store.py): its durable cooldown, its
 model blocks, and what every event of its life does to it.

 `None` in a patch removes a key, and `pool_status` is derived again after every patch, whatever
 the patch said it should be.  Each event reads the clock once.
 */
module PoolRecord {
  import opened Texts

  datatype Status = Unset | Normal | Cooldown | Disabled | QuotaDisabled | ModelBlocked

  datatype Kind = FreeUsage | RequestFail | ProbeFail

  /** One element of `status_stack`. */
  datatype Entry = Entry(kind: Kind, model: Text, statusCode: int, at: real)

  /** Sources that count as temporary, sources that a probe may clear as well, and the rest. */
  datatype Source = Temporary | FromProbe | Lasting

  datatype Block = Block(until: Option<real>, source: Source)

  datatype Meta = Meta(
    enabled: bool, quotaDisabled: bool, stack: seq<Entry>, count: int, until: Option<real>, status: Status,
    blocked: map<Text, Block>, consecutiveFails: int, probeStreak: int)

  const NEW: Meta := Meta(true, false, [], 0, None, Unset, map[], 0, 0)

  function MaxReal(a: real, b: real): real { if a < b then b else a }

  function MaxInt(a: int, b: int): int { if a < b then b else a }

  // ---------- settings_store ----------

  /** `_derive_pool_status`. */
  function Derive(m: Meta, now: real): Status {
    if m.quotaDisabled then QuotaDisabled
    else if !m.enabled then Disabled
    else if m.count > 0 then Cooldown
    else if m.until.Some? && m.until.value > now then Cooldown
    else if m.blocked != map[] then ModelBlocked
    else Normal
  }

  /** `patch_account_pool_meta`, after the patched fields have been set. */
  function Patched(m: Meta, now: real): Meta { m.(status := Derive(m, now)) }

  /** `touch_account_stats` of a failure; `preserve` keeps the cooldown label. */
  function TouchedFail(m: Meta, until: real, fails: int, preserve: bool, now: real): Meta {
    var cooling := m.until.Some? && m.until.value > now;
    var m1 := m.(until := Some(until), consecutiveFails := fails);
    if preserve && cooling then m1.(status := Cooldown) else Patched(m1, now)
  }

  /** `touch_account_stats` of a live success, which preserves the cooldown. */
  function TouchedSuccess(m: Meta, now: real): Meta {
    var m1 := m.(consecutiveFails := 0);
    if m.until.Some? && m.until.value > now then m1.(status := Cooldown) else Patched(m1, now)
  }

  // ---------- reading a record ----------

  /** `is_in_cooldown`. */
  predicate InCooldown(m: Meta, now: real) {
    m.stack != [] || m.count > 0 || m.status == Cooldown || (m.until.Some? && now < m.until.value)
  }

  /** The blocks that have not expired. */
  function LiveBlocks(blocked: map<Text, Block>, now: real): map<Text, Block> {
    map k | k in blocked && !(blocked[k].until.Some? && now >= blocked[k].until.value) :: blocked[k]
  }

  /** `_pool_meta`. */
  function View(m: Meta, now: real): Meta {
    var v := m.(blocked := LiveBlocks(m.blocked, now));
    if v.status == Unset then
      v.(status := if v.quotaDisabled then QuotaDisabled
                   else if !v.enabled then Disabled
                   else if InCooldown(v, now) then Cooldown
                   else if v.blocked != map[] then ModelBlocked
                   else Normal)
    else if InCooldown(v, now) && v.status == Normal then v.(status := Cooldown)
    else v
  }

  /** `is_model_blocked` on a view. */
  predicate ModelIsBlocked(m: Meta, model: Text, now: real, durableOnly: bool) {
    model != [] && model in m.blocked &&
    var b := m.blocked[model];
    if durableOnly then b.until.None? && b.source != Temporary
    else b.until.None? || now < b.until.value
  }

  // ---------- events ----------

  const KEPT: nat := 50

  /** `stack_status_entry`: append, and keep the newest 50. */
  function Push(stack: seq<Entry>, e: Entry): seq<Entry> {
    var s := stack + [e];
    if |s| > KEPT then s[|s| - KEPT..] else s
  }

  /** `block_model`.  The time left on a temporary block is added to the new length. */
  function WithBlock(m: Meta, model: Text, source: Source, ttl: real, now: real): Meta {
    if model == [] then m
    else
      var left := if model in m.blocked && m.blocked[model].until.Some?
                  then MaxReal(0.0, m.blocked[model].until.value - now) else 0.0;
      var b := Block(if ttl > 0.0 then Some(now + (left + ttl)) else None, source);
      Patched(m.(blocked := m.blocked[model := b]), now)
  }

  /** `unblock_model`, for one model. */
  function WithoutBlock(m: Meta, model: Text, now: real): Meta {
    if model !in m.blocked then m else Patched(m.(blocked := m.blocked - {model}), now)
  }

  /** `stack_cooldown_count`. */
  function NextCount(m: Meta, now: real): int {
    MaxInt(0, (if m.count <= 0 && InCooldown(m, now) then 1 else m.count) + 1)
  }

  /** A length that grows with a count. */
  function Scaled(base: real, n: int): real { base * (MaxInt(1, n) as real) }

  /** `kick_from_pool`: for a while, or for good. */
  function Kicked(m: Meta, sec: real, now: real): Meta {
    if sec > 0.0 then
      var n := NextCount(View(m, now), now);
      var until := now + Scaled(MaxReal(sec, 60.0), n);
      TouchedFail(Patched(m.(count := n, until := Some(until)), now), until, MaxInt(1, m.consecutiveFails), false, now)
    else Patched(m.(enabled := false), now)
  }

  /** `disable_for_quota`. */
  function DisabledForQuota(m: Meta, now: real): Meta {
    Patched(m.(enabled := false, quotaDisabled := true), now)
  }

  /** The cooldown that goes with a stack of `n` entries. */
  function CooledUntil(m: Meta, stack: seq<Entry>, base: real, now: real): Meta {
    m.(stack := stack, count := |stack|, until := Some(now + Scaled(base, |stack|)))
  }

  datatype Config = Config(kickSec: real, kickAt: int, probeKickSec: real)

  /** `apply_free_usage_cooldown` on an error that it recognises. */
  function FreeUsed(cfg: Config, m: Meta, model: Text, statusCode: int, now: real): Meta {
    var stack := Push(m.stack, Entry(FreeUsage, model, statusCode, now));
    var m1 := WithBlock(m, model, Temporary, cfg.kickSec, now);
    Patched(CooledUntil(m1, stack, MaxReal(3600.0, cfg.kickSec), now).(enabled := true), now)
  }

  /** What model_health makes of an error. */
  datatype Health = Fine | TemporaryUsage | AccountBlocked(sec: real) | ModelUnavailable(ttl: real, sec: real)

  /**
   How the regex classifiers read an upstream error: one of the shared egress, of the quota, of free
   usage, or of the model; and the cooldown computed for it.
   */
  datatype Error = Error(shared: bool, quota: bool, free: bool, health: Health, statusCode: int, cooldown: real)

  /** `handle_upstream_error_for_model`. */
  function HealthHandled(cfg: Config, m: Meta, model: Text, e: Error, now: real): Meta {
    match e.health
    case Fine => m
    case TemporaryUsage =>
      if e.free then FreeUsed(cfg, m, model, e.statusCode, now) else WithBlock(m, model, Temporary, cfg.kickSec, now)
    case AccountBlocked(sec) => DisabledForQuota(Kicked(m, sec, now), now)
    case ModelUnavailable(ttl, sec) => Kicked(WithBlock(m, model, Lasting, ttl, now), sec, now)
  }

  /** A failure for want of free usage. */
  function FailedFree(cfg: Config, m: Meta, model: Text, e: Error, fails: int, now: real): Meta {
    var m1 := FreeUsed(cfg, m, model, e.statusCode, now);
    TouchedFail(m1, if m1.until.Some? then m1.until.value else now + 600.0, fails, true, now)
  }

  /** Any other failure, on top of `stack`. */
  function FailedOther(m: Meta, stack: seq<Entry>, model: Text, e: Error, fails: int, now: real): Meta {
    var pushed := Push(stack, Entry(RequestFail, model, e.statusCode, now));
    var m1 := Patched(CooledUntil(m, pushed, MaxReal(e.cooldown, 60.0), now), now);
    TouchedFail(m1, m1.until.value, fails, false, now)
  }

  /** `report_failure`.  The stack of an ordinary failure is built on the record as it was first read. */
  function Failed(cfg: Config, m: Meta, model: Text, e: Error, now: real): Meta {
    if e.shared then m
    else
      var m1 := if e.quota then DisabledForQuota(m, now) else m;
      var m2 := if model != [] then HealthHandled(cfg, m1, model, e, now) else m1;
      var fails := m.consecutiveFails + 1;
      if e.free then FailedFree(cfg, m2, model, e, fails, now) else FailedOther(m2, m.stack, model, e, fails, now)
  }

  /** `report_success`. */
  function Succeeded(m: Meta, model: Text, now: real): Meta {
    var m1 := TouchedSuccess(m, now);
    if InCooldown(View(m, now), now) then m1
    else
      var m2 := Patched(m1.(probeStreak := 0), now);
      if model in m2.blocked && (m2.blocked[model].until.Some? || m2.blocked[model].source == Temporary)
      then WithoutBlock(m2, model, now) else m2
  }

  /** `record_model_probe_outcome` of a failed probe. */
  function ProbeFailed(cfg: Config, m: Meta, model: Text, e: Error, autoKick: bool, now: real): Meta {
    var streak := m.probeStreak + 1;
    if e.free then Patched(FreeUsed(cfg, m, model, e.statusCode, now).(probeStreak := streak), now)
    else if autoKick && streak >= cfg.kickAt then
      var stack := Push(m.stack, Entry(ProbeFail, model, e.statusCode, now));
      Patched(CooledUntil(m, stack, cfg.probeKickSec, now).(probeStreak := streak), now)
    else Patched(m.(probeStreak := streak), now)
  }

  /** The fields that a recovery clears. */
  function Recovered(m: Meta): Meta {
    m.(stack := [], count := 0, until := None, consecutiveFails := 0, probeStreak := 0)
  }

  /**
   `record_model_probe_outcome` of a successful probe.  `mayEnable` says whether the recorded
   reason for a disabled account is one that a probe may lift.
   */
  function ProbeSucceeded(m: Meta, model: Text, mayEnable: bool, now: real): Meta {
    var live := LiveBlocks(m.blocked, now);
    var m1 := Recovered(m);
    var m2 := if model in live && (live[model].until.Some? || live[model].source != Lasting)
              then m1.(blocked := live - {model}) else m1;
    Patched(if !m.enabled && !m.quotaDisabled && mayEnable then m2.(enabled := true) else m2, now)
  }

  /** `clear_account_cooldown`. */
  function CooldownCleared(m: Meta, now: real): Meta { Patched(Recovered(m), now) }

  /** `prune_expired_cooldowns`, for one account. */
  function CooldownPruned(m: Meta, now: real): Meta {
    if m.until.None? || now < m.until.value then m else Patched(m.(until := None), now)
  }

  /** `prune_expired_model_blocks`, for one account. */
  function BlocksPruned(m: Meta, now: real): Meta {
    var live := LiveBlocks(m.blocked, now);
    if live == m.blocked then m else Patched(m.(blocked := live), now)
  }

  /** `set_account_enabled`: switching on clears the clock of a cooldown, not its stack or count. */
  function SetEnabled(m: Meta, enabled: bool, now: real): Meta {
    if enabled then
      Patched(m.(enabled := true, quotaDisabled := false, blocked := map[], until := None, consecutiveFails := 0), now)
    else Patched(m.(enabled := false), now)
  }

  datatype Event =
    | Success(model: Text, now: real)
    | Failure(model: Text, error: Error, now: real)
    | ProbeFailure(model: Text, error: Error, autoKick: bool, now: real)
    | ProbeSuccess(model: Text, mayEnable: bool, now: real)
    | ManualClear(now: real)
    | PruneCooldown(now: real)
    | PruneBlocks(now: real)
    | Kick(sec: real, now: real)
    | BlockModel(model: Text, source: Source, ttl: real, now: real)
    | UnblockModel(model: Text, now: real)
    | QuotaOut(now: real)
    | Enable(on: bool, now: real)

  function Stepped(cfg: Config, m: Meta, e: Event): Meta {
    match e
    case Success(model, now) => Succeeded(m, model, now)
    case Failure(model, error, now) => Failed(cfg, m, model, error, now)
    case ProbeFailure(model, error, autoKick, now) => ProbeFailed(cfg, m, model, error, autoKick, now)
    case ProbeSuccess(model, mayEnable, now) => ProbeSucceeded(m, model, mayEnable, now)
    case ManualClear(now) => CooldownCleared(m, now)
    case PruneCooldown(now) => CooldownPruned(m, now)
    case PruneBlocks(now) => BlocksPruned(m, now)
    case Kick(sec, now) => Kicked(m, sec, now)
    case BlockModel(model, source, ttl, now) => WithBlock(m, model, source, ttl, now)
    case UnblockModel(model, now) => WithoutBlock(m, model, now)
    case QuotaOut(now) => DisabledForQuota(m, now)
    case Enable(on, now) => SetEnabled(m, on, now)
  }

  function Lived(cfg: Config, m: Meta, es: seq<Event>): Meta {
    if es == [] then m else Stepped(cfg, Lived(cfg, m, es[..|es| - 1]), es[|es| - 1])
  }
}
