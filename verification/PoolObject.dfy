/**
 The pool state as it is updated in place (account_pool.py): one record an account, rewritten by
 patches and by the prune loops.
 */
module PoolObject {
  import opened Texts
  import opened PoolRecord
  import Laws = PoolRecordLaws

  class AccountPool {
    const cfg: Config
    var state: map<Text, Meta>

    constructor (cfg: Config)
      ensures this.cfg == cfg && state == map[]
    {
      this.cfg := cfg;
      state := map[];
    }

    /** The record of an account; one that is not known yet has the defaults. */
    function Of(id: Text): Meta
      reads this
    {
      if id in state then state[id] else NEW
    }

    /** `apply_free_usage_cooldown`: block the model, then patch the status. */
    method ApplyFreeUsage(id: Text, model: Text, statusCode: int, now: real)
      modifies this`state
      ensures state == old(state)[id := FreeUsed(cfg, old(Of(id)), model, statusCode, now)]
    {
      hide Derive, Push;
      var stack := Push(Of(id).stack, Entry(FreeUsage, model, statusCode, now));
      if model != [] { BlockModel(id, model, Temporary, cfg.kickSec, now); }
      var m := CooledUntil(Of(id), stack, MaxReal(3600.0, cfg.kickSec), now);
      state := state[id := Patched(m.(enabled := true), now)];
    }

    /** `kick_from_pool`. */
    method Kick(id: Text, sec: real, now: real)
      modifies this`state
      ensures state == old(state)[id := Kicked(old(Of(id)), sec, now)]
      ensures sec > 0.0 && old(Of(id)).count >= 0 ==> forall t: real :: InCooldown(Of(id), t)
    {
      hide Derive, View, NextCount, Scaled;
      var m := Of(id);
      if sec > 0.0 {
        Laws.NextCountPositive(m, now);
        var n := NextCount(View(m, now), now);
        var until := now + Scaled(MaxReal(sec, 60.0), n);
        state := state[id := Patched(m.(count := n, until := Some(until)), now)];
        state := state[id := TouchedFail(Of(id), until, MaxInt(1, m.consecutiveFails), false, now)];
      } else {
        state := state[id := Patched(m.(enabled := false), now)];
      }
    }

    /** `handle_upstream_error_for_model`. */
    method HandleForModel(id: Text, model: Text, e: Error, now: real)
      requires model != []
      modifies this`state
      ensures state == old(state)[id := HealthHandled(cfg, old(Of(id)), model, e, now)]
        || (e.health.Fine? && state == old(state))
    {
      hide Derive, FreeUsed, Kicked, LiveBlocks, InCooldown;
      match e.health
      case Fine =>
      case TemporaryUsage =>
        if e.free {
          ApplyFreeUsage(id, model, e.statusCode, now);
        } else {
          BlockModel(id, model, Temporary, cfg.kickSec, now);
        }
      case AccountBlocked(sec) =>
        Kick(id, sec, now);
        state := state[id := DisabledForQuota(Of(id), now)];
      case ModelUnavailable(ttl, sec) =>
        BlockModel(id, model, Lasting, ttl, now);
        Kick(id, sec, now);
    }

    /** `report_failure`: quota, then model health, then the stack, built on the record first read. */
    method ReportFailure(id: Text, model: Text, e: Error, now: real)
      modifies this`state
      ensures state == if e.shared then old(state) else old(state)[id := Failed(cfg, old(Of(id)), model, e, now)]
      ensures !e.shared ==> Of(id).stack != [] && forall t: real :: InCooldown(Of(id), t)
    {
      hide Derive, FailedFree, FailedOther, HealthHandled, Push;
      if e.shared { return; }
      var meta := Of(id);
      Laws.FailedStack(cfg, meta, model, e, now);
      if e.quota { state := state[id := DisabledForQuota(Of(id), now)]; }
      ghost var m1 := Of(id);
      if model != [] { HandleForModel(id, model, e, now); }
      assert Of(id) == if model != [] then HealthHandled(cfg, m1, model, e, now) else m1 by {
        FineHealth(cfg, m1, model, e, now);
      }
      if e.free {
        FailFree(id, model, e, meta.consecutiveFails + 1, now);
      } else {
        FailOther(id, meta.stack, model, e, meta.consecutiveFails + 1, now);
      }
    }

    method FailFree(id: Text, model: Text, e: Error, fails: int, now: real)
      modifies this`state
      ensures state == old(state)[id := FailedFree(cfg, old(Of(id)), model, e, fails, now)]
    {
      hide Derive, FreeUsed;
      ApplyFreeUsage(id, model, e.statusCode, now);
      var m := Of(id);
      state := state[id := TouchedFail(m, if m.until.Some? then m.until.value else now + 600.0, fails, true, now)];
    }

    method FailOther(id: Text, stack: seq<Entry>, model: Text, e: Error, fails: int, now: real)
      modifies this`state
      ensures state == old(state)[id := FailedOther(old(Of(id)), stack, model, e, fails, now)]
    {
      hide Derive, Push;
      var pushed := Push(stack, Entry(RequestFail, model, e.statusCode, now));
      state := state[id := Patched(CooledUntil(Of(id), pushed, MaxReal(e.cooldown, 60.0), now), now)];
      state := state[id := TouchedFail(Of(id), Of(id).until.value, fails, false, now)];
    }

    /** `report_success`: counters only while the account is cooling. */
    method ReportSuccess(id: Text, model: Text, now: real)
      modifies this`state
      ensures state == old(state)[id := Succeeded(old(Of(id)), model, now)]
      ensures Laws.Durable(old(Of(id))) ==> Of(id).stack == old(Of(id)).stack && forall t: real :: InCooldown(Of(id), t)
    {
      hide Derive, View;
      var cooling := InCooldown(View(Of(id), now), now);
      Laws.ViewInCooldown(Of(id), now);
      state := state[id := TouchedSuccess(Of(id), now)];
      if cooling { return; }
      state := state[id := Patched(Of(id).(probeStreak := 0), now)];
      var m := Of(id);
      if model in m.blocked && (m.blocked[model].until.Some? || m.blocked[model].source == Temporary) {
        state := state[id := Patched(m.(blocked := m.blocked - {model}), now)];
      }
    }

    /** `record_model_probe_outcome`.  A success ends any cooldown; a failure may begin one. */
    method RecordProbe(id: Text, model: Text, available: bool, e: Error, autoKick: bool, mayEnable: bool, now: real)
      modifies this`state
      ensures state == old(state)[id := if available then ProbeSucceeded(old(Of(id)), model, mayEnable, now)
                                        else ProbeFailed(cfg, old(Of(id)), model, e, autoKick, now)]
      ensures available ==> forall t: real :: !InCooldown(Of(id), t)
      ensures !available && (e.free || (autoKick && old(Of(id)).probeStreak + 1 >= cfg.kickAt)) ==>
        forall t: real :: InCooldown(Of(id), t)
    {
      hide ProbeSucceeded, ProbeFailed;
      if available { RecordProbeSuccess(id, model, mayEnable, now); }
      else { RecordProbeFailure(id, model, e, autoKick, now); }
    }

    method RecordProbeSuccess(id: Text, model: Text, mayEnable: bool, now: real)
      modifies this`state
      ensures state == old(state)[id := ProbeSucceeded(old(Of(id)), model, mayEnable, now)]
      ensures forall t: real :: !InCooldown(Of(id), t)
    {
      hide Derive, LiveBlocks, InCooldown;
      var meta := Of(id);
      Laws.RecoveredIsFree(cfg, meta, ProbeSuccess(model, mayEnable, now));
      var live := LiveBlocks(meta.blocked, now);
      var m := Recovered(meta);
      if model in live && (live[model].until.Some? || live[model].source != Lasting) {
        m := m.(blocked := live - {model});
      }
      if !meta.enabled && !meta.quotaDisabled && mayEnable { m := m.(enabled := true); }
      state := state[id := Patched(m, now)];
    }

    method RecordProbeFailure(id: Text, model: Text, e: Error, autoKick: bool, now: real)
      modifies this`state
      ensures state == old(state)[id := ProbeFailed(cfg, old(Of(id)), model, e, autoKick, now)]
      ensures e.free || (autoKick && old(Of(id)).probeStreak + 1 >= cfg.kickAt)
        ==> forall t: real :: InCooldown(Of(id), t)
    {
      hide Derive, FreeUsed, Push;
      var meta := Of(id);
      Laws.ProbeFailedStack(cfg, meta, model, e, autoKick, now);
      var streak := meta.probeStreak + 1;
      if e.free {
        ApplyFreeUsage(id, model, e.statusCode, now);
        state := state[id := Patched(Of(id).(probeStreak := streak), now)];
        return;
      }
      if autoKick && streak >= cfg.kickAt {
        var stack := Push(meta.stack, Entry(ProbeFail, model, e.statusCode, now));
        state := state[id := Patched(CooledUntil(meta, stack, cfg.probeKickSec, now).(probeStreak := streak), now)];
        return;
      }
      state := state[id := Patched(meta.(probeStreak := streak), now)];
    }

    /** `clear_account_cooldown`. */
    method ClearCooldown(id: Text, now: real)
      modifies this`state
      ensures state == old(state)[id := CooldownCleared(old(Of(id)), now)]
      ensures forall t: real :: !InCooldown(Of(id), t)
    {
      Laws.RecoveredIsFree(cfg, Of(id), ManualClear(now));
      state := state[id := Patched(Recovered(Of(id)), now)];
    }

    /** `block_model`. */
    method BlockModel(id: Text, model: Text, source: Source, ttl: real, now: real)
      requires model != []
      modifies this`state
      ensures state == old(state)[id := WithBlock(old(Of(id)), model, source, ttl, now)]
      ensures ttl > 0.0 ==> ModelIsBlocked(Of(id), model, now, false)
    {
      hide Derive;
      var m := Of(id);
      var b := Block(None, source);
      if ttl > 0.0 {
        var remaining := 0.0;
        if model in m.blocked && m.blocked[model].until.Some? {
          remaining := MaxReal(0.0, m.blocked[model].until.value - now);
        }
        b := Block(Some(now + (remaining + ttl)), source);
      }
      state := state[id := Patched(m.(blocked := m.blocked[model := b]), now)];
    }

    /** The blocks that have not expired: the loop of `_pool_meta` and of `prune_expired_model_blocks`. */
    method Unexpired(blocked: map<Text, Block>, models: seq<Text>, now: real) returns (live: map<Text, Block>)
      requires forall k :: k in blocked <==> k in models
      ensures live == LiveBlocks(blocked, now)
    {
      live := blocked;
      var i := 0;
      while i < |models|
        invariant 0 <= i <= |models|
        invariant forall k :: k in live <==>
          k in blocked && (k in models[..i] ==> !(blocked[k].until.Some? && now >= blocked[k].until.value))
        invariant forall k :: k in live ==> live[k] == blocked[k]
      {
        var b := blocked[models[i]];
        if b.until.Some? && now >= b.until.value { live := live - {models[i]}; }
        assert models[..i + 1] == models[..i] + [models[i]];
        i := i + 1;
      }
      assert models[..i] == models;
    }

    /** `prune_expired_model_blocks` over distinct accounts.  `models` lists the keys of their blocks. */
    method PruneExpiredModelBlocks(targets: seq<Text>, models: map<Text, seq<Text>>, now: real)
      requires forall id :: id in targets && id in state ==>
        id in models && forall k :: k in state[id].blocked <==> k in models[id]
      requires forall i, j :: 0 <= i < j < |targets| ==> targets[i] != targets[j]
      modifies this`state
      ensures state.Keys == old(state).Keys
      ensures forall id :: id in state ==>
        state[id] == if id in targets then BlocksPruned(old(state)[id], now) else old(state)[id]
    {
      hide Derive, LiveBlocks;
      var i := 0;
      while i < |targets|
        invariant 0 <= i <= |targets|
        invariant state.Keys == old(state).Keys
        invariant forall id :: id in state ==>
          state[id] == if id in targets[..i] then BlocksPruned(old(state)[id], now) else old(state)[id]
      {
        var id := targets[i];
        assert targets[..i + 1] == targets[..i] + [id];
        assert id !in targets[..i];
        if id in state {
          var m := state[id];
          var live := Unexpired(m.blocked, models[id], now);
          if live != m.blocked { state := state[id := Patched(m.(blocked := live), now)]; }
        }
        i := i + 1;
      }
      assert targets[..i] == targets;
    }

    /** `prune_expired_cooldowns` over some accounts. */
    method PruneExpiredCooldowns(targets: seq<Text>, now: real) returns (cleared: nat)
      modifies this`state
      ensures state.Keys == old(state).Keys
      ensures forall id :: id in state ==>
        state[id] == if id in targets then CooldownPruned(old(state)[id], now) else old(state)[id]
      ensures forall id, t :: id in state && Laws.Durable(old(state)[id]) ==> InCooldown(state[id], t)
    {
      hide Derive;
      cleared := 0;
      var i := 0;
      while i < |targets|
        invariant 0 <= i <= |targets|
        invariant state.Keys == old(state).Keys
        invariant forall id :: id in state ==>
          state[id] == if id in targets[..i] then CooldownPruned(old(state)[id], now) else old(state)[id]
      {
        var id := targets[i];
        assert targets[..i + 1] == targets[..i] + [id];
        if id in state {
          var m := state[id];
          PruneTwice(if id in old(state) then old(state)[id] else NEW, now);
          if m.until.Some? && now >= m.until.value {
            state := state[id := Patched(m.(until := None), now)];
            cleared := cleared + 1;
          }
        }
        i := i + 1;
      }
      assert targets[..i] == targets;
    }
  }

  /** An account pruned twice in one pass is as pruned once. */
  lemma PruneTwice(m: Meta, now: real)
    ensures CooldownPruned(CooldownPruned(m, now), now) == CooldownPruned(m, now)
  {
    hide Derive;
  }

  lemma FineHealth(cfg: Config, m: Meta, model: Text, e: Error, now: real)
    ensures e.health.Fine? ==> HealthHandled(cfg, m, model, e, now) == m
  {
  }
}
