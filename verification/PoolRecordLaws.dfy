/**
 What the pool record keeps: a stacked cooldown lasts until a recovery, the stack is the newest 50
 of everything appended, and temporary blocks end when the clock says so, pruned or not.
 */
module PoolRecordLaws {
  import opened Texts
  import opened PoolRecord

  // ---------- the durable cooldown ----------

  /** A cooldown that no clock ends. */
  predicate Durable(m: Meta) { m.stack != [] || m.count > 0 }

  predicate Recovers(e: Event) { e.ProbeSuccess? || e.ManualClear? }

  /** What an event appends to the status stack. */
  function Appended(cfg: Config, m: Meta, e: Event): seq<Entry> {
    match e
    case Failure(model, err, now) =>
      if err.shared then []
      else if err.free then
        var one := Entry(FreeUsage, model, err.statusCode, now);
        if model != [] && err.health.TemporaryUsage? then [one, one] else [one]
      else [Entry(RequestFail, model, err.statusCode, now)]
    case ProbeFailure(model, err, autoKick, now) =>
      if err.free then [Entry(FreeUsage, model, err.statusCode, now)]
      else if autoKick && m.probeStreak + 1 >= cfg.kickAt then [Entry(ProbeFail, model, err.statusCode, now)]
      else []
    case _ => []
  }

  /** The newest 50 of a list. */
  function Newest(s: seq<Entry>): seq<Entry> {
    if |s| > 50 then s[|s| - 50..] else s
  }

  lemma PushNewest(log: seq<Entry>, e: Entry)
    ensures Push(Newest(log), e) == Newest(log + [e])
  {
  }

  lemma FreeUsedStack(cfg: Config, m: Meta, model: Text, statusCode: int, now: real)
    ensures var r := FreeUsed(cfg, m, model, statusCode, now);
      && r.stack == Push(m.stack, Entry(FreeUsage, model, statusCode, now)) && r.count == |r.stack| > 0
  {
    hide Derive;
  }

  lemma HealthStack(cfg: Config, m: Meta, model: Text, e: Error, now: real)
    ensures HealthHandled(cfg, m, model, e, now).stack ==
      if e.health.TemporaryUsage? && e.free then Push(m.stack, Entry(FreeUsage, model, e.statusCode, now)) else m.stack
  {
    hide Derive, NextCount, View;
  }

  lemma WithBlockStack(m: Meta, model: Text, source: Source, ttl: real, now: real)
    ensures var r := WithBlock(m, model, source, ttl, now); r.stack == m.stack && r.count == m.count
  {
    hide Derive;
  }

  function PushAll(stack: seq<Entry>, es: seq<Entry>): seq<Entry>
    decreases |es|
  {
    if es == [] then stack else PushAll(Push(stack, es[0]), es[1..])
  }

  lemma PushAllShort(stack: seq<Entry>, a: Entry, b: Entry)
    ensures PushAll(stack, []) == stack
    ensures PushAll(stack, [a]) == Push(stack, a)
    ensures PushAll(stack, [a, b]) == Push(Push(stack, a), b)
  {
    hide Push;
    assert [a, b][1..] == [b] && [a][1..] == [] && [b][1..] == [];
    assert PushAll(Push(stack, a), [b]) == PushAll(Push(Push(stack, a), b), []);
  }

  lemma FailedStack(cfg: Config, m: Meta, model: Text, e: Error, now: real)
    ensures var r := Failed(cfg, m, model, e, now);
      && r.stack == PushAll(m.stack, Appended(cfg, m, Failure(model, e, now)))
      && (if e.shared then r == m else r.count == |r.stack| > 0)
  {
    hide Derive, HealthHandled, FreeUsed, Push, PushAll;
    var m1 := if e.quota then DisabledForQuota(m, now) else m;
    HealthStack(cfg, m1, model, e, now);
    var m2 := if model != [] then HealthHandled(cfg, m1, model, e, now) else m1;
    FreeUsedStack(cfg, m2, model, e.statusCode, now);
    var one, other := Entry(FreeUsage, model, e.statusCode, now), Entry(RequestFail, model, e.statusCode, now);
    PushAllShort(m.stack, one, one);
    PushAllShort(m.stack, other, one);
    PushSome(m.stack, other);
    var r := Failed(cfg, m, model, e, now);
    if !e.shared && e.free {
      assert r.count == FreeUsed(cfg, m2, model, e.statusCode, now).count;
    } else if !e.shared {
      assert r.stack == Push(m.stack, other);
      assert r.count == |r.stack|;
    }
  }

  lemma PushSome(stack: seq<Entry>, e: Entry)
    ensures var r := Push(stack, e);
      && |r| > 0 && r[|r| - 1] == e && |r| <= MaxInt(KEPT, |stack|)
  {
  }

  lemma ProbeFailedStack(cfg: Config, m: Meta, model: Text, e: Error, autoKick: bool, now: real)
    ensures var r := ProbeFailed(cfg, m, model, e, autoKick, now);
      var es := Appended(cfg, m, ProbeFailure(model, e, autoKick, now));
      && r.stack == PushAll(m.stack, es)
      && r.count == (if es == [] then m.count else |r.stack|)
      && (es != [] ==> |r.stack| > 0)
  {
    hide Derive, FreeUsed, Push, PushAll;
    FreeUsedStack(cfg, m, model, e.statusCode, now);
    var one, other := Entry(FreeUsage, model, e.statusCode, now), Entry(ProbeFail, model, e.statusCode, now);
    PushAllShort(m.stack, one, one);
    PushAllShort(m.stack, other, one);
    PushSome(m.stack, other);
  }

  /** Every event but a recovery appends to the stack, and a count once positive stays so. */
  lemma SteppedStack(cfg: Config, m: Meta, e: Event)
    requires !Recovers(e)
    ensures Stepped(cfg, m, e).stack == PushAll(m.stack, Appended(cfg, m, e))
    ensures Stepped(cfg, m, e).count ==
      if Appended(cfg, m, e) != [] then |Stepped(cfg, m, e).stack|
      else if e.Kick? && e.sec > 0.0 then NextCount(View(m, e.now), e.now)
      else m.count
    ensures Appended(cfg, m, e) != [] ==> |Stepped(cfg, m, e).stack| > 0
  {
    hide Derive, NextCount, View, Failed, ProbeFailed, LiveBlocks, PushAll;
    match e
    case Failure(model, err, now) => FailedStack(cfg, m, model, err, now); PushAllNone(m.stack);
    case ProbeFailure(model, err, autoKick, now) => ProbeFailedStack(cfg, m, model, err, autoKick, now);
    case BlockModel(model, source, ttl, now) => WithBlockStack(m, model, source, ttl, now); PushAllNone(m.stack);
    case _ => PushAllNone(m.stack);
  }

  lemma PushAllNone(stack: seq<Entry>)
    ensures PushAll(stack, []) == stack
  {
  }

  // ---------- runs ----------

  /** Everything appended since the last recovery. */
  function Logged(cfg: Config, m: Meta, es: seq<Event>): seq<Entry> {
    if es == [] then []
    else
      var front, e := es[..|es| - 1], es[|es| - 1];
      if Recovers(e) then [] else Logged(cfg, m, front) + Appended(cfg, Lived(cfg, m, front), e)
  }

  lemma {:induction false} PushAllNewest(log: seq<Entry>, es: seq<Entry>)
    ensures PushAll(Newest(log), es) == Newest(log + es)
    decreases |es|
  {
    hide Push, Newest;
    if es == [] {
      assert log + es == log;
    } else {
      PushNewest(log, es[0]);
      PushAllNewest(log + [es[0]], es[1..]);
      assert log + [es[0]] + es[1..] == log + es;
    }
  }

  /** The status stack is the newest 50 of all that was appended since the last recovery. */
  lemma {:induction false} StackIsNewest(cfg: Config, es: seq<Event>)
    ensures Lived(cfg, NEW, es).stack == Newest(Logged(cfg, NEW, es))
  {
    hide Stepped, Appended, Newest, PushAll;
    if es == [] {
      NewestNone();
    } else {
      var front, e := es[..|es| - 1], es[|es| - 1];
      StackIsNewest(cfg, front);
      if Recovers(e) {
        RecoveredIsFree(cfg, Lived(cfg, NEW, front), e);
        NewestNone();
      } else {
        SteppedStack(cfg, Lived(cfg, NEW, front), e);
        PushAllNewest(Logged(cfg, NEW, front), Appended(cfg, Lived(cfg, NEW, front), e));
      }
    }
  }

  lemma NewestNone()
    ensures Newest([]) == []
  {
  }

  /** A successful probe or a manual clear ends the cooldown for good, whatever came before. */
  lemma RecoveredIsFree(cfg: Config, m: Meta, e: Event)
    requires Recovers(e)
    ensures var r := Stepped(cfg, m, e); r.stack == [] && r.count == 0 && forall t: real :: !InCooldown(r, t)
  {
    hide LiveBlocks;
  }

  /** Whether something has put the account into a durable cooldown since the last recovery. */
  predicate Sidelined(cfg: Config, m: Meta, es: seq<Event>) {
    es != [] &&
    var front, e := es[..|es| - 1], es[|es| - 1];
    !Recovers(e) &&
    (Sidelined(cfg, m, front) || Appended(cfg, Lived(cfg, m, front), e) != [] || (e.Kick? && e.sec > 0.0))
  }

  lemma {:induction false} PushAllGrows(stack: seq<Entry>, es: seq<Entry>)
    ensures stack != [] ==> PushAll(stack, es) != []
    decreases |es|
  {
    if es != [] {
      PushSome(stack, es[0]);
      PushAllGrows(Push(stack, es[0]), es[1..]);
    }
  }

  lemma NextCountPositive(m: Meta, now: real)
    ensures m.count >= 0 ==> NextCount(View(m, now), now) >= 1
  {
    hide LiveBlocks, InCooldown;
  }

  /**
   A durable cooldown is there exactly when a failure that is not of the shared egress, a probe
   failed on free usage or at the streak, or a timed kick has come after the last recovery: no
   success, prune, block, disabling or re-enabling ends it.
   */
  lemma {:induction false} DurableExactly(cfg: Config, es: seq<Event>)
    ensures Durable(Lived(cfg, NEW, es)) <==> Sidelined(cfg, NEW, es)
    ensures Lived(cfg, NEW, es).count >= 0
  {
    hide Stepped, Appended, PushAll, NextCount, View;
    if es != [] {
      var front, e := es[..|es| - 1], es[|es| - 1];
      var m := Lived(cfg, NEW, front);
      DurableExactly(cfg, front);
      if Recovers(e) {
        RecoveredIsFree(cfg, m, e);
      } else {
        SteppedStack(cfg, m, e);
        PushAllGrows(m.stack, Appended(cfg, m, e));
        PushAllNone(m.stack);
        if e.Kick? { NextCountPositive(m, e.now); }
      }
    }
  }

  /** Once the stack is not empty the account is in cooldown at every time, until a recovery. */
  lemma {:induction false} StaysInCooldown(cfg: Config, m: Meta, es: seq<Event>, t: real)
    requires m.stack != [] && forall i :: 0 <= i < |es| ==> !Recovers(es[i])
    ensures Lived(cfg, m, es).stack != [] && InCooldown(Lived(cfg, m, es), t)
  {
    hide Stepped, Appended, PushAll;
    if es != [] {
      var front, e := es[..|es| - 1], es[|es| - 1];
      StaysInCooldown(cfg, m, front, t);
      SteppedStack(cfg, Lived(cfg, m, front), e);
      PushAllGrows(Lived(cfg, m, front).stack, Appended(cfg, Lived(cfg, m, front), e));
    }
  }

  /** What schedulers look at is the cooldown of the record itself. */
  lemma ViewInCooldown(m: Meta, now: real)
    ensures InCooldown(View(m, now), now) <==> InCooldown(m, now)
  {
    hide LiveBlocks;
  }

  // ---------- temporary blocks of a model ----------

  /** Pruning blocks, and the lazy expiry of a view, change no answer then or later. */
  lemma PruneChangesNoAnswer(m: Meta, pruned: real, model: Text, now: real, durableOnly: bool)
    requires pruned <= now
    ensures ModelIsBlocked(BlocksPruned(m, pruned), model, now, durableOnly)
            <==> ModelIsBlocked(m, model, now, durableOnly)
    ensures ModelIsBlocked(View(m, pruned), model, now, durableOnly) <==> ModelIsBlocked(m, model, now, durableOnly)
  {
    hide Derive, InCooldown;
  }

  /** A temporary block: when it was set and for how long. */
  datatype Temp = Temp(at: real, length: real)

  predicate Timed(e: Event) { e.BlockModel? || e.PruneBlocks? }

  /** Blocks and prunes in the order of the clock, with every block of `model` temporary. */
  ghost predicate InOrder(es: seq<Event>, model: Text) {
    && (forall i :: 0 <= i < |es| ==> Timed(es[i]))
    && (forall i, j :: 0 <= i < j < |es| ==> es[i].now <= es[j].now)
    && (forall i :: 0 <= i < |es| && es[i].BlockModel? && es[i].model == model ==> es[i].ttl > 0.0)
  }

  /** The temporary blocks that a run sets for `model`. */
  function TempsOf(es: seq<Event>, model: Text): seq<Temp> {
    if es == [] then []
    else
      var e := es[|es| - 1];
      TempsOf(es[..|es| - 1], model) + (if e.BlockModel? && e.model == model then [Temp(e.now, e.ttl)] else [])
  }

  function SumFrom(ts: seq<Temp>, i: nat): real
    requires i <= |ts|
    decreases |ts| - i
  {
    if i == |ts| then 0.0 else ts[i].length + SumFrom(ts, i + 1)
  }

  /** When stacked blocks end, block by block. */
  function End(ts: seq<Temp>): real
    requires ts != []
  {
    var l := ts[|ts| - 1];
    if |ts| == 1 then l.at + l.length else MaxReal(End(ts[..|ts| - 1]), l.at) + l.length
  }

  lemma {:induction false} SumSnoc(ts: seq<Temp>, x: Temp, i: nat)
    requires i <= |ts|
    ensures SumFrom(ts + [x], i) == SumFrom(ts, i) + x.length
    decreases |ts| - i
  {
    if i < |ts| {
      SumSnoc(ts, x, i + 1);
    } else {
      assert SumFrom(ts + [x], i + 1) == 0.0;
    }
  }

  /** Stacked blocks end at the greatest of: when one began, plus its own length and all later ones. */
  lemma {:induction false} EndIsMax(ts: seq<Temp>)
    requires ts != []
    ensures forall i: nat :: i < |ts| ==> End(ts) >= ts[i].at + SumFrom(ts, i)
    ensures exists i: nat :: i < |ts| && End(ts) == ts[i].at + SumFrom(ts, i)
  {
    hide SumFrom;
    var n := |ts| - 1;
    var u, x := ts[..n], ts[n];
    assert ts == u + [x];
    SumLast(ts);
    if n > 0 {
      EndIsMax(u);
      forall i: nat | i < n ensures ts[i].at + SumFrom(ts, i) == u[i].at + SumFrom(u, i) + x.length {
        SumSnoc(u, x, i);
      }
      var k: nat :| k < |u| && End(u) == u[k].at + SumFrom(u, k);
      if End(u) > x.at {
        assert End(ts) == ts[k].at + SumFrom(ts, k);
      } else {
        assert End(ts) == ts[n].at + SumFrom(ts, n);
      }
    } else {
      assert End(ts) == ts[0].at + SumFrom(ts, 0);
    }
  }

  lemma SumLast(ts: seq<Temp>)
    requires ts != []
    ensures SumFrom(ts, |ts| - 1) == ts[|ts| - 1].length
  {
    assert SumFrom(ts, |ts|) == 0.0;
  }

  /** The record holds the end of the stacked blocks, unless a prune has found them over. */
  ghost predicate Tracks(m: Meta, model: Text, ts: seq<Temp>, now: real) {
    if ts == [] then model !in m.blocked
    else if model in m.blocked then m.blocked[model].until == Some(End(ts))
    else End(ts) <= now
  }

  lemma BlockTracks(m: Meta, model: Text, ts: seq<Temp>, last: real, e: Event)
    requires model != [] && Tracks(m, model, ts, last) && last <= e.now
    requires e.BlockModel? && e.model == model && e.ttl > 0.0
    ensures Tracks(WithBlock(m, model, e.source, e.ttl, e.now), model, ts + [Temp(e.now, e.ttl)], e.now)
  {
    hide Derive;
    assert (ts + [Temp(e.now, e.ttl)])[..|ts|] == ts;
  }

  lemma OtherTracks(cfg: Config, m: Meta, model: Text, ts: seq<Temp>, last: real, e: Event)
    requires Tracks(m, model, ts, last) && last <= e.now && Timed(e)
    requires e.BlockModel? ==> e.model != model
    ensures Tracks(Stepped(cfg, m, e), model, ts, e.now)
  {
    hide Derive, End;
  }

  lemma {:induction false} RunTracks(cfg: Config, es: seq<Event>, model: Text, start: real)
    requires model != [] && InOrder(es, model) && (es != [] ==> start <= es[0].now)
    ensures Tracks(Lived(cfg, NEW, es), model, TempsOf(es, model), if es == [] then start else es[|es| - 1].now)
  {
    hide Stepped, End;
    if es != [] {
      var n := |es| - 1;
      var front, e := es[..n], es[n];
      RunTracks(cfg, front, model, start);
      var m := Lived(cfg, NEW, front);
      var ts := TempsOf(front, model);
      var last := if front == [] then start else front[n - 1].now;
      if e.BlockModel? && e.model == model {
        BlockTracks(m, model, ts, last, e);
        BlockIsStep(cfg, m, e);
      } else {
        assert ts + [] == ts;
        OtherTracks(cfg, m, model, ts, last, e);
      }
    }
  }

  lemma BlockIsStep(cfg: Config, m: Meta, e: Event)
    requires e.BlockModel?
    ensures Stepped(cfg, m, e) == WithBlock(m, e.model, e.source, e.ttl, e.now)
  {
  }

  /**
   Temporary blocks of a model stack: with any blocks of other models and any prunes between, it
   is blocked exactly before the end given by `EndIsMax`.
   */
  lemma BlockedExactlyUntilEnd(cfg: Config, es: seq<Event>, model: Text, now: real)
    requires model != [] && InOrder(es, model) && (es != [] ==> es[|es| - 1].now <= now)
    ensures var ts := TempsOf(es, model);
      ModelIsBlocked(View(Lived(cfg, NEW, es), now), model, now, false) <==> ts != [] && now < End(ts)
  {
    hide Lived, View, End, TempsOf;
    RunTracks(cfg, es, model, if es == [] then now else es[0].now);
    PruneChangesNoAnswer(Lived(cfg, NEW, es), now, model, now, false);
  }
}
