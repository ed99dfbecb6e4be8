/**
 One worker process of module `LiveCreds` as an object: the cache dict that auth.py updates in place,
 one method a lock section, with the store and the threads that its sections serve.  Every method
 keeps the invariant of the interleavings, and `Perform` runs any of them.
 */
module LiveCredsObject {
  import opened Texts
  import opened LiveCreds

  class Worker {
    const cfg: Config

    var path: Path
    var creds: Option<seq<Entry>>
    var at: real
    var loadedAt: real
    var generation: nat
    var refreshing: bool
    var refreshNotBefore: real

    /** The primary store, and what its readers and writers have in hand. */
    var log: seq<Entry>
    var procs: map<nat, Proc>

    ghost var completed: set<Entry>
    ghost var origin: Origin

    function Now(): Cache
      reads this
    {
      Cache(path, creds, at, loadedAt, generation, refreshing, refreshNotBefore)
    }

    ghost function State(): Sys
      reads this
    {
      Sys(log, completed, Now(), origin, procs)
    }

    ghost predicate Ok()
      reads this
    {
      Inv(State())
    }

    /** Whether thread `t` may take a step now. */
    ghost predicate Can(e: Step)
      reads this
    {
      Ok() && Enabled(cfg, State(), e)
    }

    constructor (cfg: Config)
      ensures this.cfg == cfg && Ok() && State() == INIT
    {
      this.cfg := cfg;
      path, creds, at, loadedAt, generation, refreshing, refreshNotBefore := [], None, 0.0, 0.0, 0, false, 0.0;
      log, procs, completed, origin := [], map[], {}, Primary;
      new;
      InitOk();
    }

    /** A commit to the primary store. */
    method CommitWrite(t: nat, w: Entry)
      requires Can(Write(t, w))
      modifies this`log, this`procs
      ensures Ok() && State() == Taken(cfg, old(State()), Write(t, w))
    {
      hide Inv, At, Cached;
      StepKeeps(cfg, State(), Write(t, w));
      log := log + [w];
      procs := procs[t := Wrote(w)];
    }

    /**
     `invalidate_live_credentials_cache`, its lock section.  The write is now complete: no snapshot
     counts as fresh, and none that is being built can be stored as fresh.
     */
    method Invalidate(t: nat, now: real)
      requires Can(Step.Invalidate(t, now))
      modifies this`at, this`loadedAt, this`generation, this`procs, this`completed
      ensures Ok() && State() == Taken(cfg, old(State()), Step.Invalidate(t, now))
      ensures old(procs)[t].w in completed
      ensures forall p, n :: n >= Window(cfg) ==> Cached(cfg, Now(), p, n, false) == None
      ensures forall u ::
        (u in procs && (procs[u].Built? || procs[u].Refreshed? || procs[u].Building? || procs[u].Refreshing?)) ==>
        procs[u].generation < generation
    {
      hide Inv, At, Whole, Current, OneRefresher;
      Snapshots(State());
      StepKeeps(cfg, State(), Step.Invalidate(t, now));
      completed := completed + {procs[t].w};
      if creds.Some? {
        if loadedAt == 0.0 { loadedAt := if at != 0.0 then at else now; }
        procs := procs[t := ToSchedule];
      } else {
        procs := procs[t := Free];
      }
      at := 0.0;
      generation := generation + 1;
    }

    /**
     `_schedule_live_credentials_refresh`: a refresher is started only if none is running, and there
     is never more than one.
     */
    method Schedule(t: nat, now: real, child: nat) returns (started: bool)
      requires Can(Step.Schedule(t, now, child))
      modifies this`refreshing, this`refreshNotBefore, this`procs
      ensures Ok() && State() == Taken(cfg, old(State()), Step.Schedule(t, now, child))
      ensures started ==> forall u :: u in old(procs) ==> !IsRefresher(old(procs)[u])
      ensures started ==> forall u :: u in procs && IsRefresher(procs[u]) <==> u == child
      ensures !started ==> forall u ::
        u in procs && IsRefresher(procs[u]) ==> u in old(procs) && IsRefresher(old(procs)[u])
    {
      hide Inv, At, Whole, Current, ProcOk, CacheOk;
      OnlyRefresher(State());
      StepKeeps(cfg, State(), Step.Schedule(t, now, child));
      procs := procs[t := Free];
      if path == [] || creds.None? { return false; }
      if refreshing { return false; }
      if now < refreshNotBefore { return false; }
      refreshing := true;
      refreshNotBefore := now + Max(0.5, cfg.ttl);
      procs := procs[child := Refreshing(path, generation)];
      started := true;
    }

    /**
     `get_cached_live_credentials`.  What it returns is what the store held at some time, and if it
     is fresh and was read from the primary store it has every completed write.
     */
    method GetCached(wanted: Path, now: real, allowStale: bool) returns (r: Option<seq<Entry>>)
      requires Ok()
      ensures r == Cached(cfg, Now(), wanted, now, allowStale)
      ensures r.Some? ==> Whole(State(), wanted, r.value, origin)
      ensures r.Some? && !allowStale && now >= Window(cfg) && origin.Primary? ==> Current(State(), wanted, r.value)
    {
      hide At, Whole, Current, ProcOk, OneRefresher;
      var loaded := if loadedAt != 0.0 then loadedAt else if at != 0.0 then at else now;
      var recent := now - at < Window(cfg);
      var boundedStale := now - loaded < cfg.staleMax;
      if path == wanted && (recent || (allowStale && boundedStale)) { return creds; }
      r := None;
    }

    /** A stale snapshot is handed out, and the thread goes on to schedule a refresh. */
    method GetStale(t: nat, wanted: Path, now: real) returns (r: seq<Entry>)
      requires Can(ServeStale(t, wanted, now))
      modifies this`procs
      ensures Ok() && State() == Taken(cfg, old(State()), ServeStale(t, wanted, now))
      ensures Whole(State(), wanted, r, origin)
    {
      hide At, Whole, Current, Inv;
      StepKeeps(cfg, State(), ServeStale(t, wanted, now));
      var c := GetCached(wanted, now, true);
      r := c.value;
      procs := procs[t := ToSchedule];
      WholeLater(old(State()), State(), wanted, r, origin);
    }

    /** The unlocked read of the generation in `list_live_credentials`. */
    method ReadGeneration(t: nat, wanted: Path)
      requires Can(Step.ReadGeneration(t, wanted))
      modifies this`procs
      ensures Ok() && State() == Taken(cfg, old(State()), Step.ReadGeneration(t, wanted))
    {
      hide Inv, At;
      StepKeeps(cfg, State(), Step.ReadGeneration(t, wanted));
      procs := procs[t := Building(wanted, generation)];
    }

    /** `_build_live_credentials`: the snapshot has every write that is complete. */
    method Build(t: nat)
      requires Can(ReadStore(t))
      modifies this`procs
      ensures Ok() && State() == Taken(cfg, old(State()), ReadStore(t))
      ensures t in procs && (procs[t].Built? || procs[t].Refreshed?) && Current(State(), procs[t].path, procs[t].creds)
    {
      hide Inv, At, Current;
      Logged(State());
      AllWrites(State(), procs[t].path);
      StepKeeps(cfg, State(), ReadStore(t));
      procs := procs[t := AfterRead(procs[t], At(log, procs[t].path), Primary)];
    }

    /** `_build_live_credentials` when the primary store cannot be read: an earlier state, or nothing. */
    method BuildFromFallback(t: nat, n: nat)
      requires Can(FallBack(t, n))
      modifies this`procs
      ensures Ok() && State() == Taken(cfg, old(State()), FallBack(t, n))
      ensures n == 0 ==> procs[t].creds == []
    {
      hide Inv, Current;
      StepKeeps(cfg, State(), FallBack(t, n));
      procs := procs[t := AfterRead(procs[t], At(log[..n], procs[t].path), Fallback(n))];
    }

    /** An exception that `_build_live_credentials` does not catch. */
    method Fail(t: nat)
      requires Can(Crash(t))
      modifies this`procs
      ensures Ok() && State() == Taken(cfg, old(State()), Crash(t))
    {
      hide Inv, At;
      StepKeeps(cfg, State(), Crash(t));
      procs := procs[t := if procs[t].Building? then Free else Closing];
    }

    /**
     `_store_live_credentials_snapshot`.  The snapshot counts as fresh only if no invalidate came
     since its generation was read, and then, if it was read from the primary store, it has every
     completed write.
     */
    method Store(t: nat, now: real)
      requires Can(Step.Store(t, now))
      modifies this`path, this`creds, this`loadedAt, this`at, this`origin, this`procs
      ensures Ok() && State() == Taken(cfg, old(State()), Step.Store(t, now))
      ensures at != 0.0 ==> old(procs)[t].generation == generation
      ensures at != 0.0 && origin.Primary? ==> creds.Some? && Current(State(), path, creds.value)
    {
      hide At, Whole, Current, ProcOk, OneRefresher;
      hide Inv;
      StepKeeps(cfg, State(), Step.Store(t, now));
      var p := procs[t];
      path := p.path;
      creds := Some(p.creds);
      loadedAt := now;
      at := if generation == p.generation then now else 0.0;
      origin := p.origin;
      procs := procs[t := if p.Built? then Free else Closing];
      assert Ok();
      FreshOk(State());
    }

    /** The `finally` of a refresher: none is running any more. */
    method EndRefresh(t: nat)
      requires Can(Close(t))
      modifies this`refreshing, this`procs
      ensures Ok() && State() == Taken(cfg, old(State()), Close(t))
      ensures forall u :: u in procs ==> !IsRefresher(procs[u])
    {
      hide Inv, At, Whole, Current, ProcOk, CacheOk;
      StepKeeps(cfg, State(), Close(t));
      refreshing := false;
      procs := procs[t := Free];
      OnlyRefresher(State());
    }

    /** One step of whatever kind. */
    method Take(e: Step)
      requires Can(e)
      modifies this
      ensures Ok() && State() == Taken(cfg, old(State()), e)
    {
      hide Inv, Taken, Enabled;
      match e
      case Write(t, w) => CommitWrite(t, w);
      case Invalidate(t, now) => Invalidate(t, now);
      case Schedule(t, now, child) => var _ := Schedule(t, now, child);
      case ServeStale(t, wanted, now) => var _ := GetStale(t, wanted, now);
      case ReadGeneration(t, wanted) => ReadGeneration(t, wanted);
      case ReadStore(t) => Build(t);
      case FallBack(t, n) => BuildFromFallback(t, n);
      case Crash(t) => Fail(t);
      case Store(t, now) => Store(t, now);
      case Close(t) => EndRefresh(t);
    }
  }

  /** Any interleaving, step by step, and then one request that wants a fresh snapshot. */
  method Perform(cfg: Config, steps: seq<Step>, wanted: Path, now: real)
    returns (served: Option<seq<Entry>>, ghost s: Sys)
    requires Run(cfg, steps).Some?
    ensures s == Run(cfg, steps).value
    ensures served.Some? ==> Whole(s, wanted, served.value, s.origin)
    ensures served.Some? && now >= Window(cfg) && (forall i :: 0 <= i < |steps| ==> !steps[i].FallBack?) ==>
      Current(s, wanted, served.value)
  {
    hide Inv, Taken, Enabled, Whole, Current, Cached, FromPrimary;
    var worker := new Worker(cfg);
    var k := 0;
    assert Run(cfg, steps[..0]) == Some(INIT);
    while k < |steps|
      invariant 0 <= k <= |steps|
      invariant worker.Ok() && worker.cfg == cfg
      invariant Run(cfg, steps[..k]) == Some(worker.State())
    {
      assert steps[..k + 1][..k] == steps[..k];
      RunBefore(cfg, steps, k + 1);
      worker.Take(steps[k]);
      k := k + 1;
    }
    assert steps[..k] == steps;
    served := worker.GetCached(wanted, now, false);
    s := worker.State();
    if forall i :: 0 <= i < |steps| ==> !steps[i].FallBack? {
      NoFallback(cfg, steps);
      FromPrimaryOrigin(s);
    }
  }

  lemma FromPrimaryOrigin(s: Sys)
    requires FromPrimary(s)
    ensures s.origin.Primary?
  {
  }

  /** A run that gets to its end gets to every earlier step. */
  lemma {:induction false} RunBefore(cfg: Config, steps: seq<Step>, k: nat)
    requires k <= |steps| && Run(cfg, steps).Some?
    ensures Run(cfg, steps[..k]).Some?
    decreases |steps|
  {
    hide Enabled, Taken;
    if k < |steps| {
      var front := steps[..|steps| - 1];
      RunBefore(cfg, front, k);
      assert front[..k] == steps[..k];
    } else {
      assert steps[..k] == steps;
    }
  }

  lemma Logged(s: Sys)
    requires Inv(s)
    ensures forall w :: w in s.completed ==> w in s.log
  {
  }

  lemma AllWrites(s: Sys, path: Path)
    requires forall w :: w in s.completed ==> w in s.log
    ensures Current(s, path, At(s.log, path))
    ensures forall s': Sys :: s'.completed == s.completed ==> Current(s', path, At(s.log, path))
  {
    hide At;
    AtHolds(s.log, path);
  }

  /** No thread carries a generation that is still to come. */
  lemma Snapshots(s: Sys)
    requires Inv(s)
    ensures forall u ::
      (u in s.procs &&
       (s.procs[u].Built? || s.procs[u].Refreshed? || s.procs[u].Building? || s.procs[u].Refreshing?)) ==>
      s.procs[u].generation <= s.cache.generation
  {
    hide Whole, Current, OneRefresher, CacheOk;
    forall u | u in s.procs ensures ProcOk(s, s.procs[u]) {
    }
  }

  lemma OnlyRefresher(s: Sys)
    requires Inv(s)
    ensures !s.cache.refreshing ==> forall u :: u in s.procs ==> !IsRefresher(s.procs[u])
  {
    hide Whole, Current, ProcOk, CacheOk;
  }

  lemma FreshOk(s: Sys)
    requires Inv(s)
    ensures s.cache.at != 0.0 && s.origin.Primary? ==>
      s.cache.creds.Some? && Current(s, s.cache.path, s.cache.creds.value)
  {
    hide Whole, Current, ProcOk, OneRefresher;
  }
}
