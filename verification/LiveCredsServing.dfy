/**
 When the live-credentials cache serves a snapshot and when it starts a refresh, told from the steps
 that were taken: the last snapshot stored, the invalidates since, and the last refresh started.
 */
module LiveCredsServing {
  import opened Texts
  import opened LiveCreds

  /** Whether the clock has read more than 0 at every step; 0 stands for "never". */
  ghost predicate Ticking(steps: seq<Step>) {
    forall i :: 0 <= i < |steps| ==>
      match steps[i]
      case Invalidate(_, now) => now > 0.0
      case Store(_, now) => now > 0.0
      case _ => true
  }

  // ---------- the last snapshot ----------

  /**
   The last snapshot that was stored: when, for which path, and whether anything was invalidated
   since it was begun.
   */
  datatype Last = Never | Last(at: real, path: Path, creds: seq<Entry>, untouched: bool)

  /** The last snapshot after some steps. */
  function LastStored(cfg: Config, steps: seq<Step>): Last
    requires Run(cfg, steps).Some?
  {
    if steps == [] then Never
    else
      var front, e := steps[..|steps| - 1], steps[|steps| - 1];
      var s := Run(cfg, front).value;
      match e
      case Store(t, now) =>
        var p := ProcOf(s, t);
        Last(now, p.path, p.creds, Invalidates(front) == p.generation)
      case Invalidate(_, _) =>
        (match LastStored(cfg, front)
         case Never => Never
         case Last(at, path, creds, _) => Last(at, path, creds, false))
      case _ => LastStored(cfg, front)
  }

  /** How many invalidates have completed. */
  function Invalidates(steps: seq<Step>): nat {
    if steps == [] then 0
    else Invalidates(steps[..|steps| - 1]) + (if steps[|steps| - 1].Invalidate? then 1 else 0)
  }

  /** The cache holds the last snapshot, and counts it as fresh if nothing was invalidated since it was begun. */
  ghost predicate Holds(c: Cache, l: Last, n: nat) {
    && c.generation == n
    && match l
       case Never => c.creds == None && c.at == 0.0
       case Last(at, path, creds, untouched) =>
         c.path == path && c.creds == Some(creds) && c.loadedAt == at > 0.0 && c.at == if untouched then at else 0.0
  }

  lemma {:induction false} CacheHoldsLast(cfg: Config, steps: seq<Step>)
    requires Run(cfg, steps).Some? && Ticking(steps)
    ensures Holds(Run(cfg, steps).value.cache, LastStored(cfg, steps), Invalidates(steps))
  {
    hide At, Cached;
    if steps != [] {
      var front, e := steps[..|steps| - 1], steps[|steps| - 1];
      assert forall i :: 0 <= i < |front| ==> front[i] == steps[i];
      CacheHoldsLast(cfg, front);
      assert steps[|steps| - 1] == e;
    }
  }

  /** A snapshot of this age is fresh: younger than its time to live, or than a fifth of a second. */
  predicate Within(cfg: Config, age: real) { age < cfg.ttl || age < 0.2 }

  /**
   A request is served exactly if the last snapshot is of its path and was stored within the window
   with nothing invalidated since it was begun, or, if stale ones are allowed, within the bound on
   stale ones.  (While the clock has not passed the window, an invalidated one counts as fresh.)
   */
  lemma ServedExactly(cfg: Config, steps: seq<Step>, path: Path, now: real, allowStale: bool)
    requires Run(cfg, steps).Some? && Ticking(steps)
    ensures var served := Cached(cfg, Run(cfg, steps).value.cache, path, now, allowStale);
      match LastStored(cfg, steps)
      case Never => served == None
      case Last(at, stored, creds, untouched) =>
        && (served.Some? ==> served.value == creds)
        && (served.Some? <==>
              stored == path
              && (Within(cfg, now - (if untouched then at else 0.0)) || (allowStale && now - at < cfg.staleMax)))
  {
    hide Run, LastStored;
    CacheHoldsLast(cfg, steps);
  }

  // ---------- the last refresh ----------

  /** When the last refresh was started. */
  function LastStart(cfg: Config, steps: seq<Step>): Option<real>
    requires Run(cfg, steps).Some?
  {
    if steps == [] then None
    else
      var front, e := steps[..|steps| - 1], steps[|steps| - 1];
      if e.Schedule? && Starts(cfg, front, e.now) then Some(e.now) else LastStart(cfg, front)
  }

  /** A refresh is due: there is a snapshot, no refresher is running, and the last one was not started just now. */
  ghost predicate Due(cfg: Config, steps: seq<Step>, now: real)
    requires Run(cfg, steps).Some?
  {
    var s := Run(cfg, steps).value;
    && LastStored(cfg, steps).Last? && LastStored(cfg, steps).path != []
    && (forall t :: t in s.procs ==> !IsRefresher(s.procs[t]))
    && match LastStart(cfg, steps)
       case None => now >= 0.0
       case Some(at) => now >= at + Max(0.5, cfg.ttl)
  }

  /** Whether a refresh is started. */
  predicate Starts(cfg: Config, steps: seq<Step>, now: real)
    requires Run(cfg, steps).Some?
  {
    JobFor(Run(cfg, steps).value.cache, now).Some?
  }

  lemma {:induction false} NotBeforeIs(cfg: Config, steps: seq<Step>)
    requires Run(cfg, steps).Some?
    ensures Run(cfg, steps).value.cache.refreshNotBefore ==
      match LastStart(cfg, steps)
      case None => 0.0
      case Some(at) => at + Max(0.5, cfg.ttl)
  {
    hide At, Cached, Max;
    if steps != [] { NotBeforeIs(cfg, steps[..|steps| - 1]); }
  }

  /**
   A refresh is started exactly if it is due; the new refresher then reads the path of the snapshot at
   the current generation, and otherwise no thread but the one that asked moves.
   */
  lemma StartsExactly(cfg: Config, steps: seq<Step>, t: nat, now: real, child: nat)
    requires Run(cfg, steps).Some? && Ticking(steps) && Enabled(cfg, Run(cfg, steps).value, Schedule(t, now, child))
    ensures var s := Run(cfg, steps).value;
      var s' := Taken(cfg, s, Schedule(t, now, child));
      && (Starts(cfg, steps, now) <==> Due(cfg, steps, now))
      && (if Due(cfg, steps, now) then ProcOf(s', child) == Refreshing(LastStored(cfg, steps).path, Invalidates(steps))
          else s'.procs == s.procs[t := Free])
  {
    hide Run, LastStored, LastStart, At, Cached, Max;
    CacheHoldsLast(cfg, steps);
    NotBeforeIs(cfg, steps);
    RunKeeps(cfg, steps);
    FlagIs(Run(cfg, steps).value);
  }

  lemma FlagIs(s: Sys)
    requires Inv(s)
    ensures s.cache.refreshing <==> exists t :: t in s.procs && IsRefresher(s.procs[t])
  {
    hide ProcOk, CacheOk;
  }
}
