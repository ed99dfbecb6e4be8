/**
 The live-credentials cache (auth.py): one snapshot of the account store shared by writers,
 request threads that build it, and background refreshers.

 Every lock section is one function of the cache; `Sys` interleaves the sections of any number of
 threads.  A writer commits to the primary store and then invalidates, as the PostgreSQL branches
 of auth_store.py do.  A read of the primary store may fail: then the file mirror answers with an
 earlier state, or nothing does and the snapshot is empty.  The source stores such a snapshot like
 any other.
 */
module LiveCreds {
  import opened Texts

  type Path = Text

  /** One write to the account store; no two are the same. */
  datatype Entry = Entry(path: Path, id: nat)

  /** What the store holds for a path: the writes made to it, in order. */
  function At(log: seq<Entry>, path: Path): seq<Entry> {
    if log == [] then []
    else
      var w := log[|log| - 1];
      At(log[..|log| - 1], path) + (if w.path == path then [w] else [])
  }

  lemma {:induction false} AtHolds(log: seq<Entry>, path: Path)
    ensures forall w :: w in At(log, path) <==> w in log && w.path == path
  {
    if log != [] {
      AtHolds(log[..|log| - 1], path);
      assert forall w :: w in log <==> w in log[..|log| - 1] || w == log[|log| - 1];
    }
  }

  // ---------- the lock sections ----------

  datatype Config = Config(ttl: real, staleMax: real)

  function Max(a: real, b: real): real { if a < b then b else a }

  /** How long a snapshot is fresh. */
  function Window(cfg: Config): real { Max(0.2, cfg.ttl) }

  /** Clock readings of 0 stand for "never", as in the source. */
  datatype Cache = Cache(
    path: Path, creds: Option<seq<Entry>>, at: real, loadedAt: real,
    generation: nat, refreshing: bool, refreshNotBefore: real)

  const EMPTY: Cache := Cache([], None, 0.0, 0.0, 0, false, 0.0)

  /** `invalidate_live_credentials_cache`, its lock section. */
  function Invalidated(c: Cache, now: real): Cache {
    c.(at := 0.0, generation := c.generation + 1,
       loadedAt := if c.creds.Some? && c.loadedAt == 0.0 then (if c.at != 0.0 then c.at else now) else c.loadedAt)
  }

  /** `_store_live_credentials_snapshot`. */
  function Stored(c: Cache, path: Path, creds: seq<Entry>, generation: nat, now: real): Cache {
    c.(path := path, creds := Some(creds), loadedAt := now,
       at := if c.generation == generation then now else 0.0)
  }

  datatype Job = Job(path: Path, generation: nat)

  /** The refresh that `_schedule_live_credentials_refresh` starts, if any. */
  function JobFor(c: Cache, now: real): Option<Job> {
    if c.path == [] || c.creds.None? || c.refreshing || now < c.refreshNotBefore then None
    else Some(Job(c.path, c.generation))
  }

  /** `_schedule_live_credentials_refresh`, its lock section. */
  function Scheduled(cfg: Config, c: Cache, now: real): Cache {
    if JobFor(c, now).None? then c
    else c.(refreshing := true, refreshNotBefore := now + Max(0.5, cfg.ttl))
  }

  /** `get_cached_live_credentials`: the snapshot, if it is fresh, or stale but allowed. */
  function Cached(cfg: Config, c: Cache, path: Path, now: real, allowStale: bool): Option<seq<Entry>> {
    var loadedAt := if c.loadedAt != 0.0 then c.loadedAt else if c.at != 0.0 then c.at else now;
    if c.path == path && (now - c.at < Window(cfg) || (allowStale && now - loadedAt < cfg.staleMax)) then c.creds
    else None
  }

  // ---------- threads ----------

  /** Where a snapshot comes from: the primary store, or, when that failed, its state after `n` writes. */
  datatype Origin = Primary | Fallback(n: nat)

  /** Where a thread is between two lock sections. */
  datatype Proc =
    | Free
    | Wrote(w: Entry)                                             // store written, invalidate to come
    | ToSchedule                                                  // `_schedule_...` to come
    | Building(path: Path, generation: nat)                       // request thread: generation read
    | Built(path: Path, generation: nat, creds: seq<Entry>, origin: Origin)       // request thread: store read
    | Refreshing(path: Path, generation: nat)                     // refresher started
    | Refreshed(path: Path, generation: nat, creds: seq<Entry>, origin: Origin)   // refresher: store read
    | Closing                                                     // refresher: flag to clear

  predicate IsRefresher(p: Proc) { p.Refreshing? || p.Refreshed? || p.Closing? }

  /**
   The store, the writes whose invalidate has completed, the cache, where its snapshot comes from,
   and the threads.
   */
  datatype Sys = Sys(log: seq<Entry>, completed: set<Entry>, cache: Cache, origin: Origin, procs: map<nat, Proc>)

  const INIT: Sys := Sys([], {}, EMPTY, Primary, map[])

  function ProcOf(s: Sys, t: nat): Proc { if t in s.procs then s.procs[t] else Free }

  /** One atomic step of thread `t`. */
  datatype Step =
    | Write(t: nat, w: Entry)
    | Invalidate(t: nat, now: real)
    | Schedule(t: nat, now: real, child: nat)
    | ServeStale(t: nat, path: Path, now: real)
    | ReadGeneration(t: nat, path: Path)
    | ReadStore(t: nat)
    | FallBack(t: nat, n: nat)
    | Crash(t: nat)
    | Store(t: nat, now: real)
    | Close(t: nat)

  /** Whether a step can be taken. */
  predicate Enabled(cfg: Config, s: Sys, e: Step) {
    var p := ProcOf(s, e.t);
    match e
    case Write(_, w) => p.Free? && w !in s.log
    case Invalidate(_, _) => p.Wrote?
    case Schedule(t, _, child) => p.ToSchedule? && child != t && ProcOf(s, child).Free?
    case ServeStale(_, path, now) => p.Free? && Cached(cfg, s.cache, path, now, true).Some?
    case ReadGeneration(_, path) => p.Free?
    case ReadStore(_) => p.Building? || p.Refreshing?
    case FallBack(_, n) => (p.Building? || p.Refreshing?) && n <= |s.log|
    case Crash(_) => p.Building? || p.Refreshing?
    case Store(_, _) => p.Built? || p.Refreshed?
    case Close(_) => p.Closing?
  }

  function AfterRead(p: Proc, creds: seq<Entry>, origin: Origin): Proc
    requires p.Building? || p.Refreshing?
  {
    if p.Building? then Built(p.path, p.generation, creds, origin) else Refreshed(p.path, p.generation, creds, origin)
  }

  function Goto(s: Sys, t: nat, p: Proc): Sys { s.(procs := s.procs[t := p]) }

  function Taken(cfg: Config, s: Sys, e: Step): Sys
    requires Enabled(cfg, s, e)
  {
    var p := ProcOf(s, e.t);
    match e
    case Write(t, w) => Goto(s, t, Wrote(w)).(log := s.log + [w])
    case Invalidate(t, now) =>
      Goto(s, t, if s.cache.creds.Some? then ToSchedule else Free)
      .(cache := Invalidated(s.cache, now), completed := s.completed + {p.w})
    case Schedule(t, now, child) =>
      var s1 := Goto(s, t, Free).(cache := Scheduled(cfg, s.cache, now));
      (match JobFor(s.cache, now)
       case None => s1
       case Some(job) => Goto(s1, child, Refreshing(job.path, job.generation)))
    case ServeStale(t, _, _) => Goto(s, t, ToSchedule)
    case ReadGeneration(t, path) => Goto(s, t, Building(path, s.cache.generation))
    case ReadStore(t) => Goto(s, t, AfterRead(p, At(s.log, p.path), Primary))
    case FallBack(t, n) => Goto(s, t, AfterRead(p, At(s.log[..n], p.path), Fallback(n)))
    case Crash(t) => Goto(s, t, if p.Building? then Free else Closing)
    case Store(t, now) =>
      Goto(s, t, if p.Built? then Free else Closing)
      .(cache := Stored(s.cache, p.path, p.creds, p.generation, now), origin := p.origin)
    case Close(t) => Goto(s, t, Free).(cache := s.cache.(refreshing := false))
  }

  /** Where a run of steps leads, if each can be taken. */
  function Run(cfg: Config, steps: seq<Step>): Option<Sys> {
    if steps == [] then Some(INIT)
    else
      var r := Run(cfg, steps[..|steps| - 1]);
      var e := steps[|steps| - 1];
      if r.Some? && Enabled(cfg, r.value, e) then Some(Taken(cfg, r.value, e)) else None
  }

  // ---------- what every run keeps ----------

  /** `creds` has every completed write to `path`. */
  ghost predicate Current(s: Sys, path: Path, creds: seq<Entry>) {
    forall w :: w in s.completed && w.path == path ==> w in creds
  }

  /** `creds` is what the store held for `path` at some time, and if its origin is a fallback, when. */
  ghost predicate Whole(s: Sys, path: Path, creds: seq<Entry>, origin: Origin) {
    exists n :: 0 <= n <= |s.log| && creds == At(s.log[..n], path) && (origin.Fallback? ==> n == origin.n)
  }

  /** A thread that carries a snapshot of the primary store and of the current generation carries a current one. */
  ghost predicate SnapshotOk(s: Sys, path: Path, g: nat, creds: seq<Entry>, origin: Origin) {
    && g <= s.cache.generation && Whole(s, path, creds, origin)
    && (g == s.cache.generation && origin.Primary? ==> Current(s, path, creds))
  }

  ghost predicate ProcOk(s: Sys, p: Proc) {
    match p
    case Wrote(w) => w in s.log
    case Building(_, g) => g <= s.cache.generation
    case Refreshing(_, g) => g <= s.cache.generation
    case Built(path, g, creds, origin) => SnapshotOk(s, path, g, creds, origin)
    case Refreshed(path, g, creds, origin) => SnapshotOk(s, path, g, creds, origin)
    case _ => true
  }

  ghost predicate CacheOk(s: Sys) {
    && (s.cache.creds.Some? ==> Whole(s, s.cache.path, s.cache.creds.value, s.origin))
    && (s.cache.creds.None? ==> s.cache.at == 0.0)
    && (s.cache.at != 0.0 && s.origin.Primary? ==> s.cache.creds.Some? && Current(s, s.cache.path, s.cache.creds.value))
  }

  /** At most one refresher, and the flag tells whether there is one. */
  ghost predicate OneRefresher(s: Sys) {
    && (forall t, u :: t in s.procs && u in s.procs && IsRefresher(s.procs[t]) && IsRefresher(s.procs[u]) ==> t == u)
    && (s.cache.refreshing <==> exists t :: t in s.procs && IsRefresher(s.procs[t]))
  }

  ghost predicate Inv(s: Sys) {
    && (forall w :: w in s.completed ==> w in s.log)
    && (forall t :: t in s.procs ==> ProcOk(s, s.procs[t]))
    && CacheOk(s) && OneRefresher(s)
  }

  lemma WholeLater(s: Sys, s': Sys, path: Path, creds: seq<Entry>, origin: Origin)
    requires Whole(s, path, creds, origin) && s.log <= s'.log
    ensures Whole(s', path, creds, origin)
  {
    var n :| 0 <= n <= |s.log| && creds == At(s.log[..n], path) && (origin.Fallback? ==> n == origin.n);
    assert s'.log[..n] == s.log[..n];
  }

  lemma SnapshotLater(s: Sys, s': Sys, path: Path, g: nat, creds: seq<Entry>, origin: Origin)
    requires SnapshotOk(s, path, g, creds, origin) && s.log <= s'.log && s.cache.generation <= s'.cache.generation
    requires s.cache.generation == s'.cache.generation ==> s'.completed == s.completed
    ensures SnapshotOk(s', path, g, creds, origin)
  {
    hide Whole;
    WholeLater(s, s', path, creds, origin);
  }

  /** Nothing of the shared state but the log grows. */
  lemma ProcOkLater(s: Sys, s': Sys, p: Proc)
    requires ProcOk(s, p) && s.log <= s'.log && s.cache.generation <= s'.cache.generation
    requires s.cache.generation == s'.cache.generation ==> s'.completed == s.completed
    ensures ProcOk(s', p)
  {
    hide SnapshotOk;
    if p.Built? { SnapshotLater(s, s', p.path, p.generation, p.creds, p.origin); }
    if p.Refreshed? { SnapshotLater(s, s', p.path, p.generation, p.creds, p.origin); }
    if p.Wrote? { assert p.w in s'.log; }
  }

  /** A read of the primary store has every write, and a fallback is an earlier state. */
  lemma ReadIsOk(s: Sys, path: Path, g: nat)
    requires (forall w :: w in s.completed ==> w in s.log) && g <= s.cache.generation
    ensures SnapshotOk(s, path, g, At(s.log, path), Primary)
    ensures forall n: nat :: n <= |s.log| ==> SnapshotOk(s, path, g, At(s.log[..n], path), Fallback(n))
  {
    hide At;
    AtHolds(s.log, path);
    assert s.log[..|s.log|] == s.log;
  }

  /** Moving thread `t` between states that are not a refresher's. */
  lemma MoveKeepsOne(s: Sys, s': Sys, t: nat, p: Proc)
    requires OneRefresher(s) && s'.procs == s.procs[t := p] && s'.cache.refreshing == s.cache.refreshing
    requires IsRefresher(p) == IsRefresher(ProcOf(s, t))
    ensures OneRefresher(s')
  {
    if exists u :: u in s.procs && IsRefresher(s.procs[u]) {
      var u :| u in s.procs && IsRefresher(s.procs[u]);
      assert u in s'.procs && IsRefresher(s'.procs[u]);
    }
  }

  lemma StepKeeps(cfg: Config, s: Sys, e: Step)
    requires Inv(s) && Enabled(cfg, s, e)
    ensures Inv(Taken(cfg, s, e))
  {
    hide Whole, Current, At, Cached, OneRefresher;
    StepKeepsLogged(cfg, s, e);
    StepKeepsProcs(cfg, s, e);
    StepKeepsCache(cfg, s, e);
    StepKeepsOne(cfg, s, e);
  }

  lemma StepKeepsLogged(cfg: Config, s: Sys, e: Step)
    requires Inv(s) && Enabled(cfg, s, e)
    ensures var s' := Taken(cfg, s, e);
      && (forall w :: w in s'.completed ==> w in s'.log)
      && s.log <= s'.log && s.cache.generation <= s'.cache.generation
      && (s.cache.generation == s'.cache.generation ==> s'.completed == s.completed)
  {
    hide Whole, Current, At, Cached, OneRefresher, CacheOk;
  }

  lemma StepKeepsProcs(cfg: Config, s: Sys, e: Step)
    requires Inv(s) && Enabled(cfg, s, e)
    ensures var s' := Taken(cfg, s, e); forall t :: t in s'.procs ==> ProcOk(s', s'.procs[t])
  {
    hide Whole, Current, At, Cached, OneRefresher, CacheOk;
    var s' := Taken(cfg, s, e);
    StepKeepsLogged(cfg, s, e);
    var p := ProcOf(s, e.t);
    forall t | t in s.procs ensures ProcOk(s', s.procs[t]) {
      hide ProcOk, Taken, Enabled;
      ProcOkLater(s, s', s.procs[t]);
    }
    if e.ReadStore? || e.FallBack? {
      ReadIsOk(s, p.path, p.generation);
      ProcOkLater(s, s', s'.procs[e.t]);
    }
    if e.Write? { assert e.w in s'.log; }
  }

  lemma SameCompleted(s: Sys, s': Sys, path: Path, creds: seq<Entry>)
    requires Current(s, path, creds) && s'.completed == s.completed
    ensures Current(s', path, creds)
  {
  }

  lemma StepKeepsCache(cfg: Config, s: Sys, e: Step)
    requires Inv(s) && Enabled(cfg, s, e)
    ensures CacheOk(Taken(cfg, s, e))
  {
    hide Whole, Current, At, Cached, OneRefresher;
    var s' := Taken(cfg, s, e);
    StepKeepsLogged(cfg, s, e);
    var p := ProcOf(s, e.t);
    if s.cache.creds.Some? {
      WholeLater(s, s', s.cache.path, s.cache.creds.value, s.origin);
      if s.completed == s'.completed && s.cache.at != 0.0 && s.origin.Primary? {
        SameCompleted(s, s', s.cache.path, s.cache.creds.value);
      }
    }
    if e.Store? {
      assert ProcOk(s, s.procs[e.t]);
      WholeLater(s, s', p.path, p.creds, p.origin);
      if p.generation == s.cache.generation && p.origin.Primary? { SameCompleted(s, s', p.path, p.creds); }
    }
  }

  lemma StepKeepsOne(cfg: Config, s: Sys, e: Step)
    requires Inv(s) && Enabled(cfg, s, e)
    ensures OneRefresher(Taken(cfg, s, e))
  {
    hide Whole, Current, At, Cached, CacheOk;
    var s' := Taken(cfg, s, e);
    if e.Close? {
      assert e.t in s.procs && IsRefresher(s.procs[e.t]);
    } else if e.Schedule? && JobFor(s.cache, e.now).Some? {
      assert e.child in s'.procs && IsRefresher(s'.procs[e.child]);
    } else {
      MoveKeepsOne(s, s', e.t, s'.procs[e.t]);
    }
  }

  lemma {:induction false} RunKeeps(cfg: Config, steps: seq<Step>)
    requires Run(cfg, steps).Some?
    ensures Inv(Run(cfg, steps).value)
  {
    hide Inv, Enabled, Taken;
    if steps == [] {
      InitOk();
    } else {
      RunKeeps(cfg, steps[..|steps| - 1]);
      StepKeeps(cfg, Run(cfg, steps[..|steps| - 1]).value, steps[|steps| - 1]);
    }
  }

  lemma InitOk()
    ensures Inv(INIT)
  {
  }

  /** The writes to `path` that a snapshot of the store after `n` writes does not have. */
  ghost predicate Missed(s: Sys, path: Path, n: nat) {
    exists w :: w in s.completed && w.path == path && (n > |s.log| || w !in s.log[..n])
  }

  lemma FallbackMisses(s: Sys, path: Path, n: nat)
    requires n <= |s.log|
    ensures Current(s, path, At(s.log[..n], path)) <==> !Missed(s, path, n)
  {
    hide At;
    AtHolds(s.log[..n], path);
  }

  /**
   After any interleaving a snapshot served as fresh is what the store held at some time.  If it was
   read from the primary store it has every write whose invalidate had completed.  If that read had
   failed and the state after `n` writes was stored instead, it has them exactly when no completed
   write came after those.  At most one refresher is running.  The clock must have passed the length
   of the window, since 0 stands for "never".
   */
  lemma FreshIsCurrent(cfg: Config, steps: seq<Step>, path: Path, now: real)
    requires Run(cfg, steps).Some? && now >= Window(cfg)
    ensures var s := Run(cfg, steps).value;
      && (Cached(cfg, s.cache, path, now, false).Some? ==>
            var creds := Cached(cfg, s.cache, path, now, false).value;
            && Whole(s, path, creds, s.origin)
            && (Current(s, path, creds) <==> s.origin.Primary? || !Missed(s, path, s.origin.n)))
      && (Cached(cfg, s.cache, path, now, true).Some? ==>
            Whole(s, path, Cached(cfg, s.cache, path, now, true).value, s.origin))
      && (forall t, u :: t in s.procs && u in s.procs && IsRefresher(s.procs[t]) && IsRefresher(s.procs[u]) ==> t == u)
  {
    hide Current, Run, At, Missed;
    RunKeeps(cfg, steps);
    var s := Run(cfg, steps).value;
    if s.origin.Fallback? && s.origin.n <= |s.log| { FallbackMisses(s, path, s.origin.n); }
  }

  /** No snapshot in a run without failed reads comes from a fallback. */
  ghost predicate FromPrimary(s: Sys) {
    && s.origin.Primary?
    && forall t :: t in s.procs ==>
         && (s.procs[t].Built? ==> s.procs[t].origin.Primary?)
         && (s.procs[t].Refreshed? ==> s.procs[t].origin.Primary?)
  }

  lemma {:induction false} NoFallback(cfg: Config, steps: seq<Step>)
    requires Run(cfg, steps).Some? && forall i :: 0 <= i < |steps| ==> !steps[i].FallBack?
    ensures FromPrimary(Run(cfg, steps).value)
  {
    hide At, Cached;
    if steps != [] {
      NoFallback(cfg, steps[..|steps| - 1]);
    }
  }

  /** Without failed reads every snapshot served as fresh has every completed write. */
  lemma FreshIsAlwaysCurrent(cfg: Config, steps: seq<Step>, path: Path, now: real)
    requires Run(cfg, steps).Some? && now >= Window(cfg) && forall i :: 0 <= i < |steps| ==> !steps[i].FallBack?
    ensures var s := Run(cfg, steps).value;
      Cached(cfg, s.cache, path, now, false).Some? ==> Current(s, path, Cached(cfg, s.cache, path, now, false).value)
  {
    hide Run, Current, Whole, Cached;
    FreshIsCurrent(cfg, steps, path, now);
    NoFallback(cfg, steps);
  }

  lemma RunOne(cfg: Config, steps: seq<Step>, e: Step)
    requires Run(cfg, steps).Some? && Enabled(cfg, Run(cfg, steps).value, e)
    ensures Run(cfg, steps + [e]) == Some(Taken(cfg, Run(cfg, steps).value, e))
  {
    hide Taken, Enabled;
    assert (steps + [e])[..|steps|] == steps;
  }

  lemma RunNothing(cfg: Config)
    ensures Run(cfg, []) == Some(INIT)
  {
  }

  lemma RunFive(cfg: Config, a: Step, b: Step, c: Step, d: Step, e: Step) returns (steps: seq<Step>)
    requires Enabled(cfg, INIT, a)
    requires Enabled(cfg, Taken(cfg, INIT, a), b)
    requires Enabled(cfg, Taken(cfg, Taken(cfg, INIT, a), b), c)
    requires Enabled(cfg, Taken(cfg, Taken(cfg, Taken(cfg, INIT, a), b), c), d)
    requires Enabled(cfg, Taken(cfg, Taken(cfg, Taken(cfg, Taken(cfg, INIT, a), b), c), d), e)
    ensures Run(cfg, steps) == Some(Taken(cfg, Taken(cfg, Taken(cfg, Taken(cfg, Taken(cfg, INIT, a), b), c), d), e))
  {
    hide Run, Taken, Enabled;
    RunNothing(cfg);
    RunOne(cfg, [], a);
    RunOne(cfg, [] + [a], b);
    RunOne(cfg, [] + [a] + [b], c);
    RunOne(cfg, [] + [a] + [b] + [c], d);
    RunOne(cfg, [] + [a] + [b] + [c] + [d], e);
    steps := [] + [a] + [b] + [c] + [d] + [e];
  }

  /** A failed read is stored as an empty snapshot that is served as fresh, though a write to it was complete. */
  lemma FailedReadServesNothing(cfg: Config, now: real, w: Entry) returns (steps: seq<Step>)
    requires now >= Window(cfg)
    ensures Run(cfg, steps).Some?
    ensures var s := Run(cfg, steps).value;
      w in s.completed && Cached(cfg, s.cache, w.path, now, false) == Some([])
  {
    hide Run;
    steps := RunFive(cfg, Write(1, w), Invalidate(1, now), ReadGeneration(0, w.path), FallBack(0, 0), Store(0, now));
  }

  /** Before the clock has passed the window, an invalidated snapshot still counts as fresh. */
  lemma EarlyClockServesOld(cfg: Config, now: real, w: Entry) returns (steps: seq<Step>)
    requires now < Window(cfg)
    ensures Run(cfg, steps).Some?
    ensures var s := Run(cfg, steps).value;
      w in s.completed && s.origin.Primary? && Cached(cfg, s.cache, w.path, now, false) == Some([])
  {
    hide Run;
    steps := RunFive(cfg, ReadGeneration(0, w.path), ReadStore(0), Store(0, now), Write(1, w), Invalidate(1, now));
  }
}
