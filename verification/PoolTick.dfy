/** What one monitor tick keeps and achieves: roles and builds, the meaning of its counters, hand-over on critical
    latency, and what the timeout detector is told. */
module PoolTick {
  import opened Wrappers
  import opened Registry
  import opened PoolRoles
  import opened TimeoutDetector
  import opened PoolMonitor

  // ---- roles and builds -------------------------------------------------------------------

  lemma RotateByAgeKeeps<K>(c: Core<K>, w: World<K>)
    requires RolesInv(c, w.alive, w.max)
    ensures var (c', out) := RotateByAge(c, w);
            && RolesInv(c', w.alive, w.max) && Drifts(c, c', w.alive, AsSet(out))
            && (PrimaryOf(c, w).Some? ==> PrimaryOf(c', w).Some?)
  {
    RotatePrimaryKeeps(c, w);
  }

  lemma KeepPrimaryKeepsRoles<K>(c: Core<K>, w: World<K>, a: Phases<K>)
    requires RolesInv(c, a.prune, w.max) && Shrinking(a)
    ensures var (c', byAge) := KeepPrimary(c, w, a);
            RolesInv(c', a.age, w.max) && Drifts(Prune(c, At(w, a.prune)), c', a.ensure, AsSet(byAge))
  {
    var c1 := Prune(c, At(w, a.prune));
    PruneKeepsRoles(c, At(w, a.prune));
    DeathsKeepRoles(c1, a.prune, a.ensure, w.max);
    var c2 := EnsurePrimary(c1, At(w, a.ensure));
    EnsurePrimaryEnsures(c1, At(w, a.ensure));
    DeathsKeepRoles(c2, a.ensure, a.age, w.max);
    RotateByAgeKeeps(c2, At(w, a.age));
    DriftsFurther(c1, c2, KeepPrimary(c, w, a).0, a.ensure, a.age, {}, AsSet(KeepPrimary(c, w, a).1));
  }

  lemma WatchPressureKeepsRoles<K>(c: Core<K>, w: World<K>)
    requires RolesInv(c, w.alive, w.max)
    ensures RolesInv(WatchPressure(c, w).0, w.alive, w.max) && Drifts(c, WatchPressure(c, w).0, w.alive, {})
    ensures WatchPressure(c, w).0.conns == c.conns && WatchPressure(c, w).0.roles == c.roles
  {
    var c1 := c.(pressureTicks := WatchPressure(c, w).0.pressureTicks);
    assert RolesInv(c1, w.alive, w.max);
    ScheduledKeepsRoles(c1, w);
  }

  lemma WatchLatencyKeepsRoles<K>(c: Core<K>, w: World<K>)
    requires RolesInv(c, w.alive, w.max)
    ensures RolesInv(WatchLatency(c, w).0, w.alive, w.max) && Drifts(c, WatchLatency(c, w).0, w.alive, {})
    ensures WatchLatency(c, w).0.conns == c.conns && WatchLatency(c, w).0.roles == c.roles
  {
    var c' := WatchLatency(c, w).0;
    var c1 := c.(latencyTicks := c'.latencyTicks, degraded := c'.degraded);
    assert RolesInv(c1, w.alive, w.max) && Drifts(c, c1, w.alive, {});
    ScheduledKeepsRoles(c1, w);
  }

  lemma WatchLoadKeepsRoles<K>(c: Core<K>, w: World<K>, a: Phases<K>)
    requires RolesInv(c, a.age, w.max) && Shrinking(a)
    ensures var c' := WatchLoad(c, w, a).0;
            RolesInv(c', a.latency, w.max) && Drifts(c, c', a.age, {}) && c'.conns == c.conns && c'.roles == c.roles
  {
    DeathsKeepRoles(c, a.age, a.pressure, w.max);
    var c1 := WatchPressure(c, At(w, a.pressure)).0;
    WatchPressureKeepsRoles(c, At(w, a.pressure));
    DeathsKeepRoles(c1, a.pressure, a.latency, w.max);
    WatchLatencyKeepsRoles(c1, At(w, a.latency));
    assert Drifts(c, c1, a.age, {});
    DriftsFurther(c, c1, WatchLoad(c, w, a).0, a.age, a.latency, {}, {});
  }

  lemma WatchCriticalKeepsRoles<K>(c: Core<K>, w: World<K>)
    requires RolesInv(c, w.alive, w.max)
    ensures var (c', _, out) := WatchCritical(c, w);
            && RolesInv(c', w.alive, w.max) && Drifts(c, c', w.alive, AsSet(out))
            && (out.Some? ==> out == PrimaryOf(c, w) && PrimaryOf(c', w) != out)
            && (PrimaryOf(c, w).Some? ==> PrimaryOf(c', w).Some?)
  {
    var c1 := c.(criticalTicks := WatchCritical(c, w).0.criticalTicks);
    assert RolesInv(c1, w.alive, w.max);
    RotatePrimaryKeeps(c1, w);
  }

  lemma EnsureStandbysFills<K>(c: Core<K>, w: World<K>)
    requires RolesInv(c, w.alive, w.max)
    ensures var c' := EnsureStandbys(c, w);
            RolesInv(c', w.alive, w.max) && c' == c.(builds := c'.builds)
            && (w.live ==> |c'.conns| + c'.builds.pending >= w.max)
  {
    if w.live { EnsureBuildsFills(c.builds, |c.conns|, w.max); }
  }

  lemma AfterPruneKeepsRoles<K>(c: Core<K>, w: World<K>, a: Phases<K>)
    requires RolesInv(c, a.prune, w.max) && Shrinking(a)
    ensures var (c', byAge, byLatency) := Tick(c, w, a);
            && RolesInv(c', a.critical, w.max)
            && Drifts(Prune(c, At(w, a.prune)), c', a.ensure, AsSet(byAge) + AsSet(byLatency))
            && (w.live ==> |c'.conns| + c'.builds.pending >= w.max)
  {
    var c0 := Prune(c, At(w, a.prune));
    var (c1, byAge) := KeepPrimary(c, w, a);
    KeepPrimaryKeepsRoles(c, w, a);
    var c2 := WatchLoad(c1, w, a).0;
    WatchLoadKeepsRoles(c1, w, a);
    DriftsFurther(c0, c1, c2, a.ensure, a.age, AsSet(byAge), {});
    DeathsKeepRoles(c2, a.latency, a.critical, w.max);
    var (c3, _, byLatency) := WatchCritical(c2, Later(w, a));
    WatchCriticalKeepsRoles(c2, Later(w, a));
    DriftsFurther(c0, c2, c3, a.ensure, a.critical, AsSet(byAge), AsSet(byLatency));
    var c4 := c3.(seen := Tick(c, w, a).0.seen);
    assert RolesInv(c4, a.critical, w.max);
    EnsureStandbysFills(c4, Later(w, a));
  }

  /** A whole tick, with connections dying between its stages, keeps at most one live primary, keeps the build
      ledger, plans the close of exactly the connections it demotes, never readmits a draining connection and, while
      the context is live, ends with every place in the pool taken or being built. */
  lemma TickKeepsRoles<K>(c: Core<K>, w: World<K>, a: Phases<K>)
    requires RolesInv(c, a.prune, w.max) && Shrinking(a)
    ensures var (c', byAge, byLatency) := Tick(c, w, a);
            && RolesInv(c', a.critical, w.max) && Drifts(c, c', a.prune, AsSet(byAge) + AsSet(byLatency))
            && (w.live ==> |c'.conns| + c'.builds.pending >= w.max)
  {
    PruneKeepsRoles(c, At(w, a.prune));
    AfterPruneKeepsRoles(c, w, a);
    var (c', byAge, byLatency) := Tick(c, w, a);
    DriftsFurther(c, Prune(c, At(w, a.prune)), c', a.prune, a.ensure, {}, AsSet(byAge) + AsSet(byLatency));
  }

  /** When nobody dies during the tick, it ends with a live primary exactly when it began with a live connection that
      was not draining. */
  lemma TickLeavesPrimary<K>(c: Core<K>, w: World<K>, a: Phases<K>)
    requires RolesInv(c, w.alive, w.max) && a == Phases(w.alive, w.alive, w.alive, w.alive, w.alive, w.alive, a.writes)
    ensures HasUsable(c, w) ==> PrimaryOf(Tick(c, w, a).0, w).Some?
  {
    assert At(w, w.alive) == w;
    PruneKeepsRoles(c, w);
    var c1 := Prune(c, w);
    if HasUsable(c, w) {
      var k :| k in c.conns && LiveUsable(w.alive, c.roles.role, k);
      assert k in c1.conns && HasUsable(c1, w);
    }
    EnsurePrimaryEnsures(c1, w);
    RotateByAgeKeeps(EnsurePrimary(c1, w), w);
    KeepPrimaryKeepsRoles(c, w, a);
    WatchLoadKeepsRoles(KeepPrimary(c, w, a).0, w, a);
    WatchCriticalKeepsRoles(WatchLoad(KeepPrimary(c, w, a).0, w, a).0, Later(w, a));
  }

  // ---- counters ---------------------------------------------------------------------------

  /** How many of the latest ticks in a row saw `k`. */
  function TrailingRun(seen: seq<Observation>, k: Kind): (n: nat)
    ensures n <= |seen|
  {
    if seen == [] || !Holds(seen[|seen| - 1], k) then 0 else 1 + TrailingRun(seen[..|seen| - 1], k)
  }

  /** The run ends the history, all of it saw `k`, and the tick before it did not. */
  lemma {:induction false} TrailingRunIsMaximal(seen: seq<Observation>, k: Kind)
    ensures var n := TrailingRun(seen, k);
            && n <= |seen| && (forall i :: |seen| - n <= i < |seen| ==> Holds(seen[i], k))
            && (n < |seen| ==> !Holds(seen[|seen| - n - 1], k))
  {
    if seen != [] && Holds(seen[|seen| - 1], k) {
      TrailingRunIsMaximal(seen[..|seen| - 1], k);
    }
  }

  lemma TrailingRunStep(seen: seq<Observation>, o: Observation, k: Kind)
    ensures TrailingRun(seen + [o], k) == Bump(TrailingRun(seen, k), Holds(o, k))
  {
    assert (seen + [o])[..|seen|] == seen;
  }

  /** Each counter is the length of the run of latest ticks whose primary met its threshold. */
  ghost predicate TicksInv<K>(c: Core<K>) {
    match c
    case Core(_, _, _, _, _, pressure, latency, critical, seen, _, _) =>
      && pressure == TrailingRun(seen, Pressure) && latency == TrailingRun(seen, High)
      && critical == TrailingRun(seen, Critical)
  }

  /** The critical run is no longer than the high one exactly when every tick of it read at least the high mark at its
      latency stage. */
  lemma CriticalTicksAreFewerIff<K>(c: Core<K>)
    requires TicksInv(c)
    ensures c.criticalTicks <= c.latencyTicks
       <==> forall i :: |c.seen| - c.criticalTicks <= i < |c.seen| ==> c.seen[i].high
  {
    TrailingRunIsMaximal(c.seen, High);
    TrailingRunIsMaximal(c.seen, Critical);
    if c.latencyTicks < c.criticalTicks {
      assert !Holds(c.seen[|c.seen| - c.latencyTicks - 1], High);
    } else {
      forall i | |c.seen| - c.criticalTicks <= i < |c.seen| ensures c.seen[i].high {
        assert Holds(c.seen[i], High);
      }
    }
  }

  lemma OnlyPrimaryIsFound<K>(conns: seq<K>, alive: set<K>, role: map<K, Role>, k: K)
    requires SinglePrimary(conns, alive, role) && k in conns && LivePrimary(alive, role, k)
    ensures FirstWith(conns, alive, role, Primary) == Some(k)
  {
    FirstWithIs(conns, alive, role, Primary);
  }

  /** A primary found at the critical stage is the one the latency stage found. */
  lemma SamePrimaryLater<K>(c: Core<K>, w: World<K>, a: Phases<K>)
    requires RolesInv(c, a.age, w.max) && Shrinking(a)
    ensures var p := PrimaryOf(WatchLoad(c, w, a).0, Later(w, a));
            p.Some? ==> p == PrimaryOf(WatchPressure(c, At(w, a.pressure)).0, At(w, a.latency))
  {
    DeathsKeepRoles(c, a.age, a.pressure, w.max);
    WatchPressureKeepsRoles(c, At(w, a.pressure));
    WatchLoadKeepsRoles(c, w, a);
    FirstWithIs(c.conns, a.critical, c.roles.role, Primary);
    var p := PrimaryOf(WatchLoad(c, w, a).0, Later(w, a));
    if p.Some? {
      OnlyPrimaryIsFound(c.conns, a.latency, c.roles.role, p.value);
    }
  }

  /** Writes between the two readings lift somebody from below the high mark to the critical one. */
  ghost predicate Jumps<K>(w: World<K>, a: Phases<K>) {
    exists k :: k in a.critical && LatencyOf(w, k) < HIGH_WRITE_LATENCY
      && LatencyOf(Later(w, a), k) >= CRITICAL_WRITE_LATENCY
  }

  /** No average rises between the readings, or every write between them took less than the critical mark. */
  ghost predicate EvenReadings<K>(w: World<K>, a: Phases<K>) {
    || (forall k :: k in a.critical ==> LatencyOf(Later(w, a), k) <= LatencyOf(w, k))
    || (forall x :: x in a.writes ==> x.1 < CRITICAL_WRITE_LATENCY)
  }

  /** Then nobody jumps. */
  lemma EvenReadingsDoNotJump<K>(w: World<K>, a: Phases<K>)
    requires EvenReadings(w, a)
    ensures !Jumps(w, a)
  {
    if forall x :: x in a.writes ==> x.1 < CRITICAL_WRITE_LATENCY {
      forall k | k in a.critical && LatencyOf(w, k) < HIGH_WRITE_LATENCY
        ensures LatencyOf(Later(w, a), k) < CRITICAL_WRITE_LATENCY {
        ShortWritesStayBelow(w.latency, a.writes, k, CRITICAL_WRITE_LATENCY);
      }
    }
  }

  lemma {:induction false} ShortWritesStayBelow<K>(latency: map<K, int>, writes: seq<(K, int)>, k: K, mark: int)
    requires mark > 0 && (k in latency ==> latency[k] < mark) && forall x :: x in writes ==> x.1 < mark
    ensures k in AfterWrites(latency, writes) ==> AfterWrites(latency, writes)[k] < mark
    decreases |writes|
  {
    if writes != [] {
      assert writes[0] in writes;
      ShortWritesStayBelow(Measured(latency, writes[0].0, writes[0].1), writes[1..], k, mark);
    }
  }

  lemma OnlyJumpsDiffer<K>(c: Core<K>, w: World<K>, a: Phases<K>)
    requires RolesInv(c, a.age, w.max) && Shrinking(a)
    ensures var (c2, _, high) := WatchLoad(c, w, a);
            WatchCritical(c2, Later(w, a)).1 && !high ==> Jumps(w, a)
  {
    SamePrimaryLater(c, w, a);
    var (c2, _, high) := WatchLoad(c, w, a);
    var p := PrimaryOf(c2, Later(w, a));
    FirstWithIs(c2.conns, a.critical, c2.roles.role, Primary);
    if p.Some? && !high {
      assert LatencyOf(w, p.value) < HIGH_WRITE_LATENCY && p.value in a.critical;
    }
  }

  /** What the last three stages do to the counters, given the counters they start from. The primary they rotate is
      marked degraded exactly when it was before or the latency counter has reached its mark. */
  lemma WatchCounts<K>(c: Core<K>, w: World<K>, a: Phases<K>)
    requires RolesInv(c, a.age, w.max) && Shrinking(a)
    ensures var (c2, pressure, high) := WatchLoad(c, w, a);
            var (c3, critical, out) := WatchCritical(c2, Later(w, a));
            && c3.pressureTicks == Bump(c.pressureTicks, pressure) && c3.latencyTicks == Bump(c.latencyTicks, high)
            && c3.criticalTicks == Bump(c.criticalTicks, critical)
            && (critical && !high ==> Jumps(w, a))
            && (out.Some? ==> critical && c3.criticalTicks >= LATENCY_CRITICAL_TICKS)
            && (out.Some? ==> (out.value in c3.degraded <==>
                               out.value in c.degraded || c3.latencyTicks >= LATENCY_HIGH_SAMPLES))
  {
    SamePrimaryLater(c, w, a);
    OnlyJumpsDiffer(c, w, a);
    DeathsKeepRoles(WatchLoad(c, w, a).0, a.latency, a.critical, w.max) by { WatchLoadKeepsRoles(c, w, a); }
    WatchCriticalKeepsRoles(WatchLoad(c, w, a).0, Later(w, a));
  }

  lemma StagesBeforeKeepCounters<K>(c: Core<K>, w: World<K>, a: Phases<K>)
    ensures var c' := KeepPrimary(c, w, a).0;
            && c'.seen == c.seen && c'.pressureTicks == c.pressureTicks && c'.latencyTicks == c.latencyTicks
            && c'.criticalTicks == c.criticalTicks && c'.degraded == c.degraded
  {}

  lemma TickEffect<K>(c: Core<K>, w: World<K>, a: Phases<K>) returns (o: Observation)
    requires RolesInv(c, a.prune, w.max) && Shrinking(a)
    ensures var (c', _, out) := Tick(c, w, a);
            && c'.seen == c.seen + [o] && (o.critical && !o.high ==> Jumps(w, a))
            && c'.pressureTicks == Bump(c.pressureTicks, o.pressure) && c'.latencyTicks == Bump(c.latencyTicks, o.high)
            && c'.criticalTicks == Bump(c.criticalTicks, o.critical)
            && (out.Some? ==> o.critical && c'.criticalTicks >= LATENCY_CRITICAL_TICKS)
            && (out.Some? ==> (out.value in c'.degraded <==>
                               out.value in c.degraded || c'.latencyTicks >= LATENCY_HIGH_SAMPLES))
  {
    var c1 := KeepPrimary(c, w, a).0;
    KeepPrimaryKeepsRoles(c, w, a);
    StagesBeforeKeepCounters(c, w, a);
    WatchCounts(c1, w, a);
    var (c2, pressure, high) := WatchLoad(c1, w, a);
    o := Observation(pressure, high, WatchCritical(c2, Later(w, a)).1);
  }

  lemma CountersFollow<K>(c: Core<K>, c': Core<K>, o: Observation)
    requires TicksInv(c) && c'.seen == c.seen + [o]
    requires c'.pressureTicks == Bump(c.pressureTicks, o.pressure) && c'.latencyTicks == Bump(c.latencyTicks, o.high)
    requires c'.criticalTicks == Bump(c.criticalTicks, o.critical)
    ensures TicksInv(c')
  {
    TrailingRunStep(c.seen, o, Pressure);
    TrailingRunStep(c.seen, o, High);
    TrailingRunStep(c.seen, o, Critical);
  }

  /** The latest three ticks read at least the high mark at their latency stages. */
  ghost predicate ThreeHigh(seen: seq<Observation>) {
    |seen| >= 3 && forall i :: |seen| - 3 <= i < |seen| ==> seen[i].high
  }

  lemma ThreeHighIsARun(seen: seq<Observation>)
    ensures ThreeHigh(seen) <==> TrailingRun(seen, High) >= 3
  {
    TrailingRunIsMaximal(seen, High);
    var n := TrailingRun(seen, High);
    if n >= 3 {
      forall i | |seen| - 3 <= i < |seen| ensures seen[i].high { assert Holds(seen[i], High); }
    } else if n < |seen| {
      assert !Holds(seen[|seen| - n - 1], High);
    }
  }

  /** A tick keeps the meaning of the counters. A connection it rotates out for critical latency was the primary of a
      tick ending a run of at least three critical ones; it is marked degraded by then exactly when it was so before
      the tick or the latest three ticks were high too. */
  lemma TickCounts<K>(c: Core<K>, w: World<K>, a: Phases<K>)
    requires RolesInv(c, a.prune, w.max) && Shrinking(a) && TicksInv(c)
    ensures TicksInv(Tick(c, w, a).0)
    ensures var (c', _, out) := Tick(c, w, a);
            out.Some? ==>
              && TrailingRun(c'.seen, Critical) >= LATENCY_CRITICAL_TICKS
              && (out.value in c'.degraded <==> out.value in c.degraded || ThreeHigh(c'.seen))
  {
    var o := TickEffect(c, w, a);
    CountersFollow(c, Tick(c, w, a).0, o);
    ThreeHighIsARun(Tick(c, w, a).0.seen);
  }

  /** A connection demoted for critical latency hands over to another live primary. */
  lemma TickHandsOver<K>(c: Core<K>, w: World<K>, a: Phases<K>)
    requires RolesInv(c, a.prune, w.max) && Shrinking(a)
    ensures var (c', _, out) := Tick(c, w, a);
            out.Some? ==> PrimaryOf(c', Later(w, a)).Some? && PrimaryOf(c', Later(w, a)) != out
  {
    var c1 := KeepPrimary(c, w, a).0;
    KeepPrimaryKeepsRoles(c, w, a);
    WatchLoadKeepsRoles(c1, w, a);
    var c2 := WatchLoad(c1, w, a).0;
    DeathsKeepRoles(c2, a.latency, a.critical, w.max);
    WatchCriticalKeepsRoles(c2, Later(w, a));
  }

  // ---- what the timeout detector is told --------------------------------------------------

  ghost predicate DistinctIds<K>(reports: seq<(K, Duration)>) {
    forall i, j :: 0 <= i < j < |reports| ==> reports[i].0 != reports[j].0
  }

  lemma DistinctAppend<K>(a: seq<(K, Duration)>, b: seq<(K, Duration)>)
    requires DistinctIds(a) && DistinctIds(b) && forall x, y :: x in a && y in b ==> x.0 != y.0
    ensures DistinctIds(a + b)
  {}

  /** The connections reported so far are distinct, dead, out of the pool and were never planned to close, and the
      detector's history is the qualifying part of their lifetimes. */
  ghost predicate ReportsInv<K>(c: Core<K>, alive: set<K>) {
    match c
    case Core(conns, _, planned, _, _, _, _, _, _, recorded, history) =>
      && history == Kept(recorded)
      && DistinctIds(recorded)
      && (forall r :: r in recorded ==> r.0 !in conns && r.0 !in planned && r.0 !in alive)
  }

  lemma {:induction false} KeptAppend<K>(a: seq<(K, Duration)>, b: seq<(K, Duration)>)
    ensures Kept(a + b) == Kept(a) + Kept(b)
  {
    if a == [] {
      assert a + b == b;
    } else {
      var head := if a[0].1 < MIN_LIFETIME then [] else [a[0].1];
      assert (a + b)[1..] == a[1..] + b;
      KeptAppend(a[1..], b);
      assert head + (Kept(a[1..]) + Kept(b)) == (head + Kept(a[1..])) + Kept(b);
    }
  }

  /** Exactly the dead members that were not planned to close, each once, with their age. */
  lemma {:induction false} UnplannedAre<K>(conns: seq<K>, w: World<K>, planned: set<K>)
    requires NoDuplicates(conns)
    ensures var reports := Unplanned(conns, w, planned);
            && DistinctIds(reports)
            && (forall r :: r in reports <==>
                  r.0 in conns && r.0 !in w.alive && r.0 !in planned && r.1 == AgeOf(w, r.0))
  {
    if conns != [] {
      assert conns[0] !in conns[1..] && NoDuplicates(conns[1..]);
      UnplannedAre(conns[1..], w, planned);
    }
  }

  lemma PruneKeepsReports<K>(c: Core<K>, w: World<K>)
    requires ReportsInv(c, w.alive) && NoDuplicates(c.conns)
    ensures ReportsInv(Prune(c, w), w.alive)
  {
    UnplannedAre(c.conns, w, c.planned);
    KeptAppend(c.recorded, Unplanned(c.conns, w, c.planned));
    var reports := Unplanned(c.conns, w, c.planned);
    DistinctAppend(c.recorded, reports);
    forall r | r in c.recorded + reports
      ensures r.0 !in AliveOnly(c.conns, w.alive) && r.0 !in c.planned && r.0 !in w.alive {
      assert r in c.recorded || r in reports;
      InAliveOnly(c.conns, w.alive, r.0);
    }
  }

  lemma {:induction false} InAliveOnly<K>(conns: seq<K>, alive: set<K>, k: K)
    ensures k in AliveOnly(conns, alive) <==> k in conns && k in alive
  {
    if conns != [] { InAliveOnly(conns[1..], alive, k); }
  }

  lemma DriftKeepsReports<K>(c: Core<K>, c': Core<K>, alive: set<K>, alive': set<K>, started: set<K>)
    requires ReportsInv(c, alive) && alive' <= alive
    requires c'.planned == c.planned + started && forall k :: k in c'.conns || k in started ==> k in c.conns
    requires c'.recorded == c.recorded && c'.history == c.history
    ensures ReportsInv(c', alive')
  {
    forall r | r in c'.recorded ensures r.0 !in c'.conns && r.0 !in c'.planned && r.0 !in alive' {
      assert r in c.recorded;
    }
  }

  ghost predicate SameMembers<K>(c: Core<K>, c': Core<K>) {
    c'.conns == c.conns && c'.recorded == c.recorded && c'.history == c.history
  }

  lemma StagesKeepMembers<K>(c: Core<K>, w: World<K>, a: Phases<K>)
    ensures SameMembers(Prune(c, At(w, a.prune)), Tick(c, w, a).0)
  {
    var c1 := KeepPrimary(c, w, a).0;
    assert SameMembers(Prune(c, At(w, a.prune)), c1);
    LoadKeepsMembers(c1, w, a);
    CriticalKeepsMembers(WatchLoad(c1, w, a).0, Later(w, a));
  }

  lemma LoadKeepsMembers<K>(c: Core<K>, w: World<K>, a: Phases<K>)
    ensures SameMembers(c, WatchLoad(c, w, a).0)
  {}

  lemma CriticalKeepsMembers<K>(c: Core<K>, w: World<K>)
    ensures SameMembers(c, WatchCritical(c, w).0)
  {}

  /** A tick reports to the timeout detector exactly the dead members that were not planned to close, each with its
      age at that moment, and nobody it reported before. */
  lemma TickReports<K>(c: Core<K>, w: World<K>, a: Phases<K>) returns (reports: seq<(K, Duration)>)
    requires RolesInv(c, a.prune, w.max) && Shrinking(a) && ReportsInv(c, a.prune)
    ensures ReportsInv(Tick(c, w, a).0, a.critical)
    ensures Tick(c, w, a).0.recorded == c.recorded + reports
    ensures forall r :: r in reports <==> r.0 in c.conns && r.0 !in a.prune && r.0 !in c.planned && r.1 == AgeOf(w, r.0)
  {
    var c1 := Prune(c, At(w, a.prune));
    PruneKeepsReports(c, At(w, a.prune));
    reports := Unplanned(c.conns, At(w, a.prune), c.planned);
    UnplannedAre(c.conns, At(w, a.prune), c.planned);
    StagesKeepMembers(c, w, a);
    AfterPruneKeepsRoles(c, w, a);
    var (c', byAge, byLatency) := Tick(c, w, a);
    DriftKeepsReports(c1, c', a.prune, a.critical, AsSet(byAge) + AsSet(byLatency));
  }
}
