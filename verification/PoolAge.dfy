/** When a monitor tick rotates the primary and when it schedules a build: by age, against the configured or the learned
    interval, by sustained critical latency, and by sustained load. */
module PoolAge {
  import opened Wrappers
  import opened Registry
  import opened PoolRoles
  import opened TimeoutDetector
  import opened PoolMonitor
  import opened PoolTick

  /** The interval is the configured one, and four fifths of the learned limit where none is configured. */
  ghost predicate IsInterval(configured: Duration, history: seq<Duration>, i: Duration) {
    if configured > 0 then i == configured
    else exists k: nat, m :: LatestCluster(history, k, m) && 5 * i <= 4 * m < 5 * i + 5
  }

  lemma ClusterIsLong(h: seq<Duration>, k: nat, m: Duration)
    requires AllLong(h) && LatestCluster(h, k, m)
    ensures m >= 5_000_000_000
  {
    var a: nat :| |h[..k]| - 5 <= a < |h[..k]| && h[..k][a] == m;
    assert h[a] == m;
  }

  lemma LearnedLimitIs(h: seq<Duration>)
    requires AllLong(h) && Learned(h) > 0
    ensures Learned(h) >= 5_000_000_000 && IsInterval(0, h, LearnedInterval(Learned(h)))
  {
    LearnedIff(h, Learned(h));
    var k: nat :| LatestCluster(h, k, Learned(h));
    ClusterIsLong(h, k, Learned(h));
  }

  lemma IntervalIsLearned(h: seq<Duration>, k: nat, m: Duration, i: Duration)
    requires AllLong(h) && LatestCluster(h, k, m) && 5 * i <= 4 * m < 5 * i + 5
    ensures Learned(h) == m > 0 && i == LearnedInterval(m)
  {
    ClusterIsLong(h, k, m);
    LearnedIff(h, m);
  }

  lemma IntervalIs<K>(c: Core<K>, w: World<K>, i: Duration)
    requires AllLong(c.history)
    ensures Interval(c, w) == Some(i) <==> IsInterval(w.configured, c.history, i)
    ensures Interval(c, w).Some? ==> Interval(c, w).value > 0
  {
    if w.configured <= 0 {
      if Learned(c.history) > 0 { LearnedLimitIs(c.history); }
      if k: nat, m :| LatestCluster(c.history, k, m) && 5 * i <= 4 * m < 5 * i + 5 {
        IntervalIsLearned(c.history, k, m, i);
      }
    }
  }

  // ---- the age stage ----------------------------------------------------------------------

  /** `p` lives, is primary, and has been so for longer than the interval. */
  ghost predicate IsOverdue<K>(conns: seq<K>, alive: set<K>, roles: Roles<K>, now: int, configured: Duration,
                               h: seq<Duration>, p: K) {
    && p in conns && p in alive && p in roles.role && roles.role[p] == Primary && p in roles.since
    && exists i :: IsInterval(configured, h, i) && now - roles.since[p] > i
  }

  ghost predicate HasStandby<K>(conns: seq<K>, alive: set<K>, role: map<K, Role>) {
    exists q :: q in conns && q in alive && q in role && role[q] == Standby
  }

  lemma {:induction false} SomeOldIs<K>(conns: seq<K>, w: World<K>, roles: Roles<K>, interval: Duration)
    ensures SomeOld(conns, w, roles, interval) <==>
              exists p :: p in conns && LivePrimary(w.alive, roles.role, p) && p in roles.since
                          && w.now - roles.since[p] > interval
  {
    if conns != [] { SomeOldIs(conns[1..], w, roles, interval); }
  }

  lemma AgeStage<K>(c: Core<K>, w: World<K>, p: K)
    requires RolesInv(c, w.alive, w.max) && AllLong(c.history)
    ensures RotateByAge(c, w).1 == Some(p) <==>
              IsOverdue(c.conns, w.alive, c.roles, w.now, w.configured, c.history, p)
              && HasStandby(c.conns, w.alive, c.roles.role)
  {
    FirstWithIs(c.conns, w.alive, c.roles.role, Primary);
    FirstWithIs(c.conns, w.alive, c.roles.role, Standby);
    var i := Interval(c, w);
    if i.Some? {
      SomeOldIs(c.conns, w, c.roles, i.value);
      IntervalIs(c, w, i.value);
    }
    if IsOverdue(c.conns, w.alive, c.roles, w.now, w.configured, c.history, p) {
      var j :| IsInterval(w.configured, c.history, j) && w.now - c.roles.since[p] > j;
      IntervalIs(c, w, j);
    }
  }

  /** The roles after `p` was demoted in favour of `q`. */
  ghost predicate HandedOver<K>(roles: Roles<K>, roles': Roles<K>, p: K, q: K, now: int) {
    roles' == Roles(roles.role[p := Draining][q := Primary], roles.since[q := now])
  }

  lemma AgeStageHandsOver<K>(c: Core<K>, w: World<K>, p: K, q: K)
    requires RolesInv(c, w.alive, w.max)
    ensures RotateByAge(c, w).1 == None ==> RotateByAge(c, w).0.roles == c.roles
    ensures RotateByAge(c, w).1 == Some(p) && IsFirst(c.conns, w.alive, c.roles.role, Standby, q) ==>
              HandedOver(c.roles, RotateByAge(c, w).0.roles, p, q, w.now)
  {
    FirstWithIsFirst(c.conns, w.alive, c.roles.role, Standby, q);
    FirstWithIs(c.conns, w.alive, c.roles.role, Primary);
    var i := Interval(c, w);
    if i.Some? { SomeOldIs(c.conns, w, c.roles, i.value); }
  }

  // ---- the tick ---------------------------------------------------------------------------

  lemma {:induction false} FoundAmongLive<K>(conns: seq<K>, alive: set<K>, alive': set<K>, role: map<K, Role>, r: Role)
    requires alive' <= alive
    ensures FirstWith(AliveOnly(conns, alive), alive', role, r) == FirstWith(conns, alive', role, r)
  {
    if conns != [] {
      FoundAmongLive(conns[1..], alive, alive', role, r);
      if conns[0] in alive {
        assert AliveOnly(conns, alive)[1..] == AliveOnly(conns[1..], alive);
      } else {
        assert AliveOnly(conns, alive) == AliveOnly(conns[1..], alive);
      }
    }
  }

  /** Up to the age check a tick leaves a live primary alone; where none lives, any primary after it is new. */
  lemma BeforeAge<K>(c: Core<K>, w: World<K>, a: Phases<K>)
    requires RolesInv(c, a.prune, w.max) && Shrinking(a)
    ensures var c2 := EnsurePrimary(Prune(c, At(w, a.prune)), At(w, a.ensure));
            && RolesInv(c2, a.age, w.max) && c2.conns == AliveOnly(c.conns, a.prune)
            && ((exists k :: k in c.conns && LivePrimary(a.ensure, c.roles.role, k)) ==> c2.roles == c.roles)
            && (!(exists k :: k in c.conns && LivePrimary(a.ensure, c.roles.role, k)) ==>
                  forall k :: k in c2.conns && LivePrimary(a.ensure, c2.roles.role, k) && k in c2.roles.since ==>
                    c2.roles.since[k] == w.now)
  {
    var c1 := Prune(c, At(w, a.prune));
    PruneKeepsRoles(c, At(w, a.prune));
    DeathsKeepRoles(c1, a.prune, a.ensure, w.max);
    EnsurePrimaryEnsures(c1, At(w, a.ensure));
    DeathsKeepRoles(EnsurePrimary(c1, At(w, a.ensure)), a.ensure, a.age, w.max);
    InAlive(c, w, a);
    NewPrimaryIsNew(c1.conns, a.ensure, c1.roles, w.now);
  }

  lemma InAlive<K>(c: Core<K>, w: World<K>, a: Phases<K>)
    requires RolesInv(c, a.prune, w.max) && Shrinking(a)
    ensures (exists k :: k in c.conns && LivePrimary(a.ensure, c.roles.role, k)) <==>
            (exists k :: k in AliveOnly(c.conns, a.prune) && LivePrimary(a.ensure, c.roles.role, k))
  {
    AliveOnlyIs(c.conns, a.prune);
  }

  lemma NewPrimaryIsNew<K>(conns: seq<K>, alive: set<K>, t: Roles<K>, now: int)
    requires NoDuplicates(conns) && SinglePrimary(conns, alive, t.role) && HasRoles(conns, t)
    ensures var t' := Normalize(conns, alive, t, now);
            && ((exists k :: k in conns && LivePrimary(alive, t.role, k)) ==> t' == t)
            && (!(exists k :: k in conns && LivePrimary(alive, t.role, k)) ==>
                  forall k :: k in conns && LivePrimary(alive, t'.role, k) && k in t'.since ==> t'.since[k] == now)
  {
    FirstWithIs(conns, alive, t.role, Standby);
    var s := FirstWith(conns, alive, t.role, Standby);
    if s.Some? {
      FirstWithIsFirst(conns, alive, t.role, Standby, s.value);
      NormalizeIs(conns, alive, t, now, s.value);
    } else {
      NormalizeLeavesOnePrimary(conns, alive, t, now);
      if k :| k in conns && LivePrimary(alive, t.role, k) {
        NormalizeIs(conns, alive, t, now, k);
      } else {
        FirstWithIs(conns, alive, t.role, Primary);
        FirstWithIs(conns, alive, Normalize(conns, alive, t, now).role, Primary);
        DemotionKeepsFirst(conns, alive, t, false, now);
        FallbackIsIdle(conns, alive, t.role);
      }
    }
  }

  /** A tick rotates `p` out by age exactly when `p` lives at the age check, was primary when the tick began and for
      longer than the interval, and a standby lives; the history is the one the tick leaves, which holds the lifetimes
      it has just reported. */
  lemma TickRotatesByAgeIff<K>(c: Core<K>, w: World<K>, a: Phases<K>, p: K)
    requires RolesInv(c, a.prune, w.max) && Shrinking(a) && AllLong(Tick(c, w, a).0.history)
    ensures Tick(c, w, a).1 == Some(p) <==>
              IsOverdue(c.conns, a.age, c.roles, w.now, w.configured, Tick(c, w, a).0.history, p)
              && HasStandby(c.conns, a.age, c.roles.role)
  {
    var c2 := EnsurePrimary(Prune(c, At(w, a.prune)), At(w, a.ensure));
    BeforeAge(c, w, a);
    StagesKeepMembers(c, w, a);
    AgeStage(c2, At(w, a.age), p);
    AliveOnlyIs(c.conns, a.prune);
    var h := Tick(c, w, a).0.history;
    if IsOverdue(c2.conns, a.age, c2.roles, w.now, w.configured, h, p) {
      var i :| IsInterval(w.configured, h, i) && w.now - c2.roles.since[p] > i;
      IntervalIs(c2, w, i);
    }
  }

  // ---- the critical stage -----------------------------------------------------------------

  ghost predicate IsSlow<K>(c: Core<K>, w: World<K>, p: K, mark: int) {
    p in c.conns && p in w.alive && p in c.roles.role && c.roles.role[p] == Primary && LatencyOf(w, p) >= mark
  }

  /** The last check sees a primary of five seconds' latency, and in the third such tick rotates it out if a standby
      lives. */
  lemma CriticalStage<K>(c: Core<K>, w: World<K>, p: K)
    requires RolesInv(c, w.alive, w.max)
    ensures WatchCritical(c, w).1 <==> exists k :: IsSlow(c, w, k, 5_000_000_000)
    ensures WatchCritical(c, w).2 == Some(p) <==>
              IsSlow(c, w, p, 5_000_000_000) && c.criticalTicks >= 2 && HasStandby(c.conns, w.alive, c.roles.role)
  {
    FirstWithIs(c.conns, w.alive, c.roles.role, Primary);
    FirstWithIs(c.conns, w.alive, c.roles.role, Standby);
    var k := PrimaryOf(c, w);
    assert k.Some? && LatencyOf(w, k.value) >= 5_000_000_000 ==> IsSlow(c, w, k.value, 5_000_000_000);
  }

  lemma CriticalStageHandsOver<K>(c: Core<K>, w: World<K>, p: K, q: K)
    requires RolesInv(c, w.alive, w.max)
    ensures WatchCritical(c, w).2 == None ==> WatchCritical(c, w).0.roles == c.roles
    ensures WatchCritical(c, w).2 == Some(p) && IsFirst(c.conns, w.alive, c.roles.role, Standby, q) ==>
              HandedOver(c.roles, WatchCritical(c, w).0.roles, p, q, w.now)
  {
    FirstWithIsFirst(c.conns, w.alive, c.roles.role, Standby, q);
    FirstWithIs(c.conns, w.alive, c.roles.role, Primary);
  }

  // ---- the load stages --------------------------------------------------------------------

  /** The two load checks see a live primary whose queue is under pressure, and one of two seconds' latency. */
  lemma LoadStages<K>(c: Core<K>, w: World<K>, a: Phases<K>)
    requires RolesInv(c, a.age, w.max) && Shrinking(a)
    ensures var (c', pressure, high) := WatchLoad(c, w, a);
            && c'.roles == c.roles && c'.conns == c.conns
            && (pressure <==> exists p :: p in c.conns && LivePrimary(a.pressure, c.roles.role, p) && p in w.full)
            && (high <==> exists p :: IsSlow(c, At(w, a.latency), p, 2_000_000_000))
  {
    FirstWithIs(c.conns, a.pressure, c.roles.role, Primary);
    FirstWithIs(c.conns, a.latency, c.roles.role, Primary);
    DeathsKeepRoles(c, a.age, a.latency, w.max);
    DeathsKeepRoles(c, a.age, a.pressure, w.max);
    WatchLoadKeepsRoles(c, w, a);
    var p := FirstWith(c.conns, a.latency, c.roles.role, Primary);
    assert p.Some? && LatencyOf(w, p.value) >= 2_000_000_000 ==> IsSlow(c, At(w, a.latency), p.value, 2_000_000_000);
  }

  /** The third tick of load in a row, and every later one, marks a slow primary degraded and starts a build if there
      is room for one. */
  lemma LoadStagesAct<K>(c: Core<K>, w: World<K>, a: Phases<K>, k: K)
    requires RolesInv(c, a.age, w.max) && Shrinking(a)
    ensures var c' := WatchLoad(c, w, a).0;
            var wanted := (if c'.pressureTicks >= 3 then 1 else 0) + (if c'.latencyTicks >= 3 then 1 else 0);
            var room := w.max - |c.conns| - c.builds.pending;
            && (k in c'.degraded <==>
                  k in c.degraded
                  || (c'.latencyTicks >= 3 && k in c.conns && LivePrimary(a.latency, c.roles.role, k)))
            && c'.builds.pending == c.builds.pending + if room <= 0 then 0 else if room < wanted then room else wanted
  {
    FirstWithIs(c.conns, a.latency, c.roles.role, Primary);
    DeathsKeepRoles(c, a.age, a.latency, w.max);
  }

  /** Rotation asks for a build, whether a standby could take over or not. */
  lemma RotationBuilds<K>(c: Core<K>, w: World<K>)
    requires RolesInv(c, w.alive, w.max) && exists p :: p in c.conns && LivePrimary(w.alive, c.roles.role, p)
    ensures RotatePrimary(c, w).0.builds.pending
         == if |c.conns| + c.builds.pending < w.max then c.builds.pending + 1 else c.builds.pending
  {
    FirstWithIs(c.conns, w.alive, c.roles.role, Primary);
  }

  // ---- ticks of runs ----------------------------------------------------------------------

  /** After the age check of a tick. */
  lemma TickHandsOverByAge<K>(c: Core<K>, w: World<K>, a: Phases<K>, p: K, q: K)
    requires RolesInv(c, a.prune, w.max) && Shrinking(a) && AllLong(Tick(c, w, a).0.history)
    requires Tick(c, w, a).1 == Some(p) && IsFirst(c.conns, a.age, c.roles.role, Standby, q)
    ensures HandedOver(c.roles, KeepPrimary(c, w, a).0.roles, p, q, w.now)
  {
    var c2 := EnsurePrimary(Prune(c, At(w, a.prune)), At(w, a.ensure));
    TickRotatesByAgeIff(c, w, a, p);
    BeforeAge(c, w, a);
    assert c2.roles == c.roles;
    FirstWithIsFirst(c.conns, a.age, c.roles.role, Standby, q);
    FoundAmongLive(c.conns, a.prune, a.age, c.roles.role, Standby);
    FirstWithIsFirst(c2.conns, a.age, c.roles.role, Standby, q);
    AgeStageHandsOver(c2, At(w, a.age), p, q);
  }

  /** What the checks behind the age check do to two connections: `p` keeps draining, and `q` stays primary unless it is
      rotated out itself after three critical ticks. */
  lemma WatchKeepsHandOver<K>(c: Core<K>, w: World<K>, a: Phases<K>, p: K, q: K)
    requires RolesInv(c, a.age, w.max) && Shrinking(a)
    requires p in c.roles.role && c.roles.role[p] == Draining
    requires q in c.roles.role && c.roles.role[q] == Primary && q in c.roles.since
    ensures var c2 := WatchLoad(c, w, a).0;
            var (c3, _, out) := WatchCritical(c2, Later(w, a));
            && p in c3.roles.role && c3.roles.role[p] == Draining && q in c3.roles.role && q in c3.roles.since
            && c3.roles.since[q] == c.roles.since[q] && c3.roles.role[q] == if out == Some(q) then Draining else Primary
  {
    var c2 := WatchLoad(c, w, a).0;
    WatchLoadKeepsRoles(c, w, a);
    DeathsKeepRoles(c2, a.latency, a.critical, w.max);
    var (c3, _, out) := WatchCritical(c2, Later(w, a));
    FirstWithIs(c2.conns, a.critical, c2.roles.role, Standby);
    FirstWithIs(c2.conns, a.critical, c2.roles.role, Primary);
    var next := FirstWith(c2.conns, a.critical, c2.roles.role, Standby);
    if out.Some? {
      FirstWithIsFirst(c2.conns, a.critical, c2.roles.role, Standby, next.value);
      CriticalStageHandsOver(c2, Later(w, a), out.value, next.value);
    } else {
      CriticalStageHandsOver(c2, Later(w, a), p, q);
    }
  }

  lemma TickHandsOverTo<K>(c: Core<K>, w: World<K>, a: Phases<K>, p: K, q: K)
    requires RolesInv(c, a.prune, w.max) && Shrinking(a) && AllLong(Tick(c, w, a).0.history)
    requires Tick(c, w, a).1 == Some(p) && IsFirst(c.conns, a.age, c.roles.role, Standby, q)
    ensures var (c', _, out) := Tick(c, w, a);
            && p in c'.roles.role && c'.roles.role[p] == Draining && q in c'.roles.role && q in c'.roles.since
            && c'.roles.since[q] == w.now && c'.roles.role[q] == if out == Some(q) then Draining else Primary
  {
    TickHandsOverByAge(c, w, a, p, q);
    TickRotatesByAgeIff(c, w, a, p);
    KeepPrimaryKeepsRoles(c, w, a);
    WatchKeepsHandOver(KeepPrimary(c, w, a).0, w, a, p, q);
  }

  lemma {:induction false} KeptAreLong<K>(reports: seq<(K, Duration)>)
    ensures AllLong(Kept(reports))
  {
    if reports != [] { KeptAreLong(reports[1..]); }
  }

  /** The third critical tick in a row, and every later one, rotates the primary out if a standby lives: afterwards no
      standby is left or the primary has changed. */
  lemma CriticalTickRotates<K>(c: Core<K>, w: World<K>, a: Phases<K>)
    requires RolesInv(c, a.prune, w.max) && Shrinking(a)
    ensures var (c', _, out) := Tick(c, w, a);
            c'.criticalTicks >= 3 && out == None ==> !HasStandby(c'.conns, a.critical, c'.roles.role)
  {
    var c1 := KeepPrimary(c, w, a).0;
    KeepPrimaryKeepsRoles(c, w, a);
    WatchLoadKeepsRoles(c1, w, a);
    var c2 := WatchLoad(c1, w, a).0;
    DeathsKeepRoles(c2, a.latency, a.critical, w.max);
    var c3 := WatchCritical(c2, Later(w, a)).0;
    var p := PrimaryOf(c2, Later(w, a));
    FirstWithIs(c2.conns, a.critical, c2.roles.role, Primary);
    if p.Some? {
      CriticalStage(c2, Later(w, a), p.value);
      CriticalStageHandsOver(c2, Later(w, a), p.value, p.value);
    }
    CriticalKeepsMembers(c2, Later(w, a));
  }
}
