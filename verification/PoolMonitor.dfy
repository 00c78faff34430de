/** The pool's monitor tick: dead connections are removed and reported to the timeout detector, the primary is kept,
    rotated by age or by sustained critical latency, and builds are scheduled. One tick is one step; connections may die
    between its stages, and writes may complete between its two readings of the write latency. */
module PoolMonitor {
  import opened Wrappers
  import opened Registry
  import opened PoolRoles
  import opened TimeoutDetector
  import ConnState

  const HIGH_WRITE_LATENCY: int := 2 * SECOND
  const CRITICAL_WRITE_LATENCY: int := 5 * SECOND
  const QUEUE_PRESSURE_SAMPLES: nat := 3
  const LATENCY_HIGH_SAMPLES: nat := 3
  const LATENCY_CRITICAL_TICKS: nat := 3

  /** What one tick saw of its primary. */
  datatype Observation = Observation(pressure: bool, high: bool, critical: bool)

  datatype Kind = Pressure | High | Critical

  predicate Holds(o: Observation, k: Kind) {
    match k case Pressure => o.pressure case High => o.high case Critical => o.critical
  }

  /** The state the pool lock protects, with histories: `seen` is one observation per tick, `recorded` the connections
      reported to the timeout detector with their lifetimes, `history` the lifetimes it kept. */
  datatype Core<K> = Core(conns: seq<K>, roles: Roles<K>, planned: set<K>, degraded: set<K>, builds: Builds,
                          pressureTicks: nat, latencyTicks: nat, criticalTicks: nat,
                          seen: seq<Observation>, recorded: seq<(K, Duration)>, history: seq<Duration>)

  /** What a locked body reads and does not change: who is alive, whose queue is at least four fifths full, smoothed
      write latencies, creation times, the clock, whether the context is live, the pool size and the configured
      interval. */
  datatype World<K> = World(alive: set<K>, full: set<K>, latency: map<K, int>, created: map<K, int>, now: int,
                            live: bool, max: nat, configured: Duration)

  function LatencyOf<K(==)>(w: World<K>, k: K): int {
    if k in w.latency then w.latency[k] else 0
  }

  function AgeOf<K(==)>(w: World<K>, k: K): Duration {
    if k in w.created then w.now - w.created[k] else 0
  }

  function PrimaryOf<K(==)>(c: Core<K>, w: World<K>): Option<K> {
    FirstWith(c.conns, w.alive, c.roles.role, Primary)
  }

  // ---- removing dead connections ----------------------------------------------------------

  function AliveOnly<K(==)>(conns: seq<K>, alive: set<K>): seq<K> {
    if conns == [] then []
    else (if conns[0] in alive then [conns[0]] else []) + AliveOnly(conns[1..], alive)
  }

  /** The connections that died without having been drained on purpose, with their lifetimes. */
  function Unplanned<K(==)>(conns: seq<K>, w: World<K>, planned: set<K>): seq<(K, Duration)> {
    if conns == [] then []
    else (if conns[0] in w.alive || conns[0] in planned then [] else [(conns[0], AgeOf(w, conns[0]))])
         + Unplanned(conns[1..], w, planned)
  }

  /** The lifetimes the detector keeps of a list of reports. */
  function Kept<K>(reports: seq<(K, Duration)>): seq<Duration> {
    if reports == [] then []
    else (if reports[0].1 < MIN_LIFETIME then [] else [reports[0].1]) + Kept(reports[1..])
  }

  function Prune<K(==)>(c: Core<K>, w: World<K>): Core<K> {
    var reports := Unplanned(c.conns, w, c.planned);
    c.(conns := AliveOnly(c.conns, w.alive), recorded := c.recorded + reports, history := c.history + Kept(reports))
  }

  // ---- the other stages -------------------------------------------------------------------

  function Scheduled<K>(c: Core<K>, w: World<K>): Core<K> {
    c.(builds := Schedule(c.builds, |c.conns|, w.max))
  }

  /** `ensurePrimaryLocked`. */
  function EnsurePrimary<K(==)>(c: Core<K>, w: World<K>): Core<K> {
    var c' := c.(roles := Normalize(c.conns, w.alive, c.roles, w.now));
    if PrimaryOf(c', w).Some? || !w.live then c' else Scheduled(c', w)
  }

  /** `rotatePrimaryLocked`; the second component names the connection that started draining. */
  function RotatePrimary<K(==)>(c: Core<K>, w: World<K>): (Core<K>, Option<K>) {
    if PrimaryOf(c, w) == None then (EnsurePrimary(c, w), None)
    else
      var (roles, out) := Rotate(c.conns, w.alive, c.roles, w.now);
      (Scheduled(c.(roles := roles, planned := if out.Some? then c.planned + {out.value} else c.planned), w), out)
  }

  /** `RotationInterval` of the timeout detector. */
  function Interval<K>(c: Core<K>, w: World<K>): Option<Duration> {
    if w.configured > 0 then Some(w.configured)
    else if Learned(c.history) > 0 then Some(LearnedInterval(Learned(c.history)))
    else None
  }

  /** Some live primary of the list is older than the interval. */
  function SomeOld<K(==)>(conns: seq<K>, w: World<K>, roles: Roles<K>, interval: Duration): bool {
    conns != [] && (
      (LivePrimary(w.alive, roles.role, conns[0]) && conns[0] in roles.since
       && w.now - roles.since[conns[0]] > interval)
      || SomeOld(conns[1..], w, roles, interval))
  }

  function RotateByAge<K(==)>(c: Core<K>, w: World<K>): (Core<K>, Option<K>) {
    var i := Interval(c, w);
    if i.Some? && SomeOld(c.conns, w, c.roles, i.value) then RotatePrimary(c, w) else (c, None)
  }

  function Bump(ticks: nat, holds: bool): nat {
    if holds then ticks + 1 else 0
  }

  function WatchPressure<K(==)>(c: Core<K>, w: World<K>): (Core<K>, bool) {
    var p := PrimaryOf(c, w);
    var holds := p.Some? && p.value in w.full;
    var c' := c.(pressureTicks := Bump(c.pressureTicks, holds));
    (if c'.pressureTicks >= QUEUE_PRESSURE_SAMPLES && p.Some? then Scheduled(c', w) else c', holds)
  }

  function WatchLatency<K(==)>(c: Core<K>, w: World<K>): (Core<K>, bool) {
    var p := PrimaryOf(c, w);
    var holds := p.Some? && LatencyOf(w, p.value) >= HIGH_WRITE_LATENCY;
    var c' := c.(latencyTicks := Bump(c.latencyTicks, holds));
    (if c'.latencyTicks >= LATENCY_HIGH_SAMPLES && p.Some?
     then Scheduled(c'.(degraded := c'.degraded + {p.value}), w) else c',
     holds)
  }

  function WatchCritical<K(==)>(c: Core<K>, w: World<K>): (Core<K>, bool, Option<K>) {
    var p := PrimaryOf(c, w);
    var holds := p.Some? && LatencyOf(w, p.value) >= CRITICAL_WRITE_LATENCY;
    var c' := c.(criticalTicks := Bump(c.criticalTicks, holds));
    if c'.criticalTicks >= LATENCY_CRITICAL_TICKS && p.Some? then
      var (c'', out) := RotatePrimary(c', w);
      (c'', holds, out)
    else (c', holds, None)
  }

  function EnsureStandbys<K>(c: Core<K>, w: World<K>): Core<K> {
    if w.live then c.(builds := EnsureBuilds(c.builds, |c.conns|, w.max)) else c
  }

  /** A standby enters the pool if there is room. */
  function Joined<K(==)>(c: Core<K>, k: K, max: nat, now: int): Core<K> {
    if |c.conns| >= max then c else c.(conns := c.conns + [k], roles := SetRole(c.roles, k, Standby, now))
  }

  /** `burstCandidates`: live primaries, then live standbys. */
  function BurstCandidates<K(==)>(c: Core<K>, alive: set<K>): seq<K> {
    AllWith(c.conns, alive, c.roles.role, Primary) + AllWith(c.conns, alive, c.roles.role, Standby)
  }

  /** `RecordWrite` on the smoothed latencies. */
  function Measured<K(==)>(latency: map<K, int>, k: K, sample: int): map<K, int> {
    if sample > 0 then latency[k := ConnState.UpdateEWMA(if k in latency then latency[k] else 0, sample)] else latency
  }

  function AfterWrites<K(==)>(latency: map<K, int>, writes: seq<(K, int)>): map<K, int>
    decreases |writes|
  {
    if writes == [] then latency else AfterWrites(Measured(latency, writes[0].0, writes[0].1), writes[1..])
  }

  /** Who is alive at each stage of a tick, and the writes, with their durations, that complete between the latency
      stage and the critical stage. Both stages read the smoothed latency, and nothing but its own lock guards it. */
  datatype Phases<K> = Phases(prune: set<K>, ensure: set<K>, age: set<K>, pressure: set<K>, latency: set<K>,
                              critical: set<K>, writes: seq<(K, int)>)

  ghost predicate Shrinking<K>(a: Phases<K>) {
    a.critical <= a.latency <= a.pressure <= a.age <= a.ensure <= a.prune
  }

  function At<K>(w: World<K>, alive: set<K>): World<K> {
    w.(alive := alive)
  }

  /** The world of the critical stage. */
  function Later<K(==)>(w: World<K>, a: Phases<K>): World<K> {
    w.(alive := a.critical, latency := AfterWrites(w.latency, a.writes))
  }

  /** The stages of `monitorTick` up to the age check. */
  function KeepPrimary<K(==)>(c: Core<K>, w: World<K>, a: Phases<K>): (Core<K>, Option<K>) {
    RotateByAge(EnsurePrimary(Prune(c, At(w, a.prune)), At(w, a.ensure)), At(w, a.age))
  }

  /** The two stages that count without rotating, with what they saw. */
  function WatchLoad<K(==)>(c: Core<K>, w: World<K>, a: Phases<K>): (Core<K>, bool, bool) {
    var (c1, pressure) := WatchPressure(c, At(w, a.pressure));
    var (c2, high) := WatchLatency(c1, At(w, a.latency));
    (c2, pressure, high)
  }

  /** `monitorTick`, with the connections that started draining by age and by critical latency. */
  function Tick<K(==)>(c: Core<K>, w: World<K>, a: Phases<K>): (Core<K>, Option<K>, Option<K>) {
    var (c1, byAge) := KeepPrimary(c, w, a);
    var (c2, pressure, high) := WatchLoad(c1, w, a);
    var (c3, critical, byLatency) := WatchCritical(c2, Later(w, a));
    (EnsureStandbys(c3.(seen := c3.seen + [Observation(pressure, high, critical)]), w), byAge, byLatency)
  }

  // ---- roles and builds -------------------------------------------------------------------

  /** Membership, roles and builds. */
  ghost predicate RolesInv<K>(c: Core<K>, alive: set<K>, max: nat) {
    match c
    case Core(conns, roles, planned, _, builds, _, _, _, _, _, _) =>
      && NoDuplicates(conns) && HasRoles(conns, roles) && SinglePrimary(conns, alive, roles.role)
      && (forall k :: k in roles.role ==> (roles.role[k] == Draining <==> k in planned))
      && LedgerInv(builds, |conns|, max)
  }

  /** The pool gains no member, draining is for good, and roles of connections that are dead or outside the pool are
      frozen. `started` are the connections that started draining. */
  ghost predicate Drifts<K>(c: Core<K>, c': Core<K>, alive: set<K>, started: set<K>) {
    match c
    case Core(conns, roles, planned, degraded, _, _, _, _, _, _, _) =>
      && (forall k :: k in c'.conns ==> k in conns)
      && c'.roles.role.Keys == roles.role.Keys && degraded <= c'.degraded && c'.planned == planned + started
      && (forall k :: k in started ==> k in conns && k in alive)
      && (forall k :: k in roles.role && (k !in conns || k !in alive || roles.role[k] == Draining) ==>
            c'.roles.role[k] == roles.role[k])
  }

  function AsSet<K(==)>(o: Option<K>): set<K> {
    if o.Some? then {o.value} else {}
  }

  lemma DriftsFurther<K>(c: Core<K>, c1: Core<K>, c2: Core<K>, a: set<K>, b: set<K>, s: set<K>, t: set<K>)
    requires Drifts(c, c1, a, s) && Drifts(c1, c2, b, t) && b <= a
    ensures Drifts(c, c2, a, s + t)
  {}

  lemma DeathsKeepRoles<K>(c: Core<K>, alive: set<K>, alive': set<K>, max: nat)
    requires RolesInv(c, alive, max) && alive' <= alive
    ensures RolesInv(c, alive', max)
  {}

  lemma {:induction false} AliveOnlyIs<K>(conns: seq<K>, alive: set<K>)
    requires NoDuplicates(conns)
    ensures NoDuplicates(AliveOnly(conns, alive)) && |AliveOnly(conns, alive)| <= |conns|
    ensures forall k :: k in AliveOnly(conns, alive) <==> k in conns && k in alive
  {
    if conns != [] {
      assert conns[0] !in conns[1..] && NoDuplicates(conns[1..]);
      AliveOnlyIs(conns[1..], alive);
    }
  }

  lemma PruneKeepsRoles<K>(c: Core<K>, w: World<K>)
    requires RolesInv(c, w.alive, w.max)
    ensures RolesInv(Prune(c, w), w.alive, w.max) && Drifts(c, Prune(c, w), w.alive, {})
    ensures forall k :: k in Prune(c, w).conns <==> k in c.conns && k in w.alive
  {
    AliveOnlyIs(c.conns, w.alive);
    var c' := Prune(c, w);
    assert HasRoles(c'.conns, c'.roles) && SinglePrimary(c'.conns, w.alive, c'.roles.role);
    FewerConnsKeepLedger(c.builds, |c.conns|, |c'.conns|, w.max);
  }

  lemma FewerConnsKeepLedger(b: Builds, n: nat, n': nat, max: nat)
    requires LedgerInv(b, n, max) && n' <= n
    ensures LedgerInv(b, n', max)
  {}

  lemma ScheduledKeepsRoles<K>(c: Core<K>, w: World<K>)
    requires RolesInv(c, w.alive, w.max)
    ensures RolesInv(Scheduled(c, w), w.alive, w.max) && Drifts(c, Scheduled(c, w), w.alive, {})
  {
    ScheduleKeepsLedger(c.builds, |c.conns|, w.max);
  }

  ghost predicate HasUsable<K>(c: Core<K>, w: World<K>) {
    exists k :: k in c.conns && LiveUsable(w.alive, c.roles.role, k)
  }

  /** `ensurePrimaryLocked` leaves exactly one live primary whenever a live connection is not draining; otherwise,
      with a live context, a build is under way or the pool is full. */
  lemma EnsurePrimaryEnsures<K>(c: Core<K>, w: World<K>)
    requires RolesInv(c, w.alive, w.max)
    ensures var c' := EnsurePrimary(c, w);
            && RolesInv(c', w.alive, w.max) && Drifts(c, c', w.alive, {}) && c'.conns == c.conns
            && (PrimaryOf(c', w).Some? <==> HasUsable(c, w))
            && (!HasUsable(c, w) && w.live ==>
                  c'.builds.pending > c.builds.pending || |c'.conns| + c'.builds.pending >= w.max)
            && (HasUsable(c, w) || !w.live ==> c'.builds == c.builds)
  {
    NormalizeLeavesOnePrimary(c.conns, w.alive, c.roles, w.now);
    var c1 := c.(roles := Normalize(c.conns, w.alive, c.roles, w.now));
    assert RolesInv(c1, w.alive, w.max) && Drifts(c, c1, w.alive, {});
    ScheduledKeepsRoles(c1, w);
    ScheduleKeepsLedger(c1.builds, |c1.conns|, w.max);
  }

  /** Rotation demotes the primary only when a live standby takes over, so a pool with a live primary keeps one. */
  lemma RotatePrimaryKeeps<K>(c: Core<K>, w: World<K>)
    requires RolesInv(c, w.alive, w.max)
    ensures var (c', out) := RotatePrimary(c, w);
            && RolesInv(c', w.alive, w.max) && Drifts(c, c', w.alive, AsSet(out)) && c'.conns == c.conns
            && (out.Some? ==> out == PrimaryOf(c, w) && PrimaryOf(c', w).Some? && PrimaryOf(c', w) != out)
            && (PrimaryOf(c, w).Some? ==> PrimaryOf(c', w).Some?)
  {
    if PrimaryOf(c, w) == None {
      EnsurePrimaryEnsures(c, w);
    } else {
      RotateHandsOver(c.conns, w.alive, c.roles, w.now);
      FirstWithIs(c.conns, w.alive, c.roles.role, Primary);
      var (roles, out) := Rotate(c.conns, w.alive, c.roles, w.now);
      var c1 := c.(roles := roles, planned := if out.Some? then c.planned + {out.value} else c.planned);
      assert RolesInv(c1, w.alive, w.max) && Drifts(c, c1, w.alive, AsSet(out));
      FirstWithIs(c1.conns, w.alive, c1.roles.role, Primary);
      ScheduledKeepsRoles(c1, w);
    }
  }
}
