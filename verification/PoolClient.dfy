/** The client pool's lock-protected bodies on connection objects. Each method's contract is the function the state
    machine is made of, applied to a view of the objects. */
module PoolClient {
  import opened Wrappers
  import opened Packet
  import opened FlowTable
  import opened Registry
  import opened PoolRoles
  import opened TimeoutDetector
  import opened PoolMonitor
  import opened PoolCandidates
  import opened PoolTick

  class PooledConn {
    const capacity: nat
    const createdAt: int
    var role: Role
    var primarySince: Option<int>
    var alive: bool
    var done: bool
    var plannedClose: bool
    var isDegraded: bool
    var writeLatency: int
    var writeCh: seq<Bytes>

    constructor (capacity: nat, createdAt: int)
      ensures this.capacity == capacity && this.createdAt == createdAt
      ensures role == Standby && primarySince == None && alive && !done && !plannedClose && !isDegraded && writeCh == []
    {
      this.capacity, this.createdAt := capacity, createdAt;
      role, primarySince, alive, done, plannedClose, isDegraded := Standby, None, true, false, false, false;
      writeLatency, writeCh := 0, [];
    }

    method SetRole(r: Role, now: int)
      modifies this`role, this`primarySince
      ensures role == r && primarySince == if r == Primary then Some(now) else old(primarySince)
    {
      role := r;
      if r == Primary {
        primarySince := Some(now);
      }
    }

    method Close()
      modifies this`alive, this`done
      ensures !alive && done
    {
      alive := false;
      done := true;
    }

    /** `queuePressure`: the queue is at least four fifths full. */
    predicate UnderPressure()
      reads this`writeCh
    {
      capacity != 0 && 5 * |writeCh| >= 4 * capacity
    }

    /** Free places in the queue. */
    function Avail(): int
      reads this`writeCh
    {
      capacity - |writeCh|
    }

    predicate IsLiveStandby()
      reads this`role, this`alive
    {
      role == Standby && alive
    }

    /** `tryEnqueue`: never blocks and never overfills. */
    method TryEnqueue(raw: Bytes) returns (ok: bool)
      modifies this`writeCh
      ensures ok <==> alive && !done && |old(writeCh)| < capacity
      ensures writeCh == old(writeCh) + if ok then [raw] else []
    {
      if !alive || done {
        return false;
      }
      if |writeCh| < capacity {
        writeCh := writeCh + [raw];
        return true;
      }
      ok := false;
    }
  }

  /** What the state machine knows of one connection agrees with the object. */
  ghost predicate Tracks(roles: Roles<PooledConn>, planned: set<PooledConn>, degraded: set<PooledConn>, c: PooledConn)
    reads c`role, c`primarySince, c`plannedClose, c`isDegraded
  {
    && c in roles.role && roles.role[c] == c.role
    && c.primarySince == (if c in roles.since then Some(roles.since[c]) else None)
    && (c in planned <==> c.plannedClose) && (c in degraded <==> c.isDegraded)
  }

  /** What a locked body reads of one connection. */
  ghost predicate Shows(w: World<PooledConn>, c: PooledConn)
    reads c`alive, c`writeCh, c`writeLatency
  {
    && (c in w.alive <==> c.alive) && (c in w.full <==> c.UnderPressure())
    && LatencyOf(w, c) == c.writeLatency && AgeOf(w, c) == w.now - c.createdAt
  }

  class Pool {
    const maxTotal: nat
    const timeoutDetect: Detector
    var conns: seq<PooledConn>
    var tcpFlows: map<FlowKey, Binding<PooledConn>>
    var pendingBuilds: nat
    var pressureTicks: nat
    var latencyTicks: nat
    var criticalLatencyTicks: nat

    /** Every connection that was ever in the pool, and the pool as the state machine knows it. */
    ghost var known: set<PooledConn>
    ghost var core: Core<PooledConn>

    ghost predicate Valid()
      reads this, timeoutDetect`history, known`role, known`primarySince, known`plannedClose, known`isDegraded
    {
      && NoDuplicates(conns) && (forall c :: c in conns ==> c in known)
      && (core.conns, core.builds.pending, core.pressureTicks, core.latencyTicks, core.criticalTicks, core.history)
         == (conns, pendingBuilds, pressureTicks, latencyTicks, criticalLatencyTicks, timeoutDetect.history)
      && forall c :: c in known ==> Tracks(core.roles, core.planned, core.degraded, c)
    }

    /** `w` is the world the objects show. */
    ghost predicate Sees(w: World<PooledConn>, now: int, live: bool)
      reads this`known, known`alive, known`writeCh, known`writeLatency
    {
      match w
      case World(_, _, _, _, at, running, max, configured) =>
        && at == now && running == live && max == maxTotal && configured == timeoutDetect.configured
        && forall c :: c in known ==> Shows(w, c)
    }

    constructor (maxTotal: nat)
      ensures Valid() && this.maxTotal == maxTotal && tcpFlows == map[] && timeoutDetect.configured == 0
      ensures core == Core([], Roles(map[], map[]), {}, {}, Builds(0, {}, {}, 0), 0, 0, 0, [], [], [])
    {
      this.maxTotal := maxTotal;
      timeoutDetect := new Detector(0);
      conns, tcpFlows, pendingBuilds, pressureTicks, latencyTicks, criticalLatencyTicks := [], map[], 0, 0, 0, 0;
      known, core := {}, Core([], Roles(map[], map[]), {}, {}, Builds(0, {}, {}, 0), 0, 0, 0, [], [], []);
    }

    method SetRole(c: PooledConn, r: Role, now: int)
      requires Valid() && c in known
      modifies this`core, c`role, c`primarySince
      ensures Valid() && core == old(core).(roles := PoolRoles.SetRole(old(core).roles, c, r, now))
    {
      c.SetRole(r, now);
      core := core.(roles := PoolRoles.SetRole(core.roles, c, r, now));
    }

    /** The first live connection with a given role: `primaryLocked`, and the searches of `rotatePrimaryLocked`. */
    method Find(r: Role, ghost w: World<PooledConn>, now: int, live: bool) returns (found: Option<PooledConn>)
      requires Valid() && Sees(w, now, live)
      ensures found == FirstWith(conns, w.alive, core.roles.role, r)
      ensures found.Some? ==> found.value in known
    {
      for i := 0 to |conns|
        invariant FirstWith(conns[i..], w.alive, core.roles.role, r) == FirstWith(conns, w.alive, core.roles.role, r)
      {
        assert Tracks(core.roles, core.planned, core.degraded, conns[i]) && Shows(w, conns[i]);
        if conns[i].role == r && conns[i].alive {
          return Some(conns[i]);
        }
      }
      found := None;
    }

    /** The second loop of `promoteStandbyLocked`. */
    method FindUsable(ghost w: World<PooledConn>, now: int, live: bool) returns (found: Option<PooledConn>)
      requires Valid() && Sees(w, now, live)
      ensures found == FirstUsable(conns, w.alive, core.roles.role)
      ensures found.Some? ==> found.value in known
    {
      for i := 0 to |conns|
        invariant FirstUsable(conns[i..], w.alive, core.roles.role) == FirstUsable(conns, w.alive, core.roles.role)
      {
        assert Tracks(core.roles, core.planned, core.degraded, conns[i]) && Shows(w, conns[i]);
        if conns[i].alive && conns[i].role != Draining {
          return Some(conns[i]);
        }
      }
      found := None;
    }

    /** `promoteStandbyLocked`. */
    method PromoteStandby(ghost w: World<PooledConn>, now: int, live: bool) returns (promoted: Option<PooledConn>)
      requires Valid() && Sees(w, now, live)
      modifies this`core, known`role, known`primarySince
      ensures Valid() && core == old(core).(roles := Promote(conns, w.alive, old(core).roles, now))
      ensures promoted == ToPromote(conns, w.alive, old(core).roles.role)
    {
      promoted := Find(Standby, w, now, live);
      if promoted == None {
        promoted := FindUsable(w, now, live);
      }
      if promoted.Some? {
        SetRole(promoted.value, Primary, now);
      }
    }

    /** The first loop of `normalizePrimaryLocked`. */
    method DemoteOthers(ghost w: World<PooledConn>, now: int, live: bool) returns (primary: Option<PooledConn>)
      requires Valid() && Sees(w, now, live)
      modifies this`core, known`role, known`primarySince
      ensures Valid() && core == old(core).(roles := DemoteExtra(conns, w.alive, old(core).roles, false, now))
      ensures primary == FirstWith(conns, w.alive, old(core).roles.role, Primary)
    {
      primary := None;
      ghost var goal := DemoteExtra(conns, w.alive, core.roles, false, now);
      ghost var first := FirstWith(conns, w.alive, core.roles.role, Primary);
      for i := 0 to |conns|
        invariant Valid() && core == old(core).(roles := core.roles)
        invariant DemoteExtra(conns[i..], w.alive, core.roles, primary.Some?, now) == goal
        invariant first == if primary.Some? then primary else FirstWith(conns[i..], w.alive, core.roles.role, Primary)
      {
        assert Tracks(core.roles, core.planned, core.degraded, conns[i]) && Shows(w, conns[i]);
        if !conns[i].alive || conns[i].role != Primary {
          continue;
        }
        if primary == None {
          primary := Some(conns[i]);
        } else {
          SetRole(conns[i], Standby, now);
        }
      }
    }

    /** `normalizePrimaryLocked`. */
    method NormalizePrimary(ghost w: World<PooledConn>, now: int, live: bool) returns (primary: Option<PooledConn>)
      requires Valid() && Sees(w, now, live)
      modifies this`core, known`role, known`primarySince
      ensures Valid() && core == old(core).(roles := Normalize(conns, w.alive, old(core).roles, now))
      ensures primary.Some? <==> PrimaryOf(core, w).Some?
    {
      DemotionKeepsPrimary(conns, w.alive, core.roles, now);
      primary := DemoteOthers(w, now, live);
      if primary == None {
        PromotedIsPrimary(conns, w.alive, core.roles, now);
        primary := PromoteStandby(w, now, live);
      }
    }

    method ScheduleBuild(ghost w: World<PooledConn>)
      requires Valid() && w.max == maxTotal
      modifies this`pendingBuilds, this`core
      ensures Valid() && core == Scheduled(old(core), w)
    {
      if |conns| + pendingBuilds >= maxTotal {
        return;
      }
      pendingBuilds := pendingBuilds + 1;
      core := Scheduled(core, w);
    }

    method EnsureStandbys(ghost w: World<PooledConn>, live: bool)
      requires Valid() && w.max == maxTotal && w.live == live
      modifies this`pendingBuilds, this`core
      ensures Valid() && core == PoolMonitor.EnsureStandbys(old(core), w)
    {
      if !live {
        return;
      }
      while |conns| + pendingBuilds < maxTotal
        invariant Valid() && core == old(core).(builds := core.builds)
        invariant EnsureBuilds(core.builds, |conns|, maxTotal) == EnsureBuilds(old(core).builds, |conns|, maxTotal)
        decreases maxTotal - |conns| - pendingBuilds
      {
        ScheduleBuild(w);
      }
    }

    /** `ensurePrimaryLocked`. */
    method EnsurePrimary(ghost w: World<PooledConn>, now: int, live: bool)
      requires Valid() && Sees(w, now, live)
      modifies this`pendingBuilds, this`core, known`role, known`primarySince
      ensures Valid() && core == PoolMonitor.EnsurePrimary(old(core), w)
    {
      var primary := NormalizePrimary(w, now, live);
      if primary.Some? || !live {
        return;
      }
      ScheduleBuild(w);
    }

    /** The middle of `rotatePrimaryLocked`. */
    method HandOver(current: PooledConn, next: PooledConn, now: int)
      requires Valid() && current in known && next in known
      modifies this`core, known`role, known`primarySince, known`plannedClose
      ensures Valid()
      ensures var draining := PoolRoles.SetRole(old(core).roles, current, Draining, now);
              var roles := PoolRoles.SetRole(draining, next, Primary, now);
              core == old(core).(roles := roles, planned := old(core).planned + {current})
    {
      SetRole(current, Draining, now);
      current.plannedClose := true;
      core := core.(planned := core.planned + {current});
      SetRole(next, Primary, now);
    }

    /** `rotatePrimaryLocked`. */
    method RotatePrimary(ghost w: World<PooledConn>, now: int, live: bool)
      requires Valid() && Sees(w, now, live)
      modifies this`pendingBuilds, this`core, known`role, known`primarySince, known`plannedClose
      ensures Valid() && core == PoolMonitor.RotatePrimary(old(core), w).0
    {
      var current := Find(Primary, w, now, live);
      if current == None {
        EnsurePrimary(w, now, live);
        return;
      }
      var next := Find(Standby, w, now, live);
      if next.Some? {
        HandOver(current.value, next.value, now);
      }
      ScheduleBuild(w);
    }

    /** `RecordDisconnect` on the lifetime of a connection. */
    method Report(c: PooledConn, now: int)
      requires timeoutDetect.Valid() && core.history == timeoutDetect.history
      modifies this`core, timeoutDetect
      ensures timeoutDetect.Valid() && core.history == timeoutDetect.history
      ensures core == Noted(old(core), [(c, now - c.createdAt)])
    {
      ghost var c0 := core;
      timeoutDetect.RecordDisconnect(now - c.createdAt);
      NotedOne(c0, c, now - c.createdAt, timeoutDetect.history);
      core := Noted(c0, [(c, now - c.createdAt)]);
    }

    /** What the first loop of `monitorTick` reads of a connection. */
    ghost predicate Examined(c: PooledConn, w: World<PooledConn>, planned: set<PooledConn>, now: int)
      reads c`alive, c`plannedClose
    {
      (c in w.alive <==> c.alive) && (c in planned <==> c.plannedClose) && AgeOf(w, c) == now - c.createdAt
    }

    lemma MembersAreExamined(w: World<PooledConn>, now: int, live: bool)
      requires Valid() && Sees(w, now, live)
      ensures forall i :: 0 <= i < |conns| ==> Examined(conns[i], w, core.planned, now)
    {
      forall i | 0 <= i < |conns| ensures Examined(conns[i], w, core.planned, now) {
        assert conns[i] in known;
      }
    }

    /** One round of the first loop of `monitorTick`. */
    method Visit(c: PooledConn, ghost w: World<PooledConn>, ghost planned: set<PooledConn>, now: int)
      returns (stays: bool)
      requires timeoutDetect.Valid() && core.history == timeoutDetect.history
      requires Examined(c, w, planned, now)
      modifies this`core, timeoutDetect
      ensures timeoutDetect.Valid() && core.history == timeoutDetect.history
      ensures stays == c.alive && core == Noted(old(core), ReportOf(c, w, planned))
    {
      NothingNoted(core);
      stays := c.alive;
      if !stays && !c.plannedClose {
        Report(c, now);
      }
    }

    /** The first loop of `monitorTick`: live connections are kept, dead ones are reported unless their close was
        planned. Closing them again does nothing, because a connection dies by being closed. */
    method SplitDead(ghost w: World<PooledConn>, now: int, live: bool) returns (left: seq<PooledConn>)
      requires Valid() && timeoutDetect.Valid() && Sees(w, now, live)
      modifies this`core, timeoutDetect
      ensures timeoutDetect.Valid() && core.history == timeoutDetect.history
      ensures left == AliveOnly(conns, w.alive) && core == Prune(old(core), w).(conns := conns)
    {
      left := [];
      ghost var c0 := core;
      NothingNoted(core);
      MembersAreExamined(w, now, live);
      for i := 0 to |conns|
        invariant timeoutDetect.Valid() && core.history == timeoutDetect.history
        invariant left == AliveOnly(conns[..i], w.alive)
        invariant core == Noted(c0, Unplanned(conns[..i], w, c0.planned))
      {
        NextMember(c0, conns, i, w);
        var stays := Visit(conns[i], w, c0.planned, now);
        if stays {
          left := left + [conns[i]];
        }
      }
      assert conns[..|conns|] == conns;
    }

    /** Dead connections leave the pool at the start of `monitorTick`. */
    method PruneDead(ghost w: World<PooledConn>, now: int, live: bool)
      requires Valid() && timeoutDetect.Valid() && Sees(w, now, live)
      modifies this`conns, this`core, timeoutDetect
      ensures Valid() && timeoutDetect.Valid() && core == Prune(old(core), w)
    {
      LiveMembersAreKnown(conns, w.alive, known);
      var left := SplitDead(w, now, live);
      conns := left;
      core := core.(conns := left);
    }

    /** The age check of `monitorTick`. */
    method RotateByAge(ghost w: World<PooledConn>, now: int, live: bool)
      requires Valid() && timeoutDetect.Valid() && Sees(w, now, live)
      modifies this`pendingBuilds, this`core, known`role, known`primarySince, known`plannedClose
      ensures Valid() && core == PoolMonitor.RotateByAge(old(core), w).0
    {
      var interval, ok := timeoutDetect.RotationInterval();
      if !ok {
        return;
      }
      for i := 0 to |conns|
        invariant Valid() && core == old(core)
        invariant SomeOld(conns[i..], w, core.roles, interval) == SomeOld(conns, w, core.roles, interval)
      {
        assert Tracks(core.roles, core.planned, core.degraded, conns[i]) && Shows(w, conns[i]);
        var age := match conns[i].primarySince case None => 0 case Some(since) => now - since;
        if conns[i].role == Primary && conns[i].alive && age > interval {
          RotatePrimary(w, now, live);
          return;
        }
      }
    }

    method WatchPressure(ghost w: World<PooledConn>, now: int, live: bool) returns (ghost holds: bool)
      requires Valid() && Sees(w, now, live)
      modifies this`pendingBuilds, this`core, this`pressureTicks
      ensures Valid() && (core, holds) == PoolMonitor.WatchPressure(old(core), w)
    {
      var primary := Find(Primary, w, now, live);
      holds := primary.Some? && primary.value.UnderPressure();
      if primary.Some? && primary.value.UnderPressure() {
        pressureTicks := pressureTicks + 1;
      } else {
        pressureTicks := 0;
      }
      core := core.(pressureTicks := pressureTicks);
      if pressureTicks >= QUEUE_PRESSURE_SAMPLES && primary.Some? {
        ScheduleBuild(w);
      }
    }

    method MarkDegraded(c: PooledConn)
      requires Valid() && c in known
      modifies this`core, c`isDegraded
      ensures Valid() && core == old(core).(degraded := old(core).degraded + {c})
    {
      c.isDegraded := true;
      core := core.(degraded := core.degraded + {c});
    }

    method WatchLatency(ghost w: World<PooledConn>, now: int, live: bool) returns (ghost holds: bool)
      requires Valid() && Sees(w, now, live)
      modifies this`pendingBuilds, this`core, this`latencyTicks, known`isDegraded
      ensures Valid() && (core, holds) == PoolMonitor.WatchLatency(old(core), w)
    {
      var primary := Find(Primary, w, now, live);
      holds := primary.Some? && primary.value.writeLatency >= HIGH_WRITE_LATENCY;
      if primary.Some? && primary.value.writeLatency >= HIGH_WRITE_LATENCY {
        latencyTicks := latencyTicks + 1;
      } else {
        latencyTicks := 0;
      }
      core := core.(latencyTicks := latencyTicks);
      if latencyTicks >= LATENCY_HIGH_SAMPLES && primary.Some? {
        MarkDegraded(primary.value);
        ScheduleBuild(w);
      }
    }

    method WatchCritical(ghost w: World<PooledConn>, now: int, live: bool) returns (ghost holds: bool)
      requires Valid() && Sees(w, now, live)
      modifies this`pendingBuilds, this`core, this`criticalLatencyTicks, known`role, known`primarySince,
               known`plannedClose
      ensures Valid() && core == PoolMonitor.WatchCritical(old(core), w).0
              && holds == PoolMonitor.WatchCritical(old(core), w).1
    {
      var primary := Find(Primary, w, now, live);
      holds := primary.Some? && primary.value.writeLatency >= CRITICAL_WRITE_LATENCY;
      CountCritical(primary);
      if criticalLatencyTicks >= LATENCY_CRITICAL_TICKS && primary.Some? {
        RotatePrimary(w, now, live);
      }
    }

    method CountCritical(primary: Option<PooledConn>)
      requires Valid()
      modifies this`core, this`criticalLatencyTicks
      ensures Valid()
      ensures var holds := primary.Some? && primary.value.writeLatency >= CRITICAL_WRITE_LATENCY;
              core == old(core).(criticalTicks := Bump(old(core).criticalTicks, holds))
    {
      if primary.Some? && primary.value.writeLatency >= CRITICAL_WRITE_LATENCY {
        criticalLatencyTicks := criticalLatencyTicks + 1;
      } else {
        criticalLatencyTicks := 0;
      }
      core := core.(criticalTicks := criticalLatencyTicks);
    }

    /** `monitorTick` up to the age check. */
    method KeepPrimary(ghost w: World<PooledConn>, now: int, live: bool)
      requires Valid() && timeoutDetect.Valid() && Sees(w, now, live)
      modifies this`conns, this`core, this`pendingBuilds, timeoutDetect
      modifies known`role, known`primarySince, known`plannedClose
      ensures Valid() && timeoutDetect.Valid() && core == PoolMonitor.KeepPrimary(old(core), w, Steady(w)).0
    {
      assert At(w, w.alive) == w && Later(w, Steady(w)) == w;
      PruneDead(w, now, live);
      EnsurePrimary(w, now, live);
      RotateByAge(w, now, live);
    }

    /** The pressure and latency checks of `monitorTick`. */
    method WatchLoad(ghost w: World<PooledConn>, now: int, live: bool) returns (ghost pressure: bool, ghost high: bool)
      requires Valid() && Sees(w, now, live)
      modifies this`pendingBuilds, this`core, this`pressureTicks, this`latencyTicks, known`isDegraded
      ensures Valid() && (core, pressure, high) == PoolMonitor.WatchLoad(old(core), w, Steady(w))
    {
      assert At(w, w.alive) == w && Later(w, Steady(w)) == w;
      pressure := WatchPressure(w, now, live);
      high := WatchLatency(w, now, live);
    }

    /** The load and critical latency checks of `monitorTick`. */
    method Watch(ghost w: World<PooledConn>, now: int, live: bool)
      requires Valid() && Sees(w, now, live)
      modifies this`core, this`pendingBuilds, this`pressureTicks, this`latencyTicks, this`criticalLatencyTicks
      modifies known`role, known`primarySince, known`plannedClose, known`isDegraded
      ensures Valid() && core == Watched(old(core), w)
    {
      ghost var pressure, high := WatchLoad(w, now, live);
      ghost var critical := WatchCritical(w, now, live);
      core := core.(seen := core.seen + [Observation(pressure, high, critical)]);
    }

    /** `monitorTick`, on objects nothing else changes meanwhile, does what `Tick` says. */
    method MonitorTick(ghost w: World<PooledConn>, now: int, live: bool)
      requires Valid() && timeoutDetect.Valid() && Sees(w, now, live)
      modifies this`conns, this`core, this`pendingBuilds, this`pressureTicks, this`latencyTicks,
               this`criticalLatencyTicks
      modifies timeoutDetect, known`role, known`primarySince, known`plannedClose, known`isDegraded
      ensures Valid() && timeoutDetect.Valid() && core == Tick(old(core), w, Steady(w)).0
    {
      assert At(w, w.alive) == w && Later(w, Steady(w)) == w;
      KeepPrimary(w, now, live);
      Watch(w, now, live);
      EnsureStandbys(w, live);
    }

    // ---- builders -------------------------------------------------------------------------

    /** The second half of `buildStandby`: a freshly built connection enters the pool if there is room and is closed
        otherwise. Its builder has yet to sign off. */
    method AddStandby(b: nat, c: PooledConn, now: int)
      requires Valid() && c !in known && c.primarySince == None && !c.plannedClose && !c.isDegraded
               && c !in core.roles.since
      requires c !in core.planned && c !in core.degraded
      modifies this`conns, this`core, this`known, c`role, c`primarySince, c`alive, c`done
      ensures Valid() && core == Joined(old(core).(builds := Settled(old(core).builds, b)), c, maxTotal, now)
      ensures known == if |old(conns)| >= maxTotal then old(known) else old(known) + {c}
      ensures |old(conns)| >= maxTotal ==> !c.alive && c.done
    {
      core := core.(builds := Settled(core.builds, b));
      if |conns| >= maxTotal {
        c.Close();
        return;
      }
      c.SetRole(Standby, now);
      conns := conns + [c];
      known := known + {c};
      core := Joined(core, c, maxTotal, now);
    }

    /** The builder signs off. */
    method FinishBuild(b: nat)
      requires Valid() && pendingBuilds > 0
      modifies this`pendingBuilds, this`core
      ensures Valid()
      ensures var x := old(core).builds;
              core == old(core).(builds := x.(settled := x.settled - {b}, pending := x.pending - 1))
    {
      pendingBuilds := pendingBuilds - 1;
      core := core.(builds := core.builds.(settled := core.builds.settled - {b}, pending := core.builds.pending - 1));
    }

    method CloseAll()
      requires Valid()
      modifies this`conns, this`core, this`tcpFlows, known`alive, known`done
      ensures Valid() && core == old(core).(conns := []) && tcpFlows == map[]
      ensures forall c :: c in old(conns) ==> !c.alive && c.done
    {
      for i := 0 to |conns|
        invariant Valid() && core == old(core) && conns == old(conns)
        invariant forall j :: 0 <= j < i ==> !conns[j].alive && conns[j].done
      {
        conns[i].Close();
      }
      conns, tcpFlows := [], map[];
      core := core.(conns := []);
    }

    // ---- choosing a connection ------------------------------------------------------------

    /** `burstCandidates`: live primaries, then live standbys. */
    method FindCandidates(ghost w: World<PooledConn>, now: int, live: bool) returns (candidates: seq<PooledConn>)
      requires Valid() && Sees(w, now, live)
      ensures candidates == BurstCandidates(core, w.alive)
      ensures IsBurstOrder(candidates, conns, w.alive, core.roles.role)
      ensures forall c :: c in candidates <==> c in conns && c.alive && c.role != Draining
    {
      CandidatesAreInOrder(core, w.alive);
      assert forall c :: c in conns ==> c in known;
      candidates := Select(Primary, w, now, live);
      var standbys := Select(Standby, w, now, live);
      candidates := candidates + standbys;
    }

    method Select(r: Role, ghost w: World<PooledConn>, now: int, live: bool) returns (chosen: seq<PooledConn>)
      requires Valid() && Sees(w, now, live)
      ensures chosen == AllWith(conns, w.alive, core.roles.role, r)
    {
      chosen := [];
      for i := 0 to |conns|
        invariant chosen == AllWith(conns[..i], w.alive, core.roles.role, r)
      {
        NextWith(conns, i, w.alive, core.roles.role, r);
        assert conns[i] in known;
        if conns[i].role == r && conns[i].alive {
          chosen := chosen + [conns[i]];
        }
      }
      assert conns[..|conns|] == conns;
    }

    /** `tcpBurstStandby`: nobody unless the primary is degraded or under pressure; then the live standby with most free
        places, the earliest one on a tie. */
    method TcpBurstStandby(ghost w: World<PooledConn>, now: int, live: bool) returns (best: Option<PooledConn>)
      requires Valid() && Sees(w, now, live) && forall c :: c in known ==> |c.writeCh| <= c.capacity
      ensures best.Some? ==> PrimaryOf(core, w).Some? && Overloaded(PrimaryOf(core, w).value)
      ensures best.Some? ==> exists b :: 0 <= b < |conns| && conns[b] == best.value && IsBest(conns, b)
      ensures best == None && PrimaryOf(core, w).Some? && Overloaded(PrimaryOf(core, w).value)
        ==> forall i :: 0 <= i < |conns| ==> !conns[i].IsLiveStandby()
    {
      var primary := Find(Primary, w, now, live);
      best := None;
      if primary == None || !(primary.value.isDegraded || primary.value.UnderPressure()) {
        return;
      }
      best := MostRoom();
    }

    /** The loop of `tcpBurstStandby`. */
    method MostRoom() returns (best: Option<PooledConn>)
      requires forall c :: c in conns ==> |c.writeCh| <= c.capacity
      ensures best.Some? ==> exists b :: 0 <= b < |conns| && conns[b] == best.value && IsBest(conns, b)
      ensures best == None ==> forall i :: 0 <= i < |conns| ==> !conns[i].IsLiveStandby()
    {
      best := None;
      var bestAvail := -1;
      ghost var b := 0;
      for i := 0 to |conns|
        invariant best == None ==> bestAvail == -1 && forall j :: 0 <= j < i ==> !conns[j].IsLiveStandby()
        invariant best.Some? ==>
                    0 <= b < i && conns[b] == best.value && conns[b].IsLiveStandby() && bestAvail == conns[b].Avail()
        invariant best.Some? ==> forall j :: 0 <= j < i && conns[j].IsLiveStandby() ==> conns[j].Avail() <= bestAvail
        invariant best.Some? ==> forall j :: 0 <= j < b && conns[j].IsLiveStandby() ==> conns[j].Avail() < bestAvail
      {
        if conns[i].role != Standby || !conns[i].alive {
          continue;
        }
        var avail := conns[i].capacity - |conns[i].writeCh|;
        if avail > bestAvail {
          best, bestAvail, b := Some(conns[i]), avail, i;
        }
      }
    }

    // ---- the flow table -------------------------------------------------------------------

    method BoundTCPConn(f: FlowKey) returns (r: Option<PooledConn>)
      ensures r.Some? <==> f in tcpFlows && tcpFlows[f].target.alive && tcpFlows[f].target.role != Draining
      ensures r.Some? ==> r.value == tcpFlows[f].target
    {
      if f !in tcpFlows || !tcpFlows[f].target.alive || tcpFlows[f].target.role == Draining {
        return None;
      }
      r := Some(tcpFlows[f].target);
    }

    method AfterTCPEnqueue(h: TCPHeader, c: PooledConn, now: int)
      modifies this`tcpFlows
      ensures tcpFlows == Rebound(old(tcpFlows), h, c, now)
      ensures forall f :: f != h.flow ==>
                (f in tcpFlows <==> f in old(tcpFlows)) && (f in tcpFlows ==> tcpFlows[f] == old(tcpFlows)[f])
      ensures h.flow in tcpFlows <==> h.flags % 2 == 0 && h.flags / 4 % 2 == 0
      ensures h.flow in tcpFlows ==> tcpFlows[h.flow] == Binding(c, now)
    {
      if ClosesFlow(h) {
        tcpFlows := tcpFlows - {h.flow};
        return;
      }
      tcpFlows := tcpFlows[h.flow := Binding(c, now)];
    }

    ghost function UnusableTargets(flows: map<FlowKey, Binding<PooledConn>>): set<PooledConn>
      reads set f | f in flows :: flows[f].target
    {
      set f | f in flows && (!flows[f].target.alive || flows[f].target.role == Draining) :: flows[f].target
    }

    method ExpireTCPFlows(now: int)
      modifies this`tcpFlows
      ensures tcpFlows == Unexpired(old(tcpFlows), UnusableTargets(old(tcpFlows)), now)
      ensures forall f :: f in tcpFlows <==>
                f in old(tcpFlows) && old(tcpFlows)[f].target.alive && old(tcpFlows)[f].target.role != Draining
                && now - old(tcpFlows)[f].lastAt <= 120_000_000_000
      ensures forall f :: f in tcpFlows ==> tcpFlows[f] == old(tcpFlows)[f]
    {
      ghost var was := tcpFlows;
      ghost var gone := UnusableTargets(was);
      var left := tcpFlows.Keys;
      while left != {}
        invariant left <= was.Keys
        invariant forall f :: f in tcpFlows <==>
                    f in was && (f in left || (was[f].target !in gone && !Idle(was[f], now)))
        invariant forall f :: f in tcpFlows ==> tcpFlows[f] == was[f]
        decreases left
      {
        var f :| f in left;
        var c := tcpFlows[f].target;
        if !c.alive || c.role == Draining || now - tcpFlows[f].lastAt > FLOW_IDLE_TIMEOUT {
          tcpFlows := tcpFlows - {f};
        }
        left := left - {f};
      }
    }
  }

  lemma {:induction false} AllWithSnoc(members: seq<PooledConn>, k: PooledConn, alive: set<PooledConn>,
                                       role: map<PooledConn, Role>, r: Role)
    ensures AllWith(members + [k], alive, role, r)
         == AllWith(members, alive, role, r) + if k in alive && k in role && role[k] == r then [k] else []
  {
    if members != [] {
      assert (members + [k])[1..] == members[1..] + [k];
      AllWithSnoc(members[1..], k, alive, role, r);
    }
  }

  lemma NextWith(conns: seq<PooledConn>, i: nat, alive: set<PooledConn>, role: map<PooledConn, Role>, r: Role)
    requires i < |conns|
    ensures AllWith(conns[..i + 1], alive, role, r)
         == if conns[i] in alive && conns[i] in role && role[conns[i]] == r
            then AllWith(conns[..i], alive, role, r) + [conns[i]]
            else AllWith(conns[..i], alive, role, r)
  {
    assert conns[..i + 1] == conns[..i] + [conns[i]];
    AllWithSnoc(conns[..i], conns[i], alive, role, r);
  }

  /** Degraded, or with a queue that is at least four fifths full. */
  ghost predicate Overloaded(c: PooledConn)
    reads c
  {
    c.isDegraded || 5 * |c.writeCh| >= 4 * c.capacity > 0
  }

  /** The connection at `b` is a live standby, none has more free places, and no earlier one has as many. */
  ghost predicate IsBest(conns: seq<PooledConn>, b: nat)
    requires b < |conns|
    reads conns
  {
    && conns[b].IsLiveStandby()
    && (forall i :: 0 <= i < |conns| && conns[i].IsLiveStandby() ==> conns[i].Avail() <= conns[b].Avail())
    && (forall i :: 0 <= i < b && conns[i].IsLiveStandby() ==> conns[i].Avail() < conns[b].Avail())
  }

  ghost function Watched<K>(c: Core<K>, w: World<K>): Core<K> {
    var (c1, pressure, high) := PoolMonitor.WatchLoad(c, w, Steady(w));
    var (c2, critical, _) := PoolMonitor.WatchCritical(c1, w);
    c2.(seen := c2.seen + [Observation(pressure, high, critical)])
  }

  /** Nobody dies during the tick and no write completes between its readings. */
  function Steady<K>(w: World<K>): Phases<K> {
    Phases(w.alive, w.alive, w.alive, w.alive, w.alive, w.alive, [])
  }

  function ReportOf(c: PooledConn, w: World<PooledConn>, planned: set<PooledConn>): seq<(PooledConn, Duration)> {
    if c in w.alive || c in planned then [] else [(c, AgeOf(w, c))]
  }

  lemma {:induction false} LiveMembersAreKnown(conns: seq<PooledConn>, alive: set<PooledConn>, known: set<PooledConn>)
    requires NoDuplicates(conns) && forall c :: c in conns ==> c in known
    ensures NoDuplicates(AliveOnly(conns, alive)) && forall c :: c in AliveOnly(conns, alive) ==> c in known
  {
    AliveOnlyIs(conns, alive);
    forall c | c in AliveOnly(conns, alive) ensures c in known {
      InAliveOnly(conns, alive, c);
    }
  }

  ghost function Noted(c: Core<PooledConn>, reports: seq<(PooledConn, Duration)>): Core<PooledConn> {
    c.(recorded := c.recorded + reports, history := c.history + Kept(reports))
  }

  lemma NotedOne(core: Core<PooledConn>, c: PooledConn, lifetime: Duration, history: seq<Duration>)
    requires history == core.history + if lifetime < MIN_LIFETIME then [] else [lifetime]
    ensures Noted(core, [(c, lifetime)]).history == history
  {
    assert Kept([(c, lifetime)][1..]) == [];
    assert Kept([(c, lifetime)]) == if lifetime < MIN_LIFETIME then [] else [lifetime];
  }

  lemma NothingNoted(c: Core<PooledConn>)
    ensures Noted(c, []) == c
  {
    assert c.recorded + [] == c.recorded && c.history + [] == c.history;
  }

  lemma {:induction false} UnplannedSnoc(members: seq<PooledConn>, k: PooledConn, w: World<PooledConn>,
                                         planned: set<PooledConn>)
    ensures Unplanned(members + [k], w, planned) == Unplanned(members, w, planned) + ReportOf(k, w, planned)
    ensures AliveOnly(members + [k], w.alive) == AliveOnly(members, w.alive) + if k in w.alive then [k] else []
  {
    if members != [] {
      assert (members + [k])[1..] == members[1..] + [k];
      UnplannedSnoc(members[1..], k, w, planned);
    }
  }

  lemma NotedTwice(c: Core<PooledConn>, a: seq<(PooledConn, Duration)>, b: seq<(PooledConn, Duration)>)
    ensures Noted(Noted(c, a), b) == Noted(c, a + b)
  {
    KeptAppend(a, b);
    assert (c.recorded + a) + b == c.recorded + (a + b);
    assert (c.history + Kept(a)) + Kept(b) == c.history + (Kept(a) + Kept(b));
  }

  lemma NextMember(c: Core<PooledConn>, conns: seq<PooledConn>, i: nat, w: World<PooledConn>)
    requires i < |conns|
    ensures AliveOnly(conns[..i + 1], w.alive)
         == if conns[i] in w.alive then AliveOnly(conns[..i], w.alive) + [conns[i]] else AliveOnly(conns[..i], w.alive)
    ensures Noted(c, Unplanned(conns[..i + 1], w, c.planned))
         == Noted(Noted(c, Unplanned(conns[..i], w, c.planned)), ReportOf(conns[i], w, c.planned))
  {
    assert conns[..i + 1] == conns[..i] + [conns[i]];
    UnplannedSnoc(conns[..i], conns[i], w, c.planned);
    NotedTwice(c, Unplanned(conns[..i], w, c.planned), ReportOf(conns[i], w, c.planned));
  }

  lemma PromotedIsPrimary<K>(conns: seq<K>, alive: set<K>, t: Roles<K>, now: int)
    requires FirstWith(conns, alive, t.role, Primary) == None
    ensures ToPromote(conns, alive, t.role).Some? <==>
            FirstWith(conns, alive, Promote(conns, alive, t, now).role, Primary).Some?
  {
    FirstWithIs(conns, alive, t.role, Primary);
    FirstWithIs(conns, alive, t.role, Standby);
    FirstUsableIs(conns, alive, t.role);
    FirstWithIs(conns, alive, Promote(conns, alive, t, now).role, Primary);
  }
}
