/** Why the latency counters need runs without jumps: a write that completes between a tick's two readings of the
    smoothed latency makes the critical counter run ahead, and the primary is rotated out without ever being marked
    degraded. */
module PoolLatency {
  import opened Wrappers
  import opened Packet
  import opened EventLog
  import opened FlowTable
  import opened PoolRoles
  import opened TimeoutDetector
  import opened PoolMonitor
  import opened PoolTick
  import opened PoolModel
  import ConnState

  const POOL: Setup := Setup(3, 0)
  const BOTH: set<ConnId> := {0, 1}
  const SLOW_WRITE: int := 6 * SECOND

  /** Two live connections, a primary and a standby, with every place taken or being built. */
  ghost predicate Pair(c: Core<ConnId>) {
    match c
    case Core(conns, roles, planned, degraded, builds, _, _, _, _, _, history) =>
      && conns == [0, 1] && roles == Roles(map[0 := Primary, 1 := Standby], map[0 := 0]) && planned == {}
      && degraded == {}
      && history == [] && builds.pending == 2
  }

  /** The world these ticks see. */
  ghost predicate Calm(w: World<ConnId>, latency: map<ConnId, int>) {
    match w
    case World(alive, full, current, _, _, _, max, configured) =>
      alive == BOTH && full == {} && current == latency && max == 3 && configured == 0
  }

  function Alive(writes: seq<(ConnId, int)>): Phases<ConnId> {
    Phases(BOTH, BOTH, BOTH, BOTH, BOTH, BOTH, writes)
  }

  lemma PairIsFound(c: Core<ConnId>, now: int)
    requires Pair(c)
    ensures FirstWith(c.conns, BOTH, c.roles.role, Primary) == Some(0)
            && FirstWith(c.conns, BOTH, c.roles.role, Standby) == Some(1)
    ensures AliveOnly(c.conns, BOTH) == c.conns && DemoteExtra(c.conns, BOTH, c.roles, false, now) == c.roles
  {
    assert c.conns[1..] == [1] && [1][1..] == [];
    assert AliveOnly([1], BOTH) == [1];
    assert FirstWith([1], BOTH, c.roles.role, Standby) == Some(1);
    assert DemoteExtra([1], BOTH, c.roles, true, now) == c.roles;
  }

  lemma NoReports(c: Core<ConnId>, w: World<ConnId>, latency: map<ConnId, int>)
    requires Pair(c) && Calm(w, latency)
    ensures Prune(c, w) == c
  {
    PairIsFound(c, w.now);
    assert c.conns[1..] == [1] && [1][1..] == [];
    assert Unplanned([1], w, c.planned) == [];
    assert Unplanned(c.conns, w, c.planned) == [];
    assert c.recorded + [] == c.recorded && c.history + [] == c.history;
  }

  /** The stages before the latency stage do nothing but reset the pressure counter. */
  lemma EarlyStages(c: Core<ConnId>, w: World<ConnId>, latency: map<ConnId, int>, writes: seq<(ConnId, int)>)
    requires Pair(c) && Calm(w, latency)
    ensures KeepPrimary(c, w, Alive(writes)) == (c, None)
    ensures WatchPressure(c, w) == (c.(pressureTicks := 0), false)
  {
    assert PoolMonitor.At(w, BOTH) == w;
    NoReports(c, w, latency);
    PairIsFound(c, w.now);
    assert Verdicts(c.history) == [];
    assert Interval(c, w) == None;
  }

  /** A tick that reads no latency at all. */
  lemma IdleTick(c: Core<ConnId>, w: World<ConnId>)
    requires Pair(c) && Calm(w, map[])
    ensures var c' := c.(pressureTicks := 0, latencyTicks := 0, criticalTicks := 0,
                         seen := c.seen + [Observation(false, false, false)]);
            Tick(c, w, Alive([])) == (c', None, None)
  {
    EarlyStages(c, w, map[], []);
    PairIsFound(c, w.now);
    assert PoolMonitor.At(w, BOTH) == w && Later(w, Alive([])) == w;
  }

  /** A tick that reads no latency first and a critical one afterwards. */
  lemma TickWithJump(c: Core<ConnId>, w: World<ConnId>)
    requires Pair(c) && Calm(w, map[])
    ensures var c' := c.(pressureTicks := 0, latencyTicks := 0, criticalTicks := c.criticalTicks + 1,
                         seen := c.seen + [Observation(false, false, true)]);
            c.criticalTicks < 2 ==> Tick(c, w, Alive([(0, SLOW_WRITE)])) == (c', None, None)
  {
    EarlyStages(c, w, map[], [(0, SLOW_WRITE)]);
    PairIsFound(c, w.now);
    FirstWriteSets(map[]);
    assert PoolMonitor.At(w, BOTH) == w;
  }

  lemma FirstWriteSets(latency: map<ConnId, int>)
    requires 0 !in latency
    ensures AfterWrites(latency, [(0, SLOW_WRITE)]) == latency[0 := SLOW_WRITE]
  {
    assert [(0, SLOW_WRITE)][1..] == [];
  }

  /** A tick that reads the same critical latency twice. */
  lemma SteadyTick(c: Core<ConnId>, w: World<ConnId>)
    requires Pair(c) && Calm(w, map[0 := SLOW_WRITE]) && c.latencyTicks < 2
    ensures var c' := c.(pressureTicks := 0, latencyTicks := c.latencyTicks + 1, criticalTicks := c.criticalTicks + 1,
                         seen := c.seen + [Observation(false, true, true)]);
            c.criticalTicks < 2 ==> Tick(c, w, Alive([])) == (c', None, None)
    ensures c.criticalTicks == 2 ==> Tick(c, w, Alive([])).2 == Some(0) && Tick(c, w, Alive([])).0.degraded == {}
  {
    EarlyStages(c, w, map[0 := SLOW_WRITE], []);
    PairIsFound(c, w.now);
    assert PoolMonitor.At(w, BOTH) == w && Later(w, Alive([])) == w;
  }

  // ---- building the run -------------------------------------------------------------------

  datatype Trace = Trace(states: seq<State>, steps: seq<Step>)

  ghost predicate LeadsTo(cap: nat, t: Trace, s: State) {
    Run(POOL, cap, t.states, t.steps) && t.states[|t.steps|] == s
  }

  ghost predicate Extends(t: Trace, t': Trace) {
    t.states <= t'.states && t.steps <= t'.steps
  }

  function Plus(t: Trace, step: Step, s: State): Trace {
    Trace(t.states + [s], t.steps + [step])
  }

  lemma GoOn(cap: nat, t: Trace, s: State, step: Step, s': State)
    requires LeadsTo(cap, t, s) && Next(POOL, s, step, s')
    ensures LeadsTo(cap, Plus(t, step, s'), s') && Extends(t, Plus(t, step, s'))
  {
    var t' := Plus(t, step, s');
    forall i | 0 <= i < |t'.steps| ensures Next(POOL, t'.states[i], t'.steps[i], t'.states[i + 1]) {
      if i < |t.steps| {
        assert t'.states[i] == t.states[i] && t'.states[i + 1] == t.states[i + 1];
      }
    }
  }

  // ---- ticks ------------------------------------------------------------------------------

  /** A state whose ticks see such a world. */
  ghost predicate Ticking(s: State, latency: map<ConnId, int>) {
    match s
    case State(core, alive, _, chans, _, current, _, _, _, _, _, _) =>
      && Pair(core) && alive == BOTH && current == latency
      && chans.Keys == BOTH && forall id :: id in chans ==> chans[id].queue == []
  }

  lemma TickingIsCalm(s: State, latency: map<ConnId, int>)
    requires Ticking(s, latency)
    ensures Calm(WorldOf(POOL, s), latency)
  {
    assert forall id :: id in s.chans ==> !PoolModel.Pressure(s.chans[id]);
  }

  /** What a tick without rotation leaves alone. */
  ghost predicate SameQueues(s: State, s': State) {
    s'.chans == s.chans && s'.now == s.now && s'.live == s.live
  }

  lemma TickStepIs(s: State, latency: map<ConnId, int>, writes: seq<(ConnId, int)>, core: Core<ConnId>)
    returns (s': State)
    requires Ticking(s, latency) && Tick(s.core, WorldOf(POOL, s), Alive(writes)) == (core, None, None) && Pair(core)
    requires forall x :: x in writes ==> x.0 in BOTH
    ensures Next(POOL, s, Env(MonitorTick(Alive(writes))), s') && SameQueues(s, s')
    ensures s'.core == core && Ticking(s', AfterWrites(latency, writes))
  {
    s' := TickStep(POOL, s, Alive(writes));
    TickIsNext(s, latency, writes);
  }

  lemma TickIsNext(s: State, latency: map<ConnId, int>, writes: seq<(ConnId, int)>)
    requires Ticking(s, latency) && forall x :: x in writes ==> x.0 in BOTH
    ensures Next(POOL, s, Env(MonitorTick(Alive(writes))), TickStep(POOL, s, Alive(writes)))
  {
    NobodyDies(writes);
    BuildIsNext(s, MonitorTick(Alive(writes)), TickStep(POOL, s, Alive(writes)));
  }

  lemma NobodyDies(writes: seq<(ConnId, int)>)
    ensures Shrinking(Alive(writes))
  {}

  lemma BuildIsNext(s: State, e: EnvStep, s': State)
    requires BuildNext(POOL, s, e, s')
    ensures Next(POOL, s, Env(e), s')
  {}

  lemma EnvIsNext(s: State, e: EnvStep, s': State)
    requires EnvNext(s, e, s')
    ensures Next(POOL, s, Env(e), s')
  {}

  /** One second later, with the counters as they are. */
  lemma SecondPasses(cap: nat, t: Trace, s: State, latency: map<ConnId, int>) returns (t': Trace, s': State)
    requires LeadsTo(cap, t, s) && Ticking(s, latency)
    ensures LeadsTo(cap, t', s') && Extends(t, t') && s' == s.(now := s.now + SECOND) && Ticking(s', latency)
    ensures |t'.steps| == |t.steps| + 1
  {
    s' := s.(now := s.now + SECOND);
    EnvIsNext(s, Pass(SECOND), s');
    t' := Plus(t, Env(Pass(SECOND)), s');
    GoOn(cap, t, s, Env(Pass(SECOND)), s');
  }

  ghost predicate Counts(s: State, latencyTicks: nat, criticalTicks: nat) {
    s.core.latencyTicks == latencyTicks && s.core.criticalTicks == criticalTicks
  }

  /** `k` seconds with a tick at the end of each, while no write has ended yet. */
  lemma {:induction false} SecondsPass(cap: nat, t: Trace, s: State, k: nat) returns (t': Trace, s': State)
    requires LeadsTo(cap, t, s) && Ticking(s, map[]) && Counts(s, 0, 0)
    ensures LeadsTo(cap, t', s') && Extends(t, t') && Ticking(s', map[]) && Counts(s', 0, 0)
    ensures s'.chans == s.chans && s'.now == s.now + k * SECOND
  {
    t', s' := t, s;
    if k > 0 {
      var t1, s1 := SecondsPass(cap, t, s, k - 1);
      var t2, s2 := SecondPasses(cap, t1, s1, map[]);
      t', s' := TickIdly(cap, t2, s2);
    }
  }

  lemma TickIdly(cap: nat, t: Trace, s: State) returns (t': Trace, s': State)
    requires LeadsTo(cap, t, s) && Ticking(s, map[])
    ensures LeadsTo(cap, t', s') && Extends(t, t') && Ticking(s', map[]) && Counts(s', 0, 0) && SameQueues(s, s')
  {
    TickingIsCalm(s, map[]);
    IdleTick(s.core, WorldOf(POOL, s));
    s' := TickStepIs(s, map[], [], Tick(s.core, WorldOf(POOL, s), Alive([])).0);
    GoOn(cap, t, s, Env(MonitorTick(Alive([]))), s');
    t' := Plus(t, Env(MonitorTick(Alive([]))), s');
  }

  // ---- a pair of connections --------------------------------------------------------------

  /** `Connect` has filled the pool and the first builder has delivered. */
  lemma PairIsBuilt(cap: nat) returns (t: Trace, s: State)
    ensures LeadsTo(cap, t, s) && Ticking(s, map[]) && Counts(s, 0, 0) && s.now == 0
    ensures s.chans == map[0 := NewChan(cap), 1 := NewChan(cap)] && s.calls == map[] && s.live
  {
    var s1, s2 := BuildSteps(cap);
    t, s := Plus(Plus(Trace([Start(cap)], []), Env(FillUp), s1), Env(BuildAppend(0, 1, cap, 0)), s2), s2;
    assert LeadsTo(cap, Trace([Start(cap)], []), Start(cap));
    GoOn(cap, Trace([Start(cap)], []), Start(cap), Env(FillUp), s1);
    GoOn(cap, Plus(Trace([Start(cap)], []), Env(FillUp), s1), s1, Env(BuildAppend(0, 1, cap, 0)), s2);
  }

  lemma BuildSteps(cap: nat) returns (s1: State, s2: State)
    ensures Next(POOL, Start(cap), Env(FillUp), s1) && Next(POOL, s1, Env(BuildAppend(0, 1, cap, 0)), s2)
    ensures Ticking(s2, map[]) && Counts(s2, 0, 0) && s2.now == 0
    ensures s2.chans == map[0 := NewChan(cap), 1 := NewChan(cap)] && s2.calls == map[] && s2.live
  {
    var s := Start(cap);
    s1 := s.(core := EnsureStandbys(s.core, WorldOf(POOL, s)));
    TwoBuilds();
    assert s1.core.builds == Builds(2, {0, 1}, {}, 2);
    s2 := AppendStep(POOL, s1, 0, 1, cap, 0);
    assert [0] + [1] == [0, 1];
  }

  lemma TwoBuilds()
    ensures EnsureBuilds(Builds(0, {}, {}, 0), 1, 3) == Builds(2, {0, 1}, {}, 2)
  {
    var b1 := Schedule(Builds(0, {}, {}, 0), 1, 3);
    assert b1 == Builds(1, {0}, {}, 1);
    assert Schedule(b1, 1, 3) == Builds(2, {0, 1}, {}, 2);
  }

  // ---- one packet -------------------------------------------------------------------------

  /** An echo request from 10.0.0.2 to 10.0.0.3. */
  const PING: Datagram :=
    Datagram(0, [0, 0, 0, 0], 64, PROTOCOL_ICMP, [0, 0], 0x0A00_0002, 0x0A00_0003, [], [])

  lemma PingIsDispatched()
    ensures ParseIPv4(Encode(PING)).Ok? && ParseIPv4(Encode(PING)).value.ihl >= 0
    ensures Dispatch(ParseIPv4(Encode(PING)).value) == Call(None, Seek)
  {
    assert Encode(PING) + [] == Encode(PING);
    ParseInvertsEncode(PING, []);
  }

  /** The state with the packet's call standing at `pc`. */
  function Standing(s: State, pc: Pc): State {
    s.(calls := map[0 := Call(None, pc)], cur := 0)
  }

  lemma CallMoves(cap: nat, t: Trace, s: State, pc: Pc, pc': Pc) returns (t': Trace)
    requires LeadsTo(cap, t, Standing(s, pc)) && CanMove(Standing(s, pc), Call(None, pc), pc')
    ensures LeadsTo(cap, t', Standing(s, pc')) && Extends(t, t')
  {
    var s0 := Standing(s, pc);
    assert PoolModel.At(s0, Call(None, pc), pc') == Standing(s, pc');
    t' := Plus(t, Pump(Move(pc')), Standing(s, pc'));
    GoOn(cap, t, s0, Pump(Move(pc')), Standing(s, pc'));
  }

  /** The packet reaches the primary's queue. */
  lemma PingIsOffered(cap: nat, t: Trace, s: State) returns (t': Trace)
    requires LeadsTo(cap, t, s) && Ticking(s, map[]) && s.calls == map[] && s.live
    ensures LeadsTo(cap, t', Standing(s, TimedWait(0))) && Extends(t, t')
  {
    PingIsDispatched();
    PairIsFound(s.core, s.now);
    var t0 := Plus(t, Step.Begin(0, Encode(PING)), Standing(s, Seek));
    GoOn(cap, t, s, Step.Begin(0, Encode(PING)), Standing(s, Seek));
    var t1 := CallMoves(cap, t0, s, Seek, Look);
    var t2 := CallMoves(cap, t1, s, Look, TimedCheck(0));
    t' := CallMoves(cap, t2, s, TimedCheck(0), TimedWait(0));
  }

  /** The write loop has taken the packet off that queue. */
  ghost predicate Sending(s: State) {
    Ticking(s, map[]) && s.chans[0].writer == Writing && s.chans[0].taken != []
  }

  /** The packet is accepted. */
  lemma PingIsPushed(cap: nat, t: Trace, s: State) returns (t': Trace, s': State)
    requires LeadsTo(cap, t, s) && Ticking(s, map[]) && s.calls == map[] && s.live && cap > 0
    requires s.chans == map[0 := NewChan(cap), 1 := NewChan(cap)]
    ensures LeadsTo(cap, t', s') && Waiting(s, s')
  {
    var t1 := PingIsOffered(cap, t, s);
    var s1 := Standing(s, TimedWait(0));
    s' := PushStep(s1, Call(None, TimedWait(0)), 0);
    GoOn(cap, t1, s1, Pump(Push(0)), s');
    t' := Plus(t1, Pump(Push(0)), s');
  }

  /** The packet waits in the primary's queue and nothing else has changed. */
  ghost predicate Waiting(s: State, s': State) {
    s'.core == s.core && s'.alive == s.alive && s'.latency == s.latency && s'.now == s.now
    && s'.chans.Keys == BOTH && s'.chans[1].queue == [] && s'.chans[0].writer == Idling
    && s'.chans[0].queue == [Frame(0, None)]
  }

  /** The write loop takes it. */
  lemma PingIsTaken(cap: nat, t: Trace, s0: State, s: State) returns (s': State)
    requires LeadsTo(cap, t, s) && Ticking(s0, map[]) && Waiting(s0, s)
    ensures LeadsTo(cap, Plus(t, Env(Take(0)), s'), s') && Sending(s') && s'.now == s.now && s'.core == s.core
  {
    s' := s.(chans := s.chans[0 := TakenOff(s.chans[0])]);
    EnvIsNext(s, Take(0), s');
    GoOn(cap, t, s, Env(Take(0)), s');
    assert s'.chans.Keys == BOTH;
  }

  /** The write returns without an error. */
  lemma WriteReturns(cap: nat, t: Trace, s: State) returns (t': Trace, s': State)
    requires LeadsTo(cap, t, s) && Sending(s)
    ensures LeadsTo(cap, t', s') && Extends(t, t') && Ticking(s', map[]) && s'.now == s.now && s'.core == s.core
    ensures t' == Plus(t, Env(Wrote(0, true)), s')
  {
    s' := WroteStep(s, 0, true);
    EnvIsNext(s, Wrote(0, true), s');
    t' := Plus(t, Env(Wrote(0, true)), s');
    GoOn(cap, t, s, Env(Wrote(0, true)), s');
    assert s'.chans.Keys == BOTH;
  }

  // ---- the three critical ticks -----------------------------------------------------------

  const SLOW: map<ConnId, int> := map[0 := SLOW_WRITE]

  lemma FirstTick(s: State) returns (s': State)
    requires Ticking(s, map[]) && Counts(s, 0, 0)
    ensures Next(POOL, s, Env(MonitorTick(Alive([(0, SLOW_WRITE)]))), s') && Ticking(s', SLOW) && Counts(s', 0, 1)
  {
    TickingIsCalm(s, map[]);
    TickWithJump(s.core, WorldOf(POOL, s));
    s' := TickStepIs(s, map[], [(0, SLOW_WRITE)], Tick(s.core, WorldOf(POOL, s), Alive([(0, SLOW_WRITE)])).0);
    FirstWriteSets(map[]);
  }

  lemma SecondTick(s: State) returns (s': State)
    requires Ticking(s, SLOW) && Counts(s, 0, 1)
    ensures Next(POOL, s, Env(MonitorTick(Alive([]))), s') && Ticking(s', SLOW) && Counts(s', 1, 2)
  {
    TickingIsCalm(s, SLOW);
    SteadyTick(s.core, WorldOf(POOL, s));
    s' := TickStepIs(s, SLOW, [], Tick(s.core, WorldOf(POOL, s), Alive([])).0);
  }

  /** A tick from `s` to `s'` rotates the primary out, which has not been marked degraded. */
  ghost predicate RotatesUndegraded(s: State, s': State) {
    Tick(s.core, WorldOf(POOL, s), Alive([])).2 == Some(0) && 0 !in s'.core.degraded
  }

  lemma ThirdTick(s: State) returns (s': State)
    requires Ticking(s, SLOW) && Counts(s, 1, 2)
    ensures Next(POOL, s, Env(MonitorTick(Alive([]))), s') && RotatesUndegraded(s, s')
  {
    TickingIsCalm(s, SLOW);
    SteadyTick(s.core, WorldOf(POOL, s));
    s' := TickStep(POOL, s, Alive([]));
    TickIsNext(s, SLOW, []);
  }

  lemma PassIsNext(s: State, latency: map<ConnId, int>) returns (s': State)
    requires Ticking(s, latency)
    ensures Next(POOL, s, Env(Pass(SECOND)), s') && s' == s.(now := s.now + SECOND) && Ticking(s', latency)
  {
    s' := s.(now := s.now + SECOND);
    EnvIsNext(s, Pass(SECOND), s');
  }

  // ---- the run ----------------------------------------------------------------------------

  /** Before step `i` the primary's only write, which began with step `j` six seconds earlier, returns; step `i` is the
      tick between whose two readings it is recorded. After it the critical counter is ahead of the latency counter. */
  ghost predicate SlowWrite(t: Trace, j: nat, i: nat) {
    match t
    case Trace(states, steps) =>
      && j + 1 < i < |steps| < |states|
      && steps[j] == Env(Take(0)) && steps[i - 1] == Env(Wrote(0, true))
      && steps[i] == Env(MonitorTick(Alive([(0, SLOW_WRITE)]))) && states[i].now == states[j].now + SLOW_WRITE
      && states[i + 1].core.criticalTicks > states[i + 1].core.latencyTicks
  }

  ghost predicate Recorded(cap: nat, t: Trace, s: State) {
    LeadsTo(cap, t, s) && exists j: nat, i: nat :: SlowWrite(t, j, i)
  }

  lemma PrefixKeepsSlowWrite(t: Trace, t': Trace, j: nat, i: nat)
    requires Extends(t, t') && SlowWrite(t, j, i) && |t'.steps| < |t'.states|
    ensures SlowWrite(t', j, i)
  {}

  lemma StaysRecorded(cap: nat, t: Trace, s: State, step: Step, s': State)
    requires Recorded(cap, t, s) && Next(POOL, s, step, s')
    ensures Recorded(cap, Plus(t, step, s'), s')
  {
    GoOn(cap, t, s, step, s');
    var j: nat, i: nat :| SlowWrite(t, j, i);
    PrefixKeepsSlowWrite(t, Plus(t, step, s'), j, i);
  }

  /** The write that began with step `j` has been under way for `d`. */
  ghost predicate UnderWay(cap: nat, t: Trace, s: State, j: nat, d: int) {
    && LeadsTo(cap, t, s) && Sending(s) && Counts(s, 0, 0)
    && j < |t.steps| && t.steps[j] == Env(Take(0)) && s.now == t.states[j].now + d
  }

  lemma WriteBegins(cap: nat) returns (t: Trace, s: State, j: nat)
    requires cap > 0
    ensures UnderWay(cap, t, s, j, 0)
  {
    var t1, s1 := PairIsBuilt(cap);
    var t2, s2 := PingIsPushed(cap, t1, s1);
    s := PingIsTaken(cap, t2, s1, s2);
    t := Plus(t2, Env(Take(0)), s);
    j := |t2.steps|;
  }

  /** Six seconds, five of them with a tick at their end. */
  lemma SixSeconds(cap: nat, t: Trace, s: State, j: nat) returns (t': Trace, s': State)
    requires UnderWay(cap, t, s, j, 0)
    ensures UnderWay(cap, t', s', j, SLOW_WRITE)
  {
    var t1, s1 := SecondsPass(cap, t, s, 5);
    t', s' := SecondPasses(cap, t1, s1, map[]);
  }

  lemma ReturnsAndTicks(cap: nat, t: Trace, s: State, j: nat) returns (t': Trace, s': State)
    requires UnderWay(cap, t, s, j, SLOW_WRITE)
    ensures Recorded(cap, t', s') && Ticking(s', SLOW) && Counts(s', 0, 1)
  {
    var t1, s1 := WriteReturns(cap, t, s);
    s' := FirstTick(s1);
    GoOn(cap, t1, s1, Env(MonitorTick(Alive([(0, SLOW_WRITE)]))), s');
    t' := Plus(t1, Env(MonitorTick(Alive([(0, SLOW_WRITE)]))), s');
    assert SlowWrite(t', j, |t1.steps|);
  }

  lemma WriteIsRecorded(cap: nat) returns (t: Trace, s: State)
    requires cap > 0
    ensures Recorded(cap, t, s) && Ticking(s, SLOW) && Counts(s, 0, 1)
  {
    var t1, s1, j := WriteBegins(cap);
    var t2, s2 := SixSeconds(cap, t1, s1, j);
    t, s := ReturnsAndTicks(cap, t2, s2, j);
  }

  lemma TwoMoreTicks(s: State) returns (s1: State, s2: State, s3: State, s4: State)
    requires Ticking(s, SLOW) && Counts(s, 0, 1)
    ensures Next(POOL, s, Env(Pass(SECOND)), s1) && Next(POOL, s1, Env(MonitorTick(Alive([]))), s2)
    ensures Next(POOL, s2, Env(Pass(SECOND)), s3) && Next(POOL, s3, Env(MonitorTick(Alive([]))), s4)
    ensures RotatesUndegraded(s3, s4)
  {
    s1 := PassIsNext(s, SLOW);
    s2 := SecondTick(s1);
    s3 := PassIsNext(s2, SLOW);
    s4 := ThirdTick(s3);
  }

  /** The run, with a tick at every full second: the pool has a standby and one packet is being written for six seconds.
      The write is recorded between the two readings of a tick, so that the critical counter is ahead of the latency
      counter; two ticks later the primary is rotated out without having been marked degraded. */
  lemma CriticalRunsAhead(cap: nat) returns (t: Trace, s: State, s': State)
    requires cap > 0
    ensures Recorded(cap, t, s) && Next(POOL, s, Env(MonitorTick(Alive([]))), s') && RotatesUndegraded(s, s')
  {
    var t0, s0 := WriteIsRecorded(cap);
    var s1, s2, s3, s4 := TwoMoreTicks(s0);
    t := ThreeStepsOn(cap, t0, s0, s1, s2, s3);
    s, s' := s3, s4;
  }

  lemma ThreeStepsOn(cap: nat, t: Trace, s: State, s1: State, s2: State, s3: State) returns (t': Trace)
    requires Recorded(cap, t, s) && Next(POOL, s, Env(Pass(SECOND)), s1)
    requires Next(POOL, s1, Env(MonitorTick(Alive([]))), s2) && Next(POOL, s2, Env(Pass(SECOND)), s3)
    ensures Recorded(cap, t', s3)
  {
    StaysRecorded(cap, t, s, Env(Pass(SECOND)), s1);
    var t1 := Plus(t, Env(Pass(SECOND)), s1);
    StaysRecorded(cap, t1, s1, Env(MonitorTick(Alive([]))), s2);
    var t2 := Plus(t1, Env(MonitorTick(Alive([]))), s2);
    StaysRecorded(cap, t2, s2, Env(Pass(SECOND)), s3);
    t' := Plus(t2, Env(Pass(SECOND)), s3);
  }
}
