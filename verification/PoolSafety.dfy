/** What every step of the pool keeps: roles, membership and the build ledger, the monitor's history, conservation of
    packets in the queues, and acceptance of each packet at most once. */
module PoolSafety {
  import opened Wrappers
  import opened Packet
  import opened EventLog
  import opened FlowTable
  import opened Registry
  import opened PoolRoles
  import opened PoolMonitor
  import opened PoolTick
  import opened PoolModel

  // ---- membership and roles ---------------------------------------------------------------

  /** Everything named anywhere is a connection that was in the pool at some time, and everyone alive is in it now. */
  ghost predicate KnownInv(s: State) {
    match s
    case State(core, alive, done, chans, _, _, flows, _, _, _, _, _) =>
      && core.roles.role.Keys == chans.Keys && core.planned <= chans.Keys
      && (forall id :: id in core.conns || id in alive || id in done ==> id in chans)
      && (forall id :: id in alive ==> id in core.conns && id !in done)
      && (forall r :: r in core.recorded ==> r.0 in chans)
      && (forall f :: f in flows ==> flows[f].target in chans)
  }

  /** A connection about to be bound is known. */
  ghost predicate AfterKnown(s: State) {
    s.cur in s.calls && s.calls[s.cur].pc.After? ==> s.calls[s.cur].pc.t in s.chans
  }

  ghost predicate HistoryInv(s: State) {
    match s
    case State(core, alive, _, _, _, _, _, _, _, _, _, _) => TicksInv(core) && ReportsInv(core, alive)
  }

  ghost predicate CoreInv(u: Setup, s: State) {
    match s
    case State(core, alive, _, _, _, _, _, _, _, _, _, _) =>
      RolesInv(core, alive, u.max) && KnownInv(s) && AfterKnown(s) && HistoryInv(s)
  }

  lemma EnvEffect(s: State, e: EnvStep, s': State)
    requires EnvNext(s, e, s')
    ensures s'.core == s.core && s'.alive <= s.alive
    ensures forall id :: id in s'.done ==> id in s.done || (id in s.chans && id !in s.alive)
    ensures forall f :: f in s'.flows ==> f in s.flows && s'.flows[f] == s.flows[f]
  {
    EnvKeepsDone(s, e, s');
    EnvShrinksFlows(s, e, s');
  }

  lemma EnvKeepsDone(s: State, e: EnvStep, s': State)
    requires EnvNext(s, e, s')
    ensures forall id :: id in s'.done ==> id in s.done || (id in s.chans && id !in s.alive)
  {}

  lemma EnvShrinksFlows(s: State, e: EnvStep, s': State)
    requires EnvNext(s, e, s')
    ensures forall f :: f in s'.flows ==> f in s.flows && s'.flows[f] == s.flows[f]
  {}

  lemma EnvKeepsCalls(s: State, e: EnvStep, s': State)
    requires EnvNext(s, e, s')
    ensures s'.chans.Keys == s.chans.Keys && s'.calls == s.calls && s'.cur == s.cur
  {
    EnvKeepsKeys(s, e, s');
  }

  lemma EnvKeepsKeys(s: State, e: EnvStep, s': State)
    requires EnvNext(s, e, s')
    ensures s'.chans.Keys == s.chans.Keys
  {
    if e.Take? || e.Wrote? {
      assert s'.chans == s.chans[e.id := s'.chans[e.id]];
    } else {
      assert s'.chans == s.chans;
    }
  }

  lemma EnvKeepsCore(u: Setup, s: State, e: EnvStep, s': State)
    requires CoreInv(u, s) && EnvNext(s, e, s')
    ensures CoreInv(u, s')
  {
    EnvEffect(s, e, s');
    EnvKeepsCalls(s, e, s');
    DeathsKeepRoles(s.core, s.alive, s'.alive, u.max);
    FewerAliveKeepReports(s.core, s.alive, s'.alive);
    assert KnownInv(s');
  }

  lemma FewerAliveKeepReports(c: Core<ConnId>, alive: set<ConnId>, alive': set<ConnId>)
    requires ReportsInv(c, alive) && alive' <= alive
    ensures ReportsInv(c, alive')
  {}

  lemma TickKeepsKnown(u: Setup, s: State, a: Phases<ConnId>)
    requires CoreInv(u, s) && Shrinking(a) && a.prune <= s.alive
    ensures CoreInv(u, TickStep(u, s, a))
  {
    var w := WorldOf(u, s);
    var (c', byAge, byLatency) := Tick(s.core, w, a);
    DeathsKeepRoles(s.core, s.alive, a.prune, u.max);
    TickKeepsRoles(s.core, w, a);
    TickCounts(s.core, w, a);
    assert ReportsInv(s.core, a.prune);
    var reports := TickReports(s.core, w, a);
    StagesKeepMembers(s.core, w, a);
    MembersAfterTick(u, s, a, reports);
  }

  lemma MembersAfterTick(u: Setup, s: State, a: Phases<ConnId>, reports: seq<(ConnId, int)>)
    requires KnownInv(s) && AfterKnown(s) && Shrinking(a) && a.prune <= s.alive
    requires var (c', byAge, byLatency) := Tick(s.core, WorldOf(u, s), a);
             && Drifts(s.core, c', a.prune, AsSet(byAge) + AsSet(byLatency))
             && c'.conns == AliveOnly(s.core.conns, a.prune) && c'.recorded == s.core.recorded + reports
    requires forall r :: r in reports ==> r.0 in s.core.conns
    ensures KnownInv(TickStep(u, s, a)) && AfterKnown(TickStep(u, s, a))
  {
    forall k ensures k in AliveOnly(s.core.conns, a.prune) <==> k in s.core.conns && k in a.prune {
      InAliveOnly(s.core.conns, a.prune, k);
    }
  }

  /** `ensureStandbys`, and `primaryOrWait` scheduling a build. */
  lemma FillUpKeepsCore(u: Setup, s: State, s': State)
    requires CoreInv(u, s) && s' == s.(core := EnsureStandbys(s.core, WorldOf(u, s)))
    ensures CoreInv(u, s')
  {
    EnsureStandbysFills(s.core, WorldOf(u, s));
    assert KnownInv(s');
  }

  lemma SettledKeepsLedger(b: Builds, n: nat, max: nat, x: nat)
    requires LedgerInv(b, n, max) && x in b.dialing
    ensures LedgerInv(Settled(b, x), n, max) && LedgerInv(Settled(b, x), n + 1, max)
  {
    assert |b.dialing - {x}| == |b.dialing| - 1 && |b.settled + {x}| == |b.settled| + 1;
  }

  lemma FinishKeepsLedger(b: Builds, n: nat, max: nat, x: nat)
    requires LedgerInv(b, n, max) && x in b.settled
    ensures b.pending > 0 && LedgerInv(b.(settled := b.settled - {x}, pending := b.pending - 1), n, max)
  {
    assert |b.settled - {x}| == |b.settled| - 1;
  }

  /** Any change of the builds alone. */
  lemma BuildsKeepCore(u: Setup, s: State, s': State)
    requires CoreInv(u, s) && s' == s.(core := s.core.(builds := s'.core.builds))
    requires LedgerInv(s'.core.builds, |s.core.conns|, u.max)
    ensures CoreInv(u, s')
  {
    assert KnownInv(s');
  }

  /** The overflow check of `buildStandby` never fires: while a builder is dialling there is room for its connection. */
  lemma BuilderHasRoom(u: Setup, s: State, b: nat)
    requires RolesInv(s.core, s.alive, u.max) && b in s.core.builds.dialing
    ensures |s.core.conns| < u.max
  {}

  lemma AppendKeepsRoles(u: Setup, s: State, b: nat, id: ConnId, cap: nat, born: int)
    requires CoreInv(u, s) && b in s.core.builds.dialing && id !in s.chans
    ensures var s' := AppendStep(u, s, b, id, cap, born);
            RolesInv(s'.core, s'.alive, u.max) && ReportsInv(s'.core, s'.alive) && TicksInv(s'.core)
  {
    BuilderHasRoom(u, s, b);
    SettledKeepsLedger(s.core.builds, |s.core.conns|, u.max, b);
    var s' := AppendStep(u, s, b, id, cap, born);
    assert NoDuplicates(s'.core.conns);
    assert SinglePrimary(s'.core.conns, s'.alive, s'.core.roles.role);
  }

  lemma AppendKeepsCore(u: Setup, s: State, b: nat, id: ConnId, cap: nat, born: int)
    requires CoreInv(u, s) && b in s.core.builds.dialing && id !in s.chans
    ensures CoreInv(u, AppendStep(u, s, b, id, cap, born))
  {
    AppendKeepsRoles(u, s, b, id, cap, born);
    BuilderHasRoom(u, s, b);
    assert KnownInv(AppendStep(u, s, b, id, cap, born));
  }

  lemma CloseAllKeepsCore(u: Setup, s: State)
    requires CoreInv(u, s) && forall id :: id in s.core.conns ==> id !in s.alive
    ensures CoreInv(u, CloseAllStep(s))
  {
    FewerConnsKeepLedger(s.core.builds, |s.core.conns|, 0, u.max);
    assert RolesInv(CloseAllStep(s).core, s.alive, u.max);
    assert KnownInv(CloseAllStep(s));
    assert ReportsInv(CloseAllStep(s).core, s.alive);
  }

  lemma BuildKeepsCore(u: Setup, s: State, e: EnvStep, s': State)
    requires CoreInv(u, s) && BuildNext(u, s, e, s')
    ensures CoreInv(u, s')
  {
    if e.MonitorTick? {
      TickKeepsKnown(u, s, e.phases);
    } else if e.FillUp? {
      FillUpKeepsCore(u, s, s');
    } else if e.BuildFail? {
      SettledKeepsLedger(s.core.builds, |s.core.conns|, u.max, e.b);
      BuildsKeepCore(u, s, s');
    } else if e.BuildFinish? {
      FinishKeepsLedger(s.core.builds, |s.core.conns|, u.max, e.b);
      BuildsKeepCore(u, s, s');
    } else if e.BuildAppend? {
      AppendKeepsCore(u, s, e.b, e.id, e.cap, e.born);
    } else {
      CloseAllKeepsCore(u, s);
    }
  }

  lemma PumpKeepsCore(u: Setup, s: State, c: Call, k: CallStep, s': State)
    requires CoreInv(u, s) && s.cur in s.calls && c == s.calls[s.cur] && PumpNext(u, s, c, k, s')
    ensures CoreInv(u, s')
  {
    if k.Ensure? {
      EnsureKeepsCore(u, s, c);
    } else {
      assert s'.core == s.core && s'.alive == s.alive && s'.done == s.done && s'.chans.Keys == s.chans.Keys;
      if k.Move? { MoveIsNoAcceptance(s, c, k.pc); }
      assert AfterKnown(s') && KnownInv(s');
    }
  }

  lemma EnsureKeepsCore(u: Setup, s: State, c: Call)
    requires CoreInv(u, s)
    ensures CoreInv(u, EnsureStep(u, s, c))
  {
    var s' := EnsureStep(u, s, c);
    EnsurePrimaryEnsures(s.core, WorldOf(u, s));
    assert KnownInv(s');
    assert SameMembers(s.core, s'.core);
    assert ReportsInv(s'.core, s'.alive) && TicksInv(s'.core);
  }

  lemma BeginKeepsCore(u: Setup, s: State, call: CallId, data: Bytes, s': State)
    requires CoreInv(u, s) && BeginNext(s, call, data, s')
    ensures CoreInv(u, s')
  {
    assert s'.core == s.core && s'.alive == s.alive && KnownInv(s');
  }

  // ---- exactly once, conservation, and who is gone ----------------------------------------

  predicate HasBeenAccepted(c: Call) {
    c.pc.After? || c.pc == Done(true)
  }

  lemma MoveIsNoAcceptance(s: State, c: Call, pc: Pc)
    requires CanMove(s, c, pc)
    ensures !pc.After? && pc != Done(true) && !c.pc.After? && !c.pc.Done?
  {}

  ghost predicate OnceInv(s: State, call: CallId) {
    CountedOnce(s.log, call, call in s.calls && HasBeenAccepted(s.calls[call]))
  }

  /** A connection is gone, according to the history, when it is dead or draining. */
  ghost predicate GoneInv(s: State, id: ConnId) {
    IsGone(s.log, id) <==> id in s.chans && !Usable(s, id)
  }

  /** The event a step outside the pump notes, if any. */
  lemma QuietStep(log: Log, log': Log, id: ConnId, call: CallId)
    requires log' == log || (log' != [] && Front(log') == log && !End(log').Accepted?)
    ensures AcceptedBy(log', id) == AcceptedBy(log, id) && CountOf(log', call) == CountOf(log, call)
    ensures IsGone(log', id) <==> IsGone(log, id) || (log' != log && End(log').Gone? && id in End(log').conns)
  {
    if log' != log {
      assert log' == log + [End(log')];
      AppendOther(log, End(log'), id, call);
    }
  }

  lemma LostIs(log: Log, ids: set<ConnId>)
    ensures Lost(log, ids) == log || (Lost(log, ids) != [] && Front(Lost(log, ids)) == log
                                      && End(Lost(log, ids)) == Gone(ids))
    ensures ids != {} <==> Lost(log, ids) != log
  {
    if ids != {} { AppendEvent(log, Gone(ids)); }
  }

  lemma EnvKeepsOnce(s: State, e: EnvStep, s': State, call: CallId)
    requires OnceInv(s, call) && EnvNext(s, e, s')
    ensures OnceInv(s', call)
  {
    EnvKeepsCalls(s, e, s');
    EnvLog(s, e, s');
    QuietStep(s.log, s'.log, 0, call);
  }

  lemma EnvLog(s: State, e: EnvStep, s': State)
    requires EnvNext(s, e, s')
    ensures s'.log == s.log || (s'.log != [] && Front(s'.log) == s.log && !End(s'.log).Accepted?)
  {
    if e.Die? || e.Wrote? {
      LostIs(s.log, {e.id} * s.alive);
    } else if e.ExpireFlows? {
      AppendEvent(s.log, End(s'.log));
    }
  }

  lemma EnvKeepsQueue(s: State, e: EnvStep, s': State, id: ConnId)
    requires Conserved(s.chans, s.log, id) && EnvNext(s, e, s')
    ensures Conserved(s'.chans, s'.log, id)
  {
    EnvLog(s, e, s');
    QuietStep(s.log, s'.log, id, 0);
    if e.Take? && e.id == id {
      TakingIsGood(s.chans[id], AcceptedBy(s.log, id));
    } else if e.Wrote? && e.id == id {
      WritingIsGood(s.chans[id], AcceptedBy(s.log, id), e.ok);
    }
  }

  /** Outside ticks and builds, the connections an event notes as gone are the live ones that die. */
  lemma EnvDeaths(s: State, e: EnvStep, s': State, id: ConnId)
    requires EnvNext(s, e, s')
    ensures s'.log != s.log && End(s'.log).Gone? && id in End(s'.log).conns <==> id in s.alive && id !in s'.alive
  {
    if e.Die? || e.Wrote? {
      LostIs(s.log, {e.id} * s.alive);
      assert id in {e.id} * s.alive <==> id == e.id && id in s.alive;
    } else if e.ExpireFlows? {
      AppendEvent(s.log, End(s'.log));
    }
  }

  lemma EnvKeepsGone(s: State, e: EnvStep, s': State, id: ConnId)
    requires KnownInv(s) && GoneInv(s, id) && EnvNext(s, e, s')
    ensures GoneInv(s', id)
  {
    EnvKeepsCalls(s, e, s');
    EnvLog(s, e, s');
    QuietStep(s.log, s'.log, id, 0);
    EnvEffect(s, e, s');
    EnvDeaths(s, e, s', id);
  }

  lemma BuildLog(u: Setup, s: State, e: EnvStep, s': State)
    requires BuildNext(u, s, e, s')
    ensures s'.log == s.log || (s'.log != [] && Front(s'.log) == s.log && !End(s'.log).Accepted?)
    ensures s'.calls == s.calls && s'.cur == s.cur
  {
    if e.MonitorTick? {
      TickLog(u, s, e.phases);
    } else {
      OtherBuildLog(u, s, e, s');
    }
  }

  lemma OtherBuildLog(u: Setup, s: State, e: EnvStep, s': State)
    requires BuildNext(u, s, e, s') && !e.MonitorTick?
    ensures s'.log == s.log || (s'.log != [] && Front(s'.log) == s.log && !End(s'.log).Accepted?)
    ensures s'.calls == s.calls && s'.cur == s.cur
  {
    if e.CloseAll? {
      AppendEvent(s.log, Cleared);
      assert s' == CloseAllStep(s);
    } else {
      BuildersNoteNothing(u, s, e, s');
    }
  }

  lemma BuildersNoteNothing(u: Setup, s: State, e: EnvStep, s': State)
    requires BuildNext(u, s, e, s') && !e.MonitorTick? && !e.CloseAll?
    ensures s'.log == s.log && s'.calls == s.calls && s'.cur == s.cur
  {
    if e.BuildAppend? {
      assert s' == AppendStep(u, s, e.b, e.id, e.cap, e.born);
    }
  }

  lemma TickLog(u: Setup, s: State, a: Phases<ConnId>)
    ensures var s' := TickStep(u, s, a);
            && (s'.log == s.log || (s'.log != [] && Front(s'.log) == s.log && !End(s'.log).Accepted?))
            && s'.calls == s.calls && s'.cur == s.cur
  {
    var (_, byAge, byLatency) := Tick(s.core, WorldOf(u, s), a);
    LostIs(s.log, (s.alive - a.critical) + AsSet(byAge) + AsSet(byLatency));
  }

  lemma BuildKeepsOnce(u: Setup, s: State, e: EnvStep, s': State, call: CallId)
    requires OnceInv(s, call) && BuildNext(u, s, e, s')
    ensures OnceInv(s', call)
  {
    BuildLog(u, s, e, s');
    QuietStep(s.log, s'.log, 0, call);
  }

  lemma BuildKeepsChans(u: Setup, s: State, e: EnvStep, s': State, id: ConnId)
    requires BuildNext(u, s, e, s')
    ensures id in s.chans ==> id in s'.chans && s'.chans[id] == s.chans[id]
    ensures id !in s.chans && id in s'.chans ==> GoodChan(s'.chans[id], [])
  {
    if e.BuildAppend? {
      assert s' == AppendStep(u, s, e.b, e.id, e.cap, e.born);
    } else {
      OnlyAppendsAddQueues(u, s, e, s');
    }
  }

  lemma OnlyAppendsAddQueues(u: Setup, s: State, e: EnvStep, s': State)
    requires BuildNext(u, s, e, s') && !e.BuildAppend?
    ensures s'.chans == s.chans && s'.created == s.created
  {}

  lemma BuildKeepsQueue(u: Setup, s: State, e: EnvStep, s': State, id: ConnId)
    requires Conserved(s.chans, s.log, id) && BuildNext(u, s, e, s')
    ensures Conserved(s'.chans, s'.log, id)
  {
    BuildLog(u, s, e, s');
    QuietStep(s.log, s'.log, id, 0);
    BuildKeepsChans(u, s, e, s', id);
  }

  lemma BuildKeepsGone(u: Setup, s: State, e: EnvStep, s': State, id: ConnId)
    requires CoreInv(u, s) && GoneInv(s, id) && BuildNext(u, s, e, s')
    ensures GoneInv(s', id)
  {
    BuildLog(u, s, e, s');
    QuietStep(s.log, s'.log, id, 0);
    if e.MonitorTick? {
      TickKeepsGone(u, s, e.phases, id);
    } else if e.CloseAll? {
      AppendEvent(s.log, Cleared);
    }
  }

  lemma TickKeepsGone(u: Setup, s: State, a: Phases<ConnId>, id: ConnId)
    requires CoreInv(u, s) && GoneInv(s, id) && Shrinking(a) && a.prune <= s.alive
    ensures GoneInv(TickStep(u, s, a), id)
  {
    var s' := TickStep(u, s, a);
    var (_, byAge, byLatency) := Tick(s.core, WorldOf(u, s), a);
    var lost := (s.alive - a.critical) + AsSet(byAge) + AsSet(byLatency);
    LostIs(s.log, lost);
    QuietStep(s.log, s'.log, id, 0);
    DeathsKeepRoles(s.core, s.alive, a.prune, u.max);
    TickKeepsRoles(s.core, WorldOf(u, s), a);
    assert id in s'.core.planned <==> id in s.core.planned || id in AsSet(byAge) || id in AsSet(byLatency);
  }

  lemma PumpKeepsLedgers(u: Setup, s: State, c: Call, k: CallStep, s': State, id: ConnId, call: CallId)
    requires s.cur in s.calls && c == s.calls[s.cur]
    requires OnceInv(s, call) && Conserved(s.chans, s.log, id) && PumpNext(u, s, c, k, s')
    ensures OnceInv(s', call) && Conserved(s'.chans, s'.log, id)
  {
    if k.Push? {
      AppendAccepted(s.log, End(s'.log), id, call);
    } else if k.Move? {
      MoveIsNoAcceptance(s, c, k.pc);
    }
  }

  lemma PumpKeepsGone(u: Setup, s: State, c: Call, k: CallStep, s': State, id: ConnId)
    requires CoreInv(u, s) && GoneInv(s, id) && PumpNext(u, s, c, k, s')
    ensures GoneInv(s', id)
  {
    if k.Push? {
      AppendAccepted(s.log, End(s'.log), id, 0);
    } else if k.Ensure? {
      EnsurePrimaryEnsures(s.core, WorldOf(u, s));
      assert id in s.chans ==> (id in s'.core.planned <==> id in s.core.planned);
    }
  }

  // ---- runs -------------------------------------------------------------------------------

  ghost predicate SafetyInv(u: Setup, s: State, id: ConnId, call: CallId) {
    match s
    case State(_, _, _, _, _, _, _, _, _, _, _, _) =>
      CoreInv(u, s) && OnceInv(s, call) && Conserved(s.chans, s.log, id) && GoneInv(s, id)
  }

  lemma EnvKeepsSafety(u: Setup, s: State, e: EnvStep, s': State, id: ConnId, call: CallId)
    requires SafetyInv(u, s, id, call) && (EnvNext(s, e, s') || BuildNext(u, s, e, s'))
    ensures SafetyInv(u, s', id, call)
  {
    if EnvNext(s, e, s') {
      EnvKeepsCore(u, s, e, s');
      EnvKeepsOnce(s, e, s', call);
      EnvKeepsQueue(s, e, s', id);
      EnvKeepsGone(s, e, s', id);
    } else {
      BuildKeepsCore(u, s, e, s');
      BuildKeepsOnce(u, s, e, s', call);
      BuildKeepsQueue(u, s, e, s', id);
      BuildKeepsGone(u, s, e, s', id);
    }
  }

  lemma PumpKeepsSafety(u: Setup, s: State, k: CallStep, s': State, id: ConnId, call: CallId)
    requires SafetyInv(u, s, id, call) && s.cur in s.calls && PumpNext(u, s, s.calls[s.cur], k, s')
    ensures SafetyInv(u, s', id, call)
  {
    var c := s.calls[s.cur];
    PumpKeepsCore(u, s, c, k, s');
    PumpKeepsLedgers(u, s, c, k, s', id, call);
    PumpKeepsGone(u, s, c, k, s', id);
  }

  lemma BeginKeepsSafety(u: Setup, s: State, i: CallId, data: Bytes, s': State, id: ConnId, call: CallId)
    requires SafetyInv(u, s, id, call) && BeginNext(s, i, data, s')
    ensures SafetyInv(u, s', id, call)
  {
    BeginKeepsCore(u, s, i, data, s');
    assert Conserved(s'.chans, s'.log, id) && GoneInv(s', id);
  }

  lemma StartIsSafe(u: Setup, cap: nat, id: ConnId, call: CallId)
    requires u.max >= 1
    ensures SafetyInv(u, Start(cap), id, call)
  {
    var s := Start(cap);
    assert RolesInv(s.core, s.alive, u.max) && KnownInv(s);
    assert TicksInv(s.core) && ReportsInv(s.core, s.alive);
  }

  lemma {:induction false} RunIsSafe(u: Setup, cap: nat, states: seq<State>, steps: seq<Step>, i: nat, id: ConnId,
                                     call: CallId)
    requires Run(u, cap, states, steps) && i <= |steps|
    ensures SafetyInv(u, states[i], id, call)
  {
    if i == 0 {
      StartIsSafe(u, cap, id, call);
    } else {
      RunIsSafe(u, cap, states, steps, i - 1, id, call);
      StepKeepsSafety(u, states[i - 1], steps[i - 1], states[i], id, call);
    }
  }

  lemma StepKeepsSafety(u: Setup, s: State, step: Step, s': State, id: ConnId, call: CallId)
    requires SafetyInv(u, s, id, call) && Next(u, s, step, s')
    ensures SafetyInv(u, s', id, call)
  {
    if step.Env? {
      EnvKeepsSafety(u, s, step.e, s', id, call);
    } else if step.Begin? {
      BeginKeepsSafety(u, s, step.call, step.data, s', id, call);
    } else {
      PumpKeepsSafety(u, s, step.k, s', id, call);
    }
  }
}
