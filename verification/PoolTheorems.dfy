/** The pool's main results, for every reachable state. */
module PoolTheorems {
  import opened Wrappers
  import opened Packet
  import opened EventLog
  import opened FlowTable
  import opened Registry
  import opened PoolRoles
  import opened TimeoutDetector
  import opened PoolMonitor
  import opened PoolTick
  import opened PoolModel
  import opened PoolSafety
  import opened PoolOrder

  /** Single primary: whatever dies and whenever, at most one live connection is primary. */
  lemma OneLivePrimary(u: Setup, cap: nat, states: seq<State>, steps: seq<Step>, i: nat, a: ConnId, b: ConnId)
    requires Run(u, cap, states, steps) && i <= |steps|
    requires LivePrimary(states[i].alive, states[i].core.roles.role, a)
    requires LivePrimary(states[i].alive, states[i].core.roles.role, b)
    ensures a == b
  {
    RunIsSafe(u, cap, states, steps, i, a, 0);
    assert a in states[i].core.conns && b in states[i].core.conns;
  }

  /** After `ensurePrimaryLocked` there is a live primary exactly when there was a live connection that is not draining;
      without one, and with a live context, a build is scheduled or every place is taken or being built. */
  lemma PrimaryIsEnsured(u: Setup, cap: nat, states: seq<State>, steps: seq<Step>, i: nat)
    requires Run(u, cap, states, steps) && i < |steps| && steps[i] == Pump(Ensure)
    ensures var s, s' := states[i], states[i + 1];
            && (PrimaryNow(s').Some? <==> exists id :: id in s.alive && Usable(s, id))
            && (PrimaryNow(s') == None && s.live ==>
                  s'.core.builds.pending > s.core.builds.pending || |s'.core.conns| + s'.core.builds.pending >= u.max)
            && (PrimaryNow(s').Some? || !s.live ==> s'.core.builds == s.core.builds)
  {
    var s, s' := states[i], states[i + 1];
    RunIsSafe(u, cap, states, steps, i, 0, 0);
    var w := WorldOf(u, s);
    EnsurePrimaryEnsures(s.core, w);
    assert Next(u, s, steps[i], s');
    assert s' == EnsureStep(u, s, s.calls[s.cur]);
    assert PrimaryNow(s') == PrimaryOf(EnsurePrimary(s.core, w), w);
    assert HasUsable(s.core, w) <==> exists id :: id in s.alive && Usable(s, id);
  }

  /** Build ledger: the counter is the number of live builders, the pool and the builders that may still add to it never
      exceed the maximum, and every connection a builder brings is appended. */
  lemma PoolNeverOverflows(u: Setup, cap: nat, states: seq<State>, steps: seq<Step>, i: nat)
    requires Run(u, cap, states, steps) && i <= |steps|
    ensures var c := states[i].core;
            && c.builds.pending == |c.builds.dialing| + |c.builds.settled|
            && |c.conns| + |c.builds.dialing| <= u.max
    ensures i < |steps| && steps[i].Env? && steps[i].e.BuildAppend? ==>
              states[i + 1].core.conns == states[i].core.conns + [steps[i].e.id]
  {
    RunIsSafe(u, cap, states, steps, i, 0, 0);
    LedgerHolds(u, states[i]);
    if i < |steps| && steps[i].Env? && steps[i].e.BuildAppend? {
      BuiltIsAppended(u, states[i], steps[i].e, states[i + 1]);
    }
  }

  lemma LedgerHolds(u: Setup, s: State)
    requires CoreInv(u, s)
    ensures var c := s.core;
            c.builds.pending == |c.builds.dialing| + |c.builds.settled| && |c.conns| + |c.builds.dialing| <= u.max
  {
    assert LedgerInv(s.core.builds, |s.core.conns|, u.max);
  }

  lemma BuiltIsAppended(u: Setup, s: State, e: EnvStep, s': State)
    requires CoreInv(u, s) && Next(u, s, Env(e), s') && e.BuildAppend?
    ensures s'.core.conns == s.core.conns + [e.id]
  {
    BuilderHasRoom(u, s, e.b);
  }

  /** `ensureStandbys` and every monitor tick end, with a live context, with all places taken or being built. */
  lemma PoolIsRefilled(u: Setup, cap: nat, states: seq<State>, steps: seq<Step>, i: nat)
    requires Run(u, cap, states, steps) && i < |steps| && steps[i].Env?
    requires (steps[i].e.FillUp? || steps[i].e.MonitorTick?) && states[i].live
    ensures |states[i + 1].core.conns| + states[i + 1].core.builds.pending >= u.max
  {
    RunIsSafe(u, cap, states, steps, i, 0, 0);
    StepRefills(u, states[i], steps[i].e, states[i + 1]);
  }

  lemma StepRefills(u: Setup, s: State, e: EnvStep, s': State)
    requires CoreInv(u, s) && Next(u, s, Env(e), s') && (e.FillUp? || e.MonitorTick?) && s.live
    ensures |s'.core.conns| + s'.core.builds.pending >= u.max
  {
    if e.FillUp? {
      EnsureStandbysFills(s.core, WorldOf(u, s));
    } else {
      DeathsKeepRoles(s.core, s.alive, e.phases.prune, u.max);
      TickKeepsRoles(s.core, WorldOf(u, s), e.phases);
    }
  }

  /** A flow table entry may point at a dead connection, but one that is alive is still in the pool. */
  lemma LiveTargetsAreMembers(u: Setup, cap: nat, states: seq<State>, steps: seq<Step>, i: nat, f: FlowKey)
    requires Run(u, cap, states, steps) && i <= |steps|
    requires f in states[i].flows && states[i].flows[f].target in states[i].alive
    ensures states[i].flows[f].target in states[i].core.conns
  {
    RunIsSafe(u, cap, states, steps, i, 0, 0);
  }

  // ---- deaths and draining are for good ---------------------------------------------------

  /** A connection that is dead or draining, with the role it has. */
  ghost predicate Retired(s: State, id: ConnId, r: Role) {
    id in s.chans && id in s.core.roles.role && s.core.roles.role[id] == r && (id !in s.alive || r == Draining)
  }

  lemma StepKeepsRetired(u: Setup, s: State, step: Step, s': State, id: ConnId, r: Role)
    requires CoreInv(u, s) && Next(u, s, step, s') && Retired(s, id, r)
    ensures Retired(s', id, r) && (id !in s.alive ==> id !in s'.alive)
  {
    if step.Env? {
      if EnvNext(s, step.e, s') {
        EnvKeepsRetired(s, step.e, s', id, r);
      } else {
        BuildKeepsRetired(u, s, step.e, s', id, r);
      }
    } else if step.Pump? {
      PumpKeepsRetired(u, s, s.calls[s.cur], step.k, s', id, r);
    }
  }

  lemma EnvKeepsRetired(s: State, e: EnvStep, s': State, id: ConnId, r: Role)
    requires EnvNext(s, e, s') && Retired(s, id, r)
    ensures Retired(s', id, r) && (id !in s.alive ==> id !in s'.alive)
  {
    EnvEffect(s, e, s');
    EnvKeepsCalls(s, e, s');
  }

  lemma PumpKeepsRetired(u: Setup, s: State, c: Call, k: CallStep, s': State, id: ConnId, r: Role)
    requires CoreInv(u, s) && PumpNext(u, s, c, k, s') && Retired(s, id, r)
    ensures Retired(s', id, r) && (id !in s.alive ==> id !in s'.alive)
  {
    if k.Ensure? {
      EnsurePrimaryEnsures(s.core, WorldOf(u, s));
    }
  }

  lemma BuildKeepsRetired(u: Setup, s: State, e: EnvStep, s': State, id: ConnId, r: Role)
    requires CoreInv(u, s) && BuildNext(u, s, e, s') && Retired(s, id, r)
    ensures Retired(s', id, r) && (id !in s.alive ==> id !in s'.alive)
  {
    if e.MonitorTick? {
      DeathsKeepRoles(s.core, s.alive, e.phases.prune, u.max);
      TickKeepsRoles(s.core, WorldOf(u, s), e.phases);
    }
  }

  ghost predicate StaysRetired(s: State, s': State, id: ConnId, r: Role) {
    Retired(s', id, r) && (id !in s.alive ==> id !in s'.alive)
  }

  lemma RunStepKeepsRetired(u: Setup, cap: nat, states: seq<State>, steps: seq<Step>, i: nat, id: ConnId, r: Role)
    requires Run(u, cap, states, steps) && i < |steps| && Retired(states[i], id, r)
    ensures StaysRetired(states[i], states[i + 1], id, r)
  {
    RunIsSafe(u, cap, states, steps, i, 0, 0);
    StepKeepsRetired(u, states[i], steps[i], states[i + 1], id, r);
  }

  lemma {:induction false} Persists(states: seq<State>, i: nat, j: nat, id: ConnId, r: Role)
    requires i <= j < |states| && Retired(states[i], id, r)
    requires forall k :: i <= k < j && Retired(states[k], id, r) ==> StaysRetired(states[k], states[k + 1], id, r)
    ensures StaysRetired(states[i], states[j], id, r)
  {
    if i < j {
      Persists(states, i, j - 1, id, r);
    }
  }

  /** A connection that is dead or draining keeps its role for good, and a dead one stays dead. */
  lemma RetiredForGood(u: Setup, cap: nat, states: seq<State>, steps: seq<Step>, i: nat, j: nat, id: ConnId, r: Role)
    requires Run(u, cap, states, steps) && i <= j <= |steps| && Retired(states[i], id, r)
    ensures Retired(states[j], id, r) && (id !in states[i].alive ==> id !in states[j].alive)
  {
    forall k | i <= k < j && Retired(states[k], id, r) ensures StaysRetired(states[k], states[k + 1], id, r) {
      RunStepKeepsRetired(u, cap, states, steps, k, id, r);
    }
    Persists(states, i, j, id, r);
  }

  /** Draining is absorbing, and a connection drains exactly when its close is planned. */
  lemma DrainingIsForGood(u: Setup, cap: nat, states: seq<State>, steps: seq<Step>, i: nat, j: nat, id: ConnId)
    requires Run(u, cap, states, steps) && i <= j <= |steps| && id in states[i].chans
    ensures var role := states[i].core.roles.role;
            id in role && (role[id] == Draining <==> id in states[i].core.planned)
    ensures states[i].core.roles.role[id] == Draining ==>
              id in states[j].core.roles.role && states[j].core.roles.role[id] == Draining
  {
    RunIsSafe(u, cap, states, steps, i, id, 0);
    assert RolesInv(states[i].core, states[i].alive, u.max);
    if states[i].core.roles.role[id] == Draining {
      RetiredForGood(u, cap, states, steps, i, j, id, Draining);
    }
  }

  // ---- the monitor's history --------------------------------------------------------------

  /** The counters are the lengths of the latest runs of ticks that saw pressure, high and critical latency. The
      critical run is no longer than the high one exactly when every tick of it already read high latency at its
      latency stage. */
  lemma CountersAreRuns(u: Setup, cap: nat, states: seq<State>, steps: seq<Step>, i: nat)
    requires Run(u, cap, states, steps) && i <= |steps|
    ensures var c := states[i].core;
            && c.pressureTicks == TrailingRun(c.seen, Pressure) && c.latencyTicks == TrailingRun(c.seen, High)
            && c.criticalTicks == TrailingRun(c.seen, Critical)
    ensures var c := states[i].core;
            c.criticalTicks <= c.latencyTicks <==>
              forall j :: |c.seen| - c.criticalTicks <= j < |c.seen| ==> c.seen[j].high
  {
    RunIsSafe(u, cap, states, steps, i, 0, 0);
    CriticalTicksAreFewerIff(states[i].core);
  }

  /** A connection a tick demotes for critical latency ends a run of at least three critical ticks and hands over to
      another live primary. It is marked degraded by then exactly when it was before the tick or the latest three
      ticks read high latency at their latency stages. */
  lemma CriticalPrimaryHandsOver(u: Setup, cap: nat, states: seq<State>, steps: seq<Step>, i: nat, out: ConnId)
    requires Run(u, cap, states, steps) && i < |steps| && steps[i].Env? && steps[i].e.MonitorTick?
    requires Tick(states[i].core, WorldOf(u, states[i]), steps[i].e.phases).2 == Some(out)
    ensures var c' := states[i + 1].core;
            && TrailingRun(c'.seen, Critical) >= LATENCY_CRITICAL_TICKS
            && (out in c'.degraded <==> out in states[i].core.degraded || ThreeHigh(c'.seen))
            && PrimaryNow(states[i + 1]).Some? && PrimaryNow(states[i + 1]) != Some(out)
  {
    TickOfRun(u, cap, states, steps, i);
    CriticalTick(u, states[i], steps[i].e.phases, out);
  }

  lemma TickOfRun(u: Setup, cap: nat, states: seq<State>, steps: seq<Step>, i: nat)
    requires Run(u, cap, states, steps) && i < |steps| && steps[i].Env? && steps[i].e.MonitorTick?
    ensures var a := steps[i].e.phases;
            && CoreInv(u, states[i]) && Shrinking(a) && a.prune <= states[i].alive
            && states[i + 1] == TickStep(u, states[i], a)
  {
    RunIsSafe(u, cap, states, steps, i, 0, 0);
    assert Next(u, states[i], steps[i], states[i + 1]);
  }

  lemma CriticalTick(u: Setup, s: State, a: Phases<ConnId>, out: ConnId)
    requires CoreInv(u, s) && Shrinking(a) && a.prune <= s.alive && Tick(s.core, WorldOf(u, s), a).2 == Some(out)
    ensures var s' := TickStep(u, s, a);
            && TrailingRun(s'.core.seen, Critical) >= LATENCY_CRITICAL_TICKS
            && (out in s'.core.degraded <==> out in s.core.degraded || ThreeHigh(s'.core.seen))
            && PrimaryNow(s').Some? && PrimaryNow(s') != Some(out)
  {
    DeathsKeepRoles(s.core, s.alive, a.prune, u.max);
    TickCounts(s.core, WorldOf(u, s), a);
    TickHandsOver(s.core, WorldOf(u, s), a);
  }

  // ---- runs without jumps -----------------------------------------------------------------

  /** In none of the first `n` steps does a tick see an average that writes between its two readings lifted from
      below two to at least five seconds. */
  ghost predicate NoJumps(u: Setup, states: seq<State>, steps: seq<Step>, n: nat)
    requires n <= |steps| < |states|
  {
    forall i :: 0 <= i < n && steps[i].Env? && steps[i].e.MonitorTick? ==>
      !Jumps(WorldOf(u, states[i]), steps[i].e.phases)
  }

  ghost predicate CriticalIsHigh(seen: seq<Observation>) {
    forall j :: 0 <= j < |seen| && seen[j].critical ==> seen[j].high
  }

  lemma TickSees(u: Setup, s: State, a: Phases<ConnId>)
    requires CoreInv(u, s) && Shrinking(a) && a.prune <= s.alive && !Jumps(WorldOf(u, s), a)
             && CriticalIsHigh(s.core.seen)
    ensures CriticalIsHigh(TickStep(u, s, a).core.seen)
  {
    DeathsKeepRoles(s.core, s.alive, a.prune, u.max);
    var o := TickEffect(s.core, WorldOf(u, s), a);
  }

  lemma OnlyTicksSee(u: Setup, s: State, step: Step, s': State)
    requires Next(u, s, step, s') && !(step.Env? && step.e.MonitorTick?)
    ensures s'.core.seen == s.core.seen
  {
    if step.Env? {
      if EnvNext(s, step.e, s') { EnvEffect(s, step.e, s'); } else { BuildersDoNotSee(u, s, step.e, s'); }
    } else if step.Pump? {
      PumpDoesNotSee(u, s, s.calls[s.cur], step.k, s');
    }
  }

  lemma BuildersDoNotSee(u: Setup, s: State, e: EnvStep, s': State)
    requires BuildNext(u, s, e, s') && !e.MonitorTick?
    ensures s'.core.seen == s.core.seen
  {
    if e.BuildAppend? {
      assert s' == AppendStep(u, s, e.b, e.id, e.cap, e.born);
    } else if e.FillUp? {
      assert s'.core == EnsureStandbys(s.core, WorldOf(u, s));
    } else if e.CloseAll? {
      assert s' == CloseAllStep(s);
    }
  }

  lemma PumpDoesNotSee(u: Setup, s: State, c: Call, k: CallStep, s': State)
    requires PumpNext(u, s, c, k, s')
    ensures s'.core.seen == s.core.seen
  {}

  lemma {:induction false} SeenWithoutJumps(u: Setup, cap: nat, states: seq<State>, steps: seq<Step>, i: nat)
    requires Run(u, cap, states, steps) && i <= |steps| && NoJumps(u, states, steps, i)
    ensures CriticalIsHigh(states[i].core.seen)
  {
    if i > 0 {
      SeenWithoutJumps(u, cap, states, steps, i - 1);
      if steps[i - 1].Env? && steps[i - 1].e.MonitorTick? {
        TickOfRun(u, cap, states, steps, i - 1);
        TickSees(u, states[i - 1], steps[i - 1].e.phases);
      } else {
        OnlyTicksSee(u, states[i - 1], steps[i - 1], states[i]);
      }
    }
  }

  /** Without jumps the critical counter never exceeds the latency counter. */
  lemma CountersAreOrderedWithoutJumps(u: Setup, cap: nat, states: seq<State>, steps: seq<Step>, i: nat)
    requires Run(u, cap, states, steps) && i <= |steps| && NoJumps(u, states, steps, i)
    ensures states[i].core.criticalTicks <= states[i].core.latencyTicks
  {
    SeenWithoutJumps(u, cap, states, steps, i);
    CountersAreRuns(u, cap, states, steps, i);
    RunIsSafe(u, cap, states, steps, i, 0, 0);
    CriticalAreCritical(states[i].core.seen);
  }

  lemma CriticalAreCritical(seen: seq<Observation>)
    ensures forall j :: |seen| - TrailingRun(seen, Critical) <= j < |seen| ==> seen[j].critical
  {
    TrailingRunIsMaximal(seen, Critical);
    forall j | |seen| - TrailingRun(seen, Critical) <= j < |seen| ensures seen[j].critical {
      assert Holds(seen[j], Critical);
    }
  }

  /** Without jumps a connection rotated out for critical latency is marked degraded by then. */
  lemma DegradedWithoutJumps(u: Setup, cap: nat, states: seq<State>, steps: seq<Step>, i: nat, out: ConnId)
    requires Run(u, cap, states, steps) && i < |steps| && steps[i].Env? && steps[i].e.MonitorTick?
    requires Tick(states[i].core, WorldOf(u, states[i]), steps[i].e.phases).2 == Some(out)
    requires NoJumps(u, states, steps, i + 1)
    ensures out in states[i + 1].core.degraded
  {
    CriticalPrimaryHandsOver(u, cap, states, steps, i, out);
    SeenWithoutJumps(u, cap, states, steps, i + 1);
    CriticalAreCritical(states[i + 1].core.seen);
  }

  /** Both hold of every run in which no average rises between the two readings of a tick, or only short writes end
      there. */
  lemma EvenReadingsAreOrdered(u: Setup, cap: nat, states: seq<State>, steps: seq<Step>, i: nat)
    requires Run(u, cap, states, steps) && i <= |steps|
    requires forall j :: 0 <= j < i && steps[j].Env? && steps[j].e.MonitorTick? ==>
               EvenReadings(WorldOf(u, states[j]), steps[j].e.phases)
    ensures NoJumps(u, states, steps, i) && states[i].core.criticalTicks <= states[i].core.latencyTicks
  {
    forall j | 0 <= j < i && steps[j].Env? && steps[j].e.MonitorTick?
      ensures !Jumps(WorldOf(u, states[j]), steps[j].e.phases)
    {
      EvenReadingsDoNotJump(WorldOf(u, states[j]), steps[j].e.phases);
    }
    CountersAreOrderedWithoutJumps(u, cap, states, steps, i);
  }

  /** The detector hears of each connection at most once, only of dead ones whose close was never planned, and its
      history is exactly the qualifying part of what it heard. */
  lemma ReportsAreUnplannedDeaths(u: Setup, cap: nat, states: seq<State>, steps: seq<Step>, i: nat)
    requires Run(u, cap, states, steps) && i <= |steps|
    ensures var s := states[i];
            && DistinctIds(s.core.recorded) && s.core.history == Kept(s.core.recorded)
            && forall r :: r in s.core.recorded ==>
                 r.0 in s.chans && r.0 !in s.alive && r.0 !in s.core.planned && r.0 !in s.core.conns
  {
    RunIsSafe(u, cap, states, steps, i, 0, 0);
  }

  // ---- packets ----------------------------------------------------------------------------

  /** A call that reported success had its packet accepted by exactly one queue, once; one that reported failure, or is
      still waiting, by none. No queue exceeds its capacity, and what was sent is a prefix of what was accepted. */
  lemma AcceptedExactlyOnce(u: Setup, cap: nat, states: seq<State>, steps: seq<Step>, i: nat, id: ConnId, call: CallId)
    requires Run(u, cap, states, steps) && i <= |steps|
    ensures call in states[i].calls && states[i].calls[call].pc == Done(true) ==> CountOf(states[i].log, call) == 1
    ensures call in states[i].calls && states[i].calls[call].pc == Done(false) ==> CountOf(states[i].log, call) == 0
    ensures id in states[i].chans ==>
              && |states[i].chans[id].queue| <= states[i].chans[id].cap
              && states[i].chans[id].sent <= states[i].chans[id].taken <= AcceptedBy(states[i].log, id)
  {
    RunIsSafe(u, cap, states, steps, i, id, call);
  }

  /** Flow binding. Two packets of a flow accepted one after the other went to the same connection unless in between
      a FIN or RST of the flow was accepted, it idled out, the table was dropped, or the connection died or started
      draining. A full queue is no such event: the flow waits for it. */
  lemma FlowStaysOnOneConnection(u: Setup, cap: nat, states: seq<State>, steps: seq<Step>, n: nat, f: FlowKey, i: nat,
                                 j: nat)
    requires Run(u, cap, states, steps) && n <= |steps|
    requires i < j < |states[n].log| && AcceptsFlow(states[n].log[i], f) && AcceptsFlow(states[n].log[j], f)
    requires forall k :: i <= k < j ==> !Releases(states[n].log[k], f)
    requires !IsGone(states[n].log[..j], states[n].log[i].conn)
    ensures states[n].log[j].conn == states[n].log[i].conn
  {
    RunKeepsOrder(u, cap, states, steps, n, f);
    SameQueueUntilReleased(states[n].log, f, i, j);
  }

  /** The packets of a flow accepted since its binding was last released sit in order in one queue: those already
      taken by the write loop are a prefix of them and the rest is still queued. */
  lemma StretchIsDeliveredInOrder(u: Setup, cap: nat, states: seq<State>, steps: seq<Step>, n: nat, f: FlowKey)
    requires Run(u, cap, states, steps) && n <= |steps| && Stretch(states[n].log, f) != []
    ensures exists id :: Carrier(states[n].log, f) == Some(id) && id in states[n].chans
              && DeliveredInOrder(Stretch(states[n].log, f), f, states[n].chans[id].taken, states[n].chans[id].queue)
  {
    var s := states[n];
    RunKeepsOrder(u, cap, states, steps, n, f);
    StretchIsInOneQueue(s.log, f);
    var id := Carrier(s.log, f).value;
    RunIsSafe(u, cap, states, steps, n, id, 0);
    CarrierAccepted(s.log, f, id);
    TakenIsPrefixOfStretch(s.log, f, id, s.chans[id].taken, s.chans[id].queue);
  }
}
