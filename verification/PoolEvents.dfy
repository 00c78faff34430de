/** What the events around the pump leave behind, and what is never taken back. */
module PoolEvents {
  import opened Wrappers
  import opened Packet
  import opened EventLog
  import opened FlowTable
  import opened Registry
  import opened PoolRoles
  import opened PoolMonitor
  import opened PoolTick
  import opened PoolModel
  import opened PoolSafety
  import opened PoolTheorems

  /** What comes from outside: anyone may die at any time and, once dead, signal the end; a write may be measured, the
      context cancelled, the pool filled up, swept or ticked. */
  ghost predicate CanHappen(s: State, e: EnvStep) {
    match e
    case Die(id) => id in s.chans
    case CloseDone(id) => id in s.chans && id !in s.alive
    case Measure(id, v) => id in s.chans
    case Pass(d) => true
    case Cancel => true
    case FillUp => true
    case ExpireFlows => true
    case MonitorTick(a) => Shrinking(a) && a.prune <= s.alive && forall x :: x in a.writes ==> x.0 in s.chans
    case _ => false
  }

  /** Nothing holds these events up. */
  lemma EventsHappen(u: Setup, s: State, e: EnvStep) returns (s': State)
    requires CanHappen(s, e)
    ensures Next(u, s, Env(e), s')
  {
    if e.MonitorTick? {
      s' := TickStep(u, s, e.phases);
      assert BuildNext(u, s, e, s');
    } else if e.FillUp? {
      s' := s.(core := EnsureStandbys(s.core, WorldOf(u, s)));
      assert BuildNext(u, s, e, s');
    } else {
      s' := Happens(s, e);
    }
  }

  lemma Happens(s: State, e: EnvStep) returns (s': State)
    requires CanHappen(s, e) && !e.MonitorTick? && !e.FillUp?
    ensures EnvNext(s, e, s')
  {
    s' := match e
      case Die(id) => DieStep(s, id)
      case CloseDone(id) => s.(done := s.done + {id})
      case Measure(id, v) => s.(latency := Measured(s.latency, id, v))
      case Pass(d) => s.(now := s.now + d)
      case Cancel => s.(live := false)
      case _ => ExpireStep(s);
  }

  /** The pump reads any packet once its latest call is done. */
  lemma PacketsAreRead(u: Setup, s: State, call: CallId, data: Bytes) returns (s': State)
    requires call !in s.calls && (s.cur in s.calls ==> s.calls[s.cur].pc.Done?)
    ensures Next(u, s, Begin(call, data), s')
    ensures call in s'.calls <==> ParseIPv4(data).Ok?
  {
    s' := match ParseIPv4(data)
      case Err(_) => s
      case Ok(pkt) => s.(calls := s.calls[call := Dispatch(pkt)], cur := call);
  }

  // ---- connections that die ---------------------------------------------------------------

  /** A tick buries the dead: a member found dead has signalled its end afterwards and is a member no more, and nobody
      who lives at the end of the tick has been dropped. */
  lemma TickBuries(u: Setup, cap: nat, states: seq<State>, steps: seq<Step>, i: nat, id: ConnId)
    requires Run(u, cap, states, steps) && i < |steps| && steps[i].Env? && steps[i].e.MonitorTick?
    requires id in states[i].core.conns
    ensures var s', a := states[i + 1], steps[i].e.phases;
            && (id !in a.prune ==> id !in s'.core.conns && id in s'.done)
            && (id in a.prune ==> id in s'.core.conns && (id in s'.done <==> id in states[i].done))
            && (id in s'.alive <==> id in a.critical)
  {
    var s, a := states[i], steps[i].e.phases;
    TickOfRun(u, cap, states, steps, i);
    StagesKeepMembers(s.core, WorldOf(u, s), a);
    InAliveOnly(s.core.conns, a.prune, id);
  }

  lemma StepKeepsCreated(u: Setup, s: State, step: Step, s': State)
    requires Next(u, s, step, s') && s.created.Keys == s.chans.Keys
    ensures s'.created.Keys == s'.chans.Keys
  {
    if step.Env? {
      if EnvNext(s, step.e, s') { EventKeepsCreated(s, step.e, s'); } else { BuildKeepsCreated(u, s, step.e, s'); }
    } else if step.Pump? {
      PumpKeepsCreated(u, s, s.calls[s.cur], step.k, s');
    }
  }

  lemma EventKeepsCreated(s: State, e: EnvStep, s': State)
    requires EnvNext(s, e, s') && s.created.Keys == s.chans.Keys
    ensures s'.created.Keys == s'.chans.Keys
  {
    EnvKeepsKeys(s, e, s');
    EventsCreateNobody(s, e, s');
  }

  lemma EventsCreateNobody(s: State, e: EnvStep, s': State)
    requires EnvNext(s, e, s')
    ensures s'.created == s.created
  {}

  lemma BuildKeepsCreated(u: Setup, s: State, e: EnvStep, s': State)
    requires BuildNext(u, s, e, s') && s.created.Keys == s.chans.Keys
    ensures s'.created.Keys == s'.chans.Keys
  {
    if e.BuildAppend? {
      assert s' == AppendStep(u, s, e.b, e.id, e.cap, e.born);
    } else {
      OnlyAppendsAddQueues(u, s, e, s');
    }
  }

  lemma PumpKeepsCreated(u: Setup, s: State, c: Call, k: CallStep, s': State)
    requires PumpNext(u, s, c, k, s') && s.created.Keys == s.chans.Keys
    ensures s'.created.Keys == s'.chans.Keys
  {}

  lemma {:induction false} EveryoneWasCreated(u: Setup, cap: nat, states: seq<State>, steps: seq<Step>, i: nat)
    requires Run(u, cap, states, steps) && i <= |steps|
    ensures states[i].created.Keys == states[i].chans.Keys
  {
    if i > 0 {
      EveryoneWasCreated(u, cap, states, steps, i - 1);
      StepKeepsCreated(u, states[i - 1], steps[i - 1], states[i]);
    }
  }

  ghost predicate Tells(s: State, s': State, id: ConnId) {
    id in s.created && (
      var lifetime := s.now - s.created[id];
      && (id, lifetime) in s'.core.recorded && (lifetime >= 5_000_000_000 ==> lifetime in s'.core.history)
      && forall x :: x in s'.core.history ==> x >= 5_000_000_000)
  }

  /** A tick tells the detector the lifetime of every member that died unplanned, from its creation to the tick, and the
      detector keeps it exactly when it is at least five seconds. */
  lemma TickTellsLifetimes(u: Setup, cap: nat, states: seq<State>, steps: seq<Step>, i: nat, id: ConnId)
    requires Run(u, cap, states, steps) && i < |steps| && steps[i].Env? && steps[i].e.MonitorTick?
    requires id in states[i].core.conns && id !in steps[i].e.phases.prune && id !in states[i].core.planned
    ensures Tells(states[i], states[i + 1], id)
  {
    var s, a := states[i], steps[i].e.phases;
    TickOfRun(u, cap, states, steps, i);
    EveryoneWasCreated(u, cap, states, steps, i);
    Told(u, s, a, id);
  }

  lemma Told(u: Setup, s: State, a: Phases<ConnId>, id: ConnId)
    requires CoreInv(u, s) && Shrinking(a) && a.prune <= s.alive && s.created.Keys == s.chans.Keys
    requires id in s.core.conns && id !in a.prune && id !in s.core.planned
    ensures Tells(s, TickStep(u, s, a), id)
  {
    DeathsKeepRoles(s.core, s.alive, a.prune, u.max);
    FewerAliveKeepReports(s.core, s.alive, a.prune);
    var reports := TickReports(s.core, WorldOf(u, s), a);
    var x := (id, s.now - s.created[id]);
    assert x in reports;
    var c' := TickStep(u, s, a).core;
    assert x in c'.recorded;
    KeptIs(c'.recorded, x);
  }

  lemma {:induction false} KeptIs(reports: seq<(ConnId, int)>, x: (ConnId, int))
    ensures x in reports && x.1 >= 5_000_000_000 ==> x.1 in Kept(reports)
    ensures forall y :: y in Kept(reports) ==> y >= 5_000_000_000
  {
    if reports != [] { KeptIs(reports[1..], x); }
  }

  /** The write loop of the connection has ended. */
  ghost predicate Ended(s: State, id: ConnId, taken: seq<Frame>, sent: seq<Frame>) {
    id in s.chans && s.chans[id].writer == Stopped && s.chans[id].taken == taken && s.chans[id].sent == sent
  }

  lemma StepKeepsEnded(u: Setup, s: State, step: Step, s': State, id: ConnId, taken: seq<Frame>, sent: seq<Frame>)
    requires Next(u, s, step, s') && Ended(s, id, taken, sent)
    ensures Ended(s', id, taken, sent)
  {
    if step.Env? {
      if EnvNext(s, step.e, s') {
        EventKeepsEnded(s, step.e, s', id, taken, sent);
      } else {
        BuildKeepsEnded(u, s, step.e, s', id, taken, sent);
      }
    } else if step.Pump? {
      PumpKeepsEnded(u, s, s.calls[s.cur], step.k, s', id, taken, sent);
    }
  }

  lemma EventKeepsEnded(s: State, e: EnvStep, s': State, id: ConnId, taken: seq<Frame>, sent: seq<Frame>)
    requires EnvNext(s, e, s') && Ended(s, id, taken, sent)
    ensures Ended(s', id, taken, sent)
  {
    if e.Wrote? {
      assert s' == WroteStep(s, e.id, e.ok);
    } else if !e.Take? {
      OtherEventsKeepQueues(s, e, s');
    }
  }

  lemma OtherEventsKeepQueues(s: State, e: EnvStep, s': State)
    requires EnvNext(s, e, s') && !e.Wrote? && !e.Take?
    ensures s'.chans == s.chans
  {}

  lemma BuildKeepsEnded(u: Setup, s: State, e: EnvStep, s': State, id: ConnId, taken: seq<Frame>, sent: seq<Frame>)
    requires BuildNext(u, s, e, s') && Ended(s, id, taken, sent)
    ensures Ended(s', id, taken, sent)
  {
    BuildKeepsChans(u, s, e, s', id);
  }

  lemma PumpKeepsEnded(u: Setup, s: State, c: Call, k: CallStep, s': State, id: ConnId, taken: seq<Frame>,
                       sent: seq<Frame>)
    requires PumpNext(u, s, c, k, s') && Ended(s, id, taken, sent)
    ensures Ended(s', id, taken, sent)
  {}

  lemma {:induction false} EndedForGood(u: Setup, cap: nat, states: seq<State>, steps: seq<Step>, i: nat, j: nat,
                                        id: ConnId, taken: seq<Frame>, sent: seq<Frame>)
    requires Run(u, cap, states, steps) && i <= j <= |steps| && Ended(states[i], id, taken, sent)
    ensures Ended(states[j], id, taken, sent)
  {
    if i < j {
      EndedForGood(u, cap, states, steps, i, j - 1, id, taken, sent);
      StepKeepsEnded(u, states[j - 1], steps[j - 1], states[j], id, taken, sent);
    }
  }

  /** A failed write kills the connection, and nothing is taken from its queue or sent on it ever after. */
  lemma FailedWriteEnds(u: Setup, cap: nat, states: seq<State>, steps: seq<Step>, i: nat, j: nat, id: ConnId)
    requires Run(u, cap, states, steps) && i < j <= |steps| && steps[i] == Env(Wrote(id, false))
    ensures id in states[i].chans && id in states[j].chans && id !in states[j].alive
    ensures states[j].chans[id].sent == states[i].chans[id].sent
    ensures states[j].chans[id].taken == states[i].chans[id].taken
  {
    var s, s' := states[i], states[i + 1];
    WriteFails(u, s, id, s');
    EndedForGood(u, cap, states, steps, i + 1, j, id, s.chans[id].taken, s.chans[id].sent);
    RunIsSafe(u, cap, states, steps, i + 1, id, 0);
    HasARole(u, s', id);
    RetiredForGood(u, cap, states, steps, i + 1, j, id, s'.core.roles.role[id]);
  }

  lemma HasARole(u: Setup, s: State, id: ConnId)
    requires CoreInv(u, s) && id in s.chans
    ensures id in s.core.roles.role
  {
    assert KnownInv(s);
  }

  lemma WriteFails(u: Setup, s: State, id: ConnId, s': State)
    requires Next(u, s, Env(Wrote(id, false)), s')
    ensures id in s.chans && Ended(s', id, s.chans[id].taken, s.chans[id].sent) && id !in s'.alive
  {
    assert EnvNext(s, Wrote(id, false), s');
  }

  // ---- builders and the end of the pool ---------------------------------------------------

  /** A builder's connection enters the pool last, alive, as a standby with an empty queue, and everybody else stays as
      they are. */
  lemma NewcomerIsStandby(u: Setup, cap: nat, states: seq<State>, steps: seq<Step>, i: nat, x: ConnId)
    requires Run(u, cap, states, steps) && i < |steps| && steps[i].Env? && steps[i].e.BuildAppend?
    ensures var s, s', e := states[i], states[i + 1], steps[i].e;
            && s'.core.conns == s.core.conns + [e.id] && e.id in s'.alive && e.id !in s'.done
            && e.id in s'.core.roles.role && s'.core.roles.role[e.id] == Standby
            && s'.core.roles.since == s.core.roles.since
            && (x in s.core.roles.role && x != e.id ==>
                  x in s'.core.roles.role && s'.core.roles.role[x] == s.core.roles.role[x])
            && e.id in s'.chans && s'.chans[e.id] == Chan(e.cap, [], [], [], Idling)
            && e.id in s'.created && s'.created[e.id] == e.born
            && s'.core.builds.pending == s.core.builds.pending
            && (x != e.id ==> (x in s'.alive <==> x in s.alive) && (x in s'.chans <==> x in s.chans)
                              && (x in s.chans ==> s'.chans[x] == s.chans[x]))
  {
    var s, e := states[i], steps[i].e;
    RunIsSafe(u, cap, states, steps, i, e.id, 0);
    Appended(u, s, e, states[i + 1]);
  }

  lemma Appended(u: Setup, s: State, e: EnvStep, s': State)
    requires e.BuildAppend? && Next(u, s, Env(e), s') && CoreInv(u, s)
    ensures |s.core.conns| < u.max && s' == AppendStep(u, s, e.b, e.id, e.cap, e.born)
    ensures e.id !in s.chans && e.id !in s.done
  {
    BuilderHasRoom(u, s, e.b);
    assert KnownInv(s);
  }

  // ---- builds -----------------------------------------------------------------------------

  /** With a cancelled context `ensureStandbys` starts nothing; with a live one it starts as many builds as there are
      places neither taken nor being built. */
  lemma FillUpIs(u: Setup, cap: nat, states: seq<State>, steps: seq<Step>, i: nat)
    requires Run(u, cap, states, steps) && i < |steps| && steps[i] == Env(FillUp)
    ensures var c, c' := states[i].core, states[i + 1].core;
            var missing := u.max - |c.conns| - c.builds.pending;
            && c'.builds.pending == c.builds.pending + (if states[i].live && missing > 0 then missing else 0)
            && states[i + 1] == states[i].(core := c.(builds := c'.builds))
  {
    var s := states[i];
    RunIsSafe(u, cap, states, steps, i, 0, 0);
    assert Next(u, s, Env(FillUp), states[i + 1]);
    EnsureBuildsIs(s.core.builds, |s.core.conns|, u.max);
  }

  lemma {:induction false} EnsureBuildsIs(b: Builds, n: nat, max: nat)
    ensures var b' := EnsureBuilds(b, n, max);
            b'.pending == if n + b.pending >= max then b.pending else max - n
    decreases max - n - b.pending
  {
    if n + b.pending < max { EnsureBuildsIs(Schedule(b, n, max), n, max); }
  }

  /** A build is over in two steps: the builder appends or fails, and later signs off and is counted no more. */
  lemma BuildsEnd(u: Setup, s: State, b: nat) returns (s1: State, s2: State)
    requires CoreInv(u, s) && b in s.core.builds.dialing
    ensures Next(u, s, Env(BuildFail(b)), s1) && Next(u, s1, Env(BuildFinish(b)), s2)
    ensures b !in s1.core.builds.dialing && b in s1.core.builds.settled
    ensures s1.core.builds.pending == s.core.builds.pending && s2.core.builds.pending == s.core.builds.pending - 1
    ensures b !in s2.core.builds.dialing && b !in s2.core.builds.settled
    ensures s2 == s.(core := s.core.(builds := s2.core.builds))
  {
    assert LedgerInv(s.core.builds, |s.core.conns|, u.max);
    s1 := s.(core := s.core.(builds := Settled(s.core.builds, b)));
    var x := s1.core.builds;
    s2 := s1.(core := s1.core.(builds := x.(settled := x.settled - {b}, pending := x.pending - 1)));
    SignsOff(u, s1, b, s2);
  }

  lemma SignsOff(u: Setup, s: State, b: nat, s': State)
    requires b in s.core.builds.settled && s.core.builds.pending > 0
    requires var x := s.core.builds;
             s' == s.(core := s.core.(builds := x.(settled := x.settled - {b}, pending := x.pending - 1)))
    ensures Next(u, s, Env(BuildFinish(b)), s')
  {
    assert BuildNext(u, s, BuildFinish(b), s');
  }

  // ---- the end of the pool ----------------------------------------------------------------

  /** The pool can be emptied exactly when its context is cancelled and all its members are dead; then no member and no
      binding is left. */
  lemma EmptiedIff(u: Setup, s: State)
    ensures (exists s' :: Next(u, s, Env(CloseAll), s')) <==>
              !s.live && forall id :: id in s.core.conns ==> id !in s.alive
    ensures forall s' :: Next(u, s, Env(CloseAll), s') ==> s'.core.conns == [] && s'.flows == map[]
  {
    if !s.live && forall id :: id in s.core.conns ==> id !in s.alive {
      assert Next(u, s, Env(CloseAll), CloseAllStep(s));
    }
  }

  /** Cancelling is for good. */
  lemma {:induction false} CancelledForGood(u: Setup, cap: nat, states: seq<State>, steps: seq<Step>, i: nat, j: nat)
    requires Run(u, cap, states, steps) && i < j <= |steps| && steps[i] == Env(Cancel)
    ensures !states[j].live
  {
    if i + 1 < j {
      CancelledForGood(u, cap, states, steps, i, j - 1);
      StaysCancelled(u, states[j - 1], steps[j - 1], states[j]);
    } else {
      assert Next(u, states[i], steps[i], states[j]);
    }
  }

  lemma StaysCancelled(u: Setup, s: State, step: Step, s': State)
    requires Next(u, s, step, s') && !s.live
    ensures !s'.live
  {
    if step.Env? {
      if EnvNext(s, step.e, s') { EventsDoNotRevive(s, step.e, s'); } else { BuildersDoNotRevive(u, s, step.e, s'); }
    } else if step.Pump? {
      PumpDoesNotRevive(u, s, s.calls[s.cur], step.k, s');
    }
  }

  lemma EventsDoNotRevive(s: State, e: EnvStep, s': State)
    requires EnvNext(s, e, s') && !s.live
    ensures !s'.live
  {}

  lemma BuildersDoNotRevive(u: Setup, s: State, e: EnvStep, s': State)
    requires BuildNext(u, s, e, s') && !s.live
    ensures !s'.live
  {}

  lemma PumpDoesNotRevive(u: Setup, s: State, c: Call, k: CallStep, s': State)
    requires PumpNext(u, s, c, k, s') && !s.live
    ensures !s'.live
  {}

  // ---- write latency ----------------------------------------------------------------------

  /** A measured write sets the smoothed latency of its connection, and moves it by one fifth of the difference, rounded
      down, once it is set; nobody else's changes. */
  lemma MeasureIs(u: Setup, s: State, id: ConnId, v: int, s': State, x: ConnId)
    requires Next(u, s, Env(Measure(id, v)), s')
    ensures s' == s.(latency := s'.latency)
    ensures x != id || v <= 0 ==> (x in s'.latency <==> x in s.latency)
                                  && (x in s.latency ==> s'.latency[x] == s.latency[x])
    ensures v > 0 ==> id in s'.latency
    ensures v > 0 && (id !in s.latency || s.latency[id] <= 0) ==> s'.latency[id] == v
    ensures v > 0 && id in s.latency && s.latency[id] > 0 ==>
              5 * s'.latency[id] <= 4 * s.latency[id] + v < 5 * s'.latency[id] + 5
  {}

  // ---- queues drain -----------------------------------------------------------------------

  /** Consecutive states joined by the write loop of one connection, none of whose writes fails. */
  ghost predicate WriterRun(u: Setup, id: ConnId, states: seq<State>, steps: seq<Step>) {
    && |states| == |steps| + 1
    && forall i :: 0 <= i < |steps| ==>
         Next(u, states[i], steps[i], states[i + 1])
         && (steps[i] == Env(Take(id)) || steps[i] == Env(Wrote(id, true)))
  }

  lemma OneBefore(u: Setup, id: ConnId, s: State, step: Step, states: seq<State>, steps: seq<Step>)
    requires WriterRun(u, id, states, steps) && Next(u, s, step, states[0])
    requires step == Env(Take(id)) || step == Env(Wrote(id, true))
    ensures WriterRun(u, id, [s] + states, [step] + steps)
  {
    var states', steps' := [s] + states, [step] + steps;
    forall i | 0 <= i < |steps'|
      ensures Next(u, states'[i], steps'[i], states'[i + 1])
              && (steps'[i] == Env(Take(id)) || steps'[i] == Env(Wrote(id, true)))
    {
      if i > 0 {
        assert states'[i] == states[i - 1] && steps'[i] == steps[i - 1];
      }
    }
  }

  /** While no write fails, an idle write loop sends everything that is queued, in order, and touches nothing else. */
  lemma {:induction false} QueueDrains(u: Setup, s: State, id: ConnId) returns (states: seq<State>, steps: seq<Step>)
    requires id in s.chans && s.chans[id].writer == Idling && s.chans[id].sent == s.chans[id].taken
    ensures WriterRun(u, id, states, steps) && states[0] == s
    ensures var c := s.chans[id];
            states[|steps|] == s.(chans := s.chans[id := Chan(c.cap, [], c.taken + c.queue, c.sent + c.queue, Idling)])
    decreases |s.chans[id].queue|
  {
    var c := s.chans[id];
    if c.queue == [] {
      states, steps := [s], [];
      assert c.taken + c.queue == c.taken && s.chans[id := c] == s.chans;
    } else {
      var s1, s2 := AfterOneWrite(u, s, id);
      states, steps := QueueDrains(u, s2, id);
      var x := [c.queue[0]];
      assert (c.taken + x) + c.queue[1..] == c.taken + c.queue;
      OneBefore(u, id, s1, Env(Wrote(id, true)), states, steps);
      states, steps := [s1] + states, [Env(Wrote(id, true))] + steps;
      OneBefore(u, id, s, Env(Take(id)), states, steps);
      states, steps := [s] + states, [Env(Take(id))] + steps;
    }
  }

  lemma AfterOneWrite(u: Setup, s: State, id: ConnId) returns (s1: State, s2: State)
    requires id in s.chans && s.chans[id].writer == Idling && s.chans[id].sent == s.chans[id].taken
    requires s.chans[id].queue != []
    ensures Next(u, s, Env(Take(id)), s1) && Next(u, s1, Env(Wrote(id, true)), s2)
    ensures var c := s.chans[id];
            var t := c.taken + [c.queue[0]];
            s2 == s.(chans := s.chans[id := Chan(c.cap, c.queue[1..], t, t, Idling)])
  {
    s1 := s.(chans := s.chans[id := TakenOff(s.chans[id])]);
    s2 := WroteStep(s1, id, true);
    assert s2.chans == s.chans[id := s2.chans[id]];
    assert EnvNext(s, Take(id), s1) && EnvNext(s1, Wrote(id, true), s2);
  }
}
