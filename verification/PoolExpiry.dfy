/** What happens to the pool's flow table over time: a binding carries the time of the flow's last bind, and a sweep
    drops exactly the bindings that are two minutes older or whose connection is dead or draining. */
module PoolExpiry {
  import opened Wrappers
  import opened Packet
  import opened EventLog
  import opened FlowTable
  import opened PoolRoles
  import opened PoolMonitor
  import opened PoolModel
  import opened PoolSafety

  const TWO_MINUTES: int := 120_000_000_000

  /** The step is the locked body the current call runs after its packet, of flow `f`, was accepted. */
  ghost predicate Binds(s: State, step: Step, f: FlowKey) {
    step.Pump? && step.k.Bind? && s.cur in s.calls && FlowOf(s.calls[s.cur]) == Some(f)
  }

  ghost predicate LastBind(states: seq<State>, steps: seq<Step>, n: nat, j: nat, f: FlowKey)
    requires n <= |steps| < |states|
  {
    j < n && Binds(states[j], steps[j], f) && forall k :: j < k < n ==> !Binds(states[k], steps[k], f)
  }

  function BoundTo(s: State): Option<ConnId> {
    if s.cur in s.calls && s.calls[s.cur].pc.After? then Some(s.calls[s.cur].pc.t) else None
  }

  /** A connection a binding may point at. */
  ghost predicate IsUsable(s: State, id: ConnId) {
    id in s.alive && id in s.core.roles.role && s.core.roles.role[id] != Draining
  }

  lemma BindWrites(u: Setup, s: State, step: Step, s': State, f: FlowKey)
    requires Next(u, s, step, s')
    ensures !Binds(s, step, f) && f in s'.flows ==> f in s.flows && s'.flows[f] == s.flows[f]
    ensures Binds(s, step, f) ==>
              var h := s.calls[s.cur].tcp.value;
              && (f in s'.flows <==> h.flags % 2 == 0 && h.flags / 4 % 2 == 0)
              && (f in s'.flows ==> BoundTo(s) == Some(s'.flows[f].target) && s'.flows[f].lastAt == s.now)
  {
    if step.Env? {
      if EnvNext(s, step.e, s') {
        EnvKeepsBindings(s, step.e, s', f);
      } else {
        BuildKeepsBindings(u, s, step.e, s', f);
      }
    } else if step.Pump? {
      PumpKeepsBindings(u, s, s.calls[s.cur], step.k, s', f);
    }
  }

  lemma EnvKeepsBindings(s: State, e: EnvStep, s': State, f: FlowKey)
    requires EnvNext(s, e, s')
    ensures f in s'.flows ==> f in s.flows && s'.flows[f] == s.flows[f]
  {}

  lemma BuildKeepsBindings(u: Setup, s: State, e: EnvStep, s': State, f: FlowKey)
    requires BuildNext(u, s, e, s')
    ensures f in s'.flows ==> f in s.flows && s'.flows[f] == s.flows[f]
  {}

  lemma PumpKeepsBindings(u: Setup, s: State, c: Call, k: CallStep, s': State, f: FlowKey)
    requires PumpNext(u, s, c, k, s')
    ensures !(k.Bind? && FlowOf(c) == Some(f)) && f in s'.flows ==> f in s.flows && s'.flows[f] == s.flows[f]
    ensures k.Bind? && FlowOf(c) == Some(f) ==>
              var h := c.tcp.value;
              && (f in s'.flows <==> h.flags % 2 == 0 && h.flags / 4 % 2 == 0)
              && (f in s'.flows ==> s'.flows[f] == Binding(c.pc.t, s.now))
  {}

  /** Every binding was written by the last bind of its flow. */
  lemma {:induction false} BoundSince(u: Setup, cap: nat, states: seq<State>, steps: seq<Step>, n: nat, f: FlowKey)
    returns (j: nat)
    requires Run(u, cap, states, steps) && n <= |steps| && f in states[n].flows
    ensures LastBind(states, steps, n, j, f)
    ensures states[n].flows[f].lastAt == states[j].now && BoundTo(states[j]) == Some(states[n].flows[f].target)
  {
    BindWrites(u, states[n - 1], steps[n - 1], states[n], f);
    if Binds(states[n - 1], steps[n - 1], f) {
      j := n - 1;
    } else {
      j := BoundSince(u, cap, states, steps, n - 1, f);
    }
  }

  /** A sweep drops a binding exactly when its connection is dead or draining or the flow's last bind is more than two
      minutes old, and notes exactly the latter as expired. */
  lemma SweepDropsIffIdle(u: Setup, cap: nat, states: seq<State>, steps: seq<Step>, i: nat, j: nat, f: FlowKey)
    requires Run(u, cap, states, steps) && i < |steps| && steps[i] == Env(ExpireFlows)
    requires f in states[i].flows && LastBind(states, steps, i, j, f)
    ensures var s, s' := states[i], states[i + 1];
            && (f in s'.flows <==> IsUsable(s, s.flows[f].target) && s.now - states[j].now <= TWO_MINUTES)
            && s'.log != [] && End(s'.log).Expired? && (f in End(s'.log).flows <==> s.now - states[j].now > TWO_MINUTES)
  {
    var k := BoundSince(u, cap, states, steps, i, f);
    assert j == k;
    RunIsSafe(u, cap, states, steps, i, 0, 0);
    TargetIsKnown(u, states[i], f);
    SweepIs(u, states[i], states[i + 1], f);
  }

  lemma TargetIsKnown(u: Setup, s: State, f: FlowKey)
    requires CoreInv(u, s) && f in s.flows
    ensures s.flows[f].target in s.chans
  {
    assert KnownInv(s);
  }

  lemma SweepIs(u: Setup, s: State, s': State, f: FlowKey)
    requires Next(u, s, Env(ExpireFlows), s') && (f in s.flows ==> s.flows[f].target in s.chans)
    ensures s'.log != [] && Front(s'.log) == s.log && End(s'.log).Expired?
    ensures f in s'.flows <==>
              f in s.flows && IsUsable(s, s.flows[f].target) && s.now - s.flows[f].lastAt <= TWO_MINUTES
    ensures f in End(s'.log).flows <==> f in s.flows && s.now - s.flows[f].lastAt > TWO_MINUTES
  {
    AppendEvent(s.log, End(s'.log));
  }

  /** A binding left alone for `d` and then swept. */
  lemma IdleFor(u: Setup, s: State, d: nat, s1: State, s2: State, f: FlowKey)
    requires f in s.flows && s.flows[f].target in s.chans
    requires Next(u, s, Env(Pass(d)), s1) && Next(u, s1, Env(ExpireFlows), s2)
    ensures f in s2.flows <==> IsUsable(s, s.flows[f].target) && s.now + d - s.flows[f].lastAt <= TWO_MINUTES
  {
    SweepIs(u, s1, s2, f);
  }
}
