/** What happens to the relay's flow table over time: a binding carries the time of the flow's last bind, and a sweep
    drops exactly the bindings that are two minutes older or whose client has closed. */
module RelayExpiry {
  import opened Wrappers
  import opened Addr
  import opened Packet
  import opened EventLog
  import opened FlowTable
  import opened RelayModel

  const TWO_MINUTES: int := 120_000_000_000

  /** The step is the locked body a call of flow `f` runs after its packet was accepted. */
  ghost predicate Binds(s: State, step: Step, f: FlowKey) {
    && step.Enqueue? && step.k.Bind? && step.call in s.calls && FlowOf(s.calls[step.call]) == Some(f)
  }

  /** Step `j` is the last such step of `f` before step `n`. */
  ghost predicate LastBind(states: seq<State>, steps: seq<Step>, n: nat, j: nat, f: FlowKey)
    requires n <= |steps| < |states|
  {
    j < n && Binds(states[j], steps[j], f) && forall k :: j < k < n ==> !Binds(states[k], steps[k], f)
  }

  /** The client the packet of that step had been queued on. */
  function BoundTo(s: State, step: Step): Option<ConnId> {
    if step.Enqueue? && step.call in s.calls && s.calls[step.call].pc.After? then Some(s.calls[step.call].pc.t)
    else None
  }

  /** What one step does to the table: the bind of a flow writes its client and the time, unless FIN or RST is set, and
      every other step leaves the binding alone or removes it. */
  lemma BindWrites(overlay: Prefix, s: State, step: Step, s': State, f: FlowKey)
    requires Next(overlay, s, step, s')
    ensures !Binds(s, step, f) && f in s'.flows ==> f in s.flows && s'.flows[f] == s.flows[f]
    ensures Binds(s, step, f) ==>
              var h := s.calls[step.call].tcp.value;
              && (f in s'.flows <==> h.flags % 2 == 0 && h.flags / 4 % 2 == 0)
              && (f in s'.flows ==> BoundTo(s, step) == Some(s'.flows[f].target) && s'.flows[f].lastAt == s.now)
  {
    if step.Env? {
      EnvKeepsBindings(s, step.e, s', f);
    }
  }

  lemma EnvKeepsBindings(s: State, e: EnvStep, s': State, f: FlowKey)
    requires EnvNext(s, e, s')
    ensures f in s'.flows ==> f in s.flows && s'.flows[f] == s.flows[f]
  {}

  /** Every binding was written by the last bind of its flow. */
  lemma {:induction false} BoundSince(overlay: Prefix, states: seq<State>, steps: seq<Step>, n: nat, f: FlowKey)
    returns (j: nat)
    requires Run(overlay, states, steps) && n <= |steps| && f in states[n].flows
    ensures LastBind(states, steps, n, j, f)
    ensures states[n].flows[f].lastAt == states[j].now
    ensures BoundTo(states[j], steps[j]) == Some(states[n].flows[f].target)
  {
    BindWrites(overlay, states[n - 1], steps[n - 1], states[n], f);
    if Binds(states[n - 1], steps[n - 1], f) {
      j := n - 1;
    } else {
      j := BoundSince(overlay, states, steps, n - 1, f);
    }
  }

  /** A sweep drops a binding exactly when its client has closed or the flow's last bind is more than two minutes old,
      and notes exactly the latter as expired. */
  lemma SweepDropsIffIdle(overlay: Prefix, states: seq<State>, steps: seq<Step>, i: nat, j: nat, f: FlowKey)
    requires Run(overlay, states, steps) && i < |steps| && steps[i] == Env(ExpireFlows)
    requires f in states[i].flows && LastBind(states, steps, i, j, f)
    ensures var s, s' := states[i], states[i + 1];
            && (f in s'.flows <==> s.flows[f].target !in s.closed && s.now - states[j].now <= TWO_MINUTES)
            && s'.log != [] && End(s'.log).Expired? && (f in End(s'.log).flows <==> s.now - states[j].now > TWO_MINUTES)
  {
    var k := BoundSince(overlay, states, steps, i, f);
    assert j == k;
    SweepIs(overlay, states[i], states[i + 1], f);
  }

  /** Nothing is noted as expired that was not bound. */
  lemma SweepIs(overlay: Prefix, s: State, s': State, f: FlowKey)
    requires Next(overlay, s, Env(ExpireFlows), s')
    ensures s'.log != [] && Front(s'.log) == s.log && End(s'.log).Expired?
    ensures f in s'.flows <==>
              f in s.flows && s.flows[f].target !in s.closed && s.now - s.flows[f].lastAt <= TWO_MINUTES
    ensures f in End(s'.log).flows <==> f in s.flows && s.now - s.flows[f].lastAt > TWO_MINUTES
  {
    AppendEvent(s.log, End(s'.log));
  }

  /** A binding left alone for `d` and then swept. */
  lemma IdleFor(overlay: Prefix, s: State, d: nat, s1: State, s2: State, f: FlowKey)
    requires f in s.flows && Next(overlay, s, Env(Tick(d)), s1) && Next(overlay, s1, Env(ExpireFlows), s2)
    ensures f in s2.flows <==> s.flows[f].target !in s.closed && s.now + d - s.flows[f].lastAt <= TWO_MINUTES
  {
    SweepIs(overlay, s1, s2, f);
  }
}
