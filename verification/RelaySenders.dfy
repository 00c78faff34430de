/** Flow order and bounded retries from a condition on the registry: at most one registered connection carries the
    sender's address. Each connection's read loop makes one enqueue call at a time, so the calls of a flow cannot
    overlap. */
module RelaySenders {
  import opened Wrappers
  import opened Addr
  import opened Packet
  import opened EventLog
  import opened FlowTable
  import opened Registry
  import opened RelayModel
  import opened RelaySafety
  import opened RelayOrder
  import opened RelayTheorems
  import opened RelayRuns
  import opened RelayOverlap

  /** The sender of a call in flight is registered. */
  ghost predicate SendersInv(calls: map<CallId, Call>, regs: seq<ConnId>) {
    forall c :: c in calls && !calls[c].pc.Done? ==> calls[c].from in regs
  }

  lemma EnvKeepsSenders(s: State, e: EnvStep, s': State)
    requires SendersInv(s.calls, s.dir.regs) && IndexInv(s.dir) && EnvNext(s, e, s')
    ensures SendersInv(s'.calls, s'.dir.regs)
  {
    if e.Unregister? {
      UnregisteredIsIndexed(s.dir, e.id);
    }
  }

  lemma CallKeepsSenders(s: State, i: CallId, c: Call, k: CallStep, s': State)
    requires SendersInv(s.calls, s.dir.regs) && i in s.calls && c == s.calls[i] && CallNext(s, i, c, k, s')
    ensures SendersInv(s'.calls, s'.dir.regs) && s'.overlapped == s.overlapped
  {
    DoneDoesNotStep(s, i, c, k, s');
    assert s'.calls == s.calls[i := s'.calls[i]] && s'.calls[i].from == c.from;
  }

  lemma BeginKeepsSenders(overlay: Prefix, s: State, i: CallId, from: ConnId, data: Bytes, s': State)
    requires SendersInv(s.calls, s.dir.regs) && BeginNext(overlay, s, i, from, data, s')
    ensures SendersInv(s'.calls, s'.dir.regs)
  {
    if s' != s {
      AdmitFits(overlay, s.dir, s.flows, from, data);
      AdmitKeepsSender(overlay, s.dir, s.flows, from, data);
    }
  }

  lemma AdmitKeepsSender(overlay: Prefix, dir: Directory, flows: map<FlowKey, Binding<ConnId>>, from: ConnId,
                         data: Bytes)
    requires Admit(overlay, dir, flows, from, data).Some?
    ensures var c := Admit(overlay, dir, flows, from, data).value;
            c.from == from && (c.tcp.Some? ==> c.tcp.value.flow.src == c.pkt.src)
  {}

  /** Two registered connections of one address are one when the address has at most one. */
  lemma OneOfAddress(dir: Directory, a: Addr, x: ConnId, y: ConnId)
    requires IndexInv(dir) && |Get(dir.vipMap, a)| <= 1
    requires x in dir.regs && y in dir.regs && Serves(dir.vipOf, x, a) && Serves(dir.vipOf, y, a)
    ensures x == y
  {
    OneListed(dir.vipMap, dir.regs, dir.vipOf, x, y, a);
  }

  /** A call in flight comes from a registered connection of its flow's source address. */
  lemma SenderOfFlow(overlay: Prefix, s: State, c: CallId, f: FlowKey)
    requires DeliveryInv(overlay, s) && SendersInv(s.calls, s.dir.regs) && Active(s.calls, c, f)
    ensures s.calls[c].from in s.dir.regs && Serves(s.dir.vipOf, s.calls[c].from, f.src)
  {
    assert GoodCall(overlay, s.dir.vipOf, s.calls[c]);
  }

  lemma BeginDoesNotOverlap(overlay: Prefix, s: State, i: CallId, from: ConnId, data: Bytes, s': State, f: FlowKey)
    requires RegInv(s) && DeliveryInv(overlay, s) && SendersInv(s.calls, s.dir.regs) && |Get(s.dir.vipMap, f.src)| <= 1
    requires BeginNext(overlay, s, i, from, data, s') && f !in s.overlapped
    ensures f !in s'.overlapped
  {
    if s' != s {
      var c := Admit(overlay, s.dir, s.flows, from, data).value;
      AdmitFits(overlay, s.dir, s.flows, from, data);
      AdmitKeepsSender(overlay, s.dir, s.flows, from, data);
      if Overlaps(s, c) && c.tcp.value.flow == f {
        var c' :| c' in s.calls && Active(s.calls, c', f);
        SenderOfFlow(overlay, s, c', f);
        OneOfAddress(s.dir, f.src, from, s.calls[c'].from);
      }
    }
  }

  lemma StepKeepsCalm(overlay: Prefix, s: State, step: Step, s': State, f: FlowKey)
    requires RegInv(s) && DeliveryInv(overlay, s) && Next(overlay, s, step, s') && |Get(s.dir.vipMap, f.src)| <= 1
    requires SendersInv(s.calls, s.dir.regs) && f !in s.overlapped
    ensures SendersInv(s'.calls, s'.dir.regs) && f !in s'.overlapped
  {
    if step.Env? {
      EnvKeepsSenders(s, step.e, s');
      EnvOnlyRemoves(s, step.e, s');
    } else if step.k.Begin? {
      BeginKeepsSenders(overlay, s, step.call, step.k.from, step.k.data, s');
      BeginDoesNotOverlap(overlay, s, step.call, step.k.from, step.k.data, s', f);
    } else {
      CallKeepsSenders(s, step.call, s.calls[step.call], step.k, s');
    }
  }

  /** As long as at most one registered connection carries the source address of a flow, its calls never overlap. */
  lemma {:induction false} OneSenderNeverOverlaps(overlay: Prefix, states: seq<State>, steps: seq<Step>, i: nat,
                                                  f: FlowKey)
    requires Run(overlay, states, steps) && i <= |steps|
    requires forall j :: 0 <= j < i ==> |Get(states[j].dir.vipMap, f.src)| <= 1
    ensures SendersInv(states[i].calls, states[i].dir.regs) && f !in states[i].overlapped
  {
    if i > 0 {
      OneSenderNeverOverlaps(overlay, states, steps, i - 1, f);
      RunIsSafe(overlay, states, steps, i - 1, 0, 0);
      StepKeepsCalm(overlay, states[i - 1], steps[i - 1], states[i], f);
    }
  }

  // ---- order, exactly ---------------------------------------------------------------------

  /** No run whose queues have `cap` places and in which at most `n` registered connections carry the flow's source
      address ever splits the flow. */
  ghost predicate OrderHolds(overlay: Prefix, n: nat, cap: nat) {
    forall states: seq<State>, steps: seq<Step>, f: FlowKey, i: nat, j: nat ::
      Run(overlay, states, steps) && AllWithin(states, f.src, n, cap) ==> !SplitAt(states[|steps|].log, f, i, j)
  }

  lemma OneSenderKeepsOrder(overlay: Prefix, states: seq<State>, steps: seq<Step>, f: FlowKey, i: nat, j: nat)
    requires Run(overlay, states, steps) && forall k :: 0 <= k < |states| ==> |Get(states[k].dir.vipMap, f.src)| <= 1
    ensures !SplitAt(states[|steps|].log, f, i, j)
  {
    OneSenderNeverOverlaps(overlay, states, steps, |steps|, f);
    if SplitAt(states[|steps|].log, f, i, j) {
      FlowStaysOnOneClient(overlay, states, steps, |steps|, f, i, j);
    }
  }

  /** On every overlay with a usable destination flow order holds exactly for at most one sender connection, whatever
      the capacity of the queues. */
  lemma OrderHoldsIffOneSender(overlay: Prefix, n: nat, cap: nat)
    requires cap > 0 && HasDestination(overlay)
    ensures OrderHolds(overlay, n, cap) <==> n <= 1
  {
    if n <= 1 {
      forall states: seq<State>, steps: seq<Step>, f: FlowKey, i: nat, j: nat |
        Run(overlay, states, steps) && AllWithin(states, f.src, n, cap)
        ensures !SplitAt(states[|steps|].log, f, i, j)
      {
        OneSenderKeepsOrder(overlay, states, steps, f, i, j);
      }
    } else {
      var src, dst := SomePair(overlay);
      var states, steps, f, i, j := OverlapSplitsAFlow(overlay, src, dst, cap);
      assert AllWithin(states, f.src, n, cap);
    }
  }

  /** For one sender connection the packets a write loop took are a prefix of the flow's current stretch. */
  lemma OneSenderIsDeliveredInOrder(overlay: Prefix, states: seq<State>, steps: seq<Step>, f: FlowKey)
    requires Run(overlay, states, steps) && forall k :: 0 <= k < |states| ==> |Get(states[k].dir.vipMap, f.src)| <= 1
    requires Stretch(states[|steps|].log, f) != []
    ensures var s := states[|steps|];
            exists id :: Carrier(s.log, f) == Some(id) && id in s.chans && s.chans[id].sent <= s.chans[id].taken
              && DeliveredInOrder(Stretch(s.log, f), f, s.chans[id].taken, s.chans[id].queue)
  {
    OneSenderNeverOverlaps(overlay, states, steps, |steps|, f);
    StretchIsDeliveredInOrder(overlay, states, steps, |steps|, f);
  }
}
