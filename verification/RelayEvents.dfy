/** What the events around the enqueue calls leave behind, and what is never taken back. */
module RelayEvents {
  import opened Wrappers
  import opened Addr
  import opened Packet
  import opened EventLog
  import opened FlowTable
  import opened Registry
  import opened RelayModel
  import opened RelaySafety

  /** What comes from outside: a new connection registers, a registered one whose read loop has returned is removed,
      anyone may be closed and, once closed, signal the end, and the table may be swept. */
  ghost predicate CanHappen(s: State, e: EnvStep) {
    match e
    case Register(id, _, _, _) => id !in s.chans
    case Unregister(id) => id in s.dir.regs && Quiet(s.calls, id)
    case MarkClosed(id) => id in s.chans
    case CloseDone(id) => id in s.closed
    case Tick(_) => true
    case ExpireFlows => true
    case _ => false
  }

  /** Nothing holds these events up. */
  lemma EventsHappen(overlay: Prefix, s: State, e: EnvStep) returns (s': State)
    requires RegInv(s) && CanHappen(s, e)
    ensures Next(overlay, s, Env(e), s')
  {
    if e.Unregister? {
      assert e.id in s.dir.vipOf && e.id in s.dir.deviceOf;
      s' := UnregisterStep(s, e.id);
    } else {
      s' := match e
        case Register(id, device, vip, cap) => RegisterStep(s, id, device, vip, cap)
        case MarkClosed(id) => Close(s, id)
        case CloseDone(id) => s.(done := s.done + {id})
        case Tick(d) => s.(now := s.now + d)
        case _ => ExpireStep(s);
    }
  }

  /** A registered connection whose read loop is idle can read any packet. */
  lemma PacketsAreRead(overlay: Prefix, s: State, call: CallId, from: ConnId, data: Bytes) returns (s': State)
    requires from in s.dir.regs && Quiet(s.calls, from) && call !in s.calls
    ensures Next(overlay, s, Enqueue(call, CallStep.Begin(from, data)), s')
    ensures call in s'.calls <==> Admit(overlay, s.dir, s.flows, from, data).Some?
  {
    s' := match Admit(overlay, s.dir, s.flows, from, data) case None => s case Some(c) => BeginStep(s, call, c);
  }

  /** A connection that is removed is closed and has signalled its end, is registered no more and bound to no flow;
      everybody else is as before. */
  lemma UnregisterForgets(overlay: Prefix, states: seq<State>, steps: seq<Step>, i: nat, id: ConnId, x: ConnId,
                          f: FlowKey)
    requires Run(overlay, states, steps) && i < |steps| && steps[i] == Env(Unregister(id))
    ensures var s, s' := states[i], states[i + 1];
            && id in s'.closed && id in s'.done && id !in s'.dir.regs
            && (x != id ==> (x in s'.closed <==> x in s.closed) && (x in s'.done <==> x in s.done)
                            && (x in s'.dir.regs <==> x in s.dir.regs))
            && (f in s'.flows <==> f in s.flows && s.flows[f].target != id)
            && (f in s'.flows ==> s'.flows[f] == s.flows[f])
  {
    RunIsSafe(overlay, states, steps, i, id, 0);
    RemovalForgets(overlay, states[i], id, states[i + 1], x, f);
  }

  lemma RemovalForgets(overlay: Prefix, s: State, id: ConnId, s': State, x: ConnId, f: FlowKey)
    requires RegInv(s) && Next(overlay, s, Env(Unregister(id)), s')
    ensures id in s'.closed && id in s'.done && id !in s'.dir.regs
    ensures x != id ==> (x in s'.closed <==> x in s.closed) && (x in s'.done <==> x in s.done)
                        && (x in s'.dir.regs <==> x in s.dir.regs)
    ensures f in s'.flows <==> f in s.flows && s.flows[f].target != id
    ensures f in s'.flows ==> s'.flows[f] == s.flows[f]
  {
    assert s' == UnregisterStep(s, id);
    UnregisteredIsIndexed(s.dir, id);
  }

  // ---- closing is for good ----------------------------------------------------------------

  lemma StepKeepsClosed(overlay: Prefix, s: State, step: Step, s': State)
    requires Next(overlay, s, step, s')
    ensures s.closed <= s'.closed && s.done <= s'.done
  {
    if step.Env? { EventKeepsClosed(s, step.e, s'); }
  }

  lemma EventKeepsClosed(s: State, e: EnvStep, s': State)
    requires EnvNext(s, e, s')
    ensures s.closed <= s'.closed && s.done <= s'.done
  {}

  /** A closed connection stays closed, and one that has signalled its end never takes that back. */
  lemma {:induction false} ClosedForGood(overlay: Prefix, states: seq<State>, steps: seq<Step>, i: nat, j: nat)
    requires Run(overlay, states, steps) && i <= j <= |steps|
    ensures states[i].closed <= states[j].closed && states[i].done <= states[j].done
  {
    if i < j {
      ClosedForGood(overlay, states, steps, i, j - 1);
      StepKeepsClosed(overlay, states[j - 1], steps[j - 1], states[j]);
    }
  }

  /** The write loop of the connection has ended. */
  ghost predicate Ended(s: State, id: ConnId, taken: seq<Frame>, sent: seq<Frame>) {
    && id in s.chans && id in s.dir.vipOf
    && s.chans[id].writer == Stopped && s.chans[id].taken == taken && s.chans[id].sent == sent
  }

  lemma StepKeepsEnded(overlay: Prefix, s: State, step: Step, s': State, id: ConnId, taken: seq<Frame>,
                       sent: seq<Frame>)
    requires Next(overlay, s, step, s') && Ended(s, id, taken, sent)
    ensures Ended(s', id, taken, sent)
  {
    if step.Env? {
      EventKeepsEnded(s, step.e, s', id, taken, sent);
    } else if !step.k.Begin? {
      CallKeepsEnded(s, step.call, s.calls[step.call], step.k, s', id, taken, sent);
    }
  }

  lemma EventKeepsEnded(s: State, e: EnvStep, s': State, id: ConnId, taken: seq<Frame>, sent: seq<Frame>)
    requires EnvNext(s, e, s') && Ended(s, id, taken, sent)
    ensures Ended(s', id, taken, sent)
  {}

  lemma CallKeepsEnded(s: State, call: CallId, c: Call, k: CallStep, s': State, id: ConnId, taken: seq<Frame>,
                       sent: seq<Frame>)
    requires CallNext(s, call, c, k, s') && Ended(s, id, taken, sent)
    ensures Ended(s', id, taken, sent)
  {}

  lemma {:induction false} EndedForGood(overlay: Prefix, states: seq<State>, steps: seq<Step>, i: nat, j: nat,
                                        id: ConnId, taken: seq<Frame>, sent: seq<Frame>)
    requires Run(overlay, states, steps) && i <= j <= |steps| && Ended(states[i], id, taken, sent)
    ensures Ended(states[j], id, taken, sent)
  {
    if i < j {
      EndedForGood(overlay, states, steps, i, j - 1, id, taken, sent);
      StepKeepsEnded(overlay, states[j - 1], steps[j - 1], states[j], id, taken, sent);
    }
  }

  /** A failed write closes the connection, and nothing is taken from its queue or sent on it ever after. */
  lemma FailedWriteEnds(overlay: Prefix, states: seq<State>, steps: seq<Step>, i: nat, j: nat, id: ConnId)
    requires Run(overlay, states, steps) && i < j <= |steps| && steps[i] == Env(Wrote(id, false))
    ensures id in states[i].chans && id in states[j].chans && id in states[j].closed
    ensures states[j].chans[id].sent == states[i].chans[id].sent
    ensures states[j].chans[id].taken == states[i].chans[id].taken
  {
    var s, s' := states[i], states[i + 1];
    RunIsSafe(overlay, states, steps, i, id, 0);
    assert Next(overlay, s, steps[i], s');
    assert Ended(s', id, s.chans[id].taken, s.chans[id].sent);
    EndedForGood(overlay, states, steps, i + 1, j, id, s.chans[id].taken, s.chans[id].sent);
    ClosedForGood(overlay, states, steps, i + 1, j);
  }

  /** A connection can signal its end exactly when it is closed. */
  lemma EndsIffClosed(overlay: Prefix, s: State, id: ConnId)
    ensures id in s.closed <==> exists s' :: Next(overlay, s, Env(CloseDone(id)), s') && id in s'.done
  {
    if id in s.closed {
      var s' := s.(done := s.done + {id});
      assert Next(overlay, s, Env(CloseDone(id)), s');
    }
  }

  // ---- queues drain -----------------------------------------------------------------------

  /** Consecutive states joined by the write loop of one connection, none of whose writes fails. */
  ghost predicate WriterRun(overlay: Prefix, id: ConnId, states: seq<State>, steps: seq<Step>) {
    && |states| == |steps| + 1
    && forall i :: 0 <= i < |steps| ==>
         Next(overlay, states[i], steps[i], states[i + 1])
         && (steps[i] == Env(Take(id)) || steps[i] == Env(Wrote(id, true)))
  }

  lemma OneBefore(overlay: Prefix, id: ConnId, s: State, step: Step, states: seq<State>, steps: seq<Step>)
    requires WriterRun(overlay, id, states, steps) && Next(overlay, s, step, states[0])
    requires step == Env(Take(id)) || step == Env(Wrote(id, true))
    ensures WriterRun(overlay, id, [s] + states, [step] + steps)
  {
    var states', steps' := [s] + states, [step] + steps;
    forall i | 0 <= i < |steps'|
      ensures Next(overlay, states'[i], steps'[i], states'[i + 1])
              && (steps'[i] == Env(Take(id)) || steps'[i] == Env(Wrote(id, true)))
    {
      if i > 0 {
        assert states'[i] == states[i - 1] && steps'[i] == steps[i - 1];
      }
    }
  }

  /** While no write fails, an idle write loop sends everything that is queued, in order, and touches nothing else. */
  lemma {:induction false} QueueDrains(overlay: Prefix, s: State, id: ConnId)
    returns (states: seq<State>, steps: seq<Step>)
    requires id in s.chans && s.chans[id].writer == Idling && s.chans[id].sent == s.chans[id].taken
    ensures WriterRun(overlay, id, states, steps) && states[0] == s
    ensures var c := s.chans[id];
            states[|steps|] == s.(chans := s.chans[id := Chan(c.cap, [], c.taken + c.queue, c.sent + c.queue, Idling)])
    decreases |s.chans[id].queue|
  {
    var c := s.chans[id];
    if c.queue == [] {
      states, steps := [s], [];
      assert c.taken + c.queue == c.taken && s.chans[id := c] == s.chans;
    } else {
      var s1, s2 := AfterOneWrite(overlay, s, id);
      states, steps := QueueDrains(overlay, s2, id);
      var x := [c.queue[0]];
      assert (c.taken + x) + c.queue[1..] == c.taken + c.queue;
      OneBefore(overlay, id, s1, Env(Wrote(id, true)), states, steps);
      states, steps := [s1] + states, [Env(Wrote(id, true))] + steps;
      OneBefore(overlay, id, s, Env(Take(id)), states, steps);
      states, steps := [s] + states, [Env(Take(id))] + steps;
    }
  }

  lemma AfterOneWrite(overlay: Prefix, s: State, id: ConnId) returns (s1: State, s2: State)
    requires id in s.chans && s.chans[id].writer == Idling && s.chans[id].sent == s.chans[id].taken
    requires s.chans[id].queue != []
    ensures Next(overlay, s, Env(Take(id)), s1) && Next(overlay, s1, Env(Wrote(id, true)), s2)
    ensures var c := s.chans[id];
            var t := c.taken + [c.queue[0]];
            s2 == s.(chans := s.chans[id := Chan(c.cap, c.queue[1..], t, t, Idling)])
  {
    s1 := s.(chans := s.chans[id := TakenOff(s.chans[id])]);
    s2 := WroteStep(s1, id, true);
    assert s2.chans == s.chans[id := s2.chans[id]];
  }
}
