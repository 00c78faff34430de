/** Flow order in the pool: while its binding stands, a TCP flow stays on one connection. */
module PoolOrder {
  import opened Wrappers
  import opened Packet
  import opened EventLog
  import opened FlowTable
  import opened PoolRoles
  import opened PoolMonitor
  import opened PoolModel
  import opened PoolSafety

  /** What a call's control point says about the connection its flow stands on. */
  ghost predicate Stage(c: Call, flows: map<FlowKey, Binding<ConnId>>, f: FlowKey, standing: Option<ConnId>) {
    match c.pc
    case Top => Bound(flows, f, standing)
    case Lookup => Bound(flows, f, standing)
    case Done(_) => Bound(flows, f, standing)
    case CheckBound(t) => Bound(flows, f, standing) && (standing == None || standing == Some(t))
    case WaitBound(t) => Bound(flows, f, standing) && (standing == None || standing == Some(t))
    case After(t) => (standing == None || standing == Some(t)) && (Closes(c) ==> standing == None)
    case _ => standing == None
  }

  ghost predicate StageOf(calls: map<CallId, Call>, cur: CallId, flows: map<FlowKey, Binding<ConnId>>, f: FlowKey,
                          standing: Option<ConnId>) {
    if cur in calls && FlowOf(calls[cur]) == Some(f) then Stage(calls[cur], flows, f, standing)
      else Bound(flows, f, standing)
  }

  /** Accepted packets follow the standing connection, and unless the pump has yet to write the table the table names
      it. */
  ghost predicate OrderInv(s: State, f: FlowKey) {
    Follows(s.log, f) && StageOf(s.calls, s.cur, s.flows, f, Standing(s.log, f))
  }

  /** The connection a flow stands on is alive and not draining. */
  ghost predicate StandsWell(s: State, f: FlowKey) {
    Standing(s.log, f).Some? && Standing(s.log, f).value in s.chans ==> Usable(s, Standing(s.log, f).value)
  }

  lemma StandingIsUsable(s: State, f: FlowKey)
    requires forall id :: GoneInv(s, id)
    ensures StandsWell(s, f)
  {
    StandingIsNotGone(s.log, f);
    if Standing(s.log, f).Some? {
      assert GoneInv(s, Standing(s.log, f).value);
    }
  }

  /** A step outside the pump: the standing connection stays or is released, and a binding to it stays. */
  lemma OutsideKeepsStage(s: State, s': State, f: FlowKey)
    requires s'.calls == s.calls && s'.cur == s.cur
    requires StageOf(s.calls, s.cur, s.flows, f, Standing(s.log, f))
    requires Standing(s'.log, f) == None || Standing(s'.log, f) == Standing(s.log, f)
    requires Standing(s'.log, f).Some? && Bound(s.flows, f, Standing(s'.log, f)) ==>
             Bound(s'.flows, f, Standing(s'.log, f))
    ensures StageOf(s'.calls, s'.cur, s'.flows, f, Standing(s'.log, f))
  {}

  /** An event that accepts nothing. */
  lemma QuietFollows(log: Log, log': Log, f: FlowKey)
    requires Follows(log, f) && (log' == log || (log' != [] && Front(log') == log && !End(log').Accepted?))
    ensures Follows(log', f) && (Standing(log', f) == None || Standing(log', f) == Standing(log, f))
    ensures log' != log && (End(log').Cleared? || (End(log').Expired? && f in End(log').flows)) ==>
            Standing(log', f) == None
  {}

  lemma EnvKeepsBound(s: State, e: EnvStep, s': State, f: FlowKey)
    requires KnownInv(s) && StandsWell(s, f) && EnvNext(s, e, s') && Bound(s.flows, f, Standing(s.log, f))
    ensures Standing(s'.log, f) == Standing(s.log, f) ==> Bound(s'.flows, f, Standing(s.log, f))
  {
    if e.ExpireFlows? {
      AppendEvent(s.log, End(s'.log));
    } else {
      assert s'.flows == s.flows;
    }
  }

  lemma EnvKeepsOrder(s: State, e: EnvStep, s': State, f: FlowKey)
    requires OrderInv(s, f) && KnownInv(s) && StandsWell(s, f) && EnvNext(s, e, s')
    ensures OrderInv(s', f)
  {
    EnvKeepsCalls(s, e, s');
    EnvLog(s, e, s');
    QuietFollows(s.log, s'.log, f);
    if Bound(s.flows, f, Standing(s.log, f)) {
      EnvKeepsBound(s, e, s', f);
    }
    OutsideKeepsStage(s, s', f);
  }

  lemma BuildKeepsOrder(u: Setup, s: State, e: EnvStep, s': State, f: FlowKey)
    requires OrderInv(s, f) && BuildNext(u, s, e, s')
    ensures OrderInv(s', f)
  {
    BuildLog(u, s, e, s');
    QuietFollows(s.log, s'.log, f);
    if e.CloseAll? {
      AppendEvent(s.log, Cleared);
    }
    OutsideKeepsStage(s, s', f);
  }

  lemma MoveKeepsStage(s: State, c: Call, pc: Pc, f: FlowKey)
    requires CanMove(s, c, pc) && FlowOf(c) == Some(f)
    requires Stage(c, s.flows, f, Standing(s.log, f)) && StandsWell(s, f) && KnownInv(s)
    ensures Stage(c.(pc := pc), s.flows, f, Standing(s.log, f))
  {}

  lemma PushFollows(s: State, c: Call, t: ConnId, f: FlowKey)
    requires PushTarget(c.pc) == Some(t) && FlowOf(c) == Some(f)
    requires Follows(s.log, f) && Stage(c, s.flows, f, Standing(s.log, f))
    ensures var log' := s.log + [Accepted(FrameOf(s.cur, c), t, Closes(c))];
            Follows(log', f) && Stage(Sent(c, t), s.flows, f, Standing(log', f))
  {
    AppendEvent(s.log, Accepted(FrameOf(s.cur, c), t, Closes(c)));
  }

  lemma OwnCallKeepsOrder(u: Setup, s: State, c: Call, k: CallStep, s': State, f: FlowKey)
    requires s.cur in s.calls && c == s.calls[s.cur] && FlowOf(c) == Some(f)
    requires OrderInv(s, f) && PumpNext(u, s, c, k, s') && StandsWell(s, f) && KnownInv(s)
    ensures OrderInv(s', f)
  {
    if k.Move? {
      MoveKeepsStage(s, c, k.pc, f);
    } else if k.Push? {
      PushFollows(s, c, k.t, f);
    }
  }

  lemma OtherCallKeepsOrder(u: Setup, s: State, c: Call, k: CallStep, s': State, f: FlowKey)
    requires s.cur in s.calls && c == s.calls[s.cur] && FlowOf(c) != Some(f)
    requires OrderInv(s, f) && PumpNext(u, s, c, k, s')
    ensures OrderInv(s', f)
  {
    if k.Push? {
      AppendEvent(s.log, End(s'.log));
    }
  }

  lemma BeginKeepsOrder(s: State, i: CallId, data: Bytes, s': State, f: FlowKey)
    requires OrderInv(s, f) && BeginNext(s, i, data, s')
    ensures OrderInv(s', f)
  {
    if ParseIPv4(data).Ok? {
      var c := Dispatch(ParseIPv4(data).value);
      assert c.pc.Top? || c.tcp == None;
    }
  }

  lemma StepKeepsOrder(u: Setup, s: State, step: Step, s': State, f: FlowKey)
    requires OrderInv(s, f) && Next(u, s, step, s') && KnownInv(s) && StandsWell(s, f)
    ensures OrderInv(s', f)
  {
    if step.Env? {
      if EnvNext(s, step.e, s') { EnvKeepsOrder(s, step.e, s', f); } else { BuildKeepsOrder(u, s, step.e, s', f); }
    } else if step.Begin? {
      BeginKeepsOrder(s, step.call, step.data, s', f);
    } else if FlowOf(s.calls[s.cur]) == Some(f) {
      OwnCallKeepsOrder(u, s, s.calls[s.cur], step.k, s', f);
    } else {
      OtherCallKeepsOrder(u, s, s.calls[s.cur], step.k, s', f);
    }
  }

  lemma {:induction false} RunKeepsOrder(u: Setup, cap: nat, states: seq<State>, steps: seq<Step>, i: nat, f: FlowKey)
    requires Run(u, cap, states, steps) && i <= |steps|
    ensures OrderInv(states[i], f)
  {
    if i > 0 {
      var s := states[i - 1];
      RunKeepsOrder(u, cap, states, steps, i - 1, f);
      forall id ensures GoneInv(s, id) && KnownInv(s) {
        RunIsSafe(u, cap, states, steps, i - 1, id, 0);
      }
      StandingIsUsable(s, f);
      assert KnownInv(s) by { RunIsSafe(u, cap, states, steps, i - 1, 0, 0); }
      StepKeepsOrder(u, s, steps[i - 1], states[i], f);
    }
  }
}
