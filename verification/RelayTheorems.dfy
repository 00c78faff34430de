/** The relay's main results about flows, for every reachable state. */
module RelayTheorems {
  import opened Wrappers
  import opened Addr
  import opened Packet
  import opened EventLog
  import opened FlowTable
  import opened RelayModel
  import opened RelaySafety
  import opened RelayOrder

  lemma {:induction false} RunKeepsOrder(overlay: Prefix, states: seq<State>, steps: seq<Step>, i: nat, f: FlowKey)
    requires Run(overlay, states, steps) && i <= |steps|
    ensures OrderInv(states[i], f)
  {
    if i > 0 {
      var s, step, s' := states[i - 1], steps[i - 1], states[i];
      RunKeepsOrder(overlay, states, steps, i - 1, f);
      forall id ensures GoneInv(s, id) && FlagInv(s) && DeliveryInv(overlay, s) {
        RunIsSafe(overlay, states, steps, i - 1, id, 0);
      }
      RunIsSafe(overlay, states, steps, i - 1, 0, 0);
      StepKeepsOrder(overlay, s, step, s', f);
    }
  }

  lemma StepKeepsOrder(overlay: Prefix, s: State, step: Step, s': State, f: FlowKey)
    requires OrderInv(s, f) && Next(overlay, s, step, s')
    requires FlagInv(s) && DeliveryInv(overlay, s) && forall id :: GoneInv(s, id)
    ensures OrderInv(s', f)
  {
    if step.Env? {
      EnvKeepsOrder(s, step.e, s', f);
    } else if step.k.Begin? {
      BeginKeepsOrder(overlay, s, step.call, step.k.from, step.k.data, s', f);
    } else {
      CallKeepsOrder(overlay, s, step.call, step.k, s', f);
    }
  }

  lemma CallKeepsOrder(overlay: Prefix, s: State, i: CallId, k: CallStep, s': State, f: FlowKey)
    requires OrderInv(s, f) && i in s.calls && CallNext(s, i, s.calls[i], k, s')
    requires FlagInv(s) && DeliveryInv(overlay, s) && forall id :: GoneInv(s, id)
    ensures OrderInv(s', f)
  {
    var c := s.calls[i];
    if FlowOf(c) == Some(f) {
      assert GoodCall(overlay, s.dir.vipOf, c);
      DoneDoesNotStep(s, i, c, k, s');
      OwnCallKeepsOrder(s, i, c, k, s', f);
    } else {
      OtherCallKeepsOrder(s, i, c, k, s', f);
    }
  }

  lemma DoneDoesNotStep(s: State, i: CallId, c: Call, k: CallStep, s': State)
    requires CallNext(s, i, c, k, s')
    ensures !c.pc.Done?
  {}

  lemma {:induction false} RunKeepsRetry(overlay: Prefix, states: seq<State>, steps: seq<Step>, i: nat, call: CallId)
    requires Run(overlay, states, steps) && i <= |steps|
    ensures RetryInv(states[i], call)
  {
    if i > 0 {
      var s, step, s' := states[i - 1], steps[i - 1], states[i];
      RunKeepsRetry(overlay, states, steps, i - 1, call);
      RunIsSafe(overlay, states, steps, i - 1, 0, 0);
      forall f ensures OrderInv(s, f) {
        RunKeepsOrder(overlay, states, steps, i - 1, f);
      }
      StepKeepsRetry(overlay, s, step, s', call);
    }
  }

  lemma StepKeepsRetry(overlay: Prefix, s: State, step: Step, s': State, call: CallId)
    requires RetryInv(s, call) && Next(overlay, s, step, s')
    requires FlagInv(s) && DeliveryInv(overlay, s) && forall f :: OrderInv(s, f)
    ensures RetryInv(s', call)
  {
    if step.Env? {
      EnvKeepsRetry(s, step.e, s', call);
    } else if step.k.Begin? {
      BeginKeepsRetry(overlay, s, step.call, step.k.from, step.k.data, s', call);
    } else {
      CallKeepsRetry(overlay, s, step.call, step.k, s', call);
    }
  }

  lemma CallKeepsRetry(overlay: Prefix, s: State, i: CallId, k: CallStep, s': State, call: CallId)
    requires RetryInv(s, call) && i in s.calls && CallNext(s, i, s.calls[i], k, s')
    requires FlagInv(s) && DeliveryInv(overlay, s) && forall f :: OrderInv(s, f)
    ensures RetryInv(s', call)
  {
    var c := s.calls[i];
    DoneDoesNotStep(s, i, c, k, s');
    assert GoodCall(overlay, s.dir.vipOf, c);
    if i == call {
      OwnCallKeepsRetry(s, call, c, k, s');
    } else {
      OtherCallKeepsRetry(s, i, k, s', call);
    }
  }

  // ---- what it means ----------------------------------------------------------------------

  /** Flow order. In every state, for a flow whose calls never overlapped, two packets accepted one after the other
      went to the same client unless in between the flow was closed by FIN or RST or its binding expired, or the
      client closed. */
  lemma FlowStaysOnOneClient(overlay: Prefix, states: seq<State>, steps: seq<Step>, n: nat, f: FlowKey, i: nat, j: nat)
    requires Run(overlay, states, steps) && n <= |steps| && f !in states[n].overlapped
    requires i < j < |states[n].log| && AcceptsFlow(states[n].log[i], f) && AcceptsFlow(states[n].log[j], f)
    requires forall k :: i <= k < j ==> !Releases(states[n].log[k], f)
    requires !IsGone(states[n].log[..j], states[n].log[i].conn)
    ensures states[n].log[j].conn == states[n].log[i].conn
  {
    RunKeepsOrder(overlay, states, steps, n, f);
    SameQueueUntilReleased(states[n].log, f, i, j);
  }

  /** Within such a stretch the packets of the flow sit in acceptance order in one client's queue, so those its write
      loop has taken are a prefix of the stretch and the rest is still queued, in order. */
  lemma StretchIsDeliveredInOrder(overlay: Prefix, states: seq<State>, steps: seq<Step>, n: nat, f: FlowKey)
    requires Run(overlay, states, steps) && n <= |steps| && f !in states[n].overlapped
    requires Stretch(states[n].log, f) != []
    ensures exists id :: Carrier(states[n].log, f) == Some(id) && id in states[n].chans
              && states[n].chans[id].sent <= states[n].chans[id].taken
              && DeliveredInOrder(Stretch(states[n].log, f), f, states[n].chans[id].taken, states[n].chans[id].queue)
  {
    var s := states[n];
    RunKeepsOrder(overlay, states, steps, n, f);
    StretchIsInOneQueue(s.log, f);
    var id := Carrier(s.log, f).value;
    RunIsSafe(overlay, states, steps, n, id, 0);
    CarrierAccepted(s.log, f, id);
    TakenIsPrefixOfStretch(s.log, f, id, s.chans[id].taken, s.chans[id].queue);
  }

  // ---- termination ------------------------------------------------------------------------

  /** Steps left until the call ends or continues. */
  function Rank(pc: Pc): nat {
    match pc
    case Lookup => 10
    case Select => 9
    case Recheck(_) => 8
    case Weigh(_) => 7
    case Burst(_) => 6
    case TryBurst(_, _) => 5
    case OfferBurst(_, _) => 4
    case CheckBound(_) => 3
    case CheckPrimary(_) => 3
    case WaitBound(_) => 2
    case WaitPrimary(_) => 2
    case After(_) => 1
    case DropBound => 1
    case UdpSelect => 7
    case UdpTry(_) => 6
    case UdpStandby(_) => 5
    case UdpTryStandby(_, _) => 4
    case UdpCheck(_) => 3
    case UdpWait(_) => 2
    case TimedSelect => 4
    case TimedRecheck(_) => 3
    case TimedWait(_) => 2
    case Done(_) => 0
  }

  /** Between two `continue`s a call makes at most ten steps. */
  ghost predicate StepsInv(c: Call) {
    c.steps + Rank(c.pc) <= 10 * (c.retries + 1)
  }

  lemma MoveLowersRank(s: State, c: Call, pc: Pc)
    requires CanMove(s, c, pc)
    ensures Rank(pc) < Rank(c.pc)
  {}

  lemma CallKeepsSteps(s: State, i: CallId, c: Call, k: CallStep, s': State)
    requires i in s.calls && c == s.calls[i] && CallNext(s, i, c, k, s') && StepsInv(c)
    ensures StepsInv(s'.calls[i])
  {
    if k.Move? { MoveLowersRank(s, c, k.pc); }
  }

  lemma {:induction false} RunKeepsSteps(overlay: Prefix, states: seq<State>, steps: seq<Step>, i: nat, call: CallId)
    requires Run(overlay, states, steps) && i <= |steps|
    ensures call in states[i].calls ==> StepsInv(states[i].calls[call])
  {
    if i > 0 {
      RunKeepsSteps(overlay, states, steps, i - 1, call);
      StepKeepsSteps(overlay, states[i - 1], steps[i - 1], states[i], call);
    }
  }

  lemma StepKeepsSteps(overlay: Prefix, s: State, step: Step, s': State, call: CallId)
    requires Next(overlay, s, step, s') && (call in s.calls ==> StepsInv(s.calls[call]))
    ensures call in s'.calls ==> StepsInv(s'.calls[call])
  {
    if step.Env? {
      EnvOnlyRemoves(s, step.e, s');
    } else if step.k.Begin? {
      if s' != s { AdmitStartsCounting(overlay, s, step.k.from, step.k.data); }
    } else {
      CallChangesItself(s, step.call, s.calls[step.call], step.k, s');
      if step.call == call { CallKeepsSteps(s, call, s.calls[call], step.k, s'); }
    }
  }

  lemma CallChangesItself(s: State, i: CallId, c: Call, k: CallStep, s': State)
    requires i in s.calls && CallNext(s, i, c, k, s')
    ensures s'.calls == s.calls[i := s'.calls[i]]
  {}

  lemma AdmitStartsCounting(overlay: Prefix, s: State, from: ConnId, data: Bytes)
    requires Admit(overlay, s.dir, s.flows, from, data).Some?
    ensures StepsInv(Admit(overlay, s.dir, s.flows, from, data).value)
  {}

  /** A TCP call of a flow without overlapping calls continues at most once for every client of its snapshot and once
      more for the client the flow was bound to; an ICMP call at most once for every client. Every call makes at most
      ten steps of its own between two of these, so the loops end. */
  lemma RetriesAreBounded(overlay: Prefix, states: seq<State>, steps: seq<Step>, n: nat, call: CallId)
    requires Run(overlay, states, steps) && n <= |steps| && call in states[n].calls
    requires var c := states[n].calls[call]; c.tcp.Some? ==> c.tcp.value.flow !in states[n].overlapped
    ensures var c := states[n].calls[call];
            && c.retries <= |c.snapshot| + (if c.tcp.Some? then 1 else 0)
            && c.steps <= 10 * (|c.snapshot| + 2)
  {
    RunKeepsRetry(overlay, states, steps, n, call);
    RunKeepsSteps(overlay, states, steps, n, call);
    var c := states[n].calls[call];
    assert Bounded(c, states[n].closed, states[n].flows);
  }

  /** A call in flight always has a step of its own. */
  lemma CallIsNeverStuck(overlay: Prefix, states: seq<State>, steps: seq<Step>, n: nat, call: CallId)
    returns (k: CallStep, s': State)
    requires Run(overlay, states, steps) && n <= |steps|
    requires call in states[n].calls && !states[n].calls[call].pc.Done?
    ensures CallNext(states[n], call, states[n].calls[call], k, s')
  {
    RunIsSafe(overlay, states, steps, n, 0, 0);
    var s := states[n];
    var c := s.calls[call];
    assert GoodCall(overlay, s.dir.vipOf, c);
    k := NextStep(s, c);
    s' := match k
      case Move(pc) => s.(calls := s.calls[call := Moved(c, pc)])
      case Retry => s.(calls := s.calls[call := Again(c)])
      case Push(t) => PushStep(s, call, c, t)
      case Bind => BindStep(s, call, c)
      case Unbind => UnbindStep(s, call, c)
      case Begin(_, _) => s;
  }

  lemma NextStep(s: State, c: Call) returns (k: CallStep)
    requires !c.pc.Done? && (TcpPc(c.pc) <==> c.tcp.Some?)
    ensures match k
            case Begin(_, _) => false
            case Move(pc) => CanMove(s, c, pc)
            case Retry => CanRetry(s, c.pc)
            case Push(t) => PushTarget(c.pc) == Some(t) && Room(s, t)
            case Bind => c.pc.After? && c.tcp.Some?
            case Unbind => c.pc.DropBound? && c.tcp.Some?
  {
    match c.pc
    case Lookup =>
      var f := c.tcp.value.flow;
      k := Move(if BoundOpen(s, f) then CheckBound(s.flows[f].target) else Select);
    case CheckBound(t) => k := Move(if t in s.closed then DropBound else WaitBound(t));
    case WaitBound(t) => k := Move(Done(false));
    case DropBound => k := Unbind;
    case Select => k := Move(match FirstOpen(s.closed, c.snapshot) case None => Done(false) case Some(t) => Recheck(t));
    case Recheck(t) => k := if t in s.closed then Retry else Move(Weigh(t));
    case Weigh(t) =>
      var burst := c.tcp.Some? && IsInitialSYN(c.tcp.value) && Pressure(s, t);
      k := Move(if burst then Burst(t) else CheckPrimary(t));
    case Burst(t) =>
      if NoStandby(s, c, Some(t)) {
        k := Move(CheckPrimary(t));
      } else {
        var sb :| sb in c.snapshot && Some(sb) != Some(t) && sb !in s.closed;
        k := Move(TryBurst(t, sb));
      }
    case TryBurst(t, sb) => k := Move(if sb in s.closed then CheckPrimary(t) else OfferBurst(t, sb));
    case OfferBurst(t, sb) => k := if Room(s, sb) then Push(sb) else Move(CheckPrimary(t));
    case CheckPrimary(t) => k := if t in s.closed then Retry else Move(WaitPrimary(t));
    case WaitPrimary(t) => k := Move(Done(false));
    case After(t) => k := Bind;
    case UdpSelect =>
      var first := FirstOpen(s.closed, c.snapshot);
      k := Move(if first.Some? then UdpTry(first.value) else UdpStandby(None));
    case UdpTry(t) => k := if Room(s, t) then Push(t) else Move(UdpStandby(Some(t)));
    case UdpStandby(p) =>
      if NoStandby(s, c, p) {
        k := Move(UdpEnd(p));
      } else {
        var sb :| sb in c.snapshot && Some(sb) != p && sb !in s.closed;
        k := Move(UdpTryStandby(p, sb));
      }
    case UdpTryStandby(p, sb) => k := if Room(s, sb) then Push(sb) else Move(UdpEnd(p));
    case UdpCheck(t) => k := Move(if t in s.closed then Done(false) else UdpWait(t));
    case UdpWait(t) => k := Move(Done(false));
    case TimedSelect =>
      var first := FirstOpen(s.closed, c.snapshot);
      k := Move(if first.Some? then TimedRecheck(first.value) else Done(false));
    case TimedRecheck(t) => k := if t in s.closed then Retry else Move(TimedWait(t));
    case TimedWait(t) => k := Move(Done(false));
  }
}
