/** What every step of the relay keeps: the registry indices, who may deliver to whom, conservation of packets in the
    queues, and acceptance of each call's packet at most once. */
module RelaySafety {
  import opened Wrappers
  import opened Addr
  import opened Packet
  import opened EventLog
  import opened FlowTable
  import opened Registry
  import opened RelayModel

  // ---- registry ---------------------------------------------------------------------------

  /** Both indices agree with the registration log. */
  ghost predicate IndexInv(dir: Directory) {
    match dir
    case Directory(deviceOf, vipOf, regs, clients, vipMap) =>
      && deviceOf.Keys == vipOf.Keys && NoDuplicates(regs) && (forall id :: id in regs ==> id in vipOf)
      && Indexes(clients, regs, deviceOf) && Indexes(vipMap, regs, vipOf)
  }

  /** Only known connections are closed, `done` follows the closed flag, and a connection that is not closed is
      registered. */
  ghost predicate FlagInv(s: State) {
    match s
    case State(dir, closed, done, chans, _, _, _, _, _) =>
      && dir.vipOf.Keys == chans.Keys && done <= closed <= chans.Keys
      && (forall id :: id in dir.vipOf && id !in closed ==> id in dir.regs)
  }

  lemma RegisteredIsIndexed(dir: Directory, id: ConnId, device: string, vip: Addr)
    requires IndexInv(dir) && id !in dir.vipOf
    ensures IndexInv(Registered(dir, id, device, vip))
  {
    AddKeepsBoth(dir.clients, dir.vipMap, dir.regs, dir.deviceOf, dir.vipOf, id, device, vip);
    RegisteredIsKnown(dir.regs, dir.deviceOf, dir.vipOf, id, device, vip);
  }

  lemma RegisteredIsKnown(regs: seq<ConnId>, deviceOf: map<ConnId, string>, vipOf: map<ConnId, Addr>, id: ConnId,
                          device: string, vip: Addr)
    requires deviceOf.Keys == vipOf.Keys && forall x :: x in regs ==> x in vipOf
    ensures deviceOf[id := device].Keys == vipOf[id := vip].Keys
    ensures forall x :: x in regs + [id] ==> x in vipOf[id := vip]
  {}

  lemma UnregisteredIsIndexed(dir: Directory, id: ConnId)
    requires IndexInv(dir) && id in dir.vipOf
    ensures IndexInv(Unregistered(dir, id))
    ensures forall x :: x in Unregistered(dir, id).regs <==> x in dir.regs && x != id
  {
    RemoveKeepsIndex(dir.clients, dir.regs, dir.deviceOf, id);
    RemoveKeepsIndex(dir.vipMap, dir.regs, dir.vipOf, id);
    forall x ensures x in RemoveFirst(dir.regs, id) <==> x in dir.regs && x != id {
      InRemoveFirst(dir.regs, id, x);
    }
    InRemoveFirst(dir.regs, id, id);
  }

  ghost predicate RegInv(s: State) {
    IndexInv(s.dir) && FlagInv(s)
  }

  lemma EnvKeepsReg(s: State, e: EnvStep, s': State)
    requires RegInv(s) && EnvNext(s, e, s')
    ensures RegInv(s')
  {
    if e.Register? {
      RegisteredIsIndexed(s.dir, e.id, e.device, e.vip);
    } else if e.Unregister? {
      UnregisteredIsIndexed(s.dir, e.id);
    }
  }

  lemma CallKeepsReg(s: State, call: CallId, c: Call, k: CallStep, s': State)
    requires RegInv(s) && CallNext(s, call, c, k, s')
    ensures RegInv(s')
  {
    assert s'.dir == s.dir && s'.closed == s.closed && s'.done == s.done && s'.chans.Keys == s.chans.Keys;
  }

  // ---- delivery ---------------------------------------------------------------------------

  predicate TcpPc(pc: Pc) {
    || pc.Lookup? || pc.CheckBound? || pc.WaitBound? || pc.DropBound? || pc.Select? || pc.Recheck? || pc.Weigh?
    || pc.Burst? || pc.TryBurst? || pc.OfferBurst? || pc.CheckPrimary? || pc.WaitPrimary? || pc.After?
  }

  ghost predicate Serves(vipOf: map<ConnId, Addr>, id: ConnId, a: Addr) {
    id in vipOf && vipOf[id] == a
  }

  ghost predicate AllServe(vipOf: map<ConnId, Addr>, ids: set<ConnId>, a: Addr) {
    forall x :: x in ids ==> Serves(vipOf, x, a)
  }

  ghost predicate ListServes(vipOf: map<ConnId, Addr>, ids: seq<ConnId>, a: Addr) {
    forall x :: x in ids ==> Serves(vipOf, x, a)
  }

  /** The packet was parsed from what its sender sent, carries the sender's address, and is destined to an overlay
      address which every listed client serves. */
  ghost predicate GoodPacket(overlay: Prefix, vipOf: map<ConnId, Addr>, c: Call) {
    match c
    case Call(from, raw, pkt, tcp, snapshot, _, _, _, _) =>
      && ParseIPv4(raw) == Ok(pkt) && Serves(vipOf, from, pkt.src) && Contains(overlay, pkt.dst)
      && ListServes(vipOf, snapshot, pkt.dst)
      && (tcp.Some? ==> pkt.ihl >= 0 && ParseTCP(pkt) == Ok(tcp.value) && tcp.value.flow.dst == pkt.dst)
  }

  /** The call holds on only to clients that serve its destination, and its control point fits its traffic class. */
  ghost predicate GoodPc(vipOf: map<ConnId, Addr>, c: Call) {
    match c
    case Call(_, _, pkt, tcp, _, _, pc, _, _) =>
      AllServe(vipOf, Targets(pc), pkt.dst) && (pc.Done? || (TcpPc(pc) <==> tcp.Some?))
  }

  ghost predicate GoodCall(overlay: Prefix, vipOf: map<ConnId, Addr>, c: Call) {
    match c case Call(_, _, _, _, _, _, _, _, _) => GoodPacket(overlay, vipOf, c) && GoodPc(vipOf, c)
  }

  ghost predicate GoodAccept(vipOf: map<ConnId, Addr>, calls: map<CallId, Call>, e: Event) {
    match e
    case Accepted(frame, conn, closes) =>
      && frame.call in calls && Serves(vipOf, conn, calls[frame.call].pkt.dst)
      && frame.flow == FlowOf(calls[frame.call]) && closes == Closes(calls[frame.call])
    case _ => true
  }

  ghost predicate GoodBindings(vipOf: map<ConnId, Addr>, flows: map<FlowKey, Binding<ConnId>>) {
    forall f :: f in flows ==> Serves(vipOf, flows[f].target, f.dst)
  }

  ghost predicate GoodCalls(overlay: Prefix, vipOf: map<ConnId, Addr>, calls: map<CallId, Call>) {
    forall c :: c in calls ==> GoodCall(overlay, vipOf, calls[c])
  }

  ghost predicate GoodLog(vipOf: map<ConnId, Addr>, calls: map<CallId, Call>, log: Log) {
    forall i :: 0 <= i < |log| ==> GoodAccept(vipOf, calls, log[i])
  }

  ghost predicate DeliveryInv(overlay: Prefix, s: State) {
    match s
    case State(dir, _, _, _, flows, calls, log, _, _) =>
      GoodBindings(dir.vipOf, flows) && GoodCalls(overlay, dir.vipOf, calls) && GoodLog(dir.vipOf, calls, log)
  }

  lemma {:induction false} FirstOpenIsListed(closed: set<ConnId>, list: seq<ConnId>)
    ensures match FirstOpen(closed, list)
            case Some(t) => t in list && t !in closed
            case None => forall x :: x in list ==> x in closed
  {
    if list != [] { FirstOpenIsListed(closed, list[1..]); }
  }

  /** More connections only extend who serves what. */
  lemma GrowthKeepsDelivery(overlay: Prefix, vipOf: map<ConnId, Addr>, vipOf': map<ConnId, Addr>,
                            flows: map<FlowKey, Binding<ConnId>>, calls: map<CallId, Call>, log: Log)
    requires GoodBindings(vipOf, flows) && GoodCalls(overlay, vipOf, calls) && GoodLog(vipOf, calls, log)
    requires forall id :: id in vipOf ==> id in vipOf' && vipOf'[id] == vipOf[id]
    ensures GoodBindings(vipOf', flows) && GoodCalls(overlay, vipOf', calls) && GoodLog(vipOf', calls, log)
  {
    forall c | c in calls ensures GoodCall(overlay, vipOf', calls[c]) {
      assert GoodCall(overlay, vipOf, calls[c]);
    }
    forall i | 0 <= i < |log| ensures GoodAccept(vipOf', calls, log[i]) {
      assert GoodAccept(vipOf, calls, log[i]);
    }
  }

  lemma LogOther(vipOf: map<ConnId, Addr>, calls: map<CallId, Call>, log: Log, e: Event)
    requires GoodLog(vipOf, calls, log) && !e.Accepted?
    ensures GoodLog(vipOf, calls, log + [e])
  {
    forall i | 0 <= i < |log + [e]| ensures GoodAccept(vipOf, calls, (log + [e])[i]) {
      if i < |log| { assert GoodAccept(vipOf, calls, log[i]); }
    }
  }

  lemma EnvKeepsDelivery(overlay: Prefix, s: State, e: EnvStep, s': State)
    requires DeliveryInv(overlay, s) && EnvNext(s, e, s')
    ensures DeliveryInv(overlay, s')
  {
    if e.Register? {
      GrowthKeepsDelivery(overlay, s.dir.vipOf, s'.dir.vipOf, s.flows, s.calls, s.log);
    } else if s'.log != s.log {
      LogOther(s.dir.vipOf, s.calls, s.log, End(s'.log));
      assert s'.log == s.log + [End(s'.log)];
    }
  }

  /** What one call does, as seen by delivery: it replaces its own record by a good one, may bind its flow to a client
      that serves the destination, and may log one acceptance by such a client. */
  lemma CallStepShape(overlay: Prefix, s: State, call: CallId, c: Call, k: CallStep, s': State) returns (c': Call)
    requires GoodBindings(s.dir.vipOf, s.flows) && GoodCall(overlay, s.dir.vipOf, c) && CallNext(s, call, c, k, s')
    ensures s'.calls == s.calls[call := c'] && GoodCall(overlay, s.dir.vipOf, c')
    ensures c'.pkt == c.pkt && c'.tcp == c.tcp
  {
    match k
    case Move(pc) =>
      c' := Moved(c, pc);
      MoveKeepsPc(s, c, pc);
    case Retry => c' := Again(c);
    case Push(t) =>
      c' := Sent(c, t);
      SentIsGood(overlay, s.dir.vipOf, c, t);
    case Bind => c' := Moved(c, Done(true));
    case Unbind => c' := Again(c);
  }

  lemma SentIsGood(overlay: Prefix, vipOf: map<ConnId, Addr>, c: Call, t: ConnId)
    requires GoodCall(overlay, vipOf, c) && PushTarget(c.pc) == Some(t)
    ensures GoodCall(overlay, vipOf, Sent(c, t))
  {}

  lemma MoveKeepsPc(s: State, c: Call, pc: Pc)
    requires GoodBindings(s.dir.vipOf, s.flows) && GoodPc(s.dir.vipOf, c)
             && ListServes(s.dir.vipOf, c.snapshot, c.pkt.dst)
    requires c.tcp.Some? ==> c.tcp.value.flow.dst == c.pkt.dst
    requires CanMove(s, c, pc)
    ensures GoodPc(s.dir.vipOf, Moved(c, pc))
  {
    FirstOpenIsListed(s.closed, c.snapshot);
  }

  lemma PushTargetServes(vipOf: map<ConnId, Addr>, c: Call)
    requires GoodPc(vipOf, c) && PushTarget(c.pc).Some?
    ensures Serves(vipOf, PushTarget(c.pc).value, c.pkt.dst)
  {
    assert PushTarget(c.pc).value in Targets(c.pc);
  }

  lemma CallKeepsBindings(vipOf: map<ConnId, Addr>, s: State, call: CallId, c: Call, k: CallStep, s': State)
    requires GoodBindings(vipOf, s.flows) && GoodPc(vipOf, c)
    requires c.tcp.Some? ==> c.tcp.value.flow.dst == c.pkt.dst
    requires CallNext(s, call, c, k, s')
    ensures GoodBindings(vipOf, s'.flows)
  {
    if k.Bind? {
      assert c.pc.t in Targets(c.pc);
    }
  }

  lemma CallKeepsLog(overlay: Prefix, s: State, call: CallId, c: Call, k: CallStep, s': State)
    requires GoodLog(s.dir.vipOf, s.calls, s.log) && GoodPc(s.dir.vipOf, c)
    requires call in s.calls ==> c.pkt == s.calls[call].pkt && c.tcp == s.calls[call].tcp
    requires CallNext(s, call, c, k, s')
    ensures GoodLog(s.dir.vipOf, s'.calls, s'.log)
  {
    ReplaceKeepsLog(s.dir.vipOf, s.calls, s.log, call, s'.calls[call]);
    if k.Push? {
      PushTargetServes(s.dir.vipOf, c);
      LogAccept(s.dir.vipOf, s'.calls, s.log, End(s'.log));
    }
  }

  lemma CallKeepsDelivery(overlay: Prefix, s: State, call: CallId, c: Call, k: CallStep, s': State)
    requires call in s.calls && c == s.calls[call]
    requires DeliveryInv(overlay, s) && CallNext(s, call, c, k, s')
    ensures DeliveryInv(overlay, s')
  {
    assert s'.dir == s.dir;
    var c' := CallStepShape(overlay, s, call, c, k, s');
    CallKeepsBindings(s.dir.vipOf, s, call, c, k, s');
    CallKeepsLog(overlay, s, call, c, k, s');
  }

  lemma ReplaceKeepsLog(vipOf: map<ConnId, Addr>, calls: map<CallId, Call>, log: Log, call: CallId, c': Call)
    requires GoodLog(vipOf, calls, log)
    requires call in calls ==> c'.pkt == calls[call].pkt && c'.tcp == calls[call].tcp
    ensures GoodLog(vipOf, calls[call := c'], log)
  {
    forall i | 0 <= i < |log| ensures GoodAccept(vipOf, calls[call := c'], log[i]) {
      assert GoodAccept(vipOf, calls, log[i]);
    }
  }

  lemma LogAccept(vipOf: map<ConnId, Addr>, calls: map<CallId, Call>, log: Log, e: Event)
    requires GoodLog(vipOf, calls, log) && GoodAccept(vipOf, calls, e)
    ensures GoodLog(vipOf, calls, log + [e])
  {
    forall i | 0 <= i < |log + [e]| ensures GoodAccept(vipOf, calls, (log + [e])[i]) {
      if i < |log| { assert GoodAccept(vipOf, calls, log[i]); }
    }
  }

  lemma AdmitIsGood(overlay: Prefix, s: State, from: ConnId, data: Bytes)
    requires IndexInv(s.dir) && Admit(overlay, s.dir, s.flows, from, data).Some?
    ensures GoodCall(overlay, s.dir.vipOf, Admit(overlay, s.dir, s.flows, from, data).value)
    ensures !HasBeenAccepted(Admit(overlay, s.dir, s.flows, from, data).value)
  {
    var c := Admit(overlay, s.dir, s.flows, from, data).value;
    assert Get(s.dir.vipMap, c.pkt.dst) == Where(s.dir.regs, s.dir.vipOf, c.pkt.dst);
    forall x | x in c.snapshot ensures Serves(s.dir.vipOf, x, c.pkt.dst) {
      InWhere(s.dir.regs, s.dir.vipOf, x, c.pkt.dst);
    }
    AdmitFits(overlay, s.dir, s.flows, from, data);
  }

  predicate Starts(pc: Pc) {
    pc.Lookup? || pc.UdpSelect? || pc.TimedSelect? || pc == Done(false)
  }

  lemma AdmitFits(overlay: Prefix, dir: Directory, flows: map<FlowKey, Binding<ConnId>>, from: ConnId, data: Bytes)
    requires Admit(overlay, dir, flows, from, data).Some?
    ensures var c := Admit(overlay, dir, flows, from, data).value;
            && ParseIPv4(c.raw) == Ok(c.pkt) && Serves(dir.vipOf, c.from, c.pkt.src) && Contains(overlay, c.pkt.dst)
            && c.snapshot == Get(dir.vipMap, c.pkt.dst) && Targets(c.pc) == {} && !HasBeenAccepted(c) && c.retries == 0
            && (c.tcp.Some? ==>
                  c.pc == Lookup && ParseTCP(c.pkt) == Ok(c.tcp.value) && c.tcp.value.flow.dst == c.pkt.dst)
            && (c.tcp.None? ==> !TcpPc(c.pc)) && Starts(c.pc)
            && c.reach == ReachOf(c.snapshot, c.tcp, flows)
  {}

  lemma BeginKeepsDelivery(overlay: Prefix, s: State, call: CallId, from: ConnId, data: Bytes, s': State)
    requires IndexInv(s.dir) && DeliveryInv(overlay, s) && BeginNext(overlay, s, call, from, data, s')
    ensures DeliveryInv(overlay, s')
  {
    if Admit(overlay, s.dir, s.flows, from, data).Some? {
      AdmitIsGood(overlay, s, from, data);
      ReplaceKeepsLog(s.dir.vipOf, s.calls, s.log, call, Admit(overlay, s.dir, s.flows, from, data).value);
    }
  }

  // ---- exactly once -----------------------------------------------------------------------

  predicate HasBeenAccepted(c: Call) {
    c.pc.After? || c.pc == Done(true)
  }

  ghost predicate OnceInv(s: State, call: CallId) {
    CountedOnce(s.log, call, call in s.calls && HasBeenAccepted(s.calls[call]))
  }

  lemma EnvKeepsOnce(s: State, e: EnvStep, s': State, call: CallId)
    requires OnceInv(s, call) && EnvNext(s, e, s')
    ensures OnceInv(s', call)
  {
    if s'.log != s.log {
      AppendOther(s.log, End(s'.log), 0, call);
      assert s'.log == s.log + [End(s'.log)];
    }
  }

  lemma MoveIsNoAcceptance(s: State, c: Call, pc: Pc)
    requires CanMove(s, c, pc)
    ensures !pc.After? && pc != Done(true) && !c.pc.After? && !c.pc.Done?
  {}

  lemma CallKeepsOnce(s: State, i: CallId, c: Call, k: CallStep, s': State, call: CallId)
    requires i in s.calls && c == s.calls[i]
    requires OnceInv(s, call) && CallNext(s, i, c, k, s')
    ensures OnceInv(s', call)
  {
    if k.Push? {
      AppendAccepted(s.log, End(s'.log), 0, call);
    } else if k.Move? {
      MoveIsNoAcceptance(s, c, k.pc);
    }
  }

  // ---- conservation -----------------------------------------------------------------------

  lemma EnvKeepsQueue(s: State, e: EnvStep, s': State, id: ConnId)
    requires FlagInv(s) && Conserved(s.chans, s.log, id) && EnvNext(s, e, s')
    ensures Conserved(s'.chans, s'.log, id)
  {
    if s'.log != s.log {
      AppendOther(s.log, End(s'.log), id, 0);
      assert s'.log == s.log + [End(s'.log)];
    }
    if e.Take? && e.id == id {
      TakingIsGood(s.chans[id], AcceptedBy(s.log, id));
    } else if e.Wrote? && e.id == id {
      WritingIsGood(s.chans[id], AcceptedBy(s.log, id), e.ok);
    }
  }

  lemma CallKeepsQueue(s: State, i: CallId, c: Call, k: CallStep, s': State, id: ConnId)
    requires Conserved(s.chans, s.log, id) && CallNext(s, i, c, k, s')
    ensures Conserved(s'.chans, s'.log, id)
  {
    if k.Push? {
      AppendAccepted(s.log, End(s'.log), id, 0);
    }
  }

  /** The closed flags are the connections the history says are gone. */
  ghost predicate GoneInv(s: State, id: ConnId) {
    IsGone(s.log, id) <==> id in s.closed
  }

  lemma EnvKeepsGone(s: State, e: EnvStep, s': State, id: ConnId)
    requires GoneInv(s, id) && EnvNext(s, e, s')
    ensures GoneInv(s', id)
  {
    if s'.log != s.log {
      ClosedIsLogged(s, e, s', id);
      AppendEvent(s.log, End(s'.log));
    }
  }

  lemma ClosedIsLogged(s: State, e: EnvStep, s': State, id: ConnId)
    requires EnvNext(s, e, s') && s'.log != s.log
    ensures s'.log == s.log + [End(s'.log)]
    ensures id in s'.closed <==> id in s.closed || (End(s'.log).Gone? && id in End(s'.log).conns)
  {}

  lemma CallKeepsGone(s: State, i: CallId, c: Call, k: CallStep, s': State, id: ConnId)
    requires GoneInv(s, id) && CallNext(s, i, c, k, s')
    ensures GoneInv(s', id)
  {
    if k.Push? {
      AppendAccepted(s.log, End(s'.log), id, 0);
    }
  }

  // ---- runs -------------------------------------------------------------------------------

  ghost predicate SafetyInv(overlay: Prefix, s: State, id: ConnId, call: CallId) {
    match s
    case State(dir, _, _, _, _, _, _, _, _) =>
      RegInv(s) && DeliveryInv(overlay, s) && OnceInv(s, call) && Conserved(s.chans, s.log, id) && GoneInv(s, id)
  }

  lemma StepKeepsSafety(overlay: Prefix, s: State, step: Step, s': State, id: ConnId, call: CallId)
    requires SafetyInv(overlay, s, id, call) && Next(overlay, s, step, s')
    ensures SafetyInv(overlay, s', id, call)
  {
    if step.Env? {
      EnvKeepsSafety(overlay, s, step.e, s', id, call);
    } else if step.k.Begin? {
      BeginKeepsSafety(overlay, s, step.call, step.k.from, step.k.data, s', id, call);
    } else {
      CallKeepsSafety(overlay, s, step.call, step.k, s', id, call);
    }
  }

  lemma EnvKeepsSafety(overlay: Prefix, s: State, e: EnvStep, s': State, id: ConnId, call: CallId)
    requires SafetyInv(overlay, s, id, call) && EnvNext(s, e, s')
    ensures SafetyInv(overlay, s', id, call)
  {
    EnvKeepsReg(s, e, s');
    EnvKeepsDelivery(overlay, s, e, s');
    EnvKeepsOnce(s, e, s', call);
    EnvKeepsQueue(s, e, s', id);
    EnvKeepsGone(s, e, s', id);
  }

  lemma CallKeepsSafety(overlay: Prefix, s: State, i: CallId, k: CallStep, s': State, id: ConnId, call: CallId)
    requires SafetyInv(overlay, s, id, call) && i in s.calls && CallNext(s, i, s.calls[i], k, s')
    ensures SafetyInv(overlay, s', id, call)
  {
    var c := s.calls[i];
    CallKeepsReg(s, i, c, k, s');
    CallKeepsDelivery(overlay, s, i, c, k, s');
    CallKeepsOnce(s, i, c, k, s', call);
    CallKeepsQueue(s, i, c, k, s', id);
    CallKeepsGone(s, i, c, k, s', id);
  }

  lemma BeginKeepsSafety(overlay: Prefix, s: State, i: CallId, from: ConnId, data: Bytes, s': State, id: ConnId,
                         call: CallId)
    requires SafetyInv(overlay, s, id, call) && BeginNext(overlay, s, i, from, data, s')
    ensures SafetyInv(overlay, s', id, call)
  {
    BeginKeepsDelivery(overlay, s, i, from, data, s');
    BeginKeepsRest(overlay, s, i, from, data, s');
    BeginKeepsOnce(overlay, s, i, from, data, s', call);
  }

  lemma BeginKeepsRest(overlay: Prefix, s: State, i: CallId, from: ConnId, data: Bytes, s': State)
    requires BeginNext(overlay, s, i, from, data, s')
    ensures s'.dir == s.dir && s'.closed == s.closed && s'.done == s.done && s'.chans == s.chans && s'.log == s.log
  {}

  lemma BeginKeepsOnce(overlay: Prefix, s: State, i: CallId, from: ConnId, data: Bytes, s': State, call: CallId)
    requires IndexInv(s.dir) && OnceInv(s, call) && BeginNext(overlay, s, i, from, data, s')
    ensures OnceInv(s', call)
  {
    if Admit(overlay, s.dir, s.flows, from, data).Some? {
      AdmitIsGood(overlay, s, from, data);
    }
  }

  lemma {:induction false} RunIsSafe(overlay: Prefix, states: seq<State>, steps: seq<Step>, i: nat, id: ConnId,
                                     call: CallId)
    requires Run(overlay, states, steps) && i <= |steps|
    ensures SafetyInv(overlay, states[i], id, call)
  {
    if i > 0 {
      RunIsSafe(overlay, states, steps, i - 1, id, call);
      StepKeepsSafety(overlay, states[i - 1], steps[i - 1], states[i], id, call);
    }
  }

  // ---- what it means ----------------------------------------------------------------------

  lemma {:induction false} AcceptedWasLogged(log: Log, id: ConnId, x: Frame)
    requires x in AcceptedBy(log, id)
    ensures exists i :: 0 <= i < |log| && log[i].Accepted? && log[i].frame == x && log[i].conn == id
  {
    var e := End(log);
    if e.Accepted? && e.conn == id && e.frame == x {
      assert log[|log| - 1] == e;
    } else {
      AcceptedWasLogged(Front(log), id, x);
      var i :| 0 <= i < |Front(log)| && Front(log)[i].Accepted? && Front(log)[i].frame == x && Front(log)[i].conn == id;
      assert log[i] == Front(log)[i];
    }
  }

  /** Delivery safety. Every packet that is or ever was on a client's queue was read from a connection whose address
      is the packet's source, is destined to that client's address, and that address lies inside the overlay. */
  lemma QueuedPacketsAreAddressedRight(overlay: Prefix, states: seq<State>, steps: seq<Step>, i: nat, id: ConnId,
                                       x: Frame)
    requires Run(overlay, states, steps) && i <= |steps|
    requires id in states[i].chans && (x in states[i].chans[id].queue || x in states[i].chans[id].taken)
    ensures var s := states[i];
            && x.call in s.calls && id in s.dir.vipOf
            && var c := s.calls[x.call];
               && ParseIPv4(c.raw).Ok?
               && var pkt := ParseIPv4(c.raw).value;
                  && pkt.dst == s.dir.vipOf[id] && Contains(overlay, pkt.dst)
                  && c.from in s.dir.vipOf && pkt.src == s.dir.vipOf[c.from]
  {
    var s := states[i];
    RunIsSafe(overlay, states, steps, i, id, x.call);
    assert x in s.chans[id].taken + s.chans[id].queue;
    AcceptedWasLogged(s.log, id, x);
    var j :| 0 <= j < |s.log| && s.log[j].Accepted? && s.log[j].frame == x && s.log[j].conn == id;
    assert GoodAccept(s.dir.vipOf, s.calls, s.log[j]);
    assert GoodCall(overlay, s.dir.vipOf, s.calls[x.call]);
  }

  /** A call that reported success had its packet accepted by exactly one queue, once; one that reported failure, or is
      still waiting, by none. No queue ever exceeds its capacity. */
  lemma AcceptedExactlyOnce(overlay: Prefix, states: seq<State>, steps: seq<Step>, i: nat, id: ConnId, call: CallId)
    requires Run(overlay, states, steps) && i <= |steps| && call in states[i].calls
    ensures states[i].calls[call].pc == Done(true) ==> CountOf(states[i].log, call) == 1
    ensures states[i].calls[call].pc == Done(false) ==> CountOf(states[i].log, call) == 0
    ensures id in states[i].chans ==> |states[i].chans[id].queue| <= states[i].chans[id].cap
  {
    RunIsSafe(overlay, states, steps, i, id, call);
  }

  /** What a client was sent is a prefix of what its queue accepted. */
  lemma SentIsPrefixOfAccepted(overlay: Prefix, states: seq<State>, steps: seq<Step>, i: nat, id: ConnId)
    requires Run(overlay, states, steps) && i <= |steps| && id in states[i].chans
    ensures states[i].chans[id].sent <= states[i].chans[id].taken <= AcceptedBy(states[i].log, id)
  {
    RunIsSafe(overlay, states, steps, i, id, 0);
  }

  /** In every state a connection is registered exactly when it is listed once under its device and once under its
      address, and it is listed nowhere else; lists are never empty and follow the registration order. */
  lemma ListsFollowRegistrations(overlay: Prefix, states: seq<State>, steps: seq<Step>, i: nat, id: ConnId, d: string,
                                 v: Addr)
    requires Run(overlay, states, steps) && i <= |steps| && id in states[i].dir.vipOf
    ensures var dir := states[i].dir;
            && id in dir.deviceOf
            && (id in dir.regs && d == dir.deviceOf[id] <==> id in Get(dir.clients, d))
            && NoDuplicates(Get(dir.clients, d))
            && (id in dir.regs && v == dir.vipOf[id] <==> id in Get(dir.vipMap, v)) && NoDuplicates(Get(dir.vipMap, v))
            && (v in dir.vipMap ==> dir.vipMap[v] != [] && dir.vipMap[v] == Where(dir.regs, dir.vipOf, v))
            && (d in dir.clients ==> dir.clients[d] != [] && dir.clients[d] == Where(dir.regs, dir.deviceOf, d))
  {
    RunIsSafe(overlay, states, steps, i, id, 0);
    var dir := states[i].dir;
    RegisteredIffListedOnce(dir.clients, dir.regs, dir.deviceOf, id, d);
    RegisteredIffListedOnce(dir.vipMap, dir.regs, dir.vipOf, id, v);
    assert Get(dir.vipMap, v) == Where(dir.regs, dir.vipOf, v)
      && Get(dir.clients, d) == Where(dir.regs, dir.deviceOf, d);
  }

  /** The snapshot a new call works on is the registration-ordered list of its destination, so the client selectPrimary
      picks from it is the oldest registered open connection of that address. */
  lemma FreshPrimaryIsOldestOpen(overlay: Prefix, states: seq<State>, steps: seq<Step>, i: nat, from: ConnId,
                                 data: Bytes)
    requires Run(overlay, states, steps) && i <= |steps|
    requires Admit(overlay, states[i].dir, states[i].flows, from, data).Some?
    ensures var s := states[i];
            var c := Admit(overlay, s.dir, s.flows, from, data).value;
            match FirstOpen(s.closed, c.snapshot)
            case None => forall x :: Serves(s.dir.vipOf, x, c.pkt.dst) ==> x in s.closed
            case Some(t) =>
              && t in s.dir.regs && Serves(s.dir.vipOf, t, c.pkt.dst) && t !in s.closed
              && forall a, b ::
                   0 <= a < b < |s.dir.regs| && s.dir.regs[b] == t && Serves(s.dir.vipOf, s.dir.regs[a], c.pkt.dst) ==>
                     s.dir.regs[a] in s.closed
  {
    var s := states[i];
    RunIsSafe(overlay, states, steps, i, 0, 0);
    var c := Admit(overlay, s.dir, s.flows, from, data).value;
    AdmitFits(overlay, s.dir, s.flows, from, data);
    assert c.snapshot == Where(s.dir.regs, s.dir.vipOf, c.pkt.dst);
    FirstOpenInWhere(s.closed, s.dir.regs, s.dir.vipOf, c.pkt.dst);
  }

  lemma {:induction false} FirstOpenInWhere(closed: set<ConnId>, regs: seq<ConnId>, vipOf: map<ConnId, Addr>, v: Addr)
    requires NoDuplicates(regs) && forall x :: x in regs ==> x in vipOf
    ensures match FirstOpen(closed, Where(regs, vipOf, v))
            case None => forall x :: x in regs && vipOf[x] == v ==> x in closed
            case Some(t) =>
              && t in regs && vipOf[t] == v && t !in closed
              && forall a, b :: 0 <= a < b < |regs| && regs[b] == t && vipOf[regs[a]] == v ==> regs[a] in closed
  {
    if regs != [] {
      FirstOpenInWhere(closed, regs[1..], vipOf, v);
      var w := Where(regs[1..], vipOf, v);
      assert ([regs[0]] + w)[1..] == w && [] + w == w;
      if vipOf[regs[0]] == v && regs[0] !in closed {
      } else {
        var t := FirstOpen(closed, w);
        if t.Some? {
          forall a, b | 0 <= a < b < |regs| && regs[b] == t.value && vipOf[regs[a]] == v ensures regs[a] in closed {
            if a > 0 {
              assert regs[1..][b - 1] == t.value && regs[1..][a - 1] == regs[a];
            }
          }
        }
      }
    }
  }
}
