/** Flow order and termination of the relay's retry loops, over every run. Both are about flows whose enqueue calls
    do not overlap; the model notes overlapping flows in `overlapped`. */
module RelayOrder {
  import opened Wrappers
  import opened Addr
  import opened Packet
  import opened EventLog
  import opened FlowTable
  import opened Registry
  import opened RelayModel
  import opened RelaySafety

  // ---- flow order -------------------------------------------------------------------------

  /** What a call's control point says about the connection its flow stands on. */
  ghost predicate Stage(c: Call, standing: Option<ConnId>) {
    match c.pc
    case Lookup => true
    case CheckBound(t) => standing == None || standing == Some(t)
    case WaitBound(t) => standing == None || standing == Some(t)
    case After(t) => (standing == None || standing == Some(t)) && (Closes(c) ==> standing == None)
    case _ => standing == None
  }

  ghost predicate Solo(calls: map<CallId, Call>, f: FlowKey) {
    forall c1, c2 :: Active(calls, c1, f) && Active(calls, c2, f) ==> c1 == c2
  }

  ghost predicate Staged(calls: map<CallId, Call>, f: FlowKey, standing: Option<ConnId>) {
    forall c :: Active(calls, c, f) ==> Stage(calls[c], standing)
  }

  ghost predicate NoneAfter(calls: map<CallId, Call>, f: FlowKey) {
    forall c :: Active(calls, c, f) ==> !calls[c].pc.After?
  }

  /** While calls for `f` do not overlap, accepted packets follow the standing connection, and unless a call has yet to
      write the table the table names it. */
  ghost predicate OrderCore(calls: map<CallId, Call>, flows: map<FlowKey, Binding<ConnId>>, log: Log, f: FlowKey) {
    match f
    case FlowKey(_, _, _, _) =>
      var standing := Standing(log, f);
      && Follows(log, f) && Solo(calls, f) && Staged(calls, f, standing)
      && (NoneAfter(calls, f) ==> Bound(flows, f, standing))
  }

  ghost predicate OrderInv(s: State, f: FlowKey) {
    f in s.overlapped || OrderCore(s.calls, s.flows, s.log, f)
  }

  /** A step outside the calls: the standing connection stays or is released, and a binding to it stays. */
  lemma OutsideKeepsOrder(calls: map<CallId, Call>, flows: map<FlowKey, Binding<ConnId>>, log: Log,
                          flows': map<FlowKey, Binding<ConnId>>, log': Log, f: FlowKey)
    requires OrderCore(calls, flows, log, f)
    requires Follows(log', f)
    requires Standing(log', f) == None || Standing(log', f) == Standing(log, f)
    requires Standing(log', f).Some? && Bound(flows, f, Standing(log', f)) ==> Bound(flows', f, Standing(log', f))
    ensures OrderCore(calls, flows', log', f)
  {}

  lemma OtherEventFollows(log: Log, e: Event, f: FlowKey)
    requires Follows(log, f) && !AcceptsFlow(e, f)
    ensures Follows(log + [e], f)
    ensures Standing(log + [e], f) == None || Standing(log + [e], f) == Standing(log, f)
  {
    AppendEvent(log, e);
  }

  lemma StandingIsOpen(s: State, f: FlowKey)
    requires forall id :: GoneInv(s, id)
    ensures Standing(s.log, f).Some? ==> Standing(s.log, f).value !in s.closed
  {
    StandingIsNotGone(s.log, f);
    if Standing(s.log, f).Some? {
      assert GoneInv(s, Standing(s.log, f).value);
    }
  }

  lemma EnvKeepsOrder(s: State, e: EnvStep, s': State, f: FlowKey)
    requires OrderInv(s, f) && EnvNext(s, e, s') && forall id :: GoneInv(s, id)
    ensures OrderInv(s', f)
  {
    EnvOnlyRemoves(s, e, s');
    if f !in s.overlapped {
      EnvEffect(s, e, s', f);
      OutsideKeepsOrder(s.calls, s.flows, s.log, s'.flows, s'.log, f);
    }
  }

  lemma EnvEffect(s: State, e: EnvStep, s': State, f: FlowKey)
    requires Follows(s.log, f) && EnvNext(s, e, s') && forall id :: GoneInv(s, id)
    ensures s'.calls == s.calls && s'.overlapped == s.overlapped
    ensures Follows(s'.log, f)
    ensures Standing(s'.log, f) == None || Standing(s'.log, f) == Standing(s.log, f)
    ensures Standing(s'.log, f).Some? && Bound(s.flows, f, Standing(s'.log, f)) ==>
            Bound(s'.flows, f, Standing(s'.log, f))
  {
    EnvOnlyRemoves(s, e, s');
    EnvLog(s, e, s');
    if s'.log != s.log {
      OtherEventFollows(s.log, End(s'.log), f);
    }
    if Bound(s.flows, f, Standing(s.log, f)) {
      StandingIsOpen(s, f);
      EnvKeepsBound(s, e, s', f);
    }
  }

  lemma EnvLog(s: State, e: EnvStep, s': State)
    requires EnvNext(s, e, s')
    ensures s'.log == s.log || (s'.log != [] && s'.log == s.log + [End(s'.log)] && !End(s'.log).Accepted?)
  {}

  lemma EnvKeepsBound(s: State, e: EnvStep, s': State, f: FlowKey)
    requires EnvNext(s, e, s') && Bound(s.flows, f, Standing(s.log, f))
    requires Standing(s.log, f).Some? ==> Standing(s.log, f).value !in s.closed
    ensures Standing(s'.log, f) == Standing(s.log, f) ==> Bound(s'.flows, f, Standing(s.log, f))
  {
    if e.ExpireFlows? || e.Unregister? {
      if s'.log != s.log {
        AppendEvent(s.log, End(s'.log));
        assert s'.log == s.log + [End(s'.log)];
      }
    } else {
      assert s'.flows == s.flows;
    }
  }

  /** A step of a call of another flow, or of none. */
  lemma OtherCallKeepsOrder(s: State, i: CallId, c: Call, k: CallStep, s': State, f: FlowKey)
    requires OrderInv(s, f) && CallNext(s, i, c, k, s') && FlowOf(c) != Some(f)
    requires i in s.calls && s.calls[i] == c
    ensures OrderInv(s', f)
  {
    if f !in s.overlapped {
      var c' := s'.calls[i];
      assert s'.calls == s.calls[i := c'] && FlowOf(c') != Some(f);
      SameActive(s.calls, i, c', s'.calls, f);
      if k.Push? {
        OtherEventFollows(s.log, End(s'.log), f);
        AppendEvent(s.log, End(s'.log));
        assert Standing(s'.log, f) == Standing(s.log, f);
      }
      assert f in s.flows ==> f in s'.flows && s'.flows[f] == s.flows[f];
    }
  }

  lemma SameActive(calls: map<CallId, Call>, i: CallId, c': Call, calls': map<CallId, Call>, f: FlowKey)
    requires calls' == calls[i := c']
    requires FlowOf(c') != Some(f) && (i in calls ==> FlowOf(calls[i]) != Some(f))
    ensures forall c :: Active(calls', c, f) <==> Active(calls, c, f)
    ensures forall c :: Active(calls, c, f) ==> calls'[c] == calls[c]
  {}

  /** A step of the only call of the flow. */
  lemma OwnCallKeepsOrder(s: State, i: CallId, c: Call, k: CallStep, s': State, f: FlowKey)
    requires OrderInv(s, f) && CallNext(s, i, c, k, s') && FlowOf(c) == Some(f)
    requires i in s.calls && s.calls[i] == c && TcpPc(c.pc) && s.done <= s.closed
    requires forall id :: GoneInv(s, id)
    ensures OrderInv(s', f)
  {
    if f !in s.overlapped {
      assert Active(s.calls, i, f);
      var c' := s'.calls[i];
      OwnCallEffect(s, i, c, k, s', f);
      assert s'.calls == s.calls[i := c'];
      OnlyActive(s.calls, i, c', s'.calls, f);
    }
  }

  lemma OnlyActive(calls: map<CallId, Call>, i: CallId, c': Call, calls': map<CallId, Call>, f: FlowKey)
    requires calls' == calls[i := c']
    requires Solo(calls, f) && Active(calls, i, f) && FlowOf(c') == Some(f)
    ensures forall c :: Active(calls', c, f) ==> c == i
    ensures Active(calls', i, f) <==> !c'.pc.Done?
  {
    forall c | Active(calls', c, f) ensures c == i {
      if c != i { assert Active(calls, c, f); }
    }
  }

  lemma OwnCallEffect(s: State, i: CallId, c: Call, k: CallStep, s': State, f: FlowKey)
    requires CallNext(s, i, c, k, s') && FlowOf(c) == Some(f) && TcpPc(c.pc) && s.done <= s.closed
    requires Follows(s.log, f) && Stage(c, Standing(s.log, f))
    requires !c.pc.After? ==> Bound(s.flows, f, Standing(s.log, f))
    requires forall id :: GoneInv(s, id)
    ensures s'.overlapped == s.overlapped && s'.calls == s.calls[i := s'.calls[i]]
    ensures var c' := s'.calls[i];
            && FlowOf(c') == Some(f) && Follows(s'.log, f)
            && (!c'.pc.Done? ==> Stage(c', Standing(s'.log, f)))
            && (!c'.pc.After? ==> Bound(s'.flows, f, Standing(s'.log, f)))
  {
    StandingIsOpen(s, f);
    if k.Move? {
      MoveKeepsStage(s, c, k.pc, f);
    } else if k.Push? {
      PushFollows(s, i, c, k.t, f);
    }
  }

  lemma MoveKeepsStage(s: State, c: Call, pc: Pc, f: FlowKey)
    requires CanMove(s, c, pc) && FlowOf(c) == Some(f) && TcpPc(c.pc) && s.done <= s.closed
    requires Stage(c, Standing(s.log, f)) && Bound(s.flows, f, Standing(s.log, f))
    requires Standing(s.log, f).Some? ==> Standing(s.log, f).value !in s.closed
    ensures !pc.After? && (!pc.Done? ==> Stage(Moved(c, pc), Standing(s.log, f)))
  {}

  lemma PushFollows(s: State, i: CallId, c: Call, t: ConnId, f: FlowKey)
    requires PushTarget(c.pc) == Some(t) && FlowOf(c) == Some(f) && TcpPc(c.pc)
    requires Follows(s.log, f) && Stage(c, Standing(s.log, f))
    ensures var log' := s.log + [Accepted(FrameOf(i, c), t, Closes(c))];
            Follows(log', f) && Stage(Sent(c, t), Standing(log', f))
  {
    AppendEvent(s.log, Accepted(FrameOf(i, c), t, Closes(c)));
  }

  lemma BeginKeepsOrder(overlay: Prefix, s: State, i: CallId, from: ConnId, data: Bytes, s': State, f: FlowKey)
    requires OrderInv(s, f) && BeginNext(overlay, s, i, from, data, s')
    ensures OrderInv(s', f)
  {
    if f !in s.overlapped && f !in s'.overlapped && s' != s {
      var c := Admit(overlay, s.dir, s.flows, from, data).value;
      assert s'.calls == s.calls[i := c] && s'.log == s.log && s'.flows == s.flows;
      AdmitFits(overlay, s.dir, s.flows, from, data);
      if FlowOf(c) == Some(f) {
        assert !Overlaps(s, c);
        assert forall c' :: !Active(s.calls, c', f);
        assert forall c' :: Active(s'.calls, c', f) ==> c' == i;
      } else {
        SameActive(s.calls, i, c, s'.calls, f);
      }
    }
  }

  // ---- retries ----------------------------------------------------------------------------

  /** The client whose closing will make the call go around its loop again. */
  function Awaited(pc: Pc): Option<ConnId> {
    match pc
    case CheckBound(t) => Some(t)
    case WaitBound(t) => Some(t)
    case Recheck(t) => Some(t)
    case Weigh(t) => Some(t)
    case Burst(t) => Some(t)
    case TryBurst(t, _) => Some(t)
    case OfferBurst(t, _) => Some(t)
    case CheckPrimary(t) => Some(t)
    case WaitPrimary(t) => Some(t)
    case TimedRecheck(t) => Some(t)
    case TimedWait(t) => Some(t)
    case _ => None
  }

  /** One retry is due: the awaited client has closed. */
  function Due(pc: Pc, closed: set<ConnId>): nat {
    if pc.DropBound? || (Awaited(pc).Some? && Awaited(pc).value in closed) then 1 else 0
  }

  /** Each retry so far, and the one due, was paid for by a client of `reach` that closed. */
  ghost predicate Paid(c: Call, closed: set<ConnId>) {
    if c.pc.Done? then c.retries <= |c.reach|
    else c.retries + |c.reach - closed| + Due(c.pc, closed) <= |c.reach|
  }

  ghost predicate Reaches(c: Call, flows: map<FlowKey, Binding<ConnId>>) {
    && (forall x :: x in c.snapshot ==> x in c.reach)
    && Targets(c.pc) <= c.reach
    && (c.tcp.Some? && !c.pc.After? && c.tcp.value.flow in flows ==> flows[c.tcp.value.flow].target in c.reach)
  }

  ghost predicate Bounded(c: Call, closed: set<ConnId>, flows: map<FlowKey, Binding<ConnId>>) {
    match c
    case Call(_, _, _, tcp, snapshot, reach, pc, _, _) =>
      && Paid(c, closed) && (pc.Done? || Reaches(c, flows))
      && |reach| <= |snapshot| + if tcp.Some? then 1 else 0
  }

  ghost predicate RetryInv(s: State, call: CallId) {
    call in s.calls ==>
      var c := s.calls[call];
      (c.tcp.Some? && c.tcp.value.flow in s.overlapped) || Bounded(c, s.closed, s.flows)
  }

  lemma ClosingPays(c: Call, closed: set<ConnId>, id: ConnId)
    requires Paid(c, closed) && Targets(c.pc) <= c.reach
    ensures Paid(c, closed + {id})
  {
    if id in c.reach && id !in closed {
      assert c.reach - (closed + {id}) == (c.reach - closed) - {id};
      assert |c.reach - (closed + {id})| == |c.reach - closed| - 1;
    } else {
      assert c.reach - (closed + {id}) == c.reach - closed;
    }
    DueRises(c.pc, closed, id);
    if id !in c.reach || id in closed {
      DueStays(c.pc, c.reach, closed, id);
    }
  }

  lemma DueRises(pc: Pc, closed: set<ConnId>, id: ConnId)
    ensures Due(pc, closed + {id}) <= 1
  {}

  lemma DueStays(pc: Pc, reach: set<ConnId>, closed: set<ConnId>, id: ConnId)
    requires Targets(pc) <= reach && (id !in reach || id in closed)
    ensures Due(pc, closed + {id}) == Due(pc, closed)
  {
    assert Awaited(pc).Some? ==> Awaited(pc).value in Targets(pc);
  }

  lemma EnvKeepsRetry(s: State, e: EnvStep, s': State, call: CallId)
    requires RetryInv(s, call) && EnvNext(s, e, s')
    ensures RetryInv(s', call)
  {
    EnvOnlyRemoves(s, e, s');
    if call in s.calls && !s.calls[call].pc.Done? && s'.closed != s.closed
      && Bounded(s.calls[call], s.closed, s.flows) {
      var id :| s'.closed == s.closed + {id};
      ClosingPays(s.calls[call], s.closed, id);
    }
  }

  lemma EnvOnlyRemoves(s: State, e: EnvStep, s': State)
    requires EnvNext(s, e, s')
    ensures s'.calls == s.calls && s'.overlapped == s.overlapped
    ensures s'.closed == s.closed || exists id :: s'.closed == s.closed + {id}
    ensures forall f :: f in s'.flows ==> f in s.flows && s'.flows[f] == s.flows[f]
  {}

  /** A step of another call cannot write the flow's binding while the flow's calls do not overlap. */
  lemma OtherCallKeepsRetry(s: State, i: CallId, k: CallStep, s': State, call: CallId)
    requires i in s.calls && CallNext(s, i, s.calls[i], k, s') && call != i
    requires RetryInv(s, call) && (i in s.calls && TcpPc(s.calls[i].pc) ==> s.calls[i].tcp.Some?)
    requires call in s.calls && s.calls[call].tcp.Some? ==> OrderInv(s, s.calls[call].tcp.value.flow)
    ensures RetryInv(s', call)
  {
    if call in s.calls && !s.calls[call].pc.Done? && s.calls[call].tcp.Some? {
      var f := s.calls[call].tcp.value.flow;
      if f !in s.overlapped && Active(s.calls, i, f) {
        OneActive(s, f, i, call);
      }
    }
  }

  lemma OneActive(s: State, f: FlowKey, i: CallId, j: CallId)
    requires OrderInv(s, f) && f !in s.overlapped && Active(s.calls, i, f) && Active(s.calls, j, f)
    ensures i == j
  {
    assert Solo(s.calls, f);
  }

  lemma OwnCallKeepsRetry(s: State, call: CallId, c: Call, k: CallStep, s': State)
    requires call in s.calls && c == s.calls[call] && CallNext(s, call, c, k, s')
    requires RetryInv(s, call) && s.done <= s.closed && !c.pc.Done?
    ensures RetryInv(s', call)
  {
    if !(c.tcp.Some? && c.tcp.value.flow in s.overlapped) {
      OwnStepIsBounded(s, call, c, k, s');
    }
  }

  lemma OwnStepIsBounded(s: State, call: CallId, c: Call, k: CallStep, s': State)
    requires call in s.calls && c == s.calls[call] && CallNext(s, call, c, k, s')
    requires Bounded(c, s.closed, s.flows) && s.done <= s.closed && !c.pc.Done?
    ensures Bounded(s'.calls[call], s'.closed, s'.flows)
  {
    if k.Move? {
      MoveIsPaid(s, c, k.pc);
    } else if k.Push? {
      PushIsPaid(s, c, k.t);
    } else if k.Retry? || k.Unbind? {
      AgainIsPaid(s, c);
    }
  }

  lemma PushIsPaid(s: State, c: Call, t: ConnId)
    requires PushTarget(c.pc) == Some(t) && Paid(c, s.closed) && Reaches(c, s.flows)
    ensures Paid(Sent(c, t), s.closed) && (Sent(c, t).pc.Done? || Reaches(Sent(c, t), s.flows))
  {
    assert t in Targets(c.pc);
  }

  lemma AgainIsPaid(s: State, c: Call)
    requires (CanRetry(s, c.pc) || c.pc.DropBound?) && Paid(c, s.closed) && s.done <= s.closed
    ensures Paid(Again(c), s.closed) && Targets(Again(c).pc) == {}
  {}

  lemma MoveIsPaid(s: State, c: Call, pc: Pc)
    requires CanMove(s, c, pc) && Paid(c, s.closed) && Reaches(c, s.flows) && s.done <= s.closed
    ensures Paid(Moved(c, pc), s.closed) && (pc.Done? || Reaches(Moved(c, pc), s.flows))
  {
    FirstOpenIsListed(s.closed, c.snapshot);
    MoveFacts(s, c, pc);
  }

  lemma MoveFacts(s: State, c: Call, pc: Pc)
    requires CanMove(s, c, pc) && Reaches(c, s.flows) && s.done <= s.closed && !c.pc.Done?
    ensures !pc.After? && !c.pc.After?
    ensures Targets(pc) <= c.reach
    ensures !pc.Done? ==> Due(pc, s.closed) <= Due(c.pc, s.closed)
  {
    MoveStaysInReach(s, c, pc);
    MoveBringsNoRetry(s, c, pc);
  }

  lemma MoveStaysInReach(s: State, c: Call, pc: Pc)
    requires CanMove(s, c, pc) && Reaches(c, s.flows)
    ensures Targets(pc) <= c.reach
  {
    FirstOpenIsListed(s.closed, c.snapshot);
  }

  lemma MoveBringsNoRetry(s: State, c: Call, pc: Pc)
    requires CanMove(s, c, pc) && s.done <= s.closed
    ensures !pc.Done? ==> Due(pc, s.closed) <= Due(c.pc, s.closed)
  {
    FirstOpenIsListed(s.closed, c.snapshot);
  }

  lemma {:induction false} MembersAreFew(list: seq<ConnId>)
    ensures |Members(list)| <= |list|
  {
    if list == [] {
      assert Members(list) == {};
    } else {
      MembersAreFew(list[1..]);
      assert Members(list) == Members(list[1..]) + {list[0]};
      OneMore(Members(list[1..]), list[0]);
    }
  }

  lemma OneMore(a: set<ConnId>, x: ConnId)
    ensures |a + {x}| <= |a| + 1
  {}

  lemma ReachIsSmall(snapshot: seq<ConnId>, tcp: Option<TCPHeader>, flows: map<FlowKey, Binding<ConnId>>)
    ensures |ReachOf(snapshot, tcp, flows)| <= |snapshot| + if tcp.Some? then 1 else 0
    ensures tcp.Some? && tcp.value.flow in flows ==> flows[tcp.value.flow].target in ReachOf(snapshot, tcp, flows)
  {
    MembersAreFew(snapshot);
    if tcp.Some? && tcp.value.flow in flows {
      OneMore(Members(snapshot), flows[tcp.value.flow].target);
    } else {
      assert ReachOf(snapshot, tcp, flows) == Members(snapshot);
    }
  }

  lemma BeginKeepsRetry(overlay: Prefix, s: State, i: CallId, from: ConnId, data: Bytes, s': State, call: CallId)
    requires RetryInv(s, call) && BeginNext(overlay, s, i, from, data, s')
    ensures RetryInv(s', call)
  {
    if s' != s && call == i {
      var c := Admit(overlay, s.dir, s.flows, from, data).value;
      AdmitFits(overlay, s.dir, s.flows, from, data);
      ReachIsSmall(c.snapshot, c.tcp, s.flows);
      FewerOpen(c.reach, s.closed);
    }
  }

  lemma FewerOpen(a: set<ConnId>, b: set<ConnId>)
    ensures |a - b| <= |a|
  {
    assert a == (a - b) + a * b;
  }
}
