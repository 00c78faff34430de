/** Building runs of the relay step by step, for the counterexamples: every queue has the same capacity and at most two
    registered connections carry the sender's address. */
module RelayRuns {
  import opened Wrappers
  import opened Addr
  import opened Packet
  import opened EventLog
  import opened FlowTable
  import opened Registry
  import opened RelayModel

  datatype Bounds = Bounds(overlay: Prefix, sender: Addr, cap: nat)

  /** At most `n` registered connections carry address `a`, and every queue has `cap` places. */
  ghost predicate Within(s: State, a: Addr, n: nat, cap: nat) {
    |Get(s.dir.vipMap, a)| <= n && forall id :: id in s.chans ==> s.chans[id].cap == cap
  }

  ghost predicate AllWithin(states: seq<State>, a: Addr, n: nat, cap: nat) {
    forall i :: 0 <= i < |states| ==> Within(states[i], a, n, cap)
  }

  /** A run within the bounds ends in `s`. */
  ghost predicate Reached(b: Bounds, s: State) {
    match b
    case Bounds(overlay, sender, cap) =>
      exists states, steps :: Run(overlay, states, steps) && AllWithin(states, sender, 2, cap) && states[|steps|] == s
  }

  lemma InitialIsReached(b: Bounds)
    ensures Reached(b, Initial)
  {
    assert Run(b.overlay, [Initial], []) && AllWithin([Initial], b.sender, 2, b.cap);
  }

  lemma Extend(b: Bounds, s: State, step: Step, s': State)
    requires Reached(b, s) && Next(b.overlay, s, step, s') && Within(s', b.sender, 2, b.cap)
    ensures Reached(b, s')
  {
    var states, steps :| Run(b.overlay, states, steps) && AllWithin(states, b.sender, 2, b.cap) && states[|steps|] == s;
    var states', steps' := states + [s'], steps + [step];
    forall i | 0 <= i < |steps'| ensures Next(b.overlay, states'[i], steps'[i], states'[i + 1]) {
      if i < |steps| {
        assert states'[i] == states[i] && states'[i + 1] == states[i + 1];
      }
    }
    assert Run(b.overlay, states', steps') && states'[|steps'|] == s';
  }

  lemma ReachedIsWithin(b: Bounds, s: State)
    requires Reached(b, s)
    ensures Within(s, b.sender, 2, b.cap)
  {}

  // ---- one call ---------------------------------------------------------------------------

  /** The state with one call standing at `pc` after `k` steps. */
  function At(s: State, call: CallId, pc: Pc, k: nat): State
    requires call in s.calls
  {
    s.(calls := s.calls[call := s.calls[call].(pc := pc, steps := k)])
  }

  lemma StandsAt(s: State, call: CallId)
    requires call in s.calls
    ensures At(s, call, s.calls[call].pc, s.calls[call].steps) == s
  {}

  lemma MoveOn(b: Bounds, s: State, call: CallId, from: Pc, k: nat, to: Pc)
    requires call in s.calls && Reached(b, At(s, call, from, k)) && CanMove(s, s.calls[call].(pc := from), to)
    ensures Reached(b, At(s, call, to, k + 1))
  {
    var s0 := At(s, call, from, k);
    ReachedIsWithin(b, s0);
    SameMoves(s, s0, s.calls[call].(pc := from), s0.calls[call], to);
    assert At(s, call, to, k + 1).calls == s0.calls[call := Moved(s0.calls[call], to)];
    Extend(b, s0, Enqueue(call, Move(to)), At(s, call, to, k + 1));
  }

  lemma MoveTwice(b: Bounds, s: State, call: CallId, from: Pc, k: nat, via: Pc, to: Pc)
    requires call in s.calls && Reached(b, At(s, call, from, k))
    requires CanMove(s, s.calls[call].(pc := from), via) && CanMove(s, s.calls[call].(pc := via), to)
    ensures Reached(b, At(s, call, to, k + 2))
  {
    MoveOn(b, s, call, from, k, via);
    MoveOn(b, s, call, via, k + 1, to);
  }

  /** Control steps look neither at the calls in flight nor at the step count. */
  lemma SameMoves(s: State, s0: State, c: Call, c0: Call, to: Pc)
    requires s0 == s.(calls := s0.calls) && c0 == c.(steps := c0.steps) && CanMove(s, c, to)
    ensures CanMove(s0, c0, to)
  {
    assert forall p :: NoStandby(s, c, p) <==> NoStandby(s0, c0, p);
  }

  /** A packet of an unbound flow finds the first open client. */
  lemma ToRecheck(b: Bounds, s: State, call: CallId, t: ConnId)
    requires call in s.calls && Reached(b, s) && s.calls[call].pc == Lookup && s.calls[call].tcp.Some?
    requires !BoundOpen(s, s.calls[call].tcp.value.flow)
    requires FirstOpen(s.closed, s.calls[call].snapshot) == Some(t) && t !in s.closed
    ensures Reached(b, At(s, call, Recheck(t), s.calls[call].steps + 2))
  {
    StandsAt(s, call);
    WeighMoves(s, s.calls[call], t);
    MoveTwice(b, s, call, Lookup, s.calls[call].steps, Select, Recheck(t));
  }

  /** It is about to weigh that client. */
  lemma ToWeigh(b: Bounds, s: State, call: CallId, t: ConnId)
    requires call in s.calls && Reached(b, s) && s.calls[call].pc == Lookup && s.calls[call].tcp.Some?
    requires !BoundOpen(s, s.calls[call].tcp.value.flow)
    requires FirstOpen(s.closed, s.calls[call].snapshot) == Some(t) && t !in s.closed
    ensures Reached(b, At(s, call, Weigh(t), s.calls[call].steps + 3))
  {
    ToRecheck(b, s, call, t);
    WeighMoves(s, s.calls[call], t);
    MoveOn(b, s, call, Recheck(t), s.calls[call].steps + 2, Weigh(t));
  }

  lemma WeighMoves(s: State, c: Call, t: ConnId)
    requires c.tcp.Some? && !BoundOpen(s, c.tcp.value.flow)
    requires FirstOpen(s.closed, c.snapshot) == Some(t) && t !in s.closed
    ensures CanMove(s, c.(pc := Lookup), Select) && CanMove(s, c.(pc := Select), Recheck(t))
    ensures CanMove(s, c.(pc := Recheck(t)), Weigh(t))
  {}

  /** Without pressure it is offered to that client. */
  lemma ToPrimary(b: Bounds, s: State, call: CallId, k: nat, t: ConnId)
    requires call in s.calls && Reached(b, At(s, call, Weigh(t), k))
    requires t !in s.closed && !Pressure(s, t)
    ensures Reached(b, At(s, call, WaitPrimary(t), k + 2))
  {
    MoveOn(b, s, call, Weigh(t), k, CheckPrimary(t));
    MoveOn(b, s, call, CheckPrimary(t), k + 1, WaitPrimary(t));
  }

  /** Under pressure an initial SYN is offered to a standby. */
  lemma ToStandby(b: Bounds, s: State, call: CallId, k: nat, t: ConnId, sb: ConnId)
    requires call in s.calls && Reached(b, At(s, call, Weigh(t), k))
    requires s.calls[call].tcp.Some? && IsInitialSYN(s.calls[call].tcp.value) && Pressure(s, t)
    requires sb in s.calls[call].snapshot && sb != t && sb !in s.closed
    ensures Reached(b, At(s, call, OfferBurst(t, sb), k + 3))
  {
    MoveOn(b, s, call, Weigh(t), k, Burst(t));
    MoveOn(b, s, call, Burst(t), k + 1, TryBurst(t, sb));
    MoveOn(b, s, call, TryBurst(t, sb), k + 2, OfferBurst(t, sb));
  }

  lemma PushOn(b: Bounds, s: State, call: CallId, t: ConnId)
    requires Reached(b, s) && call in s.calls && PushTarget(s.calls[call].pc) == Some(t) && Room(s, t)
    ensures Reached(b, PushStep(s, call, s.calls[call], t))
  {
    ReachedIsWithin(b, s);
    Extend(b, s, Enqueue(call, Push(t)), PushStep(s, call, s.calls[call], t));
  }

  lemma BeginOn(b: Bounds, s: State, call: CallId, from: ConnId, data: Bytes, c: Call)
    requires Reached(b, s) && call !in s.calls && from in s.dir.regs && Quiet(s.calls, from)
    requires Admit(b.overlay, s.dir, s.flows, from, data) == Some(c)
    ensures Reached(b, BeginStep(s, call, c))
  {
    ReachedIsWithin(b, s);
    Extend(b, s, Enqueue(call, CallStep.Begin(from, data)), BeginStep(s, call, c));
  }

  lemma RegisterOn(b: Bounds, s: State, id: ConnId, device: string, vip: Addr)
    requires Reached(b, s) && id !in s.dir.vipOf
    requires vip == b.sender ==> |Get(s.dir.vipMap, vip)| <= 1
    ensures Reached(b, RegisterStep(s, id, device, vip, b.cap))
  {
    ReachedIsWithin(b, s);
    Extend(b, s, Env(Register(id, device, vip, b.cap)), RegisterStep(s, id, device, vip, b.cap));
  }

  // ---- packets ----------------------------------------------------------------------------

  /** A first packet of a TCP flow from one overlay address to another. */
  ghost predicate Opening(overlay: Prefix, data: Bytes, pkt: Packet, h: TCPHeader) {
    match h
    case TCPHeader(flow, _, _) =>
      && ParseIPv4(data) == Ok(pkt) && pkt.ihl >= 0 && ClassOf(pkt) == TCP && ParseTCP(pkt) == Ok(h)
      && Contains(overlay, pkt.dst) && pkt.src != pkt.dst && flow.src == pkt.src && flow.dst == pkt.dst
      && IsInitialSYN(h) && !ClosesFlow(h)
  }

  /** A UDP packet between the same addresses. */
  ghost predicate Filler(overlay: Prefix, data: Bytes, pkt: Packet) {
    && ParseIPv4(data) == Ok(pkt) && pkt.ihl >= 0 && ClassOf(pkt) == UDP
    && Contains(overlay, pkt.dst) && pkt.src != pkt.dst
  }

  /** A packet can be scheduled from `src` to `dst`: `dst` is a unicast address of the overlay. */
  predicate Usable(overlay: Prefix, src: Addr, dst: Addr) {
    Contains(overlay, dst) && src != dst && !IsMulticast(dst) && dst != ADDR_SPACE - 1
  }

  ghost predicate HasDestination(overlay: Prefix) {
    exists dst: Addr :: Contains(overlay, dst) && !IsMulticast(dst) && dst != ADDR_SPACE - 1
  }

  lemma SomePair(overlay: Prefix) returns (src: Addr, dst: Addr)
    requires HasDestination(overlay)
    ensures Usable(overlay, src, dst)
  {
    dst :| Contains(overlay, dst) && !IsMulticast(dst) && dst != ADDR_SPACE - 1;
    src := if dst == 0 then 1 else 0;
  }

  const SYN_SEGMENT: Segment := Segment(1, 2, [0, 0, 0, 0, 0, 0, 0, 0], 5, 0, 2, [0, 0, 0, 0, 0, 0])

  /** The SYN from port 1 to port 2. */
  function Syn(src: Addr, dst: Addr): Datagram {
    Datagram(0, [0, 0, 0, 0], 64, PROTOCOL_TCP, [0, 0], src, dst, [], EncodeSegment(SYN_SEGMENT))
  }

  function Udp(src: Addr, dst: Addr): Datagram {
    Datagram(0, [0, 0, 0, 0], 64, PROTOCOL_UDP, [0, 0], src, dst, [], [])
  }

  lemma SynParses(src: Addr, dst: Addr) returns (pkt: Packet, h: TCPHeader)
    ensures ParseIPv4(Encode(Syn(src, dst))) == Ok(pkt) && ParseTCP(pkt) == Ok(h)
    ensures pkt.ihl >= 0 && pkt.protocol == PROTOCOL_TCP && pkt.src == src && pkt.dst == dst
    ensures h == TCPHeader(FlowKey(src, dst, 1, 2), 5, 2)
  {
    assert Encode(Syn(src, dst)) + [] == Encode(Syn(src, dst));
    ParseInvertsEncode(Syn(src, dst), []);
    TCPHeaderInvertsEncode(Syn(src, dst), SYN_SEGMENT, []);
    pkt := ParseIPv4(Encode(Syn(src, dst))).value;
    h := ParseTCP(pkt).value;
  }

  lemma SynIsOpening(overlay: Prefix, src: Addr, dst: Addr) returns (pkt: Packet, h: TCPHeader)
    requires Usable(overlay, src, dst)
    ensures Opening(overlay, Encode(Syn(src, dst)), pkt, h) && pkt.src == src && pkt.dst == dst
  {
    pkt, h := SynParses(src, dst);
    InitialFlags(h);
  }

  lemma InitialFlags(h: TCPHeader)
    requires h.flags == 2
    ensures IsInitialSYN(h) && !ClosesFlow(h)
  {}

  lemma UdpIsFiller(overlay: Prefix, src: Addr, dst: Addr) returns (pkt: Packet)
    requires Usable(overlay, src, dst)
    ensures Filler(overlay, Encode(Udp(src, dst)), pkt) && pkt.src == src && pkt.dst == dst
  {
    assert Encode(Udp(src, dst)) + [] == Encode(Udp(src, dst));
    ParseInvertsEncode(Udp(src, dst), []);
    pkt := ParseIPv4(Encode(Udp(src, dst))).value;
  }
}
