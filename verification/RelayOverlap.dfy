/** Why flow order needs one sender connection: with two connections of the sender's address, two overlapping enqueue
    calls split a flow over two open clients although nothing released it. Queues may have any capacity. */
module RelayOverlap {
  import opened Wrappers
  import opened Addr
  import opened Packet
  import opened EventLog
  import opened FlowTable
  import opened Registry
  import opened RelayModel
  import opened RelayRuns

  /** Two connections of the sender and two of the destination. */
  function Four(b: Bounds, dst: Addr): State {
    var s2 := RegisterStep(RegisterStep(Initial, 0, "a", b.sender, b.cap), 1, "a", b.sender, b.cap);
    RegisterStep(RegisterStep(s2, 2, "b", dst, b.cap), 3, "b", dst, b.cap)
  }

  /** What the calls see of the registry. */
  ghost predicate Serving(b: Bounds, s: State, dst: Addr) {
    match s
    case State(dir, closed, _, chans, flows, _, _, _, _) =>
      && 0 in dir.regs && 1 in dir.regs && 0 in dir.vipOf && dir.vipOf[0] == b.sender && 1 in dir.vipOf
      && dir.vipOf[1] == b.sender
      && Get(dir.vipMap, dst) == [2, 3] && closed == {} && flows == map[]
      && 2 in chans && 3 in chans && chans[2].cap == b.cap && chans[3].cap == b.cap
  }

  lemma FourServe(b: Bounds, dst: Addr)
    requires b.sender != dst
    ensures Reached(b, Four(b, dst)) && Serving(b, Four(b, dst), dst)
  {
    var s1 := RegisterStep(Initial, 0, "a", b.sender, b.cap);
    var s2 := RegisterStep(s1, 1, "a", b.sender, b.cap);
    var s3 := RegisterStep(s2, 2, "b", dst, b.cap);
    InitialIsReached(b);
    RegisterOn(b, Initial, 0, "a", b.sender);
    RegisterOn(b, s1, 1, "a", b.sender);
    RegisterOn(b, s2, 2, "b", dst);
    RegisterOn(b, s3, 3, "b", dst);
  }

  // ---- filling the first client's queue ---------------------------------------------------

  ghost predicate NoFlow(log: Log) {
    forall i :: 0 <= i < |log| ==> log[i].Accepted? && log[i].frame.flow == None
  }

  /** `k` packets of no flow wait in the first client's queue, and no call is in flight. */
  ghost predicate Filled(b: Bounds, s: State, dst: Addr, k: nat) {
    match s
    case State(_, _, _, chans, _, calls, log, _, overlapped) =>
      && Reached(b, s) && Serving(b, s, dst) && overlapped == {}
      && (forall c :: c in calls ==> calls[c].pc.Done? && c < k)
      && 2 in chans && 3 in chans && |chans[2].queue| == k && chans[3].queue == [] && |log| == k && NoFlow(log)
  }

  function FillerCall(data: Bytes, pkt: Packet): Call {
    Call(0, data, pkt, None, [2, 3], {2, 3}, UdpSelect, 0, 0)
  }

  lemma FillerIsAdmitted(b: Bounds, s: State, data: Bytes, pkt: Packet)
    requires Serving(b, s, pkt.dst) && Filler(b.overlay, data, pkt) && pkt.src == b.sender
    ensures Admit(b.overlay, s.dir, s.flows, 0, data) == Some(FillerCall(data, pkt))
  {
    assert Members([2, 3]) == {2, 3};
    assert ReachOf([2, 3], None, s.flows) == {2, 3};
  }

  lemma FillerBegins(b: Bounds, s: State, k: nat, data: Bytes, pkt: Packet)
    requires Filled(b, s, pkt.dst, k) && Filler(b.overlay, data, pkt) && pkt.src == b.sender
    ensures Reached(b, s.(calls := s.calls[k := FillerCall(data, pkt)]))
  {
    var c := FillerCall(data, pkt);
    FillerIsAdmitted(b, s, data, pkt);
    BeginOn(b, s, k, 0, data, c);
    assert BeginStep(s, k, c) == s.(calls := s.calls[k := c]);
  }

  lemma FillerIsOffered(b: Bounds, s: State, k: nat, data: Bytes, pkt: Packet)
    requires Filled(b, s, pkt.dst, k) && k < b.cap && Filler(b.overlay, data, pkt) && pkt.src == b.sender
    ensures Reached(b, At(s.(calls := s.calls[k := FillerCall(data, pkt)]), k, UdpTry(2), 1))
  {
    FillerBegins(b, s, k, data, pkt);
    var s1 := s.(calls := s.calls[k := FillerCall(data, pkt)]);
    StandsAt(s1, k);
    MoveOn(b, s1, k, UdpSelect, 0, UdpTry(2));
  }

  /** One more packet. */
  lemma FillOne(b: Bounds, s: State, k: nat, data: Bytes, pkt: Packet) returns (s': State)
    requires Filled(b, s, pkt.dst, k) && k < b.cap && Filler(b.overlay, data, pkt) && pkt.src == b.sender
    ensures Filled(b, s', pkt.dst, k + 1)
  {
    var c := FillerCall(data, pkt);
    FillerIsOffered(b, s, k, data, pkt);
    var s2 := At(s.(calls := s.calls[k := c]), k, UdpTry(2), 1);
    assert s2.calls == s.calls[k := c.(pc := UdpTry(2), steps := 1)];
    PushOn(b, s2, k, 2);
    s' := PushStep(s2, k, s2.calls[k], 2);
    FillerIsCounted(s, s', k, c, b, pkt.dst);
  }

  lemma FillerIsCounted(s: State, s': State, k: nat, c: Call, b: Bounds, dst: Addr)
    requires Filled(b, s, dst, k) && Reached(b, s') && c.tcp == None
    requires var s2 := s.(calls := s.calls[k := c.(pc := UdpTry(2), steps := 1)]); s' == PushStep(s2, k, s2.calls[k], 2)
    ensures Filled(b, s', dst, k + 1)
  {
    assert NoFlow(s'.log);
    assert Serving(b, s', dst);
  }

  lemma {:induction false} FillUpTo(b: Bounds, k: nat, data: Bytes, pkt: Packet) returns (s: State)
    requires k <= b.cap && Filler(b.overlay, data, pkt) && pkt.src == b.sender
    ensures Filled(b, s, pkt.dst, k)
  {
    if k == 0 {
      s := Four(b, pkt.dst);
      FourServe(b, pkt.dst);
    } else {
      var s0 := FillUpTo(b, k - 1, data, pkt);
      s := FillOne(b, s0, k - 1, data, pkt);
    }
  }

  // ---- two overlapping calls --------------------------------------------------------------

  function SynCall(from: ConnId, data: Bytes, pkt: Packet, h: TCPHeader): Call {
    Call(from, data, pkt, Some(h), [2, 3], {2, 3}, Lookup, 0, 0)
  }

  lemma SynIsAdmitted(b: Bounds, s: State, from: ConnId, data: Bytes, pkt: Packet, h: TCPHeader)
    requires Serving(b, s, pkt.dst) && Opening(b.overlay, data, pkt, h) && pkt.src == b.sender && from <= 1
    ensures Admit(b.overlay, s.dir, s.flows, from, data) == Some(SynCall(from, data, pkt, h))
  {
    assert Members([2, 3]) == {2, 3};
    assert ReachOf([2, 3], Some(h), map[]) == {2, 3};
  }

  /** The first call has its packet on client 2, which comes under pressure by it, and has yet to write the table. */
  ghost predicate Poised(b: Bounds, s: State, h: TCPHeader, dst: Addr, k: nat) {
    match s
    case State(_, _, _, chans, _, calls, log, _, _) =>
      && Reached(b, s) && Serving(b, s, dst) && |log| == k + 1
      && NoFlow(log[..k]) && log[k] == Accepted(Frame(k, Some(h.flow)), 2, false)
      && Active(calls, k, h.flow) && (forall c :: c in calls && !calls[c].pc.Done? ==> calls[c].from == 0)
      && k + 1 !in calls && Pressure(s, 2) && 3 in chans && chans[3].queue == []
  }

  lemma FirstIsOffered(b: Bounds, s: State, k: nat, data: Bytes, pkt: Packet, h: TCPHeader)
    requires Filled(b, s, pkt.dst, k) && Opening(b.overlay, data, pkt, h) && pkt.src == b.sender && 5 * k < 4 * b.cap
    ensures var s1 := s.(calls := s.calls[k := SynCall(0, data, pkt, h)]);
            Reached(b, At(s1, k, WaitPrimary(2), 5)) && Room(s1, 2)
  {
    var c := SynCall(0, data, pkt, h);
    SynIsAdmitted(b, s, 0, data, pkt, h);
    BeginOn(b, s, k, 0, data, c);
    FirstBegins(b, s, k, c, h, pkt.dst);
    var s1 := BeginStep(s, k, c);
    ToWeigh(b, s1, k, 2);
    ToPrimary(b, s1, k, 3, 2);
  }

  lemma FirstCall(b: Bounds, s: State, k: nat, data: Bytes, pkt: Packet, h: TCPHeader) returns (s': State)
    requires Filled(b, s, pkt.dst, k) && Opening(b.overlay, data, pkt, h) && pkt.src == b.sender
    requires 5 * k < 4 * b.cap <= 5 * (k + 1)
    ensures Poised(b, s', h, pkt.dst, k)
  {
    var c := SynCall(0, data, pkt, h);
    FirstIsOffered(b, s, k, data, pkt, h);
    var s2 := At(s.(calls := s.calls[k := c]), k, WaitPrimary(2), 5);
    assert s2.calls == s.calls[k := c.(pc := WaitPrimary(2), steps := 5)];
    PushOn(b, s2, k, 2);
    s' := PushStep(s2, k, s2.calls[k], 2);
    FirstIsPoised(b, s, s', k, c, h, pkt.dst);
  }

  lemma FirstBegins(b: Bounds, s: State, k: nat, c: Call, h: TCPHeader, dst: Addr)
    requires Filled(b, s, dst, k) && 5 * k < 4 * b.cap && c.tcp == Some(h)
    ensures BeginStep(s, k, c) == s.(calls := s.calls[k := c])
    ensures FirstOpen(s.closed, [2, 3]) == Some(2) && s.closed == {} && s.flows == map[] && !Pressure(s, 2)
            && Room(s, 2)
  {
    assert !Overlaps(s, c);
  }

  lemma FirstIsPoised(b: Bounds, s: State, s': State, k: nat, c: Call, h: TCPHeader, dst: Addr)
    requires Filled(b, s, dst, k) && Reached(b, s') && c.tcp == Some(h) && c.from == 0 && !ClosesFlow(h)
    requires 4 * b.cap <= 5 * (k + 1) && b.cap > 0
    requires var s2 := s.(calls := s.calls[k := c.(pc := WaitPrimary(2), steps := 5)]);
             s' == PushStep(s2, k, s2.calls[k], 2)
    ensures Poised(b, s', h, dst, k)
  {
    assert s'.log[..k] == s.log;
    assert Serving(b, s', dst);
  }

  lemma SecondIsOffered(b: Bounds, s: State, k: nat, data: Bytes, pkt: Packet, h: TCPHeader) returns (s1: State)
    requires Poised(b, s, h, pkt.dst, k) && Opening(b.overlay, data, pkt, h) && pkt.src == b.sender && b.cap > 0
    ensures s1 == s.(calls := s.calls[k + 1 := SynCall(1, data, pkt, h)], overlapped := s1.overlapped)
    ensures Reached(b, At(s1, k + 1, OfferBurst(2, 3), 6)) && Room(s1, 3)
  {
    var c := SynCall(1, data, pkt, h);
    SynIsAdmitted(b, s, 1, data, pkt, h);
    BeginOn(b, s, k + 1, 1, data, c);
    s1 := BeginStep(s, k + 1, c);
    SecondBegins(b, s, k, c, h, pkt.dst);
    ToWeigh(b, s1, k + 1, 2);
    ToStandby(b, s1, k + 1, 3, 2, 3);
  }

  /** The second call, of the other connection, finds no binding and client 2 under pressure. */
  lemma SecondCall(b: Bounds, s: State, k: nat, data: Bytes, pkt: Packet, h: TCPHeader) returns (s': State)
    requires Poised(b, s, h, pkt.dst, k) && Opening(b.overlay, data, pkt, h) && pkt.src == b.sender && b.cap > 0
    ensures Reached(b, s') && s'.log == s.log + [Accepted(Frame(k + 1, Some(h.flow)), 3, false)]
  {
    var s1 := SecondIsOffered(b, s, k, data, pkt, h);
    var s2 := At(s1, k + 1, OfferBurst(2, 3), 6);
    PushOn(b, s2, k + 1, 3);
    s' := PushStep(s2, k + 1, s2.calls[k + 1], 3);
  }

  lemma SecondBegins(b: Bounds, s: State, k: nat, c: Call, h: TCPHeader, dst: Addr)
    requires Poised(b, s, h, dst, k) && c.tcp == Some(h) && b.cap > 0
    ensures var s1 := BeginStep(s, k + 1, c);
            && s1 == s.(calls := s.calls[k + 1 := c], overlapped := s1.overlapped)
            && FirstOpen(s1.closed, [2, 3]) == Some(2) && s1.closed == {} && s1.flows == map[] && Pressure(s1, 2)
            && Room(s1, 3)
  {}

  /** Queue lengths just below the mark. */
  lemma BelowTheMark(cap: nat) returns (k: nat)
    requires cap > 0
    ensures k < cap && 5 * k < 4 * cap <= 5 * (k + 1)
  {
    k := (4 * cap - 1) / 5;
  }

  /** Two packets of a flow accepted one after the other by different open connections, with nothing that released the
      flow in between. */
  ghost predicate SplitAt(log: Log, f: FlowKey, i: nat, j: nat) {
    && i < j < |log| && AcceptsFlow(log[i], f) && AcceptsFlow(log[j], f) && log[i].conn != log[j].conn
    && (forall k :: i <= k < j ==> !Releases(log[k], f)) && !IsGone(log[..j], log[i].conn)
  }

  /** For every overlay, every pair of a sender and a usable destination, and every queue capacity there is a run in
      which never more than two connections carry the sender's address, and which splits a flow between the two. */
  lemma OverlapSplitsAFlow(overlay: Prefix, src: Addr, dst: Addr, cap: nat)
    returns (states: seq<State>, steps: seq<Step>, f: FlowKey, i: nat, j: nat)
    requires cap > 0 && Usable(overlay, src, dst)
    ensures Run(overlay, states, steps) && AllWithin(states, src, 2, cap) && SplitAt(states[|steps|].log, f, i, j)
    ensures f.src == src && f.dst == dst
  {
    var b := Bounds(overlay, src, cap);
    var s, k, h := SplitIsReached(b, dst);
    f, i, j := h, k, k + 1;
    states, steps :| Run(overlay, states, steps) && AllWithin(states, src, 2, cap) && states[|steps|] == s;
  }

  lemma SplitIsReached(b: Bounds, dst: Addr) returns (s: State, k: nat, f: FlowKey)
    requires b.cap > 0 && Usable(b.overlay, b.sender, dst)
    ensures Reached(b, s) && f.src == b.sender && f.dst == dst && SplitAt(s.log, f, k, k + 1)
  {
    var pkt, h := SynIsOpening(b.overlay, b.sender, dst);
    var filler := UdpIsFiller(b.overlay, b.sender, dst);
    f := h.flow;
    k := BelowTheMark(b.cap);
    var s0 := FillUpTo(b, k, Encode(Udp(b.sender, dst)), filler);
    var s1 := FirstCall(b, s0, k, Encode(Syn(b.sender, dst)), pkt, h);
    s := SecondCall(b, s1, k, Encode(Syn(b.sender, dst)), pkt, h);
    LogSplits(s1.log, s.log, f, k);
  }

  lemma LogSplits(log: Log, log': Log, f: FlowKey, k: nat)
    requires |log| == k + 1 && NoFlow(log[..k]) && log[k] == Accepted(Frame(k, Some(f)), 2, false)
    requires log' == log + [Accepted(Frame(k + 1, Some(f)), 3, false)]
    ensures SplitAt(log', f, k, k + 1)
  {
    assert log'[..k + 1] == log;
    forall i | 0 <= i < |log| ensures log[i].Accepted? {
      if i < k { assert log[i] == log[..k][i]; }
    }
    AcceptedIsNotGone(log, 2);
  }

  lemma {:induction false} AcceptedIsNotGone(log: Log, id: ConnId)
    requires forall i :: 0 <= i < |log| ==> log[i].Accepted?
    ensures !IsGone(log, id)
  {
    if log != [] { AcceptedIsNotGone(Front(log), id); }
  }
}
