/** Why the bound on retries needs one sender connection too: with two, calls of the other connection can bind the
    flow to a new client each time the first call goes around its loop. */
module RelayRetries {
  import opened Wrappers
  import opened Addr
  import opened Packet
  import opened EventLog
  import opened FlowTable
  import opened Registry
  import opened RelayModel
  import opened RelaySafety
  import opened RelayTheorems
  import opened RelayRuns
  import opened RelaySenders

  /** Two connections of the sender, and one of the destination that has closed. */
  function Trio(b: Bounds, dst: Addr): State {
    var s2 := RegisterStep(RegisterStep(Initial, 0, "a", b.sender, b.cap), 1, "a", b.sender, b.cap);
    Close(RegisterStep(s2, 2, "b", dst, b.cap), 2)
  }

  function Waiting(data: Bytes, pkt: Packet, h: TCPHeader): Call {
    Call(0, data, pkt, Some(h), [2], {2}, Lookup, 0, 0)
  }

  /** Call 0 is at the top of its loop for the `k`-th time; all other calls are done ones of connection 1. */
  ghost predicate OneWaits(calls: map<CallId, Call>, data: Bytes, pkt: Packet, h: TCPHeader, k: nat, next: nat) {
    && 0 in calls && calls[0] == Waiting(data, pkt, h).(retries := k, steps := calls[0].steps)
    && forall c :: c in calls ==> c < next && (c == 0 || (calls[c].pc.Done? && calls[c].from == 1))
  }

  /** The two connections of the sender are registered, the closed one serves the destination alone, and identifiers
      from `next` on are unused. */
  ghost predicate Known(b: Bounds, dir: Directory, next: nat, dst: Addr) {
    match dir
    case Directory(deviceOf, vipOf, regs, _, vipMap) =>
      && 0 in regs && 1 in regs && 0 in vipOf && vipOf[0] == b.sender && 1 in vipOf && vipOf[1] == b.sender
      && next >= 3 && (forall id :: id in vipOf ==> id < next) && Get(vipMap, dst) == [2] && IndexInv(dir)
  }

  ghost predicate Turning(b: Bounds, s: State, data: Bytes, pkt: Packet, h: TCPHeader, k: nat, next: nat) {
    match s
    case State(dir, closed, _, _, flows, calls, _, _, _) =>
      && Known(b, dir, next, pkt.dst) && 2 in closed && (forall id :: id in closed ==> id < next)
      && flows == map[] && OneWaits(calls, data, pkt, h, k, next)
  }

  lemma FirstIsAdmitted(b: Bounds, dir: Directory, data: Bytes, pkt: Packet, h: TCPHeader)
    requires Opening(b.overlay, data, pkt, h) && pkt.src == b.sender && Known(b, dir, 3, pkt.dst)
    ensures Admit(b.overlay, dir, map[], 0, data) == Some(Waiting(data, pkt, h))
  {
    assert Members([2]) == {2};
    assert ReachOf([2], Some(h), map[]) == {2};
  }

  lemma TrioTurns(b: Bounds, data: Bytes, pkt: Packet, h: TCPHeader) returns (s: State)
    requires Opening(b.overlay, data, pkt, h) && pkt.src == b.sender
    ensures Reached(b, s) && Turning(b, s, data, pkt, h, 0, 3)
  {
    var s0 := TrioIsReached(b, pkt.dst);
    FirstIsAdmitted(b, s0.dir, data, pkt, h);
    BeginOn(b, s0, 0, 0, data, Waiting(data, pkt, h));
    s := BeginStep(s0, 0, Waiting(data, pkt, h));
    FirstTurns(b, s0, s, data, pkt, h);
  }

  lemma FirstTurns(b: Bounds, s0: State, s: State, data: Bytes, pkt: Packet, h: TCPHeader)
    requires Known(b, s0.dir, 3, pkt.dst) && s0.closed == {2} && s0.flows == map[] && s0.calls == map[]
    requires s == BeginStep(s0, 0, Waiting(data, pkt, h))
    ensures Turning(b, s, data, pkt, h, 0, 3)
  {}

  lemma TrioIsReached(b: Bounds, dst: Addr) returns (s: State)
    requires b.sender != dst
    ensures s == Trio(b, dst) && Reached(b, s) && Known(b, s.dir, 3, dst) && s.closed == {2} && s.flows == map[]
            && s.calls == map[]
  {
    var s1 := RegisterStep(Initial, 0, "a", b.sender, b.cap);
    var s2 := RegisterStep(s1, 1, "a", b.sender, b.cap);
    var s3 := RegisterStep(s2, 2, "b", dst, b.cap);
    InitialIsReached(b);
    RegisterOn(b, Initial, 0, "a", b.sender);
    RegisterOn(b, s1, 1, "a", b.sender);
    RegisterOn(b, s2, 2, "b", dst);
    s := Trio(b, dst);
    ReachedIsWithin(b, s3);
    Extend(b, s3, Env(MarkClosed(2)), s);
    TrioIsKnown(b, dst);
  }

  lemma TrioIsKnown(b: Bounds, dst: Addr)
    requires b.sender != dst
    ensures Known(b, Trio(b, dst).dir, 3, dst)
  {
    TrioIsIndexed(b, dst);
    TrioLists(b, dst);
  }

  lemma TrioIsIndexed(b: Bounds, dst: Addr)
    ensures IndexInv(Trio(b, dst).dir)
  {
    var d1 := Registered(Initial.dir, 0, "a", b.sender);
    var d2 := Registered(d1, 1, "a", b.sender);
    RegisteredIsIndexed(Initial.dir, 0, "a", b.sender);
    RegisteredIsIndexed(d1, 1, "a", b.sender);
    RegisteredIsIndexed(d2, 2, "b", dst);
  }

  lemma TrioLists(b: Bounds, dst: Addr)
    requires b.sender != dst
    ensures var dir := Trio(b, dst).dir;
            && dir.regs == [0, 1, 2] && dir.vipOf == map[0 := b.sender, 1 := b.sender, 2 := dst]
            && Get(dir.vipMap, dst) == [2]
  {}

  // ---- one turn ---------------------------------------------------------------------------

  /** What the other connection's call needs. */
  ghost predicate Joined(b: Bounds, s: State, dst: Addr, n: nat) {
    match s
    case State(dir, closed, _, chans, flows, calls, _, _, _) =>
      && 1 in dir.regs && 1 in dir.vipOf && dir.vipOf[1] == b.sender && Get(dir.vipMap, dst) == [2, n]
      && 2 in closed && n !in closed && flows == map[] && n in chans && chans[n] == NewChan(b.cap)
      && n !in calls && Quiet(calls, 1)
  }

  /** A new client registers. */
  lemma ClientJoins(b: Bounds, s: State, data: Bytes, pkt: Packet, h: TCPHeader, k: nat, n: nat) returns (s': State)
    requires Reached(b, s) && Turning(b, s, data, pkt, h, k, n) && pkt.src == b.sender && pkt.src != pkt.dst
    ensures s' == RegisterStep(s, n, "b", pkt.dst, b.cap) && Reached(b, s') && Joined(b, s', pkt.dst, n)
  {
    RegisterOn(b, s, n, "b", pkt.dst);
    s' := RegisterStep(s, n, "b", pkt.dst, b.cap);
  }

  function Other(data: Bytes, pkt: Packet, h: TCPHeader, n: nat): Call {
    Call(1, data, pkt, Some(h), [2, n], {2, n}, Lookup, 0, 0)
  }

  lemma OtherIsAdmitted(b: Bounds, s: State, data: Bytes, pkt: Packet, h: TCPHeader, n: nat)
    requires Joined(b, s, pkt.dst, n) && Opening(b.overlay, data, pkt, h) && pkt.src == b.sender && b.cap > 0
    ensures Admit(b.overlay, s.dir, s.flows, 1, data) == Some(Other(data, pkt, h, n))
    ensures FirstOpen(s.closed, [2, n]) == Some(n) && !Pressure(s, n) && Room(s, n)
  {
    assert Members([2, n]) == {2, n};
    assert ReachOf([2, n], Some(h), map[]) == {2, n};
    assert [2, n][1..] == [n];
    assert FirstOpen(s.closed, [n]) == Some(n);
  }

  /** A call of connection 1 reaches the new client. */
  lemma OtherIsOffered(b: Bounds, s: State, data: Bytes, pkt: Packet, h: TCPHeader, n: nat) returns (s': State)
    requires Reached(b, s) && Joined(b, s, pkt.dst, n) && Opening(b.overlay, data, pkt, h) && pkt.src == b.sender
             && b.cap > 0
    ensures s' == s.(calls := s.calls[n := Other(data, pkt, h, n).(pc := WaitPrimary(n), steps := 5)],
                     overlapped := s'.overlapped)
    ensures Reached(b, s') && Room(s', n)
  {
    var s1 := OtherBegins(b, s, data, pkt, h, n);
    ToPrimary(b, s1, n, 3, n);
    s' := At(s1, n, WaitPrimary(n), 5);
  }

  lemma OtherBegins(b: Bounds, s: State, data: Bytes, pkt: Packet, h: TCPHeader, n: nat) returns (s': State)
    requires Reached(b, s) && Joined(b, s, pkt.dst, n) && Opening(b.overlay, data, pkt, h) && pkt.src == b.sender
             && b.cap > 0
    ensures s' == s.(calls := s.calls[n := Other(data, pkt, h, n)], overlapped := s'.overlapped)
    ensures Reached(b, At(s', n, Weigh(n), 3)) && n !in s'.closed && !Pressure(s', n) && Room(s', n)
  {
    OtherIsAdmitted(b, s, data, pkt, h, n);
    BeginOn(b, s, n, 1, data, Other(data, pkt, h, n));
    s' := BeginStep(s, n, Other(data, pkt, h, n));
    ToWeigh(b, s', n, n);
  }

  /** Its packet is accepted and the flow bound to the new client. */
  lemma OtherBinds(b: Bounds, s: State, h: TCPHeader, n: nat) returns (s': State)
    requires Reached(b, s) && n in s.calls && s.calls[n].pc == WaitPrimary(n) && s.calls[n].tcp == Some(h)
             && !ClosesFlow(h)
    requires Room(s, n)
    ensures Reached(b, s')
    ensures s' == s.(calls := s'.calls, chans := s'.chans, log := s'.log, flows := s.flows[h.flow := Binding(n, s.now)])
    ensures s'.calls == s.calls[n := s.calls[n].(pc := Done(true), steps := s.calls[n].steps + 2)]
  {
    PushOn(b, s, n, n);
    var s1 := PushStep(s, n, s.calls[n], n);
    ReachedIsWithin(b, s1);
    s' := BindStep(s1, n, s1.calls[n]);
    Extend(b, s1, Enqueue(n, Bind), s');
  }

  /** Call 0 has gone around its loop once while client `n` left. */
  ghost predicate WentAround(s: State, s': State, n: nat) {
    match s
    case State(dir, closed, _, _, _, calls, _, _, _) =>
      && n in dir.deviceOf && n in dir.vipOf && s'.dir == Unregistered(dir, n) && s'.closed == closed + {n}
      && s'.flows == map[]
      && 0 in calls && s'.calls == calls[0 := calls[0].(retries := calls[0].retries + 1, steps := calls[0].steps + 3)]
  }

  /** The first call finds the binding; the new client leaves; the call drops the binding and continues. */
  lemma FirstGoesAround(b: Bounds, s: State, h: TCPHeader, n: nat) returns (s': State)
    requires Reached(b, s) && 0 in s.calls && s.calls[0].pc == Lookup && s.calls[0].tcp == Some(h)
    requires s.flows == map[h.flow := Binding(n, s.now)] && n !in s.closed && CanLeave(b, s, n)
    ensures Reached(b, s') && WentAround(s, s', n)
  {
    FirstSeesBinding(b, s, h, n);
    var s1 := At(s, 0, CheckBound(n), s.calls[0].steps + 1);
    var s2 := Leaves(b, s, s1, n);
    s' := DropsAndContinues(b, s2, h, n);
    HasGoneAround(s, s1, s2, s', h, n);
  }

  lemma FirstSeesBinding(b: Bounds, s: State, h: TCPHeader, n: nat)
    requires Reached(b, s) && 0 in s.calls && s.calls[0].pc == Lookup && s.calls[0].tcp == Some(h)
    requires s.flows == map[h.flow := Binding(n, s.now)] && n !in s.closed
    ensures Reached(b, At(s, 0, CheckBound(n), s.calls[0].steps + 1))
  {
    assert At(s, 0, Lookup, s.calls[0].steps) == s;
    MoveOn(b, s, 0, Lookup, s.calls[0].steps, CheckBound(n));
  }

  lemma HasGoneAround(s: State, s1: State, s2: State, s': State, h: TCPHeader, n: nat)
    requires 0 in s.calls && s.calls[0].pc == Lookup && s.flows == map[h.flow := Binding(n, s.now)]
    requires s1 == At(s, 0, CheckBound(n), s.calls[0].steps + 1) && n in s1.dir.deviceOf && n in s1.dir.vipOf
    requires s2 == UnregisterStep(s1, n) && s' == s2.(calls := s'.calls, flows := s2.flows - {h.flow})
    requires s'.calls == s2.calls[0 := s2.calls[0].(pc := Lookup, retries := s2.calls[0].retries + 1,
                                                    steps := s2.calls[0].steps + 2)]
    ensures WentAround(s, s', n)
  {}

  ghost predicate CanLeave(b: Bounds, s: State, n: nat) {
    match s
    case State(dir, _, _, _, _, calls, _, _, _) =>
      && n in dir.regs && n in dir.vipOf && n in dir.deviceOf && n != 0
      && (forall c :: c in calls ==> calls[c].from != n)
      && |Get(Unregistered(dir, n).vipMap, b.sender)| <= 2
  }

  lemma Leaves(b: Bounds, s: State, s1: State, n: nat) returns (s2: State)
    requires CanLeave(b, s, n) && Reached(b, s1) && 0 in s.calls && 0 in s1.calls
    requires s1 == At(s, 0, s1.calls[0].pc, s1.calls[0].steps)
    ensures n in s1.dir.deviceOf && n in s1.dir.vipOf && s2 == UnregisterStep(s1, n) && Reached(b, s2)
  {
    s2 := UnregisterStep(s1, n);
    ReachedIsWithin(b, s1);
    Extend(b, s1, Env(Unregister(n)), s2);
  }

  lemma SeesItClosed(b: Bounds, s: State, n: nat)
    requires Reached(b, s) && 0 in s.calls && s.calls[0].pc == CheckBound(n) && n in s.closed
    ensures Reached(b, At(s, 0, DropBound, s.calls[0].steps + 1))
  {
    StandsAt(s, 0);
    MoveOn(b, s, 0, CheckBound(n), s.calls[0].steps, DropBound);
  }

  lemma DropsAndContinues(b: Bounds, s: State, h: TCPHeader, n: nat) returns (s': State)
    requires Reached(b, s) && 0 in s.calls && s.calls[0].pc == CheckBound(n) && s.calls[0].tcp == Some(h)
             && n in s.closed
    ensures Reached(b, s') && s' == s.(calls := s'.calls, flows := s.flows - {h.flow})
    ensures s'.calls == s.calls[0 := s.calls[0].(pc := Lookup, retries := s.calls[0].retries + 1,
                                                 steps := s.calls[0].steps + 2)]
  {
    SeesItClosed(b, s, n);
    var s1 := At(s, 0, DropBound, s.calls[0].steps + 1);
    s' := UnbindStep(s1, 0, s1.calls[0]);
    ReachedIsWithin(b, s1);
    Extend(b, s1, Enqueue(0, Unbind), s');
  }

  /** The directory after the new client came and went. */
  lemma ComesAndGoes(b: Bounds, dir: Directory, n: nat, dst: Addr)
    requires Known(b, dir, n, dst) && b.sender != dst
    ensures var dir' := Unregistered(Registered(dir, n, "b", dst), n);
            Known(b, dir', n + 1, dst) && Get(dir'.vipMap, b.sender) == Get(dir.vipMap, b.sender)
  {
    RegisteredIsIndexed(dir, n, "b", dst);
    UnregisteredIsIndexed(Registered(dir, n, "b", dst), n);
    ListAfterTurn(dir.vipMap, n, dst, b.sender);
  }

  lemma ListAfterTurn(m: map<Addr, seq<ConnId>>, n: nat, dst: Addr, a: Addr)
    requires Get(m, dst) == [2] && n != 2 && a != dst
    ensures var m' := IndexRemove(IndexAdd(m, dst, n), dst, n); Get(m', dst) == [2] && Get(m', a) == Get(m, a)
  {
    LastIsRemoved(n);
    assert Get(IndexAdd(m, dst, n), dst) == [2, n];
  }

  lemma LastIsRemoved(n: nat)
    requires n != 2
    ensures RemoveFirst([2, n], n) == [2]
  {
    assert [2, n][1..] == [n] && [n][1..] == [];
    assert RemoveFirst([n], n) == [];
  }

  lemma OneTurn(b: Bounds, s: State, data: Bytes, pkt: Packet, h: TCPHeader, k: nat, n: nat) returns (s': State)
    requires Reached(b, s) && Turning(b, s, data, pkt, h, k, n)
    requires Opening(b.overlay, data, pkt, h) && pkt.src == b.sender && b.cap > 0
    ensures Reached(b, s') && Turning(b, s', data, pkt, h, k + 1, n + 1)
  {
    var s3 := OtherTurn(b, s, data, pkt, h, k, n);
    ReachedIsWithin(b, s);
    NewClientCanLeave(b, s, s3, data, pkt, h, k, n);
    FirstStillWaits(b, s, s3, data, pkt, h, k, n);
    s' := FirstGoesAround(b, s3, h, n);
    TurnsAgain(b, s, s3, s', data, pkt, h, k, n);
  }

  lemma FirstStillWaits(b: Bounds, s: State, s3: State, data: Bytes, pkt: Packet, h: TCPHeader, k: nat, n: nat)
    requires Turning(b, s, data, pkt, h, k, n) && OtherBound(s, s3, pkt.dst, h.flow, n)
    ensures 0 in s3.calls && s3.calls[0] == s.calls[0] && s3.calls[0].pc == Lookup && s3.calls[0].tcp == Some(h)
            && n !in s3.closed
  {}

  lemma TurnsAgain(b: Bounds, s: State, s3: State, s': State, data: Bytes, pkt: Packet, h: TCPHeader, k: nat, n: nat)
    requires Turning(b, s, data, pkt, h, k, n) && b.sender != pkt.dst
    requires OtherBound(s, s3, pkt.dst, h.flow, n) && WentAround(s3, s', n)
    ensures Turning(b, s', data, pkt, h, k + 1, n + 1)
  {
    DirectoryAgain(b, s, s3, s', data, pkt, h, k, n);
    CallsAgain(b, s, s3, s', data, pkt, h, k, n);
  }

  lemma DirectoryAgain(b: Bounds, s: State, s3: State, s': State, data: Bytes, pkt: Packet, h: TCPHeader, k: nat,
                       n: nat)
    requires Turning(b, s, data, pkt, h, k, n) && b.sender != pkt.dst
    requires OtherBound(s, s3, pkt.dst, h.flow, n) && WentAround(s3, s', n)
    ensures Known(b, s'.dir, n + 1, pkt.dst)
  {
    KnownAgain(b, s.dir, s3.dir, s'.dir, n, pkt.dst);
  }

  lemma CallsAgain(b: Bounds, s: State, s3: State, s': State, data: Bytes, pkt: Packet, h: TCPHeader, k: nat, n: nat)
    requires Turning(b, s, data, pkt, h, k, n) && OtherBound(s, s3, pkt.dst, h.flow, n) && WentAround(s3, s', n)
    ensures 2 in s'.closed && (forall id :: id in s'.closed ==> id < n + 1) && s'.flows == map[]
    ensures OneWaits(s'.calls, data, pkt, h, k + 1, n + 1)
  {
    CallsOfTurn(s.calls, s3.calls, s'.calls, data, pkt, h, k, n);
  }

  lemma KnownAgain(b: Bounds, dir: Directory, dir3: Directory, dir': Directory, n: nat, dst: Addr)
    requires Known(b, dir, n, dst) && b.sender != dst
    requires dir3 == Registered(dir, n, "b", dst) && n in dir3.deviceOf && n in dir3.vipOf
             && dir' == Unregistered(dir3, n)
    ensures Known(b, dir', n + 1, dst)
  {
    ComesAndGoes(b, dir, n, dst);
  }

  lemma CallsOfTurn(calls: map<CallId, Call>, calls3: map<CallId, Call>, calls': map<CallId, Call>, data: Bytes,
                    pkt: Packet,
                    h: TCPHeader, k: nat, n: nat)
    requires OneWaits(calls, data, pkt, h, k, n) && n >= 3 && n in calls3 && 0 in calls3
    requires calls3 == calls[n := calls3[n]] && calls3[n].pc == Done(true) && calls3[n].from == 1
    requires calls' == calls3[0 := calls3[0].(retries := calls3[0].retries + 1, steps := calls3[0].steps + 3)]
    ensures OneWaits(calls', data, pkt, h, k + 1, n + 1)
  {
    CallsAfterTurn(calls, calls', data, pkt, h, k, n);
  }

  lemma NewClientCanLeave(b: Bounds, s: State, s3: State, data: Bytes, pkt: Packet, h: TCPHeader, k: nat, n: nat)
    requires Turning(b, s, data, pkt, h, k, n) && b.sender != pkt.dst && |Get(s.dir.vipMap, b.sender)| <= 2
    requires OtherBound(s, s3, pkt.dst, h.flow, n)
    ensures CanLeave(b, s3, n)
  {
    NewClientIsListed(b, s.dir, n, pkt.dst);
    NoCallFromNew(s.calls, s3.calls, data, pkt, h, k, n);
  }

  lemma NewClientIsListed(b: Bounds, dir: Directory, n: nat, dst: Addr)
    requires Known(b, dir, n, dst) && b.sender != dst && |Get(dir.vipMap, b.sender)| <= 2
    ensures var dir' := Registered(dir, n, "b", dst);
            && n in dir'.regs && n in dir'.vipOf && n in dir'.deviceOf && n != 0
            && |Get(Unregistered(dir', n).vipMap, b.sender)| <= 2
  {
    ComesAndGoes(b, dir, n, dst);
  }

  lemma NoCallFromNew(calls: map<CallId, Call>, calls': map<CallId, Call>, data: Bytes, pkt: Packet, h: TCPHeader,
                      k: nat, n: nat)
    requires OneWaits(calls, data, pkt, h, k, n) && n >= 3
    requires n in calls' && calls' == calls[n := calls'[n]] && calls'[n].from == 1
    ensures forall c :: c in calls' ==> calls'[c].from != n
  {
    forall c | c in calls' ensures calls'[c].from != n {
      if c != n {
        assert calls'[c] == calls[c];
      }
    }
  }

  /** Client `n` has joined and a finished call of connection 1 has bound the flow to it. */
  ghost predicate OtherBound(s: State, s': State, dst: Addr, f: FlowKey, n: nat) {
    match s
    case State(dir, closed, _, _, _, calls, _, _, _) =>
      && s'.dir == Registered(dir, n, "b", dst) && s'.closed == closed && n !in closed
      && s'.flows == map[f := Binding(n, s'.now)] && n in s'.calls && s'.calls == calls[n := s'.calls[n]]
      && s'.calls[n].pc == Done(true) && s'.calls[n].from == 1
  }

  /** The other connection's part of a turn. */
  lemma OtherTurn(b: Bounds, s: State, data: Bytes, pkt: Packet, h: TCPHeader, k: nat, n: nat) returns (s': State)
    requires Reached(b, s) && Turning(b, s, data, pkt, h, k, n)
    requires Opening(b.overlay, data, pkt, h) && pkt.src == b.sender && b.cap > 0
    ensures Reached(b, s') && OtherBound(s, s', pkt.dst, h.flow, n)
  {
    var s1 := ClientJoins(b, s, data, pkt, h, k, n);
    var s2 := OtherIsOffered(b, s1, data, pkt, h, n);
    s' := OtherBinds(b, s2, h, n);
    OtherHasBound(s, s1, s2, s', pkt.dst, h.flow, n, b.cap);
  }

  lemma OtherHasBound(s: State, s1: State, s2: State, s': State, dst: Addr, f: FlowKey, n: nat, cap: nat)
    requires s1 == RegisterStep(s, n, "b", dst, cap) && n !in s.closed && s.flows == map[]
    requires n in s2.calls && s2.calls[n].from == 1
    requires s2 == s1.(calls := s1.calls[n := s2.calls[n]], overlapped := s2.overlapped)
    requires s' == s2.(calls := s'.calls, chans := s'.chans, log := s'.log, flows := s2.flows[f := Binding(n, s2.now)])
    requires s'.calls == s2.calls[n := s2.calls[n].(pc := Done(true), steps := s2.calls[n].steps + 2)]
    ensures OtherBound(s, s', dst, f, n)
  {}

  lemma CallsAfterTurn(calls: map<CallId, Call>, calls': map<CallId, Call>, data: Bytes, pkt: Packet, h: TCPHeader,
                       k: nat, n: nat)
    requires OneWaits(calls, data, pkt, h, k, n) && n > 0 && n in calls' && 0 in calls'
    requires calls' == calls[n := calls'[n]][0 := calls'[0]] && calls'[n].pc.Done? && calls'[n].from == 1
    requires calls'[0] == calls[0].(retries := k + 1, steps := calls'[0].steps)
    ensures OneWaits(calls', data, pkt, h, k + 1, n + 1)
  {}

  lemma {:induction false} TurnsForEver(b: Bounds, k: nat, data: Bytes, pkt: Packet, h: TCPHeader)
    returns (s: State, next: nat)
    requires Opening(b.overlay, data, pkt, h) && pkt.src == b.sender && b.cap > 0
    ensures Reached(b, s) && Turning(b, s, data, pkt, h, k, next)
  {
    if k == 0 {
      s := TrioTurns(b, data, pkt, h);
      next := 3;
    } else {
      var s0, n := TurnsForEver(b, k - 1, data, pkt, h);
      s := OneTurn(b, s0, data, pkt, h, k - 1, n);
      next := n + 1;
    }
  }

  /** For every overlay with a usable pair and every number of retries there is a run in which a call with one client in
      its snapshot makes them. */
  lemma RetriesWithoutBound(overlay: Prefix, src: Addr, dst: Addr, cap: nat, k: nat)
    returns (states: seq<State>, steps: seq<Step>, call: CallId)
    requires cap > 0 && Usable(overlay, src, dst)
    ensures Run(overlay, states, steps) && AllWithin(states, src, 2, cap) && call in states[|steps|].calls
    ensures var c := states[|steps|].calls[call];
            c.retries == k && |c.snapshot| == 1 && c.tcp.Some? && c.tcp.value.flow.src == src
  {
    var pkt, h := SynIsOpening(overlay, src, dst);
    var s, _ := TurnsForEver(Bounds(overlay, src, cap), k, Encode(Syn(src, dst)), pkt, h);
    states, steps :| Run(overlay, states, steps) && AllWithin(states, src, 2, cap) && states[|steps|] == s;
    call := 0;
  }

  // ---- the bound, exactly -----------------------------------------------------------------

  /** In no run whose queues have `cap` places and in which at most `n` registered connections carry a TCP call's source
      address does the call continue more than once per client of its snapshot and once more. */
  ghost predicate BoundHolds(overlay: Prefix, n: nat, cap: nat) {
    forall states: seq<State>, steps: seq<Step>, call: CallId ::
      Run(overlay, states, steps) && call in states[|steps|].calls && states[|steps|].calls[call].tcp.Some?
      && AllWithin(states, states[|steps|].calls[call].tcp.value.flow.src, n, cap)
      ==> states[|steps|].calls[call].retries <= |states[|steps|].calls[call].snapshot| + 1
  }

  /** With one sender connection a TCP call makes at most ten steps of its own for each client of its snapshot and
      twenty more, whatever else happens. */
  lemma OneSenderCallsEnd(overlay: Prefix, states: seq<State>, steps: seq<Step>, call: CallId)
    requires Run(overlay, states, steps) && call in states[|steps|].calls && states[|steps|].calls[call].tcp.Some?
    requires var f := states[|steps|].calls[call].tcp.value.flow;
             forall k :: 0 <= k < |states| ==> |Get(states[k].dir.vipMap, f.src)| <= 1
    ensures var c := states[|steps|].calls[call]; c.retries <= |c.snapshot| + 1 && c.steps <= 10 * (|c.snapshot| + 2)
  {
    OneSenderNeverOverlaps(overlay, states, steps, |steps|, states[|steps|].calls[call].tcp.value.flow);
    RetriesAreBounded(overlay, states, steps, |steps|, call);
  }

  /** On every overlay with a usable destination the bound holds exactly for at most one sender connection, whatever the
      capacity of the queues. */
  lemma BoundHoldsIffOneSender(overlay: Prefix, n: nat, cap: nat)
    requires cap > 0 && HasDestination(overlay)
    ensures BoundHolds(overlay, n, cap) <==> n <= 1
  {
    if n <= 1 {
      forall states: seq<State>, steps: seq<Step>, call: CallId |
        Run(overlay, states, steps) && call in states[|steps|].calls && states[|steps|].calls[call].tcp.Some?
        && AllWithin(states, states[|steps|].calls[call].tcp.value.flow.src, n, cap)
        ensures states[|steps|].calls[call].retries <= |states[|steps|].calls[call].snapshot| + 1
      {
        OneSenderCallsEnd(overlay, states, steps, call);
      }
    } else {
      var src, dst := SomePair(overlay);
      var states, steps, call := RetriesWithoutBound(overlay, src, dst, cap, 3);
      assert AllWithin(states, src, n, cap);
    }
  }
}
