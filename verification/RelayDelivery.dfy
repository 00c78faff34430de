/** Where the relay's packets go. While nothing else happens, the steps of one enqueue call can put its packet on
    exactly the queues named here by protocol number, and no others. */
module RelayDelivery {
  import opened Wrappers
  import opened Addr
  import opened Packet
  import opened EventLog
  import opened FlowTable
  import opened Registry
  import opened RelayModel
  import opened RelayRuns

  // ---- the reference ----------------------------------------------------------------------

  ghost predicate IsOpen(s: State, list: seq<ConnId>, x: ConnId) {
    x in list && x !in s.closed
  }

  /** The first open client of the list. */
  ghost predicate IsOldestOpen(s: State, list: seq<ConnId>, t: ConnId) {
    exists i :: 0 <= i < |list| && list[i] == t && t !in s.closed && forall j :: 0 <= j < i ==> list[j] in s.closed
  }

  ghost predicate HasRoom(s: State, x: ConnId) {
    x in s.chans && |s.chans[x].queue| < s.chans[x].cap
  }

  /** The queue is at least four fifths full. */
  ghost predicate IsLoaded(s: State, x: ConnId) {
    x in s.chans && s.chans[x].cap != 0 && 10 * |s.chans[x].queue| >= 8 * s.chans[x].cap
  }

  ghost predicate BoundAt(s: State, f: FlowKey, x: ConnId) {
    f in s.flows && s.flows[f].target == x && x !in s.closed
  }

  ghost predicate NotBound(s: State, f: FlowKey) {
    forall x :: !BoundAt(s, f, x)
  }

  /** SYN without ACK. */
  ghost predicate Opens(h: TCPHeader) {
    h.flags / 2 % 2 == 1 && h.flags / 16 % 2 == 0
  }

  /** TCP keeps to the client its flow is bound to. An unbound flow goes to the oldest open client, except that a SYN
      goes to another open client with room when that one is loaded. */
  ghost predicate TcpGoes(s: State, list: seq<ConnId>, h: TCPHeader, x: ConnId) {
    HasRoom(s, x) && (
      || BoundAt(s, h.flow, x)
      || (NotBound(s, h.flow) && exists t :: IsOldestOpen(s, list, t) && UnboundGoes(s, list, h, t, x)))
  }

  ghost predicate UnboundGoes(s: State, list: seq<ConnId>, h: TCPHeader, t: ConnId, x: ConnId) {
    if Opens(h) && IsLoaded(s, t) then
      || (x != t && IsOpen(s, list, x))
      || (x == t && ((exists sb :: sb != t && IsOpen(s, list, sb) && !HasRoom(s, sb))
                     || (forall sb :: sb != t ==> !IsOpen(s, list, sb))))
    else x == t
  }

  /** UDP goes to the oldest open client, or to another open one when that is full. */
  ghost predicate UdpGoes(s: State, list: seq<ConnId>, x: ConnId) {
    HasRoom(s, x) && exists t :: IsOldestOpen(s, list, t) && (x == t || (!HasRoom(s, t) && IsOpen(s, list, x)))
  }

  /** ICMP and everything else goes to the oldest open client. */
  ghost predicate OtherGoes(s: State, list: seq<ConnId>, x: ConnId) {
    HasRoom(s, x) && IsOldestOpen(s, list, x)
  }

  predicate Unicast(a: Addr) {
    !(0xE000_0000 <= a < 0xF000_0000) && a != 0xFFFF_FFFF
  }

  /** By protocol number: nothing goes to multicast and broadcast addresses, and neither does IGMP. */
  ghost predicate Goes(s: State, list: seq<ConnId>, pkt: Packet, x: ConnId) {
    && Unicast(pkt.dst) && pkt.ihl >= 0
    && if pkt.protocol == 6 then ParseTCP(pkt).Ok? && TcpGoes(s, list, ParseTCP(pkt).value, x)
       else if pkt.protocol == 17 then UdpGoes(s, list, x)
       else pkt.protocol != 2 && OtherGoes(s, list, x)
  }

  // ---- what the steps of a call can do ----------------------------------------------------

  /** Control points a call passes through on its own, one control step each. */
  ghost predicate Path(s: State, c: Call, pcs: seq<Pc>) {
    && pcs != [] && pcs[0] == c.pc
    && forall i :: 0 <= i < |pcs| - 1 ==> CanMove(s, c.(pc := pcs[i]), pcs[i + 1])
  }

  /** Steps of its own take the call to a channel send on the queue of `x`, and the channel has room. */
  ghost predicate CanDeliver(s: State, c: Call, x: ConnId) {
    exists pcs :: Path(s, c, pcs) && PushTarget(pcs[|pcs| - 1]) == Some(x) && Room(s, x)
  }

  ghost predicate CanReach(s: State, c: Call, pc: Pc) {
    exists pcs :: Path(s, c, pcs) && pcs[|pcs| - 1] == pc
  }

  lemma ReachStart(s: State, c: Call)
    ensures CanReach(s, c, c.pc)
  {
    assert Path(s, c, [c.pc]);
  }

  lemma ReachNext(s: State, c: Call, pc: Pc, pc': Pc)
    requires CanReach(s, c, pc) && CanMove(s, c.(pc := pc), pc')
    ensures CanReach(s, c, pc')
  {
    var pcs :| Path(s, c, pcs) && pcs[|pcs| - 1] == pc;
    assert Path(s, c, pcs + [pc']);
  }

  lemma DeliverIff(s: State, c: Call, x: ConnId)
    ensures CanDeliver(s, c, x) <==> exists pc :: CanReach(s, c, pc) && PushTarget(pc) == Some(x) && Room(s, x)
  {
    if CanDeliver(s, c, x) {
      var pcs :| Path(s, c, pcs) && PushTarget(pcs[|pcs| - 1]) == Some(x) && Room(s, x);
      assert CanReach(s, c, pcs[|pcs| - 1]);
    }
    if pc :| CanReach(s, c, pc) && PushTarget(pc) == Some(x) && Room(s, x) {
      var pcs :| Path(s, c, pcs) && pcs[|pcs| - 1] == pc;
    }
  }

  // ---- first open -------------------------------------------------------------------------

  lemma {:induction false} FirstOpenIsOldest(s: State, list: seq<ConnId>)
    ensures match FirstOpen(s.closed, list)
            case Some(t) => IsOldestOpen(s, list, t)
            case None => forall x :: !IsOpen(s, list, x)
  {
    if list != [] && list[0] in s.closed {
      FirstOpenIsOldest(s, list[1..]);
      var r := FirstOpen(s.closed, list[1..]);
      if r.Some? {
        var i :| 0 <= i < |list[1..]| && list[1..][i] == r.value && r.value !in s.closed
                 && forall j :: 0 <= j < i ==> list[1..][j] in s.closed;
        assert list[i + 1] == r.value;
        assert forall j :: 0 < j < i + 1 ==> list[j] == list[1..][j - 1];
      } else {
        forall x ensures !IsOpen(s, list, x) {
          assert !IsOpen(s, list[1..], x);
        }
      }
    }
  }

  lemma OldestIsUnique(s: State, list: seq<ConnId>, t: ConnId, t': ConnId)
    requires IsOldestOpen(s, list, t) && IsOldestOpen(s, list, t')
    ensures t == t'
  {}

  lemma OldestIs(s: State, list: seq<ConnId>, t: ConnId)
    ensures FirstOpen(s.closed, list) == Some(t) <==> IsOldestOpen(s, list, t)
    ensures FirstOpen(s.closed, list) == None ==> forall x :: !IsOpen(s, list, x)
  {
    FirstOpenIsOldest(s, list);
    if IsOldestOpen(s, list, t) {
      if FirstOpen(s.closed, list).Some? {
        OldestIsUnique(s, list, t, FirstOpen(s.closed, list).value);
      } else {
        assert IsOpen(s, list, t);
      }
    }
  }

  // ---- UDP --------------------------------------------------------------------------------

  /** The control points a UDP call can reach while nothing else happens. */
  ghost predicate UdpPlace(s: State, list: seq<ConnId>, pc: Pc) {
    var first := FirstOpen(s.closed, list);
    match pc
    case UdpSelect => true
    case UdpTry(t) => first == Some(t)
    case UdpStandby(p) => p == first && (p.Some? ==> !Room(s, p.value))
    case UdpTryStandby(p, sb) => p == first && (p.Some? ==> !Room(s, p.value)) && IsOpen(s, list, sb) && Some(sb) != p
    case UdpCheck(t) => first == Some(t) && !Room(s, t)
    case UdpWait(t) => first == Some(t) && !Room(s, t)
    case Done(_) => true
    case _ => false
  }

  lemma UdpStays(s: State, c: Call, pc: Pc)
    requires UdpPlace(s, c.snapshot, c.pc) && CanMove(s, c, pc)
    ensures UdpPlace(s, c.snapshot, pc)
  {
    OldestIs(s, c.snapshot, 0);
  }

  lemma {:induction false} UdpReaches(s: State, c: Call, pcs: seq<Pc>)
    requires Path(s, c, pcs) && c.pc == UdpSelect
    ensures UdpPlace(s, c.snapshot, pcs[|pcs| - 1])
  {
    if |pcs| > 1 {
      var front := pcs[..|pcs| - 1];
      assert Path(s, c, front);
      UdpReaches(s, c, front);
      UdpStays(s, c.(pc := front[|front| - 1]), pcs[|pcs| - 1]);
    }
  }

  lemma UdpDelivers(s: State, c: Call, x: ConnId)
    requires c.pc == UdpSelect
    ensures CanDeliver(s, c, x) <==> UdpGoes(s, c.snapshot, x)
  {
    if CanDeliver(s, c, x) {
      var pcs :| Path(s, c, pcs) && PushTarget(pcs[|pcs| - 1]) == Some(x) && Room(s, x);
      UdpReaches(s, c, pcs);
      UdpPlaceGoes(s, c.snapshot, pcs[|pcs| - 1], x);
    }
    if UdpGoes(s, c.snapshot, x) {
      var t :| IsOldestOpen(s, c.snapshot, t) && (x == t || (!HasRoom(s, t) && IsOpen(s, c.snapshot, x)));
      OldestReaches(s, c, t, x);
      DeliverIff(s, c, x);
    }
  }

  lemma OldestReaches(s: State, c: Call, t: ConnId, x: ConnId)
    requires c.pc == UdpSelect && IsOldestOpen(s, c.snapshot, t)
    requires x == t || (!HasRoom(s, t) && IsOpen(s, c.snapshot, x))
    ensures exists pc :: CanReach(s, c, pc) && PushTarget(pc) == Some(x)
  {
    OldestIs(s, c.snapshot, t);
    ReachStart(s, c);
    ReachNext(s, c, UdpSelect, UdpTry(t));
    if x == t {
      assert PushTarget(UdpTry(t)) == Some(x);
    } else {
      ReachNext(s, c, UdpTry(t), UdpStandby(Some(t)));
      ReachNext(s, c, UdpStandby(Some(t)), UdpTryStandby(Some(t), x));
      assert PushTarget(UdpTryStandby(Some(t), x)) == Some(x);
    }
  }

  lemma UdpPlaceGoes(s: State, list: seq<ConnId>, pc: Pc, x: ConnId)
    requires UdpPlace(s, list, pc) && PushTarget(pc) == Some(x) && Room(s, x)
    ensures UdpGoes(s, list, x)
  {
    OldestIs(s, list, x);
    if pc.UdpTryStandby? {
      if pc.p.Some? {
        OldestIs(s, list, pc.p.value);
      }
    }
  }

  // ---- ICMP and other protocols -----------------------------------------------------------

  ghost predicate TimedPlace(s: State, list: seq<ConnId>, pc: Pc) {
    var first := FirstOpen(s.closed, list);
    match pc
    case TimedSelect => true
    case TimedRecheck(t) => first == Some(t)
    case TimedWait(t) => first == Some(t)
    case Done(_) => true
    case _ => false
  }

  lemma {:induction false} TimedReaches(s: State, c: Call, pcs: seq<Pc>)
    requires Path(s, c, pcs) && c.pc == TimedSelect
    ensures TimedPlace(s, c.snapshot, pcs[|pcs| - 1])
  {
    if |pcs| > 1 {
      var front := pcs[..|pcs| - 1];
      assert Path(s, c, front);
      TimedReaches(s, c, front);
    }
  }

  lemma TimedDelivers(s: State, c: Call, x: ConnId)
    requires c.pc == TimedSelect
    ensures CanDeliver(s, c, x) <==> OtherGoes(s, c.snapshot, x)
  {
    OldestIs(s, c.snapshot, x);
    if CanDeliver(s, c, x) {
      var pcs :| Path(s, c, pcs) && PushTarget(pcs[|pcs| - 1]) == Some(x) && Room(s, x);
      TimedReaches(s, c, pcs);
    }
    if OtherGoes(s, c.snapshot, x) {
      ReachStart(s, c);
      ReachNext(s, c, TimedSelect, TimedRecheck(x));
      ReachNext(s, c, TimedRecheck(x), TimedWait(x));
      DeliverIff(s, c, x);
    }
  }

  // ---- TCP --------------------------------------------------------------------------------

  /** Some other open client has no room, or there is none: a SYN may fall back to the loaded client `t`. */
  ghost predicate FallsBack(s: State, list: seq<ConnId>, t: ConnId) {
    || (exists sb :: sb != t && IsOpen(s, list, sb) && !HasRoom(s, sb))
    || (forall sb :: sb != t ==> !IsOpen(s, list, sb))
  }

  /** The control points a TCP call can reach while nothing else happens. */
  ghost predicate TcpPlace(s: State, list: seq<ConnId>, h: TCPHeader, pc: Pc) {
    var first := FirstOpen(s.closed, list);
    var bound := BoundOpen(s, h.flow);
    match pc
    case Lookup => true
    case CheckBound(t) => BoundAt(s, h.flow, t)
    case WaitBound(t) => BoundAt(s, h.flow, t)
    case Select => !bound
    case Recheck(t) => !bound && first == Some(t)
    case Weigh(t) => !bound && first == Some(t)
    case Burst(t) => !bound && first == Some(t) && IsInitialSYN(h) && Pressure(s, t)
    case TryBurst(t, sb) =>
      !bound && first == Some(t) && IsInitialSYN(h) && Pressure(s, t) && sb != t && IsOpen(s, list, sb)
    case OfferBurst(t, sb) =>
      !bound && first == Some(t) && IsInitialSYN(h) && Pressure(s, t) && sb != t && IsOpen(s, list, sb)
    case CheckPrimary(t) => !bound && first == Some(t) && (IsInitialSYN(h) && Pressure(s, t) ==> FallsBack(s, list, t))
    case WaitPrimary(t) => !bound && first == Some(t) && (IsInitialSYN(h) && Pressure(s, t) ==> FallsBack(s, list, t))
    case Done(_) => true
    case _ => false
  }

  lemma TcpStays(s: State, c: Call, pc: Pc)
    requires c.tcp.Some? && TcpPlace(s, c.snapshot, c.tcp.value, c.pc) && CanMove(s, c, pc) && s.done <= s.closed
    ensures TcpPlace(s, c.snapshot, c.tcp.value, pc)
  {
    FirstOpenIsOldest(s, c.snapshot);
    if c.pc.Burst? && pc.CheckPrimary? {
      assert forall sb :: sb != c.pc.t ==> !IsOpen(s, c.snapshot, sb);
    }
  }

  lemma {:induction false} TcpReaches(s: State, c: Call, pcs: seq<Pc>)
    requires Path(s, c, pcs) && c.pc == Lookup && c.tcp.Some? && s.done <= s.closed
    ensures TcpPlace(s, c.snapshot, c.tcp.value, pcs[|pcs| - 1])
  {
    if |pcs| > 1 {
      var front := pcs[..|pcs| - 1];
      assert Path(s, c, front);
      TcpReaches(s, c, front);
      TcpStays(s, c.(pc := front[|front| - 1]), pcs[|pcs| - 1]);
    }
  }

  lemma OpensIs(h: TCPHeader)
    ensures Opens(h) <==> IsInitialSYN(h)
  {}

  lemma TcpPlaceGoes(s: State, list: seq<ConnId>, h: TCPHeader, pc: Pc, x: ConnId)
    requires TcpPlace(s, list, h, pc) && PushTarget(pc) == Some(x) && Room(s, x)
    ensures TcpGoes(s, list, h, x)
  {
    OpensIs(h);
    if pc.WaitBound? {
    } else {
      assert NotBound(s, h.flow);
      var t := FirstOpen(s.closed, list).value;
      OldestIs(s, list, t);
      assert UnboundGoes(s, list, h, t, x);
    }
  }

  lemma TcpDelivers(s: State, c: Call, x: ConnId)
    requires c.pc == Lookup && c.tcp.Some? && s.done <= s.closed
    ensures CanDeliver(s, c, x) <==> TcpGoes(s, c.snapshot, c.tcp.value, x)
  {
    var h := c.tcp.value;
    if CanDeliver(s, c, x) {
      var pcs :| Path(s, c, pcs) && PushTarget(pcs[|pcs| - 1]) == Some(x) && Room(s, x);
      TcpReaches(s, c, pcs);
      TcpPlaceGoes(s, c.snapshot, h, pcs[|pcs| - 1], x);
    }
    if TcpGoes(s, c.snapshot, h, x) {
      ReachStart(s, c);
      if BoundAt(s, h.flow, x) {
        ReachNext(s, c, Lookup, CheckBound(x));
        ReachNext(s, c, CheckBound(x), WaitBound(x));
      } else {
        var t :| IsOldestOpen(s, c.snapshot, t) && UnboundGoes(s, c.snapshot, h, t, x);
        UnboundReaches(s, c, t, x);
      }
      DeliverIff(s, c, x);
    }
  }

  lemma UnboundReaches(s: State, c: Call, t: ConnId, x: ConnId)
    requires c.pc == Lookup && c.tcp.Some? && NotBound(s, c.tcp.value.flow) && CanReach(s, c, Lookup)
    requires IsOldestOpen(s, c.snapshot, t) && UnboundGoes(s, c.snapshot, c.tcp.value, t, x) && HasRoom(s, x)
    ensures exists pc :: CanReach(s, c, pc) && PushTarget(pc) == Some(x)
  {
    OldestIs(s, c.snapshot, t);
    OpensIs(c.tcp.value);
    assert !BoundOpen(s, c.tcp.value.flow) by {
      if BoundOpen(s, c.tcp.value.flow) { assert BoundAt(s, c.tcp.value.flow, s.flows[c.tcp.value.flow].target); }
    }
    ReachNext(s, c, Lookup, Select);
    ReachNext(s, c, Select, Recheck(t));
    ReachNext(s, c, Recheck(t), Weigh(t));
    if Opens(c.tcp.value) && IsLoaded(s, t) {
      ReachNext(s, c, Weigh(t), Burst(t));
      BurstReaches(s, c, t, x);
    } else {
      ReachNext(s, c, Weigh(t), CheckPrimary(t));
      ReachNext(s, c, CheckPrimary(t), WaitPrimary(t));
      assert PushTarget(WaitPrimary(t)) == Some(x);
    }
  }

  lemma BurstReaches(s: State, c: Call, t: ConnId, x: ConnId)
    requires CanReach(s, c, Burst(t)) && t !in s.closed
    requires (x != t && IsOpen(s, c.snapshot, x)) || (x == t && FallsBack(s, c.snapshot, t))
    ensures exists pc :: CanReach(s, c, pc) && PushTarget(pc) == Some(x)
  {
    if x != t {
      ReachNext(s, c, Burst(t), TryBurst(t, x));
      ReachNext(s, c, TryBurst(t, x), OfferBurst(t, x));
      assert PushTarget(OfferBurst(t, x)) == Some(x);
    } else {
      if sb :| sb != t && IsOpen(s, c.snapshot, sb) && !HasRoom(s, sb) {
        ReachNext(s, c, Burst(t), TryBurst(t, sb));
        ReachNext(s, c, TryBurst(t, sb), OfferBurst(t, sb));
        ReachNext(s, c, OfferBurst(t, sb), CheckPrimary(t));
      } else {
        NobodyElse(s, c, t);
        ReachNext(s, c, Burst(t), CheckPrimary(t));
      }
      ReachNext(s, c, CheckPrimary(t), WaitPrimary(t));
      assert PushTarget(WaitPrimary(t)) == Some(x);
    }
  }

  lemma NobodyElse(s: State, c: Call, t: ConnId)
    requires forall sb :: sb != t ==> !IsOpen(s, c.snapshot, sb)
    ensures NoStandby(s, c, Some(t))
  {
    forall y | y in c.snapshot && Some(y) != Some(t) ensures y in s.closed {
      assert !IsOpen(s, c.snapshot, y);
    }
  }

  // ---- by protocol ------------------------------------------------------------------------

  /** A packet read from a connection starts a call exactly when it parses, carries its sender's address, and is
      destined to an overlay address with a registered client. The call is over at once exactly when the packet is for
      a multicast or broadcast address, is IGMP, or is TCP with a header that does not parse. */
  lemma AdmittedIff(overlay: Prefix, dir: Directory, flows: map<FlowKey, Binding<ConnId>>, from: ConnId, data: Bytes)
    ensures Admit(overlay, dir, flows, from, data).Some? <==>
              ParseIPv4(data).Ok?
              && var pkt := ParseIPv4(data).value;
                 from in dir.vipOf && pkt.src == dir.vipOf[from]
                 && Contains(overlay, pkt.dst) && Get(dir.vipMap, pkt.dst) != []
    ensures Admit(overlay, dir, flows, from, data).Some? ==>
              var c := Admit(overlay, dir, flows, from, data).value;
              && c.from == from && c.raw == data && ParseIPv4(data) == Ok(c.pkt) && c.pkt.ihl >= 0
              && c.snapshot == Get(dir.vipMap, c.pkt.dst)
              && (c.pc.Done? <==>
                    !Unicast(c.pkt.dst) || c.pkt.protocol == 2 || (c.pkt.protocol == 6 && ParseTCP(c.pkt).Err?))
              && (!c.pc.Done? && c.pkt.protocol == 6 ==> c.pc == Lookup && c.tcp == Some(ParseTCP(c.pkt).value))
              && (!c.pc.Done? && c.pkt.protocol == 17 ==> c.pc == UdpSelect)
              && (!c.pc.Done? && c.pkt.protocol !in {6, 17} ==> c.pc == TimedSelect)
  {
    if ParseIPv4(data).Ok? { ClassByProtocol(ParseIPv4(data).value); }
  }

  lemma DoneDeliversNothing(s: State, c: Call, x: ConnId)
    requires c.pc.Done?
    ensures !CanDeliver(s, c, x)
  {
    if CanDeliver(s, c, x) {
      var pcs :| Path(s, c, pcs) && PushTarget(pcs[|pcs| - 1]) == Some(x) && Room(s, x);
      if |pcs| > 1 {
        DoneStays(s, c, pcs[1]);
      }
    }
  }

  lemma DoneStays(s: State, c: Call, pc: Pc)
    requires c.pc.Done?
    ensures !CanMove(s, c, pc)
  {}

  /** While nothing else happens, a call can put its packet on exactly the queues its protocol allows. */
  lemma PacketGoesExactly(overlay: Prefix, s: State, from: ConnId, data: Bytes, c: Call, x: ConnId)
    requires Admit(overlay, s.dir, s.flows, from, data) == Some(c) && s.done <= s.closed
    ensures CanDeliver(s, c, x) <==> Goes(s, c.snapshot, c.pkt, x)
  {
    AdmittedIff(overlay, s.dir, s.flows, from, data);
    if c.pc.Done? {
      DoneDeliversNothing(s, c, x);
    } else if c.pkt.protocol == 6 {
      TcpDelivers(s, c, x);
    } else if c.pkt.protocol == 17 {
      UdpDelivers(s, c, x);
    } else {
      TimedDelivers(s, c, x);
    }
  }

  // ---- in a run ---------------------------------------------------------------------------

  /** Consecutive states joined by steps of one call. */
  ghost predicate OwnRun(overlay: Prefix, call: CallId, states: seq<State>, steps: seq<Step>) {
    && |states| == |steps| + 1
    && forall i :: 0 <= i < |steps| ==>
         steps[i].Enqueue? && steps[i].call == call && !steps[i].k.Begin?
         && Next(overlay, states[i], steps[i], states[i + 1])
  }

  lemma MoveIsNext(overlay: Prefix, s: State, call: CallId, pc: Pc, k: nat, pc': Pc)
    requires call in s.calls && CanMove(s, s.calls[call].(pc := pc), pc')
    ensures Next(overlay, At(s, call, pc, k), Enqueue(call, Move(pc')), At(s, call, pc', k + 1))
  {
    var s0 := At(s, call, pc, k);
    SameMoves(s, s0, s.calls[call].(pc := pc), s0.calls[call], pc');
    assert At(s, call, pc', k + 1).calls == s0.calls[call := Moved(s0.calls[call], pc')];
  }

  lemma {:induction false} PathIsRun(overlay: Prefix, s: State, call: CallId, pcs: seq<Pc>)
    returns (states: seq<State>, steps: seq<Step>, k: nat)
    requires call in s.calls && Path(s, s.calls[call], pcs)
    ensures OwnRun(overlay, call, states, steps) && states[0] == s
    ensures states[|steps|] == At(s, call, pcs[|pcs| - 1], k)
  {
    if |pcs| == 1 {
      StandsAt(s, call);
      states, steps, k := [s], [], s.calls[call].steps;
    } else {
      var front := pcs[..|pcs| - 1];
      assert Path(s, s.calls[call], front);
      var states0, steps0, k0 := PathIsRun(overlay, s, call, front);
      var pc, pc' := front[|front| - 1], pcs[|pcs| - 1];
      MoveIsNext(overlay, s, call, pc, k0, pc');
      k := k0 + 1;
      states, steps := OneMore(overlay, call, states0, steps0, Move(pc'), At(s, call, pc', k));
    }
  }

  lemma OneMore(overlay: Prefix, call: CallId, states: seq<State>, steps: seq<Step>, k: CallStep, s': State)
    returns (states': seq<State>, steps': seq<Step>)
    requires OwnRun(overlay, call, states, steps) && !k.Begin? && Next(overlay, states[|steps|], Enqueue(call, k), s')
    ensures OwnRun(overlay, call, states', steps') && states'[0] == states[0] && |steps'| == |steps| + 1
    ensures states'[|steps|] == states[|steps|] && states'[|steps'|] == s' && steps'[|steps|] == Enqueue(call, k)
  {
    states', steps' := states + [s'], steps + [Enqueue(call, k)];
  }

  /** What the call can reach it reaches in a run of its own steps, at the end of which its packet is the last one in
      the client's queue. */
  lemma DeliveryHappens(overlay: Prefix, s: State, call: CallId, x: ConnId)
    returns (states: seq<State>, steps: seq<Step>)
    requires call in s.calls && CanDeliver(s, s.calls[call], x)
    ensures OwnRun(overlay, call, states, steps) && states[0] == s && x in s.chans && x in states[|steps|].chans
    ensures states[|steps|].chans[x].queue == s.chans[x].queue + [FrameOf(call, s.calls[call])]
    ensures states[|steps|].log == s.log + [Accepted(FrameOf(call, s.calls[call]), x, Closes(s.calls[call]))]
  {
    var pcs :| Path(s, s.calls[call], pcs) && PushTarget(pcs[|pcs| - 1]) == Some(x) && Room(s, x);
    var states0, steps0, k := PathIsRun(overlay, s, call, pcs);
    var s1 := At(s, call, pcs[|pcs| - 1], k);
    var s2 := PushStep(s1, call, s1.calls[call], x);
    states, steps := OneMore(overlay, call, states0, steps0, Push(x), s2);
  }

  // ---- giving up and going round ----------------------------------------------------------

  /** No listed client is open, apart from a given one. */
  ghost predicate NobodyOpen(s: State, c: Call, but: Option<ConnId>) {
    forall x :: x in c.snapshot && Some(x) != but ==> x in s.closed
  }

  /** A call can give up exactly where it waits, where every listed client has closed, and, for UDP, where no queue took
      the packet and there is no open client to wait for. */
  lemma DropsExactlyWhen(s: State, c: Call)
    ensures CanMove(s, c, Done(false)) <==>
              || c.pc.WaitBound? || c.pc.WaitPrimary? || c.pc.UdpWait? || c.pc.TimedWait?
              || ((c.pc.Select? || c.pc.TimedSelect?) && NobodyOpen(s, c, None))
              || (c.pc.UdpStandby? && c.pc.p == None && NobodyOpen(s, c, None))
              || (c.pc.UdpTryStandby? && c.pc.p == None && !HasRoom(s, c.pc.sb))
              || (c.pc.UdpCheck? && c.pc.t in s.closed)
  {
    FirstOpenIsOldest(s, c.snapshot);
    if FirstOpen(s.closed, c.snapshot) == None {
      forall x | x in c.snapshot ensures x in s.closed { assert !IsOpen(s, c.snapshot, x); }
    }
  }

  /** A standby that closes or fills up after it was chosen does not cost the packet: it can still go to the primary. */
  lemma FailedBurstGoesToPrimary(s: State, c: Call, t: ConnId, sb: ConnId)
    requires t !in s.closed && HasRoom(s, t)
    requires (c.pc == TryBurst(t, sb) && sb in s.closed)
             || (c.pc == OfferBurst(t, sb) && (sb in s.done || !HasRoom(s, sb)))
    ensures CanDeliver(s, c, t)
  {
    ReachStart(s, c);
    ReachNext(s, c, c.pc, CheckPrimary(t));
    ReachNext(s, c, CheckPrimary(t), WaitPrimary(t));
    assert PushTarget(WaitPrimary(t)) == Some(t);
    DeliverIff(s, c, t);
  }

  /** UDP that no standby takes waits for the client it was offered to first, and can go there once it has room again.
      */
  lemma UdpComesBack(s: State, c: Call, t: ConnId)
    requires t !in s.closed && HasRoom(s, t)
    requires || c.pc == UdpCheck(t)
             || (c.pc == UdpStandby(Some(t)) && NobodyOpen(s, c, Some(t)))
             || (c.pc.UdpTryStandby? && c.pc.p == Some(t) && !HasRoom(s, c.pc.sb))
    ensures CanDeliver(s, c, t)
  {
    ReachStart(s, c);
    if !c.pc.UdpCheck? {
      ReachNext(s, c, c.pc, UdpCheck(t));
    }
    ReachNext(s, c, UdpCheck(t), UdpWait(t));
    assert PushTarget(UdpWait(t)) == Some(t);
    DeliverIff(s, c, t);
  }

  /** The client a call is about to use or waits for, outside the burst to a standby. */
  function Holds(pc: Pc): Option<ConnId> {
    match pc
    case CheckBound(t) => Some(t)
    case WaitBound(t) => Some(t)
    case Recheck(t) => Some(t)
    case CheckPrimary(t) => Some(t)
    case WaitPrimary(t) => Some(t)
    case TimedRecheck(t) => Some(t)
    case TimedWait(t) => Some(t)
    case _ => None
  }

  /** When that client has closed, the call can go back to the top of its loop, and a bound flow loses its binding. */
  lemma ClosedMeansAgain(overlay: Prefix, s: State, call: CallId, t: ConnId)
    returns (states: seq<State>, steps: seq<Step>)
    requires call in s.calls && Holds(s.calls[call].pc) == Some(t) && t in s.closed && t in s.done
    requires s.calls[call].tcp.Some? <==> !(s.calls[call].pc.TimedRecheck? || s.calls[call].pc.TimedWait?)
    ensures OwnRun(overlay, call, states, steps) && states[0] == s && call in states[|steps|].calls
    ensures var c, c' := s.calls[call], states[|steps|].calls[call];
            && c'.retries == c.retries + 1 && c'.pc == (if c.tcp.Some? then Lookup else TimedSelect)
            && (c.pc.CheckBound? || c.pc.WaitBound? ==> c.tcp.value.flow !in states[|steps|].flows)
  {
    var c := s.calls[call];
    states, steps := [s], [];
    if c.pc.CheckBound? || c.pc.WaitBound? {
      states, steps := BoundMeansAgain(overlay, s, call, t);
    } else {
      states, steps := OneMore(overlay, call, states, steps, Retry, s.(calls := s.calls[call := Again(c)]));
    }
  }

  lemma BoundMeansAgain(overlay: Prefix, s: State, call: CallId, t: ConnId)
    returns (states: seq<State>, steps: seq<Step>)
    requires call in s.calls && (s.calls[call].pc == CheckBound(t) || s.calls[call].pc == WaitBound(t))
    requires t in s.closed && t in s.done && s.calls[call].tcp.Some?
    ensures OwnRun(overlay, call, states, steps) && states[0] == s && call in states[|steps|].calls
    ensures var c, c' := s.calls[call], states[|steps|].calls[call];
            c'.retries == c.retries + 1 && c'.pc == Lookup && c.tcp.value.flow !in states[|steps|].flows
  {
    var c := s.calls[call];
    StandsAt(s, call);
    MoveIsNext(overlay, s, call, c.pc, c.steps, DropBound);
    var s1 := At(s, call, DropBound, c.steps + 1);
    states, steps := OneMore(overlay, call, [s], [], Move(DropBound), s1);
    states, steps := OneMore(overlay, call, states, steps, Unbind, UnbindStep(s1, call, s1.calls[call]));
  }
}
