/** Where the pool's packets go. While nothing else happens, the steps of the pump's call can put its packet on exactly
    the queues named here by protocol number, and no others. */
module PoolDelivery {
  import opened Wrappers
  import opened Addr
  import opened Packet
  import opened EventLog
  import opened FlowTable
  import opened PoolRoles
  import opened PoolMonitor
  import opened PoolModel

  // ---- the reference ----------------------------------------------------------------------

  ghost predicate Plays(s: State, x: ConnId, r: Role) {
    x in s.alive && x in s.core.roles.role && s.core.roles.role[x] == r
  }

  /** The first live member with a given role. */
  ghost predicate IsFirst(s: State, r: Role, t: ConnId) {
    exists i :: 0 <= i < |s.core.conns| && s.core.conns[i] == t && Plays(s, t, r)
      && forall j :: 0 <= j < i ==> !Plays(s, s.core.conns[j], r)
  }

  ghost predicate IsStandby(s: State, x: ConnId) {
    x in s.core.conns && Plays(s, x, Standby)
  }

  ghost predicate HasRoom(s: State, x: ConnId) {
    x in s.chans && |s.chans[x].queue| < s.chans[x].cap
  }

  /** The queue is at least four fifths full. */
  ghost predicate IsLoaded(s: State, x: ConnId) {
    x in s.chans && s.chans[x].cap != 0 && 10 * |s.chans[x].queue| >= 8 * s.chans[x].cap
  }

  ghost predicate BoundAt(s: State, f: FlowKey, x: ConnId) {
    f in s.flows && s.flows[f].target == x && x in s.alive && x in s.core.roles.role && s.core.roles.role[x] != Draining
  }

  ghost predicate NotBound(s: State, f: FlowKey) {
    forall x :: !BoundAt(s, f, x)
  }

  /** SYN without ACK. */
  ghost predicate Opens(h: TCPHeader) {
    h.flags / 2 % 2 == 1 && h.flags / 16 % 2 == 0
  }

  /** TCP keeps to the connection its flow is bound to. An unbound flow goes to the primary, except that a SYN goes to a
      standby with room when the primary is degraded or loaded. */
  ghost predicate TcpGoes(s: State, h: TCPHeader, x: ConnId) {
    HasRoom(s, x) && (
      || BoundAt(s, h.flow, x)
      || (NotBound(s, h.flow) && exists t :: IsFirst(s, Primary, t) && UnboundGoes(s, h, t, x)))
  }

  ghost predicate UnboundGoes(s: State, h: TCPHeader, t: ConnId, x: ConnId) {
    if Opens(h) && (t in s.core.degraded || IsLoaded(s, t)) then IsStandby(s, x) || (x == t && FallsBack(s))
    else x == t
  }

  /** Some standby has no room, or there is none. */
  ghost predicate FallsBack(s: State) {
    (exists sb :: IsStandby(s, sb) && !HasRoom(s, sb)) || (forall sb :: !IsStandby(s, sb))
  }

  /** UDP goes to the first connection with room among the primaries and then the standbys, in pool order. */
  ghost predicate UdpGoes(s: State, x: ConnId) {
    HasRoom(s, x) && (
      || (exists i :: 0 <= i < |s.core.conns| && s.core.conns[i] == x && Plays(s, x, Primary)
            && forall j :: 0 <= j < i && Plays(s, s.core.conns[j], Primary) ==> !HasRoom(s, s.core.conns[j]))
      || (exists i :: 0 <= i < |s.core.conns| && s.core.conns[i] == x && Plays(s, x, Standby)
            && (forall j :: 0 <= j < i && Plays(s, s.core.conns[j], Standby) ==> !HasRoom(s, s.core.conns[j]))
            && forall p :: p in s.core.conns && Plays(s, p, Primary) ==> !HasRoom(s, p)))
  }

  /** ICMP and everything else goes to the primary. */
  ghost predicate OtherGoes(s: State, x: ConnId) {
    HasRoom(s, x) && IsFirst(s, Primary, x)
  }

  predicate Unicast(a: Addr) {
    !(0xE000_0000 <= a < 0xF000_0000) && a != 0xFFFF_FFFF
  }

  /** By protocol number: nothing goes to multicast and broadcast addresses, and neither does IGMP. */
  ghost predicate Goes(s: State, pkt: Packet, x: ConnId) {
    && Unicast(pkt.dst) && pkt.ihl >= 0
    && if pkt.protocol == 6 then ParseTCP(pkt).Ok? && TcpGoes(s, ParseTCP(pkt).value, x)
       else if pkt.protocol == 17 then UdpGoes(s, x)
       else pkt.protocol != 2 && OtherGoes(s, x)
  }

  // ---- what the steps of a call can do ----------------------------------------------------

  /** Control points a call passes through on its own, one control step each. */
  ghost predicate Path(s: State, c: Call, pcs: seq<Pc>) {
    && pcs != [] && pcs[0] == c.pc
    && forall i :: 0 <= i < |pcs| - 1 ==> CanMove(s, c.(pc := pcs[i]), pcs[i + 1])
  }

  ghost predicate CanReach(s: State, c: Call, pc: Pc) {
    exists pcs :: Path(s, c, pcs) && pcs[|pcs| - 1] == pc
  }

  /** Steps of its own take the call to a channel send on the queue of `x`, and the channel has room. */
  ghost predicate CanDeliver(s: State, c: Call, x: ConnId) {
    exists pc :: CanReach(s, c, pc) && PushTarget(pc) == Some(x) && Room(s, x)
  }

  lemma ReachStart(s: State, c: Call)
    ensures CanReach(s, c, c.pc)
  {
    assert Path(s, c, [c.pc]);
  }

  lemma ReachNext(s: State, c: Call, pc: Pc, pc': Pc)
    requires CanReach(s, c, pc) && CanMove(s, c.(pc := pc), pc')
    ensures CanReach(s, c, pc')
  {
    var pcs :| Path(s, c, pcs) && pcs[|pcs| - 1] == pc;
    assert Path(s, c, pcs + [pc']);
  }

  // ---- first members ----------------------------------------------------------------------

  lemma {:induction false} FirstWithAt(s: State, conns: seq<ConnId>, r: Role)
    ensures match FirstWith(conns, s.alive, s.core.roles.role, r)
            case Some(t) => exists i :: 0 <= i < |conns| && conns[i] == t && Plays(s, t, r)
                              && forall j :: 0 <= j < i ==> !Plays(s, conns[j], r)
            case None => forall x :: x in conns ==> !Plays(s, x, r)
  {
    if conns != [] && !Plays(s, conns[0], r) {
      FirstWithAt(s, conns[1..], r);
      var f := FirstWith(conns[1..], s.alive, s.core.roles.role, r);
      if f.Some? {
        var i :| 0 <= i < |conns[1..]| && conns[1..][i] == f.value && Plays(s, f.value, r)
                 && forall j :: 0 <= j < i ==> !Plays(s, conns[1..][j], r);
        assert conns[i + 1] == f.value;
        assert forall j :: 0 < j < i + 1 ==> conns[j] == conns[1..][j - 1];
      }
    }
  }

  lemma FirstIsUnique(s: State, r: Role, t: ConnId, t': ConnId)
    requires IsFirst(s, r, t) && IsFirst(s, r, t')
    ensures t == t'
  {}

  lemma PrimaryIs(s: State, t: ConnId)
    ensures PrimaryNow(s) == Some(t) <==> IsFirst(s, Primary, t)
    ensures PrimaryNow(s) == None ==> forall x :: x in s.core.conns ==> !Plays(s, x, Primary)
  {
    FirstWithAt(s, s.core.conns, Primary);
    if IsFirst(s, Primary, t) && PrimaryNow(s).Some? {
      FirstIsUnique(s, Primary, t, PrimaryNow(s).value);
    }
  }

  // ---- ICMP and other protocols -----------------------------------------------------------

  ghost predicate TimedPlace(s: State, pc: Pc) {
    match pc
    case Seek => true
    case Look => true
    case MustEnsure => true
    case TimedCheck(t) => PrimaryNow(s) == Some(t)
    case TimedWait(t) => PrimaryNow(s) == Some(t)
    case Done(_) => true
    case LookAgain => true
    case _ => false
  }

  lemma {:induction false} TimedReaches(s: State, c: Call, pcs: seq<Pc>)
    requires Path(s, c, pcs) && (c.pc == Seek || c.pc == LookAgain) && c.tcp == None
    ensures TimedPlace(s, pcs[|pcs| - 1])
  {
    if |pcs| > 1 {
      var front := pcs[..|pcs| - 1];
      assert Path(s, c, front);
      TimedReaches(s, c, front);
    }
  }

  lemma TimedDelivers(s: State, c: Call, x: ConnId)
    requires (c.pc == Seek || c.pc == LookAgain) && c.tcp == None && s.live
    ensures CanDeliver(s, c, x) <==> OtherGoes(s, x)
  {
    PrimaryIs(s, x);
    if CanDeliver(s, c, x) {
      var pc :| CanReach(s, c, pc) && PushTarget(pc) == Some(x) && Room(s, x);
      var pcs :| Path(s, c, pcs) && pcs[|pcs| - 1] == pc;
      TimedReaches(s, c, pcs);
    }
    if OtherGoes(s, x) {
      PrimaryIsAlive(s, x);
      FoundIsReached(s, c, x);
      ReachNext(s, c, TimedCheck(x), TimedWait(x));
      assert PushTarget(TimedWait(x)) == Some(x);
    }
  }

  lemma PrimaryIsAlive(s: State, t: ConnId)
    requires IsFirst(s, Primary, t)
    ensures t in s.alive && t in s.core.conns
  {}

  /** `primaryOrWait` comes back with the primary. */
  lemma FoundIsReached(s: State, c: Call, t: ConnId)
    requires (c.pc == Seek || c.pc == LookAgain) && s.live && PrimaryNow(s) == Some(t)
    ensures CanReach(s, c, Found(c, t))
  {
    ReachStart(s, c);
    if c.pc == Seek {
      ReachNext(s, c, Seek, Look);
      ReachNext(s, c, Look, Found(c, t));
    } else {
      ReachNext(s, c, LookAgain, Found(c, t));
    }
  }

  // ---- TCP --------------------------------------------------------------------------------

  ghost predicate Burst(s: State, h: TCPHeader) {
    IsInitialSYN(h) && BurstAllowed(s)
  }

  /** The control points a TCP call can reach while nothing else happens. */
  ghost predicate TcpPlace(s: State, h: TCPHeader, pc: Pc) {
    var bound := BoundUsable(s, h.flow);
    match pc
    case Top => true
    case Lookup => true
    case CheckBound(t) => BoundAt(s, h.flow, t)
    case WaitBound(t) => BoundAt(s, h.flow, t)
    case Seek => !bound
    case Look => !bound
    case MustEnsure => !bound
    case LookAgain => !bound
    case Weigh(t) => !bound && PrimaryNow(s) == Some(t)
    case TryBurst(t, sb) => !bound && PrimaryNow(s) == Some(t) && Burst(s, h) && IsStandby(s, sb)
    case OfferBurst(t, sb) => !bound && PrimaryNow(s) == Some(t) && Burst(s, h) && IsStandby(s, sb)
    case CheckPrimary(t) => !bound && PrimaryNow(s) == Some(t) && (Burst(s, h) ==> FallsBack(s))
    case WaitPrimary(t) => !bound && PrimaryNow(s) == Some(t) && (Burst(s, h) ==> FallsBack(s))
    case Done(_) => true
    case _ => false
  }

  /** No live connection has signalled its end. */
  ghost predicate DoneAreDead(s: State) {
    forall id :: id in s.done ==> id !in s.alive
  }

  lemma StandbyIs(s: State, x: ConnId)
    ensures IsStandby(s, x) <==> LiveStandby(s, x)
  {}

  lemma TcpStays(s: State, c: Call, pc: Pc)
    requires c.tcp.Some? && TcpPlace(s, c.tcp.value, c.pc) && CanMove(s, c, pc) && DoneAreDead(s)
    ensures TcpPlace(s, c.tcp.value, pc)
  {
    if c.pc.Weigh? && pc.CheckPrimary? && Burst(s, c.tcp.value) {
      forall sb ensures !IsStandby(s, sb) {
        StandbyIs(s, sb);
      }
    }
    if PrimaryNow(s).Some? {
      PrimaryIs(s, PrimaryNow(s).value);
      PrimaryIsAlive(s, PrimaryNow(s).value);
    }
  }

  ghost predicate TcpStart(s: State, c: Call) {
    c.tcp.Some? && (c.pc == Top || (c.pc == LookAgain && !BoundUsable(s, c.tcp.value.flow)))
  }

  lemma {:induction false} TcpReaches(s: State, c: Call, pcs: seq<Pc>)
    requires Path(s, c, pcs) && TcpStart(s, c) && DoneAreDead(s)
    ensures TcpPlace(s, c.tcp.value, pcs[|pcs| - 1])
  {
    if |pcs| > 1 {
      var front := pcs[..|pcs| - 1];
      assert Path(s, c, front);
      TcpReaches(s, c, front);
      TcpStays(s, c.(pc := front[|front| - 1]), pcs[|pcs| - 1]);
    }
  }

  lemma BurstIs(s: State, h: TCPHeader, t: ConnId)
    requires PrimaryNow(s) == Some(t)
    ensures Burst(s, h) <==> Opens(h) && (t in s.core.degraded || IsLoaded(s, t))
  {}

  lemma TcpPlaceGoes(s: State, h: TCPHeader, pc: Pc, x: ConnId)
    requires TcpPlace(s, h, pc) && PushTarget(pc) == Some(x) && Room(s, x)
    ensures TcpGoes(s, h, x)
  {
    if !pc.WaitBound? {
      assert NotBound(s, h.flow);
      var t := PrimaryNow(s).value;
      PrimaryIs(s, t);
      BurstIs(s, h, t);
      assert UnboundGoes(s, h, t, x);
    }
  }

  lemma TcpDelivers(s: State, c: Call, x: ConnId)
    requires TcpStart(s, c) && s.live && DoneAreDead(s)
    ensures CanDeliver(s, c, x) <==> TcpGoes(s, c.tcp.value, x)
  {
    var h := c.tcp.value;
    if CanDeliver(s, c, x) {
      var pc :| CanReach(s, c, pc) && PushTarget(pc) == Some(x) && Room(s, x);
      var pcs :| Path(s, c, pcs) && pcs[|pcs| - 1] == pc;
      TcpReaches(s, c, pcs);
      TcpPlaceGoes(s, h, pc, x);
    }
    if TcpGoes(s, h, x) {
      if BoundAt(s, h.flow, x) {
        BoundReaches(s, c, x);
      } else {
        var t :| IsFirst(s, Primary, t) && UnboundGoes(s, h, t, x);
        PrimaryIs(s, t);
        WeighIsReached(s, c, t);
        WeighReaches(s, c, t, x);
      }
    }
  }

  lemma BoundReaches(s: State, c: Call, x: ConnId)
    requires TcpStart(s, c) && s.live && BoundAt(s, c.tcp.value.flow, x)
    ensures CanReach(s, c, WaitBound(x)) && PushTarget(WaitBound(x)) == Some(x)
  {
    ReachStart(s, c);
    ReachNext(s, c, Top, Lookup);
    ReachNext(s, c, Lookup, CheckBound(x));
    ReachNext(s, c, CheckBound(x), WaitBound(x));
  }

  lemma WeighIsReached(s: State, c: Call, t: ConnId)
    requires TcpStart(s, c) && s.live && NotBound(s, c.tcp.value.flow) && PrimaryNow(s) == Some(t)
    ensures CanReach(s, c, Weigh(t))
  {
    if c.pc == Top {
      assert !BoundUsable(s, c.tcp.value.flow) by {
        if BoundUsable(s, c.tcp.value.flow) { assert BoundAt(s, c.tcp.value.flow, s.flows[c.tcp.value.flow].target); }
      }
      ReachStart(s, c);
      ReachNext(s, c, Top, Lookup);
      ReachNext(s, c, Lookup, Seek);
      ReachNext(s, c, Seek, Look);
      ReachNext(s, c, Look, Weigh(t));
    } else {
      FoundIsReached(s, c, t);
    }
  }

  lemma WeighReaches(s: State, c: Call, t: ConnId, x: ConnId)
    requires c.tcp.Some? && CanReach(s, c, Weigh(t)) && IsFirst(s, Primary, t) && UnboundGoes(s, c.tcp.value, t, x)
    ensures exists pc :: CanReach(s, c, pc) && PushTarget(pc) == Some(x)
  {
    PrimaryIs(s, t);
    PrimaryIsAlive(s, t);
    BurstIs(s, c.tcp.value, t);
    if Burst(s, c.tcp.value) && x != t {
      ReachNext(s, c, Weigh(t), TryBurst(t, x));
      ReachNext(s, c, TryBurst(t, x), OfferBurst(t, x));
      assert PushTarget(OfferBurst(t, x)) == Some(x);
    } else {
      if Burst(s, c.tcp.value) {
        PrimaryIsNoStandby(s, t);
        FallbackReaches(s, c, t);
      } else {
        ReachNext(s, c, Weigh(t), CheckPrimary(t));
      }
      ReachNext(s, c, CheckPrimary(t), WaitPrimary(t));
      assert PushTarget(WaitPrimary(t)) == Some(x);
    }
  }

  lemma PrimaryIsNoStandby(s: State, t: ConnId)
    requires IsFirst(s, Primary, t)
    ensures !IsStandby(s, t)
  {}

  lemma FallbackReaches(s: State, c: Call, t: ConnId)
    requires c.tcp.Some? && CanReach(s, c, Weigh(t)) && Burst(s, c.tcp.value) && FallsBack(s)
    ensures CanReach(s, c, CheckPrimary(t))
  {
    if sb :| IsStandby(s, sb) && !HasRoom(s, sb) {
      ReachNext(s, c, Weigh(t), TryBurst(t, sb));
      ReachNext(s, c, TryBurst(t, sb), OfferBurst(t, sb));
      ReachNext(s, c, OfferBurst(t, sb), CheckPrimary(t));
    } else {
      forall x | x in s.core.conns ensures !LiveStandby(s, x) {
        assert !IsStandby(s, x);
      }
      ReachNext(s, c, Weigh(t), CheckPrimary(t));
    }
  }

  // ---- UDP --------------------------------------------------------------------------------

  /** The live members with a role, by position. */
  lemma {:induction false} MembersWith(s: State, conns: seq<ConnId>, r: Role)
    ensures forall x :: x in AllWith(conns, s.alive, s.core.roles.role, r) <==> x in conns && Plays(s, x, r)
  {
    if conns != [] { MembersWith(s, conns[1..], r); }
  }

  /** `x` is the first of the list with room. */
  ghost predicate FirstWithRoom(s: State, list: seq<ConnId>, x: ConnId) {
    HasRoom(s, x) && exists i :: 0 <= i < |list| && list[i] == x && forall j :: 0 <= j < i ==> !HasRoom(s, list[j])
  }

  ghost predicate FirstOfRoleWithRoom(s: State, conns: seq<ConnId>, r: Role, x: ConnId) {
    HasRoom(s, x) && exists i ::
      0 <= i < |conns| && conns[i] == x && Plays(s, x, r)
      && forall j :: 0 <= j < i && Plays(s, conns[j], r) ==> !HasRoom(s, conns[j])
  }

  lemma FirstWithRoomStep(s: State, list: seq<ConnId>, x: ConnId)
    ensures FirstWithRoom(s, list, x) <==>
              list != [] && (if HasRoom(s, list[0]) then x == list[0] else FirstWithRoom(s, list[1..], x))
  {
    if list != [] && !HasRoom(s, list[0]) {
      if FirstWithRoom(s, list, x) {
        var i :| 0 <= i < |list| && list[i] == x && forall j :: 0 <= j < i ==> !HasRoom(s, list[j]);
        assert list[1..][i - 1] == x;
      }
      if FirstWithRoom(s, list[1..], x) {
        var i :| 0 <= i < |list[1..]| && list[1..][i] == x && forall j :: 0 <= j < i ==> !HasRoom(s, list[1..][j]);
        assert list[i + 1] == x;
        assert forall j :: 0 < j < i + 1 ==> list[j] == list[1..][j - 1];
      }
    }
  }

  lemma FirstOfRoleStep(s: State, conns: seq<ConnId>, r: Role, x: ConnId)
    ensures FirstOfRoleWithRoom(s, conns, r, x) <==>
              conns != [] && (if Plays(s, conns[0], r) && HasRoom(s, conns[0]) then x == conns[0]
                              else FirstOfRoleWithRoom(s, conns[1..], r, x))
  {
    if conns != [] && !(Plays(s, conns[0], r) && HasRoom(s, conns[0])) {
      if FirstOfRoleWithRoom(s, conns, r, x) {
        var i :| 0 <= i < |conns| && conns[i] == x && Plays(s, x, r)
                 && forall j :: 0 <= j < i && Plays(s, conns[j], r) ==> !HasRoom(s, conns[j]);
        assert conns[1..][i - 1] == x;
      }
      if FirstOfRoleWithRoom(s, conns[1..], r, x) {
        var i :| 0 <= i < |conns[1..]| && conns[1..][i] == x && Plays(s, x, r)
                 && forall j :: 0 <= j < i && Plays(s, conns[1..][j], r) ==> !HasRoom(s, conns[1..][j]);
        assert conns[i + 1] == x;
        assert forall j :: 0 < j < i + 1 ==> conns[j] == conns[1..][j - 1];
      }
    }
  }

  lemma {:induction false} RoleListHasFirst(s: State, conns: seq<ConnId>, r: Role, x: ConnId)
    ensures FirstWithRoom(s, AllWith(conns, s.alive, s.core.roles.role, r), x) <==> FirstOfRoleWithRoom(s, conns, r, x)
  {
    var list := AllWith(conns, s.alive, s.core.roles.role, r);
    FirstWithRoomStep(s, list, x);
    FirstOfRoleStep(s, conns, r, x);
    if conns != [] {
      RoleListHasFirst(s, conns[1..], r, x);
      if Plays(s, conns[0], r) {
        assert list[1..] == AllWith(conns[1..], s.alive, s.core.roles.role, r);
      }
    }
  }

  lemma {:induction false} ConcatHasFirst(s: State, a: seq<ConnId>, b: seq<ConnId>, x: ConnId)
    ensures FirstWithRoom(s, a + b, x) <==>
              FirstWithRoom(s, a, x) || ((forall y :: y in a ==> !HasRoom(s, y)) && FirstWithRoom(s, b, x))
  {
    FirstWithRoomStep(s, a + b, x);
    FirstWithRoomStep(s, a, x);
    if a == [] {
      assert a + b == b;
    } else {
      assert (a + b)[1..] == a[1..] + b;
      ConcatHasFirst(s, a[1..], b, x);
      assert forall y :: y in a <==> y == a[0] || y in a[1..];
    }
  }

  lemma CandidatesHaveFirst(s: State, x: ConnId)
    ensures FirstWithRoom(s, Candidates(s), x) <==> UdpGoes(s, x)
  {
    var role := s.core.roles.role;
    ConcatHasFirst(s, AllWith(s.core.conns, s.alive, role, Primary), AllWith(s.core.conns, s.alive, role, Standby), x);
    RoleListHasFirst(s, s.core.conns, Primary, x);
    RoleListHasFirst(s, s.core.conns, Standby, x);
    MembersWith(s, s.core.conns, Primary);
  }

  /** What is left of the list when everything before it has no room. */
  ghost predicate Rest(s: State, rest: seq<ConnId>) {
    var list := Candidates(s);
    && |rest| <= |list| && rest == list[|list| - |rest|..]
    && forall j :: 0 <= j < |list| - |rest| ==> !HasRoom(s, list[j])
  }

  ghost predicate UdpPlace(s: State, pc: Pc) {
    match pc
    case UdpList => true
    case UdpTry(rest) => Rest(s, rest)
    case UdpOffer(rest) => Rest(s, rest) && rest != []
    case UdpPrimary => Rest(s, [])
    case UdpCheck(t) => Rest(s, []) && PrimaryNow(s) == Some(t)
    case UdpWait(t) => Rest(s, []) && PrimaryNow(s) == Some(t)
    case Done(_) => true
    case _ => false
  }

  lemma CandidatesAreAlive(s: State, x: ConnId)
    requires x in Candidates(s)
    ensures x in s.alive
  {
    MembersWith(s, s.core.conns, Primary);
    MembersWith(s, s.core.conns, Standby);
  }

  lemma UdpStays(s: State, c: Call, pc: Pc)
    requires UdpPlace(s, c.pc) && CanMove(s, c, pc) && DoneAreDead(s)
    ensures UdpPlace(s, pc)
  {
    if c.pc.UdpTry? && c.pc.rest != [] {
      CandidatesAreAlive(s, c.pc.rest[0]);
    } else if c.pc.UdpOffer? {
      CandidatesAreAlive(s, c.pc.rest[0]);
      RestShrinks(s, c.pc.rest);
    }
  }

  lemma RestShrinks(s: State, rest: seq<ConnId>)
    requires Rest(s, rest) && rest != [] && !HasRoom(s, rest[0])
    ensures Rest(s, rest[1..])
  {
    var list := Candidates(s);
    assert list[|list| - |rest|] == rest[0];
  }

  lemma {:induction false} UdpReaches(s: State, c: Call, pcs: seq<Pc>)
    requires Path(s, c, pcs) && c.pc == UdpList && DoneAreDead(s)
    ensures UdpPlace(s, pcs[|pcs| - 1])
  {
    if |pcs| > 1 {
      var front := pcs[..|pcs| - 1];
      assert Path(s, c, front);
      UdpReaches(s, c, front);
      UdpStays(s, c.(pc := front[|front| - 1]), pcs[|pcs| - 1]);
    }
  }

  lemma {:induction false} OfferIsReached(s: State, c: Call, i: nat)
    requires c.pc == UdpList && i < |Candidates(s)| && forall j :: 0 <= j < i ==> !HasRoom(s, Candidates(s)[j])
    ensures CanReach(s, c, UdpOffer(Candidates(s)[i..]))
  {
    var list := Candidates(s);
    CandidatesAreAlive(s, list[i]);
    if i == 0 {
      ReachStart(s, c);
      ReachNext(s, c, UdpList, UdpTry(list));
      assert list[0..] == list;
    } else {
      OfferIsReached(s, c, i - 1);
      assert list[i - 1..][1..] == list[i..] && list[i - 1..][0] == list[i - 1];
      ReachNext(s, c, UdpOffer(list[i - 1..]), UdpTry(list[i..]));
    }
    ReachNext(s, c, UdpTry(list[i..]), UdpOffer(list[i..]));
  }

  lemma UdpDelivers(s: State, c: Call, x: ConnId)
    requires c.pc == UdpList && DoneAreDead(s)
    ensures CanDeliver(s, c, x) <==> UdpGoes(s, x)
  {
    CandidatesHaveFirst(s, x);
    if CanDeliver(s, c, x) {
      var pc :| CanReach(s, c, pc) && PushTarget(pc) == Some(x) && Room(s, x);
      var pcs :| Path(s, c, pcs) && pcs[|pcs| - 1] == pc;
      UdpReaches(s, c, pcs);
      UdpPlaceIsFirst(s, pc, x);
    }
    if FirstWithRoom(s, Candidates(s), x) {
      var i :| 0 <= i < |Candidates(s)| && Candidates(s)[i] == x
               && forall j :: 0 <= j < i ==> !HasRoom(s, Candidates(s)[j]);
      OfferIsReached(s, c, i);
      assert PushTarget(UdpOffer(Candidates(s)[i..])) == Some(x);
    }
  }

  lemma UdpPlaceIsFirst(s: State, pc: Pc, x: ConnId)
    requires UdpPlace(s, pc) && PushTarget(pc) == Some(x) && Room(s, x)
    ensures FirstWithRoom(s, Candidates(s), x)
  {
    var list := Candidates(s);
    if pc.UdpOffer? {
      assert list[|list| - |pc.rest|] == x;
    } else {
      PrimaryIsFull(s, x);
    }
  }

  lemma PrimaryIsFull(s: State, t: ConnId)
    requires Rest(s, []) && PrimaryNow(s) == Some(t)
    ensures !HasRoom(s, t)
  {
    var list := Candidates(s);
    PrimaryIs(s, t);
    PrimaryIsAlive(s, t);
    MembersWith(s, s.core.conns, Primary);
    assert t in AllWith(s.core.conns, s.alive, s.core.roles.role, Primary) && t in list;
    var i :| 0 <= i < |list| && list[i] == t;
    assert !HasRoom(s, list[i]);
  }

  // ---- by protocol ------------------------------------------------------------------------

  /** A packet the pump reads starts a call exactly when it parses. The call is over at once exactly when the packet is
      for a multicast or broadcast address, is IGMP, or is TCP with a header that does not parse. */
  lemma BegunIs(s: State, call: CallId, data: Bytes, s': State)
    requires BeginNext(s, call, data, s')
    ensures ParseIPv4(data).Err? ==> s' == s
    ensures ParseIPv4(data).Ok? ==>
              var pkt := ParseIPv4(data).value;
              && call in s'.calls && s'.cur == call && s' == s.(calls := s'.calls, cur := call) && pkt.ihl >= 0
              && s'.calls == s.calls[call := s'.calls[call]]
              && var c := s'.calls[call];
                 && (c.pc.Done? <==>
                       !Unicast(pkt.dst) || pkt.protocol == 2 || (pkt.protocol == 6 && ParseTCP(pkt).Err?))
                 && (!c.pc.Done? && pkt.protocol == 6 ==> c == Call(Some(ParseTCP(pkt).value), Top))
                 && (!c.pc.Done? && pkt.protocol == 17 ==> c == Call(None, UdpList))
                 && (!c.pc.Done? && pkt.protocol !in {6, 17} ==> c == Call(None, Seek))
  {
    if ParseIPv4(data).Ok? { ClassByProtocol(ParseIPv4(data).value); }
  }

  lemma DoneStays(s: State, c: Call, pc: Pc)
    requires c.pc.Done?
    ensures !CanMove(s, c, pc)
  {}

  lemma DoneDeliversNothing(s: State, c: Call, x: ConnId)
    requires c.pc.Done?
    ensures !CanDeliver(s, c, x)
  {
    if CanDeliver(s, c, x) {
      var pc :| CanReach(s, c, pc) && PushTarget(pc) == Some(x) && Room(s, x);
      var pcs :| Path(s, c, pcs) && pcs[|pcs| - 1] == pc;
      DoneGoesNowhere(s, c, pcs);
    }
  }

  lemma DoneGoesNowhere(s: State, c: Call, pcs: seq<Pc>)
    requires c.pc.Done? && Path(s, c, pcs)
    ensures |pcs| == 1
  {
    if |pcs| > 1 {
      assert c.(pc := pcs[0]) == c && CanMove(s, c.(pc := pcs[0]), pcs[0 + 1]);
      DoneStays(s, c, pcs[1]);
    }
  }

  /** While nothing else happens, a call can put its packet on exactly the queues its protocol allows. */
  lemma PacketGoesExactly(s: State, call: CallId, data: Bytes, s': State, x: ConnId)
    requires BeginNext(s, call, data, s') && ParseIPv4(data).Ok? && s.live && DoneAreDead(s)
    ensures call in s'.calls && (CanDeliver(s', s'.calls[call], x) <==> Goes(s', ParseIPv4(data).value, x))
  {
    BegunIs(s, call, data, s');
    var pkt, c := ParseIPv4(data).value, s'.calls[call];
    if c.pc.Done? {
      DoneDeliversNothing(s', c, x);
    } else if pkt.protocol == 6 {
      TcpDelivers(s', c, x);
    } else if pkt.protocol == 17 {
      UdpDelivers(s', c, x);
    } else {
      TimedDelivers(s', c, x);
    }
  }

  // ---- without a primary ------------------------------------------------------------------

  /** Without a live primary a TCP call of an unbound flow, or one of the remaining protocols, comes to the step that
      promotes a standby. */
  lemma EnsureIsReached(s: State, c: Call)
    requires s.live && PrimaryNow(s) == None
    requires c.pc == Seek || (c.pc == Top && c.tcp.Some? && !BoundUsable(s, c.tcp.value.flow))
    ensures CanReach(s, c, MustEnsure)
  {
    ReachStart(s, c);
    if c.pc == Top {
      ReachNext(s, c, Top, Lookup);
      ReachNext(s, c, Lookup, Seek);
    }
    ReachNext(s, c, Seek, Look);
    ReachNext(s, c, Look, MustEnsure);
  }

  /** That step makes the first live standby the primary, if there is one, and leaves queues and bindings alone. The
      call looks again, and from there its packet goes where `Goes` says. */
  lemma EnsureMakesPrimary(u: Setup, s: State, s': State, t: ConnId)
    requires s.cur in s.calls && s.calls[s.cur].pc.MustEnsure? && Next(u, s, Pump(Ensure), s')
    requires RolesInv(s.core, s.alive, u.max) && PrimaryNow(s) == None
    ensures s'.cur == s.cur && s'.calls == s.calls[s.cur := s.calls[s.cur].(pc := LookAgain)]
    ensures s'.flows == s.flows && s'.chans == s.chans && s'.alive == s.alive && s'.done == s.done && s'.live == s.live
    ensures IsFirst(s, Standby, t) ==>
              && IsFirst(s', Primary, t) && s'.core.roles.role == s.core.roles.role[t := Primary]
              && s'.core.roles.since == s.core.roles.since[t := s.now]
    ensures (forall x :: x in s.core.conns ==> !Plays(s, x, Standby)) ==> s'.core.roles == s.core.roles
  {
    var conns, role := s.core.conns, s.core.roles.role;
    NothingToDemote(conns, s.alive, s.core.roles, s.now);
    FallbackIsIdle(conns, s.alive, role);
    FirstWithAt(s, conns, Standby);
    if IsFirst(s, Standby, t) && FirstWith(conns, s.alive, role, Standby).Some? {
      FirstIsUnique(s, Standby, t, FirstWith(conns, s.alive, role, Standby).value);
      PromotedIsFirst(s, s', t);
    }
  }

  lemma {:induction false} NothingToDemote(conns: seq<ConnId>, alive: set<ConnId>, t: Roles<ConnId>, now: int)
    requires FirstWith(conns, alive, t.role, Primary) == None
    ensures DemoteExtra(conns, alive, t, false, now) == t
  {
    if conns != [] { NothingToDemote(conns[1..], alive, t, now); }
  }

  lemma PromotedIsFirst(s: State, s': State, t: ConnId)
    requires PrimaryNow(s) == None && IsFirst(s, Standby, t)
    requires s'.core.conns == s.core.conns && s'.alive == s.alive
    requires s'.core.roles.role == s.core.roles.role[t := Primary]
    ensures IsFirst(s', Primary, t)
  {
    PrimaryIs(s, t);
    var i :| 0 <= i < |s.core.conns| && s.core.conns[i] == t && Plays(s, t, Standby)
             && forall j :: 0 <= j < i ==> !Plays(s, s.core.conns[j], Standby);
    assert s'.core.conns[i] == t && Plays(s', t, Primary);
    forall j | 0 <= j < i ensures !Plays(s', s'.core.conns[j], Primary) {
      assert s.core.conns[j] in s.core.conns;
    }
  }

  // ---- in a run ---------------------------------------------------------------------------

  /** Consecutive states joined by steps of the pump's call. */
  ghost predicate OwnRun(u: Setup, states: seq<State>, steps: seq<Step>) {
    && |states| == |steps| + 1
    && forall i :: 0 <= i < |steps| ==> steps[i].Pump? && Next(u, states[i], steps[i], states[i + 1])
  }

  lemma OneMore(u: Setup, states: seq<State>, steps: seq<Step>, k: CallStep, s': State)
    returns (states': seq<State>, steps': seq<Step>)
    requires OwnRun(u, states, steps) && Next(u, states[|steps|], Pump(k), s')
    ensures OwnRun(u, states', steps') && states'[0] == states[0] && |steps'| == |steps| + 1
    ensures states'[|steps|] == states[|steps|] && states'[|steps'|] == s' && steps'[|steps|] == Pump(k)
  {
    states', steps' := states + [s'], steps + [Pump(k)];
  }

  function Standing(s: State, pc: Pc): State
    requires s.cur in s.calls
  {
    PoolModel.At(s, s.calls[s.cur], pc)
  }

  lemma MoveIsNext(u: Setup, s: State, pc: Pc, pc': Pc)
    requires s.cur in s.calls && CanMove(s, s.calls[s.cur].(pc := pc), pc')
    ensures Next(u, Standing(s, pc), Pump(Move(pc')), Standing(s, pc'))
  {
    var s0, c := Standing(s, pc), s.calls[s.cur].(pc := pc);
    SameMoves(s, s0, c, pc');
    assert PoolModel.At(s0, c, pc').calls == Standing(s, pc').calls;
  }

  /** Control steps do not look at the calls. */
  lemma SameMoves(s: State, s0: State, c: Call, pc: Pc)
    requires s0 == s.(calls := s0.calls) && CanMove(s, c, pc)
    ensures CanMove(s0, c, pc)
  {
    assert forall x :: LiveStandby(s, x) <==> LiveStandby(s0, x);
  }

  lemma {:induction false} PathIsRun(u: Setup, s: State, pcs: seq<Pc>) returns (states: seq<State>, steps: seq<Step>)
    requires s.cur in s.calls && Path(s, s.calls[s.cur], pcs)
    ensures OwnRun(u, states, steps) && states[0] == s && states[|steps|] == Standing(s, pcs[|pcs| - 1])
  {
    if |pcs| == 1 {
      assert Standing(s, s.calls[s.cur].pc) == s;
      states, steps := [s], [];
    } else {
      var front := pcs[..|pcs| - 1];
      assert Path(s, s.calls[s.cur], front);
      var states0, steps0 := PathIsRun(u, s, front);
      var pc, pc' := front[|front| - 1], pcs[|pcs| - 1];
      MoveIsNext(u, s, pc, pc');
      states, steps := OneMore(u, states0, steps0, Move(pc'), Standing(s, pc'));
    }
  }

  /** What the call can reach it reaches in a run of its own steps, at the end of which its packet is the last one in
      the connection's queue. */
  lemma DeliveryHappens(u: Setup, s: State, x: ConnId) returns (states: seq<State>, steps: seq<Step>)
    requires s.cur in s.calls && CanDeliver(s, s.calls[s.cur], x)
    ensures OwnRun(u, states, steps) && states[0] == s && x in s.chans && x in states[|steps|].chans
    ensures states[|steps|].chans[x].queue == s.chans[x].queue + [FrameOf(s.cur, s.calls[s.cur])]
    ensures states[|steps|].log == s.log + [Accepted(FrameOf(s.cur, s.calls[s.cur]), x, Closes(s.calls[s.cur]))]
  {
    var pc :| CanReach(s, s.calls[s.cur], pc) && PushTarget(pc) == Some(x) && Room(s, x);
    var pcs :| Path(s, s.calls[s.cur], pcs) && pcs[|pcs| - 1] == pc;
    var states0, steps0 := PathIsRun(u, s, pcs);
    var s1 := Standing(s, pc);
    states, steps := OneMore(u, states0, steps0, Push(x), PushStep(s1, s1.calls[s1.cur], x));
  }

  // ---- giving up and going round ----------------------------------------------------------

  /** With a live context a call can give up exactly for UDP without a live primary to wait for, and where it waits for
      a primary with a deadline: TCP never gives up. Once the context is cancelled, TCP gives up at the top of its
      loops and wherever it waits. */
  lemma DropsExactlyWhen(s: State, c: Call)
    ensures CanMove(s, c, Done(false)) <==>
              || c.pc.UdpWait? || c.pc.TimedWait?
              || (c.pc.UdpPrimary? && forall x :: x in s.core.conns ==> !Plays(s, x, Primary))
              || ((c.pc.UdpCheck? || c.pc.TimedCheck?) && c.pc.t !in s.alive)
              || (!s.live && (c.pc.Top? || c.pc.Seek? || c.pc.WaitBound? || c.pc.WaitPrimary?))
  {
    PrimaryIs(s, if PrimaryNow(s).Some? then PrimaryNow(s).value else 0);
  }

  /** A standby that dies or fills up after it was chosen does not cost the packet: it can still go to the primary. */
  lemma FailedBurstGoesToPrimary(s: State, c: Call, t: ConnId, sb: ConnId)
    requires t in s.alive && HasRoom(s, t)
    requires (c.pc == TryBurst(t, sb) && sb !in s.alive)
             || (c.pc == OfferBurst(t, sb) && (sb in s.done || !HasRoom(s, sb)))
    ensures CanDeliver(s, c, t)
  {
    ReachStart(s, c);
    ReachNext(s, c, c.pc, CheckPrimary(t));
    ReachNext(s, c, CheckPrimary(t), WaitPrimary(t));
    assert PushTarget(WaitPrimary(t)) == Some(t);
  }

  /** UDP passes over a candidate that is dead, has signalled its end or is full. */
  lemma UdpPassesOver(s: State, c: Call, x: ConnId, y: ConnId, tail: seq<ConnId>)
    requires y in s.alive && HasRoom(s, y)
    requires (c.pc == UdpTry([x, y] + tail) && x !in s.alive)
             || (c.pc == UdpOffer([x, y] + tail) && (x in s.done || !HasRoom(s, x)))
    ensures CanDeliver(s, c, y)
  {
    var rest := [y] + tail;
    assert ([x, y] + tail)[1..] == rest;
    ReachStart(s, c);
    ReachNext(s, c, c.pc, UdpTry(rest));
    ReachNext(s, c, UdpTry(rest), UdpOffer(rest));
    assert PushTarget(UdpOffer(rest)) == Some(y);
  }

  /** When all were passed over it waits for the primary, and can go there once that has room again. */
  lemma UdpComesBack(s: State, c: Call, t: ConnId)
    requires c.pc == UdpTry([]) && IsFirst(s, Primary, t) && HasRoom(s, t)
    ensures CanDeliver(s, c, t)
  {
    PrimaryIs(s, t);
    ReachStart(s, c);
    ReachNext(s, c, UdpTry([]), UdpPrimary);
    ReachNext(s, c, UdpPrimary, UdpCheck(t));
    ReachNext(s, c, UdpCheck(t), UdpWait(t));
    assert PushTarget(UdpWait(t)) == Some(t);
  }

  /** A TCP call whose connection is closed starts over, and a bound flow loses its binding. */
  lemma ClosedMeansAgain(u: Setup, s: State, t: ConnId) returns (states: seq<State>, steps: seq<Step>)
    requires s.cur in s.calls && s.calls[s.cur].tcp.Some? && t !in s.alive && t in s.done
    requires s.calls[s.cur].pc in {CheckBound(t), WaitBound(t), CheckPrimary(t), WaitPrimary(t)}
    ensures OwnRun(u, states, steps) && states[0] == s && s.cur in states[|steps|].calls
    ensures states[|steps|].cur == s.cur && states[|steps|].calls[s.cur] == s.calls[s.cur].(pc := Top)
    ensures s.calls[s.cur].pc.CheckBound? || s.calls[s.cur].pc.WaitBound? ==>
              s.calls[s.cur].tcp.value.flow !in states[|steps|].flows
  {
    var c := s.calls[s.cur];
    states, steps := [s], [];
    assert Standing(s, c.pc) == s;
    if c.pc.CheckBound? || c.pc.WaitBound? {
      MoveIsNext(u, s, c.pc, DropBound);
      var s1 := Standing(s, DropBound);
      states, steps := OneMore(u, states, steps, Move(DropBound), s1);
      states, steps := OneMore(u, states, steps, Unbind, UnbindStep(s1, s1.calls[s1.cur]));
    } else {
      MoveIsNext(u, s, c.pc, Top);
      states, steps := OneMore(u, states, steps, Move(Top), Standing(s, Top));
    }
  }
}
