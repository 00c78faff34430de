/** The device table and the admin handlers that write it: registration, approval, revocation, override, deletion.
    An IPv4 address has one textual form, so a stored VIP text is the empty string or an address. */
module Devices {
  import opened Wrappers
  import opened Addr
  import opened VipScan

  datatype Status = Pending | Approved | Revoked

  datatype VipText = Empty | Ip(addr: Addr)

  datatype Device = Device(virtualIP: Option<VipText>, autoVIP: Addr, status: Status)

  type Table = map<string, Device>

  /** `Device.EffectiveIP`: the address the relay uses for the device. */
  function EffectiveIP(d: Device): Addr {
    if d.virtualIP.Some? && d.virtualIP.value != Empty then d.virtualIP.value.addr else d.autoVIP
  }

  /** COALESCE(virtual_ip, auto_vip). */
  function Coalesced(d: Device): VipText {
    if d.virtualIP.Some? then d.virtualIP.value else Ip(d.autoVIP)
  }

  /** The addresses in the rows of `GetAllocatedVIPs`. */
  function ShownVIPs(t: Table): set<Addr> {
    set e | e in t && t[e].status != Revoked && Coalesced(t[e]).Ip? :: Coalesced(t[e]).addr
  }

  /** Devices whose address `GetAllocatedVIPs` does not report. */
  predicate Hidden(d: Device) {
    d.status == Revoked || d.virtualIP == Some(Empty)
  }

  /** The WHERE clause of `GetDeviceByVIP`. */
  predicate Matches(d: Device, a: Addr) {
    d.virtualIP == Some(Ip(a)) || (d.virtualIP == None && d.autoVIP == a)
  }

  /** `row` is a possible answer of `GetDeviceByVIP`. */
  ghost predicate Finds(t: Table, a: Addr, row: Option<string>) {
    match row
    case Some(e) => e in t && Matches(t[e], a)
    case None => forall e :: e in t ==> !Matches(t[e], a)
  }

  /** The answer of `validateDeviceVIP` for a well-formed address, given the row found for it. */
  predicate Accepted(c: Config, d: string, a: Addr, row: Option<string>) {
    Contains(c.prefix, a) && a != c.server && (row == None || row == Some(d))
  }

  datatype VipRequest = Keep | Clear | Ask(addr: Addr) | Malformed
  datatype StatusRequest = Same | Set(status: Status) | Unknown

  datatype Op =
    | Init(device: string)
    | SetStatus(device: string, status: Status)
    | Update(device: string, vip: VipRequest, status': StatusRequest)
    | Delete(device: string)

  /** `UpdateDevice` on the columns modelled here; the automatic address is never rewritten. */
  function Written(t: Table, d: string, vip: Option<VipText>, s: StatusRequest): (t': Table)
    requires d in t
  {
    t[d := Device(vip, t[d].autoVIP, if s.Set? then s.status else t[d].status)]
  }

  /** One handler call, from the table before to the table after it. */
  ghost predicate Step(c: Config, t: Table, op: Op, t': Table) {
    match op
    case Init(d) =>
      if d == "" || d in t then t' == t
      else exists r: Option<Addr> ::
        && AdminPicks(c.prefix, c.server, ShownVIPs(t), r)
        && t' == if r.Some? then t[d := Device(None, r.value, Pending)] else t
    case SetStatus(d, s) =>
      t' == if d in t then t[d := t[d].(status := s)] else t
    case Update(d, vip, s) =>
      if d !in t || s == Unknown then t' == t
      else match vip {
        case Malformed => t' == t
        case Keep => t' == Written(t, d, t[d].virtualIP, s)
        case Clear => t' == Written(t, d, Some(Empty), s)
        case Ask(a) => exists row: Option<string> ::
          Finds(t, a, row) && t' == if Accepted(c, d, a, row) then Written(t, d, Some(Ip(a)), s) else t
      }
    case Delete(d) => t' == t - {d}
  }

  ghost predicate Distinct(t: Table) {
    forall d, e :: d in t && e in t && d != e ==> EffectiveIP(t[d]) != EffectiveIP(t[e])
  }

  ghost predicate NoOther(t: Table, d: string, a: Addr) {
    forall e :: e in t && e != d ==> EffectiveIP(t[e]) != a
  }

  /** When a handler call keeps effective addresses distinct, read off the table before the call: on `Init` no hidden
      device may have the lowest address that the shown rows leave free, an accepted override must not equal the
      automatic address behind an empty override, and clearing an override must not return to an address in use. */
  ghost predicate Safe(c: Config, t: Table, op: Op) {
    match op
    case Init(d) =>
      d != "" && d !in t ==>
        forall e :: e in t && Hidden(t[e]) ==> !NextOffer(c.prefix, c.server, ShownVIPs(t), EffectiveIP(t[e]))
    case Update(d, Ask(a), s) =>
      d in t && s != Unknown && Contains(c.prefix, a) && a != c.server && Unmatched(t, d, a) ==>
        forall e :: e in t && e != d && t[e].virtualIP == Some(Empty) ==> t[e].autoVIP != a
    case Update(d, Clear, s) =>
      d in t && s != Unknown ==> NoOther(t, d, t[d].autoVIP)
    case _ => true
  }

  ghost predicate Unmatched(t: Table, d: string, a: Addr) {
    forall e :: e in t && e != d ==> !Matches(t[e], a)
  }

  lemma PickIsFree(c: Config, taken: set<Addr>, a: Addr)
    requires AdminPicks(c.prefix, c.server, taken, Some(a))
    ensures a !in taken && a != c.server
  {
    AdminPicksIff(c.prefix, c.server, taken, a);
  }

  /** The pick lies in the overlay unless the counter wraps. */
  lemma PickIsInsideIff(c: Config, taken: set<Addr>, a: Addr)
    requires AdminPicks(c.prefix, c.server, taken, Some(a))
    ensures var (base, end) := Ipv4Range(c.prefix);
            Contains(c.prefix, a) <==> !Wraps(base, end, c.server, taken)
  {
    var (base, end) := Ipv4Range(c.prefix);
    AdminPicksIff(c.prefix, c.server, taken, a);
    RangeIsHostRange(c.prefix, a);
    RangeIsHostRange(c.prefix, end);
    ContainsIsABlock(c.prefix, end);
  }

  lemma UnhiddenIsShown(t: Table, e: string)
    requires e in t && !Hidden(t[e])
    ensures EffectiveIP(t[e]) in ShownVIPs(t)
  {
    assert Coalesced(t[e]) == Ip(EffectiveIP(t[e]));
  }

  lemma ChangeOfOne(t: Table, d: string, x: Device)
    requires Distinct(t)
    ensures Distinct(t[d := x]) <==> NoOther(t, d, EffectiveIP(x))
  {
    var t' := t[d := x];
    if Distinct(t') {
      forall e | e in t && e != d ensures EffectiveIP(t[e]) != EffectiveIP(x) {
        assert t'[e] == t[e] && t'[d] == x;
      }
    }
  }

  /** A call on a table with distinct effective addresses leaves them distinct exactly when it is safe. */
  lemma StepKeepsDistinctIff(c: Config, t: Table, op: Op, t': Table)
    requires Distinct(t) && Step(c, t, op, t')
    ensures Distinct(t') <==> Safe(c, t, op)
  {
    match op
    case Init(d) => InitKeepsDistinctIff(c, t, d, t');
    case SetStatus(d, s) =>
      if d in t { ChangeOfOne(t, d, t'[d]); }
    case Update(d, vip, s) =>
      if d in t && s != Unknown {
        if vip.Ask? {
          AskKeepsDistinctIff(c, t, op, t');
        } else if vip == Clear || vip == Keep {
          assert t' == t[d := t'[d]];
          ChangeOfOne(t, d, t'[d]);
        }
      }
    case Delete(d) =>
  }

  lemma InitKeepsDistinctIff(c: Config, t: Table, d: string, t': Table)
    requires Distinct(t) && Step(c, t, Init(d), t')
    ensures Distinct(t') <==> Safe(c, t, Init(d))
  {
    if d != "" && d !in t {
      var taken := ShownVIPs(t);
      var r: Option<Addr> :| AdminPicks(c.prefix, c.server, taken, r)
        && t' == if r.Some? then t[d := Device(None, r.value, Pending)] else t;
      forall a: Addr ensures NextOffer(c.prefix, c.server, taken, a) <==> r == Some(a) {
        OfferIsPicked(c, taken, r, a);
      }
      if r.Some? {
        ChangeOfOne(t, d, t'[d]);
        PickIsFree(c, taken, r.value);
        forall e | e in t && !Hidden(t[e]) ensures EffectiveIP(t[e]) != r.value {
          UnhiddenIsShown(t, e);
        }
      }
    }
  }

  /** On /0 to /30 the condition for a new device is that no hidden one holds the lowest free host address. */
  lemma InitIsSafeIff(c: Config, t: Table, d: string)
    requires c.prefix.bits <= 30 && d != "" && d !in t
    ensures Safe(c, t, Init(d)) <==>
            forall e :: e in t && Hidden(t[e]) ==>
              !LowestFree(c.prefix, c.server, ShownVIPs(t), -1, Some(EffectiveIP(t[e])))
  {
    forall a: Addr { AdminPicksIff(c.prefix, c.server, ShownVIPs(t), a); }
  }

  lemma OfferIsPicked(c: Config, taken: set<Addr>, r: Option<Addr>, a: Addr)
    requires AdminPicks(c.prefix, c.server, taken, r)
    ensures NextOffer(c.prefix, c.server, taken, a) <==> r == Some(a)
  {
    AdminPicksIff(c.prefix, c.server, taken, a);
    if AdminPicks(c.prefix, c.server, taken, Some(a)) {
      AdminIsDeterministic(c, taken, r, Some(a));
    }
  }

  lemma AdminIsDeterministic(c: Config, taken: set<Addr>, r: Option<Addr>, r': Option<Addr>)
    requires AdminPicks(c.prefix, c.server, taken, r) && AdminPicks(c.prefix, c.server, taken, r')
    ensures r == r'
  {
    var (base, end) := Ipv4Range(c.prefix);
    RangeIsHostRange(c.prefix, base);
    AdminYieldsIff(base, end, c.server, taken, r);
    AdminYieldsIff(base, end, c.server, taken, r');
    LowestInRangeIsUnique(if Wraps(base, end, c.server, taken) then 0 else base, end, c.server, taken, r, r');
  }

  lemma AskKeepsDistinctIff(c: Config, t: Table, op: Op, t': Table)
    requires op.Update? && op.vip.Ask? && op.device in t && op.status' != Unknown
    requires Distinct(t) && Step(c, t, op, t')
    ensures Distinct(t') <==> Safe(c, t, op)
  {
    var d, a := op.device, op.vip.addr;
    if Contains(c.prefix, a) && a != c.server && Unmatched(t, d, a) {
      assert t' == t[d := t'[d]] && t'[d].virtualIP == Some(Ip(a));
      ChangeOfOne(t, d, t'[d]);
    } else {
      if e :| e in t && e != d && Matches(t[e], a) {
        assert EffectiveIP(t[e]) == a;
      }
      assert t' == t;
    }
  }

  /** A call touches no row but its device's; deleting removes that row, and no other call removes one. */
  lemma StepTouchesOneRow(c: Config, t: Table, op: Op, t': Table, e: string)
    requires Step(c, t, op, t')
    ensures e != op.device ==> (e in t' <==> e in t) && (e in t' ==> t'[e] == t[e])
    ensures op.Delete? ==> op.device !in t'
    ensures !op.Delete? && e in t ==> e in t' && t'[e].autoVIP == t[e].autoVIP
  {}

  /** The address of a deleted device goes to the next one that registers. */
  lemma DeletionFreesAddress(c: Config, t: Table, x: string, y: string, t1: Table, t2: Table, t3: Table)
    requires x != "" && y != "" && x !in t && y !in t
    requires Step(c, t, Init(x), t1) && Step(c, t1, Op.Delete(x), t2) && Step(c, t2, Init(y), t3)
    requires x in t1
    ensures y in t3 && t3[y].autoVIP == t1[x].autoVIP && t3[y].virtualIP == None && t3[y].status == Pending
    ensures x != y ==> x !in t3
  {
    assert t2 == t;
    var r: Option<Addr> :| AdminPicks(c.prefix, c.server, ShownVIPs(t), r)
      && t3 == if r.Some? then t[y := Device(None, r.value, Pending)] else t;
    AdminIsDeterministic(c, ShownVIPs(t), r, Some(t1[x].autoVIP));
  }

  // ---- runs -------------------------------------------------------------------------------

  /** No device is hidden, and effective addresses are distinct and never the server's. */
  ghost predicate Clean(c: Config, t: Table) {
    && Distinct(t)
    && forall d :: d in t ==> !Hidden(t[d]) && EffectiveIP(t[d]) != c.server && t[d].autoVIP != c.server
  }

  /** Every effective address, and the automatic one behind it, is in the overlay. */
  ghost predicate Inside(c: Config, t: Table) {
    forall d :: d in t ==> Contains(c.prefix, EffectiveIP(t[d])) && Contains(c.prefix, t[d].autoVIP)
  }

  /** Neither revokes a device nor stores an empty override. */
  predicate Restrained(op: Op) {
    match op
    case SetStatus(_, s) => s != Revoked
    case Update(_, vip, s) => vip != Clear && s != Set(Revoked)
    case _ => true
  }

  lemma RestrainedStepKeepsClean(c: Config, t: Table, op: Op, t': Table)
    requires Clean(c, t) && Restrained(op) && Step(c, t, op, t')
    ensures Clean(c, t')
  {
    StepKeepsDistinctIff(c, t, op, t');
    if op.Init? && op.device !in t && op.device in t' {
      PickIsFree(c, ShownVIPs(t), t'[op.device].autoVIP);
    }
  }

  ghost predicate Run(c: Config, tables: seq<Table>, ops: seq<Op>) {
    && |tables| == |ops| + 1 && tables[0] == map[]
    && forall i :: 0 <= i < |ops| ==> Step(c, tables[i], ops[i], tables[i + 1])
  }

  /** Over every run without revocation and without empty overrides the effective addresses are pairwise distinct
      and never the server's, on every prefix. */
  lemma {:induction false} RestrainedRunsStayClean(c: Config, tables: seq<Table>, ops: seq<Op>, i: nat)
    requires Run(c, tables, ops) && i <= |ops|
    requires forall j :: 0 <= j < i ==> Restrained(ops[j])
    ensures Clean(c, tables[i])
  {
    if i > 0 {
      RestrainedRunsStayClean(c, tables, ops, i - 1);
      RestrainedStepKeepsClean(c, tables[i - 1], ops[i - 1], tables[i]);
    }
  }

  // ---- staying in the overlay -------------------------------------------------------------

  /** A new device registers although the range, which ends at the largest uint32, has no free address left. */
  ghost predicate Overruns(c: Config, t: Table, op: Op) {
    op.Init? && op.device != "" && op.device !in t
    && Wraps(Ipv4Range(c.prefix).0, Ipv4Range(c.prefix).1, c.server, ShownVIPs(t))
  }

  /** Whatever the handler call, addresses stay in the overlay exactly when it is no such registration. */
  lemma StepKeepsInsideIff(c: Config, t: Table, op: Op, t': Table)
    requires Inside(c, t) && Step(c, t, op, t')
    ensures Inside(c, t') <==> !Overruns(c, t, op)
  {
    if op.Init? {
      InitKeepsInsideIff(c, t, op.device, t');
    }
  }

  lemma InitKeepsInsideIff(c: Config, t: Table, d: string, t': Table)
    requires Inside(c, t) && Step(c, t, Init(d), t')
    ensures Inside(c, t') <==> !Overruns(c, t, Init(d))
  {
    if d != "" && d !in t {
      var (base, end) := Ipv4Range(c.prefix);
      var r: Option<Addr> :| AdminPicks(c.prefix, c.server, ShownVIPs(t), r)
        && t' == if r.Some? then t[d := Device(None, r.value, Pending)] else t;
      RangeIsHostRange(c.prefix, base);
      AdminYieldsLowest(base, end, c.server, ShownVIPs(t), r);
      if r.Some? {
        PickIsInsideIff(c, ShownVIPs(t), r.value);
        assert EffectiveIP(t'[d]) == r.value;
      }
    }
  }

  /** A run stays in the overlay exactly as long as none of its registrations overruns the range. */
  lemma {:induction false} RunStaysInsideIff(c: Config, tables: seq<Table>, ops: seq<Op>, i: nat)
    requires Run(c, tables, ops) && i <= |ops|
    ensures (forall j :: 0 <= j <= i ==> Inside(c, tables[j])) <==>
            (forall j :: 0 <= j < i ==> !Overruns(c, tables[j], ops[j]))
  {
    if i > 0 {
      RunStaysInsideIff(c, tables, ops, i - 1);
      if Inside(c, tables[i - 1]) {
        StepKeepsInsideIff(c, tables[i - 1], ops[i - 1], tables[i]);
      }
    }
  }

  ghost predicate AlwaysInside(c: Config) {
    forall tables: seq<Table>, ops: seq<Op>, i: nat :: Run(c, tables, ops) && i <= |ops| ==> Inside(c, tables[i])
  }

  /** Every run stays in the overlay exactly when the range ends below the largest uint32. */
  lemma RunsStayInsideIff(c: Config)
    ensures AlwaysInside(c) <==> Ipv4Range(c.prefix).1 < ADDR_SPACE - 1
  {
    if Ipv4Range(c.prefix).1 < ADDR_SPACE - 1 {
      forall tables: seq<Table>, ops: seq<Op>, i: nat | Run(c, tables, ops) && i <= |ops| ensures Inside(c, tables[i]) {
        RunStaysInsideIff(c, tables, ops, i);
      }
    } else {
      var tables, ops := ThreeRegistrations(c);
      RestrainedRunsStayClean(c, tables, ops, 3);
      ThreeDoNotFit(c, tables[3]);
    }
  }

  /** At the end of the address space the range has at most two addresses. */
  lemma TopRangeIsNarrow(p: Prefix, a: Addr)
    requires Ipv4Range(p).1 == ADDR_SPACE - 1 && Contains(p, a)
    ensures ADDR_SPACE - 2 <= a
  {
    Pow2Values();
    ContainsIsABlock(p, a);
  }

  lemma ThreeDoNotFit(c: Config, t: Table)
    requires Ipv4Range(c.prefix).1 == ADDR_SPACE - 1 && Distinct(t) && "a" in t && "b" in t && "c" in t
    ensures !Inside(c, t)
  {
    if Inside(c, t) {
      TopRangeIsNarrow(c.prefix, EffectiveIP(t["a"]));
      TopRangeIsNarrow(c.prefix, EffectiveIP(t["b"]));
      TopRangeIsNarrow(c.prefix, EffectiveIP(t["c"]));
    }
  }

  lemma ThreeRegistrations(c: Config) returns (tables: seq<Table>, ops: seq<Op>)
    requires Ipv4Range(c.prefix).1 == ADDR_SPACE - 1
    ensures Run(c, tables, ops) && |ops| == 3 && forall op :: op in ops ==> Restrained(op)
    ensures "a" in tables[3] && "b" in tables[3] && "c" in tables[3]
  {
    var a, t1 := Registers(c, map[], "a", {});
    var b, t2 := Registers(c, t1, "b", {a});
    var _, t3 := Registers(c, t2, "c", {a, b});
    tables, ops := [map[], t1, t2, t3], [Init("a"), Init("b"), Init("c")];
  }

  /** A new device gets an address as long as few are shown. */
  lemma Registers(c: Config, t: Table, d: string, shown: set<Addr>) returns (a: Addr, t': Table)
    requires Ipv4Range(c.prefix).1 == ADDR_SPACE - 1 && ShownVIPs(t) == shown && |shown| <= 2 && d != "" && d !in t
    ensures Step(c, t, Init(d), t') && t' == t[d := Device(None, a, Pending)] && ShownVIPs(t') == shown + {a}
  {
    var (base, end) := Ipv4Range(c.prefix);
    var x := OneOfFour(shown + {c.server});
    assert AdminFree(c.server, shown, x);
    RangeIsHostRange(c.prefix, base);
    var r := AdminYieldExists(base, end, c.server, shown);
    AdminYieldsLowest(base, end, c.server, shown, r);
    a, t' := r.value, t[d := Device(None, r.value, Pending)];
    ShownWithNew(t, d, a);
  }

  lemma ShownWithNew(t: Table, d: string, a: Addr)
    requires d !in t
    ensures ShownVIPs(t[d := Device(None, a, Pending)]) == ShownVIPs(t) + {a}
  {
    var t' := t[d := Device(None, a, Pending)];
    assert d in t' && Coalesced(t'[d]) == Ip(a);
    forall x ensures x in ShownVIPs(t') <==> x in ShownVIPs(t) + {a} {
      if x in ShownVIPs(t) {
        var e :| e in t && t[e].status != Revoked && Coalesced(t[e]).Ip? && Coalesced(t[e]).addr == x;
        assert t'[e] == t[e];
      }
    }
  }

  lemma SubsetIsSmaller(a: set<Addr>, b: set<Addr>)
    requires a <= b
    ensures |a| <= |b|
  {
    assert b == a + (b - a);
  }

  /** Some address is outside a set of at most three. */
  lemma OneOfFour(s: set<Addr>) returns (x: Addr)
    requires |s| <= 3
    ensures x !in s
  {
    var four: set<Addr> := {0, 1, 2, 3};
    if four <= s {
      SubsetIsSmaller(four, s);
      assert false;
    }
    x :| x in four && x !in s;
  }

  lemma InitGivesOffer(c: Config, t: Table, d: string, t': Table, a: Addr)
    requires d != "" && d !in t && Step(c, t, Init(d), t') && NextOffer(c.prefix, c.server, ShownVIPs(t), a)
    ensures t' == t[d := Device(None, a, Pending)] && ShownVIPs(t') == ShownVIPs(t) + {a}
  {
    var r: Option<Addr> :| AdminPicks(c.prefix, c.server, ShownVIPs(t), r)
      && t' == if r.Some? then t[d := Device(None, r.value, Pending)] else t;
    OfferIsPicked(c, ShownVIPs(t), r, a);
    ShownWithNew(t, d, a);
  }

  const TOP_PAIR: Prefix := Prefix(0xFFFF_FFFE, 31)

  lemma TopPairOffers()
    ensures NextOffer(TOP_PAIR, 0xFFFF_FFFE, {}, 0xFFFF_FFFF) && NextOffer(TOP_PAIR, 0xFFFF_FFFE, {0xFFFF_FFFF}, 0)
    ensures !Contains(TOP_PAIR, 0)
  {
    Pow2Values();
    assert Ipv4Range(TOP_PAIR) == (0xFFFF_FFFE, 0xFFFF_FFFF);
    assert AdminFree(0xFFFF_FFFE, {}, 0xFFFF_FFFF);
  }

  /** The smallest such run: on 255.255.255.254/31 with the server at 255.255.255.254 the second device gets 0.0.0.0. */
  lemma SecondDeviceGetsZero(c: Config, x: string, y: string, t1: Table, t2: Table)
    requires c == Config(TOP_PAIR, 0xFFFF_FFFE) && x != "" && y != "" && x != y
    requires Step(c, map[], Init(x), t1) && Step(c, t1, Init(y), t2)
    ensures y in t2 && EffectiveIP(t2[y]) == 0 && !Contains(c.prefix, 0)
  {
    TopPairOffers();
    assert ShownVIPs(map[]) == {};
    InitGivesOffer(c, map[], x, t1, 0xFFFF_FFFF);
    assert ShownVIPs(t1) == {0xFFFF_FFFF};
    InitGivesOffer(c, t1, y, t2, 0);
  }

  /** A revoked device keeps its address while the pool hands it out again: in every configuration with an
      address to give, register, revoke, register ends with two devices on one address. */
  lemma RevocationReusesAddress(c: Config, x: string, y: string, t1: Table, t2: Table, t3: Table)
    requires x != "" && y != "" && x != y
    requires Step(c, map[], Init(x), t1) && Step(c, t1, SetStatus(x, Revoked), t2) && Step(c, t2, Init(y), t3)
    requires x in t1
    ensures !Distinct(t3)
  {
    assert ShownVIPs(map[]) == ShownVIPs(t2) == {};
    var r: Option<Addr> :| AdminPicks(c.prefix, c.server, ShownVIPs(t2), r)
      && t3 == if r.Some? then t2[y := Device(None, r.value, Pending)] else t2;
    AdminIsDeterministic(c, {}, r, Some(t1[x].autoVIP));
    assert EffectiveIP(t3[x]) == EffectiveIP(t3[y]);
  }

  /** An empty override hides the device from the pool in the same way. */
  lemma EmptyOverrideReusesAddress(c: Config, x: string, y: string, t1: Table, t2: Table, t3: Table)
    requires x != "" && y != "" && x != y
    requires Step(c, map[], Init(x), t1) && Step(c, t1, Update(x, Clear, Same), t2) && Step(c, t2, Init(y), t3)
    requires x in t1
    ensures !Distinct(t3)
  {
    assert ShownVIPs(map[]) == ShownVIPs(t2) == {};
    var r: Option<Addr> :| AdminPicks(c.prefix, c.server, ShownVIPs(t2), r)
      && t3 == if r.Some? then t2[y := Device(None, r.value, Pending)] else t2;
    AdminIsDeterministic(c, {}, r, Some(t1[x].autoVIP));
    assert EffectiveIP(t3[x]) == EffectiveIP(t3[y]);
  }

  // ---- the handlers -----------------------------------------------------------------------

  ghost predicate OthersStay(t: Table, t': Table, d: string) {
    && t'.Keys - {d} == t.Keys - {d}
    && forall e :: e in t && e != d ==> e in t' && t'[e] == t[e]
  }

  class Store {
    var rows: Table

    constructor ()
      ensures rows == map[]
    {
      rows := map[];
    }

    /** `GetAllocatedVIPs`: one pass over the rows. */
    method GetAllocatedVIPs() returns (taken: set<Addr>)
      ensures taken == ShownVIPs(rows)
    {
      taken := {};
      var left := rows.Keys;
      while left != {}
        invariant left <= rows.Keys
        invariant taken == set e | e in rows.Keys - left && rows[e].status != Revoked && Coalesced(rows[e]).Ip?
                             :: Coalesced(rows[e]).addr
        decreases left
      {
        var e :| e in left;
        left := left - {e};
        ghost var seen := rows.Keys - left;
        if rows[e].status != Revoked && Coalesced(rows[e]).Ip? {
          taken := taken + {Coalesced(rows[e]).addr};
        }
        assert seen == rows.Keys - left - {e} + {e};
      }
      assert rows.Keys - left == rows.Keys;
    }

    /** `GetDeviceByVIP`: any matching row. */
    method GetDeviceByVIP(a: Addr) returns (row: Option<string>)
      ensures Finds(rows, a, row)
    {
      var left := rows.Keys;
      while left != {}
        invariant left <= rows.Keys
        invariant forall e :: e in rows && e !in left ==> !Matches(rows[e], a)
        decreases left
      {
        var e :| e in left;
        if Matches(rows[e], a) {
          return Some(e);
        }
        left := left - {e};
      }
      row := None;
    }

    method HandleAuthInit(c: Config, device: string) returns (ok: bool)
      requires AdminEnds(Ipv4Range(c.prefix).1, c.server, ShownVIPs(rows))
      modifies this
      ensures Step(c, old(rows), Init(device), rows)
      ensures ok <==> device in rows && device != ""
      ensures device in old(rows) || !ok ==> rows == old(rows)
      ensures device !in old(rows) && ok ==>
                rows == old(rows)[device := Device(None, rows[device].autoVIP, Pending)]
                && NextOffer(c.prefix, c.server, ShownVIPs(old(rows)), rows[device].autoVIP)
    {
      if device == "" {
        return false;
      }
      if device !in rows {
        var taken := GetAllocatedVIPs();
        var r := AllocateVIP(c.prefix, c.server, taken);
        assert AdminPicks(c.prefix, c.server, ShownVIPs(rows), r);
        if r == None {
          return false;
        }
        OfferIsPicked(c, taken, r, r.value);
        rows := rows[device := Device(None, r.value, Pending)];
      }
      ok := true;
    }

    method HandleSetDeviceStatus(c: Config, device: string, status: Status) returns (ok: bool)
      modifies this
      ensures Step(c, old(rows), SetStatus(device, status), rows)
      ensures ok <==> device in old(rows)
      ensures device in rows <==> device in old(rows)
      ensures ok ==> rows[device].status == status && rows[device].autoVIP == old(rows)[device].autoVIP
                     && rows[device].virtualIP == old(rows)[device].virtualIP
      ensures OthersStay(old(rows), rows, device)
    {
      if device !in rows {
        return false;
      }
      rows := rows[device := rows[device].(status := status)];
      ok := true;
    }

    method HandleUpdateDevice(c: Config, device: string, vip: VipRequest, status: StatusRequest) returns (ok: bool)
      modifies this
      ensures Step(c, old(rows), Update(device, vip, status), rows)
      ensures !ok ==> rows == old(rows)
      ensures ok ==> device in old(rows) && status != Unknown && vip != Malformed
      ensures ok && vip.Ask? ==>
                Contains(c.prefix, vip.addr) && vip.addr != c.server
                && (Unmatched(old(rows), device, vip.addr) || Matches(old(rows)[device], vip.addr))
      ensures device in old(rows) && status != Unknown && vip != Malformed
              && (vip.Ask? ==>
                    Contains(c.prefix, vip.addr) && vip.addr != c.server
                    && Unmatched(old(rows), device, vip.addr))
        ==> ok
      ensures ok ==> device in rows && rows[device].autoVIP == old(rows)[device].autoVIP
                     && rows[device].status == (if status.Set? then status.status else old(rows)[device].status)
      ensures ok && vip == Keep ==> rows[device].virtualIP == old(rows)[device].virtualIP
      ensures ok && vip == Clear ==> rows[device].virtualIP == Some(Empty)
      ensures ok && vip.Ask? ==> rows[device].virtualIP == Some(Ip(vip.addr))
      ensures OthersStay(old(rows), rows, device)
    {
      if device !in rows {
        return false;
      }
      var text := rows[device].virtualIP;
      match vip {
        case Keep =>
        case Malformed =>
          return false;
        case Clear =>
          text := Some(Empty);
        case Ask(a) =>
          var existing := GetDeviceByVIP(a);
          if !Accepted(c, device, a, existing) {
            return false;
          }
          text := Some(Ip(a));
      }
      if status == Unknown {
        return false;
      }
      rows := Written(rows, device, text, status);
      ok := true;
    }

    method HandleDeleteDevice(c: Config, device: string)
      modifies this
      ensures Step(c, old(rows), Op.Delete(device), rows)
      ensures device !in rows && OthersStay(old(rows), rows, device)
    {
      rows := rows - {device};
    }
  }
}
