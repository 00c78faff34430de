/** What the two address scans look for, independent of how they loop: the relay allocator walks octet by
    octet from the (unmasked) prefix address, the admin handler counts through a uint32 range. */
module VipScan {
  import opened Wrappers
  import opened Addr
  import opened AddrBytes

  /** The overlay prefix and the server's own address. */
  datatype Config = Config(prefix: Prefix, server: Addr)

  predicate Usable(p: Prefix, server: Addr, a: Addr) {
    Contains(p, a) && a != server && a != Broadcast(p) && a != Masked(p)
  }

  predicate Free(p: Prefix, server: Addr, taken: set<Addr>, a: Addr) {
    Usable(p, server, a) && a !in taken
  }

  // ---- relay: Allocate's scan -------------------------------------------------------------

  function At(start: Addr, k: nat): Addr {
    (start + k) % ADDR_SPACE
  }

  /** The scan returns, with an address or an error, at its `k`-th step. */
  predicate Stops(p: Prefix, server: Addr, taken: set<Addr>, k: nat) {
    !Contains(p, At(p.addr, k)) || Free(p, server, taken, At(p.addr, k))
  }

  ghost predicate FirstStop(p: Prefix, server: Addr, taken: set<Addr>, k: nat) {
    k >= 1 && Stops(p, server, taken, k) && forall j: nat :: 1 <= j < k ==> !Stops(p, server, taken, j)
  }

  ghost predicate ScanEnds(p: Prefix, server: Addr, taken: set<Addr>) {
    exists k: nat :: k >= 1 && Stops(p, server, taken, k)
  }

  function StopResult(p: Prefix, k: nat): Option<Addr> {
    if Contains(p, At(p.addr, k)) then Some(At(p.addr, k)) else None
  }

  ghost predicate ScanYields(p: Prefix, server: Addr, taken: set<Addr>, r: Option<Addr>) {
    exists k: nat :: FirstStop(p, server, taken, k) && r == StopResult(p, k)
  }

  lemma FirstStopExists(p: Prefix, server: Addr, taken: set<Addr>, k: nat) returns (f: nat)
    requires k >= 1 && Stops(p, server, taken, k)
    ensures FirstStop(p, server, taken, f)
  {
    f := 1;
    while !Stops(p, server, taken, f)
      invariant 1 <= f <= k
      decreases k - f
      invariant forall j: nat :: 1 <= j < f ==> !Stops(p, server, taken, j)
    {
      f := f + 1;
    }
  }

  lemma FirstStopIsLeast(p: Prefix, server: Addr, taken: set<Addr>, f: nat, k: nat)
    requires FirstStop(p, server, taken, f) && k >= 1 && Stops(p, server, taken, k)
    ensures f <= k
  {}

  ghost predicate NoStopUpTo(p: Prefix, server: Addr, taken: set<Addr>, k: nat) {
    forall j: nat :: 1 <= j <= k ==> !Stops(p, server, taken, j)
  }

  lemma StopIsAhead(p: Prefix, server: Addr, taken: set<Addr>, k: nat, stop: nat)
    requires NoStopUpTo(p, server, taken, k) && stop >= 1 && Stops(p, server, taken, stop)
    ensures k < stop
  {}

  /** One round of the scan: it stops here, or nothing up to here stops it. */
  lemma ScanRound(p: Prefix, server: Addr, taken: set<Addr>, k: nat, addr: Addr)
    requires NoStopUpTo(p, server, taken, k) && addr == (At(p.addr, k) + 1) % ADDR_SPACE
    ensures addr == At(p.addr, k + 1)
    ensures !Contains(p, addr) ==> ScanYields(p, server, taken, None)
    ensures Contains(p, addr) && Free(p, server, taken, addr) ==> ScanYields(p, server, taken, Some(addr))
    ensures Contains(p, addr) && !Free(p, server, taken, addr) ==> NoStopUpTo(p, server, taken, k + 1)
  {
    assert addr == At(p.addr, k + 1);
    if Stops(p, server, taken, k + 1) {
      assert FirstStop(p, server, taken, k + 1);
    }
  }

  /** A scan has at most one outcome. */
  lemma ScanIsDeterministic(p: Prefix, server: Addr, taken: set<Addr>, r: Option<Addr>, r': Option<Addr>)
    requires ScanYields(p, server, taken, r) && ScanYields(p, server, taken, r')
    ensures r == r'
  {
    var k: nat :| FirstStop(p, server, taken, k) && r == StopResult(p, k);
    var k': nat :| FirstStop(p, server, taken, k') && r' == StopResult(p, k');
    FirstStopIsLeast(p, server, taken, k, k');
    FirstStopIsLeast(p, server, taken, k', k);
  }

  lemma InsideBlock(p: Prefix, k: nat)
    requires p.addr + k <= Broadcast(p)
    ensures At(p.addr, k) == p.addr + k && Contains(p, p.addr + k)
  {
    ContainsIsABlock(p, p.addr);
    ContainsIsABlock(p, p.addr + k);
  }

  lemma BehindBlock(p: Prefix)
    requires p.bits >= 1
    ensures p.addr <= Broadcast(p) && !Contains(p, At(p.addr, Broadcast(p) + 1 - p.addr))
  {
    ContainsIsABlock(p, p.addr);
    var a := At(p.addr, Broadcast(p) + 1 - p.addr);
    assert a == (Broadcast(p) + 1) % ADDR_SPACE;
    SizeIsAtMostHalf(p);
    ContainsIsABlock(p, a);
  }

  /** The step at which a scan from `start` first reaches `a`. */
  function StepsTo(start: Addr, a: Addr): (k: nat)
    ensures 1 <= k <= ADDR_SPACE && At(start, k) == a
  {
    if a > start then a - start else a + ADDR_SPACE - start
  }

  lemma EverythingIsInside(p: Prefix, a: Addr)
    requires p.bits == 0
    ensures Contains(p, a)
  {
    Pow2Values();
    ContainsIsABlock(p, a);
  }

  /** Allocate returns on every prefix but /0; on /0 it returns exactly when an address is free. */
  lemma ScanEndsIff(p: Prefix, server: Addr, taken: set<Addr>)
    ensures ScanEnds(p, server, taken) <==> p.bits >= 1 || exists a: Addr :: Free(p, server, taken, a)
  {
    if p.bits >= 1 {
      BehindBlock(p);
      assert Stops(p, server, taken, Broadcast(p) + 1 - p.addr);
    } else {
      if a: Addr :| Free(p, server, taken, a) {
        assert Stops(p, server, taken, StepsTo(p.addr, a));
      }
      if ScanEnds(p, server, taken) {
        var k: nat :| k >= 1 && Stops(p, server, taken, k);
        EverythingIsInside(p, At(p.addr, k));
        assert Free(p, server, taken, At(p.addr, k));
      }
    }
  }

  /** `r` is the lowest free address above `low`, or there is none. */
  ghost predicate LowestFree(p: Prefix, server: Addr, taken: set<Addr>, low: int, r: Option<Addr>) {
    match r
    case Some(a) => low < a && Free(p, server, taken, a)
                    && forall x: Addr :: low < x < a ==> !Free(p, server, taken, x)
    case None => forall x: Addr :: low < x ==> !Free(p, server, taken, x)
  }

  lemma LowestFreeIsUnique(p: Prefix, server: Addr, taken: set<Addr>, low: int, r: Option<Addr>, r': Option<Addr>)
    requires LowestFree(p, server, taken, low, r) && LowestFree(p, server, taken, low, r')
    ensures r == r'
  {}

  lemma FirstStopIsLowest(p: Prefix, server: Addr, taken: set<Addr>, f: nat)
    requires p.bits >= 1 && FirstStop(p, server, taken, f) && p.addr + f <= Broadcast(p) + 1
    ensures LowestFree(p, server, taken, p.addr, StopResult(p, f))
  {
    BehindBlock(p);
    forall x: Addr | p.addr < x < p.addr + f ensures !Free(p, server, taken, x) {
      InsideBlock(p, x - p.addr);
      assert !Stops(p, server, taken, x - p.addr);
    }
    if p.addr + f <= Broadcast(p) {
      InsideBlock(p, f);
    } else {
      forall x: Addr | x > Broadcast(p) ensures !Free(p, server, taken, x) {
        ContainsIsABlock(p, x);
      }
    }
  }

  lemma StopWithinBlock(p: Prefix, server: Addr, taken: set<Addr>) returns (f: nat)
    requires p.bits >= 1
    ensures FirstStop(p, server, taken, f) && p.addr + f <= Broadcast(p) + 1
  {
    BehindBlock(p);
    var last := Broadcast(p) + 1 - p.addr;
    assert Stops(p, server, taken, last);
    f := FirstStopExists(p, server, taken, last);
    FirstStopIsLeast(p, server, taken, f, last);
  }

  /** For every prefix of at least one bit the relay scan yields the lowest free address above the
      prefix address, and an error exactly when there is none. */
  lemma ScanYieldsLowest(p: Prefix, server: Addr, taken: set<Addr>, r: Option<Addr>)
    requires p.bits >= 1
    ensures ScanYields(p, server, taken, r) <==> LowestFree(p, server, taken, p.addr, r)
  {
    var f := StopWithinBlock(p, server, taken);
    FirstStopIsLowest(p, server, taken, f);
    var x := StopResult(p, f);
    assert ScanYields(p, server, taken, x);
    if ScanYields(p, server, taken, r) {
      ScanIsDeterministic(p, server, taken, r, x);
    } else if LowestFree(p, server, taken, p.addr, r) {
      LowestFreeIsUnique(p, server, taken, p.addr, r, x);
    }
  }

  // ---- admin: allocateVIP's loop over uint32 ----------------------------------------------

  /** `ipv4Range`: first and last offered address. */
  function Ipv4Range(p: Prefix): (r: (Addr, Addr))
  {
    ContainsIsABlock(p, p.addr);
    Pow2Values();
    if p.bits <= 30 then
      Pow2Add(2, 30 - p.bits);
      (Masked(p) + 1, Masked(p) + Size(p) - 2)
    else
      (Masked(p), Masked(p) + Size(p) - 1)
  }

  /** For /0 to /30 the range is exactly the block without its network and broadcast address; for /31 and /32
      it is the whole block. It is never empty. */
  lemma RangeIsHostRange(p: Prefix, a: Addr)
    ensures var (first, last) := Ipv4Range(p);
            first <= last &&
            (first <= a <= last <==> Contains(p, a) && (p.bits <= 30 ==> a != Masked(p) && a != Broadcast(p)))
  {
    ContainsIsABlock(p, a);
    Pow2Values();
    if p.bits <= 30 {
      Pow2Add(2, 30 - p.bits);
      assert Size(p) >= 4;
    }
  }

  predicate InRange(p: Prefix, a: Addr) {
    Ipv4Range(p).0 <= a <= Ipv4Range(p).1
  }

  predicate AdminFree(server: Addr, taken: set<Addr>, a: Addr) {
    a != server && a !in taken
  }

  predicate AdminStops(base: Addr, end: Addr, server: Addr, taken: set<Addr>, k: nat) {
    At(base, k) > end || AdminFree(server, taken, At(base, k))
  }

  ghost predicate AdminFirstStop(base: Addr, end: Addr, server: Addr, taken: set<Addr>, k: nat) {
    AdminStops(base, end, server, taken, k) && forall j: nat :: j < k ==> !AdminStops(base, end, server, taken, j)
  }

  lemma AdminFirstStopIsLeast(base: Addr, end: Addr, server: Addr, taken: set<Addr>, f: nat, k: nat)
    requires AdminFirstStop(base, end, server, taken, f) && AdminStops(base, end, server, taken, k)
    ensures f <= k
  {}

  function AdminResult(base: Addr, end: Addr, k: nat): Option<Addr> {
    if At(base, k) > end then None else Some(At(base, k))
  }

  ghost predicate AdminYields(base: Addr, end: Addr, server: Addr, taken: set<Addr>, r: Option<Addr>) {
    exists k: nat :: AdminFirstStop(base, end, server, taken, k) && r == AdminResult(base, end, k)
  }

  /** The counting loop returns: either the range ends below the largest uint32, or some address is free. */
  ghost predicate AdminEnds(end: Addr, server: Addr, taken: set<Addr>) {
    end < ADDR_SPACE - 1 || exists a: Addr :: AdminFree(server, taken, a)
  }

  lemma AdminStopExists(base: Addr, end: Addr, server: Addr, taken: set<Addr>) returns (k: nat)
    requires base <= end && AdminEnds(end, server, taken)
    ensures AdminStops(base, end, server, taken, k)
  {
    if end < ADDR_SPACE - 1 {
      k := end + 1 - base;
    } else {
      var a: Addr :| AdminFree(server, taken, a);
      k := if a >= base then a - base else a + ADDR_SPACE - base;
      assert At(base, k) == a;
    }
  }

  ghost predicate NoAdminStopBelow(base: Addr, end: Addr, server: Addr, taken: set<Addr>, k: nat) {
    forall j: nat :: j < k ==> !AdminStops(base, end, server, taken, j)
  }

  /** One round of the counting loop: a free address is the outcome, and any other moves the counter on. */
  lemma AdminRound(base: Addr, end: Addr, server: Addr, taken: set<Addr>, k: nat, n: Addr, stop: nat)
    requires NoAdminStopBelow(base, end, server, taken, k) && n == At(base, k) && n <= end
    requires k <= stop && AdminStops(base, end, server, taken, stop)
    ensures AdminFree(server, taken, n) ==> AdminYields(base, end, server, taken, Some(n))
    ensures !AdminFree(server, taken, n) ==>
              NoAdminStopBelow(base, end, server, taken, k + 1) && (n + 1) % ADDR_SPACE == At(base, k + 1) && k < stop
  {
    if AdminFree(server, taken, n) {
      assert AdminFirstStop(base, end, server, taken, k);
    }
  }

  lemma AdminPastEnd(base: Addr, end: Addr, server: Addr, taken: set<Addr>, k: nat)
    requires NoAdminStopBelow(base, end, server, taken, k) && At(base, k) > end
    ensures AdminYields(base, end, server, taken, None)
  {
    assert AdminFirstStop(base, end, server, taken, k);
  }

  /** The loop of `allocateVIP`: counts a uint32 from the first to the last address of the range.
      Incrementing the largest uint32 wraps to zero. */
  method CountUp(base: Addr, end: Addr, server: Addr, taken: set<Addr>) returns (r: Option<Addr>)
    requires base <= end && AdminEnds(end, server, taken)
    ensures AdminYields(base, end, server, taken, r)
  {
    ghost var stop := AdminStopExists(base, end, server, taken);
    ghost var k: nat := 0;
    var n := base;
    while n <= end
      invariant n == At(base, k) && k <= stop
      invariant NoAdminStopBelow(base, end, server, taken, k)
      decreases stop - k
    {
      AdminRound(base, end, server, taken, k, n, stop);
      if n != server && n !in taken {
        return Some(n);
      }
      n := (n + 1) % ADDR_SPACE;
      k := k + 1;
    }
    AdminPastEnd(base, end, server, taken, k);
    r := None;
  }

  /** `allocateVIP`. */
  method AllocateVIP(p: Prefix, server: Addr, taken: set<Addr>) returns (r: Option<Addr>)
    requires AdminEnds(Ipv4Range(p).1, server, taken)
    ensures AdminYields(Ipv4Range(p).0, Ipv4Range(p).1, server, taken, r)
  {
    var (base, end) := Ipv4Range(p);
    RangeIsHostRange(p, base);
    r := CountUp(base, end, server, taken);
  }

  /** The lowest address of the range that is neither the server's nor taken, or none if there is none. */
  ghost predicate LowestInRange(base: Addr, end: Addr, server: Addr, taken: set<Addr>, r: Option<Addr>) {
    match r
    case Some(a) => base <= a <= end && AdminFree(server, taken, a)
                    && forall x: Addr :: base <= x < a ==> !AdminFree(server, taken, x)
    case None => forall x: Addr :: base <= x <= end ==> !AdminFree(server, taken, x)
  }

  ghost predicate FreeInRange(base: Addr, end: Addr, server: Addr, taken: set<Addr>) {
    exists a: Addr :: base <= a <= end && AdminFree(server, taken, a)
  }

  /** Where the counting effectively starts over: a range that ends at the largest uint32 and has no free
      address is left by wrapping, and the loop goes on from 0.0.0.0. */
  ghost predicate Wraps(base: Addr, end: Addr, server: Addr, taken: set<Addr>) {
    end == ADDR_SPACE - 1 && !FreeInRange(base, end, server, taken)
  }

  lemma AdminStopsAt(base: Addr, x: Addr)
    ensures x >= base ==> At(base, x - base) == x
    ensures x < base ==> At(base, x + ADDR_SPACE - base) == x
  {}

  lemma AdminYieldExists(base: Addr, end: Addr, server: Addr, taken: set<Addr>) returns (r: Option<Addr>)
    requires base <= end && AdminEnds(end, server, taken)
    ensures AdminYields(base, end, server, taken, r)
  {
    var stop := AdminStopExists(base, end, server, taken);
    var k: nat := 0;
    while !AdminStops(base, end, server, taken, k)
      invariant k <= stop && NoAdminStopBelow(base, end, server, taken, k)
      decreases stop - k
    {
      k := k + 1;
    }
    assert AdminFirstStop(base, end, server, taken, k);
    r := AdminResult(base, end, k);
  }

  lemma YieldIsLowestInRange(base: Addr, end: Addr, server: Addr, taken: set<Addr>, r: Option<Addr>)
    requires base <= end && !Wraps(base, end, server, taken)
    requires AdminYields(base, end, server, taken, r)
    ensures LowestInRange(base, end, server, taken, r)
  {
    var k: nat :| AdminFirstStop(base, end, server, taken, k) && r == AdminResult(base, end, k);
    forall x: Addr | base <= x <= end && AdminFree(server, taken, x) ensures k <= x - base {
      AdminStopsAt(base, x);
      AdminFirstStopIsLeast(base, end, server, taken, k, x - base);
    }
    if k <= end - base {
      assert At(base, k) == base + k;
    } else {
      assert AdminStops(base, end, server, taken, end + 1 - base);
      assert k == end + 1 - base;
    }
  }

  lemma YieldAfterWrap(base: Addr, end: Addr, server: Addr, taken: set<Addr>, r: Option<Addr>)
    requires base <= end && Wraps(base, end, server, taken)
    requires AdminYields(base, end, server, taken, r)
    ensures r.Some? && LowestInRange(0, end, server, taken, r)
  {
    var k: nat :| AdminFirstStop(base, end, server, taken, k) && r == AdminResult(base, end, k);
    forall x: Addr | AdminFree(server, taken, x) ensures x < base && k <= x + ADDR_SPACE - base {
      AdminStopsAt(base, x);
      AdminFirstStopIsLeast(base, end, server, taken, k, x + ADDR_SPACE - base);
    }
    assert AdminFree(server, taken, At(base, k));
    assert At(base, k) == base + k - ADDR_SPACE;
  }

  lemma LowestInRangeIsUnique(base: Addr, end: Addr, server: Addr, taken: set<Addr>, r: Option<Addr>, r': Option<Addr>)
    requires LowestInRange(base, end, server, taken, r) && LowestInRange(base, end, server, taken, r')
    ensures r == r'
  {}

  /** What the counting loop gives, read off the range and the taken addresses alone. */
  lemma AdminYieldsIff(base: Addr, end: Addr, server: Addr, taken: set<Addr>, r: Option<Addr>)
    requires base <= end
    ensures AdminYields(base, end, server, taken, r) <==>
            AdminEnds(end, server, taken)
            && LowestInRange(if Wraps(base, end, server, taken) then 0 else base, end, server, taken, r)
  {
    if AdminYields(base, end, server, taken, r) {
      YieldIsEnd(base, end, server, taken, r);
    }
    if AdminEnds(end, server, taken) {
      var x := AdminYieldExists(base, end, server, taken);
      var first := if Wraps(base, end, server, taken) then 0 else base;
      forall y: Option<Addr> | AdminYields(base, end, server, taken, y)
        ensures LowestInRange(first, end, server, taken, y)
      {
        if Wraps(base, end, server, taken) {
          YieldAfterWrap(base, end, server, taken, y);
        } else {
          YieldIsLowestInRange(base, end, server, taken, y);
        }
      }
      if LowestInRange(first, end, server, taken, r) {
        LowestInRangeIsUnique(first, end, server, taken, r, x);
      }
    }
  }

  lemma YieldIsEnd(base: Addr, end: Addr, server: Addr, taken: set<Addr>, r: Option<Addr>)
    requires AdminYields(base, end, server, taken, r)
    ensures AdminEnds(end, server, taken)
  {
    var k: nat :| AdminFirstStop(base, end, server, taken, k) && r == AdminResult(base, end, k);
    assert At(base, k) > end || AdminFree(server, taken, At(base, k));
  }

  /** The counting loop yields the lowest free address of its range exactly when the range ends below the
      largest uint32 or still has a free address. */
  lemma AdminYieldsLowest(base: Addr, end: Addr, server: Addr, taken: set<Addr>, r: Option<Addr>)
    requires base <= end
    requires AdminYields(base, end, server, taken, r)
    ensures LowestInRange(base, end, server, taken, r)
       <==> end < ADDR_SPACE - 1 || FreeInRange(base, end, server, taken)
    ensures end == ADDR_SPACE - 1 ==> r.Some?
  {
    AdminYieldsIff(base, end, server, taken, r);
    if Wraps(base, end, server, taken) {
      YieldAfterWrap(base, end, server, taken, r);
    }
  }

  // ---- agreement --------------------------------------------------------------------------

  lemma FreeIsAdminFree(p: Prefix, server: Addr, taken: set<Addr>, a: Addr)
    requires p.bits <= 30
    ensures Free(p, server, taken, a) <==> InRange(p, a) && AdminFree(server, taken, a)
  {
    RangeIsHostRange(p, a);
  }

  ghost predicate AdminPicks(p: Prefix, server: Addr, taken: set<Addr>, r: Option<Addr>) {
    AdminYields(Ipv4Range(p).0, Ipv4Range(p).1, server, taken, r)
  }

  /** On /0 to /30 the admin handler offers the lowest free address of the whole block. */
  lemma AdminPicksLowest(p: Prefix, server: Addr, taken: set<Addr>, r: Option<Addr>)
    requires p.bits <= 30
    requires AdminPicks(p, server, taken, r)
    ensures LowestFree(p, server, taken, -1, r)
  {
    var (base, end) := Ipv4Range(p);
    RangeIsHostRange(p, base);
    ContainsIsABlock(p, p.addr);
    AdminYieldsLowest(base, end, server, taken, r);
    forall a: Addr { FreeIsAdminFree(p, server, taken, a); }
  }

  /** The address `allocateVIP` offers, read off the prefix and the taken addresses alone. */
  ghost predicate NextOffer(p: Prefix, server: Addr, taken: set<Addr>, a: Addr) {
    var (base, end) := Ipv4Range(p);
    LowestInRange(if Wraps(base, end, server, taken) then 0 else base, end, server, taken, Some(a))
  }

  lemma AdminPicksIff(p: Prefix, server: Addr, taken: set<Addr>, a: Addr)
    ensures AdminPicks(p, server, taken, Some(a)) <==> NextOffer(p, server, taken, a)
    ensures p.bits <= 30 ==> (NextOffer(p, server, taken, a) <==> LowestFree(p, server, taken, -1, Some(a)))
  {
    var (base, end) := Ipv4Range(p);
    RangeIsHostRange(p, base);
    AdminYieldsIff(base, end, server, taken, Some(a));
    if p.bits <= 30 {
      ContainsIsABlock(p, p.addr);
      forall x: Addr { FreeIsAdminFree(p, server, taken, x); }
    }
  }

  /** Every host address at or below the prefix address is the server's: nothing the relay scan skips
      could have been handed out by the admin handler. */
  ghost predicate NothingSkipped(p: Prefix, server: Addr) {
    forall a: Addr :: InRange(p, a) && a <= p.addr ==> a == server
  }

  lemma AgreeOn(p: Prefix, server: Addr, taken: set<Addr>, r1: Option<Addr>, r2: Option<Addr>)
    requires 1 <= p.bits <= 30 && NothingSkipped(p, server)
    requires ScanYields(p, server, taken, r1) && AdminPicks(p, server, taken, r2)
    ensures r1 == r2
  {
    ScanYieldsLowest(p, server, taken, r1);
    AdminPicksLowest(p, server, taken, r2);
    forall a: Addr | a <= p.addr ensures !Free(p, server, taken, a) {
      FreeIsAdminFree(p, server, taken, a);
    }
    LowestFreeIsUnique(p, server, taken, p.addr, r1, r2);
  }

  ghost predicate Agree(p: Prefix, server: Addr) {
    forall taken: set<Addr>, r1: Option<Addr>, r2: Option<Addr> ::
      ScanYields(p, server, taken, r1) && AdminPicks(p, server, taken, r2) ==> r1 == r2
  }

  lemma MaskedSkipsNothing(p: Prefix, server: Addr)
    requires p.bits <= 30 && IsMasked(p)
    ensures NothingSkipped(p, server)
  {
    forall a: Addr | InRange(p, a) ensures a > p.addr {
      RangeIsHostRange(p, a);
      ContainsIsABlock(p, a);
    }
  }

  lemma ScanYieldExists(p: Prefix, server: Addr, taken: set<Addr>) returns (r: Option<Addr>)
    requires ScanEnds(p, server, taken)
    ensures ScanYields(p, server, taken, r)
  {
    var k: nat :| k >= 1 && Stops(p, server, taken, k);
    var f := FirstStopExists(p, server, taken, k);
    r := StopResult(p, f);
  }

  /** Both scans have an outcome on the empty set of taken addresses. */
  lemma Outcomes(p: Prefix, server: Addr) returns (r1: Option<Addr>, r2: Option<Addr>)
    ensures ScanYields(p, server, {}, r1) && AdminPicks(p, server, {}, r2)
  {
    var other: Addr := if server == 1 then 2 else 1;
    if p.bits == 0 {
      Pow2Values();
      ContainsIsABlock(p, other);
      assert Free(p, server, {}, other);
    }
    ScanEndsIff(p, server, {});
    r1 := ScanYieldExists(p, server, {});
    var (base, end) := Ipv4Range(p);
    RangeIsHostRange(p, base);
    assert AdminFree(server, {}, other);
    r2 := AdminYieldExists(base, end, server, {});
  }

  lemma DisagreeWhenSkipped(p: Prefix, server: Addr)
    requires 1 <= p.bits <= 30 && !NothingSkipped(p, server)
    ensures !Agree(p, server)
  {
    var a: Addr :| InRange(p, a) && a <= p.addr && a != server;
    var r1, r2 := Outcomes(p, server);
    ScanYieldsLowest(p, server, {}, r1);
    AdminPicksLowest(p, server, {}, r2);
    FreeIsAdminFree(p, server, {}, a);
    assert r1 != r2;
  }

  /** On /31 and /32 the relay never finds an address. */
  lemma RelayRefusesNarrowPrefixes(p: Prefix, server: Addr, taken: set<Addr>, r: Option<Addr>)
    requires p.bits >= 31
    requires ScanYields(p, server, taken, r)
    ensures r == None
  {
    ScanYieldsLowest(p, server, taken, r);
    Pow2Values();
    forall a: Addr ensures !Free(p, server, taken, a) {
      ContainsIsABlock(p, a);
    }
  }

  /** So there the two agree exactly when the admin handler finds none either: its range has no free address
      and does not end at the largest uint32. */
  lemma AllocatorsAgreeOnNarrowPrefixes(p: Prefix, server: Addr, taken: set<Addr>, r1: Option<Addr>, r2: Option<Addr>)
    requires p.bits >= 31
    requires ScanYields(p, server, taken, r1) && AdminPicks(p, server, taken, r2)
    ensures var (base, end) := Ipv4Range(p);
            r1 == r2 <==> end < ADDR_SPACE - 1 && !FreeInRange(base, end, server, taken)
  {
    var (base, end) := Ipv4Range(p);
    RangeIsHostRange(p, base);
    RelayRefusesNarrowPrefixes(p, server, taken, r1);
    AdminYieldsLowest(base, end, server, taken, r2);
  }

  ghost predicate FreeBehind(p: Prefix, server: Addr, taken: set<Addr>) {
    exists a: Addr :: a > p.addr && Free(p, server, taken, a)
  }

  ghost predicate FreeUpTo(p: Prefix, server: Addr, taken: set<Addr>) {
    exists a: Addr :: a <= p.addr && Free(p, server, taken, a)
  }

  lemma StepsToIsOnly(start: Addr, k: nat)
    requires 1 <= k <= ADDR_SPACE
    ensures StepsTo(start, At(start, k)) == k
  {}

  lemma WholeSpaceStop(p: Prefix, server: Addr, taken: set<Addr>, k: nat, x: Addr)
    requires p.bits == 0 && FirstStop(p, server, taken, k) && Free(p, server, taken, x)
    ensures k <= StepsTo(p.addr, x)
  {
    FirstStopIsLeast(p, server, taken, k, StepsTo(p.addr, x));
  }

  /** On /0 the relay's scan goes round the whole address space: the lowest free address behind the prefix
      address, else the lowest of all. */
  lemma WholeSpaceYieldsLowest(p: Prefix, server: Addr, taken: set<Addr>, r: Option<Addr>)
    requires p.bits == 0
    requires ScanYields(p, server, taken, r)
    ensures r.Some?
    ensures LowestFree(p, server, taken, if FreeBehind(p, server, taken) then p.addr else -1, r)
  {
    var k: nat :| FirstStop(p, server, taken, k) && r == StopResult(p, k);
    var a := At(p.addr, k);
    EverythingIsInside(p, a);
    assert Free(p, server, taken, a);
    WholeSpaceStop(p, server, taken, k, a);
    StepsToIsOnly(p.addr, k);
    forall x: Addr | Free(p, server, taken, x) ensures StepsTo(p.addr, a) <= StepsTo(p.addr, x) {
      WholeSpaceStop(p, server, taken, k, x);
    }
  }

  /** On /0 the two agree exactly when free addresses lie on one side of the prefix address only. */
  lemma AllocatorsAgreeOnWholeSpace(p: Prefix, server: Addr, taken: set<Addr>, r1: Option<Addr>, r2: Option<Addr>)
    requires p.bits == 0
    requires ScanYields(p, server, taken, r1) && AdminPicks(p, server, taken, r2)
    ensures r1 == r2 <==> !FreeUpTo(p, server, taken) || !FreeBehind(p, server, taken)
    ensures r1.Some?
  {
    WholeSpaceYieldsLowest(p, server, taken, r1);
    AdminPicksLowest(p, server, taken, r2);
  }

  /** Every host address above the prefix address is the server's. */
  ghost predicate NothingBehind(p: Prefix, server: Addr) {
    forall a: Addr :: InRange(p, a) && a > p.addr ==> a == server
  }

  lemma WholeSpaceAgreesIff(p: Prefix, server: Addr)
    requires p.bits == 0
    ensures Agree(p, server) <==> NothingSkipped(p, server) || NothingBehind(p, server)
  {
    forall taken: set<Addr>, a: Addr { FreeIsAdminFree(p, server, taken, a); }
    if NothingSkipped(p, server) || NothingBehind(p, server) {
      forall taken: set<Addr>, r1: Option<Addr>, r2: Option<Addr> |
        ScanYields(p, server, taken, r1) && AdminPicks(p, server, taken, r2) ensures r1 == r2
      {
        AllocatorsAgreeOnWholeSpace(p, server, taken, r1, r2);
      }
    } else {
      var r1, r2 := Outcomes(p, server);
      AllocatorsAgreeOnWholeSpace(p, server, {}, r1, r2);
      var a: Addr :| InRange(p, a) && a <= p.addr && a != server;
      var b: Addr :| InRange(p, b) && b > p.addr && b != server;
      assert Free(p, server, {}, a) && Free(p, server, {}, b);
    }
  }

  lemma NarrowAgreesIff(p: Prefix, server: Addr)
    requires p.bits >= 31
    ensures Agree(p, server) <==> p.bits == 32 && p.addr == server && server < ADDR_SPACE - 1
  {
    var (base, end) := Ipv4Range(p);
    Pow2Values();
    ContainsIsABlock(p, p.addr);
    var r1, r2 := Outcomes(p, server);
    AllocatorsAgreeOnNarrowPrefixes(p, server, {}, r1, r2);
    if p.bits == 32 && p.addr == server && server < ADDR_SPACE - 1 {
      forall taken: set<Addr>, r1: Option<Addr>, r2: Option<Addr> |
        ScanYields(p, server, taken, r1) && AdminPicks(p, server, taken, r2) ensures r1 == r2
      {
        AllocatorsAgreeOnNarrowPrefixes(p, server, taken, r1, r2);
      }
    } else if end < ADDR_SPACE - 1 {
      var a := if base == server then end else base;
      assert AdminFree(server, {}, a);
    }
  }

  /** When the two allocators give the same answer for every set of taken addresses. */
  ghost predicate SameAnswers(p: Prefix, server: Addr) {
    if p.bits == 0 then NothingSkipped(p, server) || NothingBehind(p, server)
    else if p.bits <= 30 then NothingSkipped(p, server)
    else p.bits == 32 && p.addr == server && server < ADDR_SPACE - 1
  }

  /** They do exactly then, on every prefix; every masked prefix of at most 30 bits qualifies. */
  lemma AllocatorsAgreeIff(p: Prefix, server: Addr)
    ensures Agree(p, server) <==> SameAnswers(p, server)
    ensures p.bits <= 30 && IsMasked(p) ==> Agree(p, server)
  {
    if p.bits <= 30 && IsMasked(p) { MaskedSkipsNothing(p, server); }
    if p.bits == 0 {
      WholeSpaceAgreesIff(p, server);
    } else if p.bits >= 31 {
      NarrowAgreesIff(p, server);
    } else if NothingSkipped(p, server) {
      forall taken: set<Addr>, r1: Option<Addr>, r2: Option<Addr> |
        ScanYields(p, server, taken, r1) && AdminPicks(p, server, taken, r2) ensures r1 == r2
      {
        AgreeOn(p, server, taken, r1, r2);
      }
    } else {
      DisagreeWhenSkipped(p, server);
    }
  }
}
