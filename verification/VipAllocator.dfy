/** The relay's address allocator: two maps kept inverse to each other over any sequence of calls. */
module VipAllocator {
  import opened Wrappers
  import opened Addr
  import opened AddrBytes
  import opened VipScan

  datatype State = State(held: map<Addr, string>, deviceToIP: map<string, Addr>)

  datatype Op = Allocate(device: string) | Release(device: string)

  /** The maps are inverse to each other and hold only usable addresses. */
  ghost predicate Consistent(c: Config, s: State) {
    && (forall d :: d in s.deviceToIP ==>
          s.deviceToIP[d] in s.held && s.held[s.deviceToIP[d]] == d)
    && (forall a :: a in s.held ==>
          s.held[a] in s.deviceToIP && s.deviceToIP[s.held[a]] == a)
    && (forall a :: a in s.held ==> Usable(c.prefix, c.server, a))
  }

  /** One call: `r` is the address an Allocate returns, None its error (and the result of a Release). */
  ghost predicate Step(c: Config, s: State, op: Op, s': State, r: Option<Addr>) {
    match op
    case Allocate(d) =>
      if d in s.deviceToIP then s' == s && r == Some(s.deviceToIP[d])
      else
        && ScanYields(c.prefix, c.server, s.held.Keys, r)
        && s' == if r.Some? then State(s.held[r.value := d], s.deviceToIP[d := r.value]) else s
    case Release(d) =>
      && r == None
      && s' == if d in s.deviceToIP then State(s.held - {s.deviceToIP[d]}, s.deviceToIP - {d}) else s
  }

  lemma YieldIsFree(c: Config, taken: set<Addr>, a: Addr)
    requires ScanYields(c.prefix, c.server, taken, Some(a))
    ensures Free(c.prefix, c.server, taken, a)
  {}

  lemma StepKeepsConsistent(c: Config, s: State, op: Op, s': State, r: Option<Addr>)
    requires Consistent(c, s) && Step(c, s, op, s', r)
    ensures Consistent(c, s')
  {
    if op.Allocate? && op.device !in s.deviceToIP && r.Some? {
      YieldIsFree(c, s.held.Keys, r.value);
    }
  }

  /** A run: the states before and after each call, with each call's result. */
  ghost predicate Run(c: Config, states: seq<State>, ops: seq<Op>, rs: seq<Option<Addr>>) {
    && |states| == |ops| + 1 && |rs| == |ops|
    && states[0] == State(map[], map[])
    && forall i :: 0 <= i < |ops| ==> Step(c, states[i], ops[i], states[i + 1], rs[i])
  }

  /** Every state of every run is consistent. */
  lemma {:induction false} RunKeepsConsistent(c: Config, states: seq<State>, ops: seq<Op>, rs: seq<Option<Addr>>,
                                              i: nat)
    requires Run(c, states, ops, rs) && i <= |ops|
    ensures Consistent(c, states[i])
  {
    if i > 0 {
      RunKeepsConsistent(c, states, ops, rs, i - 1);
      StepKeepsConsistent(c, states[i - 1], ops[i - 1], states[i], rs[i - 1]);
    }
  }

  /** A device keeps the address an Allocate gave it until it is released. */
  lemma {:induction false} AllocationIsStable(c: Config, states: seq<State>, ops: seq<Op>, rs: seq<Option<Addr>>,
                                              d: string, a: Addr, i: nat, j: nat)
    requires Run(c, states, ops, rs) && i < j <= |ops|
    requires ops[i] == Allocate(d) && rs[i] == Some(a)
    requires forall k :: i < k < j ==> ops[k] != Release(d)
    ensures d in states[j].deviceToIP && states[j].deviceToIP[d] == a
  {
    if i + 1 < j {
      AllocationIsStable(c, states, ops, rs, d, a, i, j - 1);
      assert Step(c, states[j - 1], ops[j - 1], states[j], rs[j - 1]);
    } else {
      assert Step(c, states[i], ops[i], states[j], rs[i]);
    }
  }

  /** A released device has no address, the one it had is held by nobody, and everybody else keeps theirs. */
  lemma ReleaseFrees(c: Config, s: State, d: string, s': State, r: Option<Addr>, e: string)
    requires Consistent(c, s) && Step(c, s, Release(d), s', r)
    ensures d !in s'.deviceToIP && (d in s.deviceToIP ==> s.deviceToIP[d] !in s'.held)
    ensures e != d ==> (e in s'.deviceToIP <==> e in s.deviceToIP)
    ensures e != d && e in s.deviceToIP ==>
              && s'.deviceToIP[e] == s.deviceToIP[e]
              && s.deviceToIP[e] in s'.held && s'.held[s.deviceToIP[e]] == e
  {}

  /** It comes back in line for its address: on masked prefixes of 1 to 30 bits an Allocate right after a Release never
      answers with an address behind the released one. */
  lemma ReleasedIsFree(c: Config, s: State, d: string, s1: State, e: string, s2: State, r: Option<Addr>)
    requires 1 <= c.prefix.bits <= 30 && IsMasked(c.prefix) && Consistent(c, s) && d in s.deviceToIP
    requires Step(c, s, Release(d), s1, None) && e !in s1.deviceToIP && Step(c, s1, Allocate(e), s2, r)
    ensures r.Some? && r.value <= s.deviceToIP[d]
  {
    var a := s.deviceToIP[d];
    assert Usable(c.prefix, c.server, a) && a !in s1.held;
    AllocateIsCompleteOnMaskedPrefixes(c, s1, e, s2, r);
  }

  /** Two devices that both hold an address never hold the same one, and a later Allocate of a device that was
      not released answers with the address of the first one. */
  lemma AllocationsAreExclusive(c: Config, states: seq<State>, ops: seq<Op>, rs: seq<Option<Addr>>,
                                d: string, a: Addr, i: nat, j: nat)
    requires Run(c, states, ops, rs) && i < j < |ops|
    requires ops[i] == Allocate(d) && rs[i] == Some(a)
    requires forall k :: i < k < j ==> ops[k] != Release(d)
    requires ops[j].Allocate?
    ensures rs[j] == Some(a) <==> ops[j].device == d
  {
    AllocationIsStable(c, states, ops, rs, d, a, i, j);
    RunKeepsConsistent(c, states, ops, rs, j);
    assert Step(c, states[j], ops[j], states[j + 1], rs[j]);
    if ops[j].device !in states[j].deviceToIP && rs[j].Some? {
      YieldIsFree(c, states[j].held.Keys, rs[j].value);
    }
  }

  /** On prefixes of 1 to 30 bits whose address is the network address, an Allocate for a new device fails
      exactly when every usable address is held, and otherwise returns the lowest one that is not. */
  lemma AllocateIsCompleteOnMaskedPrefixes(c: Config, s: State, d: string, s': State, r: Option<Addr>)
    requires 1 <= c.prefix.bits <= 30 && IsMasked(c.prefix)
    requires d !in s.deviceToIP && Step(c, s, Allocate(d), s', r)
    ensures r == None <==> forall a: Addr :: Usable(c.prefix, c.server, a) ==> a in s.held
    ensures r.Some? ==> Usable(c.prefix, c.server, r.value) && r.value !in s.held
                        && forall a: Addr :: Usable(c.prefix, c.server, a) && a < r.value ==> a in s.held
  {
    var p := c.prefix;
    ScanYieldsLowest(p, c.server, s.held.Keys, r);
    forall a: Addr | Usable(p, c.server, a) ensures a > p.addr {
      ContainsIsABlock(p, a);
    }
    forall a: Addr | Usable(p, c.server, a) && a !in s.held ensures Free(p, c.server, s.held.Keys, a) {}
  }

  class Allocator {
    const prefix: Prefix
    const serverIP: Addr
    var held: map<Addr, string>
    var deviceToIP: map<string, Addr>

    ghost function Cfg(): Config { Config(prefix, serverIP) }

    ghost function Now(): State
      reads this
    {
      State(held, deviceToIP)
    }

    ghost predicate Valid()
      reads this
    {
      Consistent(Cfg(), Now())
    }

    constructor (prefix: Prefix, serverIP: Addr)
      ensures Valid() && Cfg() == Config(prefix, serverIP) && Now() == State(map[], map[])
    {
      this.prefix := prefix;
      this.serverIP := serverIP;
      held := map[];
      deviceToIP := map[];
    }

    /** The scanning loop: from the address after the prefix address, skipping the server, broadcast and
        network address. On a /0 with nothing free the original never returns. */
    method Scan() returns (r: Option<Addr>)
      requires ScanEnds(prefix, serverIP, held.Keys)
      ensures ScanYields(prefix, serverIP, held.Keys, r)
    {
      ghost var taken := held.Keys;
      ghost var stop: nat :| stop >= 1 && Stops(prefix, serverIP, taken, stop);
      ghost var k: nat := 0;
      var addr := prefix.addr;
      var broadcast := BroadcastAddr(prefix);
      var network := Masked(prefix);
      while true
        invariant addr == At(prefix.addr, k) && NoStopUpTo(prefix, serverIP, taken, k)
        decreases stop - k
      {
        addr := NextAddr(addr);
        StopIsAhead(prefix, serverIP, taken, k, stop);
        ScanRound(prefix, serverIP, taken, k, addr);
        k := k + 1;
        if !Contains(prefix, addr) {
          return None;
        }
        var free := IsFree(addr, broadcast, network);
        if free {
          return Some(addr);
        }
      }
    }

    /** The checks on an address inside the prefix. */
    method IsFree(addr: Addr, broadcast: Addr, network: Addr) returns (free: bool)
      requires Contains(prefix, addr) && broadcast == Broadcast(prefix) && network == Masked(prefix)
      ensures free <==> Free(prefix, serverIP, held.Keys, addr)
    {
      free := addr != serverIP && addr != broadcast && addr != network && addr !in held;
    }

    method Allocate(device: string) returns (r: Option<Addr>)
      requires Valid()
      requires device in deviceToIP || ScanEnds(prefix, serverIP, held.Keys)
      modifies this
      ensures Valid()
      ensures Step(Cfg(), old(Now()), Op.Allocate(device), Now(), r)
    {
      if device in deviceToIP {
        return Some(deviceToIP[device]);
      }
      r := Scan();
      if r.Some? {
        held := held[r.value := device];
        deviceToIP := deviceToIP[device := r.value];
      }
      StepKeepsConsistent(Cfg(), old(Now()), Op.Allocate(device), Now(), r);
    }

    method Release(device: string)
      requires Valid()
      modifies this
      ensures Valid()
      ensures Step(Cfg(), old(Now()), Op.Release(device), Now(), None)
      ensures deviceToIP == old(deviceToIP) - {device} && device !in held.Values
      ensures forall a :: a in old(held) && old(held)[a] != device ==> a in held && held[a] == old(held)[a]
      ensures forall a :: a in held ==> a in old(held) && held[a] == old(held)[a]
    {
      if device in deviceToIP {
        var ip := deviceToIP[device];
        held := held - {ip};
        deviceToIP := deviceToIP - {device};
      }
      StepKeepsConsistent(Cfg(), old(Now()), Op.Release(device), Now(), None);
    }

    method GetIP(device: string) returns (r: Option<Addr>)
      requires Valid()
      ensures r.Some? <==> exists a :: a in held && held[a] == device
      ensures r.Some? ==> r.value in held && held[r.value] == device
    {
      r := if device in deviceToIP then Some(deviceToIP[device]) else None;
    }
  }
}
