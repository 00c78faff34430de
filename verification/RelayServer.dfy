/** The relay server's lock-protected bodies and selection loops on connection objects. Their contracts use the
    functions the state machine is made of. */
module RelayServer {
  import opened Wrappers
  import opened Addr
  import opened Packet
  import opened FlowTable
  import opened Registry
  import opened RelayModel

  class Client {
    const deviceID: string
    const virtualIP: Addr
    const capacity: nat
    var writeCh: seq<Bytes>
    var closed: bool
    var done: bool

    constructor (deviceID: string, virtualIP: Addr, capacity: nat)
      ensures this.deviceID == deviceID && this.virtualIP == virtualIP && this.capacity == capacity
      ensures writeCh == [] && !closed && !done
    {
      this.deviceID, this.virtualIP, this.capacity := deviceID, virtualIP, capacity;
      writeCh, closed, done := [], false, false;
    }

    method MarkClosed()
      modifies this`closed, this`done
      ensures closed && done
    {
      closed := true;
      done := true;
    }

    /** `tryEnqueueRelay`: never blocks and never overfills. */
    method TryEnqueue(raw: Bytes) returns (ok: bool)
      modifies this`writeCh
      ensures ok <==> !closed && !done && |old(writeCh)| < capacity
      ensures writeCh == old(writeCh) + if ok then [raw] else []
    {
      if closed {
        return false;
      }
      if |writeCh| < capacity && !done {
        writeCh := writeCh + [raw];
        return true;
      }
      ok := false;
    }
  }

  /** `selectPrimary`: the first client of the list that is not closed. */
  method SelectPrimary(conns: seq<Client>) returns (r: Option<Client>)
    ensures match r
            case None => forall i :: 0 <= i < |conns| ==> conns[i].closed
            case Some(c) => exists i ::
              0 <= i < |conns| && conns[i] == c && !c.closed && forall j :: 0 <= j < i ==> conns[j].closed
  {
    for i := 0 to |conns|
      invariant forall j :: 0 <= j < i ==> conns[j].closed
    {
      if !conns[i].closed {
        return Some(conns[i]);
      }
    }
    r := None;
  }

  /** Free places in a client's queue. */
  function Avail(c: Client): int
    reads c
  {
    c.capacity - |c.writeCh|
  }

  predicate Eligible(c: Client, primary: Option<Client>)
    reads c
  {
    Some(c) != primary && !c.closed
  }

  /** The client at `b` is eligible, none eligible has more free places, and no earlier one has as many. */
  ghost predicate IsBest(conns: seq<Client>, primary: Option<Client>, b: nat)
    requires b < |conns|
    reads conns
  {
    && Eligible(conns[b], primary)
    && (forall i :: 0 <= i < |conns| && Eligible(conns[i], primary) ==> Avail(conns[i]) <= Avail(conns[b]))
    && (forall i :: 0 <= i < b && Eligible(conns[i], primary) ==> Avail(conns[i]) < Avail(conns[b]))
  }

  /** `selectBestStandby`: the open client other than the primary with most free places, the earliest one on a tie. */
  method SelectBestStandby(conns: seq<Client>, primary: Option<Client>) returns (best: Option<Client>)
    requires forall i :: 0 <= i < |conns| ==> |conns[i].writeCh| <= conns[i].capacity
    ensures best == None ==> forall i :: 0 <= i < |conns| ==> !Eligible(conns[i], primary)
    ensures best.Some? ==> exists b :: 0 <= b < |conns| && conns[b] == best.value && IsBest(conns, primary, b)
  {
    best := None;
    var bestAvail := -1;
    ghost var b := 0;
    for i := 0 to |conns|
      invariant best == None ==> bestAvail == -1 && forall j :: 0 <= j < i ==> !Eligible(conns[j], primary)
      invariant best.Some? ==>
                  0 <= b < i && conns[b] == best.value && Eligible(conns[b], primary) && bestAvail == Avail(conns[b])
      invariant best.Some? ==> forall j :: 0 <= j < i && Eligible(conns[j], primary) ==> Avail(conns[j]) <= bestAvail
      invariant best.Some? ==> forall j :: 0 <= j < b && Eligible(conns[j], primary) ==> Avail(conns[j]) < bestAvail
    {
      if Some(conns[i]) == primary || conns[i].closed {
        continue;
      }
      var avail := conns[i].capacity - |conns[i].writeCh|;
      if avail > bestAvail {
        best, bestAvail, b := Some(conns[i]), avail, i;
      }
    }
  }

  /** `removeConn` run on the list's backing array. */
  method Without(list: seq<Client>, c: Client) returns (rest: seq<Client>)
    ensures rest == RemoveFirst(list, c)
  {
    var a := new Client[|list|](i requires 0 <= i < |list| => list[i]);
    assert a[..] == list;
    var n := RemoveConn(a, c);
    rest := a[..n];
  }

  /** The client is appended to the list under `v`. */
  method Appended<V(==)>(m: map<V, seq<Client>>, v: V, c: Client) returns (m': map<V, seq<Client>>)
    ensures m' == IndexAdd(m, v, c)
  {
    m' := m[v := (if v in m then m[v] else []) + [c]];
  }

  /** The client leaves the list under `v`; an empty list goes with its key. */
  method Dropped<V(==)>(m: map<V, seq<Client>>, v: V, c: Client) returns (m': map<V, seq<Client>>)
    ensures m' == IndexRemove(m, v, c)
  {
    var rest := Without(if v in m then m[v] else [], c);
    m' := if rest == [] then m - {v} else m[v := rest];
  }

  class Server {
    var clients: map<string, seq<Client>>
    var vipMap: map<Addr, seq<Client>>
    var tcpFlows: map<FlowKey, Binding<Client>>

    /** The registered clients, oldest registration first, and the attributes of all clients ever registered. */
    ghost var regs: seq<Client>
    ghost var deviceOf: map<Client, string>
    ghost var vipOf: map<Client, Addr>

    ghost predicate Valid()
      reads this
    {
      && NoDuplicates(regs)
      && Indexes(clients, regs, deviceOf) && Indexes(vipMap, regs, vipOf)
    }

    ghost predicate Knows(c: Client)
      reads this
    {
      c in deviceOf && deviceOf[c] == c.deviceID && c in vipOf && vipOf[c] == c.virtualIP
    }

    constructor ()
      ensures Valid() && regs == [] && tcpFlows == map[]
    {
      clients, vipMap, tcpFlows := map[], map[], map[];
      regs, deviceOf, vipOf := [], map[], map[];
    }

    method RegisterClient(c: Client)
      requires Valid() && c !in regs
      modifies this`clients, this`vipMap, this`regs, this`deviceOf, this`vipOf
      ensures Valid() && regs == old(regs) + [c] && Knows(c)
      ensures clients == IndexAdd(old(clients), c.deviceID, c) && vipMap == IndexAdd(old(vipMap), c.virtualIP, c)
      ensures deviceOf == old(deviceOf)[c := c.deviceID] && vipOf == old(vipOf)[c := c.virtualIP]
    {
      AddKeepsBoth(clients, vipMap, regs, deviceOf, vipOf, c, c.deviceID, c.virtualIP);
      clients := Appended(clients, c.deviceID, c);
      vipMap := Appended(vipMap, c.virtualIP, c);
      regs, deviceOf, vipOf := regs + [c], deviceOf[c := c.deviceID], vipOf[c := c.virtualIP];
    }

    /** Closes the client, takes it out of both indices, drops empty lists and every binding to it. */
    method UnregisterClient(c: Client)
      requires Valid() && Knows(c)
      modifies this`clients, this`vipMap, this`tcpFlows, this`regs, c`closed, c`done
      ensures Valid() && regs == RemoveFirst(old(regs), c) && c !in regs
      ensures c.closed && c.done
      ensures clients == IndexRemove(old(clients), c.deviceID, c) && vipMap == IndexRemove(old(vipMap), c.virtualIP, c)
      ensures tcpFlows == DropTarget(old(tcpFlows), c)
      ensures forall f :: f in tcpFlows <==> f in old(tcpFlows) && old(tcpFlows)[f].target != c
    {
      c.MarkClosed();
      RemoveFromIndices(c);
      RemoveTCPFlowsForClient(c);
    }

    method RemoveFromIndices(c: Client)
      requires Valid() && Knows(c)
      modifies this`clients, this`vipMap, this`regs
      ensures Valid() && regs == RemoveFirst(old(regs), c) && c !in regs
      ensures clients == IndexRemove(old(clients), c.deviceID, c) && vipMap == IndexRemove(old(vipMap), c.virtualIP, c)
    {
      RemoveKeepsBoth(clients, vipMap, regs, deviceOf, vipOf, c);
      clients := Dropped(clients, c.deviceID, c);
      vipMap := Dropped(vipMap, c.virtualIP, c);
      regs := RemoveFirst(regs, c);
    }

    method RemoveTCPFlowsForClient(target: Client)
      modifies this`tcpFlows
      ensures tcpFlows == DropTarget(old(tcpFlows), target)
      ensures forall f :: f in tcpFlows <==> f in old(tcpFlows) && old(tcpFlows)[f].target != target
      ensures forall f :: f in tcpFlows ==> tcpFlows[f] == old(tcpFlows)[f]
    {
      ghost var was := tcpFlows;
      var left := tcpFlows.Keys;
      while left != {}
        invariant left <= was.Keys
        invariant forall f :: f in tcpFlows <==> f in was && (f in left || was[f].target != target)
        invariant forall f :: f in tcpFlows ==> tcpFlows[f] == was[f]
        decreases left
      {
        var f :| f in left;
        if tcpFlows[f].target == target {
          tcpFlows := tcpFlows - {f};
        }
        left := left - {f};
      }
    }

    method BoundTCPClient(f: FlowKey) returns (r: Option<Client>)
      ensures r.Some? <==> f in tcpFlows && !tcpFlows[f].target.closed
      ensures r.Some? ==> r.value == tcpFlows[f].target
    {
      if f !in tcpFlows || tcpFlows[f].target.closed {
        return None;
      }
      r := Some(tcpFlows[f].target);
    }

    method AfterTCPEnqueue(h: TCPHeader, target: Client, now: int)
      modifies this`tcpFlows
      ensures tcpFlows == Rebound(old(tcpFlows), h, target, now)
      ensures forall f :: f != h.flow ==>
                (f in tcpFlows <==> f in old(tcpFlows)) && (f in tcpFlows ==> tcpFlows[f] == old(tcpFlows)[f])
      ensures h.flow in tcpFlows <==> h.flags % 2 == 0 && h.flags / 4 % 2 == 0
      ensures h.flow in tcpFlows ==> tcpFlows[h.flow] == Binding(target, now)
    {
      if ClosesFlow(h) {
        tcpFlows := tcpFlows - {h.flow};
        return;
      }
      tcpFlows := tcpFlows[h.flow := Binding(target, now)];
    }

    ghost function ClosedTargets(flows: map<FlowKey, Binding<Client>>): set<Client>
      reads set f | f in flows :: flows[f].target
    {
      set f | f in flows && flows[f].target.closed :: flows[f].target
    }

    method ExpireTCPFlows(now: int)
      modifies this`tcpFlows
      ensures tcpFlows == Unexpired(old(tcpFlows), ClosedTargets(old(tcpFlows)), now)
      ensures forall f :: f in tcpFlows <==>
                f in old(tcpFlows) && !old(tcpFlows)[f].target.closed
                && now - old(tcpFlows)[f].lastAt <= 120_000_000_000
      ensures forall f :: f in tcpFlows ==> tcpFlows[f] == old(tcpFlows)[f]
    {
      ghost var was := tcpFlows;
      ghost var gone := ClosedTargets(was);
      var left := tcpFlows.Keys;
      while left != {}
        invariant left <= was.Keys
        invariant forall f :: f in tcpFlows <==>
                    f in was && (f in left || (was[f].target !in gone && !Idle(was[f], now)))
        invariant forall f :: f in tcpFlows ==> tcpFlows[f] == was[f]
        decreases left
      {
        var f :| f in left;
        if tcpFlows[f].target.closed || now - tcpFlows[f].lastAt > FLOW_IDLE_TIMEOUT {
          tcpFlows := tcpFlows - {f};
        }
        left := left - {f};
      }
    }
  }
}
