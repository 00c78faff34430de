/** What relay and client pool share: bounded write queues and the table that binds TCP flows to connections. */
module FlowTable {
  import opened Wrappers
  import opened Packet
  import opened EventLog

  // ---- queues -----------------------------------------------------------------------------

  /** What the write loop is doing. */
  datatype Writer = Idling | Writing | Stopped

  /** A connection's bounded queue with its history: `taken` is what the write loop took off it, `sent` what it
      wrote. */
  datatype Chan = Chan(cap: nat, queue: seq<Frame>, taken: seq<Frame>, sent: seq<Frame>, writer: Writer)

  function NewChan(cap: nat): Chan {
    Chan(cap, [], [], [], Idling)
  }

  /** The write loop takes the oldest packet. */
  function TakenOff(c: Chan): Chan
    requires c.queue != []
  {
    c.(queue := c.queue[1..], taken := c.taken + [c.queue[0]], writer := Writing)
  }

  /** Its write returns; a failed one ends the loop. */
  function Written(c: Chan, ok: bool): Chan {
    if ok then c.(sent := c.taken, writer := Idling) else c.(writer := Stopped)
  }

  /** A queue holds, in order, what it accepted and its write loop has not taken yet; it never exceeds its capacity;
      what was sent is everything taken, except for a last packet that is being written or whose write failed. */
  ghost predicate GoodChan(c: Chan, accepted: seq<Frame>) {
    && accepted == c.taken + c.queue
    && |c.queue| <= c.cap
    && c.sent <= c.taken && |c.taken| == |c.sent| + if c.writer == Idling then 0 else 1
  }

  /** Every packet a connection ever accepted is accounted for; one without a queue accepted none. */
  ghost predicate Conserved(chans: map<ConnId, Chan>, log: Log, id: ConnId) {
    if id in chans then GoodChan(chans[id], AcceptedBy(log, id)) else AcceptedBy(log, id) == []
  }

  /** A call's packet is on one queue once if the call got that far, and on none otherwise. */
  ghost predicate CountedOnce(log: Log, call: CallId, accepted: bool) {
    CountOf(log, call) == if accepted then 1 else 0
  }

  lemma TakingIsGood(c: Chan, accepted: seq<Frame>)
    requires GoodChan(c, accepted) && c.queue != [] && c.writer == Idling
    ensures GoodChan(TakenOff(c), accepted)
  {}

  lemma WritingIsGood(c: Chan, accepted: seq<Frame>, ok: bool)
    requires GoodChan(c, accepted) && c.writer == Writing
    ensures GoodChan(Written(c, ok), accepted)
  {}

  // ---- the flow table ---------------------------------------------------------------------

  const FLOW_IDLE_TIMEOUT: int := 120_000_000_000

  /** A flow table entry; the target is a connection id in the state machines and a connection object in the classes. */
  datatype Binding<K> = Binding(target: K, lastAt: int)

  /** `removeTCPFlowsForClientLocked`. */
  function DropTarget<K(==)>(flows: map<FlowKey, Binding<K>>, id: K): map<FlowKey, Binding<K>> {
    map f | f in flows && flows[f].target != id :: flows[f]
  }

  predicate Idle<K>(b: Binding<K>, now: int) {
    now - b.lastAt > FLOW_IDLE_TIMEOUT
  }

  /** `expireTCPFlows`. */
  function Unexpired<K(==)>(flows: map<FlowKey, Binding<K>>, closed: set<K>, now: int): map<FlowKey, Binding<K>> {
    map f | f in flows && flows[f].target !in closed && !Idle(flows[f], now) :: flows[f]
  }

  function IdleFlows<K>(flows: map<FlowKey, Binding<K>>, now: int): set<FlowKey> {
    set f | f in flows && Idle(flows[f], now)
  }

  /** `afterTCPEnqueue`. */
  function Rebound<K>(flows: map<FlowKey, Binding<K>>, h: TCPHeader, target: K, now: int): map<FlowKey, Binding<K>> {
    if ClosesFlow(h) then flows - {h.flow} else flows[h.flow := Binding(target, now)]
  }

  /** The table names the connection the flow stands on. */
  ghost predicate Bound(flows: map<FlowKey, Binding<ConnId>>, f: FlowKey, standing: Option<ConnId>) {
    standing.Some? ==> f in flows && Some(flows[f].target) == standing
  }
}
