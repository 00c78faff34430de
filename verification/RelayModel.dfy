/** The relay as a state machine. Every lock-protected body is one step; an enqueue call advances through control
    points, and registrations, closes, drains and other calls may happen between any two of its steps. */
module RelayModel {
  import opened Wrappers
  import opened Addr
  import opened Packet
  import opened EventLog
  import opened FlowTable
  import opened Registry

  /** Where an enqueue call stands. `t` is the client it is working on, `sb` a standby. */
  datatype Pc =
    | Lookup                                     // top of the loop of enqueueTCP
    | CheckBound(t: ConnId) | WaitBound(t: ConnId) // sending to the bound client
    | DropBound                                  // removeTCPFlow pending
    | Select | Recheck(t: ConnId)                // selectPrimary, then isClosed again
    | Weigh(t: ConnId) | Burst(t: ConnId)        // queue pressure, then selectBestStandby
    | TryBurst(t: ConnId, sb: ConnId) | OfferBurst(t: ConnId, sb: ConnId)
    | CheckPrimary(t: ConnId) | WaitPrimary(t: ConnId)
    | After(t: ConnId)                           // accepted, afterTCPEnqueue pending
    | UdpSelect | UdpTry(t: ConnId) | UdpStandby(p: Option<ConnId>)
    | UdpTryStandby(p: Option<ConnId>, sb: ConnId) | UdpCheck(t: ConnId) | UdpWait(t: ConnId)
    | TimedSelect | TimedRecheck(t: ConnId) | TimedWait(t: ConnId)
    | Done(ok: bool)

  /** One forwardPacket that reached a queueing function. `snapshot` is the copied client list; `reach` collects the
      snapshot and the client the flow was bound to when the call began; `retries` counts `continue`s and `steps` all
      the steps the call has made. */
  datatype Call = Call(from: ConnId, raw: Bytes, pkt: Packet, tcp: Option<TCPHeader>, snapshot: seq<ConnId>,
                       reach: set<ConnId>, pc: Pc, retries: nat, steps: nat)

  /** The two indices, with the attributes of every connection ever registered and the registration log: the registered
      connections, oldest registration first. */
  datatype Directory = Directory(deviceOf: map<ConnId, string>, vipOf: map<ConnId, Addr>, regs: seq<ConnId>,
                                 clients: map<string, seq<ConnId>>, vipMap: map<Addr, seq<ConnId>>)

  /** `overlapped` collects the flows for which two calls were in flight at once. */
  datatype State = State(dir: Directory, closed: set<ConnId>, done: set<ConnId>, chans: map<ConnId, Chan>,
                         flows: map<FlowKey, Binding<ConnId>>, calls: map<CallId, Call>, log: Log, now: int,
                         overlapped: set<FlowKey>)

  const Initial: State :=
    State(Directory(map[], map[], [], map[], map[]), {}, {}, map[], map[], map[], [], 0, {})

  /** What happens around the enqueue calls. */
  datatype EnvStep =
    | Register(id: ConnId, device: string, vip: Addr, cap: nat)
    | Unregister(id: ConnId)
    | MarkClosed(id: ConnId)
    | CloseDone(id: ConnId)
    | Take(id: ConnId)                  // the write loop takes a packet
    | Wrote(id: ConnId, ok: bool)       // and its write returns
    | Tick(d: nat)
    | ExpireFlows

  /** What an enqueue call does next. */
  datatype CallStep =
    | Begin(from: ConnId, data: Bytes)
    | Move(pc: Pc)
    | Retry
    | Push(t: ConnId)
    | Bind
    | Unbind

  datatype Step = Env(e: EnvStep) | Enqueue(call: CallId, k: CallStep)

  function FlowOf(c: Call): Option<FlowKey> {
    if c.tcp.Some? then Some(c.tcp.value.flow) else None
  }

  predicate Active(calls: map<CallId, Call>, c: CallId, f: FlowKey) {
    c in calls && !calls[c].pc.Done? && FlowOf(calls[c]) == Some(f)
  }

  /** Every client an enqueue call may still be holding on to. */
  function Targets(pc: Pc): set<ConnId> {
    match pc
    case CheckBound(t) => {t}
    case WaitBound(t) => {t}
    case Recheck(t) => {t}
    case Weigh(t) => {t}
    case Burst(t) => {t}
    case TryBurst(t, sb) => {t, sb}
    case OfferBurst(t, sb) => {t, sb}
    case CheckPrimary(t) => {t}
    case WaitPrimary(t) => {t}
    case After(t) => {t}
    case UdpTry(t) => {t}
    case UdpStandby(p) => if p.Some? then {p.value} else {}
    case UdpTryStandby(p, sb) => (if p.Some? then {p.value} else {}) + {sb}
    case UdpCheck(t) => {t}
    case UdpWait(t) => {t}
    case TimedRecheck(t) => {t}
    case TimedWait(t) => {t}
    case _ => {}
  }

  /** `selectPrimary`: the first client of the list that is not closed. */
  function FirstOpen(closed: set<ConnId>, list: seq<ConnId>): Option<ConnId> {
    if list == [] then None
    else if list[0] !in closed then Some(list[0])
    else FirstOpen(closed, list[1..])
  }

  predicate Room(s: State, id: ConnId) {
    id in s.chans && |s.chans[id].queue| < s.chans[id].cap
  }

  /** `relayQueuePressure`: the queue is at least four fifths full. */
  predicate Pressure(s: State, id: ConnId) {
    id in s.chans && s.chans[id].cap != 0 && 5 * |s.chans[id].queue| >= 4 * s.chans[id].cap
  }

  /** The condition under which `boundTCPClient` returns the bound client. */
  predicate BoundOpen(s: State, f: FlowKey) {
    f in s.flows && s.flows[f].target !in s.closed
  }

  /** `selectBestStandby` scans without the lock, so any client but the primary that is open when it is looked at may
      come out best; the scan finds none only when all of them are closed. */
  predicate NoStandby(s: State, c: Call, p: Option<ConnId>) {
    forall x :: x in c.snapshot && Some(x) != p ==> x in s.closed
  }

  function UdpEnd(p: Option<ConnId>): Pc {
    if p.Some? then UdpCheck(p.value) else Done(false)
  }

  /** Control steps of a call that touch nothing but its own control point. */
  predicate CanMove(s: State, c: Call, pc': Pc) {
    match c.pc
    case Lookup =>
      c.tcp.Some? && (
        var f := c.tcp.value.flow;
        pc' == if BoundOpen(s, f) then CheckBound(s.flows[f].target) else Select)
    case CheckBound(t) => pc' == if t in s.closed then DropBound else WaitBound(t)
    case WaitBound(t) => (pc' == DropBound && t in s.done) || pc' == Done(false)
    case Select =>
      pc' == (match FirstOpen(s.closed, c.snapshot) case None => Done(false) case Some(t) => Recheck(t))
    case Recheck(t) => t !in s.closed && pc' == Weigh(t)
    case Weigh(t) =>
      pc' == if c.tcp.Some? && IsInitialSYN(c.tcp.value) && Pressure(s, t) then Burst(t) else CheckPrimary(t)
    case Burst(t) =>
      || (pc'.TryBurst? && pc'.t == t && pc'.sb in c.snapshot && pc'.sb != t && pc'.sb !in s.closed)
      || (pc' == CheckPrimary(t) && NoStandby(s, c, Some(t)))
    case TryBurst(t, sb) => pc' == if sb in s.closed then CheckPrimary(t) else OfferBurst(t, sb)
    case OfferBurst(t, sb) => pc' == CheckPrimary(t) && (sb in s.done || !Room(s, sb))
    case CheckPrimary(t) => t !in s.closed && pc' == WaitPrimary(t)
    case WaitPrimary(t) => pc' == Done(false)
    case UdpSelect =>
      pc' == (match FirstOpen(s.closed, c.snapshot) case None => UdpStandby(None) case Some(t) => UdpTry(t))
    case UdpTry(t) => !Room(s, t) && pc' == UdpStandby(Some(t))
    case UdpStandby(p) =>
      || (pc'.UdpTryStandby? && pc'.p == p && pc'.sb in c.snapshot && Some(pc'.sb) != p && pc'.sb !in s.closed)
      || (pc' == UdpEnd(p) && NoStandby(s, c, p))
    case UdpTryStandby(p, sb) => !Room(s, sb) && pc' == UdpEnd(p)
    case UdpCheck(t) => pc' == if t in s.closed then Done(false) else UdpWait(t)
    case UdpWait(t) => pc' == Done(false)
    case TimedSelect =>
      pc' == (match FirstOpen(s.closed, c.snapshot) case None => Done(false) case Some(t) => TimedRecheck(t))
    case TimedRecheck(t) => t !in s.closed && pc' == TimedWait(t)
    case TimedWait(t) => pc' == Done(false)
    case _ => false
  }

  /** A `continue`: the client turned out to be closed. */
  predicate CanRetry(s: State, pc: Pc) {
    match pc
    case Recheck(t) => t in s.closed
    case CheckPrimary(t) => t in s.closed
    case WaitPrimary(t) => t in s.done
    case TimedRecheck(t) => t in s.closed
    case TimedWait(t) => t in s.done
    case _ => false
  }

  /** The queue a call is offering its packet to. */
  function PushTarget(pc: Pc): Option<ConnId> {
    match pc
    case WaitBound(t) => Some(t)
    case OfferBurst(t, sb) => Some(sb)
    case WaitPrimary(t) => Some(t)
    case UdpTry(t) => Some(t)
    case UdpTryStandby(p, sb) => Some(sb)
    case UdpWait(t) => Some(t)
    case TimedWait(t) => Some(t)
    case _ => None
  }

  function TopOfLoop(c: Call): Pc {
    if c.tcp.Some? then Lookup else TimedSelect
  }

  function Members(list: seq<ConnId>): set<ConnId> {
    set x | x in list
  }

  /** The clients a call can be sent to while nobody else rebinds its flow. */
  function ReachOf(snapshot: seq<ConnId>, tcp: Option<TCPHeader>, flows: map<FlowKey, Binding<ConnId>>): set<ConnId> {
    Members(snapshot) + if tcp.Some? && tcp.value.flow in flows then {flows[tcp.value.flow].target} else {}
  }

  /** Where `enqueueOverlay` sends a packet: the control point it starts at, and its TCP header if it is scheduled as
      TCP. */
  function Dispatch(pkt: Packet): (Pc, Option<TCPHeader>)
    requires pkt.ihl >= 0
  {
    match ClassOf(pkt)
    case Noise => (Done(false), None)
    case TCP => if ParseTCP(pkt).Ok? then (Lookup, Some(ParseTCP(pkt).value)) else (Done(false), None)
    case UDP => (UdpSelect, None)
    case ICMP => (TimedSelect, None)
    case Other => (TimedSelect, None)
  }

  /** `readLoop` and `forwardPacket` up to the queueing functions. None: the packet is dropped before any of them. */
  function Admit(overlay: Prefix, dir: Directory, flows: map<FlowKey, Binding<ConnId>>, from: ConnId,
                 data: Bytes): Option<Call> {
    match ParseIPv4(data)
    case Err(_) => None
    case Ok(pkt) =>
      if from !in dir.vipOf || pkt.src != dir.vipOf[from] then None
      else if !Contains(overlay, pkt.dst) then None
      else
        var snapshot := Get(dir.vipMap, pkt.dst);
        if snapshot == [] then None
        else
          var (pc, tcp) := Dispatch(pkt);
          Some(Call(from, data, pkt, tcp, snapshot, ReachOf(snapshot, tcp, flows), pc, 0, 0))
  }

  /** The closed flag, with its first setting noted in the history. */
  function Close(s: State, id: ConnId): State {
    s.(closed := s.closed + {id}, log := if id in s.closed then s.log else s.log + [Gone({id})])
  }

  function FrameOf(call: CallId, c: Call): Frame {
    Frame(call, FlowOf(c))
  }

  function Closes(c: Call): bool {
    c.tcp.Some? && ClosesFlow(c.tcp.value)
  }

  function Registered(dir: Directory, id: ConnId, device: string, vip: Addr): Directory {
    Directory(dir.deviceOf[id := device], dir.vipOf[id := vip], dir.regs + [id],
              IndexAdd(dir.clients, device, id), IndexAdd(dir.vipMap, vip, id))
  }

  function RegisterStep(s: State, id: ConnId, device: string, vip: Addr, cap: nat): State {
    s.(dir := Registered(s.dir, id, device, vip), chans := s.chans[id := NewChan(cap)])
  }

  function Unregistered(dir: Directory, id: ConnId): Directory
    requires id in dir.deviceOf && id in dir.vipOf
  {
    dir.(regs := RemoveFirst(dir.regs, id),
         clients := IndexRemove(dir.clients, dir.deviceOf[id], id),
         vipMap := IndexRemove(dir.vipMap, dir.vipOf[id], id))
  }

  function UnregisterStep(s: State, id: ConnId): State
    requires id in s.dir.deviceOf && id in s.dir.vipOf
  {
    Close(s, id).(done := s.done + {id}, dir := Unregistered(s.dir, id), flows := DropTarget(s.flows, id))
  }

  function WroteStep(s: State, id: ConnId, ok: bool): State
    requires id in s.chans
  {
    var s' := s.(chans := s.chans[id := Written(s.chans[id], ok)]);
    if ok then s' else Close(s', id)
  }

  function ExpireStep(s: State): State {
    s.(flows := Unexpired(s.flows, s.closed, s.now), log := s.log + [Expired(IdleFlows(s.flows, s.now))])
  }

  /** The connection's read loop is not inside an enqueue call. One read loop makes one call at a time, and the
      connection is unregistered only after its read loop has returned. */
  ghost predicate Quiet(calls: map<CallId, Call>, from: ConnId) {
    forall c :: c in calls && calls[c].from == from ==> calls[c].pc.Done?
  }

  ghost predicate EnvNext(s: State, e: EnvStep, s': State) {
    match e
    case Register(id, device, vip, cap) => id !in s.dir.vipOf && s' == RegisterStep(s, id, device, vip, cap)
    case Unregister(id) =>
      && id in s.dir.deviceOf && id in s.dir.vipOf && id in s.dir.regs && Quiet(s.calls, id)
      && s' == UnregisterStep(s, id)
    case MarkClosed(id) => id in s.dir.vipOf && s' == Close(s, id)
    case CloseDone(id) => id in s.closed && s' == s.(done := s.done + {id})
    case Take(id) =>
      && id in s.chans && s.chans[id].writer == Idling && s.chans[id].queue != []
      && s' == s.(chans := s.chans[id := TakenOff(s.chans[id])])
    case Wrote(id, ok) => id in s.chans && s.chans[id].writer == Writing && s' == WroteStep(s, id, ok)
    case Tick(d) => s' == s.(now := s.now + d)
    case ExpireFlows => s' == ExpireStep(s)
  }

  predicate Overlaps(s: State, c: Call) {
    c.tcp.Some? && exists c' :: c' in s.calls && Active(s.calls, c', c.tcp.value.flow)
  }

  function BeginStep(s: State, call: CallId, c: Call): State {
    s.(calls := s.calls[call := c],
       overlapped := if Overlaps(s, c) then s.overlapped + {c.tcp.value.flow} else s.overlapped)
  }

  /** `continue`. */
  function Again(c: Call): Call {
    c.(pc := TopOfLoop(c), retries := c.retries + 1, steps := c.steps + 1)
  }

  /** One step on to another control point. */
  function Moved(c: Call, pc: Pc): Call {
    c.(pc := pc, steps := c.steps + 1)
  }

  /** The control point after the channel took the packet. */
  function Sent(c: Call, t: ConnId): Call {
    Moved(c, if c.tcp.Some? then After(t) else Done(true))
  }

  /** The channel send of packet `call` to `t`. */
  function PushStep(s: State, call: CallId, c: Call, t: ConnId): State
    requires t in s.chans
  {
    s.(calls := s.calls[call := Sent(c, t)],
       chans := s.chans[t := s.chans[t].(queue := s.chans[t].queue + [FrameOf(call, c)])],
       log := s.log + [Accepted(FrameOf(call, c), t, Closes(c))])
  }

  function BindStep(s: State, call: CallId, c: Call): State
    requires c.pc.After? && c.tcp.Some?
  {
    s.(calls := s.calls[call := Moved(c, Done(true))], flows := Rebound(s.flows, c.tcp.value, c.pc.t, s.now))
  }

  function UnbindStep(s: State, call: CallId, c: Call): State
    requires c.tcp.Some?
  {
    s.(calls := s.calls[call := Again(c)], flows := s.flows - {c.tcp.value.flow})
  }

  /** A step of a call in flight, `c` being where it stands. */
  ghost predicate CallNext(s: State, call: CallId, c: Call, k: CallStep, s': State) {
    match k
    case Begin(_, _) => false
    case Move(pc) => CanMove(s, c, pc) && s' == s.(calls := s.calls[call := Moved(c, pc)])
    case Retry => CanRetry(s, c.pc) && s' == s.(calls := s.calls[call := Again(c)])
    case Push(t) => PushTarget(c.pc) == Some(t) && Room(s, t) && s' == PushStep(s, call, c, t)
    case Bind => c.pc.After? && c.tcp.Some? && s' == BindStep(s, call, c)
    case Unbind => c.pc.DropBound? && c.tcp.Some? && s' == UnbindStep(s, call, c)
  }

  /** A packet was read: it is dropped, or a call begins. */
  ghost predicate BeginNext(overlay: Prefix, s: State, call: CallId, from: ConnId, data: Bytes, s': State) {
    && call !in s.calls && from in s.dir.regs && Quiet(s.calls, from)
    && s' == match Admit(overlay, s.dir, s.flows, from, data) { case None => s case Some(c) => BeginStep(s, call, c) }
  }

  ghost predicate Next(overlay: Prefix, s: State, step: Step, s': State) {
    match step
    case Env(e) => EnvNext(s, e, s')
    case Enqueue(call, k) =>
      if k.Begin? then BeginNext(overlay, s, call, k.from, k.data, s')
      else call in s.calls && CallNext(s, call, s.calls[call], k, s')
  }

  /** The states a run passes through. */
  ghost predicate Run(overlay: Prefix, states: seq<State>, steps: seq<Step>) {
    && |states| == |steps| + 1 && states[0] == Initial
    && forall i :: 0 <= i < |steps| ==> Next(overlay, states[i], steps[i], states[i + 1])
  }
}
