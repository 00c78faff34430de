/** The client pool as a state machine. Every lock-protected body is one step; connections die, queues drain, builders
    append and sign off, and the context may be cancelled between any two steps of the packet pump. */
module PoolModel {
  import opened Wrappers
  import opened Packet
  import opened EventLog
  import opened FlowTable
  import opened PoolRoles
  import opened TimeoutDetector
  import opened PoolMonitor

  /** Where the pump's current enqueue call stands. `t` is the connection it is working on, `sb` a standby. */
  datatype Pc =
    | Top | Lookup                                // the loop of enqueueTCP, boundTCPConn
    | CheckBound(t: ConnId) | WaitBound(t: ConnId)
    | DropBound                                   // removeTCPFlow pending
    | Seek | Look | MustEnsure | LookAgain        // primaryOrWait
    | Weigh(t: ConnId)                            // tcpBurstStandby
    | TryBurst(t: ConnId, sb: ConnId) | OfferBurst(t: ConnId, sb: ConnId)
    | CheckPrimary(t: ConnId) | WaitPrimary(t: ConnId)
    | After(t: ConnId)                            // accepted, afterTCPEnqueue pending
    | UdpList | UdpTry(rest: seq<ConnId>) | UdpOffer(rest: seq<ConnId>)
    | UdpPrimary | UdpCheck(t: ConnId) | UdpWait(t: ConnId)
    | TimedCheck(t: ConnId) | TimedWait(t: ConnId)
    | Done(ok: bool)

  datatype Call = Call(tcp: Option<TCPHeader>, pc: Pc)

  /** `cur` is the pump's latest call; there is one pump, so a call begins only after the one before is done. */
  datatype State = State(core: Core<ConnId>, alive: set<ConnId>, done: set<ConnId>, chans: map<ConnId, Chan>,
                         created: map<ConnId, int>, latency: map<ConnId, int>, flows: map<FlowKey, Binding<ConnId>>,
                         calls: map<CallId, Call>, cur: CallId, log: Log, now: int, live: bool)

  /** Pool size and configured rotation interval. */
  datatype Setup = Setup(max: nat, configured: Duration)

  /** What `Connect` leaves before it schedules standbys: one connection, primary, with a queue of `cap` places. */
  function Start(cap: nat): State {
    var core := Core([0], Roles(map[0 := Primary], map[0 := 0]), {}, {}, Builds(0, {}, {}, 0), 0, 0, 0, [], [], []);
    State(core, {0}, {}, map[0 := NewChan(cap)], map[0 := 0], map[], map[], map[], 0, [], 0, true)
  }

  /** What happens around the pump. */
  datatype EnvStep =
    | Die(id: ConnId)
    | CloseDone(id: ConnId)
    | Take(id: ConnId)                       // the write loop takes a packet
    | Wrote(id: ConnId, ok: bool)            // and its write returns
    | Measure(id: ConnId, sample: int)       // RecordWrite moves the smoothed write latency
    | Pass(d: nat)
    | Cancel
    | MonitorTick(phases: Phases<ConnId>)
    | FillUp                                 // ensureStandbys
    | ExpireFlows
    | BuildFail(b: nat)                      // dial, handshake or address check failed
    | BuildAppend(b: nat, id: ConnId, cap: nat, born: int)
    | BuildFinish(b: nat)
    | CloseAll

  datatype CallStep = Move(pc: Pc) | Push(t: ConnId) | Bind | Unbind | Ensure

  datatype Step = Env(e: EnvStep) | Begin(call: CallId, data: Bytes) | Pump(k: CallStep)

  predicate Room(s: State, id: ConnId) {
    id in s.chans && |s.chans[id].queue| < s.chans[id].cap
  }

  /** The queue is at least four fifths full. */
  predicate Pressure(c: Chan) {
    c.cap != 0 && 5 * |c.queue| >= 4 * c.cap
  }

  function WorldOf(u: Setup, s: State): World<ConnId> {
    World(s.alive, (set id | id in s.chans && Pressure(s.chans[id])), s.latency, s.created, s.now, s.live, u.max,
          u.configured)
  }

  predicate Usable(s: State, id: ConnId) {
    LiveUsable(s.alive, s.core.roles.role, id)
  }

  function PrimaryNow(s: State): Option<ConnId> {
    FirstWith(s.core.conns, s.alive, s.core.roles.role, Primary)
  }

  /** The condition under which `boundTCPConn` returns the bound connection. */
  predicate BoundUsable(s: State, f: FlowKey) {
    f in s.flows && Usable(s, s.flows[f].target)
  }

  function Candidates(s: State): seq<ConnId> {
    BurstCandidates(s.core, s.alive)
  }

  /** `primaryAllowsTCPBurstLocked` on the current primary. */
  predicate BurstAllowed(s: State) {
    PrimaryNow(s).Some? && (
      var p := PrimaryNow(s).value;
      p in s.core.degraded || (p in s.chans && Pressure(s.chans[p])))
  }

  predicate LiveStandby(s: State, id: ConnId) {
    id in s.core.conns && id in s.alive && id in s.core.roles.role && s.core.roles.role[id] == Standby
  }

  function FlowOf(c: Call): Option<FlowKey> {
    if c.tcp.Some? then Some(c.tcp.value.flow) else None
  }

  function Closes(c: Call): bool {
    c.tcp.Some? && ClosesFlow(c.tcp.value)
  }

  function FrameOf(call: CallId, c: Call): Frame {
    Frame(call, FlowOf(c))
  }

  /** Where `primaryOrWait` returns to. */
  function Found(c: Call, t: ConnId): Pc {
    if c.tcp.Some? then Weigh(t) else TimedCheck(t)
  }

  /** Queue lengths move while `tcpBurstStandby` compares them, so any live standby may come out best; it finds none
      only when there is none. */
  predicate AfterWeigh(s: State, c: Call, t: ConnId, pc': Pc) {
    var burst := c.tcp.Some? && IsInitialSYN(c.tcp.value) && BurstAllowed(s);
    || (burst && pc'.TryBurst? && pc'.t == t && LiveStandby(s, pc'.sb))
    || (pc' == CheckPrimary(t) && (!burst || forall x :: x in s.core.conns ==> !LiveStandby(s, x)))
  }

  /** Control steps of a call that touch nothing but its own control point. */
  predicate CanMove(s: State, c: Call, pc': Pc) {
    match c.pc
    case Top => pc' == if s.live then Lookup else Done(false)
    case Lookup =>
      c.tcp.Some? && (
        var f := c.tcp.value.flow;
        pc' == if BoundUsable(s, f) then CheckBound(s.flows[f].target) else Seek)
    case CheckBound(t) => pc' == if t in s.alive then WaitBound(t) else DropBound
    case WaitBound(t) => (pc' == DropBound && t in s.done) || (pc' == Done(false) && !s.live)
    case Seek => pc' == if s.live then Look else Done(false)
    case Look => pc' == (match PrimaryNow(s) case Some(t) => Found(c, t) case None => MustEnsure)
    case LookAgain => pc' == (match PrimaryNow(s) case Some(t) => Found(c, t) case None => Seek)
    case Weigh(t) => AfterWeigh(s, c, t, pc')
    case TryBurst(t, sb) => pc' == if sb in s.alive then OfferBurst(t, sb) else CheckPrimary(t)
    case OfferBurst(t, sb) => pc' == CheckPrimary(t) && (sb in s.done || !Room(s, sb))
    case CheckPrimary(t) => pc' == if t in s.alive then WaitPrimary(t) else Top
    case WaitPrimary(t) => (pc' == Top && t in s.done) || (pc' == Done(false) && !s.live)
    case UdpList => pc' == UdpTry(Candidates(s))
    case UdpTry(rest) =>
      pc' == if rest == [] then UdpPrimary else if rest[0] in s.alive then UdpOffer(rest) else UdpTry(rest[1..])
    case UdpOffer(rest) => rest != [] && pc' == UdpTry(rest[1..]) && (rest[0] in s.done || !Room(s, rest[0]))
    case UdpPrimary => pc' == (match PrimaryNow(s) case Some(t) => UdpCheck(t) case None => Done(false))
    case UdpCheck(t) => pc' == if t in s.alive then UdpWait(t) else Done(false)
    case UdpWait(t) => pc' == Done(false)
    case TimedCheck(t) => pc' == if t in s.alive then TimedWait(t) else Done(false)
    case TimedWait(t) => pc' == Done(false)
    case _ => false
  }

  /** The queue a call is offering its packet to. */
  function PushTarget(pc: Pc): Option<ConnId> {
    match pc
    case WaitBound(t) => Some(t)
    case OfferBurst(t, sb) => Some(sb)
    case WaitPrimary(t) => Some(t)
    case UdpOffer(rest) => if rest != [] then Some(rest[0]) else None
    case UdpWait(t) => Some(t)
    case TimedWait(t) => Some(t)
    case _ => None
  }

  /** `dispatchPacket`: where the call for a packet starts, and its TCP header if it is scheduled as TCP. */
  function Dispatch(pkt: Packet): Call
    requires pkt.ihl >= 0
  {
    match ClassOf(pkt)
    case Noise => Call(None, Done(false))
    case TCP => if ParseTCP(pkt).Ok? then Call(Some(ParseTCP(pkt).value), Top) else Call(None, Done(false))
    case UDP => Call(None, UdpList)
    case ICMP => Call(None, Seek)
    case Other => Call(None, Seek)
  }

  // ---- steps ------------------------------------------------------------------------------

  function Lost(log: Log, ids: set<ConnId>): Log {
    if ids == {} then log else log + [Gone(ids)]
  }

  function DieStep(s: State, id: ConnId): State {
    s.(alive := s.alive - {id}, log := Lost(s.log, {id} * s.alive))
  }

  function WroteStep(s: State, id: ConnId, ok: bool): State
    requires id in s.chans
  {
    var s' := s.(chans := s.chans[id := Written(s.chans[id], ok)]);
    if ok then s' else DieStep(s', id)
  }

  function DeadMembers(conns: seq<ConnId>, alive: set<ConnId>): set<ConnId> {
    set id | id in conns && id !in alive
  }

  /** A tick, with the connections that died or started draining during it noted in the history. */
  function TickStep(u: Setup, s: State, a: Phases<ConnId>): State {
    var (core, byAge, byLatency) := Tick(s.core, WorldOf(u, s), a);
    s.(core := core, alive := a.critical, done := s.done + DeadMembers(s.core.conns, a.prune),
       latency := AfterWrites(s.latency, a.writes),
       log := Lost(s.log, (s.alive - a.critical) + AsSet(byAge) + AsSet(byLatency)))
  }

  function Unusable(s: State): set<ConnId> {
    set id | id in s.chans && !Usable(s, id)
  }

  function ExpireStep(s: State): State {
    s.(flows := Unexpired(s.flows, Unusable(s), s.now), log := s.log + [Expired(IdleFlows(s.flows, s.now))])
  }

  /** The second half of `buildStandby`: the connection is dropped if the pool is full and appended otherwise. */
  function AppendStep(u: Setup, s: State, b: nat, id: ConnId, cap: nat, born: int): State {
    var core := Joined(s.core.(builds := Settled(s.core.builds, b)), id, u.max, s.now);
    if |s.core.conns| >= u.max then s.(core := core)
    else
      s.(core := core, alive := s.alive + {id}, chans := s.chans[id := NewChan(cap)],
         created := s.created[id := born])
  }

  /** `closeAll` once every connection it closes is dead: list and flow table are dropped. */
  function CloseAllStep(s: State): State {
    s.(core := s.core.(conns := []), flows := map[], log := s.log + [Cleared])
  }

  ghost predicate BuildNext(u: Setup, s: State, e: EnvStep, s': State) {
    match e
    case MonitorTick(a) =>
      && Shrinking(a) && a.prune <= s.alive && (forall x :: x in a.writes ==> x.0 in s.chans)
      && s' == TickStep(u, s, a)
    case FillUp => s' == s.(core := EnsureStandbys(s.core, WorldOf(u, s)))
    case BuildFail(b) => b in s.core.builds.dialing && s' == s.(core := s.core.(builds := Settled(s.core.builds, b)))
    case BuildAppend(b, id, cap, born) =>
      b in s.core.builds.dialing && id !in s.chans && s' == AppendStep(u, s, b, id, cap, born)
    case BuildFinish(b) =>
      var x := s.core.builds;
      && b in x.settled && x.pending > 0
      && s' == s.(core := s.core.(builds := x.(settled := x.settled - {b}, pending := x.pending - 1)))
    case CloseAll => !s.live && (forall id :: id in s.core.conns ==> id !in s.alive) && s' == CloseAllStep(s)
    case _ => false
  }

  ghost predicate EnvNext(s: State, e: EnvStep, s': State) {
    match e
    case Die(id) => id in s.chans && s' == DieStep(s, id)
    case CloseDone(id) => id in s.chans && id !in s.alive && s' == s.(done := s.done + {id})
    case Take(id) =>
      && id in s.chans && s.chans[id].writer == Idling && s.chans[id].queue != []
      && s' == s.(chans := s.chans[id := TakenOff(s.chans[id])])
    case Wrote(id, ok) => id in s.chans && s.chans[id].writer == Writing && s' == WroteStep(s, id, ok)
    case Measure(id, v) => id in s.chans && s' == s.(latency := Measured(s.latency, id, v))
    case Pass(d) => s' == s.(now := s.now + d)
    case Cancel => s' == s.(live := false)
    case ExpireFlows => s' == ExpireStep(s)
    case _ => false
  }

  /** The control point after the channel took the packet. */
  function Sent(c: Call, t: ConnId): Call {
    c.(pc := if c.tcp.Some? then After(t) else Done(true))
  }

  function PushStep(s: State, c: Call, t: ConnId): State
    requires t in s.chans
  {
    s.(calls := s.calls[s.cur := Sent(c, t)],
       chans := s.chans[t := s.chans[t].(queue := s.chans[t].queue + [FrameOf(s.cur, c)])],
       log := s.log + [Accepted(FrameOf(s.cur, c), t, Closes(c))])
  }

  function At(s: State, c: Call, pc: Pc): State {
    s.(calls := s.calls[s.cur := c.(pc := pc)])
  }

  function BindStep(s: State, c: Call): State
    requires c.pc.After? && c.tcp.Some?
  {
    At(s, c, Done(true)).(flows := Rebound(s.flows, c.tcp.value, c.pc.t, s.now))
  }

  function UnbindStep(s: State, c: Call): State
    requires c.tcp.Some?
  {
    At(s, c, Top).(flows := s.flows - {c.tcp.value.flow})
  }

  function EnsureStep(u: Setup, s: State, c: Call): State {
    At(s, c, LookAgain).(core := EnsurePrimary(s.core, WorldOf(u, s)))
  }

  /** A step of the current call, `c` being where it stands. */
  ghost predicate PumpNext(u: Setup, s: State, c: Call, k: CallStep, s': State) {
    match k
    case Move(pc) => CanMove(s, c, pc) && s' == At(s, c, pc)
    case Push(t) => PushTarget(c.pc) == Some(t) && Room(s, t) && s' == PushStep(s, c, t)
    case Bind => c.pc.After? && c.tcp.Some? && s' == BindStep(s, c)
    case Unbind => c.pc.DropBound? && c.tcp.Some? && s' == UnbindStep(s, c)
    case Ensure => c.pc.MustEnsure? && s' == EnsureStep(u, s, c)
  }

  /** The pump reads a packet: it is dropped if it does not parse, and a call begins otherwise. */
  ghost predicate BeginNext(s: State, call: CallId, data: Bytes, s': State) {
    && call !in s.calls && (s.cur in s.calls ==> s.calls[s.cur].pc.Done?)
    && s' == match ParseIPv4(data)
             case Err(_) => s
             case Ok(pkt) => s.(calls := s.calls[call := Dispatch(pkt)], cur := call)
  }

  ghost predicate Next(u: Setup, s: State, step: Step, s': State) {
    match step
    case Env(e) => EnvNext(s, e, s') || BuildNext(u, s, e, s')
    case Begin(call, data) => BeginNext(s, call, data, s')
    case Pump(k) => s.cur in s.calls && PumpNext(u, s, s.calls[s.cur], k, s')
  }

  /** The states a run passes through. */
  ghost predicate Run(u: Setup, cap: nat, states: seq<State>, steps: seq<Step>) {
    match u
    case Setup(max, _) =>
      && max >= 1 && |states| == |steps| + 1 && states[0] == Start(cap)
      && forall i :: 0 <= i < |steps| ==> Next(u, states[i], steps[i], states[i + 1])
  }
}
