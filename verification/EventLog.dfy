/** The history both schedulers are judged by: which connection queue accepted which packet, and what happened to
    connections and flow bindings in between. */
module EventLog {
  import opened Wrappers
  import opened Packet

  type ConnId = nat
  type CallId = nat

  /** A queued copy of the packet that enqueue call number `call` carries. */
  datatype Frame = Frame(call: CallId, flow: Option<FlowKey>)

  datatype Event =
    | Accepted(frame: Frame, conn: ConnId, closes: bool)  // a queue took the packet; `closes` is FIN or RST
    | Gone(conns: set<ConnId>)                            // the connections closed, died or started draining
    | Expired(flows: set<FlowKey>)                        // bindings dropped for being idle
    | Cleared                                             // the whole flow table was dropped

  type Log = seq<Event>

  function Front(log: Log): Log
    requires log != []
  {
    log[..|log| - 1]
  }

  function End(log: Log): Event
    requires log != []
  {
    log[|log| - 1]
  }

  function CountOf(log: Log, call: CallId): nat {
    if log == [] then 0
    else CountOf(Front(log), call) + if End(log).Accepted? && End(log).frame.call == call then 1 else 0
  }

  /** Everything a connection's queue ever accepted, in order. */
  function AcceptedBy(log: Log, conn: ConnId): seq<Frame> {
    if log == [] then []
    else AcceptedBy(Front(log), conn) + if End(log).Accepted? && End(log).conn == conn then [End(log).frame] else []
  }

  function OfFlow(frames: seq<Frame>, f: FlowKey): seq<Frame> {
    if frames == [] then []
    else OfFlow(frames[..|frames| - 1], f) + if frames[|frames| - 1].flow == Some(f) then [frames[|frames| - 1]] else []
  }

  predicate IsGone(log: Log, conn: ConnId) {
    log != [] && ((End(log).Gone? && conn in End(log).conns) || IsGone(Front(log), conn))
  }

  predicate AcceptsFlow(e: Event, f: FlowKey) {
    e.Accepted? && e.frame.flow == Some(f)
  }

  /** The connection the next packet of a flow has to use, if the history pins one down. */
  function Standing(log: Log, f: FlowKey): Option<ConnId> {
    if log == [] then None
    else match End(log)
      case Accepted(frame, conn, closes) =>
        if frame.flow != Some(f) then Standing(Front(log), f)
        else if closes || IsGone(Front(log), conn) then None
        else Some(conn)
      case Gone(conns) =>
        var standing := Standing(Front(log), f);
        if standing.Some? && standing.value in conns then None else standing
      case Expired(flows) => if f in flows then None else Standing(Front(log), f)
      case Cleared => None
  }

  /** Every packet of the flow went to the connection that stood at the time. */
  predicate Follows(log: Log, f: FlowKey) {
    log != [] ==>
      && Follows(Front(log), f)
      && (AcceptsFlow(End(log), f) ==>
            Standing(Front(log), f) == None || Standing(Front(log), f) == Some(End(log).conn))
  }

  lemma {:induction false} StandingIsNotGone(log: Log, f: FlowKey)
    ensures Standing(log, f).Some? ==> !IsGone(log, Standing(log, f).value)
  {
    if log != [] {
      StandingIsNotGone(Front(log), f);
    }
  }

  lemma {:induction false} GoneIsForever(log: Log, conn: ConnId, j: nat)
    requires j <= |log| && IsGone(log[..j], conn)
    ensures IsGone(log, conn)
  {
    if j == |log| {
      assert log[..j] == log;
    } else {
      assert Front(log)[..j] == log[..j];
      GoneIsForever(Front(log), conn, j);
    }
  }

  /** Something that releases flow `f` from the connection it is bound to. */
  predicate Releases(e: Event, f: FlowKey) {
    || (AcceptsFlow(e, f) && e.closes)
    || (e.Expired? && f in e.flows)
    || e.Cleared?
  }

  lemma {:induction false} StandsUntilReleased(log: Log, f: FlowKey, i: nat)
    requires Follows(log, f) && i < |log| && AcceptsFlow(log[i], f)
    requires forall k :: i <= k < |log| ==> !Releases(log[k], f)
    requires !IsGone(log, log[i].conn)
    ensures Standing(log, f) == Some(log[i].conn)
  {
    if i < |log| - 1 {
      StandsUntilReleased(Front(log), f, i);
    }
  }

  /** The meaning of `Follows`: between two packets of a flow, the second goes to the queue of the first unless in
      between a FIN or RST of the flow was accepted, its binding expired or was cleared, or the connection went away. */
  lemma SameQueueUntilReleased(log: Log, f: FlowKey, i: nat, j: nat)
    requires Follows(log, f) && i < j < |log| && AcceptsFlow(log[i], f) && AcceptsFlow(log[j], f)
    requires forall k :: i <= k < j ==> !Releases(log[k], f)
    requires !IsGone(log[..j], log[i].conn)
    ensures log[j].conn == log[i].conn
  {
    FollowsPrefix(log, f, j + 1);
    assert Front(log[..j + 1]) == log[..j];
    StandsUntilReleased(log[..j], f, i);
  }

  lemma {:induction false} FollowsPrefix(log: Log, f: FlowKey, n: nat)
    requires Follows(log, f) && n <= |log|
    ensures Follows(log[..n], f)
  {
    if n < |log| {
      FollowsPrefix(Front(log), f, n);
      assert Front(log)[..n] == log[..n];
    } else {
      assert log[..n] == log;
    }
  }

  /** The packets of a flow accepted since its binding was last released. */
  function Stretch(log: Log, f: FlowKey): seq<Frame> {
    if log == [] then []
    else if !AcceptsFlow(End(log), f) then Stretch(Front(log), f)
    else (if Standing(Front(log), f).Some? then Stretch(Front(log), f) else []) + [End(log).frame]
  }

  /** The connection that accepted the flow's latest packet. */
  function Carrier(log: Log, f: FlowKey): Option<ConnId> {
    if log == [] then None
    else if AcceptsFlow(End(log), f) then Some(End(log).conn)
    else Carrier(Front(log), f)
  }

  lemma {:induction false} StandingIsCarrier(log: Log, f: FlowKey)
    ensures Standing(log, f).Some? ==> Standing(log, f) == Carrier(log, f)
  {
    if log != [] { StandingIsCarrier(Front(log), f); }
  }

  predicate IsSuffix<T(==)>(a: seq<T>, b: seq<T>) {
    |a| <= |b| && a == b[|b| - |a|..]
  }

  /** The packets of the current stretch are, in this order, the last ones of the flow in one queue. */
  lemma {:induction false} StretchIsInOneQueue(log: Log, f: FlowKey)
    requires Follows(log, f)
    ensures Stretch(log, f) != [] ==>
      && Carrier(log, f).Some?
      && IsSuffix(Stretch(log, f), OfFlow(AcceptedBy(log, Carrier(log, f).value), f))
  {
    if log != [] {
      var front := Front(log);
      StretchIsInOneQueue(front, f);
      StandingIsCarrier(front, f);
      if AcceptsFlow(End(log), f) {
        var c := End(log).conn;
        OfFlowAppend(AcceptedBy(front, c), End(log).frame, f);
        var all := OfFlow(AcceptedBy(front, c), f);
        if Standing(front, f).Some? && Stretch(front, f) != [] {
          SuffixAppend(Stretch(front, f), all, End(log).frame);
        } else {
          SuffixAppend([], all, End(log).frame);
        }
      } else if Stretch(log, f) != [] {
        var c := Carrier(front, f).value;
        if End(log).Accepted? && End(log).conn == c {
          OfFlowAppend(AcceptedBy(front, c), End(log).frame, f);
          assert OfFlow(AcceptedBy(front, c), f) + [] == OfFlow(AcceptedBy(front, c), f);
        } else {
          assert AcceptedBy(front, c) + [] == AcceptedBy(front, c);
        }
      }
    }
  }

  lemma SuffixAppend<T>(a: seq<T>, b: seq<T>, x: T)
    requires IsSuffix(a, b)
    ensures IsSuffix(a + [x], b + [x])
  {}

  lemma OfFlowAppend(frames: seq<Frame>, x: Frame, f: FlowKey)
    ensures OfFlow(frames + [x], f) == OfFlow(frames, f) + if x.flow == Some(f) then [x] else []
  {
    assert (frames + [x])[..|frames|] == frames;
  }

  lemma {:induction false} OfFlowConcat(a: seq<Frame>, b: seq<Frame>, f: FlowKey)
    ensures OfFlow(a + b, f) == OfFlow(a, f) + OfFlow(b, f)
  {
    if b == [] {
      assert a + b == a;
    } else {
      var n := |b| - 1;
      assert (a + b)[..|a + b| - 1] == a + b[..n];
      OfFlowConcat(a, b[..n], f);
    }
  }

  /** The packets of a stretch that a connection has taken off its queue are a prefix of the stretch, and the rest of it
      is what the queue still holds of the flow at its end, in order. */
  ghost predicate DeliveredInOrder(stretch: seq<Frame>, f: FlowKey, taken: seq<Frame>, queued: seq<Frame>) {
    var earlier := |OfFlow(taken, f)| + |OfFlow(queued, f)| - |stretch|;
    && earlier >= 0
    && (if |OfFlow(taken, f)| <= earlier then IsSuffix(stretch, OfFlow(queued, f))
        else stretch == OfFlow(taken, f)[earlier..] + OfFlow(queued, f))
  }

  lemma TakenIsPrefixOfStretch(log: Log, f: FlowKey, id: ConnId, taken: seq<Frame>, queued: seq<Frame>)
    requires Follows(log, f) && Stretch(log, f) != [] && Carrier(log, f) == Some(id)
    requires AcceptedBy(log, id) == taken + queued
    ensures DeliveredInOrder(Stretch(log, f), f, taken, queued)
  {
    StretchIsInOneQueue(log, f);
    OfFlowConcat(taken, queued, f);
    SuffixOfConcat(Stretch(log, f), OfFlow(taken, f), OfFlow(queued, f));
  }

  lemma SuffixOfConcat<T>(s: seq<T>, a: seq<T>, b: seq<T>)
    requires IsSuffix(s, a + b)
    ensures var earlier := |a| + |b| - |s|;
            earlier >= 0 && if |a| <= earlier then IsSuffix(s, b) else s == a[earlier..] + b
  {}

  lemma {:induction false} CarrierAccepted(log: Log, f: FlowKey, id: ConnId)
    requires Carrier(log, f) == Some(id)
    ensures AcceptedBy(log, id) != []
  {
    if !AcceptsFlow(End(log), f) { CarrierAccepted(Front(log), f, id); }
  }

  // ---- appending one event ----------------------------------------------------------------

  lemma AppendEvent(log: Log, e: Event)
    ensures Front(log + [e]) == log && End(log + [e]) == e
  {}

  lemma AppendOther(log: Log, e: Event, conn: ConnId, call: CallId)
    requires !e.Accepted?
    ensures AcceptedBy(log + [e], conn) == AcceptedBy(log, conn) && CountOf(log + [e], call) == CountOf(log, call)
  {
    AppendEvent(log, e);
  }

  lemma AppendAccepted(log: Log, e: Event, conn: ConnId, call: CallId)
    requires e.Accepted?
    ensures AcceptedBy(log + [e], conn) == AcceptedBy(log, conn) + if e.conn == conn then [e.frame] else []
    ensures CountOf(log + [e], call) == CountOf(log, call) + if e.frame.call == call then 1 else 0
    ensures IsGone(log + [e], conn) == IsGone(log, conn)
  {
    AppendEvent(log, e);
  }
}
