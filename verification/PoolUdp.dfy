/** The order in which the pool offers a UDP packet: which connections are asked, in which order, and why each was
    passed over, whatever happens meanwhile. */
module PoolUdp {
  import opened Wrappers
  import opened Packet
  import opened EventLog
  import opened FlowTable
  import opened Registry
  import opened PoolRoles
  import opened PoolMonitor
  import opened PoolCandidates
  import opened PoolModel
  import opened PoolSafety

  /** At step `n` the current call passes over the head of `rest`: it is dead, has signalled its end, or is full. */
  ghost predicate PassedOver(s: State, rest: seq<ConnId>) {
    && s.cur in s.calls && rest != []
    && ((s.calls[s.cur].pc == UdpTry(rest) && rest[0] !in s.alive)
        || (s.calls[s.cur].pc == UdpOffer(rest) && (rest[0] in s.done || !Room(s, rest[0]))))
  }

  /** The call looked up its list with step `i`, and each entry before `rest` was passed over between then and `n`. */
  ghost predicate Tried(states: seq<State>, n: nat, i: nat, list: seq<ConnId>, rest: seq<ConnId>)
    requires n < |states|
  {
    && i < n && states[i].cur == states[n].cur && list == Candidates(states[i]) && |rest| <= |list|
    && rest == list[|list| - |rest|..]
    && forall j :: 0 <= j < |list| - |rest| ==> PassedAt(states, i, n, list[j..])
  }

  ghost predicate PassedAt(states: seq<State>, i: nat, n: nat, rest: seq<ConnId>)
    requires n < |states|
  {
    exists m :: i < m < n && states[m].cur == states[n].cur && PassedOver(states[m], rest)
  }

  /** Where the list is being worked through, what is left of it. */
  function Left(pc: Pc): Option<seq<ConnId>> {
    match pc
    case UdpTry(rest) => Some(rest)
    case UdpOffer(rest) => Some(rest)
    case _ => None
  }

  ghost predicate Trying(s: State, rest: seq<ConnId>) {
    s.cur in s.calls && Left(s.calls[s.cur].pc) == Some(rest)
  }

  /** How the current call got to where it is: it has not moved, it has just looked up its list, it has found the head
      of the list alive, or it has passed over it. */
  lemma TryingStep(u: Setup, s: State, step: Step, s': State, rest: seq<ConnId>)
    requires Next(u, s, step, s') && Trying(s', rest)
    ensures s'.cur == s.cur
    ensures || Trying(s, rest)
            || (s.cur in s.calls && s.calls[s.cur].pc == UdpList && rest == Candidates(s))
            || (exists x :: Trying(s, [x] + rest) && PassedOver(s, [x] + rest))
  {
    if step.Pump? {
      PumpTries(u, s, s.calls[s.cur], step.k, s', rest);
    } else if step.Env? {
      if EnvNext(s, step.e, s') { EnvKeepsCalls(s, step.e, s'); } else { BuildLog(u, s, step.e, s'); }
    } else {
      BeginTriesNothing(s, step.call, step.data, s', rest);
    }
  }

  lemma BeginTriesNothing(s: State, call: CallId, data: Bytes, s': State, rest: seq<ConnId>)
    requires BeginNext(s, call, data, s')
    ensures !Trying(s', rest)
  {}

  lemma PumpTries(u: Setup, s: State, c: Call, k: CallStep, s': State, rest: seq<ConnId>)
    requires s.cur in s.calls && c == s.calls[s.cur] && PumpNext(u, s, c, k, s') && Trying(s', rest)
    ensures s'.cur == s.cur
    ensures || Trying(s, rest) || (c.pc == UdpList && rest == Candidates(s))
            || (exists x :: Trying(s, [x] + rest) && PassedOver(s, [x] + rest))
  {
    if k.Move? {
      if (c.pc.UdpTry? || c.pc.UdpOffer?) && c.pc.rest != [] && k.pc == UdpTry(c.pc.rest[1..]) {
        assert c.pc.rest == [c.pc.rest[0]] + rest;
        assert Trying(s, [c.pc.rest[0]] + rest) && PassedOver(s, [c.pc.rest[0]] + rest);
      }
    }
  }

  lemma TriedStays(states: seq<State>, n: nat, i: nat, list: seq<ConnId>, rest: seq<ConnId>)
    requires n + 1 < |states| && states[n + 1].cur == states[n].cur && Tried(states, n, i, list, rest)
    ensures Tried(states, n + 1, i, list, rest)
  {
    forall j | 0 <= j < |list| - |rest| ensures PassedAt(states, i, n + 1, list[j..]) {
      assert PassedAt(states, i, n, list[j..]);
      var m :| i < m < n && states[m].cur == states[n].cur && PassedOver(states[m], list[j..]);
    }
  }

  lemma TriedOneMore(states: seq<State>, n: nat, i: nat, list: seq<ConnId>, x: ConnId, rest: seq<ConnId>)
    requires n + 1 < |states| && states[n + 1].cur == states[n].cur && Tried(states, n, i, list, [x] + rest)
    requires PassedOver(states[n], [x] + rest)
    ensures Tried(states, n + 1, i, list, rest)
  {
    var k := |list| - |rest| - 1;
    assert list[k..] == [x] + rest && list[k..][1..] == rest && list[k + 1..] == rest;
    forall j | 0 <= j < |list| - |rest| ensures PassedAt(states, i, n + 1, list[j..]) {
      if j < k {
        assert PassedAt(states, i, n, list[j..]);
        var m :| i < m < n && states[m].cur == states[n].cur && PassedOver(states[m], list[j..]);
      } else {
        assert PassedOver(states[n], list[j..]);
      }
    }
  }

  /** Whatever a call is trying, it has passed over everything before it in the list it looked up. */
  lemma {:induction false} TriesInOrder(u: Setup, cap: nat, states: seq<State>, steps: seq<Step>, n: nat,
                                        rest: seq<ConnId>)
    returns (i: nat, list: seq<ConnId>)
    requires Run(u, cap, states, steps) && n <= |steps| && Trying(states[n], rest)
    ensures Tried(states, n, i, list, rest)
  {
    var s, s' := states[n - 1], states[n];
    TryingStep(u, s, steps[n - 1], s', rest);
    if Trying(s, rest) {
      i, list := TriesInOrder(u, cap, states, steps, n - 1, rest);
      TriedStays(states, n - 1, i, list, rest);
    } else if x :| Trying(s, [x] + rest) && PassedOver(s, [x] + rest) {
      i, list := TriesInOrder(u, cap, states, steps, n - 1, [x] + rest);
      TriedOneMore(states, n - 1, i, list, x, rest);
    } else {
      i, list := n - 1, rest;
    }
  }

  /** A UDP packet is offered to a standby only after every connection that was a live primary when the call looked up
      its list has been dead, done or full when it was tried. */
  lemma StandbyComesLast(u: Setup, cap: nat, states: seq<State>, steps: seq<Step>, n: nat, rest: seq<ConnId>)
    returns (i: nat)
    requires Run(u, cap, states, steps) && n <= |steps| && Trying(states[n], rest) && rest != []
    ensures i < n && states[i].cur == states[n].cur && rest[0] in states[i].core.roles.role
    ensures states[i].core.roles.role[rest[0]] == Standby ==>
              forall p :: p in states[i].core.conns && LivePrimary(states[i].alive, states[i].core.roles.role, p) ==>
                exists m, tail :: i < m < n && PassedOver(states[m], [p] + tail)
  {
    var list;
    i, list := TriesInOrder(u, cap, states, steps, n, rest);
    var s := states[i];
    RunIsSafe(u, cap, states, steps, i, 0, 0);
    MembersAreDistinct(u, s);
    CandidatesAreInOrder(s.core, s.alive);
    var k := |list| - |rest|;
    assert list[k] == rest[0] && rest[0] in list;
    if s.core.roles.role[rest[0]] == Standby {
      forall p | p in s.core.conns && LivePrimary(s.alive, s.core.roles.role, p)
        ensures exists m, tail :: i < m < n && PassedOver(states[m], [p] + tail)
      {
        PrimaryWasTried(states, n, i, list, rest, p);
      }
    }
  }

  lemma PrimaryWasTried(states: seq<State>, n: nat, i: nat, list: seq<ConnId>, rest: seq<ConnId>, p: ConnId)
    requires n < |states| && Tried(states, n, i, list, rest) && rest != []
    requires IsBurstOrder(list, states[i].core.conns, states[i].alive, states[i].core.roles.role)
    requires rest[0] in states[i].core.roles.role && states[i].core.roles.role[rest[0]] == Standby
    requires p in states[i].core.conns && LivePrimary(states[i].alive, states[i].core.roles.role, p)
    ensures exists m, tail :: i < m < n && PassedOver(states[m], [p] + tail)
  {
    var k := |list| - |rest|;
    assert list[k] == rest[0] && p in list;
    var j :| 0 <= j < |list| && list[j] == p;
    PrimaryIsEarlier(states[i], list, j, k);
    EntryWasTried(states, n, i, list, rest, j);
  }

  lemma EntryWasTried(states: seq<State>, n: nat, i: nat, list: seq<ConnId>, rest: seq<ConnId>, j: nat)
    requires n < |states| && Tried(states, n, i, list, rest) && j < |list| - |rest|
    ensures exists m, tail :: i < m < n && PassedOver(states[m], [list[j]] + tail)
  {
    assert list[j..] == [list[j]] + list[j + 1..];
    assert PassedAt(states, i, n, list[j..]);
    var m :| i < m < n && states[m].cur == states[n].cur && PassedOver(states[m], list[j..]);
  }

  lemma MembersAreDistinct(u: Setup, s: State)
    requires CoreInv(u, s)
    ensures NoDuplicates(s.core.conns)
  {
    assert RolesInv(s.core, s.alive, u.max);
  }

  lemma PrimaryIsEarlier(s: State, list: seq<ConnId>, j: nat, k: nat)
    requires IsBurstOrder(list, s.core.conns, s.alive, s.core.roles.role) && j < |list| && k < |list|
    requires list[j] in s.core.roles.role && s.core.roles.role[list[j]] == Primary
    requires list[k] in s.core.roles.role && s.core.roles.role[list[k]] == Standby
    ensures j < k
  {}
}
