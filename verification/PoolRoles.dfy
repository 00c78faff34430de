/** Roles in the client's connection pool: one primary, standbys, and connections being drained. The element type is a
    connection id in the state machine and a connection object in the pool class. */
module PoolRoles {
  import opened Wrappers
  import opened Registry

  datatype Role = Primary | Standby | Draining

  /** The role of every connection, and since when it is primary. */
  datatype Roles<K> = Roles(role: map<K, Role>, since: map<K, int>)

  /** The first live connection of the list with a given role. */
  function FirstWith<K(==)>(conns: seq<K>, alive: set<K>, role: map<K, Role>, r: Role): Option<K> {
    if conns == [] then None
    else if conns[0] in alive && conns[0] in role && role[conns[0]] == r then Some(conns[0])
    else FirstWith(conns[1..], alive, role, r)
  }

  /** The first live connection of the list that is not draining. */
  function FirstUsable<K(==)>(conns: seq<K>, alive: set<K>, role: map<K, Role>): Option<K> {
    if conns == [] then None
    else if conns[0] in alive && conns[0] in role && role[conns[0]] != Draining then Some(conns[0])
    else FirstUsable(conns[1..], alive, role)
  }

  /** The live connections of the list with a given role. */
  function AllWith<K(==)>(conns: seq<K>, alive: set<K>, role: map<K, Role>, r: Role): seq<K> {
    if conns == [] then []
    else
      var rest := AllWith(conns[1..], alive, role, r);
      if conns[0] in alive && conns[0] in role && role[conns[0]] == r then [conns[0]] + rest else rest
  }

  /** `setRole`. */
  function SetRole<K(==)>(t: Roles<K>, k: K, r: Role, now: int): Roles<K> {
    Roles(t.role[k := r], if r == Primary then t.since[k := now] else t.since)
  }

  predicate LivePrimary<K(==)>(alive: set<K>, role: map<K, Role>, k: K) {
    k in alive && k in role && role[k] == Primary
  }

  predicate LiveUsable<K(==)>(alive: set<K>, role: map<K, Role>, k: K) {
    k in alive && k in role && role[k] != Draining
  }

  /** The first loop of `normalizePrimaryLocked`: every live primary but the first becomes a standby. */
  function DemoteExtra<K(==)>(conns: seq<K>, alive: set<K>, t: Roles<K>, found: bool, now: int): Roles<K> {
    if conns == [] then t
    else if !LivePrimary(alive, t.role, conns[0]) then DemoteExtra(conns[1..], alive, t, found, now)
    else DemoteExtra(conns[1..], alive, if found then SetRole(t, conns[0], Standby, now) else t, true, now)
  }

  /** `promoteStandbyLocked`: the first live standby, else the first live connection that is not draining. */
  function ToPromote<K(==)>(conns: seq<K>, alive: set<K>, role: map<K, Role>): Option<K> {
    var s := FirstWith(conns, alive, role, Standby);
    if s.Some? then s else FirstUsable(conns, alive, role)
  }

  function Promote<K(==)>(conns: seq<K>, alive: set<K>, t: Roles<K>, now: int): Roles<K> {
    var k := ToPromote(conns, alive, t.role);
    if k.Some? then SetRole(t, k.value, Primary, now) else t
  }

  /** `normalizePrimaryLocked`. */
  function Normalize<K(==)>(conns: seq<K>, alive: set<K>, t: Roles<K>, now: int): Roles<K> {
    var t' := DemoteExtra(conns, alive, t, false, now);
    if FirstWith(conns, alive, t'.role, Primary).Some? then t' else Promote(conns, alive, t', now)
  }

  ghost predicate HasRoles<K>(conns: seq<K>, t: Roles<K>) {
    forall k :: k in conns ==> k in t.role
  }

  /** At most one live connection of the list is primary. */
  ghost predicate SinglePrimary<K>(conns: seq<K>, alive: set<K>, role: map<K, Role>) {
    forall a, b :: a in conns && b in conns && LivePrimary(alive, role, a) && LivePrimary(alive, role, b) ==> a == b
  }

  lemma {:induction false} FirstWithIs<K>(conns: seq<K>, alive: set<K>, role: map<K, Role>, r: Role)
    ensures match FirstWith(conns, alive, role, r)
            case Some(k) =>
              k in conns && k in alive && k in role && role[k] == r
            case None => forall k :: k in conns && k in alive && k in role ==> role[k] != r
  {
    if conns != [] { FirstWithIs(conns[1..], alive, role, r); }
  }

  lemma {:induction false} FirstUsableIs<K>(conns: seq<K>, alive: set<K>, role: map<K, Role>)
    ensures match FirstUsable(conns, alive, role)
            case Some(k) => k in conns && LiveUsable(alive, role, k)
            case None => forall k :: k in conns ==> !LiveUsable(alive, role, k)
  {
    if conns != [] { FirstUsableIs(conns[1..], alive, role); }
  }

  /** Demotion keeps the first live primary, turns the other live primaries into standbys and touches nothing else. */
  lemma {:induction false} DemotionKeepsFirst<K>(conns: seq<K>, alive: set<K>, t: Roles<K>, found: bool, now: int)
    requires NoDuplicates(conns)
    ensures var t' := DemoteExtra(conns, alive, t, found, now);
            var first := if found then None else FirstWith(conns, alive, t.role, Primary);
            && t'.since == t.since && t'.role.Keys == t.role.Keys
            && forall k :: k in t.role ==>
                 t'.role[k] == if k in conns && LivePrimary(alive, t.role, k) && Some(k) != first
                               then Standby else t.role[k]
  {
    if conns != [] {
      var k0, rest := conns[0], conns[1..];
      assert k0 !in rest && NoDuplicates(rest);
      if !LivePrimary(alive, t.role, k0) {
        DemotionKeepsFirst(rest, alive, t, found, now);
      } else {
        var t1 := if found then SetRole(t, k0, Standby, now) else t;
        DemotionKeepsFirst(rest, alive, t1, true, now);
      }
    }
  }

  lemma DemotionKeepsPrimary<K>(conns: seq<K>, alive: set<K>, t: Roles<K>, now: int)
    requires NoDuplicates(conns)
    ensures FirstWith(conns, alive, DemoteExtra(conns, alive, t, false, now).role, Primary) ==
            FirstWith(conns, alive, t.role, Primary)
  {
    DemotionKeepsFirst(conns, alive, t, false, now);
    FirstWithIs(conns, alive, t.role, Primary);
    FirstWithIs(conns, alive, DemoteExtra(conns, alive, t, false, now).role, Primary);
  }

  /** The fallback loop of `promoteStandbyLocked` never promotes anything: when it runs there is neither a live primary
      nor a live standby. */
  lemma FallbackIsIdle<K>(conns: seq<K>, alive: set<K>, role: map<K, Role>)
    requires FirstWith(conns, alive, role, Primary) == None
    ensures ToPromote(conns, alive, role) == FirstWith(conns, alive, role, Standby)
    ensures FirstWith(conns, alive, role, Standby) == None ==> FirstUsable(conns, alive, role) == None
  {
    FirstWithIs(conns, alive, role, Primary);
    FirstWithIs(conns, alive, role, Standby);
    FirstUsableIs(conns, alive, role);
  }

  /** What `normalizePrimaryLocked` leaves behind: exactly one live primary if any live connection is not draining, none
      otherwise; a live primary that was there first stays; dead and draining connections keep their role. */
  lemma NormalizeLeavesOnePrimary<K>(conns: seq<K>, alive: set<K>, t: Roles<K>, now: int)
    requires NoDuplicates(conns) && HasRoles(conns, t)
    ensures var t' := Normalize(conns, alive, t, now);
            && t'.role.Keys == t.role.Keys && SinglePrimary(conns, alive, t'.role)
            && (FirstWith(conns, alive, t'.role, Primary).Some? <==>
                exists k :: k in conns && LiveUsable(alive, t.role, k))
            && (forall k :: k in t.role && (k !in conns || !LiveUsable(alive, t.role, k)) ==> t'.role[k] == t.role[k])
            && (forall k :: k in conns && LiveUsable(alive, t.role, k) ==> t'.role[k] != Draining)
            && (FirstWith(conns, alive, t.role, Primary).Some? ==>
                  FirstWith(conns, alive, t'.role, Primary) == FirstWith(conns, alive, t.role, Primary)
                    && t'.since == t.since)
  {
    var t1 := DemoteExtra(conns, alive, t, false, now);
    var t' := Normalize(conns, alive, t, now);
    DemotionKeepsFirst(conns, alive, t, false, now);
    FirstWithIs(conns, alive, t.role, Primary);
    FirstWithIs(conns, alive, t1.role, Primary);
    FirstWithIs(conns, alive, t'.role, Primary);
    if FirstWith(conns, alive, t1.role, Primary) == None {
      FallbackIsIdle(conns, alive, t1.role);
      FirstWithIs(conns, alive, t1.role, Standby);
    }
  }

  /** `k` is at a place of the list before which nobody lives and has the role. */
  ghost predicate IsFirst<K>(conns: seq<K>, alive: set<K>, role: map<K, Role>, r: Role, k: K) {
    && k in alive && k in role && role[k] == r
    && exists n :: 0 <= n < |conns| && conns[n] == k && NoneBefore(conns, alive, role, r, n)
  }

  ghost predicate NoneBefore<K>(conns: seq<K>, alive: set<K>, role: map<K, Role>, r: Role, n: nat)
    requires n <= |conns|
  {
    forall m :: 0 <= m < n && conns[m] in alive && conns[m] in role ==> role[conns[m]] != r
  }

  lemma {:induction false} FoundAt<K>(conns: seq<K>, alive: set<K>, role: map<K, Role>, r: Role, n: nat)
    requires n < |conns| && NoneBefore(conns, alive, role, r, n)
    requires conns[n] in alive && conns[n] in role && role[conns[n]] == r
    ensures FirstWith(conns, alive, role, r) == Some(conns[n])
  {
    if n > 0 {
      assert conns[0] in alive && conns[0] in role ==> role[conns[0]] != r;
      FoundAt(conns[1..], alive, role, r, n - 1);
    }
  }

  /** A search finds the first of the live connections with the role. */
  lemma {:induction false} FirstWithIsFirst<K>(conns: seq<K>, alive: set<K>, role: map<K, Role>, r: Role, k: K)
    ensures FirstWith(conns, alive, role, r) == Some(k) <==> IsFirst(conns, alive, role, r, k)
  {
    if FirstWith(conns, alive, role, r) == Some(k) {
      if conns[0] in alive && conns[0] in role && role[conns[0]] == r {
        assert NoneBefore(conns, alive, role, r, 0);
      } else {
        FirstWithIsFirst(conns[1..], alive, role, r, k);
        var n :| 0 <= n < |conns[1..]| && conns[1..][n] == k && NoneBefore(conns[1..], alive, role, r, n);
        assert conns[n + 1] == k && NoneBefore(conns, alive, role, r, n + 1);
      }
    }
    if IsFirst(conns, alive, role, r, k) {
      var n :| 0 <= n < |conns| && conns[n] == k && NoneBefore(conns, alive, role, r, n);
      FoundAt(conns, alive, role, r, n);
    }
  }

  /** `normalizePrimaryLocked` changes nothing where one primary lives, and makes the first live standby the primary,
      from now on, where none does. */
  lemma NormalizeIs<K>(conns: seq<K>, alive: set<K>, t: Roles<K>, now: int, q: K)
    requires NoDuplicates(conns) && SinglePrimary(conns, alive, t.role) && HasRoles(conns, t)
    ensures (exists k :: k in conns && LivePrimary(alive, t.role, k)) ==> Normalize(conns, alive, t, now) == t
    ensures !(exists k :: k in conns && LivePrimary(alive, t.role, k)) && IsFirst(conns, alive, t.role, Standby, q) ==>
              Normalize(conns, alive, t, now) == Roles(t.role[q := Primary], t.since[q := now])
  {
    DemotionKeepsFirst(conns, alive, t, false, now);
    FirstWithIs(conns, alive, t.role, Primary);
    FirstWithIsFirst(conns, alive, t.role, Standby, q);
    assert DemoteExtra(conns, alive, t, false, now).role == t.role;
  }

  /** `rotatePrimaryLocked` without its builds: the first live primary starts draining when the first live standby
      can take over, and nothing happens otherwise. Some(c) names the connection that started draining. */
  function Rotate<K(==)>(conns: seq<K>, alive: set<K>, t: Roles<K>, now: int): (Roles<K>, Option<K>) {
    var current := FirstWith(conns, alive, t.role, Primary);
    var next := FirstWith(conns, alive, t.role, Standby);
    if current.Some? && next.Some? then
      (SetRole(SetRole(t, current.value, Draining, now), next.value, Primary, now), current)
    else (t, None)
  }

  /** Rotation never leaves the pool without the live primary it had, and keeps it the only one. */
  lemma RotateHandsOver<K>(conns: seq<K>, alive: set<K>, t: Roles<K>, now: int)
    requires SinglePrimary(conns, alive, t.role) && HasRoles(conns, t)
    ensures var (t', out) := Rotate(conns, alive, t, now);
            && SinglePrimary(conns, alive, t'.role) && t'.role.Keys == t.role.Keys
            && (FirstWith(conns, alive, t.role, Primary).Some? ==> FirstWith(conns, alive, t'.role, Primary).Some?)
            && (forall k :: k in t.role ==> (t'.role[k] == Draining <==> t.role[k] == Draining || out == Some(k)))
            && (forall k :: k in t.role && (k !in conns || k !in alive) ==> t'.role[k] == t.role[k])
            && (out.Some? ==>
                  out == FirstWith(conns, alive, t.role, Primary) && out.value in conns && out.value in alive)
  {
    FirstWithIs(conns, alive, t.role, Primary);
    FirstWithIs(conns, alive, t.role, Standby);
    FirstWithIs(conns, alive, Rotate(conns, alive, t, now).0.role, Primary);
  }

  // ---- the build ledger -------------------------------------------------------------------

  /** Builders that are dialling, builders that have appended or failed and have yet to sign off, and the counter. */
  datatype Builds = Builds(next: nat, dialing: set<nat>, settled: set<nat>, pending: int)

  /** `scheduleBuildLocked` with `n` connections in the pool. */
  function Schedule(b: Builds, n: nat, max: nat): Builds {
    if n + b.pending >= max then b
    else Builds(b.next + 1, b.dialing + {b.next}, b.settled, b.pending + 1)
  }

  /** The loop of `ensureStandbysLocked`. */
  function EnsureBuilds(b: Builds, n: nat, max: nat): Builds
    decreases max - n - b.pending
  {
    if n + b.pending >= max then b else EnsureBuilds(Schedule(b, n, max), n, max)
  }

  /** A builder that has appended or failed and has yet to sign off. */
  function Settled(b: Builds, x: nat): Builds {
    b.(dialing := b.dialing - {x}, settled := b.settled + {x})
  }

  /** The counter counts the builders, and connections plus builders that may still add one never exceed the maximum. */
  ghost predicate LedgerInv(b: Builds, n: nat, max: nat) {
    match b
    case Builds(next, dialing, settled, pending) =>
      && dialing !! settled && (forall x :: x in dialing || x in settled ==> x < next)
      && pending == |dialing| + |settled|
      && n + |dialing| <= max
  }

  lemma ScheduleKeepsLedger(b: Builds, n: nat, max: nat)
    requires LedgerInv(b, n, max)
    ensures LedgerInv(Schedule(b, n, max), n, max)
    ensures n + Schedule(b, n, max).pending >= max || Schedule(b, n, max).pending > b.pending
  {
    assert b.next !in b.dialing;
  }

  lemma {:induction false} EnsureBuildsFills(b: Builds, n: nat, max: nat)
    requires LedgerInv(b, n, max)
    ensures LedgerInv(EnsureBuilds(b, n, max), n, max)
    ensures n + EnsureBuilds(b, n, max).pending >= max
    decreases max - n - b.pending
  {
    if n + b.pending < max {
      ScheduleKeepsLedger(b, n, max);
      EnsureBuildsFills(Schedule(b, n, max), n, max);
    }
  }
}
