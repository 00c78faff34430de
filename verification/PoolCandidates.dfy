/** The list of connections a UDP packet is offered to. */
module PoolCandidates {
  import opened Registry
  import opened PoolRoles
  import opened PoolMonitor

  /** `x` stands before `y` in the list. */
  ghost predicate Before<K>(list: seq<K>, x: K, y: K) {
    exists a, b :: 0 <= a < b < |list| && list[a] == x && list[b] == y
  }

  /** The list holds exactly the live primaries and standbys of `conns`, each once, the primaries first and otherwise in
      the order of `conns`. */
  ghost predicate IsBurstOrder<K>(list: seq<K>, conns: seq<K>, alive: set<K>, role: map<K, Role>) {
    && (forall i, j :: 0 <= i < j < |list| ==> list[i] != list[j])
    && (forall k :: k in list ==> k in conns && k in alive && k in role && role[k] != Draining)
    && (forall k :: k in conns && k in alive && k in role && role[k] != Draining ==> k in list)
    && (forall i, j :: 0 <= i < j < |list| && list[i] in role && list[j] in role ==>
          (role[list[i]] == Primary && role[list[j]] == Standby)
          || (role[list[i]] == role[list[j]] && Before(conns, list[i], list[j])))
  }

  lemma {:induction false} InRoleList<K>(conns: seq<K>, alive: set<K>, role: map<K, Role>, r: Role, k: K)
    ensures k in AllWith(conns, alive, role, r) <==> k in conns && k in alive && k in role && role[k] == r
  {
    if conns != [] { InRoleList(conns[1..], alive, role, r, k); }
  }

  lemma {:induction false} RoleListIsOrdered<K>(conns: seq<K>, alive: set<K>, role: map<K, Role>, r: Role, i: nat,
                                                j: nat)
    requires i < j < |AllWith(conns, alive, role, r)|
    ensures Before(conns, AllWith(conns, alive, role, r)[i], AllWith(conns, alive, role, r)[j])
  {
    var list, rest := AllWith(conns, alive, role, r), AllWith(conns[1..], alive, role, r);
    if list == rest {
      RoleListIsOrdered(conns[1..], alive, role, r, i, j);
      LaterBefore(conns, list[i], list[j]);
    } else if i > 0 {
      RoleListIsOrdered(conns[1..], alive, role, r, i - 1, j - 1);
      LaterBefore(conns, rest[i - 1], rest[j - 1]);
    } else {
      InRoleList(conns[1..], alive, role, r, rest[j - 1]);
      var b :| 0 <= b < |conns[1..]| && conns[1..][b] == rest[j - 1];
      assert conns[0] == list[i] && conns[b + 1] == list[j];
    }
  }

  lemma LaterBefore<K>(conns: seq<K>, x: K, y: K)
    requires conns != [] && Before(conns[1..], x, y)
    ensures Before(conns, x, y)
  {
    var a, b :| 0 <= a < b < |conns[1..]| && conns[1..][a] == x && conns[1..][b] == y;
    assert conns[a + 1] == x && conns[b + 1] == y;
  }

  lemma BeforeIsDistinct<K>(conns: seq<K>, x: K, y: K)
    requires NoDuplicates(conns) && Before(conns, x, y)
    ensures x != y
  {}

  /** `burstCandidates` builds that list. */
  lemma CandidatesAreInOrder<K>(c: Core<K>, alive: set<K>)
    requires NoDuplicates(c.conns)
    ensures IsBurstOrder(BurstCandidates(c, alive), c.conns, alive, c.roles.role)
  {
    var role, list := c.roles.role, BurstCandidates(c, alive);
    forall k | k in list ensures k in c.conns && k in alive && k in role && role[k] != Draining {
      InCandidates(c, alive, k);
    }
    forall k | k in c.conns && k in alive && k in role && role[k] != Draining ensures k in list {
      InCandidates(c, alive, k);
    }
    forall i, j | 0 <= i < j < |list|
      ensures list[i] != list[j]
      ensures list[i] in role && list[j] in role
      ensures (role[list[i]] == Primary && role[list[j]] == Standby)
              || (role[list[i]] == role[list[j]] && Before(c.conns, list[i], list[j]))
    {
      CandidatesOrdered(c, alive, i, j);
    }
  }

  lemma InCandidates<K>(c: Core<K>, alive: set<K>, k: K)
    ensures k in BurstCandidates(c, alive) <==>
              k in c.conns && k in alive && k in c.roles.role && c.roles.role[k] != Draining
  {
    InRoleList(c.conns, alive, c.roles.role, Primary, k);
    InRoleList(c.conns, alive, c.roles.role, Standby, k);
  }

  lemma CandidatesOrdered<K>(c: Core<K>, alive: set<K>, i: nat, j: nat)
    requires NoDuplicates(c.conns) && i < j < |BurstCandidates(c, alive)|
    ensures var role, x, y := c.roles.role, BurstCandidates(c, alive)[i], BurstCandidates(c, alive)[j];
            && x != y && x in role && y in role
            && ((role[x] == Primary && role[y] == Standby) || (role[x] == role[y] && Before(c.conns, x, y)))
  {
    var role := c.roles.role;
    var first, second := AllWith(c.conns, alive, role, Primary), AllWith(c.conns, alive, role, Standby);
    var x, y := (first + second)[i], (first + second)[j];
    InRoleList(c.conns, alive, role, if i < |first| then Primary else Standby, x);
    InRoleList(c.conns, alive, role, if j < |first| then Primary else Standby, y);
    if j < |first| {
      RoleListIsOrdered(c.conns, alive, role, Primary, i, j);
      BeforeIsDistinct(c.conns, x, y);
    } else if i >= |first| {
      RoleListIsOrdered(c.conns, alive, role, Standby, i - |first|, j - |first|);
      BeforeIsDistinct(c.conns, x, y);
    }
  }
}
