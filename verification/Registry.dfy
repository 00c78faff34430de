/** The relay's connection lists: per key, the registered connections in registration order. The element type is a
    connection id in the state machine and a connection object in the server class. */
module Registry {

  predicate NoDuplicates<K(==)>(s: seq<K>) {
    forall i, j :: 0 <= i < j < |s| ==> s[i] != s[j]
  }

  /** `removeConn`: the list without the first occurrence. */
  function RemoveFirst<K(==)>(s: seq<K>, k: K): seq<K> {
    if s == [] then []
    else if s[0] == k then s[1..]
    else [s[0]] + RemoveFirst(s[1..], k)
  }

  function Get<V(==), K>(m: map<V, seq<K>>, v: V): seq<K> {
    if v in m then m[v] else []
  }

  function IndexAdd<V(==), K>(m: map<V, seq<K>>, v: V, k: K): map<V, seq<K>> {
    m[v := Get(m, v) + [k]]
  }

  function IndexRemove<V(==), K(==)>(m: map<V, seq<K>>, v: V, k: K): map<V, seq<K>> {
    var l := RemoveFirst(Get(m, v), k);
    if l == [] then m - {v} else m[v := l]
  }

  /** The members of the registration log with a given attribute, oldest first. */
  function Where<V(==), K(==)>(regs: seq<K>, attr: map<K, V>, v: V): seq<K> {
    if regs == [] then []
    else (if regs[0] in attr && attr[regs[0]] == v then [regs[0]] else []) + Where(regs[1..], attr, v)
  }

  /** The index holds, under every key, exactly the registered members with that attribute in registration order, and
      no key with an empty list. */
  ghost predicate Indexes<V(!new), K>(m: map<V, seq<K>>, regs: seq<K>, attr: map<K, V>) {
    forall v :: (v in m <==> Where(regs, attr, v) != []) && Get(m, v) == Where(regs, attr, v)
  }

  lemma {:induction false} WhereOfAppend<V, K>(regs: seq<K>, attr: map<K, V>, k: K, v: V)
    ensures Where(regs + [k], attr, v) == Where(regs, attr, v) + if k in attr && attr[k] == v then [k] else []
  {
    if regs == [] {
    } else {
      assert (regs + [k])[1..] == regs[1..] + [k];
      WhereOfAppend(regs[1..], attr, k, v);
    }
  }

  lemma {:induction false} WhereOfRemove<V, K>(regs: seq<K>, attr: map<K, V>, k: K, v: V)
    requires k in attr
    ensures Where(RemoveFirst(regs, k), attr, v)
         == if attr[k] == v then RemoveFirst(Where(regs, attr, v), k) else Where(regs, attr, v)
  {
    if regs == [] {
    } else if regs[0] == k {
    } else {
      WhereOfRemove(regs[1..], attr, k, v);
      var w := Where(regs[1..], attr, v);
      assert ([regs[0]] + w)[1..] == w && [] + w == w;
      assert ([regs[0]] + RemoveFirst(regs[1..], k))[1..] == RemoveFirst(regs[1..], k);
    }
  }

  lemma {:induction false} WhereOfNewAttr<V, K>(regs: seq<K>, attr: map<K, V>, k: K, x: V, v: V)
    requires k !in regs
    ensures Where(regs, attr[k := x], v) == Where(regs, attr, v)
  {
    if regs != [] { WhereOfNewAttr(regs[1..], attr, k, x, v); }
  }

  /** Membership in a list means being registered with that attribute. */
  lemma {:induction false} InWhere<V, K>(regs: seq<K>, attr: map<K, V>, k: K, v: V)
    ensures k in Where(regs, attr, v) <==> k in regs && k in attr && attr[k] == v
  {
    if regs != [] { InWhere(regs[1..], attr, k, v); }
  }

  lemma {:induction false} WhereHasNoDuplicates<V, K>(regs: seq<K>, attr: map<K, V>, v: V)
    requires NoDuplicates(regs)
    ensures NoDuplicates(Where(regs, attr, v))
  {
    if regs != [] {
      WhereHasNoDuplicates(regs[1..], attr, v);
      InWhere(regs[1..], attr, regs[0], v);
      assert regs[0] !in regs[1..];
    }
  }

  lemma {:induction false} InRemoveFirst<K>(s: seq<K>, k: K, x: K)
    requires NoDuplicates(s)
    ensures x in RemoveFirst(s, k) <==> x in s && x != k
    ensures NoDuplicates(RemoveFirst(s, k))
  {
    if s != [] {
      assert NoDuplicates(s[1..]);
      InRemoveFirst(s[1..], k, x);
      if s[0] == k {
        assert k !in s[1..];
      } else {
        InRemoveFirst(s[1..], k, s[0]);
        assert s[0] !in s[1..];
      }
    }
  }

  lemma AddKeepsIndex<V(!new), K>(m: map<V, seq<K>>, regs: seq<K>, attr: map<K, V>, k: K, x: V)
    requires Indexes(m, regs, attr) && k !in regs
    ensures Indexes(IndexAdd(m, x, k), regs + [k], attr[k := x])
  {
    forall v ensures
      var m' := IndexAdd(m, x, k);
      var w := Where(regs + [k], attr[k := x], v);
      (v in m' <==> w != []) && Get(m', v) == w
    {
      WhereOfNewAttr(regs, attr, k, x, v);
      WhereOfAppend(regs, attr[k := x], k, v);
      assert Get(m, v) == Where(regs, attr, v);
    }
  }

  lemma RemoveKeepsIndex<V(!new), K>(m: map<V, seq<K>>, regs: seq<K>, attr: map<K, V>, k: K)
    requires Indexes(m, regs, attr) && k in attr
    ensures Indexes(IndexRemove(m, attr[k], k), RemoveFirst(regs, k), attr)
  {
    forall v ensures
      var m' := IndexRemove(m, attr[k], k);
      var w := Where(RemoveFirst(regs, k), attr, v);
      (v in m' <==> w != []) && Get(m', v) == w
    {
      WhereOfRemove(regs, attr, k, v);
      assert Get(m, v) == Where(regs, attr, v);
    }
  }

  /** A registration with its two attributes enters both indices. */
  lemma AddKeepsBoth<V(!new), W(!new), K>(m: map<V, seq<K>>, n: map<W, seq<K>>, regs: seq<K>, a: map<K, V>,
                                          b: map<K, W>, k: K, x: V, y: W)
    requires Indexes(m, regs, a) && Indexes(n, regs, b) && NoDuplicates(regs) && k !in regs
    ensures Indexes(IndexAdd(m, x, k), regs + [k], a[k := x]) && Indexes(IndexAdd(n, y, k), regs + [k], b[k := y])
    ensures NoDuplicates(regs + [k])
  {
    AddKeepsIndex(m, regs, a, k, x);
    AddKeepsIndex(n, regs, b, k, y);
  }

  lemma RemoveKeepsBoth<V(!new), W(!new), K>(m: map<V, seq<K>>, n: map<W, seq<K>>, regs: seq<K>, a: map<K, V>,
                                             b: map<K, W>, k: K)
    requires Indexes(m, regs, a) && Indexes(n, regs, b) && NoDuplicates(regs) && k in a && k in b
    ensures Indexes(IndexRemove(m, a[k], k), RemoveFirst(regs, k), a)
            && Indexes(IndexRemove(n, b[k], k), RemoveFirst(regs, k), b)
    ensures NoDuplicates(RemoveFirst(regs, k)) && k !in RemoveFirst(regs, k)
  {
    RemoveKeepsIndex(m, regs, a, k);
    RemoveKeepsIndex(n, regs, b, k);
    InRemoveFirst(regs, k, k);
  }

  /** A connection is registered exactly when it occurs exactly once in its list, and it occurs in no other list. */
  lemma RegisteredIffListedOnce<V(!new), K>(m: map<V, seq<K>>, regs: seq<K>, attr: map<K, V>, k: K, v: V)
    requires Indexes(m, regs, attr) && NoDuplicates(regs) && k in attr
    ensures k in regs && v == attr[k] <==> k in Get(m, v)
    ensures NoDuplicates(Get(m, v))
  {
    assert Get(m, v) == Where(regs, attr, v);
    InWhere(regs, attr, k, v);
    WhereHasNoDuplicates(regs, attr, v);
  }

  /** A key with at most one entry has at most one registered connection. */
  lemma OneListed<V(!new), K>(m: map<V, seq<K>>, regs: seq<K>, attr: map<K, V>, x: K, y: K, v: V)
    requires Indexes(m, regs, attr) && |Get(m, v)| <= 1
    requires x in regs && x in attr && attr[x] == v && y in regs && y in attr && attr[y] == v
    ensures x == y
  {
    InWhere(regs, attr, x, v);
    InWhere(regs, attr, y, v);
    assert Get(m, v) == Where(regs, attr, v);
  }

  lemma {:induction false} RemoveAt<K>(s: seq<K>, i: nat)
    requires i < |s| && forall j :: 0 <= j < i ==> s[j] != s[i]
    ensures RemoveFirst(s, s[i]) == s[..i] + s[i + 1..]
  {
    if i > 0 {
      RemoveAt(s[1..], i - 1);
      assert s[..i] + s[i + 1..] == [s[0]] + (s[1..][..i - 1] + s[1..][i..]);
    }
  }

  lemma {:induction false} RemoveAbsent<K>(s: seq<K>, k: K)
    requires k !in s
    ensures RemoveFirst(s, k) == s
  {
    if s != [] {
      RemoveAbsent(s[1..], k);
      assert [s[0]] + s[1..] == s;
    }
  }

  /** `removeConn` on the backing array: everything behind the removed entry moves one place to the front, and the
      place behind the shorter list keeps its old content. */
  method RemoveConn<K(==)>(list: array<K>, target: K) returns (len: nat)
    modifies list
    ensures len <= list.Length && list[..len] == RemoveFirst(old(list[..]), target)
    ensures forall i :: len <= i < list.Length ==> list[i] == old(list[i])
  {
    ghost var was := list[..];
    for i := 0 to list.Length
      invariant target !in list[..i] && list[..] == was
    {
      if list[i] == target {
        assert forall j :: 0 <= j < i ==> list[j] in list[..i];
        RemoveAt(was, i);
        ShiftLeft(list, i);
        return list.Length - 1;
      }
    }
    RemoveAbsent(was, target);
    len := list.Length;
  }

  /** `append(list[:i], list[i+1:]...)`. */
  method ShiftLeft<K>(list: array<K>, i: nat)
    requires i < list.Length
    modifies list
    ensures list[..list.Length - 1] == old(list[..i]) + old(list[i + 1..])
    ensures list[list.Length - 1] == old(list[list.Length - 1])
  {
    for j := i + 1 to list.Length
      invariant forall k :: 0 <= k < i ==> list[k] == old(list[k])
      invariant forall k :: i <= k < j - 1 ==> list[k] == old(list[k + 1])
      invariant forall k :: j - 1 <= k < list.Length ==> list[k] == old(list[k])
    {
      list[j - 1] := list[j];
    }
  }

  lemma {:induction false} RemoveShortens<K>(s: seq<K>, k: K)
    requires k in s
    ensures |RemoveFirst(s, k)| == |s| - 1
  {
    if s[0] != k {
      assert k in s[1..];
      RemoveShortens(s[1..], k);
    }
  }

  /** Why `forwardPacket` copies the list before using it: after a removal, a reader that kept the old length over the
      same array would miss the removed connection and see the last one twice. The copy is unaffected. */
  method AliasedSnapshot<K(==)>(list: array<K>, target: K) returns (aliased: seq<K>, copied: seq<K>)
    requires target in list[..]
    modifies list
    ensures copied == old(list[..])
    ensures aliased == RemoveFirst(old(list[..]), target) + [old(list[list.Length - 1])]
  {
    copied := list[..];
    RemoveShortens(copied, target);
    var len := RemoveConn(list, target);
    aliased := list[..];
    assert len == list.Length - 1;
    assert aliased == list[..len] + [list[len]];
  }
}
