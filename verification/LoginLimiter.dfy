/** The sliding-window login limiter: at most `limit` grants per key in any window of the configured length. */
module LoginLimiter {

  type Time = int

  predicate Sorted(s: seq<Time>) {
    forall i, j :: 0 <= i <= j < |s| ==> s[i] <= s[j]
  }

  /** Entries after the cutoff, in order. */
  function After(s: seq<Time>, cutoff: Time): (r: seq<Time>)
    ensures |r| <= |s|
  {
    if s == [] then []
    else After(s[..|s| - 1], cutoff) + (if s[|s| - 1] > cutoff then [s[|s| - 1]] else [])
  }

  /** `k` splits a history into entries up to the cutoff and entries after it. */
  ghost predicate Splits(s: seq<Time>, cutoff: Time, k: nat) {
    k <= |s| && (forall i :: 0 <= i < k ==> s[i] <= cutoff) && (forall i :: k <= i < |s| ==> s[i] > cutoff)
  }

  lemma SplitPoint(s: seq<Time>, cutoff: Time) returns (k: nat)
    requires Sorted(s)
    ensures Splits(s, cutoff, k)
  {
    k := 0;
    while k < |s| && s[k] <= cutoff
      invariant k <= |s| && forall i :: 0 <= i < k ==> s[i] <= cutoff
    {
      k := k + 1;
    }
  }

  lemma {:induction false} AfterIsSuffix(s: seq<Time>, cutoff: Time, k: nat)
    requires Splits(s, cutoff, k)
    ensures After(s, cutoff) == s[k..]
  {
    if s != [] {
      var n := |s| - 1;
      if k <= n {
        AfterIsSuffix(s[..n], cutoff, k);
        assert s[k..] == s[..n][k..] + [s[n]];
      } else {
        AfterIsSuffix(s[..n], cutoff, n);
      }
    }
  }

  /** Number of entries in the half-open window (t - w, t]. */
  function InWindow(s: seq<Time>, w: int, t: Time): nat {
    if s == [] then 0
    else InWindow(s[..|s| - 1], w, t) + if t - w < s[|s| - 1] <= t then 1 else 0
  }

  /** Any `limit + 1` consecutive grants span at least the window. */
  ghost predicate Spaced(grants: seq<Time>, limit: nat, w: int) {
    forall i, j :: 0 <= i && j == i + limit && j < |grants| ==> grants[j] - grants[i] >= w
  }

  lemma {:induction false} OnlyTheTailCounts(s: seq<Time>, w: int, t: Time, k: nat)
    requires k <= |s| && forall i :: 0 <= i < k ==> s[i] <= t - w
    ensures InWindow(s, w, t) <= |s| - k
  {
    if s != [] {
      OnlyTheTailCounts(s[..|s| - 1], w, t, if k < |s| then k else k - 1);
    }
  }

  /** Spaced grants never exceed the limit in any window, wherever it is placed. */
  lemma {:induction false} SpacedLimitsEveryWindow(grants: seq<Time>, limit: nat, w: int, t: Time)
    requires Sorted(grants) && Spaced(grants, limit, w)
    ensures w > 0 ==> InWindow(grants, w, t) <= limit
  {
    if |grants| > limit && w > 0 {
      var n := |grants| - 1;
      if t - w < grants[n] <= t {
        assert grants[n] - grants[n - limit] >= w;
        OnlyTheTailCounts(grants, w, t, n - limit + 1);
      } else {
        SpacedLimitsEveryWindow(grants[..n], limit, w, t);
      }
    } else {
      OnlyTheTailCounts(grants, w, t, 0);
    }
  }

  /** Grants in the window that ends now are the entries after its cutoff. */
  lemma {:induction false} CurrentWindow(grants: seq<Time>, w: int, now: Time)
    requires forall i :: 0 <= i < |grants| ==> grants[i] <= now
    ensures InWindow(grants, w, now) == |After(grants, now - w)|
  {
    if grants != [] {
      CurrentWindow(grants[..|grants| - 1], w, now);
    }
  }

  /** `kept := attempts[:0]` and the loop that appends to it: the entries after the cutoff are moved to the front of
      the same backing array while it is being read. */
  method Compact(attempts: array<Time>, cutoff: Time) returns (kept: nat)
    modifies attempts
    ensures kept <= attempts.Length
    ensures attempts[..kept] == After(old(attempts[..]), cutoff)
    ensures forall i :: kept <= i < attempts.Length ==> attempts[i] == old(attempts[i])
  {
    ghost var was := attempts[..];
    kept := 0;
    for i := 0 to attempts.Length
      invariant kept <= i
      invariant attempts[..kept] == After(was[..i], cutoff)
      invariant forall j :: kept <= j < attempts.Length ==> attempts[j] == was[j]
    {
      assert was[..i + 1][..i] == was[..i];
      if attempts[i] > cutoff {
        attempts[kept] := attempts[i];
        kept := kept + 1;
      }
    }
    assert was[..attempts.Length] == was;
  }

  /** `s` is what is stored of the grants `g` of a key at time `clock`: a suffix of them, the dropped ones having
      left the window. */
  ghost predicate TracksGrants(g: seq<Time>, s: seq<Time>, limit: nat, w: int, clock: Time) {
    && Sorted(g) && Spaced(g, limit, w)
    && (forall i :: 0 <= i < |g| ==> g[i] <= clock)
    && |s| <= |g| && s == g[|g| - |s|..]
    && (forall i :: 0 <= i < |g| - |s| ==> g[i] <= clock - w)
  }

  lemma TimePasses(g: seq<Time>, s: seq<Time>, limit: nat, w: int, clock: Time, now: Time)
    requires TracksGrants(g, s, limit, w, clock) && now >= clock
    ensures TracksGrants(g, s, limit, w, now)
  {}

  /** Compacting a stored suffix that kept everything after the cutoff compacts the whole history. */
  lemma AfterOfSuffix(g: seq<Time>, d: nat, cutoff: Time) returns (k: nat)
    requires d <= |g| && Sorted(g) && forall i :: 0 <= i < d ==> g[i] <= cutoff
    ensures d <= k <= |g| && Splits(g, cutoff, k)
    ensures After(g, cutoff) == After(g[d..], cutoff) == g[k..]
  {
    k := SplitPoint(g, cutoff);
    if k < d {
      k := d;
    }
    AfterIsSuffix(g, cutoff, k);
    SplitsOfSuffix(g, d, cutoff, k);
    AfterIsSuffix(g[d..], cutoff, k - d);
  }

  lemma SplitsOfSuffix(g: seq<Time>, d: nat, cutoff: Time, k: nat)
    requires d <= k && Splits(g, cutoff, k)
    ensures Splits(g[d..], cutoff, k - d) && g[d..][k - d..] == g[k..]
  {
    var t := g[d..];
    forall i | 0 <= i < |t| ensures t[i] == g[d + i] {}
  }

  /** Compacting what is stored yields the grants of the current window. */
  lemma CompactedIsWindow(g: seq<Time>, s: seq<Time>, limit: nat, w: int, now: Time)
    requires TracksGrants(g, s, limit, w, now)
    ensures |After(s, now - w)| == InWindow(g, w, now)
    ensures TracksGrants(g, After(s, now - w), limit, w, now)
  {
    CurrentWindow(g, w, now);
    var k := AfterOfSuffix(g, |g| - |s|, now - w);
  }

  /** A grant while fewer than `limit` lie in the window keeps the grants spaced. */
  lemma GrantKeepsTracking(g: seq<Time>, kept: seq<Time>, limit: nat, w: int, now: Time)
    requires TracksGrants(g, kept, limit, w, now) && |kept| < limit
    ensures TracksGrants(g + [now], kept + [now], limit, w, now)
  {
    var g', s' := g + [now], kept + [now];
    assert s' == g'[|g'| - |s'|..];
    forall i, j | 0 <= i && j == i + limit && j < |g'| ensures g'[j] - g'[i] >= w {
      if j == |g| {
        assert g[i] <= now - w;
      } else {
        assert g[j] - g[i] >= w;
      }
    }
  }

  /** What `Allow` stores is right, whether it grants or refuses. */
  lemma AllowTracks(g: seq<Time>, s: seq<Time>, limit: nat, w: int, clock: Time, now: Time)
    requires TracksGrants(g, s, limit, w, clock) && now >= clock
    ensures |After(s, now - w)| == InWindow(g, w, now)
    ensures TracksGrants(g, After(s, now - w), limit, w, now)
    ensures |After(s, now - w)| < limit ==> TracksGrants(g + [now], After(s, now - w) + [now], limit, w, now)
  {
    TimePasses(g, s, limit, w, clock, now);
    CompactedIsWindow(g, s, limit, w, now);
    if |After(s, now - w)| < limit {
      GrantKeepsTracking(g, After(s, now - w), limit, w, now);
    }
  }

  class Limiter {
    const limit: nat
    const window: int
    var attempts: map<string, seq<Time>>

    /** Per key, the grants since its last reset; and the latest clock reading. */
    ghost var grants: map<string, seq<Time>>
    ghost var clock: Time

    ghost function Granted(key: string): seq<Time>
      reads this
    {
      if key in grants then grants[key] else []
    }

    function Stored(key: string): seq<Time>
      reads this
    {
      if key in attempts then attempts[key] else []
    }

    ghost predicate Tracks(key: string)
      reads this
    {
      TracksGrants(Granted(key), Stored(key), limit, window, clock)
    }

    ghost predicate Valid()
      reads this
    {
      forall key :: Tracks(key)
    }

    constructor (limit: nat, window: int)
      ensures Valid() && this.limit == limit && this.window == window && grants == map[]
    {
      this.limit, this.window := limit, window;
      attempts, grants, clock := map[], map[], 0;
    }

    /** No window of the configured length, wherever it is placed, holds more than `limit` grants of a key. */
    lemma NoWindowExceedsLimit(key: string, t: Time)
      requires Valid() && window > 0
      ensures InWindow(Granted(key), window, t) <= limit
    {
      assert Tracks(key);
      SpacedLimitsEveryWindow(Granted(key), limit, window, t);
    }

    lemma AllowTracksKey(key: string, now: Time)
      requires Valid() && now >= clock
      ensures |After(Stored(key), now - window)| == InWindow(Granted(key), window, now)
      ensures var kept := After(Stored(key), now - window);
              if |kept| < limit then TracksGrants(Granted(key) + [now], kept + [now], limit, window, now)
              else TracksGrants(Granted(key), kept, limit, window, now)
    {
      assert Tracks(key);
      AllowTracks(Granted(key), Stored(key), limit, window, clock, now);
    }

    /** Runs the compaction on the backing array of a key's list. */
    method CompactStored(key: string, now: Time) returns (kept: seq<Time>)
      ensures kept == After(Stored(key), now - window)
    {
      var list := Stored(key);
      var a := new Time[|list|](i requires 0 <= i < |list| => list[i]);
      assert a[..] == list;
      var n := Compact(a, now - window);
      kept := a[..n];
    }

    /** Grants exactly when fewer than `limit` grants of this key lie in the window that ends now. */
    method Allow(key: string, now: Time) returns (ok: bool)
      requires Valid() && now >= clock
      modifies this
      ensures Valid() && clock == now
      ensures ok <==> InWindow(old(Granted(key)), window, now) < limit
      ensures Granted(key) == old(Granted(key)) + if ok then [now] else []
      ensures forall k :: k != key ==> Granted(k) == old(Granted(k)) && Stored(k) == old(Stored(k))
    {
      ghost var g := Granted(key);
      AllowTracksKey(key, now);
      var kept := CompactStored(key, now);
      ok := |kept| < limit;
      var list := if ok then kept + [now] else kept;
      ghost var g' := if ok then g + [now] else g;
      assert TracksGrants(g', list, limit, window, now);
      Store(key, list, g', now);
    }

    /** Writes a key's list back; the ghost history moves with it. */
    method Store(key: string, list: seq<Time>, ghost g: seq<Time>, now: Time)
      requires Valid() && now >= clock && TracksGrants(g, list, limit, window, now)
      modifies this
      ensures Valid() && clock == now && Granted(key) == g && Stored(key) == list
      ensures forall k :: k != key ==> Granted(k) == old(Granted(k)) && Stored(k) == old(Stored(k))
    {
      attempts := attempts[key := list];
      grants := grants[key := g];
      clock := now;
      forall k ensures Tracks(k) {
        assert old(Tracks(k));
        if k != key {
          TimePasses(Granted(k), Stored(k), limit, window, old(clock), now);
        }
      }
    }

    method Reset(key: string)
      requires Valid()
      modifies this
      ensures Valid() && clock == old(clock)
      ensures Granted(key) == []
      ensures forall k :: k != key ==> Granted(k) == old(Granted(k)) && Stored(k) == old(Stored(k))
    {
      attempts := attempts - {key};
      grants := grants - {key};
      forall k ensures Tracks(k) {
        assert old(Tracks(k));
      }
    }
  }
}
