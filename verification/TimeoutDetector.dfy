/** Learning the remote connection time limit from the lifetimes of connections that died. Durations are in
    nanoseconds. */
module TimeoutDetector {
  import opened Wrappers

  const SECOND: int := 1_000_000_000
  const MAX_SAMPLES: nat := 5
  const CLUSTER_TOLERANCE: int := 5 * SECOND
  const MIN_SAMPLES_TO_DETECT: nat := 3
  const MIN_LIFETIME: int := 5 * SECOND

  type Duration = int

  function Min(s: seq<Duration>): (m: Duration)
    requires s != []
    ensures m in s
    ensures forall x :: x in s ==> m <= x
  {
    if |s| == 1 then s[0]
    else
      var m := Min(s[..|s| - 1]);
      assert s == s[..|s| - 1] + [s[|s| - 1]];
      if s[|s| - 1] < m then s[|s| - 1] else m
  }

  function Near(x: Duration, m: Duration): bool {
    (if x >= m then x - m else m - x) <= CLUSTER_TOLERANCE
  }

  function CountNear(s: seq<Duration>, m: Duration): (n: nat)
    ensures n <= |s|
  {
    if s == [] then 0 else CountNear(s[..|s| - 1], m) + if Near(s[|s| - 1], m) then 1 else 0
  }

  /** The last five entries of a history. */
  function Window(h: seq<Duration>): (w: seq<Duration>)
    ensures |w| <= MAX_SAMPLES && (h != [] ==> w != [])
  {
    if |h| > MAX_SAMPLES then h[|h| - MAX_SAMPLES..] else h
  }

  /** At least three samples within five seconds of the smallest one. */
  predicate Clusters(w: seq<Duration>) {
    |w| >= MIN_SAMPLES_TO_DETECT && CountNear(w, Min(w)) >= MIN_SAMPLES_TO_DETECT
  }

  predicate AllLong(h: seq<Duration>) {
    forall i :: 0 <= i < |h| ==> h[i] >= MIN_LIFETIME
  }

  /** What one history says on its own: the smallest sample of its window if that window clusters. */
  function Verdict(h: seq<Duration>): Option<Duration> {
    if Clusters(Window(h)) then Some(Min(Window(h))) else None
  }

  /** The verdicts after each of the lifetimes of a history. */
  function Verdicts(h: seq<Duration>): (v: seq<Option<Duration>>)
    ensures |v| == |h|
  {
    if h == [] then [] else Verdicts(h[..|h| - 1]) + [Verdict(h)]
  }

  /** Each verdict replaces the one before. */
  function LastSome(v: seq<Option<Duration>>): Duration {
    if v == [] then 0
    else match v[|v| - 1]
      case Some(m) => m
      case None => LastSome(v[..|v| - 1])
  }

  /** The learned limit after a history of qualifying lifetimes. */
  function Learned(h: seq<Duration>): Duration {
    LastSome(Verdicts(h))
  }

  lemma {:induction false} VerdictAt(h: seq<Duration>, k: nat)
    requires 0 < k <= |h|
    ensures Verdicts(h)[k - 1] == Verdict(h[..k])
  {
    if k < |h| {
      assert h[..|h| - 1][..k] == h[..k];
      VerdictAt(h[..|h| - 1], k);
    } else {
      assert h[..k] == h;
    }
  }

  /** The verdict after lifetime `k` is the latest one. */
  ghost predicate LatestVerdict(v: seq<Option<Duration>>, k: nat) {
    0 < k <= |v| && v[k - 1].Some? && forall j :: k <= j < |v| ==> v[j] == None
  }

  ghost predicate HasVerdict(v: seq<Option<Duration>>) {
    exists k: nat :: LatestVerdict(v, k)
  }

  lemma {:induction false} LastSomeIs(v: seq<Option<Duration>>, k: nat)
    requires LatestVerdict(v, k)
    ensures LastSome(v) == v[k - 1].value
  {
    if k < |v| {
      LastSomeIs(v[..|v| - 1], k);
    }
  }

  /** The learned limit is the smallest sample of the latest clustering window. */
  lemma LearnedIsLatestVerdict(h: seq<Duration>, k: nat)
    requires LatestVerdict(Verdicts(h), k)
    ensures Clusters(Window(h[..k])) && Learned(h) == Min(Window(h[..k]))
  {
    VerdictAt(h, k);
    LastSomeIs(Verdicts(h), k);
  }

  ghost predicate AllPositive(v: seq<Option<Duration>>) {
    forall j :: 0 <= j < |v| && v[j].Some? ==> v[j].value > 0
  }

  /** A limit is learned exactly when some verdict found one. */
  lemma {:induction false} LastSomeIff(v: seq<Option<Duration>>)
    requires AllPositive(v)
    ensures LastSome(v) >= 0
    ensures LastSome(v) > 0 <==> HasVerdict(v)
  {
    if v != [] {
      var n := |v|;
      if v[n - 1].Some? {
        assert LatestVerdict(v, n);
      } else {
        LastSomeIff(v[..n - 1]);
        var v' := v[..n - 1];
        if k: nat :| LatestVerdict(v', k) {
          assert LatestVerdict(v, k);
        }
        if k: nat :| LatestVerdict(v, k) {
          assert LatestVerdict(v', k);
        }
      }
    }
  }

  lemma {:induction false} VerdictsArePositive(h: seq<Duration>)
    requires AllLong(h)
    ensures AllPositive(Verdicts(h))
  {
    if h != [] {
      VerdictsArePositive(h[..|h| - 1]);
      VerdictIsLong(h);
    }
  }

  lemma VerdictIsLong(h: seq<Duration>)
    requires AllLong(h)
    ensures Verdict(h).Some? ==> Verdict(h).value >= MIN_LIFETIME
  {
    if Verdict(h).Some? {
      assert Min(Window(h)) in h;
    }
  }

  lemma LearnedStep(h: seq<Duration>, x: Duration)
    ensures Learned(h + [x]) == match Verdict(h + [x]) case Some(m) => m case None => Learned(h)
  {
    assert (h + [x])[..|h|] == h;
    assert Verdicts(h + [x]) == Verdicts(h) + [Verdict(h + [x])];
  }

  /** Once a limit is learned it is replaced, never forgotten. */
  lemma LearnedIsNeverForgotten(h: seq<Duration>, x: Duration)
    requires AllLong(h + [x])
    requires Learned(h) > 0
    ensures Learned(h + [x]) > 0
  {
    LearnedStep(h, x);
    VerdictIsLong(h + [x]);
  }

  lemma {:induction false} AllNearCountAll(s: seq<Duration>, m: Duration)
    requires forall x :: x in s ==> Near(x, m)
    ensures CountNear(s, m) == |s|
  {
    if s != [] {
      assert forall x :: x in s[..|s| - 1] ==> x in s;
      AllNearCountAll(s[..|s| - 1], m);
    }
  }

  /** Five consecutive lifetimes within the tolerance force the limit to the smallest of them. */
  lemma FiveSimilarForceTheLimit(h: seq<Duration>, five: seq<Duration>)
    requires |five| == MAX_SAMPLES
    requires forall x, y :: x in five && y in five ==> x - y <= CLUSTER_TOLERANCE
    ensures Learned(h + five) == Min(five)
  {
    var h' := h + five;
    assert Window(h') == five;
    AllNearCountAll(five, Min(five));
    assert h' == h'[..|h'| - 1] + [five[4]];
    LearnedStep(h'[..|h'| - 1], five[4]);
  }

  // ---- the limit, read off the lifetimes --------------------------------------------------

  /** Three of the last five lifetimes, each at most five seconds above `m`. */
  ghost predicate Trio(s: seq<Duration>, m: Duration, a: nat, b: nat, c: nat) {
    && |s| - 5 <= a < b < c < |s|
    && s[a] - m <= 5_000_000_000 && s[b] - m <= 5_000_000_000 && s[c] - m <= 5_000_000_000
  }

  /** `m` is the smallest of the last five lifetimes, and three of these are within five seconds of it. */
  ghost predicate EndsInCluster(h: seq<Duration>, m: Duration) {
    && (exists a: nat :: |h| - 5 <= a < |h| && h[a] == m)
    && (forall a: nat :: |h| - 5 <= a < |h| ==> m <= h[a])
    && exists a: nat, b: nat, c: nat :: Trio(h, m, a, b, c)
  }

  /** The first `k` lifetimes end in a cluster, and no more of them do. */
  ghost predicate LatestCluster(h: seq<Duration>, k: nat, m: Duration) {
    k <= |h| && EndsInCluster(h[..k], m) && forall j: nat, x :: k < j <= |h| ==> !EndsInCluster(h[..j], x)
  }

  /** The last entry near `m`, in front of which there is one fewer. */
  lemma {:induction false} LastNear(s: seq<Duration>, m: Duration) returns (a: nat)
    requires CountNear(s, m) >= 1
    ensures a < |s| && Near(s[a], m) && CountNear(s[..a], m) == CountNear(s, m) - 1
  {
    a := |s| - 1;
    if !Near(s[a], m) {
      var n := a;
      a := LastNear(s[..n], m);
      assert s[..n][..a] == s[..a];
    }
  }

  lemma {:induction false} CountsMore(s: seq<Duration>, m: Duration, a: nat)
    requires a < |s| && Near(s[a], m)
    ensures CountNear(s, m) >= CountNear(s[..a], m) + 1
  {
    if a < |s| - 1 {
      assert s[..|s| - 1][..a] == s[..a];
      CountsMore(s[..|s| - 1], m, a);
    }
  }

  lemma WindowAt(h: seq<Duration>, i: nat)
    requires i < |Window(h)|
    ensures |Window(h)| == (if |h| > 5 then 5 else |h|) && Window(h)[i] == h[|h| - |Window(h)| + i]
  {}

  lemma WindowHolds(h: seq<Duration>, a: nat)
    requires |h| - 5 <= a < |h|
    ensures h[a] in Window(h)
  {
    WindowAt(h, a - (|h| - |Window(h)|));
  }

  lemma WindowHoldsOnly(h: seq<Duration>, x: Duration)
    requires x in Window(h)
    ensures exists a: nat :: |h| - 5 <= a < |h| && h[a] == x
  {
    var i :| 0 <= i < |Window(h)| && Window(h)[i] == x;
    WindowAt(h, i);
  }

  lemma ClusterMin(h: seq<Duration>, m: Duration)
    requires EndsInCluster(h, m)
    ensures Window(h) != [] && Min(Window(h)) == m
  {
    var e: nat :| |h| - 5 <= e < |h| && h[e] == m;
    WindowHolds(h, e);
    forall x | x in Window(h) ensures m <= x {
      WindowHoldsOnly(h, x);
    }
  }

  lemma VerdictOfCluster(h: seq<Duration>, m: Duration)
    requires EndsInCluster(h, m)
    ensures Verdict(h) == Some(m)
  {
    ClusterMin(h, m);
    ClusterCounts(h, m);
  }

  lemma ClusterCounts(h: seq<Duration>, m: Duration)
    requires EndsInCluster(h, m)
    ensures CountNear(Window(h), m) >= 3
  {
    var a: nat, b: nat, c: nat :| Trio(h, m, a, b, c);
    TrioInWindow(h, Window(h), m, a, b, c);
  }

  lemma TrioInWindow(h: seq<Duration>, w: seq<Duration>, m: Duration, a: nat, b: nat, c: nat)
    requires |w| <= |h| && w == h[|h| - |w|..] && (|w| == 5 || w == h)
    requires Trio(h, m, a, b, c) && m <= h[a] && m <= h[b] && m <= h[c]
    ensures CountNear(w, m) >= 3
  {
    var n := |h| - |w|;
    assert w[a - n] == h[a] && w[b - n] == h[b] && w[c - n] == h[c];
    TrioCounts(w, m, a - n, b - n, c - n);
  }

  lemma TrioCounts(w: seq<Duration>, m: Duration, a: nat, b: nat, c: nat)
    requires a < b < c < |w| && m <= w[a] <= m + 5_000_000_000 && m <= w[b] <= m + 5_000_000_000
    requires m <= w[c] <= m + 5_000_000_000
    ensures CountNear(w, m) >= 3
  {
    assert w[..c][..b] == w[..b] && w[..b][..a] == w[..a];
    CountsMore(w, m, c);
    CountsMore(w[..c], m, b);
    CountsMore(w[..b], m, a);
  }

  lemma ClusterOfVerdict(h: seq<Duration>, m: Duration)
    requires Verdict(h) == Some(m)
    ensures EndsInCluster(h, m)
  {
    WindowHoldsOnly(h, m);
    forall a: nat | |h| - 5 <= a < |h| ensures m <= h[a] {
      WindowHolds(h, a);
    }
    TrioOfVerdict(h, m);
  }

  lemma TrioOfVerdict(h: seq<Duration>, m: Duration)
    requires Verdict(h) == Some(m)
    ensures exists a: nat, b: nat, c: nat :: Trio(h, m, a, b, c)
  {
    var w := Window(h);
    var n := |h| - |w|;
    var c := LastNear(w, m);
    var b := LastNear(w[..c], m);
    assert w[..c][..b] == w[..b];
    var a := LastNear(w[..b], m);
    WindowAt(h, a);
    WindowAt(h, b);
    WindowAt(h, c);
    NearIsClose(w, m, a);
    NearIsClose(w, m, b);
    NearIsClose(w, m, c);
    assert Trio(h, m, n + a, n + b, n + c);
  }

  lemma NearIsClose(w: seq<Duration>, m: Duration, a: nat)
    requires a < |w| && m == Min(w) && Near(w[a], m)
    ensures w[a] - m <= 5_000_000_000
  {
    assert w[a] in w;
  }

  /** A verdict is such a cluster. */
  lemma VerdictIff(h: seq<Duration>, m: Duration)
    ensures Verdict(h) == Some(m) <==> EndsInCluster(h, m)
  {
    if EndsInCluster(h, m) { VerdictOfCluster(h, m); }
    if Verdict(h) == Some(m) { ClusterOfVerdict(h, m); }
  }

  lemma ClusterIsLatestVerdict(h: seq<Duration>, k: nat, m: Duration)
    requires LatestCluster(h, k, m)
    ensures LatestVerdict(Verdicts(h), k) && Verdicts(h)[k - 1] == Some(m)
  {
    VerdictAtCluster(h, k, m);
    NoneAfterCluster(h, k, m, Verdicts(h));
  }

  lemma NoneAfterCluster(h: seq<Duration>, k: nat, m: Duration, v: seq<Option<Duration>>)
    requires LatestCluster(h, k, m) && v == Verdicts(h)
    ensures forall j :: k <= j < |v| ==> v[j] == None
  {
    forall j | k <= j < |v| ensures v[j] == None {
      NoneAfterLatest(h, k, m, j + 1);
    }
  }

  lemma VerdictAtCluster(h: seq<Duration>, k: nat, m: Duration)
    requires k <= |h| && EndsInCluster(h[..k], m)
    ensures 0 < k && Verdicts(h)[k - 1] == Some(m)
  {
    VerdictIff(h[..k], m);
    VerdictAt(h, k);
  }

  lemma NoneAfterLatest(h: seq<Duration>, k: nat, m: Duration, j: nat)
    requires LatestCluster(h, k, m) && k < j <= |h|
    ensures Verdicts(h)[j - 1] == None
  {
    VerdictAt(h, j);
    var v := Verdict(h[..j]);
    if v.Some? {
      VerdictIff(h[..j], v.value);
    }
  }

  lemma LatestVerdictIsCluster(h: seq<Duration>, k: nat)
    requires LatestVerdict(Verdicts(h), k)
    ensures LatestCluster(h, k, Verdicts(h)[k - 1].value)
  {
    var m := Verdicts(h)[k - 1].value;
    VerdictAt(h, k);
    VerdictIff(h[..k], m);
    forall j: nat, x | k < j <= |h| ensures !EndsInCluster(h[..j], x) {
      VerdictAt(h, j);
      VerdictIff(h[..j], x);
    }
  }

  /** The learned limit is the smallest lifetime of the latest cluster, and zero if there never was one. */
  lemma LearnedIff(h: seq<Duration>, m: Duration)
    requires AllLong(h) && m > 0
    ensures Learned(h) == m <==> exists k: nat :: LatestCluster(h, k, m)
  {
    VerdictsArePositive(h);
    LastSomeIff(Verdicts(h));
    if Learned(h) == m {
      var k: nat :| LatestVerdict(Verdicts(h), k);
      LastSomeIs(Verdicts(h), k);
      LatestVerdictIsCluster(h, k);
    }
    if k: nat :| LatestCluster(h, k, m) {
      ClusterIsLatestVerdict(h, k, m);
      LastSomeIs(Verdicts(h), k);
    }
  }

  /** The learned rotation interval: four fifths of the limit. */
  function LearnedInterval(detected: Duration): Duration {
    detected * 4 / 5
  }

  /** A primary rotated at the learned interval is younger than every lifetime of the window the limit came from. */
  lemma IntervalIsBelowTheWindow(h: seq<Duration>, k: nat, x: Duration)
    requires AllLong(h)
    requires LatestVerdict(Verdicts(h), k) && x in Window(h[..k])
    ensures 0 < LearnedInterval(Learned(h)) < x
  {
    LearnedIsLatestVerdict(h, k);
    assert Min(Window(h[..k])) in h;
  }

  /** Appending a sample and trimming from the front. */
  function Trimmed(samples: seq<Duration>, x: Duration): seq<Duration> {
    var s := samples + [x];
    if |s| > MAX_SAMPLES then s[|s| - MAX_SAMPLES..] else s
  }

  lemma TrimmedIsWindow(h: seq<Duration>, x: Duration)
    ensures Window(h + [x]) == Trimmed(Window(h), x)
  {}

  function Detect(samples: seq<Duration>, detected: Duration): Duration {
    if Clusters(samples) then Min(samples) else detected
  }

  lemma DetectIsLearned(h: seq<Duration>, x: Duration)
    ensures Learned(h + [x]) == Detect(Window(h + [x]), Learned(h))
  {
    LearnedStep(h, x);
  }

  class Detector {
    var samples: seq<Duration>
    var detected: Duration
    const configured: Duration

    /** Every reported lifetime of at least five seconds; shorter ones are network errors, not timeouts. */
    ghost var history: seq<Duration>

    ghost predicate Valid()
      reads this
    {
      AllLong(history) && (samples, detected) == (Window(history), Learned(history))
    }

    constructor (configured: Duration)
      ensures Valid() && history == [] && this.configured == configured
    {
      this.configured := configured;
      samples, detected, history := [], 0, [];
    }

    method RecordDisconnect(aliveDuration: Duration)
      requires Valid()
      modifies this
      ensures Valid()
      ensures history == old(history) + if aliveDuration < 5_000_000_000 then [] else [aliveDuration]
    {
      if aliveDuration < MIN_LIFETIME {
        return;
      }
      TrimmedIsWindow(history, aliveDuration);
      DetectIsLearned(history, aliveDuration);
      history := history + [aliveDuration];
      AppendSample(aliveDuration);
      TryDetect();
    }

    method AppendSample(x: Duration)
      modifies this`samples
      ensures samples == Trimmed(old(samples), x)
    {
      samples := samples + [x];
      if |samples| > MAX_SAMPLES {
        samples := samples[|samples| - MAX_SAMPLES..];
      }
    }

    /** Sets the limit to the smallest sample when enough samples lie near it. */
    method TryDetect()
      modifies this`detected
      ensures detected == Detect(samples, old(detected))
    {
      if |samples| < MIN_SAMPLES_TO_DETECT {
        return;
      }
      var minSample := samples[0];
      for i := 1 to |samples|
        invariant minSample == Min(samples[..i])
      {
        assert samples[..i + 1][..i] == samples[..i];
        if samples[i] < minSample {
          minSample := samples[i];
        }
      }
      assert samples[..|samples|] == samples;
      var cluster := 0;
      for i := 0 to |samples|
        invariant cluster == CountNear(samples[..i], minSample)
      {
        assert samples[..i + 1][..i] == samples[..i];
        if Near(samples[i], minSample) {
          cluster := cluster + 1;
        }
      }
      if cluster >= MIN_SAMPLES_TO_DETECT {
        detected := minSample;
      }
    }

    /** The interval and whether there is one: the configured value first, then the learned one. */
    method RotationInterval() returns (interval: Duration, ok: bool)
      requires Valid()
      ensures configured > 0 ==> ok && interval == configured
      ensures configured <= 0 ==> (ok <==> HasVerdict(Verdicts(history))) && (ok <==> Learned(history) > 0)
      ensures configured <= 0 && ok ==> interval == LearnedInterval(Learned(history))
      ensures configured <= 0 && ok ==> 5 * interval <= 4 * Learned(history) < 5 * interval + 5
      ensures configured <= 0 ==> BelowLatestWindow(history, interval)
    {
      if configured > 0 {
        return configured, true;
      }
      LearnedIsBelow(history);
      if detected > 0 {
        return LearnedInterval(detected), true;
      }
      return 0, false;
    }
  }

  /** The interval is positive and below every lifetime of the window the limit came from, if there is one. */
  ghost predicate BelowLatestWindow(h: seq<Duration>, interval: Duration) {
    forall k: nat, x :: LatestVerdict(Verdicts(h), k) && x in Window(h[..k]) ==> 0 < interval < x
  }

  lemma LearnedIsBelow(h: seq<Duration>)
    requires AllLong(h)
    ensures Learned(h) >= 0
    ensures Learned(h) > 0 <==> HasVerdict(Verdicts(h))
    ensures BelowLatestWindow(h, if Learned(h) > 0 then LearnedInterval(Learned(h)) else 0)
  {
    VerdictsArePositive(h);
    LastSomeIff(Verdicts(h));
    forall k: nat, x | LatestVerdict(Verdicts(h), k) && x in Window(h[..k])
      ensures 0 < LearnedInterval(Learned(h)) < x
    {
      IntervalIsBelowTheWindow(h, k, x);
    }
  }
}
