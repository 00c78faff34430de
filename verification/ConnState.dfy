/** Per-connection throughput accounting: a ring of fifty 200 ms buckets behind which the whole history of rotated
    values is kept as a ghost. Times are nanoseconds, rates are real numbers. */
module ConnState {

  const SAMPLE_INTERVAL: int := 200_000_000
  const BUCKET_COUNT: nat := 50
  const WARMUP: int := 5_000_000_000
  const WINDOW_SECONDS: real := 10.0
  const QOS_DEGRADATION_RATIO: real := 0.5
  const QOS_MIN_PEAK: real := 1000000.0
  const WEIGHT_FLOOR: real := 0.1

  function Sum(s: seq<int>): int {
    if s == [] then 0 else Sum(s[..|s| - 1]) + s[|s| - 1]
  }

  /** The last `n` values of a history, or all of them if there are fewer. */
  function Last(h: seq<int>, n: nat): seq<int> {
    if n >= |h| then h else h[|h| - n..]
  }

  lemma {:induction false} SumOfConcat(a: seq<int>, b: seq<int>)
    ensures Sum(a + b) == Sum(a) + Sum(b)
  {
    if b == [] {
      assert a + b == a;
    } else {
      assert (a + b)[..|a + b| - 1] == a + b[..|b| - 1];
      SumOfConcat(a, b[..|b| - 1]);
    }
  }

  lemma {:induction false} SumOfZeros(s: seq<int>)
    requires forall i :: 0 <= i < |s| ==> s[i] == 0
    ensures Sum(s) == 0
  {
    if s != [] { SumOfZeros(s[..|s| - 1]); }
  }

  lemma {:induction false} SumIsNotNegative(s: seq<int>)
    requires forall i :: 0 <= i < |s| ==> s[i] >= 0
    ensures Sum(s) >= 0
  {
    if s != [] { SumIsNotNegative(s[..|s| - 1]); }
  }

  /** The slot value number `j` is written to: `j % 50`, by repeated subtraction. */
  function Slot(j: nat): (k: nat)
    ensures k < BUCKET_COUNT
  {
    if j < BUCKET_COUNT then j else Slot(j - BUCKET_COUNT)
  }

  lemma {:induction false} SlotIsRemainder(j: nat)
    ensures Slot(j) == j % BUCKET_COUNT
  {
    if j >= BUCKET_COUNT { SlotIsRemainder(j - BUCKET_COUNT); }
  }

  lemma {:induction false} NextSlot(j: nat)
    ensures Slot(j + 1) == (Slot(j) + 1) % BUCKET_COUNT && Slot(j) == (Slot(j + 1) - 1 + BUCKET_COUNT) % BUCKET_COUNT
  {
    if j >= BUCKET_COUNT {
      NextSlot(j - BUCKET_COUNT);
    } else if j == BUCKET_COUNT - 1 {
      assert Slot(BUCKET_COUNT) == 0;
    }
  }

  lemma {:induction false} DistinctSlots(j: nat, n: nat)
    requires j < n < j + BUCKET_COUNT
    ensures Slot(j) != Slot(n)
  {
    if j >= BUCKET_COUNT {
      DistinctSlots(j - BUCKET_COUNT, n - BUCKET_COUNT);
    } else if n >= BUCKET_COUNT {
      assert Slot(n) == n - BUCKET_COUNT;
    }
  }

  /** The slots of the window ending at `n`, in time order. */
  lemma {:induction false} WindowSlot(n: nat, i: nat)
    requires i < BUCKET_COUNT <= n
    ensures Slot(n - BUCKET_COUNT + i) == if Slot(n) + i < BUCKET_COUNT then Slot(n) + i else Slot(n) + i - BUCKET_COUNT
  {
    if n >= 2 * BUCKET_COUNT {
      WindowSlot(n - BUCKET_COUNT, i);
    } else {
      assert Slot(n) == n - BUCKET_COUNT;
    }
  }

  /** A ring of fifty slots holds the last fifty values of a history: value number `j` is in slot `j % 50`, and slots
      not yet reached are zero. */
  ghost predicate Ring(buckets: seq<int>, h: seq<int>) {
    && |buckets| == BUCKET_COUNT
    && (forall j {:trigger h[j]} :: 0 <= j < |h| && |h| - BUCKET_COUNT <= j ==> buckets[Slot(j)] == h[j])
    && (forall i :: |h| <= i < BUCKET_COUNT ==> buckets[i] == 0)
  }

  lemma RingRotates(buckets: seq<int>, h: seq<int>, x: int)
    requires Ring(buckets, h)
    ensures Ring(buckets[Slot(|h|) := x], h + [x])
  {
    var h' := h + [x];
    var b' := buckets[Slot(|h|) := x];
    forall j {:trigger h'[j]} | 0 <= j < |h'| && |h'| - BUCKET_COUNT <= j ensures b'[Slot(j)] == h'[j] {
      if j < |h| {
        assert h[j] == h'[j];
        DistinctSlots(j, |h|);
      }
    }
  }

  /** The slot reached by stepping back `i` times from the write position. */
  function SlotBack(n: nat, i: nat): (k: nat)
    ensures k < BUCKET_COUNT
  {
    if i == 0 then Slot(n) else (SlotBack(n, i - 1) - 1 + BUCKET_COUNT) % BUCKET_COUNT
  }

  lemma {:induction false} SlotBackIs(n: nat, i: nat)
    requires i <= BUCKET_COUNT
    ensures i <= n ==> SlotBack(n, i) == Slot(n - i)
    ensures i > n ==> SlotBack(n, i) == BUCKET_COUNT + n - i
  {
    if i > 0 {
      SlotBackIs(n, i - 1);
      if i <= n { NextSlot(n - i); }
    }
  }

  lemma NextSlotBack(n: nat, i: nat)
    ensures SlotBack(n, i + 1) == (SlotBack(n, i) - 1 + BUCKET_COUNT) % BUCKET_COUNT
  {}

  /** Reading the ring backwards from the write position reads the history backwards. */
  lemma RingBackwards(buckets: seq<int>, h: seq<int>, i: nat)
    requires Ring(buckets, h) && i < BUCKET_COUNT
    ensures buckets[SlotBack(|h|, i + 1)] == if i < |h| then h[|h| - 1 - i] else 0
  {
    SlotBackIs(|h|, i + 1);
    if i < |h| {
      assert h[|h| - 1 - i] == h[|h| - 1 - i];
    }
  }

  lemma SumOfLast(h: seq<int>, i: nat)
    ensures Sum(Last(h, i + 1)) == Sum(Last(h, i)) + if i < |h| then h[|h| - 1 - i] else 0
  {
    if i < |h| {
      assert Last(h, i + 1) == [h[|h| - 1 - i]] + Last(h, i);
      SumOfConcat([h[|h| - 1 - i]], Last(h, i));
      assert Sum([h[|h| - 1 - i]]) == h[|h| - 1 - i];
    }
  }

  /** The sum over the slots in storage order is the sum over the window in time order. */
  lemma SumOfRing(buckets: seq<int>, h: seq<int>)
    requires Ring(buckets, h)
    ensures Sum(buckets) == Sum(Last(h, BUCKET_COUNT))
  {
    if |h| <= BUCKET_COUNT {
      YoungRing(buckets, h);
      SumOfConcat(h, buckets[|h|..]);
      SumOfZeros(buckets[|h|..]);
    } else {
      SumOfTurned(buckets, Slot(|h|));
      WindowIsTurnedRing(buckets, h);
    }
  }

  /** Before the first wrap-around the ring is the history followed by zeros. */
  lemma YoungRing(buckets: seq<int>, h: seq<int>)
    requires Ring(buckets, h) && |h| <= BUCKET_COUNT
    ensures buckets == h + buckets[|h|..] && forall i :: 0 <= i < |buckets[|h|..]| ==> buckets[|h|..][i] == 0
  {
    forall j | 0 <= j < |h| ensures buckets[j] == h[j] { assert Slot(j) == j; }
  }

  lemma SumOfTurned(s: seq<int>, k: nat)
    requires k <= |s|
    ensures Sum(s) == Sum(s[k..] + s[..k])
  {
    assert s == s[..k] + s[k..];
    SumOfConcat(s[..k], s[k..]);
    SumOfConcat(s[k..], s[..k]);
  }

  lemma WindowIsTurnedRing(buckets: seq<int>, h: seq<int>)
    requires Ring(buckets, h) && |h| > BUCKET_COUNT
    ensures Last(h, BUCKET_COUNT) == buckets[Slot(|h|)..] + buckets[..Slot(|h|)]
  {
    var w, turned := Last(h, BUCKET_COUNT), buckets[Slot(|h|)..] + buckets[..Slot(|h|)];
    assert |w| == |turned| == BUCKET_COUNT;
    forall i | 0 <= i < BUCKET_COUNT ensures w[i] == turned[i] {
      var j := |h| - BUCKET_COUNT + i;
      WindowSlot(|h|, i);
      assert h[j] == buckets[Slot(j)];
    }
  }

  /** Exponentially weighted latency with weight one fifth on the new sample. */
  function UpdateEWMA(current: int, sample: int): (r: int)
    ensures current <= 0 ==> r == sample
    ensures current > 0 ==> current <= r <= sample || sample <= r <= current
    ensures current > 0 ==> 5 * r <= 4 * current + sample < 5 * r + 5
  {
    if current <= 0 then sample else (4 * current + sample) / 5
  }

  function Seconds(d: int): (t: real)
    ensures 1000000000.0 * t == d as real
  {
    d as real / 1000000000.0
  }

  class State {
    var bytesInBucket: int
    const buckets: array<int>
    var bucketIdx: int
    var lastRotate: int
    var peakThroughput: real
    var currentThroughput: real
    var throttled: bool
    var weight: real
    var bytesWritten: int
    const createdAt: int
    var writeLatencyEWMA: int
    var queueDepth: int
    var queueCapacity: int
    var queueFullSince: int
    var degraded: bool
    var degradedReason: string
    var degradedAt: int

    /** Every value rotated into the ring since the connection was created. */
    ghost var rotated: seq<int>

    ghost predicate Valid()
      reads this, buckets
    {
      && buckets.Length == BUCKET_COUNT && Ring(buckets[..], rotated) && bucketIdx == Slot(|rotated|)
      && Accounted()
    }

    ghost predicate Accounted()
      reads this
    {
      && bytesWritten == Sum(rotated) + bytesInBucket
      && bytesInBucket >= 0 && (forall i :: 0 <= i < |rotated| ==> rotated[i] >= 0)
      && lastRotate >= createdAt
      && peakThroughput >= 0.0 && currentThroughput >= 0.0 && 0.0 <= weight <= 1.0
    }

    constructor (now: int)
      ensures Valid() && rotated == [] && !throttled && weight == 1.0 && createdAt == now && fresh(buckets)
    {
      buckets := new int[BUCKET_COUNT](_ => 0);
      bytesInBucket, bucketIdx, bytesWritten, rotated := 0, 0, 0, [];
      lastRotate, createdAt := now, now;
      peakThroughput, currentThroughput, weight := 0.0, 0.0, 1.0;
      throttled, degraded, degradedReason, degradedAt := false, false, "", 0;
      writeLatencyEWMA, queueDepth, queueCapacity, queueFullSince := 0, 0, 0, 0;
    }

    method RecordWrite(n: int, latency: int)
      requires Valid()
      modifies this
      ensures Valid() && rotated == old(rotated) && throttled == old(throttled)
      ensures bytesWritten == old(bytesWritten) + if n > 0 then n else 0
      ensures writeLatencyEWMA == if latency > 0 then UpdateEWMA(old(writeLatencyEWMA), latency)
              else old(writeLatencyEWMA)
    {
      if n > 0 {
        bytesInBucket := bytesInBucket + n;
        bytesWritten := bytesWritten + n;
      }
      if latency > 0 {
        writeLatencyEWMA := UpdateEWMA(writeLatencyEWMA, latency);
      }
    }

    /** The full-since mark is set by the first full snapshot of a run of full snapshots and cleared by any other. */
    method RecordQueue(depth: int, capacity: int, now: int)
      requires now > 0
      modifies this`queueDepth, this`queueCapacity, this`queueFullSince
      ensures queueDepth == depth && queueCapacity == capacity
      ensures queueFullSince == if capacity > 0 && depth >= capacity
                                then if old(queueFullSince) == 0 then now else old(queueFullSince) else 0
    {
      queueDepth, queueCapacity := depth, capacity;
      if capacity > 0 && depth >= capacity {
        if queueFullSince == 0 {
          queueFullSince := now;
        }
      } else {
        queueFullSince := 0;
      }
    }

    /** The first reason sticks. */
    method MarkDegraded(reason: string, now: int)
      modifies this`degraded, this`degradedReason, this`degradedAt
      ensures degraded
      ensures old(degraded) ==> degradedReason == old(degradedReason) && degradedAt == old(degradedAt)
      ensures !old(degraded) ==> degradedReason == reason && degradedAt == now
    {
      if degraded {
        return;
      }
      degraded, degradedReason, degradedAt := true, reason, now;
    }

    method SumRecentBuckets(n: nat) returns (sum: int)
      requires Valid()
      ensures sum == Sum(Last(rotated, if n < BUCKET_COUNT then n else BUCKET_COUNT))
    {
      sum := 0;
      var idx := bucketIdx;
      var i := 0;
      assert Last(rotated, 0) == [];
      while i < n && i < BUCKET_COUNT
        invariant i <= n && i <= BUCKET_COUNT
        invariant idx == SlotBack(|rotated|, i)
        invariant sum == Sum(Last(rotated, i))
      {
        idx, sum := ReadBack(idx, i, sum);
        i := i + 1;
      }
    }

    /** One round of the loop of `sumRecentBuckets`. */
    method ReadBack(idx: nat, ghost i: nat, sum: int) returns (idx': nat, sum': int)
      requires buckets.Length == BUCKET_COUNT && Ring(buckets[..], rotated)
      requires i < BUCKET_COUNT && idx == SlotBack(|rotated|, i) && sum == Sum(Last(rotated, i))
      ensures idx' == SlotBack(|rotated|, i + 1) && sum' == Sum(Last(rotated, i + 1))
    {
      RingBackwards(buckets[..], rotated, i);
      SumOfLast(rotated, i);
      NextSlotBack(|rotated|, i);
      idx' := (idx - 1 + BUCKET_COUNT) % BUCKET_COUNT;
      sum' := sum + buckets[idx'];
    }

    method SumAllBuckets() returns (sum: int)
      requires Valid()
      ensures sum == Sum(Last(rotated, BUCKET_COUNT))
    {
      sum := 0;
      for i := 0 to BUCKET_COUNT
        invariant sum == Sum(buckets[..i])
      {
        assert buckets[..i + 1][..i] == buckets[..i];
        sum := sum + buckets[i];
      }
      assert buckets[..BUCKET_COUNT] == buckets[..];
      SumOfRing(buckets[..], rotated);
    }

    method Rotate(now: int)
      requires Valid() && now >= lastRotate
      modifies this`bytesInBucket, this`bucketIdx, this`lastRotate, this`rotated, buckets
      ensures Valid()
      ensures rotated == old(rotated) + [old(bytesInBucket)] && bytesInBucket == 0 && lastRotate == now
    {
      RingRotates(buckets[..], rotated, bytesInBucket);
      NextSlot(|rotated|);
      ghost var before := buckets[..];
      buckets[bucketIdx] := bytesInBucket;
      assert buckets[..] == before[bucketIdx := bytesInBucket];
      bucketIdx := (bucketIdx + 1) % BUCKET_COUNT;
      rotated := rotated + [bytesInBucket];
      assert rotated[..|rotated| - 1] == old(rotated);
      bytesInBucket := 0;
      lastRotate := now;
    }

    /** One 200 ms update. An early call changes nothing. */
    method Update(now: int)
      requires Valid() && now >= lastRotate
      modifies this, buckets
      ensures Valid() && bytesWritten == old(bytesWritten)
      ensures now - old(lastRotate) < 200_000_000 ==>
        rotated == old(rotated) && weight == old(weight) && peakThroughput == old(peakThroughput)
          && throttled == old(throttled)
      ensures now - old(lastRotate) >= 200_000_000 ==>
        && rotated == old(rotated) + [old(bytesInBucket)]
        && currentThroughput == Sum(Last(rotated, 10)) as real / Shorter(Seconds(now - createdAt), 2.0)
        && peakThroughput == Larger(old(peakThroughput),
                                    Sum(Last(rotated, 50)) as real / Shorter(Seconds(now - createdAt), 10.0))
        && (peakThroughput > 0.0 && !old(throttled) ==> weight == Ratio(currentThroughput, peakThroughput))
        && (peakThroughput > 0.0 && old(throttled) ==>
              weight == Larger(Ratio(currentThroughput, peakThroughput), 0.1))
        && (old(throttled) ==> weight >= 0.1)
        && (throttled <==> old(throttled)
                           || (now - createdAt > 5_000_000_000 && peakThroughput > 1000000.0
                               && 2.0 * currentThroughput < peakThroughput))
      ensures peakThroughput >= old(peakThroughput) && (old(throttled) ==> throttled)
    {
      if now - lastRotate < SAMPLE_INTERVAL {
        return;
      }
      Rotate(now);
      Recalculate(now);
    }

    method Recalculate(now: int)
      requires Valid() && now == lastRotate > createdAt
      modifies this`currentThroughput, this`peakThroughput, this`weight, this`throttled
      ensures Valid()
      ensures currentThroughput == Sum(Last(rotated, 10)) as real / Shorter(Seconds(now - createdAt), 2.0)
      ensures peakThroughput == Larger(old(peakThroughput),
                                       Sum(Last(rotated, BUCKET_COUNT)) as real
                                       / Shorter(Seconds(now - createdAt), WINDOW_SECONDS))
      ensures weight == Larger(if peakThroughput > 0.0 then Ratio(currentThroughput, peakThroughput) else old(weight),
                               if old(throttled) then WEIGHT_FLOOR else 0.0)
      ensures throttled <==> old(throttled) || IsThrottled(now)
    {
      MeasureRates(now);
      SetWeight();
      DetectThrottling(now);
    }

    method MeasureRates(now: int)
      requires Valid() && now == lastRotate > createdAt
      modifies this`currentThroughput, this`peakThroughput
      ensures Valid()
      ensures currentThroughput == Sum(Last(rotated, 10)) as real / Shorter(Seconds(now - createdAt), 2.0)
      ensures peakThroughput == Larger(old(peakThroughput),
                                       Sum(Last(rotated, BUCKET_COUNT)) as real
                                       / Shorter(Seconds(now - createdAt), WINDOW_SECONDS))
    {
      var currentBytes := SumRecentBuckets(10);
      var totalBytes := SumAllBuckets();
      NoNegativeSums(rotated);
      SetRates(Seconds(now - createdAt), currentBytes, totalBytes);
    }

    /** Past the warm-up, a connection with a real peak that fell below half of it. */
    predicate IsThrottled(now: int)
      reads this
    {
      now - createdAt > WARMUP && peakThroughput > QOS_MIN_PEAK
        && currentThroughput < peakThroughput * QOS_DEGRADATION_RATIO
    }

    /** Current rate over the last two seconds; peak of the averages over the window. */
    method SetRates(age: real, currentBytes: int, totalBytes: int)
      requires age > 0.0 && currentBytes >= 0 && totalBytes >= 0
      modifies this`currentThroughput, this`peakThroughput
      ensures currentThroughput == currentBytes as real / Shorter(age, 2.0) && currentThroughput >= 0.0
      ensures peakThroughput == Larger(old(peakThroughput), totalBytes as real / Shorter(age, WINDOW_SECONDS))
    {
      currentThroughput := currentBytes as real / Shorter(age, 2.0);
      var windowAvg := totalBytes as real / Shorter(age, WINDOW_SECONDS);
      if windowAvg > peakThroughput {
        peakThroughput := windowAvg;
      }
    }

    method SetWeight()
      requires 0.0 <= weight <= 1.0
      modifies this`weight
      ensures 0.0 <= weight <= 1.0 && (throttled ==> weight >= WEIGHT_FLOOR)
      ensures weight == Larger(if peakThroughput > 0.0 then Ratio(currentThroughput, peakThroughput) else old(weight),
                               if throttled then WEIGHT_FLOOR else 0.0)
    {
      if peakThroughput > 0.0 {
        weight := Ratio(currentThroughput, peakThroughput);
      }
      if throttled {
        if weight < WEIGHT_FLOOR {
          weight := WEIGHT_FLOOR;
        }
      } else if weight < 0.0 {
        weight := 0.0;
      }
    }

    method DetectThrottling(now: int)
      modifies this`throttled
      ensures throttled <==> old(throttled) || IsThrottled(now)
    {
      if !throttled && now - createdAt > WARMUP {
        if peakThroughput > QOS_MIN_PEAK && currentThroughput < peakThroughput * QOS_DEGRADATION_RATIO {
          throttled := true;
        }
      }
    }
  }

  function Shorter(d: real, cap: real): (r: real)
    ensures r <= d && r <= cap && (r == d || r == cap)
  {
    if d < cap then d else cap
  }

  function Larger(x: real, y: real): (r: real)
    ensures r >= x && r >= y && (r == x || r == y)
  {
    if y > x then y else x
  }

  /** current / peak, at most one. */
  function Ratio(current: real, peak: real): (w: real)
    requires peak > 0.0
    ensures w <= 1.0 && (current >= 0.0 ==> w >= 0.0)
    ensures w * peak == if current <= peak then current else peak
  {
    var w := current / peak;
    if w > 1.0 then 1.0 else w
  }

  lemma NoNegativeSums(h: seq<int>)
    requires forall i :: 0 <= i < |h| ==> h[i] >= 0
    ensures Sum(Last(h, 10)) >= 0 && Sum(Last(h, BUCKET_COUNT)) >= 0
  {
    SumIsNotNegative(Last(h, 10));
    SumIsNotNegative(Last(h, BUCKET_COUNT));
  }
}
