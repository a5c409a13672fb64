/** calculateLatencyStats: packet loss over the six pings of a latency test
    and the average of the latencies that were measured. */
module LatencyStats {
  import opened GoText

  const PINGS: real := 6.0

  /** The sum of the latencies, in nanoseconds. */
  function Total(latencies: seq<int>): int {
    if latencies == [] then 0 else Total(latencies[..|latencies| - 1]) + latencies[|latencies| - 1]
  }

  /** The average Go computes: the total divided by the count, truncated
      toward zero; zero when nothing was measured. */
  function Average(latencies: seq<int>): int {
    if latencies == [] then 0 else GoQuo(Total(latencies), |latencies|)
  }

  /** calculateLatencyStats without the jitter. */
  method CalculateLatencyStats(latencies: seq<int>, failedPings: int) returns (avg: int, packetLoss: real)
    ensures packetLoss * PINGS == failedPings as real * 100.0
    ensures avg == Average(latencies)
  {
    packetLoss := failedPings as real / PINGS * 100.0;
    avg := 0;
    if |latencies| == 0 {
      return;
    }
    var total := 0;
    for i := 0 to |latencies|
      invariant total == Total(latencies[..i])
    {
      assert latencies[..i + 1][..i] == latencies[..i];
      total := total + latencies[i];
    }
    assert latencies[..|latencies|] == latencies;
    avg := GoQuo(total, |latencies|);
  }

  lemma {:induction false} TotalBounds(latencies: seq<int>, lo: int, hi: int)
    requires forall i :: 0 <= i < |latencies| ==> lo <= latencies[i] <= hi
    ensures |latencies| * lo <= Total(latencies) <= |latencies| * hi
    decreases |latencies|
  {
    if latencies != [] {
      var n := |latencies| - 1;
      TotalBounds(latencies[..n], lo, hi);
      assert Total(latencies) == Total(latencies[..n]) + latencies[n];
      assert |latencies| * lo == n * lo + lo;
      assert |latencies| * hi == n * hi + hi;
    }
  }

  /** The average lies between the smallest and the largest latency. */
  lemma AverageBetween(latencies: seq<int>, lo: int, hi: int)
    requires latencies != []
    requires forall i :: 0 <= i < |latencies| ==> lo <= latencies[i] <= hi
    ensures lo <= Average(latencies) <= hi
  {
    var n := |latencies|;
    var t := Total(latencies);
    var q := GoQuo(t, n);
    TotalBounds(latencies, lo, hi);
    if t >= 0 {
      assert q * n <= t < (q + 1) * n;
    } else {
      assert t <= q * n < t + n;
    }
    assert n * lo < n * (q + 1) by {
      assert n * lo <= t;
      if t >= 0 {
        assert t < (q + 1) * n;
      } else {
        assert t <= q * n;
      }
    }
    assert n * (q - 1) < n * hi by {
      assert t <= n * hi;
      if t >= 0 {
        assert q * n <= t;
      } else {
        assert q * n < t + n;
      }
    }
    Cancel(n, lo, q + 1);
    Cancel(n, q - 1, hi);
  }

  lemma Cancel(n: int, a: int, b: int)
    requires n > 0 && n * a < n * b
    ensures a < b
  {
  }

  /** Equal latencies average to themselves. */
  lemma AverageOfEqual(latencies: seq<int>, l: int)
    requires latencies != []
    requires forall i :: 0 <= i < |latencies| ==> latencies[i] == l
    ensures Average(latencies) == l
  {
    AverageBetween(latencies, l, l);
  }
}
