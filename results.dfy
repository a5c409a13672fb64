/** The result of testing one proxy and how its fields are rendered. */
module Results {
  import opened GoText
  import opened Proxies

  /** Result: durations are nanoseconds (Go's time.Duration), sizes and speeds
      are Go float64 values, here exact reals. */
  datatype TestResult = TestResult(
    proxyName: string,
    proxyType: ProxyType,
    proxyConfig: ProxyConfig,
    latency: int,
    jitter: int,
    packetLoss: real,
    downloadSize: real,
    downloadTime: int,
    downloadSpeed: real,
    uploadSize: real,
    uploadTime: int,
    uploadSpeed: real)

  /** A result that records only which proxy was tested. */
  function Blank(name: string, p: CProxy): (r: TestResult)
    ensures r.proxyName == name && r.proxyType == p.proxy.kind && r.proxyConfig == p.config
    ensures r.latency == 0 && r.jitter == 0 && r.packetLoss == 0.0
    ensures r.downloadSize == 0.0 && r.downloadTime == 0 && r.downloadSpeed == 0.0
    ensures r.uploadSize == 0.0 && r.uploadTime == 0 && r.uploadSpeed == 0.0
  {
    TestResult(name, p.proxy.kind, p.config, 0, 0, 0.0, 0.0, 0, 0.0, 0.0, 0, 0.0)
  }

  // ---------------------------------------------------------------------
  // Latency and jitter as text
  // ---------------------------------------------------------------------

  const NANOS_PER_MILLI: int := 1000000

  /** "N/A" for a zero duration, otherwise whole milliseconds (Duration.Milliseconds
      truncates toward zero) followed by "ms". */
  function FormatMillis(d: int): (s: string)
    ensures s == "N/A" <==> d == 0
  {
    if d == 0 then "N/A"
    else
      var t := FormatInt(GoQuo(d, NANOS_PER_MILLI)) + "ms";
      assert t[|t| - 1] != "N/A"[2];
      t
  }

  /** FormatLatency. */
  function FormatLatency(r: TestResult): (s: string)
    ensures s == "N/A" <==> r.latency == 0
  {
    FormatMillis(r.latency)
  }

  /** FormatJitter. */
  function FormatJitter(r: TestResult): (s: string)
    ensures s == "N/A" <==> r.jitter == 0
  {
    FormatMillis(r.jitter)
  }

  /** What a decimal rendering of a duration reads back as: the text before "ms"
      is the number of whole milliseconds, truncated toward zero. */
  lemma MillisReadBack(d: int)
    requires d != 0
    ensures var s := FormatMillis(d);
      && |s| >= 3 && s[|s| - 2..] == "ms"
      && var p := s[..|s| - 2];
         && p != [] && (AllDigits(p) || (p[0] == '-' && AllDigits(p[1..])))
         && (d > 0 ==> ParseInt(p) * NANOS_PER_MILLI <= d < (ParseInt(p) + 1) * NANOS_PER_MILLI)
         && (d < 0 ==> (ParseInt(p) - 1) * NANOS_PER_MILLI < d <= ParseInt(p) * NANOS_PER_MILLI)
  {
    var q := GoQuo(d, NANOS_PER_MILLI);
    FormatIntRoundTrip(q);
    var s := FormatMillis(d);
    assert s[..|s| - 2] == FormatInt(q);
  }

  /** Half a millisecond is shown as "0ms", not as "N/A". */
  lemma SubMillisecondLatency()
    ensures FormatMillis(500000) == "0ms"
  {
  }

  // ---------------------------------------------------------------------
  // Speeds as text
  // ---------------------------------------------------------------------

  const SPEED_UNITS: seq<string> := ["B/s", "KB/s", "MB/s", "GB/s", "TB/s"]

  function Pow1024(n: nat): (p: real)
    ensures p >= 1.0
  {
    if n == 0 then 1.0 else 1024.0 * Pow1024(n - 1)
  }

  /** `speed` in unit `unit` denotes `bytesPerSecond`, and no larger unit was
      available with speed at least one: below 1024 unless in the last unit,
      and at least 1 unless in the first. */
  predicate Scaled(bytesPerSecond: real, speed: real, unit: nat) {
    && unit < |SPEED_UNITS|
    && speed * Pow1024(unit) == bytesPerSecond
    && (unit < |SPEED_UNITS| - 1 ==> speed < 1024.0)
    && (unit > 0 ==> speed >= 1.0)
  }

  /** The unit loop of formatSpeed: divide by 1024 while the value is at least
      1024 and a larger unit remains. */
  method ScaleSpeed(bytesPerSecond: real) returns (speed: real, unit: nat)
    ensures Scaled(bytesPerSecond, speed, unit)
  {
    unit := 0;
    speed := bytesPerSecond;
    while speed >= 1024.0 && unit < |SPEED_UNITS| - 1
      invariant unit < |SPEED_UNITS|
      invariant speed * Pow1024(unit) == bytesPerSecond
      invariant unit > 0 ==> speed >= 1.0
      decreases |SPEED_UNITS| - unit
    {
      speed := speed / 1024.0;
      unit := unit + 1;
    }
  }

  /** formatSpeed, without the two-decimal rendering of the number: the scaled
      value and its unit. */
  method FormatSpeed(bytesPerSecond: real) returns (speed: real, unit: string)
    ensures exists u: nat :: Scaled(bytesPerSecond, speed, u) && unit == SPEED_UNITS[u]
  {
    var u;
    speed, u := ScaleSpeed(bytesPerSecond);
    unit := SPEED_UNITS[u];
  }

  lemma Pow1024Grows(a: nat, b: nat)
    requires a < b
    ensures Pow1024(a) * 1024.0 <= Pow1024(b)
    decreases b
  {
    if b > a + 1 {
      Pow1024Grows(a, b - 1);
    }
  }

  /** There is only one way to scale a speed, so the loop's answer is the
      answer. */
  lemma ScaledUnique(bytesPerSecond: real, s1: real, u1: nat, s2: real, u2: nat)
    requires Scaled(bytesPerSecond, s1, u1) && Scaled(bytesPerSecond, s2, u2)
    ensures s1 == s2 && u1 == u2
  {
    if u1 < u2 {
      SmallerUnitSmallerValue(s1, u1, s2, u2);
    } else if u2 < u1 {
      SmallerUnitSmallerValue(s2, u2, s1, u1);
    } else {
      var p := Pow1024(u1);
      assert (s1 - s2) * p == 0.0;
    }
  }

  /** A value below 1024 in a smaller unit is less than a value of at least one
      in a larger unit. */
  lemma SmallerUnitSmallerValue(s1: real, u1: nat, s2: real, u2: nat)
    requires u1 < u2 && s1 < 1024.0 && s2 >= 1.0
    ensures s1 * Pow1024(u1) < s2 * Pow1024(u2)
  {
    Pow1024Grows(u1, u2);
    var p1 := Pow1024(u1);
    var p2 := Pow1024(u2);
    assert (1024.0 - s1) * p1 > 0.0;
    assert s2 * p2 >= p2 by {
      assert s2 * p2 == p2 + (s2 - 1.0) * p2;
      MulNonNegative(s2 - 1.0, p2);
    }
  }

  lemma MulNonNegative(x: real, y: real)
    requires x >= 0.0 && y >= 0.0
    ensures x * y >= 0.0
  {
  }

  /** 1536 B/s is 1.5 KB/s; 0 stays 0 B/s; 1024 TB/s stays in TB/s. */
  lemma ScaledExamples()
    ensures Scaled(1536.0, 1.5, 1)
    ensures Scaled(0.0, 0.0, 0)
    ensures Scaled(1125899906842624.0, 1024.0, 4)
  {
    assert Pow1024(1) == 1024.0;
    assert Pow1024(2) == 1048576.0;
    assert Pow1024(3) == 1073741824.0;
    assert Pow1024(4) == 1099511627776.0;
  }
}
