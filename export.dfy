/** The command-line side of a run: results are ordered by download speed,
    and the configurations of the results that pass the command-line limits
    are exported. */
module Export {
  import opened Proxies
  import opened Results
  import opened Sequences
  import SpeedTester

  /** The flags saveConfig consults. Latencies are nanoseconds; the speed
      minimums are in MB/s, as given on the command line. */
  datatype Flags = Flags(
    maxLatency: int,
    fastMode: bool,
    downloadSize: int,
    uploadSize: int,
    minDownloadSpeed: real,
    minUploadSpeed: real)

  const BYTES_PER_MB: real := 1024.0 * 1024.0

  /** A result is exported unless its latency exceeds a positive ceiling, it
      has no latency at all, or (outside fast mode) a speed with an active
      minimum falls below that minimum. */
  predicate Kept(f: Flags, r: TestResult) {
    && !(f.maxLatency > 0 && r.latency > f.maxLatency)
    && r.latency != 0
    && (!f.fastMode ==> !SlowDownload(f, r) && !SlowUpload(f, r))
  }

  /** The download speed is below an active minimum. */
  predicate SlowDownload(f: Flags, r: TestResult) {
    f.downloadSize > 0 && f.minDownloadSpeed > 0.0 && r.downloadSpeed < f.minDownloadSpeed * BYTES_PER_MB
  }

  /** The upload speed is below an active minimum. */
  predicate SlowUpload(f: Flags, r: TestResult) {
    f.uploadSize > 0 && f.minUploadSpeed > 0.0 && r.uploadSpeed < f.minUploadSpeed * BYTES_PER_MB
  }

  /** The results that are exported, in their order. */
  function Selected(f: Flags, results: seq<TestResult>): seq<TestResult> {
    Filter(results, r => Kept(f, r))
  }

  function ConfigsOf(rs: seq<TestResult>): (cs: seq<ProxyConfig>)
    ensures |cs| == |rs|
    ensures forall i :: 0 <= i < |rs| ==> cs[i] == rs[i].proxyConfig
  {
    seq(|rs|, i requires 0 <= i < |rs| => rs[i].proxyConfig)
  }

  /** What saveConfig writes: nothing when no result is kept, otherwise the
      configurations of the kept results. */
  datatype Saved = NoOutput | Written(proxies: seq<ProxyConfig>)

  function Export(f: Flags, results: seq<TestResult>): Saved {
    var kept := Selected(f, results);
    if kept == [] then NoOutput else Written(ConfigsOf(kept))
  }

  /** A result is selected exactly when it is one of the results and is
      kept, as often as it occurs, and the selection keeps the results'
      order. */
  lemma SelectedExactly(f: Flags, results: seq<TestResult>, r: TestResult)
    ensures multiset(Selected(f, results))[r] == if Kept(f, r) then multiset(results)[r] else 0
    ensures r in Selected(f, results) <==> r in results && Kept(f, r)
    ensures IsSubsequence(Selected(f, results), results)
  {
    FilterCount(results, x => Kept(f, x), r);
    FilterIsSubsequence(results, x => Kept(f, x));
  }

  /** Every exported configuration is that of a kept result. */
  lemma ExportedAreKept(f: Flags, results: seq<TestResult>)
    ensures Export(f, results).Written? ==>
      forall i :: 0 <= i < |Export(f, results).proxies| ==>
        exists r :: r in results && Kept(f, r) && r.proxyConfig == Export(f, results).proxies[i]
  {
    var kept := Selected(f, results);
    if kept != [] {
      var ps := ConfigsOf(kept);
      forall i | 0 <= i < |ps|
        ensures exists r :: r in results && Kept(f, r) && r.proxyConfig == ps[i]
      {
        SelectedExactly(f, results, kept[i]);
      }
    }
  }

  /** Nothing is written exactly when no result is kept. */
  lemma NoOutputIffNoneKept(f: Flags, results: seq<TestResult>)
    ensures Export(f, results) == NoOutput <==> forall i :: 0 <= i < |results| ==> !Kept(f, results[i])
  {
    if Export(f, results) == NoOutput {
      forall i | 0 <= i < |results|
        ensures !Kept(f, results[i])
      {
        SelectedExactly(f, results, results[i]);
      }
    } else {
      var r := Selected(f, results)[0];
      SelectedExactly(f, results, r);
      var i :| 0 <= i < |results| && results[i] == r;
    }
  }

  /** main gives the tester the same minimum, scaled from MB/s to bytes per
      second: a result the tester stopped after a slow download is not
      exported either. */
  lemma SlowDownloadNotExported(c: SpeedTester.Config, f: Flags, r: TestResult)
    requires c.minDownloadSpeed == f.minDownloadSpeed * BYTES_PER_MB
    requires !f.fastMode && f.downloadSize > 0 && f.minDownloadSpeed > 0.0
    requires r.downloadSpeed < c.minDownloadSpeed
    ensures !Kept(f, r)
  {
  }

  /** The keep/drop loop of saveConfig, without the renaming branch. */
  method SaveConfig(f: Flags, results: seq<TestResult>) returns (saved: Saved)
    ensures saved == Export(f, results)
  {
    var proxies: seq<ProxyConfig> := [];
    ghost var kept: seq<TestResult> := [];
    for i := 0 to |results|
      invariant kept == Selected(f, results[..i])
      invariant proxies == ConfigsOf(kept)
    {
      var result := results[i];
      assert results[..i + 1] == results[..i] + [result];
      FilterAppend(results[..i], [result], r => Kept(f, r));
      assert [result][1..] == [];
      if f.maxLatency > 0 && result.latency > f.maxLatency {
        continue;
      }
      if result.latency == 0 {
        continue;
      }
      if !f.fastMode {
        if f.downloadSize > 0 && f.minDownloadSpeed > 0.0 && result.downloadSpeed < f.minDownloadSpeed * BYTES_PER_MB {
          continue;
        }
        if f.uploadSize > 0 && f.minUploadSpeed > 0.0 && result.uploadSpeed < f.minUploadSpeed * BYTES_PER_MB {
          continue;
        }
      }
      proxies := proxies + [result.proxyConfig];
      kept := kept + [result];
    }
    assert results[..|results|] == results;
    if |proxies| == 0 {
      saved := NoOutput;
    } else {
      saved := Written(proxies);
    }
  }

  // ---------------------------------------------------------------------
  // Ordering by download speed
  // ---------------------------------------------------------------------

  /** Fastest download first. */
  ghost predicate FastestFirst(rs: seq<TestResult>) {
    forall i, j :: 0 <= i < j < |rs| ==> rs[i].downloadSpeed >= rs[j].downloadSpeed
  }

  /** The sort.Slice call of main: the results reordered, fastest download
      first (an insertion sort; sort.Slice promises no stability, and
      neither does this). */
  method SortByDownloadSpeed(a: array<TestResult>)
    modifies a
    ensures FastestFirst(a[..])
    ensures multiset(a[..]) == multiset(old(a[..]))
  {
    var i := 0;
    while i < a.Length
      invariant 0 <= i <= a.Length
      invariant FastestFirst(a[..i])
      invariant multiset(a[..]) == multiset(old(a[..]))
    {
      Insert(a, i);
      i := i + 1;
    }
    assert a[..a.Length] == a[..];
  }

  /** Moves a[i] left into the ordered prefix a[..i]. */
  method Insert(a: array<TestResult>, i: int)
    requires 0 <= i < a.Length
    requires FastestFirst(a[..i])
    modifies a
    ensures FastestFirst(a[..i + 1])
    ensures multiset(a[..]) == multiset(old(a[..]))
  {
    var j := i;
    InsertStart(a[..], i);
    while j > 0 && a[j - 1].downloadSpeed < a[j].downloadSpeed
      invariant 0 <= j <= i
      invariant Inserting(a[..], j, i)
      invariant multiset(a[..]) == multiset(old(a[..]))
    {
      ghost var before := a[..];
      a[j - 1], a[j] := a[j], a[j - 1];
      assert a[..] == Swapped(before, j - 1, j);
      InsertStep(before, j, i);
      j := j - 1;
    }
    InsertDone(a[..], j, i);
  }

  /** The element at j is moving left through a[..i + 1]: the others are in
      order, and it is faster than everything it has passed. */
  ghost predicate Inserting(s: seq<TestResult>, j: int, i: int) {
    && 0 <= j <= i < |s|
    && (forall k, l :: 0 <= k < l <= i && k != j && l != j ==> s[k].downloadSpeed >= s[l].downloadSpeed)
    && (forall l :: j < l <= i ==> s[j].downloadSpeed > s[l].downloadSpeed)
  }

  function Swapped(s: seq<TestResult>, x: int, y: int): (t: seq<TestResult>)
    requires 0 <= x < |s| && 0 <= y < |s|
    ensures multiset(t) == multiset(s)
  {
    s[x := s[y]][y := s[x]]
  }

  lemma InsertStart(s: seq<TestResult>, i: int)
    requires 0 <= i < |s| && FastestFirst(s[..i])
    ensures Inserting(s, i, i)
  {
    assert forall k :: 0 <= k < i ==> s[..i][k] == s[k];
  }

  lemma InsertStep(s: seq<TestResult>, j: int, i: int)
    requires Inserting(s, j, i) && 0 < j && s[j - 1].downloadSpeed < s[j].downloadSpeed
    ensures Inserting(Swapped(s, j - 1, j), j - 1, i)
  {
  }

  lemma InsertDone(s: seq<TestResult>, j: int, i: int)
    requires Inserting(s, j, i) && (j == 0 || s[j - 1].downloadSpeed >= s[j].downloadSpeed)
    ensures FastestFirst(s[..i + 1])
  {
    var t := s[..i + 1];
    forall k, l | 0 <= k < l < |t|
      ensures t[k].downloadSpeed >= t[l].downloadSpeed
    {
      if l == j && k < j - 1 {
        assert s[k].downloadSpeed >= s[j - 1].downloadSpeed;
      }
    }
  }
}
