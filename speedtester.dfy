/** The speed tester: its configuration and how New settles it, how the proxy
    registry is loaded from the configured sources, and how one proxy is
    tested: a probe for latency, then concurrent download and upload workers. */
module SpeedTester {
  import opened Wrappers
  import opened GoText
  import opened Proxies
  import opened Registry
  import opened Chunks
  import opened Results

  const DEFAULT_DOWNLOAD_SIZE: int := 100 * 1024 * 1024
  const DEFAULT_UPLOAD_SIZE: int := 10 * 1024 * 1024
  const HTTP_OK: int := 200
  const NANOS_PER_SECOND: real := 1000000000.0
  const NO_PROXIES: string := "no valid proxies loaded from configs"

  /** Config. The durations `timeout` and `maxLatency` are nanoseconds, the
      sizes are bytes. */
  class Config {
    var configPaths: string
    var filterRegex: string
    var blockRegex: string
    var serverURL: string
    var downloadSize: int
    var uploadSize: int
    var timeout: int
    var concurrent: int
    var maxLatency: int
    var minDownloadSpeed: real
    var minUploadSpeed: real
    var fastMode: bool
  }

  /** The worker count New settles on: at least one, and a positive request is
      kept as it is. */
  function EffectiveConcurrent(concurrent: int): (n: int)
    ensures n >= 1
    ensures concurrent >= 1 ==> n == concurrent
  {
    if concurrent <= 0 then 1 else concurrent
  }

  /** The transfer size New settles on: never negative, a non-negative request
      kept as it is, a negative one replaced by `fallback`. */
  function EffectiveSize(size: int, fallback: nat): (n: int)
    ensures n >= 0
    ensures size >= 0 ==> n == size
    ensures size < 0 ==> n == fallback
  {
    if size < 0 then fallback else size
  }

  /** New: settles the worker count and the transfer sizes of `config` in
      place and wraps it in a tester with nothing blocked yet. */
  method New(config: Config) returns (st: SpeedTester)
    modifies config
    ensures fresh(st) && st.config == config && st.Valid()
    ensures config.concurrent == EffectiveConcurrent(old(config.concurrent))
    ensures config.downloadSize == EffectiveSize(old(config.downloadSize), DEFAULT_DOWNLOAD_SIZE)
    ensures config.uploadSize == EffectiveSize(old(config.uploadSize), DEFAULT_UPLOAD_SIZE)
    ensures config.configPaths == old(config.configPaths) && config.filterRegex == old(config.filterRegex)
    ensures config.blockRegex == old(config.blockRegex) && config.serverURL == old(config.serverURL)
    ensures config.timeout == old(config.timeout) && config.maxLatency == old(config.maxLatency)
    ensures config.minDownloadSpeed == old(config.minDownloadSpeed) && config.minUploadSpeed == old(config.minUploadSpeed)
    ensures config.fastMode == old(config.fastMode)
    ensures st.blockedNodes == [] && st.blockedNodeCount == 0
  {
    if config.concurrent <= 0 {
      config.concurrent := 1;
    }
    if config.downloadSize < 0 {
      config.downloadSize := DEFAULT_DOWNLOAD_SIZE;
    }
    if config.uploadSize < 0 {
      config.uploadSize := DEFAULT_UPLOAD_SIZE;
    }
    st := new SpeedTester(config);
  }

  // ---------------------------------------------------------------------
  // Testing one proxy
  // ---------------------------------------------------------------------

  /** How the latency probe ended: no response (any client or dial error), or
      a response with its status code after `elapsed` nanoseconds. */
  datatype Probe = ProbeFailed | Responded(status: int, elapsed: nat)

  /** The network as the tester sees it, by proxy name: the probe made with a
      client whose timeout is given, and the transfer of one worker (chunk
      size, client timeout, worker number), None when the worker failed. */
  datatype Network = Network(
    probe: (string, int) -> Probe,
    download: (string, int, int, nat) -> Option<Chunk>,
    upload: (string, int, int, nat) -> Option<Chunk>)

  /** What the n workers of one phase report, worker by worker. */
  function Workers(transfer: (string, int, int, nat) -> Option<Chunk>, name: string, size: int, timeout: int,
                   n: nat): seq<Option<Chunk>> {
    seq(n, i requires 0 <= i < n => transfer(name, size, timeout, i))
  }

  /** Bytes per second over a duration in nanoseconds. */
  function Rate(bytes: nat, time: Elapsed): (speed: real)
    ensures speed >= 0.0
    ensures speed * time as real == bytes as real * NANOS_PER_SECOND
  {
    bytes as real * NANOS_PER_SECOND / time as real
  }

  /** What a transfer phase records when at least one worker succeeded. */
  datatype Phase = Phase(size: real, time: int, speed: real)

  /** The aggregate of a phase: the bytes of the successful workers, their
      mean duration, and the bytes per second over that mean; nothing when
      every worker failed. */
  function Measure(rs: seq<Option<Chunk>>): (m: Option<Phase>)
    ensures m.None? <==> SuccessCount(rs) == 0
    ensures m.Some? ==>
      && m.value.size == TotalBytes(rs) as real
      && m.value.time >= 1
      && m.value.speed >= 0.0
      && m.value.speed * m.value.time as real == m.value.size * NANOS_PER_SECOND
      && m.value.time * SuccessCount(rs) <= TotalTime(rs) < (m.value.time + 1) * SuccessCount(rs)
  {
    if SuccessCount(rs) == 0 then None
    else
      MeanTimePositive(rs);
      MeanTimeTruncates(rs);
      var t := MeanTime(rs);
      Some(Phase(TotalBytes(rs) as real, t, Rate(TotalBytes(rs), t)))
  }

  function WithDownload(r: TestResult, m: Option<Phase>): TestResult {
    match m
    case None => r
    case Some(ph) => r.(downloadSize := ph.size, downloadTime := ph.time, downloadSpeed := ph.speed)
  }

  function WithUpload(r: TestResult, m: Option<Phase>): TestResult {
    match m
    case None => r
    case Some(ph) => r.(uploadSize := ph.size, uploadTime := ph.time, uploadSpeed := ph.speed)
  }

  /** The download chunk size of each worker (Go's truncating division). */
  function DownloadChunk(c: Config): int
    reads c
    requires c.concurrent >= 1
  {
    GoQuo(c.downloadSize, c.concurrent)
  }

  function UploadChunk(c: Config): int
    reads c
    requires c.concurrent >= 1
  {
    GoQuo(c.uploadSize, c.concurrent)
  }

  /** The probe answered with status 200. */
  predicate Answered(pr: Probe) {
    pr.Responded? && pr.status == HTTP_OK
  }

  /** The probe answered in time and fast mode is off: the transfer phases
      are due. */
  predicate Proceeds(c: Config, name: string, net: Network)
    reads c
  {
    var pr := net.probe(name, c.maxLatency);
    Answered(pr) && pr.elapsed <= c.maxLatency && !c.fastMode
  }

  /** What the download workers of proxy `name` measure. */
  function DownloadPhase(c: Config, name: string, net: Network): Option<Phase>
    reads c
    requires c.concurrent >= 1
  {
    Measure(Workers(net.download, name, DownloadChunk(c), c.timeout, c.concurrent))
  }

  /** What the upload workers of proxy `name` measure. */
  function UploadPhase(c: Config, name: string, net: Network): Option<Phase>
    reads c
    requires c.concurrent >= 1
  {
    Measure(Workers(net.upload, name, UploadChunk(c), c.timeout, c.concurrent))
  }

  /** The size, time and speed fields of a phase hold what it measured, and
      are zero when it did not run or every worker failed. */
  predicate Records(size: real, time: int, speed: real, m: Option<Phase>) {
    match m
    case None => size == 0.0 && time == 0 && speed == 0.0
    case Some(ph) => size == ph.size && time == ph.time && speed == ph.speed
  }

  /** The result testProxy produces for proxy `name` under configuration `c`:
      a failed or refused probe leaves everything blank; an answered probe
      records its latency; the download phase runs when the transfers are due
      and the chunk size is positive; the upload phase runs when they are due,
      its chunk size is positive, and the download phase either did not run or
      was at least MinDownloadSpeed. */
  function Outcome(c: Config, name: string, p: CProxy, net: Network): (r: TestResult)
    reads c
    requires c.concurrent >= 1
    ensures r.proxyName == name && r.proxyType == p.proxy.kind && r.proxyConfig == p.config
    ensures r.jitter == 0 && r.packetLoss == 0.0
    ensures !Answered(net.probe(name, c.maxLatency)) ==> r == Blank(name, p)
    ensures Answered(net.probe(name, c.maxLatency)) ==> r.latency == net.probe(name, c.maxLatency).elapsed
    ensures c.fastMode || r.latency > c.maxLatency ==> r == Blank(name, p).(latency := r.latency)
    ensures var downloads := Proceeds(c, name, net) && DownloadChunk(c) > 0;
      Records(r.downloadSize, r.downloadTime, r.downloadSpeed, if downloads then DownloadPhase(c, name, net) else None)
    ensures var uploads := Proceeds(c, name, net) && UploadChunk(c) > 0
                           && (DownloadChunk(c) <= 0 || r.downloadSpeed >= c.minDownloadSpeed);
      Records(r.uploadSize, r.uploadTime, r.uploadSpeed, if uploads then UploadPhase(c, name, net) else None)
    ensures r.downloadSpeed >= 0.0 && r.uploadSpeed >= 0.0
  {
    var blank := Blank(name, p);
    match net.probe(name, c.maxLatency)
    case ProbeFailed => blank
    case Responded(status, elapsed) =>
      if status != HTTP_OK then blank
      else
        var r := blank.(latency := elapsed);
        if c.fastMode || elapsed > c.maxLatency then r
        else if DownloadChunk(c) > 0 then
          var r := WithDownload(r, Measure(Workers(net.download, name, DownloadChunk(c), c.timeout, c.concurrent)));
          if r.downloadSpeed < c.minDownloadSpeed then r
          else if UploadChunk(c) > 0 then
            WithUpload(r, Measure(Workers(net.upload, name, UploadChunk(c), c.timeout, c.concurrent)))
          else r
        else if UploadChunk(c) > 0 then
          WithUpload(r, Measure(Workers(net.upload, name, UploadChunk(c), c.timeout, c.concurrent)))
        else r
  }

  /** The workers finish in any order; what a phase records does not depend on
      the order their reports arrive in. */
  lemma MeasureOrderIndependent(rs1: seq<Option<Chunk>>, rs2: seq<Option<Chunk>>)
    requires multiset(rs1) == multiset(rs2)
    ensures Measure(rs1) == Measure(rs2)
  {
    SumPermutation(rs1, rs2, Succeeded);
    SumPermutation(rs1, rs2, BytesOf);
    SumPermutation(rs1, rs2, TimeOf);
  }

  /** Three of four workers moving 1000 bytes in one second each: 3000 bytes
      over a mean of one second, 3000 bytes per second. */
  lemma MeasureExample()
    ensures var ok := Some(Chunk(1000, 1000000000));
      Measure([ok, None, ok, ok]) == Some(Phase(3000.0, 1000000000, 3000.0))
  {
    AggregateExample();
  }

  /** MinUploadSpeed is never consulted: two configurations that differ only
      there give the same result. */
  lemma MinUploadSpeedIgnored(c1: Config, c2: Config, name: string, p: CProxy, net: Network)
    requires c1.concurrent >= 1
    requires c2.concurrent == c1.concurrent && c2.downloadSize == c1.downloadSize && c2.uploadSize == c1.uploadSize
    requires c2.timeout == c1.timeout && c2.maxLatency == c1.maxLatency && c2.fastMode == c1.fastMode
    requires c2.minDownloadSpeed == c1.minDownloadSpeed
    ensures Outcome(c1, name, p, net) == Outcome(c2, name, p, net)
  {
  }

  /** When every download worker fails and a minimum download speed is set,
      the test stops before the upload phase: no download and no upload
      field is set. */
  lemma FailedDownloadStopsTest(c: Config, name: string, p: CProxy, net: Network)
    requires c.concurrent >= 1 && c.minDownloadSpeed > 0.0 && DownloadChunk(c) > 0
    requires forall i :: 0 <= i < c.concurrent ==> net.download(name, DownloadChunk(c), c.timeout, i).None?
    ensures var r := Outcome(c, name, p, net);
      && r.downloadSize == 0.0 && r.downloadTime == 0 && r.downloadSpeed == 0.0
      && r.uploadSize == 0.0 && r.uploadTime == 0 && r.uploadSpeed == 0.0
  {
    var rs := Workers(net.download, name, DownloadChunk(c), c.timeout, c.concurrent);
    NoSuccess(rs);
  }

  /** A download chunk size of zero skips the download phase and with it the
      speed threshold: the upload phase runs whatever MinDownloadSpeed is. */
  lemma SkippedDownloadStillUploads(c: Config, name: string, p: CProxy, net: Network)
    requires c.concurrent >= 1 && DownloadChunk(c) <= 0 && UploadChunk(c) > 0
    requires Proceeds(c, name, net)
    ensures var r := Outcome(c, name, p, net);
      && r.downloadSize == 0.0 && r.downloadTime == 0 && r.downloadSpeed == 0.0
      && Records(r.uploadSize, r.uploadTime, r.uploadSpeed, UploadPhase(c, name, net))
  {
  }

  lemma {:induction false} NoSuccess(rs: seq<Option<Chunk>>)
    requires forall i :: 0 <= i < |rs| ==> rs[i].None?
    ensures SuccessCount(rs) == 0
    decreases |rs|
  {
    if rs != [] {
      NoSuccess(rs[..|rs| - 1]);
    }
  }

  /** A probe that takes exactly MaxLatency is not too slow: the ceiling is
      exclusive of the limit itself, and the download phase runs. */
  lemma LatencyAtCeilingIsTested(c: Config, name: string, p: CProxy, net: Network)
    requires c.concurrent >= 1 && !c.fastMode && DownloadChunk(c) > 0
    requires net.probe(name, c.maxLatency).Responded?
    requires net.probe(name, c.maxLatency).status == HTTP_OK
    requires net.probe(name, c.maxLatency).elapsed == c.maxLatency
    ensures var m := Measure(Workers(net.download, name, DownloadChunk(c), c.timeout, c.concurrent));
      m.Some? ==> Outcome(c, name, p, net).downloadSize == m.value.size
  {
  }

  /** The runner of one phase: one transfer per worker. */
  method RunWorkers(transfer: (string, int, int, nat) -> Option<Chunk>, name: string, size: int, timeout: int, n: nat)
    returns (rs: seq<Option<Chunk>>)
    ensures rs == Workers(transfer, name, size, timeout, n)
  {
    rs := [];
    for i := 0 to n
      invariant rs == Workers(transfer, name, size, timeout, i)
    {
      rs := rs + [transfer(name, size, timeout, i)];
    }
  }

  /** One document: its proxies are assembled and the admitted ones merged
      into `allProxies`. */
  method MergeSource(allProxies: map<string, CProxy>, raw: RawConfig, stashCompatible: bool,
                     parse: ProxyConfig -> Option<Adapter>, load: (string, ProxyConfig) -> Option<ProviderData>)
    returns (merged: map<string, CProxy>, ghost t: SourceTrace)
    ensures t.raw == raw && Visited(t, raw, parse, load)
    ensures merged == Place(allProxies, MergeCandidates(t.mergeOrder, SourceProxies(raw, t.providerOrder, parse, load), stashCompatible))
    ensures forall k :: k in allProxies ==> k in merged && merged[k] == allProxies[k]
  {
    var proxies;
    ghost var providerOrder, mergeOrder;
    proxies, providerOrder := LoadSource(raw, parse, load);
    merged, mergeOrder := MergeInto(allProxies, proxies, stashCompatible);
    t := SourceTrace(raw, providerOrder, mergeOrder);
  }

  /** The source loop of LoadProxies: the configuration paths, split on ','
      and trimmed, are read one by one, and each document that could be read
      is assembled and merged into the registry of all sources. */
  method LoadSources(configPaths: string, stashCompatible: bool, read: string -> Option<RawConfig>,
                     parse: ProxyConfig -> Option<Adapter>, load: (string, ProxyConfig) -> Option<ProviderData>)
    returns (allProxies: map<string, CProxy>, ghost traces: seq<SourceTrace>)
    ensures Visits(traces, Sources(TrimmedPieces(Split(configPaths, ',')), read), parse, load)
    ensures allProxies == AssembleAll(traces, parse, load, stashCompatible)
    ensures AllAdmitted(allProxies, stashCompatible)
  {
    allProxies := map[];
    traces := [];
    var paths := Split(configPaths, ',');
    ghost var pieces: seq<string> := [];
    ghost var raws: seq<RawConfig> := [];
    for i := 0 to |paths|
      invariant pieces == TrimmedPieces(paths[..i])
      invariant raws == Sources(pieces, read)
      invariant Visits(traces, raws, parse, load)
      invariant allProxies == AssembleAll(traces, parse, load, stashCompatible)
    {
      TrimmedPiecesPrefix(paths, i);
      var configPath := TrimSpace(paths[i]);
      if configPath == "" {
        assert pieces + [] == pieces;
        continue;
      }
      match read(configPath) {
        case None =>
          SourcesSkip(pieces, configPath, read);
        case Some(raw) =>
          SourcesAdd(pieces, configPath, read);
          var merged;
          ghost var t;
          merged, t := MergeSource(allProxies, raw, stashCompatible, parse, load);
          AssembleAllSnoc(traces, t, parse, load, stashCompatible);
          VisitsSnoc(traces, raws, t, parse, load);
          allProxies := merged;
          traces := traces + [t];
          raws := raws + [raw];
      }
      pieces := pieces + [configPath];
    }
    assert paths[..|paths|] == paths;
    AssembleAllAdmitted(traces, parse, load, stashCompatible);
  }

  /** The result of the name filter over `all`: the proxies that are not
      blocked and match the filter, unchanged, or an error when none is
      left. */
  ghost predicate Selects(r: Result<map<string, CProxy>, string>, all: map<string, CProxy>, kws: seq<string>,
                          filterRegex: string, matches: (string, string) -> bool) {
    && (r.Success? ==>
          && (forall k :: k in r.value <==> k in all && !Blocked(k, kws) && matches(filterRegex, k))
          && (forall k :: k in r.value ==> r.value[k] == all[k]))
    && (r.Failure? <==> forall k :: k in all ==> Blocked(k, kws) || !matches(filterRegex, k))
    && (r.Failure? ==> r.error == NO_PROXIES)
  }

  /** `blocked` lists the blocked names of `all`, each once. */
  ghost predicate BlockList(blocked: seq<string>, all: map<string, CProxy>, kws: seq<string>) {
    && (forall k :: k in blocked <==> k in all && Blocked(k, kws))
    && (forall i, j :: 0 <= i < j < |blocked| ==> blocked[i] != blocked[j])
  }

  /** The filtering half of LoadProxies: block keywords, then the filter
      expression (`matches` stands for the compiled regular expression). */
  method SelectProxies(all: map<string, CProxy>, blockRegex: string, filterRegex: string, matches: (string, string) -> bool)
    returns (r: Result<map<string, CProxy>, string>, blocked: seq<string>)
    ensures Selects(r, all, BlockKeywords(blockRegex), filterRegex, matches)
    ensures BlockList(blocked, all, BlockKeywords(blockRegex))
  {
    var keywords := ParseBlockKeywords(blockRegex);
    var filtered;
    filtered, blocked := FilterByName(all, keywords, k => matches(filterRegex, k));
    if |filtered| == 0 {
      r := Failure(NO_PROXIES);
    } else {
      assert filtered.Keys != {};
      r := Success(filtered);
    }
  }

  /** `results[i]` is the outcome of testing the proxy named `order[i]`. */
  ghost predicate Outcomes(c: Config, results: seq<TestResult>, order: seq<string>,
                           proxies: map<string, CProxy>, net: Network)
    reads c
    requires c.concurrent >= 1
  {
    && |results| == |order|
    && forall i :: 0 <= i < |order| ==> order[i] in proxies && results[i] == Outcome(c, order[i], proxies[order[i]], net)
  }

  lemma OutcomesSnoc(c: Config, results: seq<TestResult>, order: seq<string>,
                     proxies: map<string, CProxy>, net: Network, name: string)
    requires c.concurrent >= 1 && name in proxies
    requires Outcomes(c, results, order, proxies, net)
    ensures Outcomes(c, results + [Outcome(c, name, proxies[name], net)], order + [name], proxies, net)
  {
  }

  /** Whatever the iteration order: every result is the outcome of the proxy
      it names, and every proxy has exactly one result. */
  ghost predicate OneResultEach(c: Config, results: seq<TestResult>, proxies: map<string, CProxy>, net: Network)
    reads c
    requires c.concurrent >= 1
  {
    && |results| == |proxies|
    && (forall i :: 0 <= i < |results| ==>
          results[i].proxyName in proxies
          && results[i] == Outcome(c, results[i].proxyName, proxies[results[i].proxyName], net))
    && (forall k :: k in proxies ==> exists i :: 0 <= i < |results| && results[i].proxyName == k)
    && (forall i, j :: 0 <= i < j < |results| ==> results[i].proxyName != results[j].proxyName)
  }

  lemma OutcomesOneEach(c: Config, results: seq<TestResult>, order: seq<string>, proxies: map<string, CProxy>, net: Network)
    requires c.concurrent >= 1
    requires Enumerates(order, proxies.Keys) && Outcomes(c, results, order, proxies, net)
    ensures OneResultEach(c, results, proxies, net)
  {
    assert forall i :: 0 <= i < |results| ==> results[i].proxyName == order[i];
    EnumerationSize(order, proxies.Keys);
    forall k | k in proxies
      ensures exists i :: 0 <= i < |results| && results[i].proxyName == k
    {
      var i :| 0 <= i < |order| && order[i] == k;
      assert results[i].proxyName == k;
    }
  }

  // ---------------------------------------------------------------------
  // The tester
  // ---------------------------------------------------------------------

  class SpeedTester {
    const config: Config
    var blockedNodes: seq<string>
    var blockedNodeCount: int

    /** What New establishes about the configuration. */
    ghost predicate Valid()
      reads config
    {
      config.concurrent >= 1 && config.downloadSize >= 0 && config.uploadSize >= 0
    }

    constructor (config: Config)
      ensures this.config == config && blockedNodes == [] && blockedNodeCount == 0
    {
      this.config := config;
      blockedNodes := [];
      blockedNodeCount := 0;
    }

    /** testProxy. */
    method TestProxy(name: string, p: CProxy, net: Network) returns (r: TestResult)
      requires Valid()
      ensures r == Outcome(config, name, p, net)
    {
      r := Blank(name, p);
      var response := net.probe(name, config.maxLatency);
      if response.ProbeFailed? || response.status != HTTP_OK {
        return;
      }
      r := r.(latency := response.elapsed);
      if config.fastMode || r.latency > config.maxLatency {
        return;
      }
      var downloadChunkSize := GoQuo(config.downloadSize, config.concurrent);
      if downloadChunkSize > 0 {
        var rs := RunWorkers(net.download, name, downloadChunkSize, config.timeout, config.concurrent);
        var bytes, total, count := Aggregate(rs);
        if count > 0 {
          MeanTimePositive(rs);
          var time := total / count;
          r := r.(downloadSize := bytes as real, downloadTime := time, downloadSpeed := Rate(bytes, time));
        }
        if r.downloadSpeed < config.minDownloadSpeed {
          return;
        }
      }
      var uploadChunkSize := GoQuo(config.uploadSize, config.concurrent);
      if uploadChunkSize > 0 {
        var rs := RunWorkers(net.upload, name, uploadChunkSize, config.timeout, config.concurrent);
        var bytes, total, count := Aggregate(rs);
        if count > 0 {
          MeanTimePositive(rs);
          var time := total / count;
          r := r.(uploadSize := bytes as real, uploadTime := time, uploadSpeed := Rate(bytes, time));
        }
      }
    }

    /** TestProxies: every proxy is tested once, in the map's iteration order,
        and its result handed on in that order. */
    method TestProxies(proxies: map<string, CProxy>, net: Network)
      returns (results: seq<TestResult>, ghost order: seq<string>)
      requires Valid()
      ensures Enumerates(order, proxies.Keys)
      ensures Outcomes(config, results, order, proxies, net)
      ensures OneResultEach(config, results, proxies, net)
    {
      results := [];
      order := [];
      var remaining := proxies.Keys;
      while remaining != {}
        invariant remaining <= proxies.Keys
        invariant forall k :: k in proxies <==> k in order || k in remaining
        invariant forall k :: k in order ==> k !in remaining
        invariant forall i, j :: 0 <= i < j < |order| ==> order[i] != order[j]
        invariant Outcomes(config, results, order, proxies, net)
        decreases |remaining|
      {
        var name :| name in remaining;
        remaining := remaining - {name};
        var result := TestProxy(name, proxies[name], net);
        OutcomesSnoc(config, results, order, proxies, net, name);
        results := results + [result];
        order := order + [name];
      }
      OutcomesOneEach(config, results, order, proxies, net);
    }

    /** LoadProxies: every configured source that can be read is assembled
        and merged into one registry, which is then filtered by name; the
        blocked names are recorded on the tester. */
    method LoadProxies(stashCompatible: bool, read: string -> Option<RawConfig>, parse: ProxyConfig -> Option<Adapter>,
                       load: (string, ProxyConfig) -> Option<ProviderData>, matches: (string, string) -> bool)
      returns (r: Result<map<string, CProxy>, string>, ghost all: map<string, CProxy>, ghost traces: seq<SourceTrace>)
      modifies this
      ensures Visits(traces, Sources(TrimmedPieces(Split(config.configPaths, ',')), read), parse, load)
      ensures all == AssembleAll(traces, parse, load, stashCompatible)
      ensures AllAdmitted(all, stashCompatible)
      ensures BlockList(blockedNodes, all, BlockKeywords(config.blockRegex))
      ensures blockedNodeCount == |blockedNodes|
      ensures Selects(r, all, BlockKeywords(config.blockRegex), config.filterRegex, matches)
    {
      blockedNodes := [];
      blockedNodeCount := 0;
      var allProxies;
      allProxies, traces := LoadSources(config.configPaths, stashCompatible, read, parse, load);
      all := allProxies;
      AssembleAllAdmitted(traces, parse, load, stashCompatible);
      var blocked;
      r, blocked := SelectProxies(allProxies, config.blockRegex, config.filterRegex, matches);
      blockedNodes := blocked;
      blockedNodeCount := |blocked|;
    }
  }
}
