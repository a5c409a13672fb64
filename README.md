# clash-speedtest core in Dafny

A model of the core of clash-speedtest, a tool that loads proxy definitions
from Clash/Mihomo configuration files and measures each proxy's latency,
download speed and upload speed through a speed-test server.

The model covers:

- **Loading the registry** (`LoadProxies`). The configuration paths are split
  on `,` and trimmed, and each readable document is decoded.
  - Inline proxies are parsed first, then the proxies of each provider. Each
    one is stored under a unique name: a taken name gets the suffix `-重名n`
    with the smallest free counter `n`.
  - Entries whose adapter kind is supported, and in Stash mode are Stash
    compatible, are merged into the registry of all sources, again under
    unique names.
  - The merged registry is filtered by the block keywords and the filter
    expression. The call fails when nothing is left.
- **The Stash compatibility check** (`isStashCompatible`), and the same check
  restated as a table of rules per adapter kind.
- **Testing one proxy** (`testProxy`):
  - A latency probe comes first. A failed probe or a status other than 200
    gives an empty result.
  - Fast mode, or a latency above the ceiling, stops the test after the probe.
  - Then `Concurrent` download workers run, and their successful transfers
    are aggregated into a size, a mean time and a speed. A download slower than
    the minimum stops the test.
  - Then the upload workers run in the same way.
- **`TestProxies`, `New` and `calculateLatencyStats`**, and how latency,
  jitter and speed are rendered as text.
- **The command-line side** (`main.go`): ordering the results fastest download
  first, and the keep/drop rule of `saveConfig`.
- **The web side** (`webserver.go`): the server constructor, the bearer-token
  check, the result filter, and the country flag and name tables.

Everything outside the process is a parameter. That covers reading a path
(file or HTTP) and decoding it, the proxy core's adapter parser, loading a
provider, the filter regular expression, and the network as the tester sees
it. Go maps are iterated in an unspecified order. The model lets that order
be any enumeration of the keys, returns it as a ghost value, and proves each
property for every such order.

Files:

| file | content |
|---|---|
| `wrappers.dfy` | Option and Result |
| `gotext.dfy` | Go's `strings` functions used here, truncating integer division, decimal rendering |
| `sequences.dfy` | order-preserving selection (Go's "append what passes" loops) |
| `proxies.dfy` | configuration values, adapter kinds, registry entries, decoded documents |
| `stash.dfy` | `isStashCompatible` |
| `naming.dfy` | the duplicate-name policy and its search loop |
| `registry.dfy` | assembling, merging and filtering the registry |
| `chunks.dfy` | worker results and their sums |
| `results.dfy` | `Result`, `FormatLatency`, `FormatJitter`, `formatSpeed` |
| `latency.dfy` | `calculateLatencyStats` |
| `speedtester.dfy` | `Config`, `New`, `testProxy`, `TestProxies`, `LoadProxies` |
| `export.dfy` | result ordering and `saveConfig` |
| `webserver.dfy` | server, `validateAuth`, `filterResults`, country tables |

## Model

| member | source | states |
|---|---|---|
| GoText.GoQuo | speedtester/speedtester.go:510 | Go integer division truncates toward zero. The remainder lies in [0, b) for a non-negative dividend and in (-b, 0] for a negative one |
| GoText.ToLower | speedtester/speedtester.go:287 | same length as the input; every character is lower-cased |
| GoText.ToUpper | webserver/webserver.go:278 | same length as the input; every character is upper-cased |
| GoText.ToUpperIdempotent | webserver/webserver.go:278 | upper-casing twice is upper-casing once |
| GoText.ToLowerIdempotent | speedtester/speedtester.go:277 | lower-casing twice is lower-casing once |
| GoText.TrimSpace | speedtester/speedtester.go:76 | the result neither starts nor ends with white space; it is empty exactly when the input is all white space; it is a contiguous piece of the input |
| GoText.TrimSpaceRemovesSpace | speedtester/speedtester.go:76 | what is removed is white space: the result occurs in the input at some offset, and every character before and after that occurrence is white space |
| GoText.TrimSpaceWithin | speedtester/speedtester.go:274-276 | trimming introduces no character that was not in the input |
| GoText.ContainsIffOccurs | speedtester/speedtester.go:289 | `Contains` holds exactly when the keyword occurs at some position of the name |
| GoText.Split | speedtester/speedtester.go:75 | at least one piece, and no piece contains the separator |
| GoText.JoinSplit | speedtester/speedtester.go:75 | joining the pieces with the separator gives the input back |
| GoText.SplitN2 | webserver/webserver.go:122 | one piece (the input) iff there is no separator; otherwise the text before the first separator and the rest, which rebuild the input |
| GoText.Decimal | speedtester/speedtester.go:132 | `%d` of a counter is a non-empty digit string without a leading zero |
| GoText.DecimalRoundTrip | speedtester/speedtester.go:132 | the digits read back as the counter |
| GoText.DecimalInjective | speedtester/speedtester.go:132 | different counters give different digit strings |
| GoText.FormatIntRoundTrip | speedtester/speedtester.go:439 | `%d` of any integer reads back as that integer |
| Stash.StashMatchesRules | speedtester/speedtester.go:318-403 | the type switch accepts exactly the kinds that have a rule table, and then exactly the parameter maps that every rule of the kind accepts |
| Stash.IsStashCompatible | speedtester/speedtester.go:318-403 | the type switch: each kind checks its listed parameters against its whitelist (an absent parameter passes), seven kinds always pass, Mieru, AnyTLS and every other kind never pass |
| Stash.RemovingParameterKeepsCompatible | speedtester/speedtester.go:318-403 | an absent parameter is always accepted, so removing one never makes an entry incompatible |
| Stash.StashKinds | speedtester/speedtester.go:363-401 | Mieru, AnyTLS and unlisted kinds never pass; Socks5, Http, Hysteria, Hysteria2, WireGuard, Tuic and Ssh always pass |
| Stash.ShadowsocksCipher | speedtester/speedtester.go:320-333 | a listed cipher passes and an unknown one fails, whatever the other parameters |
| Naming.DupNameInjective | speedtester/speedtester.go:132 | different counters give different duplicate names |
| Naming.DupName | speedtester/speedtester.go:132 | the name, the mark "-重名" and the counter in decimal |
| Naming.FirstFree | speedtester/speedtester.go:128-140 | the name itself when free, otherwise the first duplicate name, counting from 1, that is free |
| Naming.FirstFreeIsTheFreeName | speedtester/speedtester.go:128-140 | the chosen name is free; it is the name itself when that is free, otherwise the duplicate name with the smallest free counter; no other name meets this |
| Naming.FirstFreeRenames | speedtester/speedtester.go:128-140 | the chosen name is not taken and is the requested name or that name with a counter |
| Naming.FreeName | speedtester/speedtester.go:129-138 | the counter loop ends, and it ends on the name the policy prescribes |
| Registry.Place | speedtester/speedtester.go:128-141 | the candidates inserted one after the other, each under the name FirstFree gives it at that moment |
| Registry.PlaceAppend | speedtester/speedtester.go:120-224 | placing two batches one after the other is placing their concatenation |
| Registry.PlaceGrows | speedtester/speedtester.go:141 | no existing entry is overwritten, and every candidate adds exactly one entry |
| Registry.PlaceOrigin | speedtester/speedtester.go:141 | every new entry is some candidate's, stored under the candidate's name or that name with a counter |
| Registry.PlaceStores | speedtester/speedtester.go:141 | every candidate is stored under a new name derived from its own, and no later candidate overwrites it |
| Registry.PlaceKeeps | speedtester/speedtester.go:264 | placement keeps any property that the old entries and all candidates have |
| Registry.PlaceTwinsExample | speedtester/speedtester.go:128-141 | two proxies both named A are stored as A and A-重名1 |
| Registry.DirectCandidatesOffer | speedtester/speedtester.go:120-126 | every inline proxy the parser accepts is offered for placement under its adapter name |
| Registry.AddDirectProxies | speedtester/speedtester.go:120-142 | the inline loop stores the proxies the parser accepts, in document order, under unique names |
| Registry.ConfigsByNameLastWins | speedtester/speedtester.go:191-196 | a name is indexed iff some listed map carries it as a string, and then it is indexed to the last such map |
| Registry.IndexByName | speedtester/speedtester.go:191-196 | the indexing loop builds exactly that index |
| Registry.AddProviderProxies | speedtester/speedtester.go:199-223 | the loop places the provider's candidates in order; nothing already stored is lost; every adapter that has a listed map under its own name is stored under `[provider] name` or that label with a counter, with that map; every new entry is such an adapter |
| Registry.ProviderCandidatesOffer | speedtester/speedtester.go:199-202 | every adapter whose name the index holds is offered as `[provider] name` with the indexed map |
| Registry.ProviderCandidatesOnly | speedtester/speedtester.go:199-222 | every offered candidate is an adapter whose name the index holds, labelled and with the indexed map |
| Registry.ProviderIsMerged | speedtester/speedtester.go:191-222 | placing a provider's candidates loses nothing, keeps every adapter with a listed map and adds nothing else |
| Registry.ProviderKeepsEvery | speedtester/speedtester.go:199-216 | every adapter with a listed map is stored under its label or the label with a counter |
| Registry.ProviderAddsNothingElse | speedtester/speedtester.go:199-222 | every new entry is an adapter with a listed map, stored under its label or the label with a counter |
| Registry.AddProvider | speedtester/speedtester.go:146-223 | the reserved provider, a provider that fails to load and one without a string url add nothing; otherwise the provider's adapters are merged as AddProviderProxies states |
| Registry.AddProviders | speedtester/speedtester.go:145-224 | every provider is visited once, in some order, and the store equals placing the providers' proxies in that order; nothing stored before is lost or overwritten |
| Registry.MergeCandidates | speedtester/speedtester.go:227-248 | every proxy offered to the merged registry comes from the source under its key, has a supported kind and, in Stash mode, is compatible |
| Registry.MergeCandidatesOffer | speedtester/speedtester.go:227-248 | every admitted proxy of the source is offered under its key |
| Registry.MergeInto | speedtester/speedtester.go:227-265 | whatever the iteration order: nothing in the registry is lost or overwritten; every admitted proxy of the source is added under its key or that key with a counter; nothing else is added |
| Registry.MergeIsMergedFrom | speedtester/speedtester.go:227-265 | merging the admitted proxies in any enumeration of the source has those three properties |
| Registry.MergeAddsEvery | speedtester/speedtester.go:245-264 | every admitted proxy of the source ends up in the registry |
| Registry.MergeAddsNothingElse | speedtester/speedtester.go:229-248 | every new entry is an admitted proxy of the source |
| Registry.MergeAdmitsOnly | speedtester/speedtester.go:227-264 | merging keeps the registry free of unsupported or incompatible entries |
| Registry.AssembleAllAdmitted | speedtester/speedtester.go:75-266 | the registry of all sources holds only admitted entries |
| Registry.LoadSource | speedtester/speedtester.go:115-224 | one source's store is its inline proxies followed by its providers' proxies, under unique names; every inline proxy the parser accepts is stored under its name or that name with a counter |
| Registry.EnumerationSize | speedtester/speedtester.go:406 | a map iteration visits as many keys as the map holds |
| Registry.TrimmedPieces | speedtester/speedtester.go:75-79 | only non-empty trimmed paths are used |
| Registry.Lowered | speedtester/speedtester.go:277 | every keyword kept is the lower-cased piece |
| Registry.ParseBlockKeywords | speedtester/speedtester.go:272-280 | the keyword loop yields the trimmed, non-empty, lower-cased pieces of BlockRegex, in order, and none for an empty BlockRegex |
| Registry.BlockKeywordsWellFormed | speedtester/speedtester.go:272-280 | every keyword is non-empty, lower case and free of the pipe separator |
| Registry.TrimmedPiecesInside | speedtester/speedtester.go:274-276 | trimming the pieces keeps the separator out of them |
| Registry.FilterByName | speedtester/speedtester.go:282-306 | a name is kept iff it is not blocked and the filter matches, with its entry unchanged; the blocked list holds exactly the blocked names, each once |
| Chunks.SumAppend | speedtester/speedtester.go:523-529 | the sums over two runs of results add up |
| Chunks.SumPermutation | speedtester/speedtester.go:523-529 | the sums do not depend on the order in which the workers report |
| Chunks.NoSuccessNoTotals | speedtester/speedtester.go:532-536 | with no successful worker there are no bytes and no time |
| Chunks.MeanTimePositive | speedtester/speedtester.go:534 | the mean time of the successful workers is at least one nanosecond |
| Chunks.MeanTimeTruncates | speedtester/speedtester.go:534 | the mean is the whole part of total time over the success count: count × mean ≤ total < count × (mean + 1) |
| Chunks.MeanTimeBounds | speedtester/speedtester.go:534 | the mean time lies between the shortest and the longest successful transfer |
| Chunks.Aggregate | speedtester/speedtester.go:523-529 | the receiving loop yields the total bytes, total time and success count |
| Chunks.TotalsSnoc | speedtester/speedtester.go:524-528 | one more report adds its bytes, time and success |
| Chunks.AggregateExample | speedtester/speedtester.go:523-536 | three successes of 1000 bytes in one second each, and one failure, give 3000 bytes and a mean of one second |
| Results.Blank | speedtester/speedtester.go:468-472 | a fresh result carries the name, type and configuration; latency, jitter, packet loss and every download and upload field are zero |
| Results.FormatMillis | speedtester/speedtester.go:435-447 | the text is "N/A" exactly when the duration is zero |
| Results.FormatLatency | speedtester/speedtester.go:435-440 | "N/A" exactly when the latency is zero |
| Results.FormatJitter | speedtester/speedtester.go:442-447 | "N/A" exactly when the jitter is zero |
| Results.MillisReadBack | speedtester/speedtester.go:439 | a non-zero duration renders as an integer followed by "ms", and the integer is the duration in whole milliseconds, truncated toward zero |
| Results.SubMillisecondLatency | speedtester/speedtester.go:435-440 | half a millisecond renders as "0ms", not as "N/A" |
| Results.ScaleSpeed | speedtester/speedtester.go:458-464 | the scaled value times 1024^unit is the input; below 1024 unless in TB/s; at least 1 unless in B/s |
| Results.FormatSpeed | speedtester/speedtester.go:457-466 | the unit is the name of a unit the value is scaled to |
| Results.ScaledUnique | speedtester/speedtester.go:461-464 | only one (value, unit) pair meets the scaling conditions |
| Results.ScaledExamples | speedtester/speedtester.go:457-466 | 1536 B/s is 1.5 KB/s; 0 stays in B/s; 1024 TB/s stays in TB/s |
| LatencyStats.CalculateLatencyStats | speedtester/speedtester.go:688-702 | packet loss is failed/6 × 100; the average is the truncated mean, and 0 for no samples |
| LatencyStats.TotalBounds | speedtester/speedtester.go:698-701 | the total lies between count × smallest and count × largest |
| LatencyStats.AverageBetween | speedtester/speedtester.go:702 | the average lies between the smallest and the largest sample |
| LatencyStats.AverageOfEqual | speedtester/speedtester.go:702 | any non-empty run of equal latencies averages to that latency |
| SpeedTester.EffectiveConcurrent | speedtester/speedtester.go:46-48 | the worker count is at least one, and a positive request is kept |
| SpeedTester.EffectiveSize | speedtester/speedtester.go:49-54 | a size is never negative; a non-negative request is kept, and a negative one replaced by the default |
| SpeedTester.New | speedtester/speedtester.go:45-58 | the configuration is normalised in place, every other field is unchanged, and the tester starts with nothing blocked |
| SpeedTester.Rate | speedtester/speedtester.go:535 | speed × time equals bytes × 10^9, and the speed is non-negative |
| SpeedTester.Measure | speedtester/speedtester.go:532-536 | nothing is recorded iff no worker succeeded; otherwise the size is the total bytes, the time is the mean duration of the successes truncated to whole nanoseconds (count × time ≤ total time < count × (time + 1)) and at least 1 ns, and speed × time equals size × 10^9 |
| SpeedTester.Outcome | speedtester/speedtester.go:467-575 | the identity is carried over and jitter and packet loss are zero; a failed probe or a status other than 200 gives the blank result; an answered probe records its latency; fast mode or a latency over the ceiling stops after the probe; the download fields hold what the download workers measured exactly when the probe passed within the ceiling outside fast mode and the chunk size is positive, and are zero otherwise; the upload fields hold what the upload workers measured exactly when, in addition, the upload chunk size is positive and the download phase was skipped or reached MinDownloadSpeed, and are zero otherwise |
| SpeedTester.MeasureOrderIndependent | speedtester/speedtester.go:512-529 | the order in which workers report does not change what a phase records |
| SpeedTester.MeasureExample | speedtester/speedtester.go:532-536 | three successes of 1000 bytes in one second each record 3000 bytes at 3000 B/s |
| SpeedTester.MinUploadSpeedIgnored | speedtester/speedtester.go:545-572 | MinUploadSpeed never affects a result |
| SpeedTester.FailedDownloadStopsTest | speedtester/speedtester.go:532-541 | when every download worker fails and a minimum is set, the download size, time and speed and the upload size, time and speed are all zero |
| SpeedTester.SkippedDownloadStillUploads | speedtester/speedtester.go:509-547 | a download chunk size of zero skips the download phase and its threshold: the download fields are zero and the upload fields hold what the upload workers measured |
| SpeedTester.LatencyAtCeilingIsTested | speedtester/speedtester.go:500-502 | a latency equal to the ceiling is not too slow: the download phase runs |
| SpeedTester.RunWorkers | speedtester/speedtester.go:514-521 | one transfer per worker, worker by worker |
| SpeedTester.MergeSource | speedtester/speedtester.go:115-265 | one readable document is assembled and its admitted proxies merged, under some enumeration of its maps; nothing already in the registry is lost or overwritten |
| SpeedTester.LoadSources | speedtester/speedtester.go:75-266 | every non-empty trimmed path is read in order; each readable document is merged in turn into the registry of all sources, which holds only admitted entries |
| SpeedTester.SelectProxies | speedtester/speedtester.go:270-315 | the result keeps exactly the unblocked names the filter matches, with their entries; the call fails with "no valid proxies loaded from configs" iff none is left; the blocked list holds exactly the blocked names, each once |
| SpeedTester.OutcomesOneEach | speedtester/speedtester.go:405-409 | testing in any enumeration gives one result per proxy, each the outcome of the proxy it names |
| SpeedTester.SpeedTester.constructor | speedtester/speedtester.go:55-57 | the tester holds the configuration and has nothing blocked |
| SpeedTester.SpeedTester.TestProxy | speedtester/speedtester.go:467-575 | the step-by-step test produces the outcome of the proxy under the tester's configuration |
| SpeedTester.SpeedTester.TestProxies | speedtester/speedtester.go:405-409 | every proxy is tested exactly once and its result handed on in iteration order: as many results as proxies, each the outcome of the proxy it names, no name twice |
| SpeedTester.SpeedTester.LoadProxies | speedtester/speedtester.go:70-316 | the registry is assembled from the readable sources and holds only admitted entries; the blocked names and their count are recorded; the result is the filtered registry, or the error when it is empty |
| Export.ConfigsOf | main.go:253-271 | one exported configuration per kept result, in order |
| Export.SelectedExactly | main.go:238-272 | a result is exported exactly when it is kept, as often as it occurs, in its original order |
| Export.Kept | main.go:238-252 | the keep rule: a latency within a positive ceiling, a latency at all, and outside fast mode no speed below an active minimum |
| Export.SlowDownload | main.go:246 | a download size and a minimum are set and the download speed is below the minimum in MB/s |
| Export.SlowUpload | main.go:249 | an upload size and a minimum are set and the upload speed is below the minimum in MB/s |
| Export.ExportedAreKept | main.go:238-272 | every exported configuration belongs to a kept result |
| Export.NoOutputIffNoneKept | main.go:277-280 | nothing is written exactly when no result is kept |
| Export.SlowDownloadNotExported | main.go:65 | the tester's minimum is the flag in bytes per second, so a result stopped for a slow download is not exported |
| Export.SaveConfig | main.go:236-280 | the keep/drop loop exports exactly the configurations of the kept results, or nothing |
| Export.SortByDownloadSpeed | main.go:83-85 | the results are reordered, not changed, with the fastest download first |
| Export.Insert | main.go:83-85 | one insertion step extends the ordered prefix and only reorders |
| Export.Swapped | main.go:83-85 | a swap only reorders |
| Webserver.Server.ValidateAuth | webserver/webserver.go:116-128 | a header is accepted exactly when it is "Bearer", one space and the token |
| Webserver.BearerHeaderSplits | webserver/webserver.go:122-127 | the expected header splits at its first space into "Bearer" and the token, whatever the token contains |
| Webserver.NewServer | webserver/webserver.go:25-35 | a server exists iff the token is non-empty, and holds that token and port; otherwise the call fails with the AUTH_KEY message |
| Webserver.SplitAtFirstUnique | webserver/webserver.go:122-127 | splitting at the first separator can only be done one way |
| Webserver.NewServerRejectsEmptyToken | webserver/webserver.go:116-128 | an empty header, "Bearer " alone and the bare token are all refused |
| Webserver.FilterResults | webserver/webserver.go:216-234 | the loop keeps exactly the results that have a latency within a positive ceiling, in order |
| Webserver.ExportedAreResponsive | webserver/webserver.go:219-228 | whatever the command line exports passes the web filter, and in fast mode the two rules agree |
| Webserver.RespondersExactly | webserver/webserver.go:216-234 | a result is returned iff it is one of the results and responsive, and the order is kept |
| Webserver.TablesAgree | webserver/webserver.go:271-296 | the flag and name tables know the same codes |
| Webserver.CountryFlag | webserver/webserver.go:271-282 | the flag of the upper-cased code, or the white flag for a code not in the table |
| Webserver.CountryName | webserver/webserver.go:285-296 | the name of the upper-cased code, or 未知 for a code not in the table |
| Webserver.CodesUpperCase | webserver/webserver.go:278 | every code in the tables is upper case, so a ToUpper lookup can reach it |
| Webserver.LookupIgnoresCase | webserver/webserver.go:271-296 | both lookups give the same answer for a code and its upper-case form |
| Webserver.WhiteFlagIffUnknownName | webserver/webserver.go:271-296 | the white flag appears exactly when the name is unknown, which is exactly for codes outside the tables and for UNKNOWN |
| Webserver.UnitedKingdomAlias | webserver/webserver.go:273 | "uk" and "GB" give the British flag and name |

## Left out

- Reading a configuration path is the parameter `read` of LoadProxies. That covers the `http` prefix test, `http.Get`, `os.ReadFile` and YAML decoding; a failure at any step is `None`, and the path is then skipped.
- `adapter.ParseProxy` is the parameter `parse`.
- `provider.ParseProxyProvider`, `Initial`, the fetch of the provider url and decoding its document are the parameter `load`. The url is checked only for being a string, as the source does before fetching it.
- `provider.ReservedName` is a constant of the proxy core. It is taken as "default".
- The filter regular expression is the parameter `matches`. `regexp.MustCompile` panicking on an invalid expression is not modelled.
- convertMappedIPv6ToIPv4: not modelled, and neither is its in-place rewrite of the `server` parameter. Also not modelled: the panic when `server` is not a string.
- The network is the `Network` parameter: the probe, and one transfer per worker. `createClient`, `testDownload`, `testUpload`, the zero reader and the clock are not modelled.
- SpeedTester.Outcome: takes every successful transfer to last at least one nanosecond (the `Elapsed` type), so speeds are finite. A zero mean duration, which gives +Inf in Go, is not modelled.
- Go's `float64` values (sizes, speeds, minimums, packet loss) are exact reals. Rounding is not modelled.
- Workers run one after the other and report in worker order. Go collects them from a channel in completion order. Chunks.SumPermutation and SpeedTester.MeasureOrderIndependent show that the order does not matter.
- SpeedTester.SpeedTester.TestProxy: requires what New establishes (`Concurrent >= 1`, sizes non-negative). The source divides by `Concurrent` and would panic on zero.
- SpeedTester.SpeedTester.TestProxies: returns the results in order instead of calling a callback for each one.
- SpeedTester.SpeedTester.LoadProxies: assigns the blocked list and its count once, after filtering, instead of appending per name. The final values are the same.
- LatencyStats.CalculateLatencyStats: does not compute the jitter, because it needs a floating-point square root.
- Results.FormatSpeed: returns the scaled number and its unit instead of the `%.2f` text, because floating-point rendering is not modelled. The same goes for `FormatPacketLoss`.
- GoText.ToLower: case mapping covers ASCII letters only. The same goes for GoText.ToUpper. Go's Unicode case tables are not modelled.
- Logging, the progress bar, result printing and colours are not modelled. So are the command-line flags and `log.Fatalln`.
- Two branches of `saveConfig` are not modelled: the `renameNodes` branch (`getIPLocation`, `generateNodeName`, uuid) and the YAML marshalling and file write.
- Not modelled from the web server: `Start`, the HTTP handlers, `performSpeedTest` and `renameNodes`. Reading `AUTH_KEY` from the environment is the parameter of Webserver.NewServer.
- `testLatency` is not modelled, since it is not part of the pipeline.
