/** Assembling the proxy registry: the proxies of one configuration source
    (inline ones, then the ones of each provider) are placed under unique
    names, admitted ones are merged into the registry of all sources, and the
    registry is finally filtered by name. */
module Registry {
  import opened Wrappers
  import opened GoText
  import opened Proxies
  import opened Naming
  import Stash

  /** A proxy waiting to be placed, with the name it asks for. */
  datatype Candidate = Candidate(name: string, entry: CProxy)

  // ---------------------------------------------------------------------
  // Placement under unique names
  // ---------------------------------------------------------------------

  /** `before` with the candidates of `batch` inserted one after the other,
      each under the name the collision policy gives it at that moment. */
  function Place(before: map<string, CProxy>, batch: seq<Candidate>): map<string, CProxy>
    decreases |batch|
  {
    if batch == [] then before
    else
      var m := Place(before, batch[..|batch| - 1]);
      var c := batch[|batch| - 1];
      m[FirstFree(m.Keys, c.name) := c.entry]
  }

  /** Placing two batches one after the other is placing their concatenation. */
  lemma {:induction false} PlaceAppend(m: map<string, CProxy>, x: seq<Candidate>, y: seq<Candidate>)
    ensures Place(m, x + y) == Place(Place(m, x), y)
    decreases |y|
  {
    if y == [] {
      assert x + y == x;
    } else {
      var xy := x + y;
      assert xy[..|xy| - 1] == x + y[..|y| - 1];
      assert xy[|xy| - 1] == y[|y| - 1];
      PlaceAppend(m, x, y[..|y| - 1]);
    }
  }

  /** Nothing already present is lost or overwritten, and every candidate adds
      exactly one entry. */
  lemma {:induction false} PlaceGrows(m: map<string, CProxy>, batch: seq<Candidate>)
    ensures forall k :: k in m ==> k in Place(m, batch) && Place(m, batch)[k] == m[k]
    ensures |Place(m, batch)| == |m| + |batch|
    decreases |batch|
  {
    if batch != [] {
      var mid := Place(m, batch[..|batch| - 1]);
      PlaceGrows(m, batch[..|batch| - 1]);
      FirstFreeRenames(mid.Keys, batch[|batch| - 1].name);
    }
  }

  /** Every new entry is a candidate's, stored under that candidate's name or
      under its name with a duplicate counter. */
  lemma {:induction false} PlaceOrigin(m: map<string, CProxy>, batch: seq<Candidate>, k: string)
    requires k in Place(m, batch) && k !in m
    ensures exists i :: 0 <= i < |batch| && Renamed(batch[i].name, k) && Place(m, batch)[k] == batch[i].entry
    decreases |batch|
  {
    var n := |batch| - 1;
    var mid := Place(m, batch[..n]);
    var key := FirstFree(mid.Keys, batch[n].name);
    if k == key {
      FirstFreeRenames(mid.Keys, batch[n].name);
      assert Renamed(batch[n].name, k) && Place(m, batch)[k] == batch[n].entry;
    } else {
      PlaceOrigin(m, batch[..n], k);
      var i :| 0 <= i < n && Renamed(batch[..n][i].name, k) && mid[k] == batch[..n][i].entry;
      assert batch[..n][i] == batch[i];
    }
  }

  /** Every candidate is stored, under a new name derived from its own, and
      stays there. */
  lemma {:induction false} PlaceStores(m: map<string, CProxy>, batch: seq<Candidate>, i: int)
    requires 0 <= i < |batch|
    ensures exists k :: k in Place(m, batch) && k !in m && Renamed(batch[i].name, k) && Place(m, batch)[k] == batch[i].entry
    decreases |batch|
  {
    var n := |batch| - 1;
    var mid := Place(m, batch[..n]);
    var key := FirstFree(mid.Keys, batch[n].name);
    PlaceGrows(m, batch[..n]);
    FirstFreeRenames(mid.Keys, batch[n].name);
    if i == n {
      assert key in Place(m, batch) && key !in m && Renamed(batch[i].name, key) && Place(m, batch)[key] == batch[i].entry;
    } else {
      PlaceStores(m, batch[..n], i);
      assert batch[..n][i] == batch[i];
      var k :| k in mid && k !in m && Renamed(batch[i].name, k) && mid[k] == batch[i].entry;
      assert k != key;
      assert k in Place(m, batch) && Place(m, batch)[k] == batch[i].entry;
    }
  }

  /** Placing one more candidate. */
  lemma PlaceOneMore(m: map<string, CProxy>, x: seq<Candidate>, c: Candidate)
    ensures Place(m, x + [c]) == Place(m, x)[FirstFree(Place(m, x).Keys, c.name) := c.entry]
  {
    assert (x + [c])[..|x|] == x;
  }

  lemma PlaceNothingMore(m: map<string, CProxy>, x: seq<Candidate>)
    ensures Place(m, x + []) == Place(m, x)
  {
    assert x + [] == x;
  }

  /** Every entry satisfies `ok` when those present before and all candidates do. */
  lemma PlaceKeeps(m: map<string, CProxy>, batch: seq<Candidate>, ok: CProxy -> bool)
    requires forall k :: k in m ==> ok(m[k])
    requires forall i :: 0 <= i < |batch| ==> ok(batch[i].entry)
    ensures forall k :: k in Place(m, batch) ==> ok(Place(m, batch)[k])
  {
    forall k | k in Place(m, batch)
      ensures ok(Place(m, batch)[k])
    {
      PlaceGrows(m, batch);
      if k !in m {
        PlaceOrigin(m, batch, k);
      }
    }
  }

  /** Two proxies that both ask for "A" are stored as "A" and "A-重名1". */
  lemma PlaceTwinsExample(first: CProxy, second: CProxy)
    ensures Place(map[], [Candidate("A", first), Candidate("A", second)]) == map["A" := first, "A-重名1" := second]
  {
    var batch := [Candidate("A", first), Candidate("A", second)];
    assert batch[..1] == [Candidate("A", first)];
    assert batch[..1][..0] == [];
    assert Place(map[], batch[..1]) == map["A" := first];
    assert DupName("A", 1) == "A-重名1";
  }

  // ---------------------------------------------------------------------
  // Inline proxies of one source
  // ---------------------------------------------------------------------

  /** The inline proxies the adapter parser accepts, in document order, each
      asking for the adapter's name. */
  function DirectCandidates(raws: seq<ProxyConfig>, parse: ProxyConfig -> Option<Adapter>): (cs: seq<Candidate>)
    ensures |cs| <= |raws|
  {
    if raws == [] then []
    else
      var config := raws[|raws| - 1];
      DirectCandidates(raws[..|raws| - 1], parse)
      + match parse(config)
        case Some(a) => [Candidate(a.name, CProxy(a, config))]
        case None => []
  }

  /** Every inline proxy the parser accepts is a candidate. */
  lemma {:induction false} DirectCandidatesOffer(raws: seq<ProxyConfig>, parse: ProxyConfig -> Option<Adapter>, i: int)
    requires 0 <= i < |raws| && parse(raws[i]).Some?
    ensures Candidate(parse(raws[i]).value.name, CProxy(parse(raws[i]).value, raws[i])) in DirectCandidates(raws, parse)
    decreases |raws|
  {
    var n := |raws| - 1;
    var a := parse(raws[i]).value;
    if i == n {
      assert DirectCandidates(raws, parse) == DirectCandidates(raws[..n], parse) + [Candidate(a.name, CProxy(a, raws[i]))];
    } else {
      assert raws[..n][i] == raws[i];
      DirectCandidatesOffer(raws[..n], parse, i);
    }
  }

  /** The first loop over a source's proxies: parse each, skip the failures,
      and store the rest under unique names. */
  method AddDirectProxies(raws: seq<ProxyConfig>, parse: ProxyConfig -> Option<Adapter>)
    returns (proxies: map<string, CProxy>)
    ensures proxies == Place(map[], DirectCandidates(raws, parse))
  {
    proxies := map[];
    for i := 0 to |raws|
      invariant proxies == Place(map[], DirectCandidates(raws[..i], parse))
    {
      assert raws[..i + 1][..i] == raws[..i];
      ghost var sofar := DirectCandidates(raws[..i], parse);
      match parse(raws[i]) {
        case Some(a) =>
          var c := Candidate(a.name, CProxy(a, raws[i]));
          var key := FreeName(proxies.Keys, a.name);
          proxies := proxies[key := c.entry];
          PlaceOneMore(map[], sofar, c);
        case None =>
          PlaceNothingMore(map[], sofar);
      }
    }
    assert raws[..|raws|] == raws;
  }

  // ---------------------------------------------------------------------
  // Provider proxies
  // ---------------------------------------------------------------------

  /** provider.ReservedName: the provider name the proxy core keeps for itself. */
  const RESERVED_PROVIDER_NAME: string := "default"

  /** The provider document's parameter maps indexed by their string `name`;
      maps without one are ignored and a later map wins over an earlier one. */
  function ConfigsByName(listed: seq<ProxyConfig>): map<string, ProxyConfig> {
    if listed == [] then map[]
    else
      var config := listed[|listed| - 1];
      var index := ConfigsByName(listed[..|listed| - 1]);
      match NameOf(config)
      case Some(n) => index[n := config]
      case None => index
  }

  /** A name is indexed iff some listed map carries it, and it is indexed to the
      last such map. */
  lemma {:induction false} ConfigsByNameLastWins(listed: seq<ProxyConfig>, n: string)
    ensures n in ConfigsByName(listed) <==> exists i :: 0 <= i < |listed| && NameOf(listed[i]) == Some(n)
    ensures n in ConfigsByName(listed) ==>
      exists i :: 0 <= i < |listed| && NameOf(listed[i]) == Some(n) && ConfigsByName(listed)[n] == listed[i]
        && forall j :: i < j < |listed| ==> NameOf(listed[j]) != Some(n)
    decreases |listed|
  {
    if listed != [] {
      var last := |listed| - 1;
      var prefix := listed[..last];
      ConfigsByNameLastWins(prefix, n);
      if NameOf(listed[last]) == Some(n) {
        assert ConfigsByName(listed)[n] == listed[last];
      } else {
        assert n in ConfigsByName(listed) <==> n in ConfigsByName(prefix);
        assert n in ConfigsByName(prefix) ==> ConfigsByName(listed)[n] == ConfigsByName(prefix)[n];
        if n in ConfigsByName(listed) {
          var i :| 0 <= i < |prefix| && NameOf(prefix[i]) == Some(n) && ConfigsByName(prefix)[n] == prefix[i]
            && forall j :: i < j < |prefix| ==> NameOf(prefix[j]) != Some(n);
          assert listed[i] == prefix[i];
          forall j | i < j < |listed|
            ensures NameOf(listed[j]) != Some(n)
          {
            if j < last {
              assert listed[j] == prefix[j];
            }
          }
        } else {
          forall i | 0 <= i < |listed|
            ensures NameOf(listed[i]) != Some(n)
          {
            if i < last {
              assert listed[i] == prefix[i];
            }
          }
        }
      }
    }
  }

  method IndexByName(listed: seq<ProxyConfig>) returns (index: map<string, ProxyConfig>)
    ensures index == ConfigsByName(listed)
  {
    index := map[];
    for i := 0 to |listed|
      invariant index == ConfigsByName(listed[..i])
    {
      assert listed[..i + 1][..i] == listed[..i];
      var config := listed[i];
      if "name" in config && config["name"].Str? {
        index := index[config["name"].s := config];
      }
    }
    assert listed[..|listed|] == listed;
  }

  /** fmt "[%s] %s" of the provider name and the proxy name. */
  function ProviderLabel(provider: string, name: string): string {
    "[" + provider + "] " + name
  }

  /** The candidate an adapter of `provider` becomes: its labelled name and
      the parameter map listed under its own name. */
  function Offered(provider: string, a: Adapter, index: map<string, ProxyConfig>): Candidate
    requires a.name in index
  {
    Candidate(ProviderLabel(provider, a.name), CProxy(a, index[a.name]))
  }

  /** The adapters of a provider that have a parameter map under their own
      name, each asking for its labelled name, in the provider's order. */
  function ProviderCandidates(provider: string, adapters: seq<Adapter>, index: map<string, ProxyConfig>): (cs: seq<Candidate>)
    ensures |cs| <= |adapters|
  {
    if adapters == [] then []
    else
      var a := adapters[|adapters| - 1];
      ProviderCandidates(provider, adapters[..|adapters| - 1], index)
      + if a.name in index then [Offered(provider, a, index)] else []
  }

  /** Every candidate comes from an adapter with a listed parameter map. */
  lemma {:induction false} ProviderCandidatesOnly(provider: string, adapters: seq<Adapter>, index: map<string, ProxyConfig>, j: int)
    requires 0 <= j < |ProviderCandidates(provider, adapters, index)|
    ensures exists i :: (0 <= i < |adapters| && adapters[i].name in index
                         && ProviderCandidates(provider, adapters, index)[j] == Offered(provider, adapters[i], index))
    decreases |adapters|
  {
    var n := |adapters| - 1;
    var front := ProviderCandidates(provider, adapters[..n], index);
    if j < |front| {
      ProviderCandidatesOnly(provider, adapters[..n], index, j);
      var i :| 0 <= i < n && adapters[..n][i].name in index && front[j] == Offered(provider, adapters[..n][i], index);
      assert adapters[..n][i] == adapters[i];
    } else {
      assert ProviderCandidates(provider, adapters, index)[j] == Offered(provider, adapters[n], index);
    }
  }

  /** Every adapter with a listed parameter map is a candidate. */
  lemma {:induction false} ProviderCandidatesOffer(provider: string, adapters: seq<Adapter>, index: map<string, ProxyConfig>, i: int)
    requires 0 <= i < |adapters| && adapters[i].name in index
    ensures Offered(provider, adapters[i], index) in ProviderCandidates(provider, adapters, index)
    decreases |adapters|
  {
    var n := |adapters| - 1;
    if i < n {
      assert adapters[..n][i] == adapters[i];
      ProviderCandidatesOffer(provider, adapters[..n], index, i);
    }
  }

  /** The adapter `a` is stored under its labelled name, or that label with a
      duplicate counter, with the parameter map listed under its name. */
  ghost predicate ProviderKept(out: map<string, CProxy>, provider: string, a: Adapter, index: map<string, ProxyConfig>) {
    a.name in index && exists k :: k in out && Renamed(ProviderLabel(provider, a.name), k) && out[k] == CProxy(a, index[a.name])
  }

  /** `out` is `proxies` with the adapters of one provider added: nothing is
      lost, every adapter with a listed parameter map is kept, and every new
      entry is such an adapter. */
  ghost predicate ProviderMerged(out: map<string, CProxy>, proxies: map<string, CProxy>, provider: string, data: ProviderData) {
    var index := ConfigsByName(data.listed);
    && (forall k :: k in proxies ==> k in out && out[k] == proxies[k])
    && (forall i :: 0 <= i < |data.proxies| && data.proxies[i].name in index ==>
          ProviderKept(out, provider, data.proxies[i], index))
    && (forall k :: k in out && k !in proxies ==>
          exists i :: 0 <= i < |data.proxies| && data.proxies[i].name in index
            && Renamed(ProviderLabel(provider, data.proxies[i].name), k)
            && out[k] == CProxy(data.proxies[i], index[data.proxies[i].name]))
  }

  lemma ProviderIsMerged(proxies: map<string, CProxy>, provider: string, data: ProviderData)
    ensures ProviderMerged(Place(proxies, ProviderCandidates(provider, data.proxies, ConfigsByName(data.listed))),
                           proxies, provider, data)
  {
    PlaceGrows(proxies, ProviderCandidates(provider, data.proxies, ConfigsByName(data.listed)));
    ProviderKeepsEvery(proxies, provider, data);
    ProviderAddsNothingElse(proxies, provider, data);
  }

  lemma ProviderKeepsEvery(proxies: map<string, CProxy>, provider: string, data: ProviderData)
    ensures var index := ConfigsByName(data.listed);
      forall i :: 0 <= i < |data.proxies| && data.proxies[i].name in index ==>
        ProviderKept(Place(proxies, ProviderCandidates(provider, data.proxies, index)), provider, data.proxies[i], index)
  {
    var index := ConfigsByName(data.listed);
    var cs := ProviderCandidates(provider, data.proxies, index);
    forall i | 0 <= i < |data.proxies| && data.proxies[i].name in index
      ensures ProviderKept(Place(proxies, cs), provider, data.proxies[i], index)
    {
      ProviderCandidatesOffer(provider, data.proxies, index, i);
      var j :| 0 <= j < |cs| && cs[j] == Offered(provider, data.proxies[i], index);
      PlaceStores(proxies, cs, j);
    }
  }

  lemma ProviderAddsNothingElse(proxies: map<string, CProxy>, provider: string, data: ProviderData)
    ensures var index := ConfigsByName(data.listed);
      var out := Place(proxies, ProviderCandidates(provider, data.proxies, index));
      forall k :: k in out && k !in proxies ==>
        exists i :: 0 <= i < |data.proxies| && data.proxies[i].name in index
          && Renamed(ProviderLabel(provider, data.proxies[i].name), k)
          && out[k] == CProxy(data.proxies[i], index[data.proxies[i].name])
  {
    var index := ConfigsByName(data.listed);
    var cs := ProviderCandidates(provider, data.proxies, index);
    var out := Place(proxies, cs);
    forall k | k in out && k !in proxies
      ensures exists i :: (0 <= i < |data.proxies| && data.proxies[i].name in index
                             && Renamed(ProviderLabel(provider, data.proxies[i].name), k)
                             && out[k] == CProxy(data.proxies[i], index[data.proxies[i].name]))
    {
      PlaceOrigin(proxies, cs, k);
      var j :| 0 <= j < |cs| && Renamed(cs[j].name, k) && out[k] == cs[j].entry;
      ProviderCandidatesOnly(provider, data.proxies, index, j);
      var i :| 0 <= i < |data.proxies| && data.proxies[i].name in index && cs[j] == Offered(provider, data.proxies[i], index);
    }
  }

  /** The proxies one provider contributes, given what loading it yields
      (`None` when parsing, initialising, fetching or decoding fails). */
  function ProviderEntries(provider: string, config: ProxyConfig, load: (string, ProxyConfig) -> Option<ProviderData>): seq<Candidate> {
    if provider == RESERVED_PROVIDER_NAME then []
    else match load(provider, config)
      case None => []
      case Some(data) =>
        if "url" in config && config["url"].Str?
        then ProviderCandidates(provider, data.proxies, ConfigsByName(data.listed))
        else []
  }

  /** The proxies of the providers, visited in `order`. */
  function ProvidersCandidates(order: seq<string>, providers: map<string, ProxyConfig>,
                               load: (string, ProxyConfig) -> Option<ProviderData>): seq<Candidate>
  {
    if order == [] then []
    else
      var p := order[|order| - 1];
      ProvidersCandidates(order[..|order| - 1], providers, load)
      + if p in providers then ProviderEntries(p, providers[p], load) else []
  }

  /** `order` lists each key of `keys` exactly once. */
  ghost predicate Enumerates(order: seq<string>, keys: set<string>) {
    && (forall k :: k in keys <==> k in order)
    && (forall i, j :: 0 <= i < j < |order| ==> order[i] != order[j])
  }

  /** An enumeration is as long as the set it enumerates. */
  lemma {:induction false} EnumerationSize(order: seq<string>, keys: set<string>)
    requires Enumerates(order, keys)
    ensures |order| == |keys|
    decreases |order|
  {
    if order != [] {
      var n := |order| - 1;
      var rest := keys - {order[n]};
      forall k
        ensures k in rest <==> k in order[..n]
      {
        if k in order[..n] {
          var i :| 0 <= i < n && order[..n][i] == k;
          assert order[i] == k && i < n;
        }
      }
      EnumerationSize(order[..n], rest);
    } else {
      assert forall k :: k !in keys;
    }
  }

  /** The inner loop over one provider's adapters. */
  method AddProviderProxies(proxies: map<string, CProxy>, provider: string, data: ProviderData)
    returns (out: map<string, CProxy>)
    ensures out == Place(proxies, ProviderCandidates(provider, data.proxies, ConfigsByName(data.listed)))
    ensures ProviderMerged(out, proxies, provider, data)
  {
    var index := IndexByName(data.listed);
    var adapters := data.proxies;
    out := proxies;
    for i := 0 to |adapters|
      invariant out == Place(proxies, ProviderCandidates(provider, adapters[..i], index))
    {
      assert adapters[..i + 1][..i] == adapters[..i];
      ghost var sofar := ProviderCandidates(provider, adapters[..i], index);
      var a := adapters[i];
      if a.name in index {
        var c := Offered(provider, a, index);
        var key := FreeName(out.Keys, c.name);
        out := out[key := c.entry];
        PlaceOneMore(proxies, sofar, c);
      } else {
        PlaceNothingMore(proxies, sofar);
      }
    }
    assert adapters[..|adapters|] == adapters;
    ProviderIsMerged(proxies, provider, data);
  }

  /** The loop over a source's providers, in the map's (unspecified) order. */
  method AddProviders(proxies: map<string, CProxy>, providers: map<string, ProxyConfig>,
                      load: (string, ProxyConfig) -> Option<ProviderData>)
    returns (out: map<string, CProxy>, ghost order: seq<string>)
    ensures Enumerates(order, providers.Keys)
    ensures out == Place(proxies, ProvidersCandidates(order, providers, load))
    ensures forall k :: k in proxies ==> k in out && out[k] == proxies[k]
  {
    out := proxies;
    order := [];
    var remaining := providers.Keys;
    while remaining != {}
      invariant remaining <= providers.Keys
      invariant forall k :: k in providers <==> k in order || k in remaining
      invariant forall k :: k in order ==> k !in remaining
      invariant forall i, j :: 0 <= i < j < |order| ==> order[i] != order[j]
      invariant out == Place(proxies, ProvidersCandidates(order, providers, load))
      decreases |remaining|
    {
      var name :| name in remaining;
      remaining := remaining - {name};
      var config := providers[name];
      ProvidersCandidatesStep(order, name, providers, load);
      PlaceAppend(proxies, ProvidersCandidates(order, providers, load), ProviderEntries(name, config, load));
      out := AddProvider(out, name, config, load);
      order := order + [name];
    }
    PlaceGrows(proxies, ProvidersCandidates(order, providers, load));
  }

  /** One iteration of the provider loop: the reserved name is skipped, and
      so is a provider that cannot be loaded or has no string url. */
  method AddProvider(proxies: map<string, CProxy>, name: string, config: ProxyConfig,
                     load: (string, ProxyConfig) -> Option<ProviderData>)
    returns (out: map<string, CProxy>)
    ensures out == Place(proxies, ProviderEntries(name, config, load))
    ensures var loads := name != RESERVED_PROVIDER_NAME && load(name, config).Some? && "url" in config && config["url"].Str?;
      && (loads ==> ProviderMerged(out, proxies, name, load(name, config).value))
      && (!loads ==> out == proxies)
  {
    out := proxies;
    if name == RESERVED_PROVIDER_NAME {
      return;
    }
    match load(name, config) {
      case None =>
      case Some(data) =>
        if "url" in config && config["url"].Str? {
          out := AddProviderProxies(out, name, data);
        }
    }
  }

  lemma ProvidersCandidatesStep(order: seq<string>, name: string, providers: map<string, ProxyConfig>,
                                load: (string, ProxyConfig) -> Option<ProviderData>)
    requires name in providers
    ensures ProvidersCandidates(order + [name], providers, load)
         == ProvidersCandidates(order, providers, load) + ProviderEntries(name, providers[name], load)
  {
    assert (order + [name])[..|order|] == order;
  }

  // ---------------------------------------------------------------------
  // Merging a source into the registry of all sources
  // ---------------------------------------------------------------------

  /** An entry is kept when its kind is supported and, in Stash mode, when it
      is Stash compatible. */
  predicate Admitted(p: CProxy, stashCompatible: bool) {
    Supported(p.proxy.kind) && (!stashCompatible || Stash.IsStashCompatible(p.proxy.kind, p.config))
  }

  predicate AllAdmitted(m: map<string, CProxy>, stashCompatible: bool) {
    forall k :: k in m ==> Admitted(m[k], stashCompatible)
  }

  /** The admitted entries of one source, visited in `order`, each asking for
      its key in the source. */
  function MergeCandidates(order: seq<string>, proxies: map<string, CProxy>, stashCompatible: bool): (cs: seq<Candidate>)
    ensures forall i :: 0 <= i < |cs| ==> Admitted(cs[i].entry, stashCompatible)
    ensures forall i :: 0 <= i < |cs| ==> cs[i].name in order && cs[i].name in proxies && cs[i].entry == proxies[cs[i].name]
  {
    if order == [] then []
    else
      var k := order[|order| - 1];
      MergeCandidates(order[..|order| - 1], proxies, stashCompatible)
      + if k in proxies && Admitted(proxies[k], stashCompatible) then [Candidate(k, proxies[k])] else []
  }

  /** Each admitted proxy of the source visited in `order` is offered. */
  lemma {:induction false} MergeCandidatesOffer(order: seq<string>, proxies: map<string, CProxy>, stashCompatible: bool, s: string)
    requires s in order && s in proxies && Admitted(proxies[s], stashCompatible)
    ensures Candidate(s, proxies[s]) in MergeCandidates(order, proxies, stashCompatible)
    decreases |order|
  {
    var n := |order| - 1;
    var prefix := MergeCandidates(order[..n], proxies, stashCompatible);
    var cs := MergeCandidates(order, proxies, stashCompatible);
    if order[n] == s {
      assert cs == prefix + [Candidate(s, proxies[s])];
    } else {
      assert s in order[..n];
      MergeCandidatesOffer(order[..n], proxies, stashCompatible, s);
    }
  }

  /** Merging a source into `all`, whatever the order: nothing in `all` is
      lost or overwritten, every admitted proxy of the source is added under
      a new name derived from its key, and nothing else is added. */
  ghost predicate MergedFrom(merged: map<string, CProxy>, all: map<string, CProxy>, proxies: map<string, CProxy>, stashCompatible: bool) {
    && (forall k :: k in all ==> k in merged && merged[k] == all[k])
    && (forall s :: s in proxies && Admitted(proxies[s], stashCompatible) ==>
          exists k :: k in merged && k !in all && Renamed(s, k) && merged[k] == proxies[s])
    && (forall k :: k in merged && k !in all ==>
          exists s :: s in proxies && Admitted(proxies[s], stashCompatible) && Renamed(s, k) && merged[k] == proxies[s])
  }

  lemma MergeIsMergedFrom(all: map<string, CProxy>, order: seq<string>, proxies: map<string, CProxy>, stashCompatible: bool)
    requires Enumerates(order, proxies.Keys)
    ensures MergedFrom(Place(all, MergeCandidates(order, proxies, stashCompatible)), all, proxies, stashCompatible)
  {
    PlaceGrows(all, MergeCandidates(order, proxies, stashCompatible));
    MergeAddsEvery(all, order, proxies, stashCompatible);
    MergeAddsNothingElse(all, order, proxies, stashCompatible);
  }

  lemma MergeAddsEvery(all: map<string, CProxy>, order: seq<string>, proxies: map<string, CProxy>, stashCompatible: bool)
    requires Enumerates(order, proxies.Keys)
    ensures var merged := Place(all, MergeCandidates(order, proxies, stashCompatible));
      forall s :: s in proxies && Admitted(proxies[s], stashCompatible) ==>
        exists k :: k in merged && k !in all && Renamed(s, k) && merged[k] == proxies[s]
  {
    forall s | s in proxies && Admitted(proxies[s], stashCompatible) {
      MergeAdds(all, order, proxies, stashCompatible, s);
    }
  }

  lemma MergeAddsNothingElse(all: map<string, CProxy>, order: seq<string>, proxies: map<string, CProxy>, stashCompatible: bool)
    ensures var merged := Place(all, MergeCandidates(order, proxies, stashCompatible));
      forall k :: k in merged && k !in all ==>
        exists s :: s in proxies && Admitted(proxies[s], stashCompatible) && Renamed(s, k) && merged[k] == proxies[s]
  {
    forall k | k in Place(all, MergeCandidates(order, proxies, stashCompatible)) && k !in all {
      MergeAddsOnly(all, order, proxies, stashCompatible, k);
    }
  }

  lemma MergeAdds(all: map<string, CProxy>, order: seq<string>, proxies: map<string, CProxy>, stashCompatible: bool, s: string)
    requires Enumerates(order, proxies.Keys)
    requires s in proxies && Admitted(proxies[s], stashCompatible)
    ensures var merged := Place(all, MergeCandidates(order, proxies, stashCompatible));
      exists k :: k in merged && k !in all && Renamed(s, k) && merged[k] == proxies[s]
  {
    var cs := MergeCandidates(order, proxies, stashCompatible);
    MergeCandidatesOffer(order, proxies, stashCompatible, s);
    var i :| 0 <= i < |cs| && cs[i] == Candidate(s, proxies[s]);
    PlaceStores(all, cs, i);
  }

  lemma MergeAddsOnly(all: map<string, CProxy>, order: seq<string>, proxies: map<string, CProxy>, stashCompatible: bool, k: string)
    requires k in Place(all, MergeCandidates(order, proxies, stashCompatible)) && k !in all
    ensures var merged := Place(all, MergeCandidates(order, proxies, stashCompatible));
      exists s :: s in proxies && Admitted(proxies[s], stashCompatible) && Renamed(s, k) && merged[k] == proxies[s]
  {
    var cs := MergeCandidates(order, proxies, stashCompatible);
    PlaceOrigin(all, cs, k);
    var i :| 0 <= i < |cs| && Renamed(cs[i].name, k) && Place(all, cs)[k] == cs[i].entry;
    assert cs[i].name in proxies && Admitted(proxies[cs[i].name], stashCompatible);
  }

  /** The loop that filters a source's proxies and merges them into `all`. */
  method MergeInto(all: map<string, CProxy>, proxies: map<string, CProxy>, stashCompatible: bool)
    returns (merged: map<string, CProxy>, ghost order: seq<string>)
    ensures Enumerates(order, proxies.Keys)
    ensures merged == Place(all, MergeCandidates(order, proxies, stashCompatible))
    ensures MergedFrom(merged, all, proxies, stashCompatible)
  {
    merged := all;
    order := [];
    var remaining := proxies.Keys;
    while remaining != {}
      invariant remaining <= proxies.Keys
      invariant forall k :: k in proxies <==> k in order || k in remaining
      invariant forall k :: k in order ==> k !in remaining
      invariant forall i, j :: 0 <= i < j < |order| ==> order[i] != order[j]
      invariant merged == Place(all, MergeCandidates(order, proxies, stashCompatible))
      decreases |remaining|
    {
      var k :| k in remaining;
      remaining := remaining - {k};
      var p := proxies[k];
      MergeCandidatesStep(order, k, proxies, stashCompatible);
      ghost var sofar := MergeCandidates(order, proxies, stashCompatible);
      order := order + [k];
      if Supported(p.proxy.kind) && (!stashCompatible || Stash.IsStashCompatible(p.proxy.kind, p.config)) {
        var finalName := FreeName(merged.Keys, k);
        merged := merged[finalName := p];
        PlaceOneMore(all, sofar, Candidate(k, p));
      } else {
        PlaceNothingMore(all, sofar);
      }
    }
    MergeIsMergedFrom(all, order, proxies, stashCompatible);
  }

  lemma MergeCandidatesStep(order: seq<string>, k: string, proxies: map<string, CProxy>, stashCompatible: bool)
    requires k in proxies
    ensures MergeCandidates(order + [k], proxies, stashCompatible)
         == MergeCandidates(order, proxies, stashCompatible)
            + if Admitted(proxies[k], stashCompatible) then [Candidate(k, proxies[k])] else []
  {
    assert (order + [k])[..|order|] == order;
  }

  /** Every entry of a merged registry is admitted, when the registry it was
      merged into held only admitted entries. */
  lemma MergeAdmitsOnly(all: map<string, CProxy>, order: seq<string>, proxies: map<string, CProxy>, stashCompatible: bool)
    requires AllAdmitted(all, stashCompatible)
    ensures AllAdmitted(Place(all, MergeCandidates(order, proxies, stashCompatible)), stashCompatible)
  {
    PlaceKeeps(all, MergeCandidates(order, proxies, stashCompatible), p => Admitted(p, stashCompatible));
  }

  // ---------------------------------------------------------------------
  // All sources
  // ---------------------------------------------------------------------

  /** The trimmed, non-empty pieces, in order. */
  function TrimmedPieces(parts: seq<string>): (ps: seq<string>)
    ensures forall i :: 0 <= i < |ps| ==> ps[i] != []
  {
    if parts == [] then []
    else
      var t := TrimSpace(parts[|parts| - 1]);
      TrimmedPieces(parts[..|parts| - 1]) + if t == [] then [] else [t]
  }

  /** The decoded documents of the configuration paths that can be read, in
      the order of the paths. */
  function Sources(paths: seq<string>, read: string -> Option<RawConfig>): seq<RawConfig> {
    if paths == [] then []
    else
      var last := paths[|paths| - 1];
      Sources(paths[..|paths| - 1], read) + match read(last) case Some(raw) => [raw] case None => []
  }

  /** How one source was visited: its document and the orders in which its
      providers and its placed proxies were enumerated. */
  datatype SourceTrace = SourceTrace(raw: RawConfig, providerOrder: seq<string>, mergeOrder: seq<string>)

  /** The proxies of one source under their source-level names. */
  function SourceProxies(raw: RawConfig, providerOrder: seq<string>, parse: ProxyConfig -> Option<Adapter>,
                         load: (string, ProxyConfig) -> Option<ProviderData>): map<string, CProxy> {
    Place(map[], DirectCandidates(raw.proxies, parse) + ProvidersCandidates(providerOrder, raw.providers, load))
  }

  /** The registry of all sources, merged one after the other. */
  function AssembleAll(traces: seq<SourceTrace>, parse: ProxyConfig -> Option<Adapter>,
                       load: (string, ProxyConfig) -> Option<ProviderData>, stashCompatible: bool): map<string, CProxy>
  {
    if traces == [] then map[]
    else
      var t := traces[|traces| - 1];
      var proxies := SourceProxies(t.raw, t.providerOrder, parse, load);
      Place(AssembleAll(traces[..|traces| - 1], parse, load, stashCompatible), MergeCandidates(t.mergeOrder, proxies, stashCompatible))
  }

  /** `t` visited the document `raw`, enumerating its providers and the
      proxies it contributes. */
  ghost predicate Visited(t: SourceTrace, raw: RawConfig, parse: ProxyConfig -> Option<Adapter>,
                          load: (string, ProxyConfig) -> Option<ProviderData>) {
    && t.raw == raw
    && Enumerates(t.providerOrder, raw.providers.Keys)
    && Enumerates(t.mergeOrder, SourceProxies(raw, t.providerOrder, parse, load).Keys)
  }

  /** `traces` visit the documents `raws` one by one. */
  ghost predicate Visits(traces: seq<SourceTrace>, raws: seq<RawConfig>, parse: ProxyConfig -> Option<Adapter>,
                         load: (string, ProxyConfig) -> Option<ProviderData>) {
    && |traces| == |raws|
    && forall i :: 0 <= i < |traces| ==> Visited(traces[i], raws[i], parse, load)
  }

  lemma VisitsSnoc(traces: seq<SourceTrace>, raws: seq<RawConfig>, t: SourceTrace, parse: ProxyConfig -> Option<Adapter>,
                   load: (string, ProxyConfig) -> Option<ProviderData>)
    requires Visits(traces, raws, parse, load)
    requires Visited(t, t.raw, parse, load)
    ensures Visits(traces + [t], raws + [t.raw], parse, load)
  {
  }

  lemma TrimmedPiecesPrefix(parts: seq<string>, i: int)
    requires 0 <= i < |parts|
    ensures TrimmedPieces(parts[..i + 1])
         == TrimmedPieces(parts[..i]) + if TrimSpace(parts[i]) == [] then [] else [TrimSpace(parts[i])]
  {
    assert parts[..i + 1][..i] == parts[..i];
  }

  lemma SourcesSkip(paths: seq<string>, path: string, read: string -> Option<RawConfig>)
    requires read(path).None?
    ensures Sources(paths + [path], read) == Sources(paths, read)
  {
    assert (paths + [path])[..|paths|] == paths;
    assert Sources(paths, read) + [] == Sources(paths, read);
  }

  lemma SourcesAdd(paths: seq<string>, path: string, read: string -> Option<RawConfig>)
    requires read(path).Some?
    ensures Sources(paths + [path], read) == Sources(paths, read) + [read(path).value]
  {
    assert (paths + [path])[..|paths|] == paths;
  }

  lemma AssembleAllSnoc(traces: seq<SourceTrace>, t: SourceTrace, parse: ProxyConfig -> Option<Adapter>,
                        load: (string, ProxyConfig) -> Option<ProviderData>, stashCompatible: bool)
    ensures AssembleAll(traces + [t], parse, load, stashCompatible)
         == Place(AssembleAll(traces, parse, load, stashCompatible),
                  MergeCandidates(t.mergeOrder, SourceProxies(t.raw, t.providerOrder, parse, load), stashCompatible))
  {
    assert (traces + [t])[..|traces|] == traces;
  }

  /** Every entry of the assembled registry is admitted. */
  lemma {:induction false} AssembleAllAdmitted(traces: seq<SourceTrace>, parse: ProxyConfig -> Option<Adapter>,
                                             load: (string, ProxyConfig) -> Option<ProviderData>, stashCompatible: bool)
    ensures AllAdmitted(AssembleAll(traces, parse, load, stashCompatible), stashCompatible)
    decreases |traces|
  {
    if traces != [] {
      var t := traces[|traces| - 1];
      AssembleAllAdmitted(traces[..|traces| - 1], parse, load, stashCompatible);
      MergeAdmitsOnly(AssembleAll(traces[..|traces| - 1], parse, load, stashCompatible), t.mergeOrder,
                      SourceProxies(t.raw, t.providerOrder, parse, load), stashCompatible);
    }
  }

  /** One source: its inline proxies, then its providers' proxies. */
  method LoadSource(raw: RawConfig, parse: ProxyConfig -> Option<Adapter>, load: (string, ProxyConfig) -> Option<ProviderData>)
    returns (proxies: map<string, CProxy>, ghost providerOrder: seq<string>)
    ensures Enumerates(providerOrder, raw.providers.Keys)
    ensures proxies == SourceProxies(raw, providerOrder, parse, load)
    ensures forall i :: 0 <= i < |raw.proxies| && parse(raw.proxies[i]).Some? ==>
      InlineKept(proxies, parse(raw.proxies[i]).value, raw.proxies[i])
  {
    var direct := AddDirectProxies(raw.proxies, parse);
    proxies, providerOrder := AddProviders(direct, raw.providers, load);
    PlaceAppend(map[], DirectCandidates(raw.proxies, parse), ProvidersCandidates(providerOrder, raw.providers, load));
    forall i | 0 <= i < |raw.proxies| && parse(raw.proxies[i]).Some?
      ensures InlineKept(proxies, parse(raw.proxies[i]).value, raw.proxies[i])
    {
      var a := parse(raw.proxies[i]).value;
      var ds := DirectCandidates(raw.proxies, parse);
      DirectCandidatesOffer(raw.proxies, parse, i);
      var j :| 0 <= j < |ds| && ds[j] == Candidate(a.name, CProxy(a, raw.proxies[i]));
      PlaceStores(map[], ds, j);
      PlaceGrows(Place(map[], ds), ProvidersCandidates(providerOrder, raw.providers, load));
    }
  }

  /** The adapter `a` built from `config` is stored under its name or that
      name with a duplicate counter. */
  ghost predicate InlineKept(proxies: map<string, CProxy>, a: Adapter, config: ProxyConfig) {
    exists k :: k in proxies && Renamed(a.name, k) && proxies[k] == CProxy(a, config)
  }

  // ---------------------------------------------------------------------
  // Filtering by name
  // ---------------------------------------------------------------------

  /** The block keywords: BlockRegex split on '|', trimmed, empties dropped,
      lower-cased. */
  function BlockKeywords(blockRegex: string): seq<string> {
    if blockRegex == "" then [] else Lowered(TrimmedPieces(Split(blockRegex, '|')))
  }

  function Lowered(ps: seq<string>): (ls: seq<string>)
    ensures |ls| == |ps|
    ensures forall i :: 0 <= i < |ps| ==> ls[i] == ToLower(ps[i])
  {
    if ps == [] then [] else Lowered(ps[..|ps| - 1]) + [ToLower(ps[|ps| - 1])]
  }

  lemma LoweredSnoc(ps: seq<string>, p: string)
    ensures Lowered(ps + [p]) == Lowered(ps) + [ToLower(p)]
  {
    assert (ps + [p])[..|ps|] == ps;
  }

  method ParseBlockKeywords(blockRegex: string) returns (kws: seq<string>)
    ensures kws == BlockKeywords(blockRegex)
  {
    kws := [];
    if blockRegex != "" {
      var parts := Split(blockRegex, '|');
      for i := 0 to |parts|
        invariant kws == Lowered(TrimmedPieces(parts[..i]))
      {
        KeywordsPrefix(parts, i);
        var keyword := TrimSpace(parts[i]);
        if keyword != "" {
          kws := kws + [ToLower(keyword)];
        }
      }
      assert parts[..|parts|] == parts;
    }
  }

  lemma KeywordsPrefix(parts: seq<string>, i: int)
    requires 0 <= i < |parts|
    ensures Lowered(TrimmedPieces(parts[..i + 1]))
         == Lowered(TrimmedPieces(parts[..i])) + if TrimSpace(parts[i]) == [] then [] else [ToLower(TrimSpace(parts[i]))]
  {
    TrimmedPiecesPrefix(parts, i);
    var ps := TrimmedPieces(parts[..i]);
    if TrimSpace(parts[i]) != [] {
      LoweredSnoc(ps, TrimSpace(parts[i]));
    } else {
      assert ps + [] == ps;
    }
  }

  /** Every keyword is non-empty, lower case and free of the separator. */
  lemma BlockKeywordsWellFormed(blockRegex: string)
    ensures forall i :: 0 <= i < |BlockKeywords(blockRegex)| ==>
      var kw := BlockKeywords(blockRegex)[i];
      kw != [] && ToLower(kw) == kw && '|' !in kw
  {
    if blockRegex != "" {
      var parts := Split(blockRegex, '|');
      TrimmedPiecesInside(parts, '|');
      var ps := TrimmedPieces(parts);
      forall i | 0 <= i < |ps|
        ensures ToLower(ToLower(ps[i])) == ToLower(ps[i]) && '|' !in ToLower(ps[i])
      {
        ToLowerIdempotent(ps[i]);
      }
    }
  }

  /** Trimming keeps a character out when the pieces do not contain it. */
  lemma {:induction false} TrimmedPiecesInside(parts: seq<string>, sep: char)
    requires forall i :: 0 <= i < |parts| ==> sep !in parts[i]
    ensures forall i :: 0 <= i < |TrimmedPieces(parts)| ==> sep !in TrimmedPieces(parts)[i]
    decreases |parts|
  {
    if parts != [] {
      var n := |parts| - 1;
      TrimmedPiecesInside(parts[..n], sep);
      TrimSpaceWithin(parts[n], sep);
    }
  }

  /** A name is blocked when its lower-cased form contains a keyword. */
  predicate Blocked(name: string, kws: seq<string>) {
    exists i :: 0 <= i < |kws| && Contains(ToLower(name), kws[i])
  }

  /** The blocking loop and the allow filter over the merged registry. */
  method FilterByName(all: map<string, CProxy>, kws: seq<string>, allow: string -> bool)
    returns (filtered: map<string, CProxy>, blocked: seq<string>)
    ensures forall k :: k in filtered <==> k in all && !Blocked(k, kws) && allow(k)
    ensures forall k :: k in filtered ==> filtered[k] == all[k]
    ensures forall k :: k in blocked <==> k in all && Blocked(k, kws)
    ensures forall i, j :: 0 <= i < j < |blocked| ==> blocked[i] != blocked[j]
  {
    filtered := map[];
    blocked := [];
    var remaining := all.Keys;
    while remaining != {}
      invariant remaining <= all.Keys
      invariant forall k :: k in filtered <==> k in all && k !in remaining && !Blocked(k, kws) && allow(k)
      invariant forall k :: k in filtered ==> filtered[k] == all[k]
      invariant forall k :: k in blocked <==> k in all && k !in remaining && Blocked(k, kws)
      invariant forall i, j :: 0 <= i < j < |blocked| ==> blocked[i] != blocked[j]
      decreases |remaining|
    {
      var name :| name in remaining;
      remaining := remaining - {name};
      var shouldBlock := false;
      if |kws| > 0 {
        var lowerName := ToLower(name);
        for i := 0 to |kws|
          invariant !shouldBlock ==> forall j :: 0 <= j < i ==> !Contains(lowerName, kws[j])
          invariant shouldBlock ==> Blocked(name, kws)
        {
          if Contains(lowerName, kws[i]) {
            shouldBlock := true;
            break;
          }
        }
      }
      if shouldBlock {
        blocked := blocked + [name];
        continue;
      }
      if allow(name) {
        filtered := filtered[name := all[name]];
      }
    }
  }
}
