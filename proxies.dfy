/** The proxy definitions the registry is built from: parsed configuration
    values, the adapter kinds of the proxy core, and the records that one
    configuration source yields once fetched and decoded. */
module Proxies {
  import opened Wrappers

  /** A decoded configuration value (Go's `any` after YAML decoding). */
  datatype Value =
    | Str(s: string)
    | Int(i: int)
    | Float(x: real)
    | Bool(b: bool)
    | Null
    | List(items: seq<Value>)
    | Dict(entries: map<string, Value>)

  /** The parameter map of one proxy, `map[string]any`. */
  type ProxyConfig = map<string, Value>

  /** The adapter kinds of the proxy core. The fifteen named ones are those the
      registry keeps; every other kind (direct, reject, dns, groups, ...) is
      `OtherKind`. */
  datatype ProxyType =
    | Shadowsocks | ShadowsocksR | Snell | Socks5 | Http
    | Vmess | Vless | Trojan | Hysteria | Hysteria2
    | WireGuard | Tuic | Ssh | Mieru | AnyTLS
    | OtherKind(typeName: string)

  /** The fifteen kinds the registry accepts (speedtester.go, the type switch of LoadProxies). */
  predicate Supported(kind: ProxyType) {
    !kind.OtherKind?
  }

  /** What the registry uses of a constructed proxy adapter: its name and kind.
      The dial capability behind it belongs to the proxy core. */
  datatype Adapter = Adapter(name: string, kind: ProxyType)

  /** A registry entry: the adapter and the parameter map it was built from. */
  datatype CProxy = CProxy(proxy: Adapter, config: ProxyConfig)

  /** One decoded configuration document: its inline proxies, in order, and its
      named providers. */
  datatype RawConfig = RawConfig(providers: map<string, ProxyConfig>, proxies: seq<ProxyConfig>)

  /** What an initialised provider yields: the adapters it built and the
      parameter maps listed in the document fetched from its `url`. */
  datatype ProviderData = ProviderData(proxies: seq<Adapter>, listed: seq<ProxyConfig>)

  /** The `name` of a parameter map, when it is present and a string. */
  function NameOf(config: ProxyConfig): Option<string> {
    if "name" in config && config["name"].Str? then Some(config["name"].s) else None
  }
}
