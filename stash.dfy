/** The Stash compatibility check: per adapter kind, the parameters whose
    values a Stash client restricts, and the values it accepts. */
module Stash {
  import opened Wrappers
  import opened Proxies

  const SHADOWSOCKS_CIPHERS: set<string> := {
    "aes-128-gcm", "aes-192-gcm", "aes-256-gcm",
    "aes-128-cfb", "aes-192-cfb", "aes-256-cfb",
    "aes-128-ctr", "aes-192-ctr", "aes-256-ctr",
    "rc4-md5", "chacha20", "chacha20-ietf", "xchacha20",
    "chacha20-ietf-poly1305", "xchacha20-ietf-poly1305",
    "2022-blake3-aes-128-gcm", "2022-blake3-aes-256-gcm"
  }
  const SSR_OBFS: set<string> := {
    "plain", "http_simple", "http_post", "random_head",
    "tls1.2_ticket_auth", "tls1.2_ticket_fastauth"
  }
  const SSR_PROTOCOLS: set<string> := {
    "origin", "auth_sha1_v4", "auth_aes128_md5",
    "auth_aes128_sha1", "auth_chain_a", "auth_chain_b"
  }
  const SNELL_OBFS_MODES: set<string> := {"http", "tls"}
  const VMESS_CIPHERS: set<string> := {"auto", "aes-128-gcm", "chacha20-poly1305", "none"}
  const VMESS_NETWORKS: set<string> := {"ws", "h2", "http", "grpc"}
  const VLESS_FLOWS: set<string> := {"xtls-rprx-origin", "xtls-rprx-direct", "xtls-rprx-splice", "xtls-rprx-vision"}
  const TROJAN_NETWORKS: set<string> := {"ws", "grpc"}

  /** An absent parameter is accepted; a present one must be a string from the
      list (a value of any other type never equals a listed string). */
  predicate Allows(config: ProxyConfig, key: string, allowed: set<string>) {
    key in config ==> config[key].Str? && config[key].s in allowed
  }

  /** isStashCompatible. */
  predicate IsStashCompatible(kind: ProxyType, config: ProxyConfig) {
    match kind
    case Shadowsocks => Allows(config, "cipher", SHADOWSOCKS_CIPHERS)
    case ShadowsocksR => Allows(config, "obfs", SSR_OBFS) && Allows(config, "protocol", SSR_PROTOCOLS)
    case Snell =>
      // only a nested mapping under obfs-opts is inspected
      !("obfs-opts" in config && config["obfs-opts"].Dict?)
      || Allows(config["obfs-opts"].entries, "mode", SNELL_OBFS_MODES)
    case Socks5 => true
    case Http => true
    case Vmess => Allows(config, "cipher", VMESS_CIPHERS) && Allows(config, "network", VMESS_NETWORKS)
    case Vless => Allows(config, "flow", VLESS_FLOWS)
    case Trojan => Allows(config, "network", TROJAN_NETWORKS)
    case Hysteria => true
    case Hysteria2 => true
    case WireGuard => true
    case Tuic => true
    case Ssh => true
    case _ => false
  }

  // ---------------------------------------------------------------------
  // The same check as a table of rules
  // ---------------------------------------------------------------------

  /** A restriction on the value found by following `path` through nested maps. */
  datatype Rule = Rule(path: seq<string>, allowed: set<string>)

  /** The value at the end of `path`, if every step finds a key (and every
      intermediate value is a map); nothing for the empty path. */
  function Lookup(config: ProxyConfig, path: seq<string>): Option<Value>
    decreases |path|
  {
    if path == [] || path[0] !in config then None
    else if |path| == 1 then Some(config[path[0]])
    else match config[path[0]]
      case Dict(inner) => Lookup(inner, path[1..])
      case _ => None
  }

  /** A rule holds when its parameter is absent or a listed string. */
  predicate RuleHolds(config: ProxyConfig, rule: Rule) {
    match Lookup(config, rule.path)
    case None => true
    case Some(v) => v.Str? && v.s in rule.allowed
  }

  predicate AllHold(config: ProxyConfig, rules: seq<Rule>) {
    rules == [] || (RuleHolds(config, rules[0]) && AllHold(config, rules[1..]))
  }

  /** The rules of each kind a Stash client can use; `None` for kinds it cannot. */
  function Rules(kind: ProxyType): Option<seq<Rule>> {
    match kind
    case Shadowsocks => Some([Rule(["cipher"], SHADOWSOCKS_CIPHERS)])
    case ShadowsocksR => Some([Rule(["obfs"], SSR_OBFS), Rule(["protocol"], SSR_PROTOCOLS)])
    case Snell => Some([Rule(["obfs-opts", "mode"], SNELL_OBFS_MODES)])
    case Vmess => Some([Rule(["cipher"], VMESS_CIPHERS), Rule(["network"], VMESS_NETWORKS)])
    case Vless => Some([Rule(["flow"], VLESS_FLOWS)])
    case Trojan => Some([Rule(["network"], TROJAN_NETWORKS)])
    case Socks5 => Some([])
    case Http => Some([])
    case Hysteria => Some([])
    case Hysteria2 => Some([])
    case WireGuard => Some([])
    case Tuic => Some([])
    case Ssh => Some([])
    case _ => None
  }

  /** The switch accepts exactly the kinds with rules, and then exactly the
      configurations every rule of the kind accepts. */
  lemma StashMatchesRules(kind: ProxyType, config: ProxyConfig)
    ensures IsStashCompatible(kind, config) <==> Rules(kind).Some? && AllHold(config, Rules(kind).value)
  {
    match kind {
      case Shadowsocks => OneStepRule(config, "cipher", SHADOWSOCKS_CIPHERS);
      case ShadowsocksR =>
        OneStepRule(config, "obfs", SSR_OBFS);
        OneStepRule(config, "protocol", SSR_PROTOCOLS);
        TwoRules(config, Rule(["obfs"], SSR_OBFS), Rule(["protocol"], SSR_PROTOCOLS));
      case Snell =>
        var path := ["obfs-opts", "mode"];
        if "obfs-opts" in config && config["obfs-opts"].Dict? {
          var inner := config["obfs-opts"].entries;
          assert path[1..] == ["mode"];
          assert Lookup(config, path) == Lookup(inner, ["mode"]);
          OneStepRule(inner, "mode", SNELL_OBFS_MODES);
        }
      case Vmess =>
        OneStepRule(config, "cipher", VMESS_CIPHERS);
        OneStepRule(config, "network", VMESS_NETWORKS);
        TwoRules(config, Rule(["cipher"], VMESS_CIPHERS), Rule(["network"], VMESS_NETWORKS));
      case Vless => OneStepRule(config, "flow", VLESS_FLOWS);
      case Trojan => OneStepRule(config, "network", TROJAN_NETWORKS);
      case _ =>
    }
  }

  lemma TwoRules(config: ProxyConfig, a: Rule, b: Rule)
    ensures AllHold(config, [a, b]) == (RuleHolds(config, a) && RuleHolds(config, b))
  {
    assert [a, b][1..] == [b];
    assert [b][1..] == [];
    assert AllHold(config, [b]) == RuleHolds(config, b);
  }

  lemma OneStepRule(config: ProxyConfig, key: string, allowed: set<string>)
    ensures RuleHolds(config, Rule([key], allowed)) == Allows(config, key, allowed)
  {
  }

  // ---------------------------------------------------------------------
  // Properties
  // ---------------------------------------------------------------------

  /** Removing a parameter never makes an entry incompatible: absence is
      always accepted. */
  lemma RemovingParameterKeepsCompatible(kind: ProxyType, config: ProxyConfig, key: string)
    requires IsStashCompatible(kind, config)
    ensures IsStashCompatible(kind, config - {key})
  {
  }

  /** Only the thirteen kinds a Stash client knows can pass; Mieru, AnyTLS and
      every kind outside the fifteen never do. */
  lemma StashKinds(kind: ProxyType, config: ProxyConfig)
    ensures (kind.Mieru? || kind.AnyTLS? || kind.OtherKind?) ==> !IsStashCompatible(kind, config)
    ensures (kind.Socks5? || kind.Http? || kind.Hysteria? || kind.Hysteria2? || kind.WireGuard?
             || kind.Tuic? || kind.Ssh?) ==> IsStashCompatible(kind, config)
  {
  }

  /** A Shadowsocks entry passes with cipher aes-256-gcm and fails with an
      unknown cipher, whatever its other parameters. */
  lemma ShadowsocksCipher(config: ProxyConfig)
    ensures IsStashCompatible(Shadowsocks, config["cipher" := Str("aes-256-gcm")])
    ensures !IsStashCompatible(Shadowsocks, config["cipher" := Str("unknown-cipher")])
  {
  }
}
