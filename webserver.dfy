/** The web front end: the server and its bearer-token check, the filter
    applied to results before they are returned, and the country tables used
    when nodes are renamed. */
module Webserver {
  import opened Wrappers
  import opened GoText
  import opened Results
  import opened Sequences
  import SpeedTester
  import Export

  /** Server: the token requests must present, and the port to listen on. */
  datatype Server = Server(authKey: string, port: int) {

    /** validateAuth: the header must be "Bearer", one space, and the token. */
    function ValidateAuth(authHeader: string): (ok: bool)
      ensures ok <==> authHeader == BEARER + " " + authKey
    {
      BearerHeaderSplits(authHeader, authKey);
      if authHeader == "" then false
      else
        var parts := SplitN2(authHeader, ' ');
        if |parts| != 2 || parts[0] != BEARER then false
        else parts[1] == authKey
    }
  }

  /** The expected header splits at its first space into "Bearer" and the
      token, whatever the token contains. */
  lemma BearerHeaderSplits(authHeader: string, authKey: string)
    ensures authHeader == BEARER + " " + authKey ==> SplitN2(authHeader, ' ') == [BEARER, authKey]
  {
    if authHeader == BEARER + " " + authKey {
      var parts := SplitN2(authHeader, ' ');
      assert authHeader[|BEARER|] == ' ';
      SplitAtFirstUnique(parts[0], parts[1], BEARER, authKey, ' ');
    }
  }

  const BEARER: string := "Bearer"
  const NO_AUTH_KEY: string := "环境变量 AUTH_KEY 未设置，Web 模式需要设置此变量用于身份验证"

  /** New, with the value of the AUTH_KEY environment variable passed in: no
      server without a token. */
  function NewServer(port: int, authKey: string): (r: Result<Server, string>)
    ensures r.Success? <==> authKey != ""
    ensures r.Success? ==> r.value.authKey == authKey && r.value.port == port
    ensures r.Failure? ==> r.error == NO_AUTH_KEY
  {
    if authKey == "" then Failure(NO_AUTH_KEY) else Success(Server(authKey, port))
  }

  /** A text split at its first separator splits only one way. */
  lemma SplitAtFirstUnique(p0: string, p1: string, q0: string, q1: string, sep: char)
    requires sep !in p0 && sep !in q0
    requires p0 + [sep] + p1 == q0 + [sep] + q1
    ensures p0 == q0 && p1 == q1
  {
    var s := p0 + [sep] + p1;
    FirstIndexAfter(p0, [sep] + p1, sep);
    FirstIndexAfter(q0, [sep] + q1, sep);
    assert p0 + ([sep] + p1) == s == q0 + ([sep] + q1);
    assert p0 == s[..|p0|] == q0;
    assert p1 == s[|p0| + 1..] == q1;
  }

  /** The position of the first `c` in `s`. */
  function FirstIndex(s: string, c: char): nat
    requires c in s
  {
    if s[0] == c then 0 else 1 + FirstIndex(s[1..], c)
  }

  lemma {:induction false} FirstIndexAfter(prefix: string, rest: string, c: char)
    requires c !in prefix && rest != [] && rest[0] == c
    ensures c in prefix + rest && FirstIndex(prefix + rest, c) == |prefix|
    decreases |prefix|
  {
    assert (prefix + rest)[|prefix|] == c;
    if prefix != [] {
      assert (prefix + rest)[1..] == prefix[1..] + rest;
      FirstIndexAfter(prefix[1..], rest, c);
    }
  }

  /** A server made by NewServer turns away a request without a header and
      one with the bare scheme. */
  lemma NewServerRejectsEmptyToken(port: int, authKey: string)
    requires NewServer(port, authKey).Success?
    ensures !NewServer(port, authKey).value.ValidateAuth("")
    ensures !NewServer(port, authKey).value.ValidateAuth(BEARER + " ")
    ensures !NewServer(port, authKey).value.ValidateAuth(authKey)
  {
    var s := NewServer(port, authKey).value;
    assert |BEARER + " " + authKey| > |authKey|;
    assert |BEARER + " " + authKey| > |BEARER + " "|;
  }

  // ---------------------------------------------------------------------
  // Filtering results
  // ---------------------------------------------------------------------

  /** A result is returned when it has a latency and the latency is within a
      positive ceiling. */
  predicate Responsive(maxLatency: int, r: TestResult) {
    !(maxLatency > 0 && r.latency > maxLatency) && r.latency != 0
  }

  function Responders(maxLatency: int, results: seq<TestResult>): seq<TestResult> {
    Filter(results, r => Responsive(maxLatency, r))
  }

  /** filterResults. */
  method FilterResults(results: seq<TestResult>, config: SpeedTester.Config) returns (valid: seq<TestResult>)
    ensures valid == Responders(config.maxLatency, results)
  {
    var maxLatency := config.maxLatency;
    valid := [];
    for i := 0 to |results|
      invariant valid == Responders(maxLatency, results[..i])
    {
      var result := results[i];
      assert results[..i + 1] == results[..i] + [result];
      FilterAppend(results[..i], [result], r => Responsive(maxLatency, r));
      assert [result][1..] == [];
      if maxLatency > 0 && result.latency > maxLatency {
        continue;
      }
      if result.latency == 0 {
        continue;
      }
      valid := valid + [result];
    }
    assert results[..|results|] == results;
  }

  /** The web filter is the latency half of the command line's export rule:
      whatever the command line exports passes it, and in fast mode the two
      agree. */
  lemma ExportedAreResponsive(f: Export.Flags, r: TestResult)
    ensures Export.Kept(f, r) ==> Responsive(f.maxLatency, r)
    ensures f.fastMode ==> (Export.Kept(f, r) <==> Responsive(f.maxLatency, r))
  {
  }

  /** Every returned result is responsive and comes from the input, in order. */
  lemma RespondersExactly(maxLatency: int, results: seq<TestResult>, r: TestResult)
    ensures r in Responders(maxLatency, results) <==> r in results && Responsive(maxLatency, r)
    ensures IsSubsequence(Responders(maxLatency, results), results)
  {
    FilterCount(results, x => Responsive(maxLatency, x), r);
    FilterIsSubsequence(results, x => Responsive(maxLatency, x));
  }

  // ---------------------------------------------------------------------
  // Country tables
  // ---------------------------------------------------------------------

  const WHITE_FLAG: string := "🏳️"
  const UNKNOWN_NAME: string := "未知"
  const UNKNOWN_CODE: string := "UNKNOWN"

  const COUNTRY_FLAGS: map<string, string> := map[
      "US" := "🇺🇸", "CN" := "🇨🇳", "GB" := "🇬🇧", "UK" := "🇬🇧", "JP" := "🇯🇵", "DE" := "🇩🇪",
      "FR" := "🇫🇷", "RU" := "🇷🇺", "SG" := "🇸🇬", "HK" := "🇭🇰", "TW" := "🇹🇼", "KR" := "🇰🇷",
      "CA" := "🇨🇦", "AU" := "🇦🇺", "NL" := "🇳🇱", "IT" := "🇮🇹", "ES" := "🇪🇸", "SE" := "🇸🇪",
      "NO" := "🇳🇴", "DK" := "🇩🇰", "FI" := "🇫🇮", "CH" := "🇨🇭", "AT" := "🇦🇹", "BE" := "🇧🇪",
      UNKNOWN_CODE := WHITE_FLAG]

  const COUNTRY_NAMES: map<string, string> := map[
      "US" := "美国", "CN" := "中国", "GB" := "英国", "UK" := "英国", "JP" := "日本", "DE" := "德国",
      "FR" := "法国", "RU" := "俄罗斯", "SG" := "新加坡", "HK" := "香港", "TW" := "台湾", "KR" := "韩国",
      "CA" := "加拿大", "AU" := "澳大利亚", "NL" := "荷兰", "IT" := "意大利", "ES" := "西班牙", "SE" := "瑞典",
      "NO" := "挪威", "DK" := "丹麦", "FI" := "芬兰", "CH" := "瑞士", "AT" := "奥地利", "BE" := "比利时",
      UNKNOWN_CODE := UNKNOWN_NAME]

  /** getCountryFlag: the flag of the upper-cased code, the white flag for a
      code not in the table. */
  function CountryFlag(code: string): string {
    var key := ToUpper(code);
    if key in COUNTRY_FLAGS then COUNTRY_FLAGS[key] else WHITE_FLAG
  }

  /** getCountryName: the name of the upper-cased code, 未知 for a code not in
      the table. */
  function CountryName(code: string): string {
    var key := ToUpper(code);
    if key in COUNTRY_NAMES then COUNTRY_NAMES[key] else UNKNOWN_NAME
  }

  /** The two tables know the same codes. */
  lemma TablesAgree()
    ensures COUNTRY_FLAGS.Keys == COUNTRY_NAMES.Keys
  {
  }

  /** Every code in the tables is in upper case, so a lookup by ToUpper can
      reach it. */
  lemma CodesUpperCase()
    ensures forall k :: k in COUNTRY_FLAGS ==> ToUpper(k) == k
  {
  }

  /** The lookups do not depend on the case of the code. */
  lemma LookupIgnoresCase(code: string)
    ensures CountryFlag(code) == CountryFlag(ToUpper(code))
    ensures CountryName(code) == CountryName(ToUpper(code))
  {
    ToUpperIdempotent(code);
  }

  /** The white flag is shown exactly when the name is unknown: for codes
      outside the tables and for UNKNOWN itself. */
  lemma WhiteFlagIffUnknownName(code: string)
    ensures CountryFlag(code) == WHITE_FLAG <==> CountryName(code) == UNKNOWN_NAME
    ensures CountryName(code) == UNKNOWN_NAME <==> ToUpper(code) !in COUNTRY_NAMES || ToUpper(code) == UNKNOWN_CODE
  {
  }

  /** UK is an alias of GB, in either case. */
  lemma UnitedKingdomAlias()
    ensures CountryFlag("uk") == CountryFlag("GB") == "🇬🇧"
    ensures CountryName("uk") == CountryName("GB") == "英国"
  {
    assert ToUpper("uk") == "UK";
    assert ToUpper("GB") == "GB";
  }
}
