/**
 * dev-digest's root configuration (common/config.go): the per-system sections, the
 * `${VAR}` expansion applied to credentials, the default per-module timeout and the
 * minimal validation. The process environment is a map parameter; durations are
 * nanosecond counts, as Go's time.Duration is.
 */
module DigestConfig {
  import opened Basics

  /** time.Second, in nanoseconds. */
  const Second: int := 1_000_000_000

  /** The per-module timeout used when the console section sets none. */
  const FallbackTimeout: int := 20 * Second

  const TeamCityBaseURLRequired := "teamcity.base_url is required when teamcity section is present"
  const AzureOrganizationRequired := "azure.organization is required when azure section is present"

  /** `color` is None when the YAML leaves it unset (auto). */
  datatype ConsoleConfig = ConsoleConfig(color: Option<bool>, timeout: int)

  datatype TeamCityConfig = TeamCityConfig(
    baseURL: string, token: string, branch: string, builds: seq<string>, timeout: int)

  datatype AzureBoardsConfig = AzureBoardsConfig(project: string, team: string)

  datatype AzureReposConfig = AzureReposConfig

  datatype AzureConfig = AzureConfig(
    organization: string,
    pat: string,
    boards: Option<AzureBoardsConfig>,
    repos: Option<AzureReposConfig>,
    timeout: int)

  /** The TeamCity half of Validate: the section is absent or names a base URL. */
  predicate TeamCityValid(tc: Option<TeamCityConfig>) {
    tc.None? || tc.value.baseURL != ""
  }

  /** The Azure half of Validate: the section is absent or names an organization. */
  predicate AzureValid(az: Option<AzureConfig>) {
    az.None? || az.value.organization != ""
  }

  /**
   * The configuration's sections as a value: what a module's Enabled and Run see, and
   * the receiver of the two read-only methods of common.Config.
   */
  datatype ConfigView = ConfigView(
    console: ConsoleConfig, teamCity: Option<TeamCityConfig>, azure: Option<AzureConfig>)
  {
    /** The timeout every module gets unless its own section overrides it; always positive. */
    function DefaultPerModuleTimeout(): (d: int)
      ensures d > 0
      ensures console.timeout > 0 ==> d == console.timeout
      ensures console.timeout <= 0 ==> d == FallbackTimeout
    {
      if console.timeout > 0 then console.timeout else FallbackTimeout
    }

    /** None (Go's nil error) exactly when both present sections carry their required field; TeamCity is checked first. */
    function Validate(): (e: Option<string>)
      ensures e.None? <==> TeamCityValid(teamCity) && AzureValid(azure)
      ensures !TeamCityValid(teamCity) ==> e == Some(TeamCityBaseURLRequired)
      ensures TeamCityValid(teamCity) && !AzureValid(azure) ==> e == Some(AzureOrganizationRequired)
    {
      if teamCity.Some? && teamCity.value.baseURL == "" then Some(TeamCityBaseURLRequired)
      else if azure.Some? && azure.value.organization == "" then Some(AzureOrganizationRequired)
      else None
    }
  }

  /**
   * The loaded configuration. A nil section pointer is None; an absent section
   * disables the modules that depend on it.
   */
  class Config {
    var console: ConsoleConfig
    var teamCity: Option<TeamCityConfig>
    var azure: Option<AzureConfig>

    constructor (console: ConsoleConfig, teamCity: Option<TeamCityConfig>, azure: Option<AzureConfig>)
      ensures this.console == console && this.teamCity == teamCity && this.azure == azure
    {
      this.console := console;
      this.teamCity := teamCity;
      this.azure := azure;
    }

    /** The configuration's current sections. */
    function View(): (v: ConfigView)
      reads this
      ensures v.console == console && v.teamCity == teamCity && v.azure == azure
    {
      ConfigView(console, teamCity, azure)
    }

    /** Expands `${VAR}` in the TeamCity token and the Azure PAT; nothing else changes. */
    method ResolveEnv(env: map<string, string>)
      modifies this
      ensures console == old(console)
      ensures old(teamCity).None? ==> teamCity.None?
      ensures old(teamCity).Some? ==>
        teamCity == Some(old(teamCity).value.(token := Expanded(old(teamCity).value.token, env)))
      ensures old(azure).None? ==> azure.None?
      ensures old(azure).Some? ==>
        azure == Some(old(azure).value.(pat := Expanded(old(azure).value.pat, env)))
    {
      if teamCity.Some? {
        var token := ExpandEnv(teamCity.value.token, env);
        teamCity := Some(teamCity.value.(token := token));
      }
      if azure.Some? {
        var pat := ExpandEnv(azure.value.pat, env);
        azure := Some(azure.value.(pat := pat));
      }
    }
  }

  /** os.Getenv: the variable's value, or "" when it is unset. */
  function Lookup(env: map<string, string>, key: string): string {
    if key in env then env[key] else ""
  }

  /** Index of the first '}' at or after `j`, or |s| when there is none. */
  function CloseFrom(s: string, j: nat): (k: nat)
    requires j <= |s|
    ensures j <= k <= |s|
    ensures k < |s| ==> s[k] == '}'
    ensures forall m :: j <= m < k ==> s[m] != '}'
    decreases |s| - j
  {
    if j == |s| || s[j] == '}' then j else CloseFrom(s, j + 1)
  }

  /** A `${` starts at position i of `s` and a `}` closes it. */
  predicate OpensAt(s: string, i: nat) {
    i + 1 < |s| && s[i] == '$' && s[i + 1] == '{' && CloseFrom(s, i + 2) < |s|
  }

  /** Position of the `}` that closes the placeholder opened at i. */
  function Close(s: string, i: nat): (k: nat)
    requires OpensAt(s, i)
    ensures i + 2 <= k < |s| && s[k] == '}'
  {
    CloseFrom(s, i + 2)
  }

  /** The variable name of the placeholder opened at i: the text between `${` and `}`. */
  function Key(s: string, i: nat): string
    requires OpensAt(s, i)
  {
    s[i + 2..Close(s, i)]
  }

  /**
   * What expandEnv is meant to compute, given the output `acc` produced for s[..i]:
   * each closed `${KEY}` contributes the value of KEY and scanning resumes after the
   * `}`; every other rune is copied unchanged.
   */
  function ExpandFrom(s: string, i: nat, acc: string, env: map<string, string>): string
    requires i <= |s|
    decreases |s| - i
  {
    if i == |s| then acc
    else if OpensAt(s, i) then ExpandFrom(s, Close(s, i) + 1, acc + Lookup(env, Key(s, i)), env)
    else ExpandFrom(s, i + 1, acc + [s[i]], env)
  }

  function Expanded(s: string, env: map<string, string>): string {
    ExpandFrom(s, 0, [], env)
  }

  /** expandEnv: the scanning loop of the source, with the rune copied unchanged. */
  method ExpandEnv(s: string, env: map<string, string>) returns (out: string)
    ensures out == Expanded(s, env)
  {
    if s == "" {
      return s;
    }
    out := "";
    var i := 0;
    while i < |s|
      invariant 0 <= i <= |s|
      invariant ExpandFrom(s, i, out, env) == Expanded(s, env)
    {
      if s[i] == '$' && i + 1 < |s| && s[i + 1] == '{' {
        var j := i + 2;
        while j < |s| && s[j] != '}'
          invariant i + 2 <= j <= |s|
          invariant CloseFrom(s, j) == CloseFrom(s, i + 2)
        {
          j := j + 1;
        }
        if j < |s| {
          var key := s[i + 2..j];
          out := out + Lookup(env, key);
          i := j + 1;
          continue;
        }
      }
      out := out + [s[i]];
      i := i + 1;
    }
  }

  /** What is already produced is kept as a prefix: the output for the rest is appended to it. */
  lemma {:induction false} ExpandFromPrefix(s: string, i: nat, pre: string, acc: string, env: map<string, string>)
    requires i <= |s|
    ensures ExpandFrom(s, i, pre + acc, env) == pre + ExpandFrom(s, i, acc, env)
    decreases |s| - i
  {
    if i < |s| {
      var piece := if OpensAt(s, i) then Lookup(env, Key(s, i)) else [s[i]];
      var next := if OpensAt(s, i) then Close(s, i) + 1 else i + 1;
      AppendAssociative(pre, acc, piece);
      ExpandFromPrefix(s, next, pre, acc + piece, env);
    }
  }

  /** True when `${` occurs nowhere in `s`. */
  predicate NoPlaceholderStart(s: string) {
    forall i :: 0 <= i < |s| - 1 ==> !(s[i] == '$' && s[i + 1] == '{')
  }

  lemma {:induction false} ExpandFromIdentity(s: string, i: nat, acc: string, env: map<string, string>)
    requires i <= |s| && NoPlaceholderStart(s)
    ensures ExpandFrom(s, i, acc, env) == acc + s[i..]
    decreases |s| - i
  {
    if i < |s| {
      ExpandFromIdentity(s, i + 1, acc + [s[i]], env);
      AppendAssociative(acc, [s[i]], s[i + 1..]);
      assert s[i..] == [s[i]] + s[i + 1..];
    }
  }

  /** Text without `${` is returned unchanged. */
  lemma ExpandedIdentity(s: string, env: map<string, string>)
    requires NoPlaceholderStart(s)
    ensures Expanded(s, env) == s
  {
    ExpandFromIdentity(s, 0, [], env);
  }

  lemma {:induction false} ExpandFromUnclosed(s: string, i: nat, acc: string, env: map<string, string>)
    requires i <= |s|
    requires forall k :: 0 <= k < |s| ==> s[k] != '}'
    ensures ExpandFrom(s, i, acc, env) == acc + s[i..]
    decreases |s| - i
  {
    if i < |s| {
      assert !OpensAt(s, i);
      ExpandFromUnclosed(s, i + 1, acc + [s[i]], env);
      AppendAssociative(acc, [s[i]], s[i + 1..]);
      assert s[i..] == [s[i]] + s[i + 1..];
    }
  }

  /** A `${` that no `}` closes is copied through literally: text without `}` is unchanged. */
  lemma ExpandedUnclosed(s: string, env: map<string, string>)
    requires forall k :: 0 <= k < |s| ==> s[k] != '}'
    ensures Expanded(s, env) == s
  {
    ExpandFromUnclosed(s, 0, [], env);
  }

  lemma {:induction false} CloseFromShift(p: string, r: string, j: nat)
    requires j <= |r|
    ensures CloseFrom(p + r, |p| + j) == |p| + CloseFrom(r, j)
    decreases |r| - j
  {
    if j < |r| {
      assert (p + r)[|p| + j] == r[j];
      CloseFromShift(p, r, j + 1);
    }
  }

  /** Position |p| + i of `p + r` opens a placeholder exactly when position i of `r` does, with the same key. */
  lemma OpenShift(p: string, r: string, i: nat)
    requires i < |r|
    ensures OpensAt(p + r, |p| + i) <==> OpensAt(r, i)
    ensures OpensAt(r, i) ==> Close(p + r, |p| + i) == |p| + Close(r, i) && Key(p + r, |p| + i) == Key(r, i)
  {
    var s := p + r;
    assert s[|p| + i] == r[i];
    if i + 1 < |r| {
      assert s[|p| + i + 1] == r[i + 1];
      CloseFromShift(p, r, i + 2);
      if OpensAt(r, i) {
        assert s[|p| + i + 2..|p| + Close(r, i)] == r[i + 2..Close(r, i)];
      }
    }
  }

  /** Scanning the tail of `p + r` is scanning `r`: what comes before never matters. */
  lemma {:induction false} ExpandFromShift(p: string, r: string, i: nat, acc: string, env: map<string, string>)
    requires i <= |r|
    ensures ExpandFrom(p + r, |p| + i, acc, env) == ExpandFrom(r, i, acc, env)
    decreases |r| - i
  {
    if i < |r| {
      var s := p + r;
      OpenShift(p, r, i);
      assert s[|p| + i] == r[i];
      if OpensAt(r, i) {
        ExpandFromShift(p, r, Close(r, i) + 1, acc + Lookup(env, Key(r, i)), env);
      } else {
        ExpandFromShift(p, r, i + 1, acc + [r[i]], env);
      }
    }
  }

  lemma {:induction false} CloseOfKey(key: string, rest: string, j: nat)
    requires j <= |key|
    requires forall k :: 0 <= k < |key| ==> key[k] != '}'
    ensures CloseFrom(key + "}" + rest, j) == |key|
    decreases |key| - j
  {
    if j < |key| {
      CloseOfKey(key, rest, j + 1);
    }
  }

  /**
   * A closed placeholder is replaced by the variable's value and scanning resumes after
   * the `}`: the substituted value is never itself expanded.
   */
  lemma SubstitutionIsFinal(key: string, rest: string, env: map<string, string>)
    requires forall k :: 0 <= k < |key| ==> key[k] != '}'
    ensures Expanded("${" + key + "}" + rest, env) == Lookup(env, key) + Expanded(rest, env)
  {
    var p := "${" + key + "}";
    var s := p + rest;
    var value := Lookup(env, key);
    assert s == "${" + (key + "}" + rest);
    CloseFromShift("${", key + "}" + rest, 0);
    CloseOfKey(key, rest, 0);
    assert CloseFrom(s, 2) == |key| + 2;
    assert OpensAt(s, 0);
    assert Key(s, 0) == key && Close(s, 0) + 1 == |p|;
    assert [] + value == value;
    assert Expanded(s, env) == ExpandFrom(s, |p|, value, env);
    ExpandFromShift(p, rest, 0, value, env);
    ExpandFromPrefix(rest, 0, value, [], env);
    assert value + [] == value;
  }

  /** A `$` that is not followed by `{` is copied through. */
  lemma LoneDollar(rest: string, env: map<string, string>)
    requires rest == [] || rest[0] != '{'
    ensures Expanded("$" + rest, env) == "$" + Expanded(rest, env)
  {
    assert !OpensAt("$" + rest, 0);
    assert [] + [("$" + rest)[0]] == "$";
    assert Expanded("$" + rest, env) == ExpandFrom("$" + rest, 1, "$", env);
    ExpandFromShift("$", rest, 0, "$", env);
    ExpandFromPrefix(rest, 0, "$", [], env);
    assert "$" + [] == "$";
  }

  // ---------------------------------------------------------------------------
  // The source as written copies `string(s[i])`: s[i] is a BYTE of the UTF-8 text,
  // and converting a byte to a string yields the rune with that code point. A
  // non-ASCII rune therefore comes out as one Latin-1 rune per byte of its encoding.
  // ---------------------------------------------------------------------------

  /** The UTF-8 encoding of a rune, byte by byte. */
  function Utf8(c: char): (bytes: seq<int>)
    ensures 1 <= |bytes| <= 4
    ensures forall i :: 0 <= i < |bytes| ==> 0 <= bytes[i] < 256
  {
    var n := c as int;
    if n < 0x80 then [n]
    else if n < 0x800 then [0xC0 + n / 64, 0x80 + n % 64]
    else if n < 0x10000 then [0xE0 + n / 4096, 0x80 + (n / 64) % 64, 0x80 + n % 64]
    else [0xF0 + n / 262144, 0x80 + (n / 4096) % 64, 0x80 + (n / 64) % 64, 0x80 + n % 64]
  }

  /** `string(b)` for each byte b of the rune's encoding. */
  function ByteWiseCopy(c: char): (r: string)
    ensures (c as int) < 0x80 ==> r == [c]
  {
    var bytes := Utf8(c);
    seq(|bytes|, i requires 0 <= i < |bytes| => bytes[i] as char)
  }

  /** expandEnv exactly as written, given the output `acc` for s[..i]: every copied rune goes through ByteWiseCopy. */
  function ExpandFromAsWritten(s: string, i: nat, acc: string, env: map<string, string>): string
    requires i <= |s|
    decreases |s| - i
  {
    if i == |s| then acc
    else if OpensAt(s, i) then ExpandFromAsWritten(s, Close(s, i) + 1, acc + Lookup(env, Key(s, i)), env)
    else ExpandFromAsWritten(s, i + 1, acc + ByteWiseCopy(s[i]), env)
  }

  function ExpandedAsWritten(s: string, env: map<string, string>): string {
    ExpandFromAsWritten(s, 0, [], env)
  }

  predicate IsAscii(s: string) {
    forall i :: 0 <= i < |s| ==> (s[i] as int) < 0x80
  }

  lemma {:induction false} AsWrittenAgreesFrom(s: string, i: nat, acc: string, env: map<string, string>)
    requires i <= |s| && IsAscii(s)
    ensures ExpandFromAsWritten(s, i, acc, env) == ExpandFrom(s, i, acc, env)
    decreases |s| - i
  {
    if i < |s| {
      if OpensAt(s, i) {
        AsWrittenAgreesFrom(s, Close(s, i) + 1, acc + Lookup(env, Key(s, i)), env);
      } else {
        assert (s[i] as int) < 0x80;
        assert ByteWiseCopy(s[i]) == [s[i]];
        AsWrittenAgreesFrom(s, i + 1, acc + [s[i]], env);
      }
    }
  }

  /** On ASCII text the code as written and the intended expansion agree. */
  lemma AsWrittenAgreesOnAscii(s: string, env: map<string, string>)
    requires IsAscii(s)
    ensures ExpandedAsWritten(s, env) == Expanded(s, env)
  {
    AsWrittenAgreesFrom(s, 0, [], env);
  }

  /** The code as written turns "é" (U+00E9) into "Ã©" (U+00C3 U+00A9); the intended expansion keeps it. */
  lemma AsWrittenMangles(env: map<string, string>)
    ensures ExpandedAsWritten("é", env) == "Ã©"
    ensures Expanded("é", env) == "é"
  {
    assert !OpensAt("é", 0);
    assert Utf8('é') == [0xC3, 0xA9];
  }
}
