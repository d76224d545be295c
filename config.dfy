/**
 * The configuration object (src/config.py) over an environment modelled as
 * a map from variable names to values; a name not in the map is unset.
 */
module Config {
  import opened Wrappers
  import opened Text

  type Env = map<string, string>

  /** `os.getenv(name, default)` */
  function Getenv(env: Env, name: string, default: string): string {
    if name in env then env[name] else default
  }

  /** A credential setting: the variable `name`, whitespace-stripped, `""` when unset. */
  function StrippedSetting(env: Env, name: string): (k: string)
    ensures name !in env ==> k == ""
    ensures k == [] || (!IsSpace(k[0]) && !IsSpace(k[|k| - 1]))
    ensures |k| <= |Getenv(env, name, "")|
    ensures name in env && (env[name] == [] || (!IsSpace(env[name][0]) && !IsSpace(env[name][|env[name]| - 1])))
      ==> k == env[name]
  {
    Strip(Getenv(env, name, ""), StrSpace)
  }

  /** `KRAKEN_API_KEY` */
  function KrakenApiKey(env: Env): string {
    StrippedSetting(env, "KRAKEN_API_KEY")
  }

  /** `KRAKEN_SECRET` */
  function KrakenSecret(env: Env): string {
    StrippedSetting(env, "KRAKEN_SECRET")
  }

  /** `IS_PRODUCTION`: `bool(os.getenv("RAILWAY_ENVIRONMENT"))`. */
  predicate IsProduction(env: Env)
    ensures IsProduction(env) <==> |Getenv(env, "RAILWAY_ENVIRONMENT", "")| > 0
  {
    "RAILWAY_ENVIRONMENT" in env && env["RAILWAY_ENVIRONMENT"] != ""
  }

  /** `DATABASE_URL`: `DATABASE_URL` in production, `PUBLIC_DATABASE_URL` otherwise, `""` when unset. */
  function DatabaseUrl(env: Env): (u: string)
    ensures IsProduction(env) ==> u == Getenv(env, "DATABASE_URL", "")
    ensures !IsProduction(env) ==> u == Getenv(env, "PUBLIC_DATABASE_URL", "")
  {
    if IsProduction(env) then Getenv(env, "DATABASE_URL", "")
    else Getenv(env, "PUBLIC_DATABASE_URL", "")
  }

  /** The port text read by `WEB_SERVER_PORT` before `int(...)`. */
  function PortText(env: Env): string {
    if IsProduction(env) then Getenv(env, "PORT", "3000")
    else Getenv(env, "WEB_SERVER_PORT", "3000")
  }

  /** `WEB_SERVER_PORT`: `int(...)` of `PORT` in production, else of `WEB_SERVER_PORT`; None when `int` raises. */
  function WebServerPort(env: Env): (p: Option<int>)
    ensures IsProduction(env) && "PORT" !in env ==> p == Some(3000)
    ensures !IsProduction(env) && "WEB_SERVER_PORT" !in env ==> p == Some(3000)
    ensures p.Some? <==> Unsigned(Strip(PortText(env), NumberSpace)) != [] && AllDigits(Unsigned(Strip(PortText(env), NumberSpace)))
    ensures var t := Strip(PortText(env), NumberSpace); t != [] && AllDigits(t) ==> p == Some(DigitsValue(t) as int)
  {
    DefaultPortParses();
    ParseIntOfDigits(PortText(env));
    ParseInt(PortText(env))
  }

  lemma DefaultPortParses()
    ensures ParseInt("3000") == Some(3000)
  {
    DefaultPortStrips();
    DefaultPortValue();
  }

  lemma DefaultPortStrips()
    ensures Strip("3000", NumberSpace) == "3000"
  {
    var s := "3000";
    assert !IsBlank(NumberSpace, s[0]) && !IsBlank(NumberSpace, s[3]);
    assert TrimLeft(s, NumberSpace) == s;
    assert TrimRight(s, NumberSpace) == s;
  }

  lemma DefaultPortValue()
    ensures DigitsValue("3000") == 3000
    ensures forall k :: 0 <= k < |"3000"| ==> IsDigit("3000"[k])
  {
    var s := "3000";
    assert s[..3] == "300" && s[..3][..2] == "30" && s[..3][..2][..1] == "3" && s[..3][..2][..1][..0] == "";
    assert DigitsValue("3") == 3;
    assert DigitsValue("30") == 30;
    assert DigitsValue("300") == 300;
  }

  /** `PORT=" 8080 "` in production gives the port 8080. */
  lemma PaddedPortParses(env: Env)
    requires IsProduction(env) && "PORT" in env && env["PORT"] == " 8080 "
    ensures WebServerPort(env) == Some(8080)
  {
    var d := "8080";
    assert env["PORT"] == " " + d + " ";
    assert forall k :: 0 <= k < |d| ==> IsDigit(d[k]);
    assert d[..3] == "808" && d[..3][..2] == "80" && d[..3][..2][..1] == "8" && d[..3][..2][..1][..0] == "";
    assert DigitsValue("8") == 8;
    assert DigitsValue("80") == 80;
    assert DigitsValue("808") == 808;
    assert DigitsValue(d) == 8080;
    ParseIntPadded(" ", d, " ");
  }

  /** Production reads only `DATABASE_URL` and `PORT`; development only `PUBLIC_DATABASE_URL` and `WEB_SERVER_PORT`. */
  lemma SettingsIgnoreOtherEnvironment(env: Env, v: string)
    ensures IsProduction(env) ==> (DatabaseUrl(env) == DatabaseUrl(env["PUBLIC_DATABASE_URL" := v])
      && WebServerPort(env) == WebServerPort(env["WEB_SERVER_PORT" := v]))
    ensures !IsProduction(env) ==> (DatabaseUrl(env) == DatabaseUrl(env["DATABASE_URL" := v])
      && WebServerPort(env) == WebServerPort(env["PORT" := v]))
  {
    var e1 := env["PUBLIC_DATABASE_URL" := v];
    var e2 := env["WEB_SERVER_PORT" := v];
    var e3 := env["DATABASE_URL" := v];
    var e4 := env["PORT" := v];
    assert IsProduction(e1) == IsProduction(env) && IsProduction(e2) == IsProduction(env);
    assert IsProduction(e3) == IsProduction(env) && IsProduction(e4) == IsProduction(env);
    assert IsProduction(env) ==> PortText(e2) == PortText(env);
    assert !IsProduction(env) ==> PortText(e4) == PortText(env);
  }

  // ---------------------------------------------------------------------
  // _redact_key
  // ---------------------------------------------------------------------

  /** `_redact_key`: None for a missing or empty key, the two first and two last characters around `***` for a key longer than 4, else `****`. */
  function RedactKey(key: Option<string>): (r: Option<string>)
    ensures r.None? <==> key.None? || key.value == ""
    ensures r.Some? && |key.value| > 4 ==> (|r.value| == 7
      && r.value[..2] == key.value[..2] && r.value[2..5] == "***" && r.value[5..] == key.value[|key.value| - 2..])
    ensures r.Some? && |key.value| <= 4 ==> r.value == "****"
  {
    match key
    case None => None
    case Some(k) =>
      if k == "" then None
      else if |k| > 4 then Some(k[..2] + "***" + k[|k| - 2..])
      else Some("****")
  }

  /** A redacted key depends on nothing but its two first and two last characters, not even its length. */
  lemma RedactRevealsOnlyEnds(a: string, b: string)
    requires |a| > 4 && |b| > 4
    requires a[..2] == b[..2] && a[|a| - 2..] == b[|b| - 2..]
    ensures RedactKey(Some(a)) == RedactKey(Some(b))
  {
  }

  /** All short keys look alike once redacted. */
  lemma RedactShortKeysAlike(a: string, b: string)
    requires 0 < |a| <= 4 && 0 < |b| <= 4
    ensures RedactKey(Some(a)) == RedactKey(Some(b)) == Some("****")
  {
  }

  // ---------------------------------------------------------------------
  // _validate_core
  // ---------------------------------------------------------------------

  const CoreVariables: seq<string> := ["KRAKEN_API_KEY", "KRAKEN_SECRET", "DATABASE_URL"]

  /** The position of a core variable in `CoreVariables`. */
  function Rank(name: string): nat {
    if name == "KRAKEN_API_KEY" then 0 else if name == "KRAKEN_SECRET" then 1 else 2
  }

  /** The names `_validate_core` lists as missing, in the order it checks them. */
  function Missing(env: Env): (m: seq<string>)
    ensures "KRAKEN_API_KEY" in m <==> KrakenApiKey(env) == ""
    ensures "KRAKEN_SECRET" in m <==> KrakenSecret(env) == ""
    ensures "DATABASE_URL" in m <==> DatabaseUrl(env) == ""
    ensures |m| <= 3
  {
    var noKey, noSecret, noUrl := KrakenApiKey(env) == "", KrakenSecret(env) == "", DatabaseUrl(env) == "";
    MissingOf(noKey, noSecret, noUrl)
  }

  function MissingOf(noKey: bool, noSecret: bool, noUrl: bool): (m: seq<string>)
    ensures forall n :: n in m <==>
      (n == "KRAKEN_API_KEY" && noKey) || (n == "KRAKEN_SECRET" && noSecret) || (n == "DATABASE_URL" && noUrl)
    ensures forall i, j :: 0 <= i < j < |m| ==> Rank(m[i]) < Rank(m[j])
    ensures ("KRAKEN_API_KEY" in m <==> noKey) && ("KRAKEN_SECRET" in m <==> noSecret) && ("DATABASE_URL" in m <==> noUrl)
    ensures |m| <= 3
  {
    (if noKey then ["KRAKEN_API_KEY"] else [])
    + (if noSecret then ["KRAKEN_SECRET"] else [])
    + (if noUrl then ["DATABASE_URL"] else [])
  }

  /** `_validate_core`: builds the missing list step by step; `raised` is the EnvironmentError. */
  method ValidateCore(env: Env) returns (missing: seq<string>, raised: bool)
    ensures missing == Missing(env)
    ensures raised <==> missing != []
  {
    var noKey, noSecret, noUrl := KrakenApiKey(env) == "", KrakenSecret(env) == "", DatabaseUrl(env) == "";
    missing := [];
    if noKey {
      missing := missing + ["KRAKEN_API_KEY"];
    }
    ghost var first := missing;
    if noSecret {
      missing := missing + ["KRAKEN_SECRET"];
    }
    ghost var second := missing;
    if noUrl {
      missing := missing + ["DATABASE_URL"];
    }
    assert first == (if noKey then ["KRAKEN_API_KEY"] else []);
    assert second == first + (if noSecret then ["KRAKEN_SECRET"] else []);
    assert missing == second + (if noUrl then ["DATABASE_URL"] else []);
    assert missing == MissingOf(noKey, noSecret, noUrl);
    raised := missing != [];
  }

  /** A key or secret made only of whitespace is reported missing, as if it were unset. */
  lemma BlankCredentialsAreMissing(env: Env)
    requires "KRAKEN_API_KEY" in env
    requires forall k :: 0 <= k < |env["KRAKEN_API_KEY"]| ==> IsSpace(env["KRAKEN_API_KEY"][k])
    ensures "KRAKEN_API_KEY" in Missing(env)
    ensures "KRAKEN_SECRET" in Missing(env) <==> Strip(Getenv(env, "KRAKEN_SECRET", ""), StrSpace) == ""
  {
    StripAllSpace(env["KRAKEN_API_KEY"], StrSpace);
  }
}
