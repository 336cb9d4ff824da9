/** The environment configuration of src/config/env.ts: the configuration record read from
    the build-time variables, boolean parsing, production validation, the environment and
    service predicates, and runtime feature-flag updates. The variables are passed in as a
    map from name to value; a name absent from the map is undefined. */
module EnvConfig {
  import opened Wrappers
  import Str

  type RawEnv = map<string, string>

  datatype Config = Config(
    appName: string, appVersion: string, appEnv: string,
    apiBaseUrl: string, websocketUrl: string,
    openaiApiKey: Option<string>, mapboxAccessToken: Option<string>,
    googleAnalyticsId: Option<string>, sentryDsn: Option<string>, hotjarId: Option<string>,
    enableAiFeatures: bool, enableRealTime: bool, enableAnalytics: bool, enableExport: bool,
    debugMode: bool, mockApi: bool, showDevTools: bool)

  function Lookup(raw: RawEnv, name: string): Option<string> {
    if name in raw then Some(raw[name]) else None
  }

  /** `value || fallback` on an optional string: undefined and "" both give the fallback. */
  function OrDefault(v: Option<string>, fallback: string): (r: string)
    ensures v.Some? && v.value != "" ==> r == v.value
    ensures v.None? || v.value == "" ==> r == fallback
  {
    if v.Some? && v.value != "" then v.value else fallback
  }

  /** The characters removed by `.replace(/["'\r\n]/g, "")`. */
  predicate Dropped(c: char) { c == '"' || c == '\'' || c == '\r' || c == '\n' }

  function Strip(s: string): (r: string)
    ensures forall i :: 0 <= i < |r| ==> !Dropped(r[i])
    decreases |s|
  {
    if s == [] then [] else (if Dropped(s[0]) then [] else [s[0]]) + Strip(s[1..])
  }

  /** `parseBoolean(value, defaultValue)`. */
  function ParseBoolean(value: Option<string>, defaultValue: bool): bool {
    match value
    case None => defaultValue
    case Some(v) => Str.Lower(Strip(Str.Trim(v))) == "true"
  }

  lemma {:induction false} StripPlain(s: string)
    requires forall i :: 0 <= i < |s| ==> !Dropped(s[i])
    ensures Strip(s) == s
    decreases |s|
  {
    if s != [] { StripPlain(s[1..]); }
  }

  lemma {:induction false} StripAppend(a: string, b: string)
    ensures Strip(a + b) == Strip(a) + Strip(b)
    decreases |a|
  {
    if a == [] {
      assert a + b == b;
    } else {
      assert (a + b)[1..] == a[1..] + b;
      StripAppend(a[1..], b);
    }
  }

  /** The default applies only to an undefined variable; a defined one is true exactly for
      "true" in any letter case, and quotes wrapped around the word do not matter. */
  lemma ParseBooleanProps(v: string, d: bool)
    ensures ParseBoolean(None, d) == d
    ensures ParseBoolean(Some(v), true) == ParseBoolean(Some(v), false)
    ensures Str.Lower(v) == "true" ==> ParseBoolean(Some(v), d)
    ensures ParseBoolean(Some("\"" + v + "\""), d) == ParseBoolean(Some(v), d) || Str.Trim(v) != v
  {
    if Str.Lower(v) == "true" {
      TrueParses(v, d);
    }
    if Str.Trim(v) == v {
      QuotedParses(v, d);
    }
  }

  lemma TrueParses(v: string, d: bool)
    requires Str.Lower(v) == "true"
    ensures ParseBoolean(Some(v), d)
  {
    LowerTrueTrim(v);
    StripPlain(v);
  }

  lemma QuotedParses(v: string, d: bool)
    requires Str.Trim(v) == v
    ensures ParseBoolean(Some("\"" + v + "\""), d) == ParseBoolean(Some(v), d)
  {
    QuotedTrim(v);
    StripAppend("\"" + v, "\"");
    StripAppend("\"", v);
  }

  lemma LowerTrueTrim(v: string)
    requires Str.Lower(v) == "true"
    ensures Str.Trim(v) == v
    ensures forall i :: 0 <= i < |v| ==> !Dropped(v[i])
  {
    assert forall i :: 0 <= i < 4 ==> Str.LowerChar(v[i]) == "true"[i];
    assert !Str.IsSpace(v[0]) && !Str.IsSpace(v[3]);
    Str.TrimNoOuterSpace(v);
  }

  /** A quoted word with no outer white space trims to itself. */
  lemma QuotedTrim(v: string)
    requires Str.Trim(v) == v
    ensures Str.Trim("\"" + v + "\"") == "\"" + v + "\""
  {
    Str.TrimNoOuterSpace("\"" + v + "\"");
  }

  /** `loadConfig`. */
  function LoadConfig(raw: RawEnv): Config {
    Config(
      OrDefault(Lookup(raw, "VITE_APP_NAME"), "Charlotte Economic Development Platform"),
      OrDefault(Lookup(raw, "VITE_APP_VERSION"), "1.0.0"),
      OrDefault(Lookup(raw, "VITE_APP_ENV"), "development"),
      OrDefault(Lookup(raw, "VITE_API_BASE_URL"), "http://localhost:3001/api/v1"),
      OrDefault(Lookup(raw, "VITE_WEBSOCKET_URL"), "ws://localhost:3001"),
      Lookup(raw, "VITE_OPENAI_API_KEY"), Lookup(raw, "VITE_MAPBOX_ACCESS_TOKEN"),
      Lookup(raw, "VITE_GOOGLE_ANALYTICS_ID"), Lookup(raw, "VITE_SENTRY_DSN"), Lookup(raw, "VITE_HOTJAR_ID"),
      ParseBoolean(Lookup(raw, "VITE_ENABLE_AI_FEATURES"), false),
      ParseBoolean(Lookup(raw, "VITE_ENABLE_REAL_TIME"), true),
      ParseBoolean(Lookup(raw, "VITE_ENABLE_ANALYTICS"), false),
      ParseBoolean(Lookup(raw, "VITE_ENABLE_EXPORT"), true),
      ParseBoolean(Lookup(raw, "VITE_DEBUG_MODE"), false),
      ParseBoolean(Lookup(raw, "VITE_MOCK_API"), true),
      ParseBoolean(Lookup(raw, "VITE_SHOW_DEV_TOOLS"), false))
  }

  /** With no variables set the configuration is the development default, which passes
      validation. */
  lemma DefaultConfig()
    ensures var c := LoadConfig(map[]);
      c.appEnv == "development" && c.apiBaseUrl == "http://localhost:3001/api/v1"
      && !c.enableAiFeatures && c.enableRealTime && !c.enableAnalytics && c.enableExport
      && !c.debugMode && c.mockApi && !c.showDevTools && ConfigErrors(c) == []
  {
  }

  /** `Boolean(value)` on an optional string. */
  predicate Present(v: Option<string>) { v.Some? && v.value != "" }

  predicate IsDevelopment(c: Config) { c.appEnv == "development" }
  predicate IsStaging(c: Config) { c.appEnv == "staging" }
  predicate IsProduction(c: Config) { c.appEnv == "production" }

  /** `APP_ENV` is cast, not checked: a value outside the three names makes every
      environment predicate false; each of the three makes exactly its own true. */
  lemma EnvironmentExclusive(c: Config)
    ensures c.appEnv == "development" ==> IsDevelopment(c) && !IsStaging(c) && !IsProduction(c)
    ensures c.appEnv == "staging" ==> !IsDevelopment(c) && IsStaging(c) && !IsProduction(c)
    ensures c.appEnv == "production" ==> !IsDevelopment(c) && !IsStaging(c) && IsProduction(c)
    ensures !(c.appEnv in {"development", "staging", "production"}) ==>
      !IsDevelopment(c) && !IsStaging(c) && !IsProduction(c)
  {
  }

  predicate HasOpenAI(c: Config) { c.enableAiFeatures }
  predicate HasMapbox(c: Config) { Present(c.mapboxAccessToken) }
  predicate HasAnalytics(c: Config) { Present(c.googleAnalyticsId) && c.enableAnalytics }
  predicate HasSentry(c: Config) { Present(c.sentryDsn) }

  /** The service checks on a loaded configuration, in terms of the raw variables: analytics
      needs a non-empty id and the flag, AI availability is the AI flag alone, and Mapbox and
      Sentry need a non-empty token. */
  lemma ServiceChecks(raw: RawEnv)
    ensures HasAnalytics(LoadConfig(raw)) <==>
      Present(Lookup(raw, "VITE_GOOGLE_ANALYTICS_ID")) && ParseBoolean(Lookup(raw, "VITE_ENABLE_ANALYTICS"), false)
    ensures HasOpenAI(LoadConfig(raw)) <==> ParseBoolean(Lookup(raw, "VITE_ENABLE_AI_FEATURES"), false)
    ensures HasMapbox(LoadConfig(raw)) <==> Present(Lookup(raw, "VITE_MAPBOX_ACCESS_TOKEN"))
    ensures HasSentry(LoadConfig(raw)) <==> Present(Lookup(raw, "VITE_SENTRY_DSN"))
  {
  }

  /** The errors `validateConfig` collects: the two URL scheme checks, production only. */
  function ConfigErrors(c: Config): (r: seq<string>)
    ensures |r| <= 2
    ensures r != [] <==> (IsProduction(c) &&
      (!Str.StartsWith(c.apiBaseUrl, "https://") || !Str.StartsWith(c.websocketUrl, "wss://")))
  {
    if IsProduction(c) then
      (if Str.StartsWith(c.apiBaseUrl, "https://") then [] else ["API_BASE_URL must use HTTPS in production"])
      + (if Str.StartsWith(c.websocketUrl, "wss://") then [] else ["WEBSOCKET_URL must use WSS in production"])
    else []
  }

  datatype Flag = ENABLE_AI_FEATURES | ENABLE_REAL_TIME | ENABLE_ANALYTICS | ENABLE_EXPORT

  function FlagValue(c: Config, f: Flag): bool {
    match f
    case ENABLE_AI_FEATURES => c.enableAiFeatures
    case ENABLE_REAL_TIME => c.enableRealTime
    case ENABLE_ANALYTICS => c.enableAnalytics
    case ENABLE_EXPORT => c.enableExport
  }

  function SetFlag(c: Config, f: Flag, value: bool): Config {
    match f
    case ENABLE_AI_FEATURES => c.(enableAiFeatures := value)
    case ENABLE_REAL_TIME => c.(enableRealTime := value)
    case ENABLE_ANALYTICS => c.(enableAnalytics := value)
    case ENABLE_EXPORT => c.(enableExport := value)
  }

  /** Setting one flag changes that flag alone: every other flag, the environment name and
      the URLs keep their values. */
  lemma SetFlagOnly(c: Config, f: Flag, value: bool, g: Flag)
    ensures FlagValue(SetFlag(c, f, value), g) == if f == g then value else FlagValue(c, g)
    ensures SetFlag(c, f, value).appEnv == c.appEnv
    ensures SetFlag(c, f, value).apiBaseUrl == c.apiBaseUrl && SetFlag(c, f, value).websocketUrl == c.websocketUrl
    ensures SetFlag(c, f, value).(enableAiFeatures := c.enableAiFeatures, enableRealTime := c.enableRealTime,
              enableAnalytics := c.enableAnalytics, enableExport := c.enableExport) == c
  {
  }

  /** The `Environment` singleton. */
  class Environment {
    var config: Config

    /** `new Environment()` when validation passes. */
    constructor (raw: RawEnv)
      requires !IsProduction(LoadConfig(raw)) || ConfigErrors(LoadConfig(raw)) == []
      ensures config == LoadConfig(raw)
    {
      config := LoadConfig(raw);
    }

    /** `validateConfig`: the error it throws, if any. Errors are collected in order and
        thrown only in production; outside production nothing is thrown. */
    method ValidateConfig() returns (thrown: Option<string>)
      ensures thrown.Some? <==> (IsProduction(config) &&
        (!Str.StartsWith(config.apiBaseUrl, "https://") || !Str.StartsWith(config.websocketUrl, "wss://")))
      ensures thrown.Some? ==> thrown.value == "Environment configuration errors:\n" + Str.Join(ConfigErrors(config), "\n")
    {
      var errors: seq<string> := [];
      if IsProduction(config) {
        if !Str.StartsWith(config.apiBaseUrl, "https://") {
          errors := errors + ["API_BASE_URL must use HTTPS in production"];
        }
        if !Str.StartsWith(config.websocketUrl, "wss://") {
          errors := errors + ["WEBSOCKET_URL must use WSS in production"];
        }
      }
      thrown := None;
      if |errors| > 0 {
        var errorMessage := "Environment configuration errors:\n" + Str.Join(errors, "\n");
        if IsProduction(config) {
          thrown := Some(errorMessage);
        }
      }
    }

    /** `updateFeatureFlag`: only in development. */
    method UpdateFeatureFlag(flag: Flag, value: bool)
      modifies this
      ensures IsDevelopment(old(config)) ==> config == SetFlag(old(config), flag, value)
      ensures !IsDevelopment(old(config)) ==> config == old(config)
    {
      if IsDevelopment(config) {
        config := SetFlag(config, flag, value);
      }
    }
  }

  /** `new Environment()`: the configuration, or the error the constructor throws. */
  method Load(raw: RawEnv) returns (r: Result<Environment>)
    ensures r.Err? <==> IsProduction(LoadConfig(raw)) && ConfigErrors(LoadConfig(raw)) != []
    ensures r.Ok? ==> fresh(r.value) && r.value.config == LoadConfig(raw)
  {
    var c := LoadConfig(raw);
    if IsProduction(c) && ConfigErrors(c) != [] {
      return Err("Environment configuration errors:\n" + Str.Join(ConfigErrors(c), "\n"));
    }
    var e := new Environment(raw);
    return Ok(e);
  }
}
