/** Application settings (backend/app/config.py): each field read from the
    environment by its own name in any letter case and validated, the defaults
    taken when a variable is unset, the CORS origin list and the tracing flag. */
module Config {
  import opened Wrappers
  import Text

  const DefaultCorsOrigins: string := "http://localhost:3000"
  const DefaultHost: string := "0.0.0.0"
  const DefaultPort: int := 8000
  const DefaultReportsDir: string := "./reports"
  const DefaultScreenshotsDir: string := "./screenshots"
  const DefaultRedisUrl: string := "redis://localhost:6379/0"

  datatype Settings = Settings(
    openaiApiKey: string,
    anthropicApiKey: string,
    webpagetestApiKey: string,
    gtmetrixApiKey: string,
    gtmetrixApiUsername: string,
    corsOrigins: string,
    host: string,
    port: int,
    reportsDir: string,
    screenshotsDir: string,
    langchainTracingV2: bool,
    langchainApiKey: string,
    redisUrl: string)

  /** The process environment as `os.environ` holds it: name and value
      pairs in order, each name occurring once. */
  type Environment = seq<(string, string)>

  /** `os.getenv(name)`: the value under exactly this name. */
  function GetEnv(env: Environment, name: string): (r: Option<string>)
    ensures r.Some? <==> exists i :: 0 <= i < |env| && env[i].0 == name
    ensures r.Some? ==> (name, r.value) in env
    decreases |env|
  {
    if env == [] then None
    else if env[0].0 == name then Some(env[0].1)
    else GetEnv(env[1..], name)
  }

  /** How the settings class reads a field (`case_sensitive = False`): the
      names are lower-cased, and of several names that then coincide the
      later one wins, as in a dictionary built from the environment. */
  function FieldValue(env: Environment, field: string): Option<string>
    decreases |env|
  {
    if env == [] then None
    else if Text.Lower(env[|env| - 1].0) == field then Some(env[|env| - 1].1)
    else FieldValue(env[..|env| - 1], field)
  }

  /** A field is found exactly when some name matches it in any letter case,
      and its value is then the value of the last such name. */
  lemma {:induction false} FieldValueSpec(env: Environment, field: string)
    ensures FieldValue(env, field).Some? <==> exists i :: 0 <= i < |env| && Text.Lower(env[i].0) == field
    ensures FieldValue(env, field).Some? ==>
      exists i :: 0 <= i < |env| && Text.Lower(env[i].0) == field && FieldValue(env, field).value == env[i].1 &&
        forall j :: i < j < |env| ==> Text.Lower(env[j].0) != field
    decreases |env|
  {
    if env != [] {
      var init := env[..|env| - 1];
      FieldValueSpec(init, field);
      assert forall i :: 0 <= i < |init| ==> init[i] == env[i];
      if Text.Lower(env[|env| - 1].0) != field && FieldValue(init, field).Some? {
        var i :| 0 <= i < |init| && Text.Lower(init[i].0) == field && FieldValue(init, field).value == init[i].1 &&
          forall j :: i < j < |init| ==> Text.Lower(init[j].0) != field;
        assert env[i] == init[i];
      }
    }
  }

  /** A name that occurs exactly, which is how the class body reads it, is
      also found by the case-insensitive read of its lower-case field. So when
      that read finds nothing, the class-body default is the literal default. */
  lemma ExactNameIsFound(env: Environment, name: string)
    requires GetEnv(env, name).Some?
    ensures FieldValue(env, Text.Lower(name)).Some?
  {
    var i :| 0 <= i < |env| && env[i].0 == name;
    FieldValueSpec(env, Text.Lower(name));
  }

  /** The texts a boolean field accepts for true and for false, in lower case. */
  const TrueWords: seq<string> := ["1", "on", "t", "true", "y", "yes"]
  const FalseWords: seq<string> := ["0", "off", "f", "false", "n", "no"]

  /** A boolean field read from text, ignoring ASCII letter case: true for
      1, on, t, true, y, yes, false for 0, off, f, false, n, no, and a
      validation error (None) for anything else. */
  function ParseBool(value: string): (r: Option<bool>)
    ensures r == Some(true) <==> Text.Lower(value) in TrueWords
    ensures r == Some(false) <==> Text.Lower(value) in FalseWords
    ensures r.None? <==> Text.Lower(value) !in TrueWords && Text.Lower(value) !in FalseWords
  {
    var v := Text.Lower(value);
    if v in TrueWords then Some(true) else if v in FalseWords then Some(false) else None
  }

  /** `langchain_tracing_v2`: when the variable is unset the class-body
      default applies, which is off, since `os.getenv` then yields "false";
      when it is set its text is parsed as a boolean. */
  function TracingFlag(value: Option<string>): (r: Option<bool>)
    ensures value.None? ==> r == Some(false)
    ensures value.Some? ==> r == ParseBool(value.value)
  {
    if value.None? then Some(Text.Lower("false") == "true") else ParseBool(value.value)
  }

  /** The tracing flag accepts more than the word "true": "1", "yes" and
      "On" turn it on, "no" turns it off, and "maybe" or an empty value is
      rejected. */
  lemma TracingWords()
    ensures TracingFlag(Some("1")) == Some(true) && TracingFlag(Some("yes")) == Some(true)
    ensures TracingFlag(Some("On")) == Some(true) && TracingFlag(Some("TRUE")) == Some(true)
    ensures TracingFlag(Some("no")) == Some(false) && TracingFlag(Some("False")) == Some(false)
    ensures TracingFlag(Some("maybe")).None? && TracingFlag(Some("")).None?
  {
    LowerIs("1", "1");
    LowerIs("yes", "yes");
    LowerIs("On", "on");
    LowerIs("TRUE", "true");
    LowerIs("no", "no");
    LowerIs("False", "false");
    LowerIs("maybe", "maybe");
    LowerIs("", "");
  }

  /** Lower-casing a text character by character. */
  lemma LowerIs(s: string, t: string)
    requires |s| == |t| && forall i :: 0 <= i < |s| ==> Text.LowerChar(s[i]) == t[i]
    ensures Text.Lower(s) == t
  {
  }

  /** `int(text)` for a plain string of decimal digits; other spellings
      Python accepts (sign, spaces, underscores) are not modelled and give None. */
  function ParsePort(text: string): (r: Option<int>)
    ensures r.Some? <==> text != [] && forall i :: 0 <= i < |text| ==> '0' <= text[i] <= '9'
  {
    if text != [] && forall i :: 0 <= i < |text| ==> '0' <= text[i] <= '9' then Some(Text.DigitsValue(text))
    else None
  }

  /** A text field: its value when some name matches, else its default. */
  function TextField(env: Environment, field: string, default: string): string {
    FieldValue(env, field).GetOr(default)
  }

  /** `Settings()`: None when the class body's `int(os.getenv("PORT", "8000"))`
      fails, or when the port or the tracing flag found in the environment
      does not validate. */
  function FromEnvironment(env: Environment): Option<Settings> {
    var bodyPort := GetEnv(env, "PORT");
    var port := match FieldValue(env, "port") case None => Some(DefaultPort) case Some(t) => ParsePort(t);
    var tracing := TracingFlag(FieldValue(env, "langchain_tracing_v2"));
    if bodyPort.Some? && ParsePort(bodyPort.value).None? then None
    else if port.None? || tracing.None? then None
    else
      Some(Settings(
        TextField(env, "openai_api_key", ""),
        TextField(env, "anthropic_api_key", ""),
        TextField(env, "webpagetest_api_key", ""),
        TextField(env, "gtmetrix_api_key", ""),
        TextField(env, "gtmetrix_api_username", ""),
        TextField(env, "cors_origins", DefaultCorsOrigins),
        TextField(env, "host", DefaultHost),
        port.value,
        TextField(env, "reports_dir", DefaultReportsDir),
        TextField(env, "screenshots_dir", DefaultScreenshotsDir),
        tracing.value,
        TextField(env, "langchain_api_key", ""),
        TextField(env, "redis_url", DefaultRedisUrl)))
  }

  /** With nothing set, the settings are the documented defaults: no keys,
      origins http://localhost:3000, host 0.0.0.0, port 8000, tracing off. */
  lemma EmptyEnvironmentDefaults()
    ensures FromEnvironment([]).Some?
    ensures var s := FromEnvironment([]).value;
      s.corsOrigins == DefaultCorsOrigins && s.host == DefaultHost && s.port == DefaultPort &&
      !s.langchainTracingV2 && s.openaiApiKey == "" && s.anthropicApiKey == "" &&
      s.webpagetestApiKey == "" && s.gtmetrixApiKey == "" && s.gtmetrixApiUsername == "" &&
      s.reportsDir == DefaultReportsDir && s.screenshotsDir == DefaultScreenshotsDir &&
      s.langchainApiKey == "" && s.redisUrl == DefaultRedisUrl
  {
    LowerIs("false", "false");
  }

  /** Variable names match in any letter case: a lower-case `openai_api_key`
      sets the key, and `langchain_tracing_v2=yes` turns tracing on. */
  lemma NamesIgnoreCase(key: string)
    ensures var s := FromEnvironment([("openai_api_key", key), ("Langchain_Tracing_V2", "yes")]);
      s.Some? && s.value.openaiApiKey == key && s.value.langchainTracingV2 && s.value.port == DefaultPort
  {
    var env := [("openai_api_key", key), ("Langchain_Tracing_V2", "yes")];
    LowerIs("openai_api_key", "openai_api_key");
    LowerIs("Langchain_Tracing_V2", "langchain_tracing_v2");
    LowerIs("yes", "yes");
    assert FieldValue(env, "openai_api_key") == Some(key) by {
      assert "langchain_tracing_v2" != "openai_api_key";
      assert env[..1] == [("openai_api_key", key)];
    }
    assert FieldValue(env, "port").None? by {
      var first := env[..1];
      assert first == [("openai_api_key", key)];
      assert FieldValue(env, "port") == FieldValue(first, "port");
      assert first[..0] == [];
      assert FieldValue(first, "port") == FieldValue([], "port");
    }
    assert GetEnv(env, "PORT").None?;
  }

  /** An unparseable tracing value or port yields no settings at all:
      importing the configuration fails. */
  lemma BadValuesFail()
    ensures FromEnvironment([("LANGCHAIN_TRACING_V2", "maybe")]).None?
    ensures FromEnvironment([("PORT", "http")]).None?
  {
    var bad := [("LANGCHAIN_TRACING_V2", "maybe")];
    LowerIs("LANGCHAIN_TRACING_V2", "langchain_tracing_v2");
    assert bad[..0] == [];
    assert FieldValue(bad, "langchain_tracing_v2") == Some("maybe");
    TracingWords();
    assert ParsePort("http").None? by {
      assert !('0' <= "http"[0] <= '9');
    }
  }

  /** The `cors_origins_list` property: the comma-separated pieces, each
      stripped of surrounding whitespace. */
  function CorsOriginsList(origins: string): (r: seq<string>)
    ensures |r| == Text.Count(origins, ',') + 1 == |Text.Split(origins, ',')|
    ensures forall i :: 0 <= i < |r| ==> r[i] == Text.Strip(Text.Split(origins, ',')[i])
    ensures forall i :: 0 <= i < |r| ==> ',' !in r[i]
  {
    var pieces := Text.Split(origins, ',');
    Text.SplitCount(origins, ',');
    Text.SplitPiecesFree(origins, ',');
    var r := seq(|pieces|, i requires 0 <= i < |pieces| => Text.Strip(pieces[i]));
    assert forall i :: 0 <= i < |r| ==> ',' !in r[i] by {
      forall i | 0 <= i < |r| ensures ',' !in r[i] {
        StripKeepsAbsent(pieces[i], ',');
      }
    }
    r
  }

  /** Stripping cannot introduce a character. */
  lemma StripKeepsAbsent(s: string, c: char)
    requires c !in s
    ensures c !in Text.Strip(s)
  {
    var a := Text.StripStart(s, 0);
    var b := Text.StripEnd(s, a, |s|);
    var t := s[a..b];
    forall k | 0 <= k < |t|
      ensures t[k] != c
    {
      assert t[k] == s[a + k];
    }
  }

  /** A string without the separator splits into itself. */
  lemma {:induction false} SplitAbsent(s: string, c: char)
    requires c !in s
    ensures Text.Split(s, c) == [s]
    decreases |s|
  {
    if s != [] {
      assert c !in s[1..];
      SplitAbsent(s[1..], c);
      assert [s[0]] + s[1..] == s;
    }
  }

  /** A single origin without commas or surrounding whitespace (such as the
      default http://localhost:3000) is the whole list. */
  lemma SingleOrigin(origin: string)
    requires forall k :: 0 <= k < |origin| ==> origin[k] != ',' && !Text.IsSpace(origin[k])
    ensures CorsOriginsList(origin) == [origin]
  {
    SplitAbsent(origin, ',');
    var r := CorsOriginsList(origin);
    assert r[0] == Text.Strip(origin) == origin;
  }
}
