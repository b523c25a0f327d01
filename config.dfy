/**
 * Application settings: their defaults, the database URL built from them,
 * the list of CORS origins, and the validation of the log level.
 */
module Config {
  import opened Wrappers
  import opened Values
  import opened Text

  /** The settings read from the environment (or `.env`). */
  datatype Settings = Settings(
    postgresHost: string,
    postgresPort: int,
    postgresDb: string,
    postgresUser: string,
    postgresPassword: string,
    databaseUrlOverride: string,
    testDatabaseUrlOverride: string,
    apiHost: string,
    apiPort: int,
    apiDebug: bool,
    azureAdEnabled: bool,
    azureAdTenantId: string,
    azureAdClientId: string,
    azureAdAudience: string,
    corsOrigins: string,
    logLevel: string)

  /** The settings when no variable is set. */
  function Defaults(): (s: Settings)
    ensures !s.azureAdEnabled && !s.apiDebug
    ensures s.databaseUrlOverride == "" && s.testDatabaseUrlOverride == ""
  {
    Settings(
      postgresHost := "localhost",
      postgresPort := 5432,
      postgresDb := "ctsr",
      postgresUser := "ctsr_user",
      postgresPassword := "ctsr_dev_password",
      databaseUrlOverride := "",
      testDatabaseUrlOverride := "",
      apiHost := "0.0.0.0",
      apiPort := 8000,
      apiDebug := false,
      azureAdEnabled := false,
      azureAdTenantId := "",
      azureAdClientId := "",
      azureAdAudience := "",
      corsOrigins := LocalWebOrigin + "," + LocalStreamlitOrigin,
      logLevel := "INFO")
  }

  /** The URL built from the five connection settings. */
  function ComponentUrl(s: Settings): string
  {
    "postgresql+asyncpg://" + s.postgresUser + ":" + s.postgresPassword
    + "@" + s.postgresHost + ":" + IntText(s.postgresPort) + "/" + s.postgresDb
  }

  /**
   * `database_url`: TEST_DATABASE_URL wins when set, then DATABASE_URL,
   * and only then the URL built from the components.
   */
  function DatabaseUrl(s: Settings): (r: string)
    ensures s.testDatabaseUrlOverride != "" ==> r == s.testDatabaseUrlOverride
    ensures s.testDatabaseUrlOverride == "" && s.databaseUrlOverride != "" ==> r == s.databaseUrlOverride
    ensures s.testDatabaseUrlOverride == "" && s.databaseUrlOverride == "" ==> r == ComponentUrl(s)
  {
    if s.testDatabaseUrlOverride != "" then s.testDatabaseUrlOverride
    else if s.databaseUrlOverride != "" then s.databaseUrlOverride
    else ComponentUrl(s)
  }

  /** `cors_origins_list`: the comma-separated origins, each stripped. */
  function CorsOriginsList(s: Settings): (r: seq<string>)
    ensures |r| == |SplitOn(s.corsOrigins, ',')|
    ensures forall i :: 0 <= i < |r| ==> r[i] == Strip(SplitOn(s.corsOrigins, ',')[i])
  {
    var parts := SplitOn(s.corsOrigins, ',');
    seq(|parts|, i requires 0 <= i < |parts| => Strip(parts[i]))
  }

  /** There is one origin more than there are commas, and none holds a comma. */
  lemma CorsOriginsCount(s: Settings)
    ensures |CorsOriginsList(s)| == Occurrences(s.corsOrigins, ',') + 1
    ensures forall i :: 0 <= i < |CorsOriginsList(s)| ==> ',' !in CorsOriginsList(s)[i]
  {
    SplitCount(s.corsOrigins, ',');
    var parts := SplitOn(s.corsOrigins, ',');
    forall i | 0 <= i < |parts|
      ensures ',' !in Strip(parts[i])
    {
      StripSlice(parts[i]);
    }
  }

  /**
   * Two origins separated by one comma give exactly those two origins,
   * with surrounding whitespace removed (as in the default setting).
   */
  lemma CorsOriginsTwo(s: Settings, a: string, b: string)
    requires s.corsOrigins == a + [','] + b
    requires ',' !in a && ',' !in b
    ensures |CorsOriginsList(s)| == 2
    ensures CorsOriginsList(s)[0] == Strip(a) && CorsOriginsList(s)[1] == Strip(b)
  {
    SplitOnTwo(a, b, ',');
  }

  /** The two local front ends: the web client and the Streamlit app. */
  const LocalWebOrigin := "http://localhost:3000"
  const LocalStreamlitOrigin := "http://localhost:8501"

  /** With nothing set, the application connects to the local development database. */
  lemma DefaultDatabaseUrl()
    ensures DatabaseUrl(Defaults())
         == "postgresql+asyncpg://" + "ctsr_user" + ":" + "ctsr_dev_password" + "@" + "localhost" + ":" + "5432" + "/" + "ctsr"
  {
    assert IntText(5432) == "5432" by {
      assert Decimal(5) == "5";
      assert Decimal(54) == "54";
      assert Decimal(543) == "543";
    }
  }

  /** With nothing set, the two local front ends are the allowed origins. */
  lemma DefaultCorsOrigins()
    ensures |CorsOriginsList(Defaults())| == 2
    ensures CorsOriginsList(Defaults())[0] == LocalWebOrigin && CorsOriginsList(Defaults())[1] == LocalStreamlitOrigin
  {
    OriginsOfSetting(Defaults(), LocalWebOrigin, LocalStreamlitOrigin);
  }

  /** Two comma-free origins without surrounding white space are listed as they are. */
  lemma OriginsOfSetting(s: Settings, a: string, b: string)
    requires s.corsOrigins == a + "," + b
    requires ',' !in a && ',' !in b
    requires a == [] || (!IsSpace(a[0]) && !IsSpace(a[|a| - 1]))
    requires b == [] || (!IsSpace(b[0]) && !IsSpace(b[|b| - 1]))
    ensures |CorsOriginsList(s)| == 2 && CorsOriginsList(s)[0] == a && CorsOriginsList(s)[1] == b
  {
    CorsOriginsTwo(s, a, b);
    StripNoEdgeSpace(a);
    StripNoEdgeSpace(b);
  }

  /** The log levels Python's logging understands. */
  const ValidLevels: seq<string> := ["DEBUG", "INFO", "WARNING", "ERROR", "CRITICAL"]

  /**
   * `str.upper()` for one character, as far as it matters for the level
   * names: ASCII letters, dotless i and long s map to upper-case ASCII.
   */
  function UpperChar(c: char): char
  {
    if 'a' <= c <= 'z' then (c as int - 32) as char
    else if c == 'ı' then 'I'
    else if c == 'ſ' then 'S'
    else c
  }

  function Upper(s: string): (r: string)
    ensures |r| == |s| && forall i :: 0 <= i < |s| ==> r[i] == UpperChar(s[i])
  {
    seq(|s|, i requires 0 <= i < |s| => UpperChar(s[i]))
  }

  /** `validate_log_level`: the upper-cased level, or None where Pydantic rejects it. */
  function ValidateLogLevel(v: string): (r: Option<string>)
    ensures r.Some? <==> Upper(v) in ValidLevels
    ensures r.Some? ==> r.value == Upper(v) && r.value in ValidLevels
  {
    var u := Upper(v);
    if u in ValidLevels then Some(u) else None
  }

  /** An accepted level is accepted again unchanged. */
  lemma ValidateLogLevelIdempotent(v: string)
    requires ValidateLogLevel(v).Some?
    ensures ValidateLogLevel(ValidateLogLevel(v).value) == ValidateLogLevel(v)
  {
    var u := ValidateLogLevel(v).value;
    assert Upper(u) == u;
  }

  /**
   * The level is case-insensitive: a spelling and its lower-case form are
   * accepted or refused alike, and accepted as the same level.
   */
  lemma LevelCaseInsensitive(v: string)
    ensures ValidateLogLevel(v) == ValidateLogLevel(AsciiLower(v))
  {
    assert Upper(AsciiLower(v)) == Upper(v);
  }
}
