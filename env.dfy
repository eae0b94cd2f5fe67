/**
 * Reading and validating the process environment. `process.env` is passed
 * in as a map from the names of the set variables to their values; a
 * variable counts as given when it is set and not empty (JavaScript
 * truthiness of `process.env[name]`).
 */
module Env {
  import opened Results
  import opened JsStrings
  import opened Seqs

  type Environment = map<string, string>

  /** `process.env[name]` is truthy. */
  predicate IsSet(env: Environment, name: string) {
    name in env && env[name] != ""
  }

  /** `process.env[name]`, which is `undefined` for an unset variable. */
  function Lookup(env: Environment, name: string): Option<string> {
    if name in env then Some(env[name]) else None
  }

  function RequiredMessage(name: string): string {
    "Environment variable " + name + " is required but not set"
  }

  /**
   * `getEnvVar(name, defaultValue)`: the value when it is given, else the
   * default when that is given; it throws when neither is. What it returns
   * is never empty.
   */
  function GetEnvVar(env: Environment, name: string, defaultValue: Option<string>): (r: Result<string>)
    ensures r.Err? <==> !IsSet(env, name) && (defaultValue.None? || defaultValue.value == "")
    ensures r.Err? ==> r.message == RequiredMessage(name)
    ensures r.Ok? ==> r.value != ""
    ensures r.Ok? && IsSet(env, name) ==> r.value == env[name]
    ensures r.Ok? && !IsSet(env, name) ==> r.value == defaultValue.value
  {
    var value := Lookup(env, name).GetOr("");
    if value == "" && (defaultValue.None? || defaultValue.value == "") then
      Err(RequiredMessage(name))
    else if value != "" then
      Ok(value)
    else
      Ok(defaultValue.value)
  }

  /**
   * `getBooleanEnvVar(name, defaultValue)`: the default when the variable is
   * not given, otherwise whether its lower-cased value is exactly "true".
   */
  function GetBooleanEnvVar(env: Environment, name: string, defaultValue: bool): (b: bool)
    ensures !IsSet(env, name) ==> b == defaultValue
    ensures IsSet(env, name) ==> (b <==> ToLower(env[name]) == "true")
  {
    if !IsSet(env, name) then defaultValue else ToLower(env[name]) == "true"
  }

  /** The comparison ignores case: "TRUE" counts as true, "yes" does not, and an empty value gives the default. */
  lemma BooleanIgnoresCase(env: Environment, name: string, defaultValue: bool)
    ensures GetBooleanEnvVar(env[name := "TRUE"], name, defaultValue)
    ensures !GetBooleanEnvVar(env[name := "yes"], name, defaultValue)
    ensures GetBooleanEnvVar(env[name := ""], name, defaultValue) == defaultValue
  {
    assert ToLower("TRUE") == "true";
  }

  predicate NonEmpty(s: string) {
    s != ""
  }

  /** `.map(item => item.trim())`. */
  function TrimAll(parts: seq<string>): (r: seq<string>)
    ensures |r| == |parts| && forall i :: 0 <= i < |parts| ==> r[i] == Trim(parts[i])
  {
    if parts == [] then [] else [Trim(parts[0])] + TrimAll(parts[1..])
  }

  /** `.map(item => item.trim()).filter(Boolean)`: the trimmed pieces that are not empty, in order. */
  function CleanItems(parts: seq<string>): (items: seq<string>)
    ensures |items| <= |parts|
    ensures forall x :: x in items ==> x != "" && !IsWhitespace(x[0]) && !IsWhitespace(x[|x| - 1])
  {
    var trimmed := TrimAll(parts);
    forall x | x in trimmed ensures x == [] || (!IsWhitespace(x[0]) && !IsWhitespace(x[|x| - 1])) {
      var i :| 0 <= i < |trimmed| && trimmed[i] == x;
    }
    Filter(trimmed, NonEmpty)
  }

  /** An item is a non-empty trimmed piece, and every non-empty trimmed piece is an item. */
  lemma CleanItemsMembers(parts: seq<string>, x: string)
    ensures x in CleanItems(parts) <==> x != "" && exists p :: p in parts && Trim(p) == x
  {
    var trimmed := TrimAll(parts);
    if exists p :: p in parts && Trim(p) == x {
      var p :| p in parts && Trim(p) == x;
      var i :| 0 <= i < |parts| && parts[i] == p;
      assert trimmed[i] == x;
    }
    if x in trimmed {
      var i :| 0 <= i < |trimmed| && trimmed[i] == x;
      assert parts[i] in parts;
    }
  }

  /**
   * `getArrayEnvVar(name, defaultValue)`: the default when the variable is
   * not given, otherwise its comma-separated pieces, trimmed, without the
   * empty ones: never more than one item per comma plus one.
   */
  function GetArrayEnvVar(env: Environment, name: string, defaultValue: seq<string>): (r: seq<string>)
    ensures !IsSet(env, name) ==> r == defaultValue
    ensures IsSet(env, name) ==> |r| <= Count(env[name], ',') + 1
    ensures IsSet(env, name) ==>
      forall x :: x in r ==> x != "" && !IsWhitespace(x[0]) && !IsWhitespace(x[|x| - 1])
  {
    if !IsSet(env, name) then defaultValue else CleanItems(Split(env[name], ','))
  }

  /**
   * The items read from a set variable are its trimmed pieces in their
   * order, without the empty ones: each non-blank piece gives one item, so
   * a repeated piece gives a repeated item.
   */
  lemma ArrayItemsArePieces(env: Environment, name: string, defaultValue: seq<string>, x: string)
    requires IsSet(env, name)
    ensures x in GetArrayEnvVar(env, name, defaultValue)
        <==> x != "" && exists p :: p in Split(env[name], ',') && Trim(p) == x
    ensures var trimmed := TrimAll(Split(env[name], ','));
            var items := GetArrayEnvVar(env, name, defaultValue);
            Subsequence(items, trimmed)
            && multiset(items)[x] == if x != "" then multiset(trimmed)[x] else 0
  {
    var trimmed := TrimAll(Split(env[name], ','));
    CleanItemsMembers(Split(env[name], ','), x);
    FilterIsSubsequence(trimmed, NonEmpty);
    FilterMultiplicity(trimmed, NonEmpty);
  }

  /**
   * When every comma-separated piece is already non-empty and unpadded, the
   * items joined with commas give back the variable's value.
   */
  lemma ArrayRoundTrip(env: Environment, name: string, defaultValue: seq<string>)
    requires IsSet(env, name)
    requires forall p :: p in Split(env[name], ',') ==> p != "" && Trim(p) == p
    ensures Join(GetArrayEnvVar(env, name, defaultValue), ",") == env[name]
  {
    var parts := Split(env[name], ',');
    var trimmed := TrimAll(parts);
    assert trimmed == parts;
    FilterKeepsAll(parts, NonEmpty);
    JoinSplit(env[name], ',');
  }

  // ---------------------------------------------------------------------------
  // The `env` object built when the module is loaded

  datatype EnvConfig = EnvConfig(
    databaseUrl: string,
    nodeEnv: string,
    allowedOrigins: string,
    apiBaseUrl: string,
    jwtSecret: Option<string>,
    apiKey: Option<string>,
    logLevel: string,
    enableCors: bool,
    enableRateLimiting: bool,
    enableAuthentication: bool
  )

  /**
   * The `env` constant. Only DATABASE_URL has no default, so loading fails
   * exactly when it is not given; NODE_ENV falls back to "development" and
   * is not checked here.
   */
  function LoadConfig(env: Environment): (r: Result<EnvConfig>)
    ensures r.Err? <==> !IsSet(env, "DATABASE_URL")
    ensures r.Err? ==> r.message == RequiredMessage("DATABASE_URL")
    ensures r.Ok? ==> r.value.databaseUrl == env["DATABASE_URL"]
    ensures r.Ok? ==> r.value.nodeEnv == if IsSet(env, "NODE_ENV") then env["NODE_ENV"] else "development"
  {
    match GetEnvVar(env, "DATABASE_URL", None)
    case Err(m) => Err(m)
    case Ok(databaseUrl) =>
      Ok(EnvConfig(
        databaseUrl,
        GetEnvVar(env, "NODE_ENV", Some("development")).value,
        GetEnvVar(env, "ALLOWED_ORIGINS", Some("http://localhost:3000")).value,
        GetEnvVar(env, "API_BASE_URL", Some("http://localhost:3000")).value,
        Lookup(env, "JWT_SECRET"),
        Lookup(env, "API_KEY"),
        GetEnvVar(env, "LOG_LEVEL", Some("info")).value,
        GetBooleanEnvVar(env, "ENABLE_CORS", true),
        GetBooleanEnvVar(env, "ENABLE_RATE_LIMITING", false),
        GetBooleanEnvVar(env, "ENABLE_AUTHENTICATION", false)))
  }

  // ---------------------------------------------------------------------------
  // validateEnvironment

  const RequiredVars: seq<string> := ["DATABASE_URL"]
  const NodeEnvs: seq<string> := ["development", "production", "test"]
  const PostgresPrefix := "postgresql://"

  const BadDatabaseUrl := "DATABASE_URL must be a valid PostgreSQL connection string"
  const BadNodeEnv := "NODE_ENV must be one of: development, production, test"

  function MissingVarsMessage(missing: seq<string>): string {
    "Missing required environment variables: " + Join(missing, ", ") + "\n"
    + "Please check your .env file or environment configuration."
  }

  function UnsetIn(env: Environment): string -> bool {
    name => !IsSet(env, name)
  }

  /** What `validateEnvironment` does, given `process.env` and the `env` object. */
  function Validation(env: Environment, cfg: EnvConfig): Outcome {
    var missing := Filter(RequiredVars, UnsetIn(env));
    if |missing| > 0 then Fail(MissingVarsMessage(missing))
    else if !StartsWith(cfg.databaseUrl, PostgresPrefix) then Fail(BadDatabaseUrl)
    else if cfg.nodeEnv !in NodeEnvs then Fail(BadNodeEnv)
    else Pass
  }

  /** `validateEnvironment`: collects the missing required variables one by one, then checks the formats. */
  method ValidateEnvironment(env: Environment, cfg: EnvConfig) returns (r: Outcome)
    ensures r == Validation(env, cfg)
  {
    var missing: seq<string> := [];
    var i := 0;
    while i < |RequiredVars|
      invariant 0 <= i <= |RequiredVars|
      invariant missing == Filter(RequiredVars[..i], UnsetIn(env))
    {
      var name := RequiredVars[i];
      assert RequiredVars[..i + 1] == RequiredVars[..i] + [name];
      FilterConcat(RequiredVars[..i], [name], UnsetIn(env));
      if !IsSet(env, name) {
        missing := missing + [name];
      }
      i := i + 1;
    }
    assert RequiredVars[..i] == RequiredVars;
    if |missing| > 0 {
      return Fail(MissingVarsMessage(missing));
    }
    if !StartsWith(cfg.databaseUrl, PostgresPrefix) {
      return Fail(BadDatabaseUrl);
    }
    if cfg.nodeEnv !in NodeEnvs {
      return Fail(BadNodeEnv);
    }
    return Pass;
  }

  /**
   * Validation fails exactly when DATABASE_URL is not given, or the URL
   * does not start with `postgresql://`, or NODE_ENV is not one of the three
   * modes, and it reports the first of these that applies.
   */
  lemma ValidationIff(env: Environment, cfg: EnvConfig)
    ensures Validation(env, cfg).Pass?
        <==> IsSet(env, "DATABASE_URL") && StartsWith(cfg.databaseUrl, PostgresPrefix) && cfg.nodeEnv in NodeEnvs
    ensures !IsSet(env, "DATABASE_URL") ==> Validation(env, cfg) == Fail(MissingVarsMessage(["DATABASE_URL"]))
    ensures IsSet(env, "DATABASE_URL") && !StartsWith(cfg.databaseUrl, PostgresPrefix)
        ==> Validation(env, cfg) == Fail(BadDatabaseUrl)
    ensures IsSet(env, "DATABASE_URL") && StartsWith(cfg.databaseUrl, PostgresPrefix) && cfg.nodeEnv !in NodeEnvs
        ==> Validation(env, cfg) == Fail(BadNodeEnv)
  {
    var missing := Filter(RequiredVars, UnsetIn(env));
    assert RequiredVars == ["DATABASE_URL"] + [];
    assert missing == (if !IsSet(env, "DATABASE_URL") then ["DATABASE_URL"] else []) + Filter([], UnsetIn(env));
  }

  /**
   * Loading and validating one environment: when `env` loads at all, the
   * missing-variable branch cannot fire, and validation passes exactly when
   * the URL has the PostgreSQL prefix and NODE_ENV is unset, empty or one of
   * the three modes.
   */
  lemma LoadedConfigValidation(env: Environment)
    requires LoadConfig(env).Ok?
    ensures var cfg := LoadConfig(env).value;
            (Validation(env, cfg).Pass? <==>
              StartsWith(env["DATABASE_URL"], PostgresPrefix)
              && (!IsSet(env, "NODE_ENV") || env["NODE_ENV"] in NodeEnvs))
            && Validation(env, cfg) != Fail(MissingVarsMessage(["DATABASE_URL"]))
  {
    var cfg := LoadConfig(env).value;
    ValidationIff(env, cfg);
    if !IsSet(env, "NODE_ENV") {
      assert cfg.nodeEnv == NodeEnvs[0];
    }
    MissingMessageIsDistinct(["DATABASE_URL"]);
  }

  /** The three failure messages are told apart by their last character. */
  lemma MissingMessageIsDistinct(missing: seq<string>)
    ensures MissingVarsMessage(missing) != BadDatabaseUrl
    ensures MissingVarsMessage(missing) != BadNodeEnv
  {
    var m := MissingVarsMessage(missing);
    var tail := "Please check your .env file or environment configuration.";
    assert m[|m| - 1] == tail[|tail| - 1] == '.';
    assert BadDatabaseUrl[|BadDatabaseUrl| - 1] == 'g' && BadNodeEnv[|BadNodeEnv| - 1] == 't';
  }

  // ---------------------------------------------------------------------------
  // Mode helpers and origins

  predicate IsDevelopment(cfg: EnvConfig) {
    cfg.nodeEnv == "development"
  }

  predicate IsProduction(cfg: EnvConfig) {
    cfg.nodeEnv == "production"
  }

  predicate IsTest(cfg: EnvConfig) {
    cfg.nodeEnv == "test"
  }

  /** At most one mode helper answers true; for a validated config exactly one does. */
  lemma ModesExclusive(env: Environment, cfg: EnvConfig)
    ensures !(IsDevelopment(cfg) && IsProduction(cfg))
    ensures !(IsDevelopment(cfg) && IsTest(cfg))
    ensures !(IsProduction(cfg) && IsTest(cfg))
    ensures Validation(env, cfg).Pass? ==> IsDevelopment(cfg) || IsProduction(cfg) || IsTest(cfg)
  {
    ValidationIff(env, cfg);
  }

  const DefaultOrigin := "http://localhost:3000"

  /** `getAllowedOrigins()`: ALLOWED_ORIGINS as a list, or the local origin alone when it is not given. */
  function GetAllowedOrigins(env: Environment): (origins: seq<string>)
    ensures !IsSet(env, "ALLOWED_ORIGINS") ==> origins == [DefaultOrigin]
    ensures forall o :: o in origins ==> o != ""
  {
    GetArrayEnvVar(env, "ALLOWED_ORIGINS", [DefaultOrigin])
  }

  /**
   * A value made only of blanks and commas is given, so it yields no
   * origins at all rather than the default.
   */
  lemma BlankOriginsGiveNone(env: Environment)
    requires IsSet(env, "ALLOWED_ORIGINS")
    requires forall c :: c in env["ALLOWED_ORIGINS"] ==> c == ',' || IsWhitespace(c)
    ensures GetAllowedOrigins(env) == []
  {
    var parts := Split(env["ALLOWED_ORIGINS"], ',');
    SplitPiecesFromString(env["ALLOWED_ORIGINS"], ',');
    var trimmed := TrimAll(parts);
    forall x | x in trimmed ensures !NonEmpty(x) {
      var i :| 0 <= i < |parts| && trimmed[i] == x;
      assert parts[i] in parts;
      assert AllWhitespace(parts[i]);
    }
    FilterDropsAll(trimmed, NonEmpty);
  }
}
