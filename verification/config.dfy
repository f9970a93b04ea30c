/** The shared configuration module: it checks that every required environment
    variable is set, exiting the process otherwise, then reads each variable
    with its default and derives `ISPRODUCTION` and the database URL. The
    environment is a map from names to values; a name that is absent is
    `undefined`. */
module Config {
  import opened Wrappers
  import opened Text

  type Env = map<string, string>

  const REQUIRED_VARS: seq<string> := [
    "NODE_ENV", "PORT",
    "DATABASE_ONLINE", "DATABASE_PASSWORD_ONLINE",
    "REDIS_URL", "UPSTASH_REDIS_REST_URL", "UPSTASH_REDIS_REST_TOKEN", "NODE_REDIS_URL", "NODE_REDIS_PORT",
    "ACTIVATION_SECRET", "CRYPTO_SECRET", "HMAC_SECRET", "EMAIL_CHANGE_SECRET", "ALGORITHM", "KEY_LENGTH",
    "IV_LENGTH",
    "ACCESS_TOKEN", "REFRESH_TOKEN", "ACCESS_TOKEN_EXPIRE", "REFRESH_TOKEN_EXPIRE",
    "EMAIL_USERNAME", "EMAIL_PASSWORD", "EMAIL_HOST", "EMAIL_PORT", "EMAIL_FROM",
    "GOOGLE_CLIENT_ID", "GOOGLE_CLIENT_SECRET",
    "GITHUB_CLIENT_ID", "GITHUB_CLIENT_SECRET",
    "CLOUD_NAME", "CLOUD_API_KEY", "CLOUD_API_SECRET", "CLOUDINARY_URL",
    "IPINFO_KEY",
    "CLIENT_ORIGIN", "SHOP_ORIGIN",
    "COOKIE_SECRET"
  ]

  const PRODUCTION := "production"
  const LOCAL_DB := "mongodb://127.0.0.1/devmun"
  const DB_PASSWORD_PLACEHOLDER := "<db_password>"

  /** `env[key] === undefined || env[key] === ''`. */
  predicate Unset(env: Env, key: string) {
    key !in env || env[key] == ""
  }

  /** `requiredVars.filter(...)`: the keys that are unset, in list order. */
  function MissingVars(env: Env, keys: seq<string>): (r: seq<string>)
    ensures |r| <= |keys|
    ensures forall k :: k in r <==> k in keys && Unset(env, k)
  {
    if keys == [] then []
    else (if Unset(env, keys[0]) then [keys[0]] else []) + MissingVars(env, keys[1..])
  }

  /** The filter keeps list order: the missing keys of a concatenation are
      those of the first part followed by those of the second. */
  lemma {:induction false} MissingVarsConcat(env: Env, a: seq<string>, b: seq<string>)
    ensures MissingVars(env, a + b) == MissingVars(env, a) + MissingVars(env, b)
  {
    if a == [] {
      assert a + b == b;
    } else {
      var head := if Unset(env, a[0]) then [a[0]] else [];
      var ab := a + b;
      assert ab[0] == a[0] && ab[1..] == a[1..] + b;
      calc {
        MissingVars(env, ab);
        head + MissingVars(env, a[1..] + b);
        { MissingVarsConcat(env, a[1..], b); }
        head + (MissingVars(env, a[1..]) + MissingVars(env, b));
        (head + MissingVars(env, a[1..])) + MissingVars(env, b);
        MissingVars(env, a) + MissingVars(env, b);
      }
    }
  }


  /** `validateEnvVariables(env)`: the exit code it ends the process with, if any. */
  function ExitCode(env: Env): (code: Option<int>)
    ensures code.Some? <==> exists k :: k in REQUIRED_VARS && Unset(env, k)
    ensures code.Some? ==> code.value == 1
  {
    var missing := MissingVars(env, REQUIRED_VARS);
    if |missing| > 0 then
      assert missing[0] in missing;
      Some(1)
    else None
  }

  /** The destructuring default of each variable: applied only when the
      variable is `undefined`. */
  function Default(key: string): string {
    if key == "NODE_ENV" then "development" else if key == "PORT" then "8080" else ""
  }

  /** The value `config` exposes for a required variable. */
  function Setting(env: Env, key: string): (v: string)
    ensures key in env ==> v == env[key]
    ensures key !in env ==> v == Default(key)
  {
    if key in env then env[key] else Default(key)
  }

  /** `config`: every required variable, `ISPRODUCTION` and `DB`. */
  datatype Settings = Settings(values: map<string, string>, isProduction: bool, db: string)

  /** `DATABASE_ONLINE.replace('<db_password>', DATABASE_PASSWORD_ONLINE)` in
      production, the local database otherwise. */
  function DatabaseUrl(isProduction: bool, databaseOnline: string, password: string): string {
    if isProduction then ReplaceFirst(databaseOnline, DB_PASSWORD_PLACEHOLDER, password) else LOCAL_DB
  }

  function Load(env: Env): (c: Settings)
    ensures c.values.Keys == set k | k in REQUIRED_VARS
    ensures forall k :: k in c.values ==> c.values[k] == Setting(env, k)
    ensures c.isProduction <==> Setting(env, "NODE_ENV") == PRODUCTION
    ensures !c.isProduction ==> c.db == LOCAL_DB
  {
    var isProduction := Setting(env, "NODE_ENV") == PRODUCTION;
    Settings(map k | k in REQUIRED_VARS :: Setting(env, k), isProduction,
             DatabaseUrl(isProduction, Setting(env, "DATABASE_ONLINE"), Setting(env, "DATABASE_PASSWORD_ONLINE")))
  }

  /** Once the check has passed, no default is ever used: every value is the
      one the environment holds, and it is not empty. */
  lemma ValidatedEnvKeepsValues(env: Env, k: string)
    requires ExitCode(env).None? && k in REQUIRED_VARS
    ensures k in env && env[k] != "" && Load(env).values[k] == env[k]
  {
  }

  /** Without NODE_ENV the service runs as development, on port 8080, against
      the local database. */
  lemma DevelopmentDefaults(env: Env)
    requires "NODE_ENV" !in env && "PORT" !in env
    ensures var c := Load(env);
            "NODE_ENV" in c.values && c.values["NODE_ENV"] == "development" &&
            "PORT" in c.values && c.values["PORT"] == "8080"
    ensures !Load(env).isProduction && Load(env).db == LOCAL_DB
  {
    assert REQUIRED_VARS[0] == "NODE_ENV" && REQUIRED_VARS[1] == "PORT";
    assert Setting(env, "NODE_ENV") == "development";
  }


  /** In production the first placeholder of DATABASE_ONLINE is replaced by
      DATABASE_PASSWORD_ONLINE and everything around it is kept. */
  lemma {:induction false} ProductionDbPassword(env: Env, before: string, after: string)
    requires "NODE_ENV" in env && env["NODE_ENV"] == PRODUCTION
    requires "DATABASE_ONLINE" in env && env["DATABASE_ONLINE"] == before + DB_PASSWORD_PLACEHOLDER + after
    requires forall j :: 0 <= j < |before| ==> !OccursAt(env["DATABASE_ONLINE"], DB_PASSWORD_PLACEHOLDER, j)
    ensures Load(env).db ==
            before + Substitution(Setting(env, "DATABASE_PASSWORD_ONLINE"), DB_PASSWORD_PLACEHOLDER, before, after) + after
    ensures '$' !in Setting(env, "DATABASE_PASSWORD_ONLINE") ==>
            Load(env).db == before + Setting(env, "DATABASE_PASSWORD_ONLINE") + after
  {
    var s := env["DATABASE_ONLINE"];
    assert OccursAt(s, DB_PASSWORD_PLACEHOLDER, |before|) by {
      assert s[|before|..|before| + |DB_PASSWORD_PLACEHOLDER|] == DB_PASSWORD_PLACEHOLDER;
    }
    var found := FindSub(s, DB_PASSWORD_PLACEHOLDER, 0);
    assert found == Some(|before|);
    assert s[..|before|] == before;
    assert s[|before| + |DB_PASSWORD_PLACEHOLDER|..] == after;
  }

  /** A password holding `$` patterns is not inserted as it stands: `$&`
      brings the placeholder back and `$$` collapses to one `$`. */
  lemma PasswordPatternsExpanded(before: string, after: string)
    ensures Substitution("p$&q", DB_PASSWORD_PLACEHOLDER, before, after) == "p" + DB_PASSWORD_PLACEHOLDER + "q"
    ensures Substitution("a$$b", DB_PASSWORD_PLACEHOLDER, before, after) == "a$b"
  {
    assert "p$&q"[1..][2..] == "q" && "a$$b"[1..][2..] == "b";
  }

  /** A production URL without the placeholder is used as it stands. */
  lemma ProductionDbWithoutPlaceholder(env: Env)
    requires "NODE_ENV" in env && env["NODE_ENV"] == PRODUCTION
    requires forall j :: !OccursAt(Setting(env, "DATABASE_ONLINE"), DB_PASSWORD_PLACEHOLDER, j)
    ensures Load(env).db == Setting(env, "DATABASE_ONLINE")
  {
    var url := Setting(env, "DATABASE_ONLINE");
    var found := FindSub(url, DB_PASSWORD_PLACEHOLDER, 0);
    assert found.None?;
    assert DatabaseUrl(true, url, Setting(env, "DATABASE_PASSWORD_ONLINE")) == url;
  }

}
