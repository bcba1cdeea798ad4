/**
  Application settings: the values read from the environment, the field
  validators and bounds that loading enforces, the environment flags, and
  the process-wide settings instance that is built once and reused.
*/
module Settings {
  import opened Wrappers
  import opened Text

  datatype Provider = OpenAI | Anthropic | Ollama
  datatype AppEnv = Development | Staging | Production
  datatype LogLevel = Debug | Info | Warning | Error | Critical
  datatype LogFormat = Json | PlainText

  /**
    The variables present in the environment, one per field; `None` is an
    unset variable. Integers and booleans arrive already converted.
  */
  datatype Environment = Environment(
    aiModelProvider: Option<string>,
    aiApiKey: Option<string>,
    aiModelName: Option<string>,
    aiMaxTokens: Option<int>,
    aiTimeout: Option<int>,
    githubToken: Option<string>,
    githubRepo: Option<string>,
    githubWebhookSecret: Option<string>,
    githubApiTimeout: Option<int>,
    supabaseUrl: Option<string>,
    supabaseAnonKey: Option<string>,
    supabaseServiceRoleKey: Option<string>,
    appEnv: Option<string>,
    appPort: Option<int>,
    debug: Option<bool>,
    logLevel: Option<string>,
    logFormat: Option<string>,
    vercelEnv: Option<string>,
    vercelUrl: Option<string>,
    vercelGitCommitSha: Option<string>,
    agentMaxRetries: Option<int>
  )

  /** A loaded `Settings` object (its floating-point fields are not modelled). */
  datatype Config = Config(
    aiModelProvider: Provider,
    aiApiKey: string,
    aiModelName: string,
    aiMaxTokens: int,
    aiTimeout: int,
    githubToken: string,
    githubRepo: string,
    githubWebhookSecret: string,
    githubApiTimeout: int,
    supabaseUrl: string,
    supabaseAnonKey: string,
    supabaseServiceRoleKey: string,
    appEnv: AppEnv,
    appPort: int,
    debug: bool,
    logLevel: LogLevel,
    logFormat: LogFormat,
    vercelEnv: Option<string>,
    vercelUrl: Option<string>,
    vercelGitCommitSha: Option<string>,
    agentMaxRetries: int
  )

  const RepoFormatError := "github_repo must be in 'owner/repo' format"
  const RepoPartsError := "github_repo must be in 'owner/repo' format with valid owner and repo names"
  const UrlSchemeError := "supabase_url must start with 'https://'"
  const UrlHostError := "supabase_url must be a valid Supabase URL ending with '.supabase.co'"

  /** `validate_github_repo`. */
  function ValidateGithubRepo(v: string): Result<string, string> {
    if '/' !in v then Err(RepoFormatError)
    else
      var parts := Split(v, '/');
      if |parts| != 2 || parts[0] == "" || parts[1] == "" then Err(RepoPartsError)
      else Ok(v)
  }

  /** `validate_supabase_url`. */
  function ValidateSupabaseUrl(v: string): Result<string, string> {
    if !StartsWith(v, "https://") then Err(UrlSchemeError)
    else if !EndsWith(v, ".supabase.co") then Err(UrlHostError)
    else Ok(v)
  }

  lemma {:induction false} SplitFirstPieceEmpty(s: string, sep: char)
    ensures Split(s, sep)[0] == "" <==> |s| == 0 || s[0] == sep
  {
  }

  lemma {:induction false} SplitLastPieceEmpty(s: string, sep: char)
    ensures var ps := Split(s, sep); ps[|ps| - 1] == "" <==> |s| == 0 || s[|s| - 1] == sep
  {
    if |s| > 0 {
      var rest := Split(s[1..], sep);
      SplitLastPieceEmpty(s[1..], sep);
      if |s| == 1 {
        assert rest == [""];
      }
    }
  }

  /**
    A repository name is accepted exactly when it holds one "/" that is
    neither its first nor its last character; it is returned unchanged.
  */
  lemma ValidateGithubRepoAccepts(v: string)
    ensures ValidateGithubRepo(v).Ok?
        <==> |v| > 0 && Count(v, '/') == 1 && v[0] != '/' && v[|v| - 1] != '/'
    ensures ValidateGithubRepo(v).Ok? ==> ValidateGithubRepo(v).value == v
  {
    var parts := Split(v, '/');
    SplitLength(v, '/');
    SplitFirstPieceEmpty(v, '/');
    SplitLastPieceEmpty(v, '/');
    if '/' !in v {
      NotInCountZero(v, '/');
    } else if |v| > 0 && Count(v, '/') == 1 {
      assert |parts| == 2;
    }
  }

  lemma {:induction false} NotInCountZero(s: string, c: char)
    requires c !in s
    ensures Count(s, c) == 0
  {
    if |s| > 0 {
      assert c !in s[1..] by {
        forall k | 0 <= k < |s[1..]| ensures s[1..][k] != c {
          assert s[1..][k] == s[k + 1];
        }
      }
      NotInCountZero(s[1..], c);
    }
  }

  /** `owner/repo` is accepted for any non-empty owner and repo without "/". */
  lemma ValidateGithubRepoOwnerRepo(owner: string, repo: string)
    requires owner != "" && repo != "" && '/' !in owner && '/' !in repo
    ensures ValidateGithubRepo(owner + "/" + repo) == Ok(owner + "/" + repo)
  {
    var v := owner + "/" + repo;
    assert v[|owner|] == '/';
    SplitWithoutSeparator(repo, '/');
    SplitAfterPiece(owner, '/', repo);
  }

  /** A URL is accepted exactly when it has both the scheme and the host suffix. */
  lemma ValidateSupabaseUrlAccepts(v: string)
    ensures ValidateSupabaseUrl(v).Ok? <==> StartsWith(v, "https://") && EndsWith(v, ".supabase.co")
    ensures ValidateSupabaseUrl(v).Ok? ==> ValidateSupabaseUrl(v).value == v
    ensures !StartsWith(v, "https://") ==> ValidateSupabaseUrl(v) == Err(UrlSchemeError)
  {
  }

  /** Every project URL of the form `https://<ref>.supabase.co` is accepted. */
  lemma ValidateSupabaseUrlProject(projectRef: string)
    ensures ValidateSupabaseUrl("https://" + projectRef + ".supabase.co").Ok?
  {
    var v := "https://" + projectRef + ".supabase.co";
    assert v[..|"https://"|] == "https://";
    assert v[|v| - |".supabase.co"|..] == ".supabase.co";
  }

  function ParseProvider(s: string): Option<Provider> {
    if s == "openai" then Some(OpenAI)
    else if s == "anthropic" then Some(Anthropic)
    else if s == "ollama" then Some(Ollama)
    else None
  }

  function ParseAppEnv(s: string): Option<AppEnv> {
    if s == "development" then Some(Development)
    else if s == "staging" then Some(Staging)
    else if s == "production" then Some(Production)
    else None
  }

  function ParseLogLevel(s: string): Option<LogLevel> {
    if s == "DEBUG" then Some(Debug)
    else if s == "INFO" then Some(Info)
    else if s == "WARNING" then Some(Warning)
    else if s == "ERROR" then Some(Error)
    else if s == "CRITICAL" then Some(Critical)
    else None
  }

  function ParseLogFormat(s: string): Option<LogFormat> {
    if s == "json" then Some(Json) else if s == "text" then Some(PlainText) else None
  }

  /** The field bounds declared on the integer settings. */
  predicate BoundsHold(c: Config) {
    && 0 < c.aiMaxTokens <= 100000
    && 0 < c.aiTimeout
    && 0 < c.githubApiTimeout
    && 0 < c.appPort <= 65535
    && 0 <= c.agentMaxRetries
  }

  /** Everything loading guarantees about a `Settings` object. */
  predicate Valid(c: Config) {
    && BoundsHold(c)
    && ValidateGithubRepo(c.githubRepo).Ok?
    && ValidateSupabaseUrl(c.supabaseUrl).Ok?
  }

  function OrElse<T>(o: Option<T>, default: T): T {
    if o.Some? then o.value else default
  }

  /** A literal field: unset takes the default, a value outside the literal fails. */
  predicate LiteralOk<T>(o: Option<string>, parse: string -> Option<T>) {
    o.None? || parse(o.value).Some?
  }

  predicate IntOk(o: Option<int>, low: int, high: Option<int>) {
    o.None? || (low <= o.value && (high.None? || o.value <= high.value))
  }

  predicate RequiredOk(o: Option<string>, validate: string -> Result<string, string>) {
    o.Some? && validate(o.value).Ok?
  }

  function Accept(v: string): Result<string, string> {
    Ok(v)
  }

  /** The names of the fields that fail validation, in declaration order. */
  function Errors(env: Environment): seq<string> {
    (if LiteralOk(env.aiModelProvider, ParseProvider) then [] else ["ai_model_provider"])
    + (if RequiredOk(env.aiApiKey, Accept) then [] else ["ai_api_key"])
    + (if IntOk(env.aiMaxTokens, 1, Some(100000)) then [] else ["ai_max_tokens"])
    + (if IntOk(env.aiTimeout, 1, None) then [] else ["ai_timeout"])
    + (if RequiredOk(env.githubToken, Accept) then [] else ["github_token"])
    + (if RequiredOk(env.githubRepo, ValidateGithubRepo) then [] else ["github_repo"])
    + (if RequiredOk(env.githubWebhookSecret, Accept) then [] else ["github_webhook_secret"])
    + (if IntOk(env.githubApiTimeout, 1, None) then [] else ["github_api_timeout"])
    + (if RequiredOk(env.supabaseUrl, ValidateSupabaseUrl) then [] else ["supabase_url"])
    + (if RequiredOk(env.supabaseAnonKey, Accept) then [] else ["supabase_anon_key"])
    + (if RequiredOk(env.supabaseServiceRoleKey, Accept) then [] else ["supabase_service_role_key"])
    + (if LiteralOk(env.appEnv, ParseAppEnv) then [] else ["app_env"])
    + (if IntOk(env.appPort, 1, Some(65535)) then [] else ["app_port"])
    + (if LiteralOk(env.logLevel, ParseLogLevel) then [] else ["log_level"])
    + (if LiteralOk(env.logFormat, ParseLogFormat) then [] else ["log_format"])
    + (if IntOk(env.agentMaxRetries, 0, None) then [] else ["agent_max_retries"])
  }

  function ParsedOr<T>(o: Option<string>, parse: string -> Option<T>, default: T): T {
    if o.Some? && parse(o.value).Some? then parse(o.value).value else default
  }

  /** `Settings()`: the loaded object, or the list of fields that failed. */
  function Load(env: Environment): Result<Config, seq<string>> {
    if Errors(env) != [] then Err(Errors(env))
    else Ok(Config(
      ParsedOr(env.aiModelProvider, ParseProvider, OpenAI),
      OrElse(env.aiApiKey, ""),
      OrElse(env.aiModelName, "gpt-4"),
      OrElse(env.aiMaxTokens, 2000),
      OrElse(env.aiTimeout, 60),
      OrElse(env.githubToken, ""),
      OrElse(env.githubRepo, ""),
      OrElse(env.githubWebhookSecret, ""),
      OrElse(env.githubApiTimeout, 30),
      OrElse(env.supabaseUrl, ""),
      OrElse(env.supabaseAnonKey, ""),
      OrElse(env.supabaseServiceRoleKey, ""),
      ParsedOr(env.appEnv, ParseAppEnv, Development),
      OrElse(env.appPort, 8000),
      OrElse(env.debug, false),
      ParsedOr(env.logLevel, ParseLogLevel, Info),
      ParsedOr(env.logFormat, ParseLogFormat, Json),
      env.vercelEnv,
      env.vercelUrl,
      env.vercelGitCommitSha,
      OrElse(env.agentMaxRetries, 3)))
  }

  /** Whatever loads successfully satisfies every bound and validator. */
  lemma LoadedIsValid(env: Environment)
    requires Load(env).Ok?
    ensures Valid(Load(env).value)
    ensures Load(env).value.githubRepo == env.githubRepo.value
    ensures Load(env).value.supabaseUrl == env.supabaseUrl.value
  {
    var e := Errors(env);
    assert e == [];
  }

  /** A missing required variable or an out-of-range port makes loading fail. */
  lemma LoadFailsOnMissingRequired(env: Environment)
    requires env.githubRepo.None? || env.aiApiKey.None? || (env.appPort.Some? && env.appPort.value > 65535)
    ensures Load(env).Err?
  {
  }

  /** An environment with only the required variables gets the declared defaults. */
  lemma LoadDefaults(env: Environment)
    requires Load(env).Ok?
    requires env.aiModelProvider.None? && env.aiModelName.None? && env.aiMaxTokens.None?
    requires env.aiTimeout.None? && env.githubApiTimeout.None? && env.appEnv.None?
    requires env.appPort.None? && env.debug.None? && env.logLevel.None? && env.logFormat.None?
    requires env.vercelEnv.None? && env.agentMaxRetries.None?
    ensures var c := Load(env).value;
      && c.aiModelProvider == OpenAI && c.aiModelName == "gpt-4"
      && c.aiMaxTokens == 2000 && c.aiTimeout == 60 && c.githubApiTimeout == 30
      && c.appEnv == Development && c.appPort == 8000 && !c.debug
      && c.logLevel == Info && c.logFormat == Json
      && c.vercelEnv.None? && c.agentMaxRetries == 3
  {
  }

  function IsProduction(c: Config): bool {
    c.appEnv == Production
  }

  function IsDevelopment(c: Config): bool {
    c.appEnv == Development
  }

  function IsVercel(c: Config): bool {
    c.vercelEnv.Some?
  }

  /** At most one environment flag is set, and staging sets neither. */
  lemma EnvironmentFlagsExclusive(c: Config)
    ensures !(IsProduction(c) && IsDevelopment(c))
    ensures c.appEnv == Staging <==> !IsProduction(c) && !IsDevelopment(c)
  {
  }

  /** One `Settings` object; its identity is what the singleton hands out. */
  class SettingsObject {
    const config: Config

    constructor (config: Config)
      ensures this.config == config
    {
      this.config := config;
    }
  }

  /** The module-level `_settings` global. */
  class SettingsRegistry {
    var instance: SettingsObject?

    /** The kept object, if any, was loaded, so it satisfies every validator. */
    ghost predicate Consistent()
      reads this
    {
      instance != null ==> Valid(instance.config)
    }

    constructor ()
      ensures instance == null && Consistent()
    {
      instance := null;
    }

    /**
      `get_settings`: the first successful call builds the object from the
      environment of that moment; later calls return the same object and
      ignore the environment.
    */
    method GetSettings(env: Environment) returns (r: Result<SettingsObject, seq<string>>)
      requires Consistent()
      modifies this
      ensures Consistent()
      ensures r.Ok? ==> Valid(r.value.config)
      ensures old(instance) != null ==> r == Ok(old(instance)) && instance == old(instance)
      ensures old(instance) == null && Load(env).Ok? ==>
        r.Ok? && fresh(r.value) && r.value.config == Load(env).value && instance == r.value
      ensures old(instance) == null && Load(env).Err? ==>
        r == Err(Load(env).error) && instance == null
    {
      if instance == null {
        var loaded := Load(env);
        if loaded.Err? {
          return Err(loaded.error);
        }
        LoadedIsValid(env);
        instance := new SettingsObject(loaded.value);
      }
      return Ok(instance);
    }

    /** `reload_settings`: always builds a new object and makes it current. */
    method ReloadSettings(env: Environment) returns (r: Result<SettingsObject, seq<string>>)
      requires Consistent()
      modifies this
      ensures Consistent()
      ensures Load(env).Ok? ==>
        r.Ok? && fresh(r.value) && r.value.config == Load(env).value && instance == r.value
      ensures Load(env).Err? ==> r == Err(Load(env).error) && instance == old(instance)
    {
      var loaded := Load(env);
      if loaded.Err? {
        return Err(loaded.error);
      }
      LoadedIsValid(env);
      instance := new SettingsObject(loaded.value);
      return Ok(instance);
    }
  }

  /** Two calls in a row hand out the very same object, whatever the environment. */
  method GetSettingsTwice(registry: SettingsRegistry, first: Environment, second: Environment)
    returns (a: Result<SettingsObject, seq<string>>, b: Result<SettingsObject, seq<string>>)
    requires registry.Consistent()
    modifies registry
    ensures a.Ok? ==> b == a
  {
    a := registry.GetSettings(first);
    b := registry.GetSettings(second);
  }
}
