/**
 * The configuration package's state and operations (internal/config/config.go and
 * internal/config/helper.go): the package-level koanf instance `k` and the global
 * `Cfg`, the start-up loader `InitConfig`, and the accessors over `Cfg`.
 */
module Config {
  import opened Wrappers
  import opened Validator
  import opened Types

  /** The process environment as `os.Getenv` sees it. */
  type Environ = map<string, string>

  /** A koanf instance's flattened key map, from dotted key paths such as "server.port" to values. */
  type KeyMap = map<string, string>

  const ConfigPathVar := "AUTH5_CONFIG"
  const DefaultConfigPath := "auth5.yml"

  /** `os.Getenv`: the empty string when the variable is unset. */
  function Getenv(env: Environ, name: string): string {
    if name in env then env[name] else ""
  }

  /** The settings file `InitConfig` reads: `AUTH5_CONFIG` when non-empty, else `auth5.yml`. */
  function ConfigPath(env: Environ): (path: string)
    ensures path != ""
    ensures Getenv(env, ConfigPathVar) != "" ==> path == env[ConfigPathVar]
    ensures Getenv(env, ConfigPathVar) == "" ==> path == DefaultConfigPath
  {
    var fromEnv := Getenv(env, ConfigPathVar);
    if fromEnv == "" then DefaultConfigPath else fromEnv
  }

  /** Setting `AUTH5_CONFIG` to the empty string is the same as leaving it unset. */
  lemma EmptyConfigPathIsUnset(env: Environ)
    ensures ConfigPath(env[ConfigPathVar := ""]) == ConfigPath(env - {ConfigPathVar}) == DefaultConfigPath
  { }

  /** `k.Load` merging a freshly read layer into the instance: the later layer wins on every shared key. */
  function Merge(base: KeyMap, layer: KeyMap): (r: KeyMap)
    ensures r.Keys == base.Keys + layer.Keys
    ensures forall key :: key in layer ==> r[key] == layer[key]
    ensures forall key :: key in base && key !in layer ==> r[key] == base[key]
  {
    base + layer
  }

  /**
   * The calls into koanf that `InitConfig` makes, each of which succeeds with a
   * value or fails with an error.
   */
  datatype Providers = Providers(
    /** `file.Provider(path)` parsed by `yaml.Parser()`. */
    readFile: string -> Result<KeyMap>,
    /** `env.Provider("AUTH5_", ".", identity)` over the environment. */
    readEnv: Environ -> Result<KeyMap>,
    /**
     * `k.Unmarshal("", &Cfg)`: decodes the merged key map onto the current `Cfg`
     * in place, so a field whose key is absent keeps the value it had.
     */
    unmarshal: (KeyMap, Config) -> Result<Config>)

  /** The steps of `InitConfig`, in the order they run. */
  datatype Step = LoadFile(path: string) | LoadEnv | Unmarshal | Validate

  /** How `InitConfig` ends: it returns, or `log.Fatal` ends the process during a step. */
  datatype Outcome = Returned | Fatal(at: Step)

  /** The key map after the file layer and, when it could be read, the environment layer. */
  function Layered(k0: KeyMap, file: KeyMap, env: Result<KeyMap>): KeyMap {
    var afterFile := Merge(k0, file);
    if env.Ok? then Merge(afterFile, env.value) else afterFile
  }

  /** The `config` package: its koanf instance `k` and its global `Cfg`. */
  class Package {
    var k: KeyMap
    var cfg: Config

    /** Package initialisation: `koanf.New(".")` holds no keys and `Cfg` is the zero `Config`. */
    constructor ()
      ensures k == map[] && cfg == ZeroConfig()
    {
      k := map[];
      cfg := ZeroConfig();
    }

    /**
     * Loads the settings file, overlays the environment, decodes into `Cfg` and
     * validates it. `trace` lists the steps that ran, in order.
     */
    method InitConfig(env: Environ, io: Providers, f: Formats) returns (outcome: Outcome, trace: seq<Step>)
      modifies this
      // The file is read first, from the resolved path; a read or parse error is fatal and nothing else runs.
      ensures io.readFile(ConfigPath(env)).Err? ==>
        outcome == Fatal(LoadFile(ConfigPath(env))) && trace == [LoadFile(ConfigPath(env))]
        && k == old(k) && cfg == old(cfg)
      // Otherwise the environment layer is merged on top (an error there is not fatal) and decoding runs.
      ensures io.readFile(ConfigPath(env)).Ok? ==>
        k == Layered(old(k), io.readFile(ConfigPath(env)).value, io.readEnv(env))
        && |trace| >= 3 && trace[..3] == [LoadFile(ConfigPath(env)), LoadEnv, Unmarshal]
      // A decoding error is fatal and leaves `Cfg` as it was.
      ensures io.readFile(ConfigPath(env)).Ok? && io.unmarshal(k, old(cfg)).Err? ==>
        outcome == Fatal(Unmarshal) && |trace| == 3 && cfg == old(cfg)
      // Otherwise `Cfg` is the decoded value and validation decides the outcome.
      ensures io.readFile(ConfigPath(env)).Ok? && io.unmarshal(k, old(cfg)).Ok? ==>
        cfg == io.unmarshal(k, old(cfg)).value && trace == [LoadFile(ConfigPath(env)), LoadEnv, Unmarshal, Validate]
        && outcome == (if ValidateStruct(cfg, f) then Returned else Fatal(Validate))
      // The gate: a normal return publishes only a configuration that passes every rule.
      ensures outcome == Returned ==> ValidateStruct(cfg, f) && ValidConfig(cfg, f)
      ensures outcome != Fatal(LoadEnv)
    {
      var path := ConfigPath(env);
      trace := [LoadFile(path)];
      var file := io.readFile(path);
      if file.Err? {
        outcome := Fatal(LoadFile(path));
        return;
      }
      k := Merge(k, file.value);

      trace := trace + [LoadEnv];
      var layer := io.readEnv(env);
      if layer.Ok? {
        k := Merge(k, layer.value);
      }

      trace := trace + [Unmarshal];
      var decoded := io.unmarshal(k, cfg);
      if decoded.Err? {
        outcome := Fatal(Unmarshal);
        return;
      }
      cfg := decoded.value;

      trace := trace + [Validate];
      if !ValidateStruct(cfg, f) {
        outcome := Fatal(Validate);
        return;
      }
      ValidateStructMeans(cfg, f);
      outcome := Returned;
    }

    function GetSiteConfig(): SiteConfig reads this { cfg.site }
    function GetServerConfig(): ServerConfig reads this { cfg.server }
    function GetSwaggerConfig(): SwaggerConfig reads this { cfg.swagger }
    function GetStripeConfig(): StripeConfig reads this { cfg.stripe }
    function GetMaxMind(): MaxMindConfig reads this { cfg.maxMind }
    function GetSentryConfig(): SentryConfig reads this { cfg.sentry }
    function GetCORSConfig(): CORSConfig reads this { cfg.cors }
    function GetDatabaseConfig(): DatabaseConfig reads this { cfg.database }
    function GetOauthConfig(): OAuthProviders reads this { cfg.oauth }

    /**
     * The SMTP block of the first mail profile whose nickname equals `nickname`
     * exactly, or a not-found error naming it. Reads `Cfg` and changes nothing.
     */
    method GetSMTPConfig(nickname: string) returns (r: Result<SMTPConfig>)
      ensures r.Ok? <==> exists i :: 0 <= i < |cfg.emails| && cfg.emails[i].nickname == nickname
      ensures r.Ok? ==> r.value == cfg.emails[FirstMatch(cfg.emails, nickname)].smtp
      ensures r.Err? ==> r.message == NotFoundMessage(nickname)
    {
      var i := 0;
      while i < |cfg.emails|
        invariant 0 <= i <= |cfg.emails|
        invariant forall j :: 0 <= j < i ==> cfg.emails[j].nickname != nickname
      {
        if cfg.emails[i].nickname == nickname {
          return Ok(cfg.emails[i].smtp);
        }
        i := i + 1;
      }
      return Err(NotFoundMessage(nickname));
    }
  }

  /** Every section getter returns its section of `Cfg`, and after a successful load that section obeys its rules. */
  lemma LoadedSectionsValid(p: Package, f: Formats)
    requires ValidateStruct(p.cfg, f)
    ensures p.GetSiteConfig() == p.cfg.site && ValidSite(p.GetSiteConfig(), f)
    ensures p.GetServerConfig() == p.cfg.server && ValidServer(p.GetServerConfig(), f)
    ensures p.GetSwaggerConfig() == p.cfg.swagger && ValidSwagger(p.GetSwaggerConfig())
    ensures p.GetStripeConfig() == p.cfg.stripe && ValidStripe(p.GetStripeConfig())
    ensures p.GetMaxMind() == p.cfg.maxMind && ValidMaxMind(p.GetMaxMind(), f)
    ensures p.GetSentryConfig() == p.cfg.sentry && ValidSentry(p.GetSentryConfig())
    ensures p.GetCORSConfig() == p.cfg.cors && ValidCORS(p.GetCORSConfig(), f)
    ensures p.GetDatabaseConfig() == p.cfg.database && ValidDatabase(p.GetDatabaseConfig())
    ensures p.GetOauthConfig() == p.cfg.oauth && ValidOAuthProviders(p.GetOauthConfig(), f)
  {
    ValidateStructMeans(p.cfg, f);
  }

  /** The error message of a failed lookup; it ends with the requested nickname. */
  function NotFoundMessage(nickname: string): (m: string)
    ensures |m| > |nickname| && m[|m| - |nickname|..] == nickname
  {
    "SMTP configuration not found for nickname: " + nickname
  }

  /**
   * The index of the first profile whose nickname equals `nickname`, or
   * `|emails|` when there is none.
   */
  function FirstMatch(emails: seq<EmailConfig>, nickname: string): (i: nat)
    ensures i <= |emails|
    ensures i < |emails| ==> emails[i].nickname == nickname
    ensures forall j :: 0 <= j < i ==> emails[j].nickname != nickname
  {
    if emails == [] then 0
    else if emails[0].nickname == nickname then 0
    else 1 + FirstMatch(emails[1..], nickname)
  }

  /**
   * Profiles after the first match are never consulted: any list that agrees
   * up to and including the first match gives the same answer.
   */
  lemma {:induction false} FirstMatchIgnoresLater(emails: seq<EmailConfig>, other: seq<EmailConfig>, nickname: string)
    requires FirstMatch(emails, nickname) < |emails|
    requires FirstMatch(emails, nickname) < |other|
    requires other[..FirstMatch(emails, nickname) + 1] == emails[..FirstMatch(emails, nickname) + 1]
    ensures FirstMatch(other, nickname) == FirstMatch(emails, nickname)
  {
    assert other[0] == emails[0];
    if emails[0].nickname != nickname {
      var m := FirstMatch(emails[1..], nickname);
      assert other[1..][..m + 1] == emails[1..][..m + 1];
      FirstMatchIgnoresLater(emails[1..], other[1..], nickname);
    }
  }

  /** With duplicate nicknames the earliest profile wins. */
  lemma DuplicateNicknamesFirstWins(emails: seq<EmailConfig>, nickname: string, i: int, j: int)
    requires 0 <= i < j < |emails|
    requires emails[i].nickname == nickname && emails[j].nickname == nickname
    ensures FirstMatch(emails, nickname) <= i < j
  { }

  /** Nicknames are compared exactly: no case folding and no trimming. */
  lemma NicknameMatchIsExact(smtp: SMTPConfig)
    ensures FirstMatch([EmailConfig("primary", smtp)], "primary") == 0
    ensures FirstMatch([EmailConfig("primary", smtp)], "Primary") == 1
    ensures FirstMatch([EmailConfig("primary", smtp)], " primary") == 1
  { }

  /** Profiles "primary" then "alerts": "alerts" finds the second, "missing" finds none. */
  lemma LookupByNickname(primary: SMTPConfig, alerts: SMTPConfig)
    ensures var emails := [EmailConfig("primary", primary), EmailConfig("alerts", alerts)];
      FirstMatch(emails, "alerts") == 1 && emails[FirstMatch(emails, "alerts")].smtp == alerts
      && FirstMatch(emails, "missing") == |emails|
  { }
}
