/** internal/config.go: the run configuration read from the merged settings,
    and the client built from it. */
module Config {
  import opened Wrappers
  import opened Domain
  import PlatformApi

  /** A setting as the configuration store holds it. */
  datatype Value = Text(s: string) | Flag(b: bool) | Number(n: int)

  /** The merged flags, environment and configuration file. */
  type Settings = map<string, Value>

  /** `v.IsSet(key)`. */
  predicate IsSet(v: Settings, key: string)
  {
    key in v
  }

  /** `v.GetString(key)`: the zero value when the key is unset. */
  function GetString(v: Settings, key: string): string
  {
    if key in v && v[key].Text? then v[key].s else ""
  }

  /** `v.GetBool(key)`. */
  function GetBool(v: Settings, key: string): bool
  {
    key in v && v[key].Flag? && v[key].b
  }

  /** `v.GetInt(key)`. */
  function GetInt(v: Settings, key: string): int
  {
    if key in v && v[key].Number? then v[key].n else 0
  }

  /** `zerolog.DebugLevel`. */
  const DebugLevel: int := 0

  /** `RunConfig`, with the embedded `BaseConfig` fields laid out flat. */
  datatype RunConfig = RunConfig(
    host: string, token: string, group: Uuid, userAgent: string, logLevel: int,
    analysisType: string, pollForMinutes: int, minimumScore: int, platform: string)

  /** `RunConfig{}`. */
  const ZeroConfig: RunConfig := RunConfig("", "", NilUuid, "", 0, "", 0, 0, "")

  predicate KnownPlatform(p: string)
  {
    p == "ios" || p == "android"
  }

  /** The conditions `NewRunConfig` checks, in its order. */
  predicate HasCredentials(v: Settings)
  {
    GetString(v, "host") != "" && GetString(v, "token") != ""
  }

  predicate LevelParses(v: Settings, lib: Lib)
  {
    lib.parseLevel(GetString(v, "log_level")).Ok?
  }

  predicate GroupParses(v: Settings, lib: Lib)
  {
    IsSet(v, "group") ==> lib.parseUuid(GetString(v, "group")).Ok?
  }

  predicate PlatformKnown(v: Settings, lib: Lib)
  {
    IsSet(v, "platform") ==> KnownPlatform(lib.toLower(GetString(v, "platform")))
  }

  /** `NewRunConfig`: host and token must both be non-empty, the log level must
      parse, and a group or platform that is set must be a valid identifier or
      one of "ios" and "android" once lower-cased. The first check to fail
      decides the error. `verbose` forces the debug level; an unset group is
      the nil identifier and an unset platform is empty. */
  function NewRunConfig(v: Settings, lib: Lib): (r: Result<RunConfig, Error>)
    ensures r.Ok? <==> HasCredentials(v) && LevelParses(v, lib) && GroupParses(v, lib) && PlatformKnown(v, lib)
    ensures r == Err(HostTokenMissing) <==> !HasCredentials(v)
    ensures r.Err? && r.error.LevelInvalid? <==> HasCredentials(v) && !LevelParses(v, lib)
    ensures r.Err? && r.error.LevelInvalid? ==> r.error.detail == lib.parseLevel(GetString(v, "log_level")).error
    ensures r == Err(GroupInvalid) <==> HasCredentials(v) && LevelParses(v, lib) && !GroupParses(v, lib)
    ensures r == Err(PlatformInvalid) <==>
              HasCredentials(v) && LevelParses(v, lib) && GroupParses(v, lib) && !PlatformKnown(v, lib)
    ensures r.Ok? ==> r.value.host == GetString(v, "host") && r.value.token == GetString(v, "token")
    ensures r.Ok? ==> r.value.host != "" && r.value.token != ""
    ensures r.Ok? ==> r.value.platform == "" || KnownPlatform(r.value.platform)
    ensures r.Ok? ==> (r.value.platform == "" <==> !IsSet(v, "platform"))
    ensures r.Ok? && IsSet(v, "group") ==> r.value.group == lib.parseUuid(GetString(v, "group")).value
    ensures r.Ok? && !IsSet(v, "group") ==> r.value.group == NilUuid
    ensures r.Ok? && GetBool(v, "verbose") ==> r.value.logLevel == DebugLevel
    ensures r.Ok? && !GetBool(v, "verbose") ==> r.value.logLevel == lib.parseLevel(GetString(v, "log_level")).value
    ensures r.Ok? ==> r.value.userAgent == GetString(v, "user_agent")
    ensures r.Ok? ==> r.value.analysisType == GetString(v, "analysis_type")
    ensures r.Ok? ==> r.value.pollForMinutes == GetInt(v, "poll_for_minutes")
    ensures r.Ok? ==> r.value.minimumScore == GetInt(v, "minimum_score")
  {
    var host := GetString(v, "host");
    var token := GetString(v, "token");
    if host == "" || token == "" then Err(HostTokenMissing)
    else
      var parsed := lib.parseLevel(GetString(v, "log_level"));
      if parsed.Err? then Err(LevelInvalid(parsed.error))
      else
        var logLevel := if GetBool(v, "verbose") then DebugLevel else parsed.value;
        var group := if IsSet(v, "group") then lib.parseUuid(GetString(v, "group")) else Ok(NilUuid);
        if group.Err? then Err(GroupInvalid)
        else
          var platform := if IsSet(v, "platform") then lib.toLower(GetString(v, "platform")) else "";
          if IsSet(v, "platform") && !KnownPlatform(platform) then Err(PlatformInvalid)
          else Ok(RunConfig(host, token, group.value, GetString(v, "user_agent"), logLevel,
                            GetString(v, "analysis_type"), GetInt(v, "poll_for_minutes"),
                            GetInt(v, "minimum_score"), platform))
  }

  /** A configuration with neither host nor token is refused before anything
      else is looked at, whatever the other settings say. */
  lemma MissingCredentialsFirst(v: Settings, lib: Lib)
    requires "host" !in v || "token" !in v
    ensures NewRunConfig(v, lib) == Err(HostTokenMissing)
  {
  }

  /** `ClientFromConfig` of config.go: a nil doer becomes a plain HTTP client
      (where the client package's own constructor defaults to its logging
      doer); the request editor adds the configured agent and token. */
  function ClientFromConfig(config: RunConfig, doer: Option<PlatformApi.Doer>): (c: PlatformApi.Client)
    ensures doer.None? ==> c.doer == PlatformApi.PlainHttpClient
    ensures doer.Some? ==> c.doer == doer.value
    ensures c.server == config.host && c.userAgent == config.userAgent && c.token == config.token
  {
    var d := if doer.None? then PlatformApi.PlainHttpClient else doer.value;
    PlatformApi.Client(config.host, config.userAgent, config.token, d)
  }

  /** The two constructors differ only in the doer they default to. */
  lemma ClientsDifferOnlyInDefaultDoer(config: RunConfig, doer: Option<PlatformApi.Doer>)
    ensures ClientFromConfig(config, doer).(doer := PlatformApi.LoggingDoer)
         == PlatformApi.ClientFromConfig(config.host, config.userAgent, config.token, doer).(doer := PlatformApi.LoggingDoer)
    ensures doer.Some? ==>
              ClientFromConfig(config, doer) == PlatformApi.ClientFromConfig(config.host, config.userAgent, config.token, doer)
  {
  }
}
