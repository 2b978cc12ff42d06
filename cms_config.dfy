/**
 * The control plane's configuration: its defaults, the environment
 * overrides, the validation rules, the log level and the run modes. The
 * environment is a map from variable names to values; a variable that is
 * not in the map reads as "".
 */
module CmsConfig {
  import opened Wrappers
  import opened Text

  /** The fields of `Config`, as a value. */
  datatype Settings = Settings(
    port: string, host: string, debug: bool, logDir: string,
    mode: string, verbose: bool,
    dataDir: string, pluginsDir: string, snapshotDir: string,
    firecrackerPath: string, kernelPath: string,
    prewarmPoolSize: int)

  /** `NewConfig`'s defaults. */
  const Defaults: Settings := Settings(
    "80", "0.0.0.0", false, "/app/data/logs",
    "production", false,
    "/app/data", "/app/data/plugins", "/app/data/snapshots",
    "/usr/local/bin/firecracker", "/opt/kernel/vmlinux",
    10)

  /** `os.Getenv`: an unset variable reads as the empty string. */
  function Getenv(env: map<string, string>, name: string): string
  {
    if name in env then env[name] else ""
  }

  /** A set variable replaces the current value; an empty or unset one keeps it. */
  function Override(env: map<string, string>, name: string, current: string): string
  {
    if Getenv(env, name) != "" then Getenv(env, name) else current
  }

  /** A boolean flag is switched on by "true" or "1" and never switched off. */
  function Flag(env: map<string, string>, name: string, current: bool): bool
  {
    Getenv(env, name) == "true" || Getenv(env, name) == "1" || current
  }

  /** CMS_PREWARM_POOL_SIZE is taken only when it parses as a positive integer. */
  function PoolSize(env: map<string, string>, current: int): int
  {
    var v := Getenv(env, "CMS_PREWARM_POOL_SIZE");
    if v != "" && Atoi(v).Some? && Atoi(v).value > 0 then Atoi(v).value else current
  }

  /** The server and mode variables of `LoadFromEnv`. */
  function LoadServerSpec(s: Settings, env: map<string, string>): Settings
  {
    s.(port := Override(env, "CMS_PORT", s.port),
       host := Override(env, "CMS_HOST", s.host),
       debug := Flag(env, "CMS_DEBUG", s.debug),
       mode := Override(env, "CMS_MODE", s.mode),
       verbose := Flag(env, "CMS_VERBOSE", s.verbose))
  }

  /** The directory and Firecracker variables of `LoadFromEnv`. */
  function LoadPathsSpec(s: Settings, env: map<string, string>): Settings
  {
    s.(dataDir := Override(env, "CMS_DATA_DIR", s.dataDir),
       logDir := Override(env, "CMS_LOG_DIR", s.logDir),
       pluginsDir := Override(env, "CMS_PLUGINS_DIR", s.pluginsDir),
       snapshotDir := Override(env, "CMS_SNAPSHOT_DIR", s.snapshotDir),
       firecrackerPath := Override(env, "FIRECRACKER_PATH", s.firecrackerPath),
       kernelPath := Override(env, "KERNEL_PATH", s.kernelPath))
  }

  /** The settings after `LoadFromEnv`, which reads the variables in that order. */
  function LoadFromEnvSpec(s: Settings, env: map<string, string>): Settings
  {
    var t := LoadPathsSpec(LoadServerSpec(s, env), env);
    t.(prewarmPoolSize := PoolSize(env, t.prewarmPoolSize))
  }

  /** `Validate`: a port, a data directory and a positive pool size, checked in that order. */
  function Validate(s: Settings): Option<string>
  {
    if s.port == "" then Some("port cannot be empty")
    else if s.dataDir == "" then Some("data directory cannot be empty")
    else if s.prewarmPoolSize <= 0 then Some("prewarm pool size must be positive")
    else None
  }

  predicate Valid(s: Settings)
  {
    s.port != "" && s.dataDir != "" && s.prewarmPoolSize > 0
  }

  lemma ValidateIff(s: Settings)
    ensures Validate(s).None? <==> Valid(s)
    ensures s.port == "" ==> Validate(s) == Some("port cannot be empty")
    ensures s.port != "" && s.dataDir == "" ==> Validate(s) == Some("data directory cannot be empty")
  {
  }

  /**
   * The defaults are valid, and no environment can make a valid
   * configuration invalid: every override needs a non-empty value and the
   * pool size a positive one.
   */
  lemma LoadFromEnvKeepsValid(s: Settings, env: map<string, string>)
    ensures Validate(Defaults).None?
    ensures Valid(s) ==> Valid(LoadFromEnvSpec(s, env))
  {
  }

  /** The pool size changes only to the parsed positive value, and the debug and verbose flags are never cleared. */
  lemma LoadFromEnvEffect(s: Settings, env: map<string, string>)
    ensures var t := LoadFromEnvSpec(s, env);
      && (t.prewarmPoolSize != s.prewarmPoolSize ==>
            Atoi(Getenv(env, "CMS_PREWARM_POOL_SIZE")) == Some(t.prewarmPoolSize) && t.prewarmPoolSize > 0)
      && (s.debug ==> t.debug) && (s.verbose ==> t.verbose)
      && (t.debug <==> s.debug || Getenv(env, "CMS_DEBUG") in ["true", "1"])
      && (Getenv(env, "CMS_MODE") == "" ==> t.mode == s.mode)
  {
  }

  /** `GetLogLevel`. */
  function LogLevel(s: Settings): string
  {
    if s.debug then "debug" else "info"
  }

  predicate IsDebugMode(s: Settings) { s.debug }
  predicate IsDevelopmentMode(s: Settings) { s.mode == "development" || s.mode == "dev" }
  predicate IsProductionMode(s: Settings) { s.mode == "production" || s.mode == "prod" }
  predicate IsTestMode(s: Settings) { s.mode == "test" }

  /** `GetModeString`: the canonical name of the mode, with "production" for anything unknown. */
  function ModeString(s: Settings): string
  {
    match s.mode
    case "development" => "development"
    case "dev" => "development"
    case "production" => "production"
    case "prod" => "production"
    case "test" => "test"
    case _ => "production"
  }

  /**
   * The log level is "debug" exactly in debug mode; at most one mode
   * predicate holds; the mode string names the mode that holds, and an
   * unknown mode is reported as "production" although `IsProductionMode`
   * is false for it.
   */
  lemma ModesAgree(s: Settings)
    ensures LogLevel(s) == "debug" <==> IsDebugMode(s)
    ensures !(IsDevelopmentMode(s) && IsProductionMode(s))
    ensures !(IsDevelopmentMode(s) && IsTestMode(s))
    ensures !(IsProductionMode(s) && IsTestMode(s))
    ensures ModeString(s) == "development" <==> IsDevelopmentMode(s)
    ensures ModeString(s) == "test" <==> IsTestMode(s)
    ensures ModeString(s) == "production" <==> !IsDevelopmentMode(s) && !IsTestMode(s)
    ensures !IsDevelopmentMode(s) && !IsProductionMode(s) && !IsTestMode(s) ==> ModeString(s) == "production"
  {
  }

  lemma UnknownModeExample()
    ensures var s := Defaults.(mode := "staging"); ModeString(s) == "production" && !IsProductionMode(s)
  {
  }

  /** `Config`, whose `LoadFromEnv` updates it in place. */
  class Config {
    var port: string
    var host: string
    var debug: bool
    var logDir: string
    var mode: string
    var verbose: bool
    var dataDir: string
    var pluginsDir: string
    var snapshotDir: string
    var firecrackerPath: string
    var kernelPath: string
    var prewarmPoolSize: int

    function Value(): Settings
      reads this
    {
      Settings(port, host, debug, logDir, mode, verbose, dataDir, pluginsDir, snapshotDir,
               firecrackerPath, kernelPath, prewarmPoolSize)
    }

    /** `NewConfig`. */
    constructor ()
      ensures Value() == Defaults
    {
      port := "80";
      host := "0.0.0.0";
      debug := false;
      logDir := "/app/data/logs";
      mode := "production";
      verbose := false;
      dataDir := "/app/data";
      pluginsDir := "/app/data/plugins";
      snapshotDir := "/app/data/snapshots";
      firecrackerPath := "/usr/local/bin/firecracker";
      kernelPath := "/opt/kernel/vmlinux";
      prewarmPoolSize := 10;
    }

    /** `LoadFromEnv`: each variable that is set overrides its field; it never fails. */
    method LoadFromEnv(env: map<string, string>)
      modifies this
      ensures Value() == LoadFromEnvSpec(old(Value()), env)
    {
      LoadServer(env);
      LoadPaths(env);
      prewarmPoolSize := ReadPoolSize(env, prewarmPoolSize);
    }

    method LoadServer(env: map<string, string>)
      modifies this
      ensures Value() == LoadServerSpec(old(Value()), env)
    {
      var p := ReadOverride(env, "CMS_PORT", port);
      var h := ReadOverride(env, "CMS_HOST", host);
      var d := ReadFlag(env, "CMS_DEBUG", debug);
      var m := ReadOverride(env, "CMS_MODE", mode);
      var v := ReadFlag(env, "CMS_VERBOSE", verbose);
      port, host, debug, mode, verbose := p, h, d, m, v;
    }

    method LoadPaths(env: map<string, string>)
      modifies this
      ensures Value() == LoadPathsSpec(old(Value()), env)
    {
      var data := ReadOverride(env, "CMS_DATA_DIR", dataDir);
      var logs := ReadOverride(env, "CMS_LOG_DIR", logDir);
      var plugins := ReadOverride(env, "CMS_PLUGINS_DIR", pluginsDir);
      var snapshots := ReadOverride(env, "CMS_SNAPSHOT_DIR", snapshotDir);
      var firecracker := ReadOverride(env, "FIRECRACKER_PATH", firecrackerPath);
      var kernel := ReadOverride(env, "KERNEL_PATH", kernelPath);
      dataDir, logDir, pluginsDir := data, logs, plugins;
      snapshotDir, firecrackerPath, kernelPath := snapshots, firecracker, kernel;
    }
  }

  /** CMS_PREWARM_POOL_SIZE, taken only when it parses and is positive. */
  method ReadPoolSize(env: map<string, string>, current: int) returns (r: int)
    ensures r == PoolSize(env, current)
  {
    r := current;
    var v := Getenv(env, "CMS_PREWARM_POOL_SIZE");
    if v != "" {
      var parsed := Atoi(v);
      if parsed.Some? && parsed.value > 0 {
        r := parsed.value;
      }
    }
  }

  /** One `if v := os.Getenv(name); v != ""` override. */
  method ReadOverride(env: map<string, string>, name: string, current: string) returns (r: string)
    ensures r == Override(env, name, current)
  {
    r := current;
    var v := Getenv(env, name);
    if v != "" {
      r := v;
    }
  }

  /** One `if v == "true" || v == "1"` flag. */
  method ReadFlag(env: map<string, string>, name: string, current: bool) returns (r: bool)
    ensures r == Flag(env, name, current)
  {
    r := current;
    var v := Getenv(env, name);
    if v == "true" || v == "1" {
      r := true;
    }
  }
}
