/**
 * The CLI's configuration: its defaults, the environment overrides, the
 * validation rules and the image and container names chosen by the mode
 * flags. The environment is a map from variable names to values; a
 * variable that is not in the map reads as "".
 */
module StarterConfig {
  import opened Wrappers
  import opened Text
  import StarterMain

  /** The fields of `Config`, as a value. */
  datatype Settings = Settings(
    port: int, dataDir: string,
    debug: bool, devMode: bool, testMode: bool, verbose: bool,
    dockerHost: string, cmsImageName: string, cmsContainerName: string,
    defaultPluginSize: int, minPluginSize: int, maxPluginSize: int)

  /** `NewConfig`'s defaults. */
  const Defaults: Settings := Settings(
    80, "./cms-data", false, false, false, false,
    "unix:///var/run/docker.sock", "centraunit/cu-firecracker-cms", "cu-firecracker-cms",
    200, 200, 800)

  /** `os.Getenv`: an unset variable reads as the empty string. */
  function Getenv(env: map<string, string>, name: string): string
  {
    if name in env then env[name] else ""
  }

  /** The settings after `LoadFromEnv`. */
  function LoadFromEnvSpec(s: Settings, env: map<string, string>): Settings
  {
    var port := Getenv(env, "CMS_PORT");
    var dataDir := Getenv(env, "CMS_DATA_DIR");
    var debug := Getenv(env, "CMS_DEBUG");
    var dockerHost := Getenv(env, "DOCKER_HOST");
    s.(port := if port != "" && Atoi(port).Some? then Atoi(port).value else s.port,
       dataDir := if dataDir != "" then dataDir else s.dataDir,
       debug := if debug == "true" || debug == "1" then true else s.debug,
       dockerHost := if dockerHost != "" then dockerHost else s.dockerHost)
  }

  /** `Validate`: the port range, a data directory, and the default size within its bounds, checked in that order. */
  function Validate(s: Settings): Option<string>
  {
    if s.port < 1 || s.port > 65535 then Some("invalid port: " + IntToDecimal(s.port) + " (must be 1-65535)")
    else if s.dataDir == "" then Some("data directory cannot be empty")
    else if s.defaultPluginSize < s.minPluginSize || s.defaultPluginSize > s.maxPluginSize then
      Some("default plugin size " + IntToDecimal(s.defaultPluginSize) + " must be between " +
           IntToDecimal(s.minPluginSize) + " and " + IntToDecimal(s.maxPluginSize))
    else None
  }

  /** The validation rule as one statement. */
  predicate Valid(s: Settings)
  {
    1 <= s.port <= 65535 && s.dataDir != "" && s.minPluginSize <= s.defaultPluginSize <= s.maxPluginSize
  }

  lemma ValidateIff(s: Settings)
    ensures Validate(s).None? <==> Valid(s)
    ensures (s.port < 1 || s.port > 65535) ==> Validate(s) == Some("invalid port: " + IntToDecimal(s.port) + " (must be 1-65535)")
    ensures 1 <= s.port <= 65535 && s.dataDir == "" ==> Validate(s) == Some("data directory cannot be empty")
  {
  }

  /** The defaults pass validation. */
  lemma DefaultsValid()
    ensures Validate(Defaults).None?
  {
  }

  /**
   * The environment changes the port only to a value that parses as an
   * integer, never clears the data directory or the Docker host, never
   * turns debug off, and leaves the modes, the names and the sizes alone.
   */
  lemma LoadFromEnvEffect(s: Settings, env: map<string, string>)
    ensures var t := LoadFromEnvSpec(s, env);
      && (t.port != s.port ==> Atoi(Getenv(env, "CMS_PORT")) == Some(t.port))
      && (Atoi(Getenv(env, "CMS_PORT")).None? ==> t.port == s.port)
      && (s.dataDir != "" ==> t.dataDir != "")
      && (t.debug <==> s.debug || Getenv(env, "CMS_DEBUG") in ["true", "1"])
      && (t.devMode, t.testMode, t.verbose) == (s.devMode, s.testMode, s.verbose)
      && (t.cmsImageName, t.cmsContainerName) == (s.cmsImageName, s.cmsContainerName)
      && (t.defaultPluginSize, t.minPluginSize, t.maxPluginSize) == (s.defaultPluginSize, s.minPluginSize, s.maxPluginSize)
  {
  }

  /**
   * Loading the environment keeps a valid configuration valid unless
   * CMS_PORT parses to a number outside 1-65535, which only `Validate`
   * rejects: "70000" is taken up and then refused.
   */
  lemma LoadFromEnvKeepsValid(s: Settings, env: map<string, string>)
    requires Valid(s)
    ensures Valid(LoadFromEnvSpec(s, env)) <==>
      (Atoi(Getenv(env, "CMS_PORT")).None? || 1 <= Atoi(Getenv(env, "CMS_PORT")).value <= 65535)
  {
  }

  lemma OutOfRangePortTaken()
    ensures LoadFromEnvSpec(Defaults, map["CMS_PORT" := "70000"]).port == 70000
    ensures Validate(LoadFromEnvSpec(Defaults, map["CMS_PORT" := "70000"])).Some?
  {
    AtoiOfDecimal(70000);
    assert NatToDecimal(7) == "7";
    assert NatToDecimal(70) == "70";
    assert NatToDecimal(700) == "700";
    assert NatToDecimal(7000) == "7000";
    assert NatToDecimal(70000) == "70000";
  }

  /** `GetImageName`: test mode wins over dev mode; otherwise ":latest". */
  function ImageName(s: Settings): string
  {
    if s.testMode then s.cmsImageName + ":test"
    else if s.devMode then s.cmsImageName + ":dev"
    else s.cmsImageName + ":latest"
  }

  /** `GetContainerName`: the same precedence, with no suffix in production. */
  function ContainerName(s: Settings): string
  {
    if s.testMode then s.cmsContainerName + "-test"
    else if s.devMode then s.cmsContainerName + "-dev"
    else s.cmsContainerName
  }

  predicate IsProductionMode(s: Settings) { !s.devMode && !s.testMode }

  /**
   * The ":latest" image and the bare container name are used exactly in
   * production mode, and with the default names the configuration picks the
   * same image and container as the CLI entry point does for the same flags.
   */
  lemma ModeNames(s: Settings)
    ensures ImageName(s) == s.cmsImageName + ":latest" <==> IsProductionMode(s)
    ensures ContainerName(s) == s.cmsContainerName <==> IsProductionMode(s)
    ensures ImageName(s) == s.cmsImageName + ":test" <==> s.testMode
    ensures s.cmsImageName == Defaults.cmsImageName && s.cmsContainerName == Defaults.cmsContainerName ==>
      ImageName(s) == StarterMain.ImageName(s.testMode, s.devMode) &&
      ContainerName(s) == StarterMain.ContainerName(s.testMode, s.devMode)
  {
  }

  /** `Config`, whose `LoadFromEnv` updates it in place. */
  class Config {
    var port: int
    var dataDir: string
    var debug: bool
    var devMode: bool
    var testMode: bool
    var verbose: bool
    var dockerHost: string
    var cmsImageName: string
    var cmsContainerName: string
    var defaultPluginSize: int
    var minPluginSize: int
    var maxPluginSize: int

    function Value(): Settings
      reads this
    {
      Settings(port, dataDir, debug, devMode, testMode, verbose, dockerHost, cmsImageName, cmsContainerName,
               defaultPluginSize, minPluginSize, maxPluginSize)
    }

    /** `NewConfig`. */
    constructor ()
      ensures Value() == Defaults
    {
      port := 80;
      dataDir := "./cms-data";
      debug := false;
      devMode := false;
      testMode := false;
      verbose := false;
      dockerHost := "unix:///var/run/docker.sock";
      cmsImageName := "centraunit/cu-firecracker-cms";
      cmsContainerName := "cu-firecracker-cms";
      defaultPluginSize := 200;
      minPluginSize := 200;
      maxPluginSize := 800;
    }

    /** `LoadFromEnv`: each variable that is set overrides its field; it never fails. */
    method LoadFromEnv(env: map<string, string>)
      modifies this
      ensures Value() == LoadFromEnvSpec(old(Value()), env)
    {
      var p := Getenv(env, "CMS_PORT");
      if p != "" {
        var parsed := Atoi(p);
        if parsed.Some? {
          port := parsed.value;
        }
      }
      var d := Getenv(env, "CMS_DATA_DIR");
      if d != "" {
        dataDir := d;
      }
      var dbg := Getenv(env, "CMS_DEBUG");
      if dbg == "true" || dbg == "1" {
        debug := true;
      }
      var host := Getenv(env, "DOCKER_HOST");
      if host != "" {
        dockerHost := host;
      }
    }
  }
}
