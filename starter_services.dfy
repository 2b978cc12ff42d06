/**
 * The CLI's plugin service: the size default and the space-error guidance
 * around a plugin build, and the order of the plugin validation steps.
 * The builder itself is given as the outcome of its run.
 */
module StarterServices {
  import opened Wrappers
  import opened Text
  import opened StarterErrors
  import opened StarterValidator
  import opened StarterManager

  /** The texts that mark a build error as a lack of space in the filesystem image. */
  const SpaceIndicators: seq<string> := [
    "No space left on device", "Cannot mkdir", "Cannot create", "Cannot open",
    "Cannot hard link", "filesystem too small", "appears too small"]

  function AnyIndicator(msg: string, indicators: seq<string>): (b: bool)
    ensures b <==> exists k :: 0 <= k < |indicators| && Contains(msg, indicators[k])
  {
    if indicators == [] then false
    else if Contains(msg, indicators[0]) then true
    else
      var rest := AnyIndicator(msg, indicators[1..]);
      assert forall k :: 1 <= k < |indicators| ==> indicators[k] == indicators[1..][k - 1];
      rest
  }

  /** `isSpaceError`: the error's text contains one of the seven indicators. */
  function IsSpaceError(err: Error): (b: bool)
    ensures b <==> exists k :: 0 <= k < |SpaceIndicators| && Contains(ErrorText(err), SpaceIndicators[k])
  {
    AnyIndicator(ErrorText(err), SpaceIndicators)
  }

  lemma {:induction false} ContainsSuffix(s: string, t: string)
    ensures Contains(s + t, t)
    decreases |s|
  {
    if s == [] {
      assert s + t == t && HasPrefix(t, t);
    } else {
      ContainsSuffix(s[1..], t);
      assert (s + t)[1..] == s[1..] + t;
    }
  }

  lemma {:induction false} ContainsExtend(s: string, u: string, t: string)
    requires Contains(s, t)
    ensures Contains(s + u, t)
    decreases |s|
  {
    if HasPrefix(s, t) {
      assert (s + u)[..|t|] == s[..|t|];
    } else {
      ContainsExtend(s[1..], u, t);
      assert (s + u)[1..] == s[1..] + u;
    }
  }

  lemma ContainsMiddle(a: string, t: string, b: string)
    ensures Contains(a + t + b, t)
  {
    ContainsSuffix(a, t);
    ContainsExtend(a + t, b, t);
  }

  const SpaceAdvice: string :=
    "MB). \U{1F4A1} Solution: Increase filesystem size with --size flag. " +
    "Recommended sizes: --size 400, --size 500, or --size 800. Original error: "

  /**
   * `wrapSpaceError`: a new plugin error (the original becomes part of the
   * message, not a cause) naming the size in use and quoting the original text.
   */
  function WrapSpaceError(err: Error, currentSize: int): Error
  {
    NewPluginError("plugin_build",
      "Plugin build failed due to insufficient space (" + IntToDecimal(currentSize) + SpaceAdvice + ErrorText(err))
  }

  lemma WrapSpaceErrorContents(err: Error, currentSize: int)
    ensures var w := WrapSpaceError(err, currentSize);
      && IsType(w, Plugin) && Unwrap(w) == None
      && Contains(w.message, IntToDecimal(currentSize))
      && Contains(w.message, ErrorText(err))
  {
    var prefix := "Plugin build failed due to insufficient space (";
    ContainsMiddle(prefix, IntToDecimal(currentSize), SpaceAdvice + ErrorText(err));
    assert prefix + IntToDecimal(currentSize) + (SpaceAdvice + ErrorText(err)) ==
           prefix + IntToDecimal(currentSize) + SpaceAdvice + ErrorText(err);
    ContainsSuffix(prefix + IntToDecimal(currentSize) + SpaceAdvice, ErrorText(err));
  }

  datatype BuildConfig = BuildConfig(pluginDir: string, size: int, outputDir: string, cleanupImage: bool)
  datatype BuildResult = BuildResult(zipPath: string, rootfsPath: string, manifestPath: string, success: bool, error: string)

  /**
   * What `BuildPlugin` does: the configuration it hands the builder (none
   * when the manifest does not load) and the result and error it returns.
   */
  datatype BuildOutcome = BuildOutcome(config: Option<BuildConfig>, result: Option<BuildResult>, err: Option<Error>)

  /**
   * `BuildPlugin`, given the manifest read and decoding outcomes and what
   * the builder returns for the configuration it is handed.
   */
  function BuildPlugin(pluginDir: string, sizeMB: int, defaultSize: int,
                       readErr: Option<Error>, decoded: Result<Manifest, Error>,
                       built: (Option<BuildResult>, Option<Error>)): BuildOutcome
  {
    var size := if sizeMB == 0 then defaultSize else sizeMB;
    match LoadManifest(pluginDir, readErr, decoded)
    case Err(e) => BuildOutcome(None, None, Some(e))
    case Ok(_) =>
      var config := BuildConfig(pluginDir, size, pluginDir + "/build", true);
      var (result, err) := built;
      if err.None? then BuildOutcome(Some(config), result, None)
      else if IsSpaceError(err.value) then BuildOutcome(Some(config), result, Some(WrapSpaceError(err.value, size)))
      else BuildOutcome(Some(config), result, err)
  }

  /**
   * A size of 0 means the default size; the builder is only reached with a
   * valid manifest; a space error comes back as the guidance error naming
   * the size used, and every other error comes back unchanged, with the
   * builder's result in both cases.
   */
  lemma BuildPluginContract(pluginDir: string, sizeMB: int, defaultSize: int,
                            readErr: Option<Error>, decoded: Result<Manifest, Error>,
                            built: (Option<BuildResult>, Option<Error>))
    ensures var o := BuildPlugin(pluginDir, sizeMB, defaultSize, readErr, decoded, built);
      var size := if sizeMB == 0 then defaultSize else sizeMB;
      && (o.config.Some? <==> LoadManifest(pluginDir, readErr, decoded).Ok?)
      && (o.config.Some? ==> o.config.value.size == size && o.config.value.cleanupImage && o.result == built.0)
      && (o.config.Some? ==> decoded.Ok? && ManifestOk(decoded.value))
      && (o.config.Some? && built.1.Some? && IsSpaceError(built.1.value) ==>
            o.err == Some(WrapSpaceError(built.1.value, size)) && IsType(o.err.value, Plugin))
      && (o.config.Some? && (built.1.None? || !IsSpaceError(built.1.value)) ==> o.err == built.1)
      && (o.config.None? ==> o.result.None? && o.err.Some?)
  {
    LoadManifestGate(pluginDir, readErr, decoded);
  }

  /**
   * `ValidatePlugin`: the directory check first, then loading the manifest;
   * the first failure is returned as it is.
   */
  function ValidatePlugin(pluginDir: string, dirExists: bool, present: set<string>,
                          readErr: Option<Error>, decoded: Result<Manifest, Error>): Outcome<Error>
  {
    match ValidateDirectory(pluginDir, dirExists, present)
    case Fail(e) => Fail(e)
    case Pass =>
      match LoadManifest(pluginDir, readErr, decoded)
      case Err(e) => Fail(e)
      case Ok(_) => Pass
  }

  /** A plugin passes exactly when its directory is complete and its manifest loads and validates; a bad directory hides every manifest problem. */
  lemma ValidatePluginOrder(pluginDir: string, dirExists: bool, present: set<string>,
                            readErr: Option<Error>, decoded: Result<Manifest, Error>)
    ensures ValidatePlugin(pluginDir, dirExists, present, readErr, decoded).Pass? <==>
      dirExists && (forall f :: f in RequiredFiles ==> f in present) &&
      readErr.None? && decoded.Ok? && ManifestOk(decoded.value)
    ensures ValidateDirectory(pluginDir, dirExists, present).Fail? ==>
      ValidatePlugin(pluginDir, dirExists, present, readErr, decoded) == ValidateDirectory(pluginDir, dirExists, present)
  {
    if ValidateDirectory(pluginDir, dirExists, present).Pass? {
      LoadManifestGate(pluginDir, readErr, decoded);
      assert LoadManifest(pluginDir, readErr, decoded).Ok? <==>
        readErr.None? && decoded.Ok? && ManifestOk(decoded.value);
    }
  }
}
