/**
 * The stand-alone plugin builder: the manifest checks, the Docker image and
 * export-container names, the default output path, and the order of the
 * export steps. Docker and the filesystem appear as the outcomes of their
 * calls.
 */
module PluginBuilder {
  import opened Wrappers
  import opened Text

  /** The builder's own `plugin.json` record. */
  datatype BuilderManifest = BuilderManifest(name: string, version: string, port: int, description: string)

  /** A character Docker image names may hold: [a-z0-9._-]. */
  predicate ImageChar(c: char) { IsLowerLetter(c) || IsDigit(c) || c == '.' || c == '_' || c == '-' }

  /** What `sanitizeImageName` computes: every character outside the set, upper-case letters included, becomes '-'. */
  function ImageSafe(name: string): (r: string)
    ensures |r| == |name|
    ensures forall i :: 0 <= i < |r| ==> ImageChar(r[i])
    ensures forall i :: 0 <= i < |r| ==> (ImageChar(name[i]) ==> r[i] == name[i]) && (!ImageChar(name[i]) ==> r[i] == '-')
  {
    if name == [] then []
    else [if ImageChar(name[0]) then name[0] else '-'] + ImageSafe(name[1..])
  }

  /** `sanitizeImageName`: builds the result one character at a time. */
  method SanitizeImageName(name: string) returns (result: string)
    ensures result == ImageSafe(name)
  {
    result := "";
    var i := 0;
    while i < |name|
      invariant 0 <= i <= |name| && |result| == i
      invariant forall k :: 0 <= k < i ==> result[k] == if ImageChar(name[k]) then name[k] else '-'
    {
      if ImageChar(name[i]) {
        result := result + [name[i]];
      } else {
        result := result + "-";
      }
      i := i + 1;
    }
    var expected := ImageSafe(name);
    assert forall k :: 0 <= k < |name| ==> result[k] == expected[k];
  }

  /** Sanitizing a sanitized name changes nothing, and an upper-case letter is never kept. */
  lemma ImageSafeIdempotent(name: string)
    ensures ImageSafe(ImageSafe(name)) == ImageSafe(name)
    ensures forall i :: 0 <= i < |name| && IsUpperLetter(name[i]) ==> ImageSafe(name)[i] == '-'
  {
  }

  /** `readPluginManifest`, with the file read and the decoding given as outcomes. */
  function ReadPluginManifest(readErr: Option<string>, decoded: Result<BuilderManifest, string>): Result<BuilderManifest, string>
  {
    if readErr.Some? then Err("failed to read plugin.json: " + readErr.value)
    else if decoded.Err? then Err("failed to parse plugin.json: " + decoded.error)
    else if decoded.value.name == "" then Err("plugin name is required in plugin.json")
    else if decoded.value.version == "" then Err("plugin version is required in plugin.json")
    else if decoded.value.port == 0 then Err("plugin port is required in plugin.json")
    else Ok(decoded.value)
  }

  /** A read manifest has a name, a version and a non-zero port; the checks run name, version, port. */
  lemma ReadPluginManifestChecks(m: BuilderManifest)
    ensures ReadPluginManifest(None, Ok(m)).Ok? <==> m.name != "" && m.version != "" && m.port != 0
    ensures m.name == "" ==> ReadPluginManifest(None, Ok(m)) == Err("plugin name is required in plugin.json")
    ensures m.name != "" && m.version == "" ==> ReadPluginManifest(None, Ok(m)) == Err("plugin version is required in plugin.json")
    ensures m.name != "" && m.version != "" && m.port == 0 ==>
      ReadPluginManifest(None, Ok(m)) == Err("plugin port is required in plugin.json")
  {
  }

  /** The image `buildDockerImage` builds: "plugin-name-version", sanitized. */
  function ImageName(m: BuilderManifest): (image: string)
    ensures |image| == |"plugin-"| + |m.name| + 1 + |m.version|
    ensures image[..|"plugin-"|] == "plugin-"
  {
    var raw := "plugin-" + m.name + "-" + m.version;
    assert raw[..|"plugin-"|] == "plugin-";
    ImageSafe(raw)
  }

  /** The export container is "export-" and the image name, which is already sanitized. */
  function ExportContainerName(image: string): string
  {
    "export-" + ImageSafe(image)
  }

  lemma ExportContainerOfImage(m: BuilderManifest)
    ensures ExportContainerName(ImageName(m)) == "export-" + ImageName(m)
  {
    ImageSafeIdempotent("plugin-" + m.name + "-" + m.version);
  }

  /**
   * The output path: the given one, or "build/rootfs.ext4" inside the
   * plugin directory; without a plugin directory the builder stops.
   */
  function OutputPath(pluginDir: string, output: string): (r: Result<string, string>)
    ensures r.Err? <==> pluginDir == ""
    ensures pluginDir != "" && output != "" ==> r == Ok(output)
    ensures pluginDir != "" && output == "" ==> r.Ok? && HasSuffix(r.value, "/build/rootfs.ext4") && HasPrefix(r.value, pluginDir)
  {
    if pluginDir == "" then Err("Plugin directory is required")
    else if output == "" then
      var p := pluginDir + "/build/rootfs.ext4";
      assert p[..|pluginDir|] == pluginDir;
      assert p[|p| - |"/build/rootfs.ext4"|..] == "/build/rootfs.ext4";
      Ok(p)
    else Ok(output)
  }

  /** `validatePluginDirectory`, with the filesystem as whether the directory exists and which names it holds. */
  function ValidatePluginDirectory(pluginDir: string, dirExists: bool, present: set<string>): (r: Option<string>)
    ensures r.None? <==> dirExists && "plugin.json" in present && "Dockerfile" in present
  {
    if !dirExists then Some("plugin directory does not exist: " + pluginDir)
    else if "plugin.json" !in present then Some("required file not found: plugin.json")
    else if "Dockerfile" !in present then Some("required file not found: Dockerfile")
    else None
  }

  /** The outcomes of the host steps of an export. */
  datatype HostSteps = HostSteps(
    dirExists: bool, present: set<string>, readErr: Option<string>, decoded: Result<BuilderManifest, string>,
    buildErr: Option<string>, exportErr: Option<string>, cleanupErr: Option<string>)

  /**
   * `exportPlugin`: validate, read the manifest, build the image, export
   * it; a failed clean-up is only logged. On success the result is the
   * image that was built and exported.
   */
  function ExportPlugin(pluginDir: string, h: HostSteps): Result<string, string>
  {
    match ValidatePluginDirectory(pluginDir, h.dirExists, h.present)
    case Some(e) => Err("plugin validation failed: " + e)
    case None =>
      match ReadPluginManifest(h.readErr, h.decoded)
      case Err(e) => Err("failed to read plugin manifest: " + e)
      case Ok(m) =>
        if h.buildErr.Some? then Err("failed to build Docker image: Docker build failed: " + h.buildErr.value)
        else if h.exportErr.Some? then Err("failed to export rootfs: " + h.exportErr.value)
        else Ok(ImageName(m))
  }

  /**
   * An export succeeds exactly when every step before clean-up succeeds,
   * whatever the clean-up does; a refused manifest stops it before Docker
   * is asked to build.
   */
  lemma ExportPluginSteps(pluginDir: string, h: HostSteps, cleanupErr: Option<string>)
    ensures ExportPlugin(pluginDir, h).Ok? <==>
      && ValidatePluginDirectory(pluginDir, h.dirExists, h.present).None?
      && ReadPluginManifest(h.readErr, h.decoded).Ok?
      && h.buildErr.None? && h.exportErr.None?
    ensures ExportPlugin(pluginDir, h.(cleanupErr := cleanupErr)) == ExportPlugin(pluginDir, h)
    ensures ValidatePluginDirectory(pluginDir, h.dirExists, h.present).None? && ReadPluginManifest(h.readErr, h.decoded).Err? ==>
      ExportPlugin(pluginDir, h) == ExportPlugin(pluginDir, h.(buildErr := None, exportErr := None))
  {
  }
}
