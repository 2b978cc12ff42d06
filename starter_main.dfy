/**
 * The CLI entry point's name derivations: the per-character `sanitize`
 * map, the CMS image and container names chosen by the mode flags, and the
 * plugin build and image names.
 */
module StarterMain {
  import opened Text

  const CMSImageName: string := "centraunit/cu-firecracker-cms"
  const CMSContainerName: string := "cu-firecracker-cms"

  /** The characters `sanitize` keeps: "abcdefghijklmnopqrstuvwxyz0123456789-_.". */
  predicate NameChar(c: char) { IsLowerLetter(c) || IsDigit(c) || c == '-' || c == '_' || c == '.' }

  /** `sanitize`: lower-case, then every character outside the set becomes '-'. */
  function Sanitize(name: string): (r: string)
    ensures |r| == |name|
    ensures forall i :: 0 <= i < |r| ==> NameChar(r[i])
    ensures forall i :: 0 <= i < |r| ==> r[i] == (if NameChar(LowerChar(name[i])) then LowerChar(name[i]) else '-')
  {
    seq(|name|, i requires 0 <= i < |name| =>
      var c := LowerChar(name[i]);
      if NameChar(c) then c else '-')
  }

  /** Hyphens are neither merged nor trimmed: "A  B" keeps both replaced spaces, and a name already in the set is unchanged. */
  lemma SanitizeExamples()
    ensures Sanitize("A  B") == "a--b"
    ensures Sanitize("-x-") == "-x-"
  {
  }

  /** `sanitize` leaves a name made of its own characters as it is, so applying it twice changes nothing more. */
  lemma SanitizeFixesClean(name: string)
    ensures (forall i :: 0 <= i < |name| ==> NameChar(name[i])) ==> Sanitize(name) == name
    ensures Sanitize(Sanitize(name)) == Sanitize(name)
  {
    var s := Sanitize(name);
    assert forall i :: 0 <= i < |s| ==> LowerChar(s[i]) == s[i];
  }

  /** `getImageName`: test mode wins over dev mode, and production uses ":latest". */
  function ImageName(testMode: bool, devMode: bool): string
  {
    if testMode then CMSImageName + ":test"
    else if devMode then CMSImageName + ":dev"
    else CMSImageName + ":latest"
  }

  /** `getContainerName`: the same precedence, with a suffix only outside production. */
  function ContainerName(testMode: bool, devMode: bool): string
  {
    if testMode then CMSContainerName + "-test"
    else if devMode then CMSContainerName + "-dev"
    else CMSContainerName
  }

  /** The image tag and the container suffix always name the same mode. */
  lemma ModeNamesAgree(testMode: bool, devMode: bool)
    ensures ImageName(testMode, devMode) == CMSImageName + ":test" <==> testMode
    ensures ContainerName(testMode, devMode) == CMSContainerName + "-test" <==> testMode
    ensures ImageName(testMode, devMode) == CMSImageName + ":dev" <==> !testMode && devMode
    ensures ContainerName(testMode, devMode) == CMSContainerName + "-dev" <==> !testMode && devMode
    ensures ContainerName(testMode, devMode) == CMSContainerName <==> !testMode && !devMode
  {
    assert (CMSImageName + ":test")[|CMSImageName| + 1] == 't';
    assert (CMSImageName + ":dev")[|CMSImageName| + 1] == 'd';
    assert (CMSContainerName + "-test")[|CMSContainerName| + 1] == 't';
    assert (CMSContainerName + "-dev")[|CMSContainerName| + 1] == 'd';
  }

  /** The build name of `plugin build` and of the test plugins: the sanitized name, '-', the version. */
  function BuildName(name: string, version: string): string
  {
    Sanitize(name) + "-" + version
  }

  /** The Docker image a plugin is built into. */
  function PluginImage(name: string, version: string): (image: string)
    ensures HasPrefix(image, "plugin-")
    ensures image[|"plugin-"|..] == BuildName(name, version)
  {
    "plugin-" + BuildName(name, version)
  }

  /** The name part of the image keeps the manifest name's length, so the version always starts at the same offset. */
  lemma PluginImageLayout(name: string, version: string)
    ensures var image := PluginImage(name, version);
      && |image| == |"plugin-"| + |name| + 1 + |version|
      && image[|"plugin-"| + |name|] == '-'
      && image[|"plugin-"| + |name| + 1..] == version
      && forall i :: |"plugin-"| <= i < |"plugin-"| + |name| ==> NameChar(image[i])
  {
    var image := PluginImage(name, version);
    assert image == "plugin-" + Sanitize(name) + "-" + version;
  }
}
