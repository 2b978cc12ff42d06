/**
 * The CLI's plugin validator: the manifest's required fields, the slug,
 * semantic-version and runtime formats, the directory layout and the
 * filesystem size bounds. Each check returns the first failure it meets.
 */
module StarterValidator {
  import opened Wrappers
  import opened Text
  import opened StarterErrors

  /** A decoded `plugin.json`; the `actions` object is not inspected by any check and is left out. */
  datatype Manifest = Manifest(slug: string, name: string, version: string, description: string, author: string, runtime: string)

  /** `DefaultValidator` with its size bounds in MB. */
  datatype DefaultValidator = DefaultValidator(minSize: int, maxSize: int)

  // ---------------------------------------------------------------------
  // Slug
  // ---------------------------------------------------------------------

  /** A character of `^[a-z0-9-]+$`. */
  predicate SlugChar(c: char) { IsLowerLetter(c) || IsDigit(c) || c == '-' }

  /** The slug rule as one statement: 3 to 50 characters from [a-z0-9-], not starting or ending with '-'. */
  predicate SlugOk(slug: string)
  {
    && 3 <= |slug| <= 50
    && (forall i :: 0 <= i < |slug| ==> SlugChar(slug[i]))
    && slug[0] != '-' && slug[|slug| - 1] != '-'
  }

  function ValidateSlugFormat(slug: string): Outcome<Error>
  {
    if |slug| < 3 || |slug| > 50 then Fail(NewValidationError("validate_slug", "slug must be 3-50 characters long"))
    else if !(forall i :: 0 <= i < |slug| ==> SlugChar(slug[i])) then
      Fail(NewValidationError("validate_slug", "slug must contain only lowercase letters, numbers, and hyphens"))
    else if HasPrefix(slug, "-") || HasSuffix(slug, "-") then
      Fail(NewValidationError("validate_slug", "slug cannot start or end with a hyphen"))
    else Pass
  }

  lemma ValidateSlugFormatIff(slug: string)
    ensures ValidateSlugFormat(slug).Pass? <==> SlugOk(slug)
    ensures ValidateSlugFormat(slug).Fail? ==> IsType(ValidateSlugFormat(slug).error, Validation)
  {
    if 3 <= |slug| && (forall i :: 0 <= i < |slug| ==> SlugChar(slug[i])) {
      assert HasPrefix(slug, "-") <==> slug[0] == '-';
      assert HasSuffix(slug, "-") <==> slug[|slug| - 1] == '-';
    }
  }

  // ---------------------------------------------------------------------
  // Version
  // ---------------------------------------------------------------------

  /** A character of the suffix class `[a-zA-Z0-9\-\.]`. */
  predicate SuffixChar(c: char) { IsLowerLetter(c) || IsUpperLetter(c) || IsDigit(c) || c == '-' || c == '.' }

  /** The optional group `(-[a-zA-Z0-9\-\.]+)?`: empty, or '-' and at least one suffix character. */
  predicate ValidSuffix(t: string)
  {
    t == [] || (|t| >= 2 && t[0] == '-' && forall k :: 1 <= k < |t| ==> SuffixChar(t[k]))
  }

  /** `\d+` matched greedily from `i`: the end of the run of digits starting there. */
  function DigitRunEnd(s: string, i: nat): (j: nat)
    requires i <= |s|
    ensures i <= j <= |s| && AllDigits(s[i..j])
    ensures j < |s| ==> !IsDigit(s[j])
    decreases |s| - i
  {
    if i < |s| && IsDigit(s[i]) then
      var j := DigitRunEnd(s, i + 1);
      assert s[i..j] == [s[i]] + s[i + 1..j];
      j
    else i
  }

  /** Any run of digits that stops at a non-digit or at the end is the greedy run. */
  lemma {:induction false} DigitRunStops(s: string, i: nat, j: nat)
    requires i <= j <= |s| && AllDigits(s[i..j]) && (j < |s| ==> !IsDigit(s[j]))
    ensures DigitRunEnd(s, i) == j
    decreases j - i
  {
    if i < j {
      assert IsDigit(s[i..j][0]);
      assert s[i + 1..j] == s[i..j][1..];
      DigitRunStops(s, i + 1, j);
    }
  }

  /**
   * Matches `^(\d+)\.(\d+)\.(\d+)(-[a-zA-Z0-9\-\.]+)?$` and returns the
   * groups. Each `\d+` is followed by a character that is not a digit, so
   * the greedy scan finds the only possible match.
   */
  function VersionParts(v: string): Option<(string, string, string, string)>
  {
    var a := DigitRunEnd(v, 0);
    if a == 0 || a == |v| || v[a] != '.' then None
    else
      var b := DigitRunEnd(v, a + 1);
      if b == a + 1 || b == |v| || v[b] != '.' then None
      else
        var c := DigitRunEnd(v, b + 1);
        if c == b + 1 || !ValidSuffix(v[c..]) then None
        else Some((v[..a], v[a + 1..b], v[b + 1..c], v[c..]))
  }

  /** Every accepted version is digits.digits.digits followed by an empty or '-'-led suffix, and is rebuilt from its groups. */
  lemma VersionPartsSound(v: string)
    ensures var r := VersionParts(v);
      r.Some? ==>
        && v == r.value.0 + "." + r.value.1 + "." + r.value.2 + r.value.3
        && |r.value.0| > 0 && AllDigits(r.value.0)
        && |r.value.1| > 0 && AllDigits(r.value.1)
        && |r.value.2| > 0 && AllDigits(r.value.2)
        && ValidSuffix(r.value.3)
  {
    var r := VersionParts(v);
    if r.Some? {
      var a := DigitRunEnd(v, 0);
      var b := DigitRunEnd(v, a + 1);
      var c := DigitRunEnd(v, b + 1);
      assert r.value == (v[..a], v[a + 1..b], v[b + 1..c], v[c..]);
      assert v == v[..a] + "." + v[a + 1..b] + "." + v[b + 1..c] + v[c..];
    }
  }

  /** Where the parts of "X.Y.Z" + suffix sit in the joined text. */
  lemma VersionLayout(x: string, y: string, z: string, t: string)
    ensures var v := x + "." + y + "." + z + t;
      var a := |x|; var b := a + 1 + |y|; var c := b + 1 + |z|;
      && |v| == c + |t| && v[a] == '.' && v[b] == '.'
      && v[..a] == x && v[a + 1..b] == y && v[b + 1..c] == z && v[c..] == t
  {
  }

  /** Every "X.Y.Z" or "X.Y.Z-suffix" is accepted, with exactly those parts. */
  lemma VersionPartsComplete(x: string, y: string, z: string, t: string)
    requires |x| > 0 && AllDigits(x) && |y| > 0 && AllDigits(y) && |z| > 0 && AllDigits(z) && ValidSuffix(t)
    ensures VersionParts(x + "." + y + "." + z + t) == Some((x, y, z, t))
  {
    var v := x + "." + y + "." + z + t;
    var a := |x|;
    var b := a + 1 + |y|;
    var c := b + 1 + |z|;
    VersionLayout(x, y, z, t);
    if t != [] {
      assert v[c] == t[0];
    }
    VersionPartsAt(v, a, b, c);
  }

  /** The scan's result on a text whose digit runs end at `a`, `b` and `c`. */
  lemma VersionPartsAt(v: string, a: nat, b: nat, c: nat)
    requires 0 < a && a + 1 < b && b + 1 < c <= |v| && v[a] == '.' && v[b] == '.'
    requires AllDigits(v[..a]) && AllDigits(v[a + 1..b]) && AllDigits(v[b + 1..c])
    requires c < |v| ==> v[c] == '-'
    requires ValidSuffix(v[c..])
    ensures VersionParts(v) == Some((v[..a], v[a + 1..b], v[b + 1..c], v[c..]))
  {
    assert DigitRunEnd(v, 0) == a by {
      assert v[0..a] == v[..a];
      DigitRunStops(v, 0, a);
    }
    assert DigitRunEnd(v, a + 1) == b by {
      DigitRunStops(v, a + 1, b);
    }
    assert DigitRunEnd(v, b + 1) == c by {
      DigitRunStops(v, b + 1, c);
    }
  }

  lemma DecimalVersionAccepted(major: nat, minor: nat, patch: nat)
    ensures VersionParts(NatToDecimal(major) + "." + NatToDecimal(minor) + "." + NatToDecimal(patch)).Some?
  {
    var v := NatToDecimal(major) + "." + NatToDecimal(minor) + "." + NatToDecimal(patch);
    assert v == v + [];
    VersionPartsComplete(NatToDecimal(major), NatToDecimal(minor), NatToDecimal(patch), []);
  }

  function ValidateVersionFormat(version: string): Outcome<Error>
  {
    if VersionParts(version).Some? then Pass
    else Fail(NewValidationError("validate_version", "version must follow semantic versioning format (e.g., 1.0.0)"))
  }

  // ---------------------------------------------------------------------
  // Runtime
  // ---------------------------------------------------------------------

  const Runtimes: seq<string> := ["python", "node", "php", "go", "rust", "java"]

  /** `validateRuntime`: the lower-cased runtime must be one of the six; the message shows the lower-cased text. */
  function ValidateRuntime(runtime: string): (r: Outcome<Error>)
    ensures r.Pass? <==> Lower(runtime) in Runtimes
  {
    var lowered := Lower(runtime);
    if lowered in Runtimes then Pass
    else Fail(NewValidationError("validate_runtime",
                                 "unsupported runtime: " + lowered + " (supported: python, node, php, go, rust, java)"))
  }

  /** Case does not matter: "Python" and "GO" are accepted, "ruby" is not. */
  lemma RuntimeExamples()
    ensures ValidateRuntime("Python").Pass? && ValidateRuntime("GO").Pass?
    ensures ValidateRuntime("ruby").Fail?
  {
    assert ValidateRuntime("Python").Pass? by {
      var l := Lower("Python");
      assert l[0] == 'p' && l[1] == 'y' && l[2] == 't' && l[3] == 'h' && l[4] == 'o' && l[5] == 'n';
      assert l == Runtimes[0];
    }
    assert ValidateRuntime("GO").Pass? by {
      var l := Lower("GO");
      assert l[0] == 'g' && l[1] == 'o';
      assert l == Runtimes[3];
    }
    assert ValidateRuntime("ruby").Fail? by {
      var l := Lower("ruby");
      assert l[0] == 'r' && l[2] == 'b';
      assert forall k :: 0 <= k < |Runtimes| ==> Runtimes[k][0] != 'r' || Runtimes[k][2] != 'b';
    }
  }

  // ---------------------------------------------------------------------
  // Manifest, directory, size
  // ---------------------------------------------------------------------

  /** `ValidateManifest`; `None` is the nil manifest. */
  function ValidateManifest(m: Option<Manifest>): Outcome<Error>
  {
    if m.None? then Fail(NewValidationError("validate_manifest", "manifest cannot be nil"))
    else if m.value.slug == "" then Fail(NewValidationError("validate_manifest", "plugin slug is required"))
    else if m.value.name == "" then Fail(NewValidationError("validate_manifest", "plugin name is required"))
    else if m.value.version == "" then Fail(NewValidationError("validate_manifest", "plugin version is required"))
    else if ValidateSlugFormat(m.value.slug).Fail? then ValidateSlugFormat(m.value.slug)
    else if ValidateVersionFormat(m.value.version).Fail? then ValidateVersionFormat(m.value.version)
    else if m.value.runtime != "" && ValidateRuntime(m.value.runtime).Fail? then ValidateRuntime(m.value.runtime)
    else Pass
  }

  /** The manifest rule as one statement. */
  predicate ManifestOk(m: Manifest)
  {
    && m.name != ""
    && SlugOk(m.slug)
    && VersionParts(m.version).Some?
    && (m.runtime == "" || Lower(m.runtime) in Runtimes)
  }

  /**
   * A manifest is accepted exactly when its name is present, its slug and
   * version are well formed and its runtime is absent or known; every
   * refusal is a validation error, and the checks run nil, slug, name,
   * version in that order.
   */
  lemma ValidateManifestIff(m: Option<Manifest>)
    ensures ValidateManifest(m).Pass? <==> m.Some? && ManifestOk(m.value)
    ensures ValidateManifest(m).Fail? ==> IsType(ValidateManifest(m).error, Validation)
    ensures m.None? ==> ValidateManifest(m) == Fail(NewValidationError("validate_manifest", "manifest cannot be nil"))
    ensures m.Some? && m.value.slug == "" ==>
      ValidateManifest(m) == Fail(NewValidationError("validate_manifest", "plugin slug is required"))
    ensures m.Some? && m.value.slug != "" && m.value.name == "" ==>
      ValidateManifest(m) == Fail(NewValidationError("validate_manifest", "plugin name is required"))
    ensures m.Some? && m.value.slug != "" && m.value.name != "" && m.value.version == "" ==>
      ValidateManifest(m) == Fail(NewValidationError("validate_manifest", "plugin version is required"))
  {
    if m.Some? {
      ValidateSlugFormatIff(m.value.slug);
    }
  }

  /** `ValidateSize`: within [minSize, maxSize]; a size below the minimum is reported as such first. */
  function ValidateSize(v: DefaultValidator, sizeMB: int): (r: Outcome<Error>)
    ensures r.Pass? <==> v.minSize <= sizeMB <= v.maxSize
    ensures r.Fail? ==> IsType(r.error, Validation)
  {
    if sizeMB < v.minSize then
      Fail(NewValidationError("validate_size", "size " + IntToDecimal(sizeMB) + "MB is below minimum " + IntToDecimal(v.minSize) + "MB"))
    else if sizeMB > v.maxSize then
      Fail(NewValidationError("validate_size", "size " + IntToDecimal(sizeMB) + "MB exceeds maximum " + IntToDecimal(v.maxSize) + "MB"))
    else Pass
  }

  const RequiredFiles: seq<string> := ["plugin.json", "Dockerfile"]

  /**
   * `ValidateDirectory`, with the filesystem given as whether the directory
   * exists and which names are present in it.
   */
  function ValidateDirectory(pluginDir: string, dirExists: bool, present: set<string>): (r: Outcome<Error>)
    ensures r.Pass? <==> dirExists && forall f :: f in RequiredFiles ==> f in present
  {
    if !dirExists then Fail(NewFileSystemError("validate_directory", "plugin directory does not exist: " + pluginDir))
    else if "plugin.json" !in present then Fail(NewValidationError("validate_directory", "required file missing: plugin.json"))
    else if "Dockerfile" !in present then Fail(NewValidationError("validate_directory", "required file missing: Dockerfile"))
    else Pass
  }
}
