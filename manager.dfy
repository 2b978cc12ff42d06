/**
 * The CLI's plugin manager: loading a manifest through the validator,
 * extracting the two required files from a plugin archive, and turning a
 * plugin name into a file-system-safe name.
 */
module StarterManager {
  import opened Wrappers
  import opened Text
  import opened StarterErrors
  import opened StarterValidator
  import opened StarterMain

  // ---------------------------------------------------------------------
  // LoadManifest
  // ---------------------------------------------------------------------

  /**
   * `LoadManifest`, with the file read and the JSON decoding given as their
   * outcomes: a read failure, a decoding failure, a validation failure, or
   * the validated manifest.
   */
  function LoadManifest(pluginDir: string, readErr: Option<Error>, decoded: Result<Manifest, Error>): Result<Manifest, Error>
  {
    var manifestPath := pluginDir + "/plugin.json";
    if readErr.Some? then
      Err(WrapFileSystemError(readErr.value, "load_manifest", "failed to read manifest file: " + manifestPath))
    else if decoded.Err? then
      Err(WrapValidationError(decoded.error, "load_manifest", "failed to parse plugin manifest JSON"))
    else match ValidateManifest(Some(decoded.value))
      case Fail(e) => Err(Wrap(e, Validation, "load_manifest", "manifest validation failed"))
      case Pass => Ok(decoded.value)
  }

  /**
   * A manifest comes back only when it was read, decoded and accepted by
   * the validator; a refused manifest is a validation error whose cause is
   * the validator's own error.
   */
  lemma LoadManifestGate(pluginDir: string, readErr: Option<Error>, decoded: Result<Manifest, Error>)
    ensures var r := LoadManifest(pluginDir, readErr, decoded);
      && (r.Ok? <==> readErr.None? && decoded.Ok? && ManifestOk(decoded.value))
      && (r.Ok? ==> r.value == decoded.value)
      && (readErr.None? && decoded.Ok? && !ManifestOk(decoded.value) ==>
            r.Err? && IsType(r.error, Validation) && Unwrap(r.error) == Some(ValidateManifest(Some(decoded.value)).error))
      && (readErr.Some? ==> r.Err? && IsType(r.error, FileSystem) && Unwrap(r.error) == readErr)
  {
    if decoded.Ok? {
      ValidateManifestIff(Some(decoded.value));
    }
  }

  // ---------------------------------------------------------------------
  // ExtractZip
  // ---------------------------------------------------------------------

  /** An archive entry, with the outcome of copying it out should it be extracted. */
  datatype ZipFile = ZipFile(name: string, extractErr: Option<Error>)

  predicate IsRequiredName(name: string) { name == "rootfs.ext4" || name == "plugin.json" }

  /** `filepath.Join(destDir, name)`, without its cleaning of the path. */
  function DestPath(destDir: string, name: string): string { destDir + "/" + name }

  /**
   * The loop of `ExtractZip` from one entry on, given what has been found
   * so far: the outcome and the destination paths extraction was attempted on.
   */
  function ExtractFrom(files: seq<ZipFile>, destDir: string, hasRootfs: bool, hasManifest: bool): (r: (Outcome<Error>, seq<string>))
    decreases |files|
  {
    if files == [] then
      if !hasRootfs then (Fail(NewValidationError("extract_zip", "rootfs.ext4 not found in plugin ZIP")), [])
      else if !hasManifest then (Fail(NewValidationError("extract_zip", "plugin.json not found in plugin ZIP")), [])
      else (Pass, [])
    else
      var f := files[0];
      if Contains(f.name, "..") then (Fail(NewValidationError("extract_zip", "invalid file path in ZIP: " + f.name)), [])
      else if !IsRequiredName(f.name) then ExtractFrom(files[1..], destDir, hasRootfs, hasManifest)
      else
        var path := DestPath(destDir, f.name);
        if f.extractErr.Some? then
          (Fail(Wrap(f.extractErr.value, FileSystem, "extract_zip", "failed to extract file: " + f.name)), [path])
        else
          var rest := ExtractFrom(files[1..], destDir, hasRootfs || f.name == "rootfs.ext4", hasManifest || f.name == "plugin.json");
          (rest.0, [path] + rest.1)
  }

  /** Extraction is only ever attempted on the two required destination paths. */
  lemma {:induction false} ExtractAttemptsOnlyRequired(files: seq<ZipFile>, destDir: string, hasRootfs: bool, hasManifest: bool)
    ensures forall path :: path in ExtractFrom(files, destDir, hasRootfs, hasManifest).1 ==>
      exists name :: IsRequiredName(name) && path == DestPath(destDir, name)
    decreases |files|
  {
    if files != [] {
      var f := files[0];
      if !Contains(f.name, "..") {
        if !IsRequiredName(f.name) {
          ExtractAttemptsOnlyRequired(files[1..], destDir, hasRootfs, hasManifest);
        } else if f.extractErr.None? {
          ExtractAttemptsOnlyRequired(files[1..], destDir, hasRootfs || f.name == "rootfs.ext4", hasManifest || f.name == "plugin.json");
        }
      }
    }
  }

  /** `ExtractZip` as a whole: opening the archive and creating the destination come first. */
  function ExtractZipSpec(openErr: Option<Error>, mkdirErr: Option<Error>, files: seq<ZipFile>, destDir: string): (Outcome<Error>, seq<string>)
  {
    if openErr.Some? then (Fail(WrapFileSystemError(openErr.value, "extract_zip", "failed to open ZIP file")), [])
    else if mkdirErr.Some? then (Fail(WrapFileSystemError(mkdirErr.value, "extract_zip", "failed to create destination directory")), [])
    else ExtractFrom(files, destDir, false, false)
  }

  /** `ExtractZip`: one pass over the entries with the two found-flags. */
  method ExtractZip(openErr: Option<Error>, mkdirErr: Option<Error>, files: seq<ZipFile>, destDir: string)
    returns (out: Outcome<Error>, attempted: seq<string>)
    ensures (out, attempted) == ExtractZipSpec(openErr, mkdirErr, files, destDir)
  {
    if openErr.Some? {
      return Fail(WrapFileSystemError(openErr.value, "extract_zip", "failed to open ZIP file")), [];
    }
    if mkdirErr.Some? {
      return Fail(WrapFileSystemError(mkdirErr.value, "extract_zip", "failed to create destination directory")), [];
    }
    var hasRootfs, hasManifest := false, false;
    attempted := [];
    var i := 0;
    assert files[0..] == files;
    while i < |files|
      invariant 0 <= i <= |files|
      invariant ExtractFrom(files, destDir, false, false).0 == ExtractFrom(files[i..], destDir, hasRootfs, hasManifest).0
      invariant ExtractFrom(files, destDir, false, false).1 == attempted + ExtractFrom(files[i..], destDir, hasRootfs, hasManifest).1
    {
      var f := files[i];
      assert files[i..][0] == f && files[i..][1..] == files[i + 1..];
      if Contains(f.name, "..") {
        assert attempted + [] == attempted;
        return Fail(NewValidationError("extract_zip", "invalid file path in ZIP: " + f.name)), attempted;
      }
      if !IsRequiredName(f.name) {
        i := i + 1;
        continue;
      }
      var path := DestPath(destDir, f.name);
      ghost var rest := ExtractFrom(files[i + 1..], destDir, hasRootfs || f.name == "rootfs.ext4", hasManifest || f.name == "plugin.json");
      assert attempted + ([path] + rest.1) == (attempted + [path]) + rest.1;
      attempted := attempted + [path];
      if f.extractErr.Some? {
        return Fail(Wrap(f.extractErr.value, FileSystem, "extract_zip", "failed to extract file: " + f.name)), attempted;
      }
      if f.name == "rootfs.ext4" {
        hasRootfs := true;
      } else if f.name == "plugin.json" {
        hasManifest := true;
      }
      i := i + 1;
    }
    assert attempted + [] == attempted;
    if !hasRootfs {
      return Fail(NewValidationError("extract_zip", "rootfs.ext4 not found in plugin ZIP")), attempted;
    }
    if !hasManifest {
      return Fail(NewValidationError("extract_zip", "plugin.json not found in plugin ZIP")), attempted;
    }
    out := Pass;
  }

  function Names(files: seq<ZipFile>): seq<string>
  {
    seq(|files|, k requires 0 <= k < |files| => files[k].name)
  }

  /** An entry whose name contains ".." makes the extraction fail, wherever it stands. */
  lemma {:induction false} ExtractRefusesTraversal(files: seq<ZipFile>, destDir: string, hasRootfs: bool, hasManifest: bool, k: nat)
    requires k < |files| && Contains(files[k].name, "..")
    ensures ExtractFrom(files, destDir, hasRootfs, hasManifest).0.Fail?
    decreases |files|
  {
    var f := files[0];
    if k > 0 && !Contains(f.name, "..") && (!IsRequiredName(f.name) || f.extractErr.None?) {
      assert files[1..][k - 1] == files[k];
      ExtractRefusesTraversal(files[1..], destDir, hasRootfs || f.name == "rootfs.ext4",
                              hasManifest || f.name == "plugin.json", k - 1);
    }
  }

  /**
   * An archive with no ".." names and no failing copy succeeds exactly when
   * both required names occur; a missing rootfs is reported before a
   * missing manifest.
   */
  lemma {:induction false} ExtractCleanArchive(files: seq<ZipFile>, destDir: string, hasRootfs: bool, hasManifest: bool)
    requires forall k :: 0 <= k < |files| ==> !Contains(files[k].name, "..")
    requires forall k :: 0 <= k < |files| ==> IsRequiredName(files[k].name) ==> files[k].extractErr.None?
    ensures var out := ExtractFrom(files, destDir, hasRootfs, hasManifest).0;
      var foundRootfs := hasRootfs || "rootfs.ext4" in Names(files);
      var foundManifest := hasManifest || "plugin.json" in Names(files);
      && (out.Pass? <==> foundRootfs && foundManifest)
      && (!foundRootfs ==> out == Fail(NewValidationError("extract_zip", "rootfs.ext4 not found in plugin ZIP")))
      && (foundRootfs && !foundManifest ==> out == Fail(NewValidationError("extract_zip", "plugin.json not found in plugin ZIP")))
    decreases |files|
  {
    if files != [] {
      var f := files[0];
      ExtractCleanArchive(files[1..], destDir, hasRootfs || f.name == "rootfs.ext4", hasManifest || f.name == "plugin.json");
      assert Names(files) == [f.name] + Names(files[1..]);
    }
  }

  // ---------------------------------------------------------------------
  // SanitizeName
  // ---------------------------------------------------------------------

  /** No two hyphens side by side. */
  predicate NoDoubleHyphen(s: string)
  {
    forall i :: 0 <= i < |s| - 1 ==> !(s[i] == '-' && s[i + 1] == '-')
  }

  lemma {:induction false} ContainsDoubleHyphen(s: string)
    ensures Contains(s, "--") <==> !NoDoubleHyphen(s)
    decreases |s|
  {
    if s != [] {
      ContainsDoubleHyphen(s[1..]);
      assert HasPrefix(s, "--") <==> |s| >= 2 && s[0] == '-' && s[1] == '-' by {
        if |s| >= 2 {
          assert s[..2] == [s[0], s[1]];
        }
      }
      assert forall i :: 1 <= i < |s| ==> s[1..][i - 1] == s[i];
      assert NoDoubleHyphen(s) <==> !(|s| >= 2 && s[0] == '-' && s[1] == '-') && NoDoubleHyphen(s[1..]);
    }
  }

  /** `strings.ReplaceAll(s, "--", "-")`: non-overlapping, left to right. */
  function ReplaceDoubleHyphens(s: string): (r: string)
    ensures |r| <= |s|
    ensures Contains(s, "--") ==> |r| < |s|
    decreases |s|
  {
    if HasPrefix(s, "--") then "-" + ReplaceDoubleHyphens(s[2..])
    else if s == [] then []
    else [s[0]] + ReplaceDoubleHyphens(s[1..])
  }

  /** Every run of hyphens shrunk to one hyphen. */
  function CollapseHyphens(s: string): (r: string)
    ensures |r| <= |s|
    ensures forall i :: 0 <= i < |r| ==> r[i] in s
    ensures s != [] ==> r != [] && r[0] == s[0]
    ensures NoDoubleHyphen(r)
    decreases |s|
  {
    if |s| >= 2 && s[0] == '-' && s[1] == '-' then CollapseHyphens(s[1..])
    else if s == [] then []
    else
      var rest := CollapseHyphens(s[1..]);
      assert forall i :: 1 <= i < |s| ==> s[i] == s[1..][i - 1];
      [s[0]] + rest
  }

  /** One step of the collapse on a character in front of a string. */
  lemma CollapseCons(c: char, x: string)
    ensures CollapseHyphens([c] + x) ==
      if c == '-' && x != [] && x[0] == '-' then CollapseHyphens(x) else [c] + CollapseHyphens(x)
  {
    assert ([c] + x)[1..] == x;
  }

  /** A string without double hyphens is its own collapse. */
  lemma {:induction false} CollapseFixes(s: string)
    requires NoDoubleHyphen(s)
    ensures CollapseHyphens(s) == s
    decreases |s|
  {
    if s != [] {
      assert NoDoubleHyphen(s[1..]) by {
        assert forall i :: 0 <= i < |s| - 1 ==> s[1..][i] == s[i + 1];
      }
      CollapseFixes(s[1..]);
      CollapseCons(s[0], s[1..]);
      assert [s[0]] + s[1..] == s;
    }
  }

  /** `CollapseReplace` for a string starting with "--", given it for the rest. */
  lemma CollapseReplaceDouble(s: string)
    requires HasPrefix(s, "--")
    requires CollapseHyphens(ReplaceDoubleHyphens(s[2..])) == CollapseHyphens(s[2..])
    requires CollapseHyphens("-" + ReplaceDoubleHyphens(s[2..])) == CollapseHyphens("-" + s[2..])
    ensures CollapseHyphens(ReplaceDoubleHyphens(s)) == CollapseHyphens(s)
    ensures CollapseHyphens("-" + ReplaceDoubleHyphens(s)) == CollapseHyphens("-" + s)
  {
    assert s[0] == '-' && s[1] == '-' by {
      assert s[..2][0] == s[0] && s[..2][1] == s[1];
    }
    var u := s[2..];
    var ru := ReplaceDoubleHyphens(u);
    assert s[1..] == "-" + u;
    assert ReplaceDoubleHyphens(s) == "-" + ru;
    assert CollapseHyphens(s) == CollapseHyphens("-" + u);
    CollapseCons('-', s);
    CollapseCons('-', "-" + ru);
  }

  /** `CollapseReplace` for a non-empty string not starting with "--", given it for the rest. */
  lemma CollapseReplaceSingle(s: string)
    requires s != [] && !HasPrefix(s, "--")
    requires CollapseHyphens(ReplaceDoubleHyphens(s[1..])) == CollapseHyphens(s[1..])
    ensures CollapseHyphens(ReplaceDoubleHyphens(s)) == CollapseHyphens(s)
    ensures CollapseHyphens("-" + ReplaceDoubleHyphens(s)) == CollapseHyphens("-" + s)
  {
    var c, t := s[0], s[1..];
    var rt := ReplaceDoubleHyphens(t);
    var rs := ReplaceDoubleHyphens(s);
    assert s == [c] + t;
    assert rs == [c] + rt;
    assert c == '-' ==> t == [] || t[0] != '-';
    if t != [] && t[0] != '-' {
      ReplaceKeepsHead(t);
    }
    assert CollapseHyphens(s) == [c] + CollapseHyphens(t) by {
      CollapseCons(c, t);
    }
    assert CollapseHyphens(rs) == [c] + CollapseHyphens(rt) by {
      CollapseCons(c, rt);
    }
    if c == '-' {
      assert CollapseHyphens("-" + s) == CollapseHyphens(s) by {
        CollapseCons('-', s);
      }
      assert CollapseHyphens("-" + rs) == CollapseHyphens(rs) by {
        CollapseCons('-', rs);
      }
    } else {
      assert CollapseHyphens("-" + s) == "-" + CollapseHyphens(s) by {
        CollapseCons('-', s);
      }
      assert CollapseHyphens("-" + rs) == "-" + CollapseHyphens(rs) by {
        CollapseCons('-', rs);
      }
    }
  }

  /** A pass over a string not starting with a hyphen keeps its first character. */
  lemma ReplaceKeepsHead(t: string)
    requires t != [] && t[0] != '-'
    ensures ReplaceDoubleHyphens(t) != [] && ReplaceDoubleHyphens(t)[0] == t[0]
  {
    assert !HasPrefix(t, "--");
  }

  /** One `ReplaceAll` pass does not change what the runs collapse to, with or without a hyphen in front. */
  lemma {:induction false} CollapseReplace(s: string)
    ensures CollapseHyphens(ReplaceDoubleHyphens(s)) == CollapseHyphens(s)
    ensures CollapseHyphens("-" + ReplaceDoubleHyphens(s)) == CollapseHyphens("-" + s)
    decreases |s|
  {
    if s == [] {
    } else if HasPrefix(s, "--") {
      CollapseReplace(s[2..]);
      CollapseReplaceDouble(s);
    } else {
      CollapseReplace(s[1..]);
      CollapseReplaceSingle(s);
    }
  }

  /** What `SanitizeName` computes: sanitize, collapse hyphen runs, trim hyphens at both ends. */
  function SanitizedName(name: string): string
  {
    TrimChar(CollapseHyphens(Sanitize(name)), '-')
  }

  /** `SanitizeName`: rewrite the string until no "--" remains, then trim. */
  method SanitizeName(name: string) returns (r: string)
    ensures r == SanitizedName(name)
  {
    var s := Sanitize(name);
    while Contains(s, "--")
      invariant CollapseHyphens(s) == CollapseHyphens(Sanitize(name))
      decreases |s|
    {
      CollapseReplace(s);
      s := ReplaceDoubleHyphens(s);
    }
    ContainsDoubleHyphen(s);
    CollapseFixes(s);
    r := TrimChar(s, '-');
  }

  /** `strings.Trim` keeps a contiguous piece of its input. */
  lemma {:induction false} TrimIsSlice(s: string, c: char) returns (i: nat, j: nat)
    ensures i <= j <= |s| && TrimChar(s, c) == s[i..j]
    decreases |s|
  {
    if s == [] {
      i, j := 0, 0;
    } else if s[0] == c {
      var i', j' := TrimIsSlice(s[1..], c);
      i, j := i' + 1, j' + 1;
      assert s[1..][i'..j'] == s[i..j];
    } else if s[|s| - 1] == c {
      i, j := TrimIsSlice(s[..|s| - 1], c);
      assert s[..|s| - 1][i..j] == s[i..j];
    } else {
      i, j := 0, |s|;
      assert s[0..|s|] == s;
    }
  }

  /**
   * The sanitized name holds only [a-z0-9-_.], has no "--" and neither
   * starts nor ends with '-'.
   */
  lemma SanitizedNameShape(name: string)
    ensures var r := SanitizedName(name);
      && (forall i :: 0 <= i < |r| ==> NameChar(r[i]))
      && NoDoubleHyphen(r)
      && (r != [] ==> r[0] != '-' && r[|r| - 1] != '-')
  {
    SanitizedNameChars(name);
    SanitizedNameNoDoubleHyphen(name);
  }

  /** Every character of the sanitized name is one `sanitize` allows. */
  lemma SanitizedNameChars(name: string)
    ensures var r := SanitizedName(name);
      forall i :: 0 <= i < |r| ==> NameChar(r[i])
  {
    var s := Sanitize(name);
    var c := CollapseHyphens(s);
    assert forall x :: x in s ==> NameChar(x);
    assert forall k :: 0 <= k < |c| ==> NameChar(c[k]);
    var i, j := TrimIsSlice(c, '-');
    assert forall k :: 0 <= k < j - i ==> c[i..j][k] == c[i + k];
  }

  /** Trimming the collapsed name cannot bring two hyphens together. */
  lemma SanitizedNameNoDoubleHyphen(name: string)
    ensures NoDoubleHyphen(SanitizedName(name))
  {
    var c := CollapseHyphens(Sanitize(name));
    var i, j := TrimIsSlice(c, '-');
    SliceKeepsNoDoubleHyphen(c, i, j);
  }

  lemma SliceKeepsNoDoubleHyphen(s: string, i: nat, j: nat)
    requires i <= j <= |s| && NoDoubleHyphen(s)
    ensures NoDoubleHyphen(s[i..j])
  {
    assert forall k :: 0 <= k < j - i ==> s[i..j][k] == s[i + k];
  }

  /** An already clean name (allowed characters, no "--", no hyphen at either end) is left unchanged. */
  lemma SanitizedNameFixesClean(s: string)
    requires forall i :: 0 <= i < |s| ==> NameChar(s[i])
    requires NoDoubleHyphen(s) && (s != [] ==> s[0] != '-' && s[|s| - 1] != '-')
    ensures SanitizedName(s) == s
  {
    SanitizeFixesClean(s);
    CollapseFixes(s);
  }

  /** Sanitizing twice gives the same name as sanitizing once. */
  lemma SanitizedNameIdempotent(name: string)
    ensures SanitizedName(SanitizedName(name)) == SanitizedName(name)
  {
    SanitizedNameShape(name);
    SanitizedNameFixesClean(SanitizedName(name));
  }
}
