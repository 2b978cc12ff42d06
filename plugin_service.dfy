/**
 * The control plane's plugin service: the slug -> plugin registry with its
 * lifecycle (delete, activate, deactivate), action dispatch to the active
 * plugins by priority, and the checks on uploaded plugin archives.
 *
 * Everything that reaches outside the process is a parameter: whether the
 * registry file could be saved, what the machine and snapshot steps report,
 * the answers to the health and action HTTP requests.
 */
module PluginService {
  import opened Wrappers
  import Text
  import opened PluginModel
  import opened VmService
  import IpAllocation

  // ---------------------------------------------------------------------
  // Archive and metadata checks
  // ---------------------------------------------------------------------

  const RootfsName: string := "rootfs.ext4"
  const ManifestName: string := "plugin.json"

  /** Why writing one archive member to disk failed. */
  datatype ExtractFailure = OpenFailed(err: string) | CreateFailed(err: string) | CopyFailed(err: string)

  /** One archive member: its name, and the failure (if any) when it is written out. */
  datatype ZipEntry = ZipEntry(name: string, failure: Option<ExtractFailure>)

  predicate IsRequired(name: string) { name == RootfsName || name == ManifestName }

  /** A member that neither escapes the directory nor fails to extract. */
  predicate CleanEntry(e: ZipEntry) {
    !Text.Contains(e.name, "..") && (IsRequired(e.name) ==> e.failure.None?)
  }

  function ExtractFailureMessage(name: string, destPath: string, f: ExtractFailure): string {
    match f
    case OpenFailed(err) => "failed to open file " + name + " in ZIP: " + err
    case CreateFailed(err) => "failed to create file " + destPath + ": " + err
    case CopyFailed(err) => "failed to extract file " + name + ": " + err
  }

  /**
   * The loop of `extractPluginZip` from member `i` on, with the two
   * found-flags so far: a name containing ".." is refused, names other than
   * the two required ones are skipped, and after the last member a missing
   * root filesystem is reported before a missing manifest.
   */
  function ExtractFrom(entries: seq<ZipEntry>, destDir: string, i: nat, hasRootfs: bool, hasManifest: bool): (r: Outcome<string>)
    requires i <= |entries|
    decreases |entries| - i
  {
    if i == |entries| then
      if !hasRootfs then Fail("rootfs.ext4 not found in plugin ZIP")
      else if !hasManifest then Fail("plugin.json not found in plugin ZIP")
      else Pass
    else
      var e := entries[i];
      if Text.Contains(e.name, "..") then Fail("invalid file path in ZIP: " + e.name)
      else if !IsRequired(e.name) then ExtractFrom(entries, destDir, i + 1, hasRootfs, hasManifest)
      else if e.failure.Some? then Fail(ExtractFailureMessage(e.name, destDir + "/" + e.name, e.failure.value))
      else ExtractFrom(entries, destDir, i + 1, hasRootfs || e.name == RootfsName, hasManifest || e.name == ManifestName)
  }

  /** `extractPluginZip`: `openErr` is the failure to open the archive itself. */
  function ExtractPluginZip(openErr: Option<string>, entries: seq<ZipEntry>, destDir: string): Outcome<string>
  {
    if openErr.Some? then Fail("failed to open ZIP file: " + openErr.value)
    else ExtractFrom(entries, destDir, 0, false, false)
  }

  function Names(entries: seq<ZipEntry>): seq<string>
  {
    seq(|entries|, i requires 0 <= i < |entries| => entries[i].name)
  }

  /** The flags after a run of clean members record which required names were among them. */
  lemma {:induction false} ExtractCleanSuffix(entries: seq<ZipEntry>, destDir: string, i: nat, hasRootfs: bool, hasManifest: bool)
    requires i <= |entries|
    requires forall k :: i <= k < |entries| ==> CleanEntry(entries[k])
    ensures ExtractFrom(entries, destDir, i, hasRootfs, hasManifest) ==
      if !(hasRootfs || RootfsName in Names(entries)[i..]) then Fail("rootfs.ext4 not found in plugin ZIP")
      else if !(hasManifest || ManifestName in Names(entries)[i..]) then Fail("plugin.json not found in plugin ZIP")
      else Pass
    decreases |entries| - i
  {
    if i < |entries| {
      var e := entries[i];
      assert Names(entries)[i..] == [e.name] + Names(entries)[i + 1..];
      ExtractSkipsClean(entries, destDir, i, hasRootfs, hasManifest);
      ExtractCleanSuffix(entries, destDir, i + 1, hasRootfs || e.name == RootfsName, hasManifest || e.name == ManifestName);
    }
  }

  /**
   * An archive whose members are all clean is accepted exactly when it holds
   * both required files; without the root filesystem that is the error
   * reported, whether or not the manifest is there.
   */
  lemma ExtractCleanArchive(entries: seq<ZipEntry>, destDir: string)
    requires forall k :: 0 <= k < |entries| ==> CleanEntry(entries[k])
    ensures ExtractPluginZip(None, entries, destDir).Pass? <==>
      RootfsName in Names(entries) && ManifestName in Names(entries)
    ensures RootfsName !in Names(entries) ==>
      ExtractPluginZip(None, entries, destDir) == Fail("rootfs.ext4 not found in plugin ZIP")
  {
    ExtractCleanSuffix(entries, destDir, 0, false, false);
    assert Names(entries)[0..] == Names(entries);
  }

  /** The first member whose name contains ".." is refused, whatever follows it. */
  lemma {:induction false} ExtractRefusesTraversal(entries: seq<ZipEntry>, destDir: string, j: nat)
    requires j < |entries| && Text.Contains(entries[j].name, "..")
    requires forall k :: 0 <= k < j ==> CleanEntry(entries[k])
    ensures ExtractPluginZip(None, entries, destDir) == Fail("invalid file path in ZIP: " + entries[j].name)
  {
    ExtractPrefixClean(entries, destDir, j, 0, false, false);
  }

  /** A clean member only records whether it was one of the required files. */
  lemma ExtractSkipsClean(entries: seq<ZipEntry>, destDir: string, i: nat, hasRootfs: bool, hasManifest: bool)
    requires i < |entries| && CleanEntry(entries[i])
    ensures ExtractFrom(entries, destDir, i, hasRootfs, hasManifest) ==
      ExtractFrom(entries, destDir, i + 1, hasRootfs || entries[i].name == RootfsName,
                  hasManifest || entries[i].name == ManifestName)
  {
  }

  lemma {:induction false} ExtractPrefixClean(entries: seq<ZipEntry>, destDir: string, j: nat, i: nat, hasRootfs: bool, hasManifest: bool)
    requires i <= j < |entries| && Text.Contains(entries[j].name, "..")
    requires forall k :: i <= k < j ==> CleanEntry(entries[k])
    ensures ExtractFrom(entries, destDir, i, hasRootfs, hasManifest) == Fail("invalid file path in ZIP: " + entries[j].name)
    decreases j - i
  {
    if i < j {
      ExtractSkipsClean(entries, destDir, i, hasRootfs, hasManifest);
      ExtractPrefixClean(entries, destDir, j, i + 1, hasRootfs || entries[i].name == RootfsName,
                         hasManifest || entries[i].name == ManifestName);
    }
  }

  /** The decoded `plugin.json`. */
  datatype Metadata = Metadata(
    slug: string, name: string, description: string, version: string,
    author: string, runtime: string, actions: map<string, PluginAction>)

  /**
   * `parsePluginJson` after reading and decoding: a read or decode failure
   * is reported first, then a missing slug, name and version, in that order.
   */
  function ParseMetadata(readErr: Option<string>, decoded: Result<Metadata, string>): (r: Result<Metadata, string>)
    ensures r.Ok? <==> (readErr.None? && decoded.Ok? &&
      decoded.value.slug != "" && decoded.value.name != "" && decoded.value.version != "")
    ensures r.Ok? ==> r.value == decoded.value
    ensures readErr.None? && decoded.Ok? && decoded.value.slug == "" ==> r == Err("plugin slug is required")
    ensures readErr.None? && decoded.Ok? && decoded.value.slug != "" && decoded.value.name == "" ==>
      r == Err("plugin name is required")
    ensures (readErr.None? && decoded.Ok? && decoded.value.slug != "" && decoded.value.name != "" &&
      decoded.value.version == "") ==> r == Err("plugin version is required")
  {
    if readErr.Some? then Err("failed to read plugin.json: " + readErr.value)
    else if decoded.Err? then Err("failed to parse plugin.json: " + decoded.error)
    else
      var m := decoded.value;
      if m.slug == "" then Err("plugin slug is required")
      else if m.name == "" then Err("plugin name is required")
      else if m.version == "" then Err("plugin version is required")
      else Ok(m)
  }

  /** `parsePluginJson`: the plugin record for valid metadata, with every other field at its zero value. */
  method ParsePluginJson(readErr: Option<string>, decoded: Result<Metadata, string>) returns (r: Result<Plugin, string>)
    ensures r.Err? <==> ParseMetadata(readErr, decoded).Err?
    ensures r.Err? ==> r.error == ParseMetadata(readErr, decoded).error
    ensures r.Ok? ==> fresh(r.value) && r.value.slug == decoded.value.slug && r.value.status == ""
    ensures r.Ok? ==> r.value.actions == decoded.value.actions
  {
    var m := ParseMetadata(readErr, decoded);
    if m.Err? {
      return Err(m.error);
    }
    var md := m.value;
    var p := new Plugin.FromMetadata(md.slug, md.name, md.description, md.version, md.author, md.runtime, md.actions);
    return Ok(p);
  }

  // ---------------------------------------------------------------------
  // Health checks
  // ---------------------------------------------------------------------

  /** The error after the last attempt failed with `lastErr`. */
  function FailedAfter(maxRetries: int, lastErr: string): string
  {
    "health check failed after " + Text.IntToDecimal(maxRetries) + " attempts: " + lastErr
  }

  /** One answer to a `GET /health` request: a transport error, or a reply with its "status" field. */
  datatype HealthProbe = RequestFailed(err: string) | Replied(status: Option<string>, rendered: string)

  predicate Healthy(p: HealthProbe) {
    p.Replied? && p.status == Some(HealthHealthy)
  }

  /** The error an unsuccessful attempt leaves in `lastErr`. */
  function ProbeError(p: HealthProbe): string
  {
    match p
    case RequestFailed(err) => err
    case Replied(_, rendered) => "unhealthy status response: " + rendered
  }

  /** The first attempt in [from, maxRetries] whose reply is healthy. */
  function FirstHealthy(probe: nat -> HealthProbe, from: nat, maxRetries: int): (r: Option<nat>)
    ensures r.Some? ==> from <= r.value <= maxRetries && Healthy(probe(r.value))
    ensures r.Some? ==> forall k :: from <= k < r.value ==> !Healthy(probe(k))
    ensures r.None? ==> forall k :: from <= k <= maxRetries ==> !Healthy(probe(k))
    decreases maxRetries - from
  {
    if from > maxRetries then None
    else if Healthy(probe(from)) then Some(from)
    else FirstHealthy(probe, from + 1, maxRetries)
  }

  /**
   * `healthCheckWithRetries`: attempt `k` gets the answer `probe(k)`. The
   * check succeeds at the first healthy answer; after `maxRetries` failed
   * attempts it fails with the last attempt's error. `attempts` counts the
   * requests made.
   */
  method HealthCheckWithRetries(probe: nat -> HealthProbe, maxRetries: int)
    returns (out: Outcome<string>, ghost attempts: nat)
    ensures out.Pass? <==> FirstHealthy(probe, 1, maxRetries).Some?
    ensures out.Pass? <==> exists k :: 1 <= k <= maxRetries && Healthy(probe(k))
    ensures out.Pass? ==> attempts == FirstHealthy(probe, 1, maxRetries).value
    ensures out.Fail? ==> attempts == (if maxRetries < 0 then 0 else maxRetries)
    ensures out.Fail? ==> out.error == FailedAfter(maxRetries,
      if maxRetries >= 1 then ProbeError(probe(maxRetries)) else "<nil>")
    ensures out == HealthCheckSpec(probe, maxRetries)
  {
    var lastErr: Option<string> := None;
    var attempt := 1;
    attempts := 0;
    while attempt <= maxRetries
      invariant 1 <= attempt <= (if maxRetries >= 1 then maxRetries + 1 else 1)
      invariant attempts == attempt - 1
      invariant forall k :: 1 <= k < attempt ==> !Healthy(probe(k))
      invariant attempt > 1 ==> lastErr == Some(ProbeError(probe(attempt - 1)))
      invariant attempt == 1 ==> lastErr.None?
    {
      var response := probe(attempt);
      attempts := attempts + 1;
      if Healthy(response) {
        ghost var first := FirstHealthy(probe, 1, maxRetries);
        assert first.Some? && first.value == attempt;
        assert 1 <= attempt <= maxRetries && Healthy(probe(attempt));
        return Pass, attempts;
      }
      lastErr := Some(ProbeError(response));
      attempt := attempt + 1;
    }
    assert FirstHealthy(probe, 1, maxRetries).None?;
    var lastText := if lastErr.Some? then lastErr.value else "<nil>";
    out := Fail(FailedAfter(maxRetries, lastText));
  }

  /** What `healthCheckWithRetries` reports: success at a healthy answer, else the last attempt's error. */
  function HealthCheckSpec(probe: nat -> HealthProbe, maxRetries: int): Outcome<string>
  {
    if FirstHealthy(probe, 1, maxRetries).Some? then Pass
    else Fail(FailedAfter(maxRetries, if maxRetries >= 1 then ProbeError(probe(maxRetries)) else "<nil>"))
  }

  /** Activation waits for up to 30 health answers. */
  const ActivationRetries: int := 30

  // ---------------------------------------------------------------------
  // Registry
  // ---------------------------------------------------------------------

  /**
   * `DeletePlugin` on the registry map: an absent slug is an error that
   * changes nothing; otherwise the entry is removed, and a failure to save
   * the registry is reported after the removal has happened.
   */
  function DeleteSpec(plugins: map<string, Plugin>, slug: string, saveErr: Option<string>): (r: (map<string, Plugin>, Outcome<string>))
  {
    if slug !in plugins then (plugins, Fail("plugin not found"))
    else
      var rest := plugins - {slug};
      if saveErr.Some? then (rest, Fail("failed to save plugins: " + saveErr.value)) else (rest, Pass)
  }

  /** Deleting removes exactly the given slug, or reports it missing and changes nothing. */
  lemma DeleteRemovesOnlySlug(plugins: map<string, Plugin>, slug: string, saveErr: Option<string>)
    ensures var (after, out) := DeleteSpec(plugins, slug, saveErr);
      && (slug !in plugins ==> after == plugins && out == Fail("plugin not found"))
      && (slug in plugins ==> after.Keys == plugins.Keys - {slug})
      && (forall s :: s in after ==> s in plugins && after[s] == plugins[s])
      && (out.Pass? <==> slug in plugins && saveErr.None?)
  {
  }

  /** The error `savePluginsUnsafe` turns into when activation or deactivation saves the registry. */
  function SaveOutcome(saveErr: Option<string>): (out: Outcome<string>)
  {
    if saveErr.Some? then Fail("failed to save plugin state: " + saveErr.value) else Pass
  }

  /**
   * `DeactivatePlugin` on a registered plugin's record: an inactive plugin
   * is returned as it is; otherwise only its status changes.
   */
  function DeactivateSpec(rec: PluginRecord, saveErr: Option<string>): (PluginRecord, Outcome<string>)
  {
    if rec.status == StatusInactive then (rec, Pass)
    else (rec.(status := StatusInactive), SaveOutcome(saveErr))
  }

  /**
   * Deactivation leaves the plugin inactive and changes nothing but its
   * status; it fails only on a save error, and a second deactivation
   * changes nothing and succeeds.
   */
  lemma DeactivateEffect(rec: PluginRecord, saveErr: Option<string>, saveErr2: Option<string>)
    ensures var (after, out) := DeactivateSpec(rec, saveErr);
      && after.status == StatusInactive
      && after == rec.(status := StatusInactive)
      && (out.Fail? <==> rec.status != StatusInactive && saveErr.Some?)
      && (out.Fail? ==> out.error == "failed to save plugin state: " + saveErr.value)
      && DeactivateSpec(after, saveErr2) == (after, Pass)
  {
  }

  /**
   * The last steps of `ActivatePlugin`, once the health check has passed:
   * the snapshot, the pause (a failure stops the machine instead), the
   * address and tap device, and the save.
   */
  function ActivateHealthy(rec: PluginRecord, s1: Service, slug: string, snapshotErr: Option<string>,
                           pauseErr: Option<string>, tapName: string, saveErr: Option<string>)
    : (PluginRecord, Service, Outcome<string>)
    requires ServiceValid(s1) && slug in s1.net.ipPool
  {
    if snapshotErr.Some? then (rec, s1, Fail("failed to create snapshot: " + snapshotErr.value))
    else
      (rec.(assignedIP := IpAllocation.Ip(s1.net.ipPool[slug]), tapDevice := tapName, status := StatusActive),
       if pauseErr.Some? then StopVMSpec(s1, slug) else s1,
       SaveOutcome(saveErr))
  }

  /**
   * The part of `ActivatePlugin` after its machine has started: the
   * address lookup and the health check (a failure stops the machine
   * again), then the steps of `ActivateHealthy`.
   */
  function ActivateStarted(rec: PluginRecord, s1: Service, slug: string, probe: nat -> HealthProbe,
                              snapshotErr: Option<string>, pauseErr: Option<string>,
                              tapName: string, saveErr: Option<string>): (PluginRecord, Service, Outcome<string>)
    requires ServiceValid(s1)
  {
    if slug !in s1.net.ipPool then (rec, s1, Fail("failed to get VM IP after start"))
    else
      var health := HealthCheckSpec(probe, ActivationRetries);
      if health.Fail? then
        (rec.(status := StatusFailed, health := PluginHealth(HealthUnhealthy, health.error, 0)),
         StopVMSpec(s1, slug),
         Fail("plugin failed health validation: " + health.error))
      else
        ActivateHealthy(rec.(health := PluginHealth(HealthHealthy, "Plugin validated successfully", 0)),
                        s1, slug, snapshotErr, pauseErr, tapName, saveErr)
  }

  /** The path of `ActivatePlugin` that starts a machine: the start, then `ActivateStarted`. */
  function ActivateFresh(rec: PluginRecord, s: Service, slug: string,
                         setupErr: Option<string>, createErr: Option<string>, startErr: Option<string>,
                         probe: nat -> HealthProbe, snapshotErr: Option<string>, pauseErr: Option<string>,
                         tapName: string, saveErr: Option<string>): (PluginRecord, Service, Outcome<string>)
    requires ServiceValid(s)
  {
    var (s1, started) := StartVMSpec(s, slug, setupErr, createErr, startErr);
    if started.Fail? then (rec, s1, Fail("failed to start VM: " + started.error))
    else ActivateStarted(rec, s1, slug, probe, snapshotErr, pauseErr, tapName, saveErr)
  }

  /**
   * After the start, the service stays valid and only the plugin's status,
   * health, address and tap device change; the plugin ends active exactly
   * when the outcome is a success (a save error aside), failed exactly when
   * the health check fails, and a success follows a healthy answer and
   * records the instance's address and the tap name.
   */
  lemma ActivateStartedEffect(rec: PluginRecord, s1: Service, slug: string, probe: nat -> HealthProbe,
                              snapshotErr: Option<string>, pauseErr: Option<string>,
                              tapName: string, saveErr: Option<string>)
    requires ServiceValid(s1)
    ensures var (after, t, out) := ActivateStarted(rec, s1, slug, probe, snapshotErr, pauseErr, tapName, saveErr);
      && ServiceValid(t)
      && after == rec.(status := after.status, health := after.health,
                       assignedIP := after.assignedIP, tapDevice := after.tapDevice)
      && (after.status == rec.status || after.status in {StatusActive, StatusFailed})
      && (out.Pass? ==> after.status == StatusActive)
      && (after.status == StatusFailed && rec.status != StatusFailed ==>
            out.Fail? && Text.HasPrefix(out.error, "plugin failed health validation: "))
      && (out.Pass? ==>
            && (exists k :: 1 <= k <= ActivationRetries && Healthy(probe(k)))
            && after.tapDevice == tapName
            && slug in s1.net.ipPool
            && after.assignedIP == IpAllocation.Ip(s1.net.ipPool[slug]))
  {
    var (after, t, out) := ActivateStarted(rec, s1, slug, probe, snapshotErr, pauseErr, tapName, saveErr);
    if slug in s1.net.ipPool {
      var health := HealthCheckSpec(probe, ActivationRetries);
      if health.Fail? {
        assert ("plugin failed health validation: " + health.error)[..33] == "plugin failed health validation: ";
      } else {
        assert FirstHealthy(probe, 1, ActivationRetries).Some?;
      }
    }
  }

  /**
   * `ActivatePlugin` on a registered plugin's record and the VM service,
   * with every step outside the process given by its outcome: the snapshot
   * check, the start steps, the health answers, the snapshot and pause
   * results, the tap name and the save. `Pass` stands for returning the plugin.
   */
  function ActivateSpec(rec: PluginRecord, s: Service, slug: string, hasSnapshot: bool,
                        setupErr: Option<string>, createErr: Option<string>, startErr: Option<string>,
                        probe: nat -> HealthProbe, snapshotErr: Option<string>, pauseErr: Option<string>,
                        tapName: string, saveErr: Option<string>): (PluginRecord, Service, Outcome<string>)
    requires ServiceValid(s)
  {
    if rec.status == StatusActive then (rec, s, Pass)
    else if hasSnapshot then (rec.(status := StatusActive), s, SaveOutcome(saveErr))
    else ActivateFresh(rec, s, slug, setupErr, createErr, startErr, probe, snapshotErr, pauseErr, tapName, saveErr)
  }

  /**
   * Activation keeps the service valid and returns an active plugin
   * untouched; otherwise only the status, health, address and tap device
   * can change, the status only to active or failed, and a success leaves
   * the plugin active. With a snapshot no machine is started.
   */
  lemma ActivateEffect(rec: PluginRecord, s: Service, slug: string, hasSnapshot: bool,
                       setupErr: Option<string>, createErr: Option<string>, startErr: Option<string>,
                       probe: nat -> HealthProbe, snapshotErr: Option<string>, pauseErr: Option<string>,
                       tapName: string, saveErr: Option<string>)
    requires ServiceValid(s)
    ensures var (after, t, out) := ActivateSpec(rec, s, slug, hasSnapshot, setupErr, createErr, startErr,
                                                probe, snapshotErr, pauseErr, tapName, saveErr);
      && ServiceValid(t)
      && (rec.status == StatusActive ==> after == rec && t == s && out == Pass)
      && after == rec.(status := after.status, health := after.health,
                       assignedIP := after.assignedIP, tapDevice := after.tapDevice)
      && (after.status == rec.status || after.status in {StatusActive, StatusFailed})
      && (out.Pass? ==> after.status == StatusActive)
      && (hasSnapshot ==> t == s)
  {
    if rec.status != StatusActive && !hasSnapshot {
      ActivateStartedEffect(rec, StartVMSpec(s, slug, setupErr, createErr, startErr).0, slug, probe,
                            snapshotErr, pauseErr, tapName, saveErr);
    }
  }

  /**
   * Activation marks a plugin failed only when the health check fails, and
   * then reports the health error.
   */
  lemma ActivateHealthFailure(rec: PluginRecord, s: Service, slug: string, hasSnapshot: bool,
                       setupErr: Option<string>, createErr: Option<string>, startErr: Option<string>,
                       probe: nat -> HealthProbe, snapshotErr: Option<string>, pauseErr: Option<string>,
                       tapName: string, saveErr: Option<string>)
    requires ServiceValid(s)
    ensures var (after, t, out) := ActivateSpec(rec, s, slug, hasSnapshot, setupErr, createErr, startErr,
                                                probe, snapshotErr, pauseErr, tapName, saveErr);
      after.status == StatusFailed && rec.status != StatusFailed ==>
        out.Fail? && Text.HasPrefix(out.error, "plugin failed health validation: ")
  {
    if rec.status != StatusActive && !hasSnapshot {
      ActivateStartedEffect(rec, StartVMSpec(s, slug, setupErr, createErr, startErr).0, slug, probe,
                            snapshotErr, pauseErr, tapName, saveErr);
    }
  }

  /** A machine that does not start leaves the plugin as it was. */
  lemma ActivateStartFailure(rec: PluginRecord, s: Service, slug: string, hasSnapshot: bool,
                       setupErr: Option<string>, createErr: Option<string>, startErr: Option<string>,
                       probe: nat -> HealthProbe, snapshotErr: Option<string>, pauseErr: Option<string>,
                       tapName: string, saveErr: Option<string>)
    requires ServiceValid(s)
    ensures var (after, t, out) := ActivateSpec(rec, s, slug, hasSnapshot, setupErr, createErr, startErr,
                                                probe, snapshotErr, pauseErr, tapName, saveErr);
      rec.status != StatusActive && !hasSnapshot && StartVMSpec(s, slug, setupErr, createErr, startErr).1.Fail? ==>
        after == rec && out.Fail?
  {
  }

  /**
   * A successful activation without a snapshot follows a healthy answer,
   * and records the started instance's address and the tap name.
   */
  lemma ActivateSuccess(rec: PluginRecord, s: Service, slug: string, hasSnapshot: bool,
                       setupErr: Option<string>, createErr: Option<string>, startErr: Option<string>,
                       probe: nat -> HealthProbe, snapshotErr: Option<string>, pauseErr: Option<string>,
                       tapName: string, saveErr: Option<string>)
    requires ServiceValid(s)
    ensures var (after, t, out) := ActivateSpec(rec, s, slug, hasSnapshot, setupErr, createErr, startErr,
                                                probe, snapshotErr, pauseErr, tapName, saveErr);
      rec.status != StatusActive && !hasSnapshot && out.Pass? ==>
        && (exists k :: 1 <= k <= ActivationRetries && Healthy(probe(k)))
        && after.tapDevice == tapName
        && slug in StartVMSpec(s, slug, setupErr, createErr, startErr).0.net.ipPool
        && after.assignedIP == IpAllocation.Ip(StartVMSpec(s, slug, setupErr, createErr, startErr).0.net.ipPool[slug])
  {
    if rec.status != StatusActive && !hasSnapshot {
      ActivateStartedEffect(rec, StartVMSpec(s, slug, setupErr, createErr, startErr).0, slug, probe,
                            snapshotErr, pauseErr, tapName, saveErr);
    }
  }

  /** Activating an activated plugin changes nothing and returns it. */
  lemma ActivateTwice(rec: PluginRecord, s: Service, slug: string, hasSnapshot: bool,
                      setupErr: Option<string>, createErr: Option<string>, startErr: Option<string>,
                      probe: nat -> HealthProbe, snapshotErr: Option<string>, pauseErr: Option<string>,
                      tapName: string, saveErr: Option<string>)
    requires ServiceValid(s)
    ensures var (after, t, out) := ActivateSpec(rec, s, slug, hasSnapshot, setupErr, createErr, startErr,
                                                probe, snapshotErr, pauseErr, tapName, saveErr);
      out.Pass? ==> (ServiceValid(t) &&
        ActivateSpec(after, t, slug, hasSnapshot, setupErr, createErr, startErr,
                     probe, snapshotErr, pauseErr, tapName, saveErr) == (after, t, Pass))
  {
    ActivateEffect(rec, s, slug, hasSnapshot, setupErr, createErr, startErr,
                   probe, snapshotErr, pauseErr, tapName, saveErr);
  }

  /** The plugins a hook is dispatched to count a plugin once per matching action, and only when it is active. */
  ghost function TargetCount(p: Plugin, hook: string): nat
    reads p
  {
    if p.status == StatusActive then |MatchingKeys(p.actions, hook)| else 0
  }

  /** Every element is at least as high in priority as every later one. */
  ghost predicate ByPriority(s: seq<Plugin>)
    reads set i | 0 <= i < |s| :: s[i]
  {
    forall i, j :: 0 <= i < j < |s| ==> s[i].priority >= s[j].priority
  }

  /** Whether `hook` is among `hooks`, scanning with an early exit. */
  method HasHook(hooks: seq<string>, hook: string) returns (b: bool)
    ensures b <==> hook in hooks
  {
    var h := 0;
    while h < |hooks|
      invariant 0 <= h <= |hooks|
      invariant hook !in hooks[..h]
    {
      if hooks[h] == hook {
        return true;
      }
      h := h + 1;
    }
    assert hooks[..h] == hooks;
    return false;
  }

  /** Exchanging two entries keeps the same plugins, each as often as before. */
  lemma SwapKeepsPlugins(s: seq<Plugin>, i: int, j: int)
    requires 0 <= i < |s| && 0 <= j < |s|
    ensures multiset(s[i := s[j]][j := s[i]]) == multiset(s)
  {
  }

  /** `targets[i], targets[j] = targets[j], targets[i]`. */
  method Swap(a: array<Plugin>, i: int, j: int)
    requires 0 <= i < a.Length && 0 <= j < a.Length
    modifies a
    ensures a[i] == old(a[j]) && a[j] == old(a[i])
    ensures forall k :: 0 <= k < a.Length && k != i && k != j ==> a[k] == old(a[k])
    ensures multiset(a[..]) == multiset(old(a[..]))
  {
    ghost var before := a[..];
    a[i], a[j] := a[j], a[i];
    assert a[..] == before[i := before[j]][j := before[i]];
    SwapKeepsPlugins(before, i, j);
  }

  /**
   * One pass of the priority sort: every later plugin of higher priority
   * than the one at `i` is swapped into position `i`, so the plugins before
   * `i + 1` end up outranking every later one.
   */
  method PlaceHighest(a: array<Plugin>, i: int)
    requires 0 <= i < a.Length
    requires forall k, m :: 0 <= k < i && k < m < a.Length ==> a[k].priority >= a[m].priority
    modifies a
    ensures forall k, m :: 0 <= k <= i && k < m < a.Length ==> a[k].priority >= a[m].priority
    ensures multiset(a[..]) == multiset(old(a[..]))
  {
    var j := i + 1;
    while j < a.Length
      invariant i + 1 <= j <= a.Length
      invariant multiset(a[..]) == multiset(old(a[..]))
      invariant forall k, m :: 0 <= k < i && k < m < a.Length ==> a[k].priority >= a[m].priority
      invariant forall m :: i < m < j ==> a[i].priority >= a[m].priority
    {
      if a[i].priority < a[j].priority {
        Swap(a, i, j);
      }
      j := j + 1;
    }
  }

  /** The priority sort of `ExecuteAction`: highest priority first, same plugins. */
  method SortByPriority(a: array<Plugin>)
    modifies a
    ensures multiset(a[..]) == multiset(old(a[..]))
    ensures forall i, j :: 0 <= i < j < a.Length ==> a[i].priority >= a[j].priority
  {
    var i := 0;
    while i < a.Length - 1
      invariant 0 <= i && (a.Length > 0 ==> i <= a.Length - 1)
      invariant multiset(a[..]) == multiset(old(a[..]))
      invariant forall k, m :: 0 <= k < i && k < m < a.Length ==> a[k].priority >= a[m].priority
    {
      PlaceHighest(a, i);
      i := i + 1;
    }
  }

  /** What one target contributed to the execution. */
  datatype ExecBody = ErrorBody(error: string) | ResponseBody(response: string)
  datatype ExecResult = ExecResult(pluginSlug: string, success: bool, body: ExecBody)

  /** The map `ExecuteAction` returns, without its timestamp. */
  datatype ExecuteResponse = ExecuteResponse(actionHook: string, executedPlugins: nat, results: seq<ExecResult>)

  /** The number of keys in that map: action_hook, executed_plugins, results, timestamp. */
  const ExecuteResponseKeys: nat := 4

  /** A pre-warmed instance to pause and give back when the dispatch ends, with its target's position. */
  datatype Deferred = Deferred(position: nat, slug: string, instance: PrewarmInstance)

  /** The slugs of the dispatch targets, in order. */
  function SlugsOf(targets: seq<Plugin>): seq<string>
  {
    seq(|targets|, i requires 0 <= i < |targets| => targets[i].slug)
  }

  /**
   * What the per-target loop of `ExecuteAction` does to the VM service:
   * target `i` takes the head of its plugin's queue, and the instance is
   * recorded for giving back when there was one and it resumed.
   */
  function TakeInstances(s: Service, slugs: seq<string>, resumeErr: nat -> Option<string>)
    : (r: (Service, seq<Deferred>))
    ensures ServiceValid(s) ==> ServiceValid(r.0)
    ensures forall k :: 0 <= k < |r.1| ==> r.1[k].position < |slugs| && r.1[k].slug == slugs[r.1[k].position]
    decreases |slugs|
  {
    if slugs == [] then (s, [])
    else
      var i := |slugs| - 1;
      var (s1, taken) := TakeInstances(s, slugs[..i], resumeErr);
      var (s2, inst) := GetPrewarmSpec(s1, slugs[i]);
      (s2, if inst.Some? && resumeErr(i).None? then taken + [Deferred(i, slugs[i], inst.value)] else taken)
  }

  /**
   * What the deferred pauses of `ExecuteAction` do to the VM service: the
   * entries are handled last first, and an instance whose pause succeeds
   * goes back to its queue (or is stopped when the queue is full).
   */
  function ReturnAll(s: Service, deferred: seq<Deferred>, pauseErr: nat -> Option<string>): (t: Service)
    requires ServiceValid(s)
    ensures ServiceValid(t)
    decreases |deferred|
  {
    if deferred == [] then s
    else
      var last := deferred[|deferred| - 1];
      var s1 := if pauseErr(last.position).None? then ReturnPrewarmSpec(s, last.slug, last.instance) else s;
      ReturnAll(s1, deferred[..|deferred| - 1], pauseErr)
  }

  /** The VM service after `ExecuteAction` dispatched a hook to plugins with these slugs. */
  function DispatchSpec(s: Service, slugs: seq<string>, resumeErr: nat -> Option<string>,
                        pauseErr: nat -> Option<string>): Service
    requires ServiceValid(s)
  {
    var (s1, deferred) := TakeInstances(s, slugs, resumeErr);
    ReturnAll(s1, deferred, pauseErr)
  }

  /** One more target extends the fold by one `GetPrewarmSpec` step. */
  lemma TakeStep(s: Service, slugs: seq<string>, i: nat, resumeErr: nat -> Option<string>)
    requires i < |slugs|
    ensures var (s1, taken) := TakeInstances(s, slugs[..i], resumeErr);
      var (s2, inst) := GetPrewarmSpec(s1, slugs[i]);
      TakeInstances(s, slugs[..i + 1], resumeErr)
        == (s2, if inst.Some? && resumeErr(i).None? then taken + [Deferred(i, slugs[i], inst.value)] else taken)
  {
    assert slugs[..i + 1][..i] == slugs[..i];
  }

  /** Dispatching to a single target takes from its queue once. */
  lemma TakeOne(s: Service, slug: string, resumeErr: nat -> Option<string>)
    ensures var (t, inst) := GetPrewarmSpec(s, slug);
      TakeInstances(s, [slug], resumeErr)
        == (t, if inst.Some? && resumeErr(0).None? then [Deferred(0, slug, inst.value)] else [])
  {
    assert [slug][..0] == [];
    assert TakeInstances(s, [], resumeErr) == (s, []);
    var (t, inst) := GetPrewarmSpec(s, slug);
    var r := TakeInstances(s, [slug], resumeErr);
    assert r.0 == t;
    assert inst.Some? && resumeErr(0).None? ==> r.1 == [Deferred(0, slug, inst.value)];
    assert !(inst.Some? && resumeErr(0).None?) ==> r.1 == [];
  }

  /** Giving back a single deferred instance is one `ReturnPrewarmSpec` when its pause succeeds. */
  lemma ReturnOne(s: Service, d: Deferred, pauseErr: nat -> Option<string>)
    requires ServiceValid(s)
    ensures ReturnAll(s, [d], pauseErr)
         == if pauseErr(d.position).None? then ReturnPrewarmSpec(s, d.slug, d.instance) else s
  {
    assert [d][..0] == [];
  }

  /**
   * Dispatching to one plugin rotates its queue: the head instance serves
   * the request and, once paused, goes to the back. An instance that does
   * not resume leaves the queue and is not given back; a failed pause
   * drops it from the queue too. Addresses and running instances are untouched.
   */
  lemma DispatchRotates(s: Service, slug: string, resumeErr: nat -> Option<string>,
                        pauseErr: nat -> Option<string>)
    requires ServiceValid(s) && slug in s.pools && s.pools[slug] != []
    ensures var t := DispatchSpec(s, [slug], resumeErr, pauseErr);
      && t.net == s.net && t.instances == s.instances
      && PoolOf(t.pools, slug) == (if resumeErr(0).None? && pauseErr(0).None?
                                   then s.pools[slug][1..] + [s.pools[slug][0]]
                                   else s.pools[slug][1..])
      && (forall other :: other != slug ==> PoolOf(t.pools, other) == PoolOf(s.pools, other))
  {
    var head, rest := s.pools[slug][0], s.pools[slug][1..];
    var s1 := s.(pools := s.pools[slug := rest]);
    TakeOne(s, slug, resumeErr);
    if resumeErr(0).None? {
      ReturnOne(s1, Deferred(0, slug, head), pauseErr);
      if pauseErr(0).None? {
        assert PoolOf(s1.pools, slug) == rest && |rest| < s.maxPoolSize;
      }
    }
  }

  class PluginService {
    var plugins: map<string, Plugin>
    const vm: VMService

    /** Every plugin is registered under its own slug, and the VM service is consistent. */
    ghost predicate Valid()
      reads this, vm, vm.net
    {
      && (forall s :: s in plugins ==> plugins[s].slug == s)
      && vm.Valid()
    }

    constructor (vm: VMService)
      requires vm.Valid()
      ensures Valid() && plugins == map[] && this.vm == vm
    {
      plugins := map[];
      this.vm := vm;
    }

    /** `ListPlugins`: every registered plugin exactly once, in the map's iteration order. */
    method ListPlugins() returns (list: seq<Plugin>)
      requires Valid()
      ensures |list| == |plugins|
      ensures forall t :: t in list ==> t in plugins.Values
      ensures forall s :: s in plugins ==> multiset(list)[plugins[s]] == 1
    {
      list := [];
      var remaining := plugins.Keys;
      ghost var visited: set<string> := {};
      while remaining != {}
        invariant remaining !! visited && remaining + visited == plugins.Keys
        invariant |list| == |visited|
        invariant forall t :: t in list ==> t in plugins.Values
        invariant forall s :: s in plugins ==> multiset(list)[plugins[s]] == if s in visited then 1 else 0
        decreases remaining
      {
        var s :| s in remaining;
        assert forall o :: o in plugins && o != s ==> plugins[o] != plugins[s];
        list := list + [plugins[s]];
        visited := visited + {s};
        remaining := remaining - {s};
      }
      assert visited == plugins.Keys;
    }

    method DeletePlugin(slug: string, saveErr: Option<string>) returns (out: Outcome<string>)
      modifies this
      ensures (plugins, out) == DeleteSpec(old(plugins), slug, saveErr)
    {
      if slug !in plugins {
        return Fail("plugin not found");
      }
      plugins := plugins - {slug};
      if saveErr.Some? {
        return Fail("failed to save plugins: " + saveErr.value);
      }
      return Pass;
    }

    /**
     * `DeactivatePlugin`: an absent slug is an error; an inactive plugin is
     * returned as it is; otherwise its status becomes "inactive" (reported
     * as a failure when the registry cannot be saved). The queue removal and
     * snapshot deletion it also asks for are outside the model.
     */
    method DeactivatePlugin(slug: string, saveErr: Option<string>) returns (r: Result<Plugin, string>)
      requires Valid()
      modifies if slug in plugins then {plugins[slug]} else {}
      ensures Valid()
      ensures slug !in plugins ==> r == Err("plugin not found")
      ensures slug in plugins ==>
        var (rec, out) := DeactivateSpec(old(plugins[slug].Value()), saveErr);
        && plugins[slug].Value() == rec
        && r == (if out.Pass? then Ok(plugins[slug]) else Err(out.error))
    {
      if slug !in plugins {
        return Err("plugin not found");
      }
      var p := plugins[slug];
      if p.status == StatusInactive {
        return Ok(p);
      }
      p.SetStatus(StatusInactive);
      if saveErr.Some? {
        return Err("failed to save plugin state: " + saveErr.value);
      }
      return Ok(p);
    }

    /** The failure path of `validatePluginHealth`: stop the instance, mark the plugin failed and unhealthy. */
    method MarkFailed(p: Plugin, message: string)
      requires Valid() && p.slug in plugins && plugins[p.slug] == p
      modifies p, vm, vm.net
      ensures Valid()
      ensures p.Value() == old(p.Value()).(status := StatusFailed, health := PluginHealth(HealthUnhealthy, message, 0))
      ensures vm.State() == StopVMSpec(old(vm.State()), p.slug)
    {
      vm.StopVM(p.slug);
      p.SetStatus(StatusFailed);
      p.UpdateHealth(HealthUnhealthy, message, 0);
    }

    /**
     * `validatePluginHealth`: up to 30 health requests. On failure the
     * instance is stopped, the plugin is marked failed and unhealthy with the
     * health check's error (a failure to save that is only logged), and the error is
     * wrapped; on success the plugin is marked healthy and nothing else changes.
     */
    method ValidatePluginHealth(p: Plugin, probe: nat -> HealthProbe) returns (out: Outcome<string>)
      requires Valid() && p.slug in plugins && plugins[p.slug] == p
      modifies p, vm, vm.net
      ensures Valid()
      ensures out.Pass? <==> HealthCheckSpec(probe, ActivationRetries).Pass?
      ensures out.Pass? ==>
        && p.Value() == old(p.Value()).(health := PluginHealth(HealthHealthy, "Plugin validated successfully", 0))
        && vm.State() == old(vm.State())
      ensures out.Fail? ==>
        var check := HealthCheckSpec(probe, ActivationRetries);
        && check.Fail?
        && out.error == "plugin failed health validation: " + check.error
        && p.Value() == old(p.Value()).(status := StatusFailed, health := PluginHealth(HealthUnhealthy, check.error, 0))
        && vm.State() == StopVMSpec(old(vm.State()), p.slug)
    {
      var health, _ := HealthCheckWithRetries(probe, ActivationRetries);
      if health.Fail? {
        MarkFailed(p, health.error);
        return Fail("plugin failed health validation: " + health.error);
      }
      p.UpdateHealth(HealthHealthy, "Plugin validated successfully", 0);
      return Pass;
    }

    /**
     * The last steps of `ActivatePlugin` for `p`, whose machine answered
     * healthy at address `vmIP`: snapshot it, pause it (or stop it when the
     * pause fails), record address and tap device, and save.
     */
    method FinishActivation(p: Plugin, vmIP: string, snapshotErr: Option<string>,
                            pauseErr: Option<string>, tapName: string, saveErr: Option<string>)
      returns (out: Outcome<string>)
      requires Valid() && p.slug in plugins && plugins[p.slug] == p
      requires p.slug in vm.net.ipPool && vmIP == IpAllocation.Ip(vm.net.ipPool[p.slug])
      modifies p, vm, vm.net
      ensures Valid()
      ensures var (rec, t, spec) := ActivateHealthy(old(p.Value()), old(vm.State()), p.slug,
                                                   snapshotErr, pauseErr, tapName, saveErr);
        p.Value() == rec && vm.State() == t && out == spec
    {
      if snapshotErr.Some? {
        return Fail("failed to create snapshot: " + snapshotErr.value);
      }
      if pauseErr.Some? {
        vm.StopVM(p.slug);
      }
      p.assignedIP, p.tapDevice := vmIP, tapName;
      p.SetStatus(StatusActive);
      return SaveOutcome(saveErr);
    }

    /**
     * The steps of `ActivatePlugin` after the machine for `p` has started:
     * look up its address, validate its health, then `FinishActivation`.
     */
    method ActivateStartedPlugin(p: Plugin, probe: nat -> HealthProbe, snapshotErr: Option<string>,
                                 pauseErr: Option<string>, tapName: string, saveErr: Option<string>)
      returns (out: Outcome<string>)
      requires Valid() && p.slug in plugins && plugins[p.slug] == p
      modifies p, vm, vm.net
      ensures Valid()
      ensures var (rec, t, spec) := ActivateStarted(old(p.Value()), old(vm.State()), p.slug, probe,
                                                   snapshotErr, pauseErr, tapName, saveErr);
        p.Value() == rec && vm.State() == t && out == spec
    {
      var vmIP, found := vm.GetVMIP(p.slug);
      if !found {
        return Fail("failed to get VM IP after start");
      }
      var health := ValidatePluginHealth(p, probe);
      if health.Fail? {
        return health;
      }
      out := FinishActivation(p, vmIP, snapshotErr, pauseErr, tapName, saveErr);
    }

    /** The path of `ActivatePlugin` that starts a machine for `p`. */
    method ActivateFreshPlugin(p: Plugin, setupErr: Option<string>, createErr: Option<string>,
                               startErr: Option<string>, probe: nat -> HealthProbe, snapshotErr: Option<string>,
                               pauseErr: Option<string>, tapName: string, saveErr: Option<string>)
      returns (out: Outcome<string>)
      requires Valid() && p.slug in plugins && plugins[p.slug] == p
      modifies p, vm, vm.net
      ensures Valid()
      ensures var (rec, t, spec) := ActivateFresh(old(p.Value()), old(vm.State()), p.slug, setupErr, createErr,
                                                 startErr, probe, snapshotErr, pauseErr, tapName, saveErr);
        p.Value() == rec && vm.State() == t && out == spec
    {
      var started := vm.StartVM(p.slug, setupErr, createErr, startErr);
      if started.Fail? {
        return Fail("failed to start VM: " + started.error);
      }
      out := ActivateStartedPlugin(p, probe, snapshotErr, pauseErr, tapName, saveErr);
    }

    /** `ActivatePlugin` once the plugin `p` has been found in the registry. */
    method ActivateRegistered(p: Plugin, hasSnapshot: bool, setupErr: Option<string>, createErr: Option<string>,
                              startErr: Option<string>, probe: nat -> HealthProbe, snapshotErr: Option<string>,
                              pauseErr: Option<string>, tapName: string, saveErr: Option<string>)
      returns (out: Outcome<string>)
      requires Valid() && p.slug in plugins && plugins[p.slug] == p
      modifies p, vm, vm.net
      ensures Valid()
      ensures var (rec, t, spec) := ActivateSpec(old(p.Value()), old(vm.State()), p.slug, hasSnapshot, setupErr,
                                                createErr, startErr, probe, snapshotErr, pauseErr, tapName, saveErr);
        p.Value() == rec && vm.State() == t && out == spec
    {
      if p.status == StatusActive {
        return Pass;
      }
      if hasSnapshot {
        p.SetStatus(StatusActive);
        return SaveOutcome(saveErr);
      }
      out := ActivateFreshPlugin(p, setupErr, createErr, startErr, probe, snapshotErr, pauseErr, tapName, saveErr);
    }

    /**
     * `ActivatePlugin`. Each machine or snapshot step reports through its
     * parameter; `probe` answers the health requests and `tapName` is the
     * device name handed back for the plugin.
     */
    method ActivatePlugin(slug: string, hasSnapshot: bool, setupErr: Option<string>, createErr: Option<string>,
                          startErr: Option<string>, probe: nat -> HealthProbe, snapshotErr: Option<string>,
                          pauseErr: Option<string>, tapName: string, saveErr: Option<string>)
      returns (r: Result<Plugin, string>)
      requires Valid()
      modifies (if slug in plugins then {plugins[slug]} else {}), vm, vm.net
      ensures Valid()
      ensures slug !in plugins ==> r == Err("plugin not found") && vm.State() == old(vm.State())
      ensures slug in plugins ==>
        var (rec, t, out) := ActivateSpec(old(plugins[slug].Value()), old(vm.State()), slug, hasSnapshot,
                                          setupErr, createErr, startErr, probe, snapshotErr, pauseErr,
                                          tapName, saveErr);
        && plugins[slug].Value() == rec
        && vm.State() == t
        && r == (if out.Pass? then Ok(plugins[slug]) else Err(out.error))
    {
      if slug !in plugins {
        return Err("plugin not found");
      }
      var p := plugins[slug];
      var out := ActivateRegistered(p, hasSnapshot, setupErr, createErr, startErr, probe, snapshotErr, pauseErr,
                                    tapName, saveErr);
      r := if out.Pass? then Ok(p) else Err(out.error);
    }

    /**
     * The target selection of `ExecuteAction`: visits the plugins and their
     * actions in any order and adds an active plugin once for every action
     * that lists the hook (the inner `break` leaves only the hook loop).
     */
    method SelectTargets(hook: string) returns (targets: seq<Plugin>)
      requires Valid()
      ensures forall t :: t in targets ==> t in plugins.Values && t.status == StatusActive
      ensures forall s :: s in plugins ==> multiset(targets)[plugins[s]] == TargetCount(plugins[s], hook)
    {
      targets := [];
      var remaining := plugins.Keys;
      ghost var visited: set<string> := {};
      while remaining != {}
        invariant remaining !! visited && remaining + visited == plugins.Keys
        invariant forall t :: t in targets ==> t in plugins.Values && t.status == StatusActive
        invariant forall s :: s in plugins ==>
          multiset(targets)[plugins[s]] == if s in visited then TargetCount(plugins[s], hook) else 0
        decreases remaining
      {
        var s :| s in remaining;
        var p := plugins[s];
        assert forall o :: o in plugins && o != s ==> plugins[o] != p;
        if p.status == StatusActive {
          var before := targets;
          targets := AppendMatching(targets, p, hook);
          AppendCopies(before, p, |MatchingKeys(p.actions, hook)|);
        }
        visited := visited + {s};
        remaining := remaining - {s};
      }
    }

    /** The targets of a hook in a fresh array, sorted by non-increasing priority. */
    method PrioritizedTargets(hook: string) returns (order: array<Plugin>)
      requires Valid()
      ensures fresh(order)
      ensures forall t :: t in order[..] ==> t in plugins.Values && t.status == StatusActive
      ensures forall s :: s in plugins ==> multiset(order[..])[plugins[s]] == TargetCount(plugins[s], hook)
      ensures forall i, j :: 0 <= i < j < order.Length ==> order[i].priority >= order[j].priority
    {
      var selected := SelectTargets(hook);
      order := new Plugin[|selected|](i requires 0 <= i < |selected| => selected[i]);
      assert order[..] == selected;
      SortByPriority(order);
      assert forall t :: t in order[..] ==> t in multiset(selected);
    }

    /**
     * `ExecuteAction`: select the targets, order them by priority, and run
     * the hook on each in turn. The target at position `i` answers
     * `resumeErr(i)` when its paused instance is resumed, and
     * `httpCall(i, method, url)` to the action request; `pauseErr(i)` is the
     * pause that precedes giving its instance back, which happens for all
     * targets together, last first, when the dispatch ends.
     */
    method ExecuteAction(hook: string, resumeErr: nat -> Option<string>,
                         httpCall: (nat, string, string) -> Result<string, string>, pauseErr: nat -> Option<string>)
      returns (resp: ExecuteResponse, ghost targets: seq<Plugin>)
      requires Valid()
      modifies vm, vm.net
      ensures Valid()
      ensures resp.actionHook == hook
      ensures forall t :: t in targets ==> t in plugins.Values && t.status == StatusActive
      ensures forall s :: s in plugins ==> multiset(targets)[plugins[s]] == TargetCount(plugins[s], hook)
      ensures forall i, j :: 0 <= i < j < |targets| ==> targets[i].priority >= targets[j].priority
      ensures |resp.results| == |targets| && resp.executedPlugins == |resp.results|
      ensures forall i :: 0 <= i < |targets| ==> resp.results[i].pluginSlug == targets[i].slug
      ensures forall i :: 0 <= i < |targets| && resp.results[i].success ==>
        resumeErr(i).None? && resp.results[i].body.ResponseBody?
      ensures targets == [] ==> resp == ExecuteResponse(hook, 0, [])
      ensures vm.State() == DispatchSpec(old(vm.State()), SlugsOf(targets), resumeErr, pauseErr)
    {
      var order := PrioritizedTargets(hook);
      if order.Length == 0 {
        assert SlugsOf([]) == [];
        return ExecuteResponse(hook, 0, []), [];
      }
      targets := order[..];

      var results, deferred := RunTargets(vm, order, hook, resumeErr, httpCall);
      ReturnDeferred(vm, deferred, pauseErr);
      resp := ExecuteResponse(hook, |results|, results);
    }
  }

  /**
   * One turn of the per-target loop of `ExecuteAction`, for the target `p`
   * at position `i`: take a pre-warmed instance, resume it, find an action
   * listing the hook and send its request. An instance that was resumed is
   * handed back in `taken` for giving back afterwards.
   */
  method RunTarget(vm: VMService, p: Plugin, i: nat, hook: string, resumeErr: nat -> Option<string>,
                   httpCall: (nat, string, string) -> Result<string, string>)
    returns (result: ExecResult, taken: Option<Deferred>)
    requires vm.Valid()
    modifies vm
    ensures vm.Valid()
    ensures var (t, inst) := GetPrewarmSpec(old(vm.State()), p.slug);
      && vm.State() == t
      && taken == (if inst.Some? && resumeErr(i).None? then Some(Deferred(i, p.slug, inst.value)) else None)
    ensures result.pluginSlug == p.slug
    ensures result.success ==> resumeErr(i).None? && result.body.ResponseBody?
  {
    var inst := vm.GetPrewarmInstance(p.slug);
    taken := None;
    if inst.None? {
      result := ExecResult(p.slug, false, ErrorBody("Plugin not ready - no pre-warmed instance available"));
    } else if resumeErr(i).Some? {
      result := ExecResult(p.slug, false, ErrorBody("Failed to resume VM: " + resumeErr(i).value));
    } else {
      taken := Some(Deferred(i, p.slug, inst.value));
      if k :| k in p.actions && hook in p.actions[k].hooks {
        var action := p.actions[k];
        var url := "http://" + inst.value.ip + ":80" + action.endpoint;
        var response := httpCall(i, action.httpMethod, url);
        if response.Err? {
          result := ExecResult(p.slug, false, ErrorBody("HTTP request failed: " + response.error));
        } else {
          result := ExecResult(p.slug, true, ResponseBody(response.value));
        }
      } else {
        result := ExecResult(p.slug, false, ErrorBody("Action not found in plugin"));
      }
    }
  }

  /**
   * The per-target loop of `ExecuteAction`: every target in priority order
   * gets one `RunTarget` turn, and its result is added in the same position.
   */
  method RunTargets(vm: VMService, order: array<Plugin>, hook: string, resumeErr: nat -> Option<string>,
                    httpCall: (nat, string, string) -> Result<string, string>)
    returns (results: seq<ExecResult>, deferred: seq<Deferred>)
    requires vm.Valid()
    modifies vm
    ensures vm.Valid()
    ensures (vm.State(), deferred) == TakeInstances(old(vm.State()), SlugsOf(order[..]), resumeErr)
    ensures |results| == order.Length
    ensures forall k :: 0 <= k < order.Length ==> results[k].pluginSlug == order[k].slug
    ensures forall k :: 0 <= k < order.Length && results[k].success ==>
      resumeErr(k).None? && results[k].body.ResponseBody?
  {
    results, deferred := [], [];
    ghost var slugs := SlugsOf(order[..]);
    var i := 0;
    assert slugs[..0] == [];
    while i < order.Length
      invariant 0 <= i <= order.Length
      invariant vm.Valid()
      invariant (vm.State(), deferred) == TakeInstances(old(vm.State()), slugs[..i], resumeErr)
      invariant |results| == i
      invariant forall k :: 0 <= k < i ==> results[k].pluginSlug == order[k].slug
      invariant forall k :: 0 <= k < i && results[k].success ==> resumeErr(k).None? && results[k].body.ResponseBody?
    {
      var result, taken := RunTarget(vm, order[i], i, hook, resumeErr, httpCall);
      TakeStep(old(vm.State()), slugs, i, resumeErr);
      if taken.Some? {
        deferred := deferred + [taken.value];
      }
      results := results + [result];
      i := i + 1;
    }
    assert slugs[..i] == slugs;
  }

  /**
   * The deferred pauses of `ExecuteAction`, run last first: an instance
   * whose pause succeeds goes back to its plugin's queue.
   */
  method ReturnDeferred(vm: VMService, deferred: seq<Deferred>, pauseErr: nat -> Option<string>)
    requires vm.Valid()
    modifies vm, vm.net
    ensures vm.Valid()
    ensures vm.State() == ReturnAll(old(vm.State()), deferred, pauseErr)
  {
    var d := |deferred|;
    assert deferred[..d] == deferred;
    while d > 0
      invariant 0 <= d <= |deferred|
      invariant vm.Valid()
      invariant ReturnAll(vm.State(), deferred[..d], pauseErr) == ReturnAll(old(vm.State()), deferred, pauseErr)
    {
      assert deferred[..d][..d - 1] == deferred[..d - 1];
      var entry := deferred[d - 1];
      if pauseErr(entry.position).None? {
        vm.ReturnPrewarmInstance(entry.slug, entry.instance);
      }
      d := d - 1;
    }
  }

  /**
   * The two inner loops of the target selection for one active plugin: it
   * is appended once for every action that lists the hook, visiting the
   * actions in any order (the `break` leaves only the hook loop).
   */
  method AppendMatching(targets: seq<Plugin>, p: Plugin, hook: string) returns (out: seq<Plugin>)
    ensures out == targets + seq(|MatchingKeys(p.actions, hook)|, _ => p)
  {
    out := targets;
    var actionKeys := p.actions.Keys;
    ghost var seen: set<string> := {};
    ghost var matched: seq<string> := [];
    while actionKeys != {}
      invariant actionKeys !! seen && actionKeys + seen == p.actions.Keys
      invariant forall i, j :: 0 <= i < j < |matched| ==> matched[i] != matched[j]
      invariant forall k :: k in matched <==> k in seen && hook in p.actions[k].hooks
      invariant out == targets + seq(|matched|, _ => p)
      decreases actionKeys
    {
      var k :| k in actionKeys;
      var listed := HasHook(p.actions[k].hooks, hook);
      if listed {
        out := out + [p];
        matched := matched + [k];
      }
      seen := seen + {k};
      actionKeys := actionKeys - {k};
    }
    KeysCardinality(matched, MatchingKeys(p.actions, hook));
  }

  /** Appending one more copy of `p` to a run of copies. */
  lemma AppendCopies(base: seq<Plugin>, p: Plugin, n: nat)
    ensures multiset(base + seq(n, _ => p))[p] == multiset(base)[p] + n
    ensures forall q :: q != p ==> multiset(base + seq(n, _ => p))[q] == multiset(base)[q]
  {
    var copies := seq(n, _ => p);
    assert multiset(base + copies) == multiset(base) + multiset(copies);
    CopiesMultiset(p, n);
  }

  lemma {:induction false} CopiesMultiset(p: Plugin, n: nat)
    ensures multiset(seq(n, _ => p)) == multiset{}[p := n]
  {
    if n > 0 {
      CopiesMultiset(p, n - 1);
      assert seq(n, _ => p) == seq(n - 1, _ => p) + [p];
    }
  }
}
