/**
 * The CLI's Docker client, as far as it decides anything itself: which
 * listed container a name or ID refers to, what stopping and removing it
 * does in which order, and how the mounts of a container configuration
 * are handed to Docker. Every Docker call is given as its outcome.
 */
module DockerClient {
  import opened Wrappers
  import opened Text
  import opened StarterErrors

  /** A listed container: its ID, its names (as Docker lists them, with a leading '/') and its state. */
  datatype Container = Container(id: string, names: seq<string>, state: string)

  /** One of the container's names equals the key once a leading '/' is dropped. */
  predicate NameMatches(c: Container, key: string)
  {
    exists k :: 0 <= k < |c.names| && TrimPrefix(c.names[k], "/") == key
  }

  /** The match rule: by ID, or by a name. */
  predicate Matches(c: Container, key: string)
  {
    c.id == key || NameMatches(c, key)
  }

  /** The index of the first container in list order that matches the key. */
  function FirstMatch(cs: seq<Container>, key: string): (r: Option<nat>)
    ensures r.Some? ==> r.value < |cs| && Matches(cs[r.value], key)
    ensures r.Some? ==> forall j :: 0 <= j < r.value ==> !Matches(cs[j], key)
    ensures r.None? <==> forall j :: 0 <= j < |cs| ==> !Matches(cs[j], key)
  {
    if cs == [] then None
    else if Matches(cs[0], key) then Some(0)
    else
      match FirstMatch(cs[1..], key)
      case None =>
        assert forall j :: 1 <= j < |cs| ==> cs[j] == cs[1..][j - 1];
        None
      case Some(i) =>
        assert forall j :: 1 <= j < |cs| ==> cs[j] == cs[1..][j - 1];
        Some(i + 1)
  }

  // ---------------------------------------------------------------------
  // GetContainerStatus
  // ---------------------------------------------------------------------

  /** What `GetContainerStatus` reports: the state of the first match, or "not_found". */
  function ContainerStatus(listResult: Result<seq<Container>, Error>, key: string): Result<string, Error>
  {
    match listResult
    case Err(e) => Err(WrapDockerError(e, "container_list", "failed to list containers"))
    case Ok(cs) =>
      match FirstMatch(cs, key)
      case Some(i) => Ok(cs[i].state)
      case None => Ok("not_found")
  }

  /** `GetContainerStatus`: scans the list, and within each container its names, returning at the first match. */
  method GetContainerStatus(listResult: Result<seq<Container>, Error>, key: string) returns (r: Result<string, Error>)
    ensures r == ContainerStatus(listResult, key)
  {
    if listResult.Err? {
      return Err(WrapDockerError(listResult.error, "container_list", "failed to list containers"));
    }
    var cs := listResult.value;
    var i := 0;
    while i < |cs|
      invariant 0 <= i <= |cs|
      invariant forall j :: 0 <= j < i ==> !Matches(cs[j], key)
    {
      var c := cs[i];
      if c.id == key {
        return Ok(c.state);
      }
      var k := 0;
      while k < |c.names|
        invariant 0 <= k <= |c.names|
        invariant forall n :: 0 <= n < k ==> TrimPrefix(c.names[n], "/") != key
      {
        if TrimPrefix(c.names[k], "/") == key {
          return Ok(c.state);
        }
        k := k + 1;
      }
      i := i + 1;
    }
    return Ok("not_found");
  }

  // ---------------------------------------------------------------------
  // StopContainer
  // ---------------------------------------------------------------------

  /**
   * The ID the lookup loop of `StopContainer` settles on ("" for none). An
   * ID match ends the search; a name match ends it only when the matched
   * container's ID is not empty, since the loop tests the ID it has
   * collected rather than whether a name matched.
   */
  function LookupId(cs: seq<Container>, key: string): string
  {
    if cs == [] then ""
    else if cs[0].id == key then cs[0].id
    else if NameMatches(cs[0], key) && cs[0].id != "" then cs[0].id
    else LookupId(cs[1..], key)
  }

  /** A non-empty ID found by the lookup belongs to a matching container; with no match there is none. */
  lemma {:induction false} LookupIdMatches(cs: seq<Container>, key: string)
    ensures LookupId(cs, key) != "" ==> exists j :: 0 <= j < |cs| && Matches(cs[j], key) && cs[j].id == LookupId(cs, key)
    ensures FirstMatch(cs, key).None? ==> LookupId(cs, key) == ""
  {
    if cs != [] && cs[0].id != key && !(NameMatches(cs[0], key) && cs[0].id != "") {
      LookupIdMatches(cs[1..], key);
      assert forall j :: 1 <= j < |cs| ==> cs[j] == cs[1..][j - 1];
    }
  }

  /**
   * When Docker lists no container with an empty ID (it never does), the
   * lookup of `StopContainer` and `GetContainerStatus` pick the same
   * container: the first match in list order.
   */
  lemma {:induction false} LookupIsFirstMatch(cs: seq<Container>, key: string)
    requires forall j :: 0 <= j < |cs| ==> cs[j].id != ""
    ensures FirstMatch(cs, key).Some? ==> LookupId(cs, key) == cs[FirstMatch(cs, key).value].id
    ensures FirstMatch(cs, key).None? ==> LookupId(cs, key) == ""
  {
    LookupIdMatches(cs, key);
    if cs != [] && !Matches(cs[0], key) {
      LookupIsFirstMatch(cs[1..], key);
    }
  }

  /**
   * What `StopContainer` asked Docker to do and what it returned: the ID it
   * issued a stop for, the ID it issued a removal for, and the error.
   */
  datatype StopOutcome = StopOutcome(err: Option<Error>, stopCall: Option<string>, removeCall: Option<string>)

  function StopContainerSpec(listResult: Result<seq<Container>, Error>, key: string, remove: bool,
                             stopErr: Option<Error>, removeErr: Option<Error>): StopOutcome
  {
    match listResult
    case Err(e) => StopOutcome(Some(WrapDockerError(e, "container_list", "failed to list containers")), None, None)
    case Ok(cs) =>
      var id := LookupId(cs, key);
      if id == "" then StopOutcome(None, None, None)
      else if stopErr.Some? then
        StopOutcome(Some(WrapDockerError(stopErr.value, "container_stop", "failed to stop container " + key)), Some(id), None)
      else if !remove then StopOutcome(None, Some(id), None)
      else if removeErr.Some? then
        StopOutcome(Some(WrapDockerError(removeErr.value, "container_remove", "failed to remove container " + key)), Some(id), Some(id))
      else StopOutcome(None, Some(id), Some(id))
  }

  /**
   * With no matching container nothing is stopped or removed and no error
   * is returned; a removal is issued only when asked for and only after a
   * successful stop of the same container; every failure is a Docker error
   * that wraps Docker's own.
   */
  lemma StopContainerOrder(listResult: Result<seq<Container>, Error>, key: string, remove: bool,
                           stopErr: Option<Error>, removeErr: Option<Error>)
    ensures var o := StopContainerSpec(listResult, key, remove, stopErr, removeErr);
      && (listResult.Ok? && FirstMatch(listResult.value, key).None? ==> o == StopOutcome(None, None, None))
      && (o.removeCall.Some? ==> remove && stopErr.None? && o.stopCall == o.removeCall)
      && (o.stopCall.Some? ==>
            && listResult.Ok?
            && exists j :: 0 <= j < |listResult.value| && Matches(listResult.value[j], key) && listResult.value[j].id == o.stopCall.value)
      && (o.err.Some? ==> IsType(o.err.value, Docker) && Unwrap(o.err.value).Some?)
      && (o.stopCall.Some? && stopErr.None? && (!remove || removeErr.None?) <==> o.err.None? && o.stopCall.Some?)
  {
    if listResult.Ok? {
      LookupIdMatches(listResult.value, key);
    }
  }

  /** `StopContainer`: the lookup loop, then stop, then (if asked) remove. */
  method StopContainer(listResult: Result<seq<Container>, Error>, key: string, remove: bool,
                       stopErr: Option<Error>, removeErr: Option<Error>) returns (o: StopOutcome)
    ensures o == StopContainerSpec(listResult, key, remove, stopErr, removeErr)
  {
    if listResult.Err? {
      return StopOutcome(Some(WrapDockerError(listResult.error, "container_list", "failed to list containers")), None, None);
    }
    var cs := listResult.value;
    var containerID := "";
    var i := 0;
    while i < |cs|
      invariant 0 <= i <= |cs|
      invariant containerID == ""
      invariant LookupId(cs[i..], key) == LookupId(cs, key)
    {
      var c := cs[i];
      assert cs[i..][1..] == cs[i + 1..];
      if c.id == key {
        containerID := c.id;
        break;
      }
      var k := 0;
      while k < |c.names|
        invariant 0 <= k <= |c.names|
        invariant forall n :: 0 <= n < k ==> TrimPrefix(c.names[n], "/") != key
      {
        if TrimPrefix(c.names[k], "/") == key {
          containerID := c.id;
          break;
        }
        k := k + 1;
      }
      if containerID != "" {
        break;
      }
      i := i + 1;
    }
    assert containerID == LookupId(cs, key);
    if containerID == "" {
      return StopOutcome(None, None, None);
    }
    if stopErr.Some? {
      return StopOutcome(Some(WrapDockerError(stopErr.value, "container_stop", "failed to stop container " + key)), Some(containerID), None);
    }
    if remove {
      if removeErr.Some? {
        return StopOutcome(Some(WrapDockerError(removeErr.value, "container_remove", "failed to remove container " + key)),
                           Some(containerID), Some(containerID));
      }
      return StopOutcome(None, Some(containerID), Some(containerID));
    }
    return StopOutcome(None, Some(containerID), None);
  }

  // ---------------------------------------------------------------------
  // CreateContainer
  // ---------------------------------------------------------------------

  /** The CLI's own mount description. */
  datatype MountConfig = MountConfig(source: string, target: string, mountType: string)
  /** Docker's mount record, with the type first. */
  datatype Mount = Mount(mountType: string, source: string, target: string)

  /** `ContainerConfig`, without the command and environment, which are passed through untouched. */
  datatype ContainerConfig = ContainerConfig(
    image: string, name: string, mounts: seq<MountConfig>,
    privileged: bool, networkMode: string, capabilities: seq<string>)

  /** The host configuration handed to Docker. */
  datatype HostConfig = HostConfig(mounts: seq<Mount>, privileged: bool, networkMode: string, capAdd: seq<string>)

  function ToMount(m: MountConfig): Mount { Mount(m.mountType, m.source, m.target) }
  function FromMount(m: Mount): MountConfig { MountConfig(m.source, m.target, m.mountType) }

  /** No field of a mount is lost or exchanged in the conversion. */
  lemma MountRoundTrip(m: MountConfig, n: MountConfig)
    ensures FromMount(ToMount(m)) == m
    ensures ToMount(m) == ToMount(n) ==> m == n
  {
  }

  /** The mount loop of `CreateContainer`: a slice of the same length, filled index by index. */
  method ConvertMounts(ms: seq<MountConfig>) returns (a: array<Mount>)
    ensures fresh(a)
    ensures a.Length == |ms|
    ensures forall i :: 0 <= i < |ms| ==> a[i] == ToMount(ms[i])
  {
    a := new Mount[|ms|](_ => Mount("", "", ""));
    for i := 0 to |ms|
      invariant forall k :: 0 <= k < i ==> a[k] == ToMount(ms[k])
    {
      a[i] := ToMount(ms[i]);
    }
  }

  /**
   * `CreateContainer`, with Docker's answer given as `created`: the host
   * configuration it sends and the container ID or the wrapped error.
   */
  method CreateContainer(config: ContainerConfig, created: Result<string, Error>) returns (host: HostConfig, r: Result<string, Error>)
    ensures |host.mounts| == |config.mounts|
    ensures forall i :: 0 <= i < |config.mounts| ==> FromMount(host.mounts[i]) == config.mounts[i]
    ensures host.privileged == config.privileged && host.networkMode == config.networkMode && host.capAdd == config.capabilities
    ensures created.Ok? ==> r == created
    ensures created.Err? ==> r == Err(WrapDockerError(created.error, "container_create", "failed to create container " + config.name))
  {
    var mounts := ConvertMounts(config.mounts);
    host := HostConfig(mounts[..], config.privileged, config.networkMode, config.capabilities);
    if created.Err? {
      r := Err(WrapDockerError(created.error, "container_create", "failed to create container " + config.name));
    } else {
      r := created;
    }
  }
}
