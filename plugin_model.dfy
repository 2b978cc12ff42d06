/**
 * The control plane's plugin record: identity, lifecycle status, health and
 * the action hooks a plugin answers. Timestamps (`CreatedAt`, `UpdatedAt`,
 * `LastCheck`) are not modelled.
 */
module PluginModel {

  const StatusInstalled: string := "installed"
  const StatusActive: string := "active"
  const StatusFailed: string := "failed"
  const StatusInactive: string := "inactive"

  const HealthHealthy: string := "healthy"
  const HealthUnhealthy: string := "unhealthy"
  const HealthUnknown: string := "unknown"

  /** `PluginHealth` without its check time. */
  datatype PluginHealth = PluginHealth(status: string, message: string, responseTime: int)

  /** `PluginAction`: an endpoint of the plugin and the CMS hooks it responds to. */
  datatype PluginAction = PluginAction(
    name: string,
    description: string,
    hooks: seq<string>,
    httpMethod: string,
    endpoint: string,
    priority: int)

  /** The keys of the actions that list `hook` among their hooks. */
  ghost function MatchingKeys(actions: map<string, PluginAction>, hook: string): set<string> {
    set k | k in actions && hook in actions[k].hooks
  }

  /** Every field of a plugin record except its slug, which never changes. */
  datatype PluginRecord = PluginRecord(
    name: string,
    description: string,
    version: string,
    author: string,
    runtime: string,
    rootfsPath: string,
    kernelPath: string,
    status: string,
    health: PluginHealth,
    actions: map<string, PluginAction>,
    priority: int,
    assignedIP: string,
    tapDevice: string)

  class Plugin {
    const slug: string
    var name: string
    var description: string
    var version: string
    var author: string
    var runtime: string
    var rootfsPath: string
    var kernelPath: string
    var status: string
    var health: PluginHealth
    var actions: map<string, PluginAction>
    var priority: int
    var assignedIP: string
    var tapDevice: string

    /** The record's fields as a value. */
    function Value(): PluginRecord
      reads this
    {
      PluginRecord(name, description, version, author, runtime, rootfsPath, kernelPath,
                   status, health, actions, priority, assignedIP, tapDevice)
    }

    /** `NewPlugin`: installed, health unknown, no actions, priority 0. */
    constructor (slug: string, name: string, version: string)
      ensures this.slug == slug && this.name == name && this.version == version
      ensures status == StatusInstalled && health.status == HealthUnknown
      ensures actions == map[] && priority == 0
      ensures description == "" && author == "" && runtime == "" && rootfsPath == "" && kernelPath == ""
      ensures assignedIP == "" && tapDevice == ""
    {
      this.slug := slug;
      this.name := name;
      this.version := version;
      description, author, runtime, rootfsPath, kernelPath := "", "", "", "", "";
      status := StatusInstalled;
      health := PluginHealth(HealthUnknown, "", 0);
      actions := map[];
      priority := 0;
      assignedIP, tapDevice := "", "";
    }

    /**
     * The record `parsePluginJson` builds from a plugin's metadata: every
     * other field keeps Go's zero value, so the status is the empty string.
     */
    constructor FromMetadata(slug: string, name: string, description: string, version: string,
                             author: string, runtime: string, actions: map<string, PluginAction>)
      ensures this.slug == slug && this.name == name && this.description == description
      ensures this.version == version && this.author == author && this.runtime == runtime
      ensures this.actions == actions
      ensures status == "" && health == PluginHealth("", "", 0) && priority == 0
      ensures rootfsPath == "" && kernelPath == "" && assignedIP == "" && tapDevice == ""
    {
      this.slug := slug;
      this.name := name;
      this.description := description;
      this.version := version;
      this.author := author;
      this.runtime := runtime;
      this.actions := actions;
      rootfsPath, kernelPath := "", "";
      status := "";
      health := PluginHealth("", "", 0);
      priority := 0;
      assignedIP, tapDevice := "", "";
    }

    /** `UpdateHealth`: replaces the health fields and nothing else. */
    method UpdateHealth(healthStatus: string, message: string, responseTime: int)
      modifies this
      ensures health == PluginHealth(healthStatus, message, responseTime)
      ensures Value() == old(Value()).(health := PluginHealth(healthStatus, message, responseTime))
    {
      health := PluginHealth(healthStatus, message, responseTime);
    }

    /** `SetStatus`: changes the status and nothing else. */
    method SetStatus(newStatus: string)
      modifies this
      ensures status == newStatus
      ensures Value() == old(Value()).(status := newStatus)
    {
      status := newStatus;
    }

    predicate IsActive()
      reads this
    {
      status == StatusActive
    }

    predicate IsInstalled()
      reads this
    {
      status == StatusInstalled
    }

    predicate IsHealthy()
      reads this
    {
      health.status == HealthHealthy
    }

    /**
     * `GetActionsForHook`: visits the actions in any order (Go's map order)
     * and collects each action that lists the hook, once. `keys` names the
     * action each entry came from.
     */
    method GetActionsForHook(hook: string) returns (found: seq<PluginAction>, ghost keys: seq<string>)
      ensures |found| == |keys|
      ensures forall i :: 0 <= i < |keys| ==> keys[i] in actions && found[i] == actions[keys[i]]
      ensures forall i, j :: 0 <= i < j < |keys| ==> keys[i] != keys[j]
      ensures forall k :: k in keys <==> k in MatchingKeys(actions, hook)
      ensures |found| == |MatchingKeys(actions, hook)|
    {
      found, keys := [], [];
      var remaining := actions.Keys;
      ghost var visited: set<string> := {};
      while remaining != {}
        invariant remaining !! visited && remaining + visited == actions.Keys
        invariant |found| == |keys|
        invariant forall i :: 0 <= i < |keys| ==> keys[i] in actions && found[i] == actions[keys[i]]
        invariant forall i, j :: 0 <= i < j < |keys| ==> keys[i] != keys[j]
        invariant forall k :: k in keys <==> k in visited && hook in actions[k].hooks
        decreases remaining
      {
        var k :| k in remaining;
        var action := actions[k];
        var h := 0;
        while h < |action.hooks|
          invariant 0 <= h <= |action.hooks|
          invariant hook !in action.hooks[..h]
        {
          if action.hooks[h] == hook {
            found, keys := found + [action], keys + [k];
            break;
          }
          h := h + 1;
        }
        assert hook !in action.hooks ==> k !in keys;
        if h == |action.hooks| {
          assert action.hooks[..h] == action.hooks;
        }
        visited := visited + {k};
        remaining := remaining - {k};
      }
      KeysCardinality(keys, MatchingKeys(actions, hook));
    }
  }

  /** A sequence of distinct keys that has exactly the members of a set is as long as the set is large. */
  lemma {:induction false} KeysCardinality(keys: seq<string>, s: set<string>)
    requires forall i, j :: 0 <= i < j < |keys| ==> keys[i] != keys[j]
    requires forall k :: k in keys <==> k in s
    ensures |keys| == |s|
  {
    if keys != [] {
      var last := keys[|keys| - 1];
      var init := keys[..|keys| - 1];
      assert forall k :: k in init <==> k in s - {last} by {
        forall k ensures k in init <==> k in s - {last} {
          if k in init {
            var i :| 0 <= i < |init| && init[i] == k;
            assert keys[i] == k && i < |keys| - 1;
          }
          if k in s - {last} {
            assert k in keys;
            var i :| 0 <= i < |keys| && keys[i] == k;
            assert i != |keys| - 1;
            assert init[i] == k;
          }
        }
      }
      KeysCardinality(init, s - {last});
    }
  }
}
