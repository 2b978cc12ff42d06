# cu-firecracker-cms core, modelled in Dafny

This project models the decision-making core of the cu-firecracker-cms
repository. The system has four parts:

- the Go control plane `cu-cms`, which runs plugins in Firecracker microVMs;
- the Go CLI `cms-starter`, which builds plugin images and manages the control-plane container;
- the stand-alone `plugin-builder`;
- the Python demo plugin.

Everything that reaches outside the process becomes a parameter holding
its outcome: Firecracker, Docker, `exec`, HTTP, the filesystem, JSON
decoding and the clock. The model covers the following.

- **Guest-address allocator** (`IpAllocation`): the wrap-around scan over
  192.168.127.2-.254 with its `nextIP` cursor, `usedIPs` set and `ipPool`
  map, as a class whose methods keep the allocator invariant.
- **VM service** (`VmService`): start and stop bookkeeping, and the per-plugin
  pre-warm FIFO queues with their capacity bound and ten-minute expiry.
- **Older VM manager** (`VmManager`): the same allocator, with a stop that
  reports its failures and a status query.
- **Plugin record and registry** (`PluginModel`, `PluginService`):
  - delete, activate and deactivate;
  - target selection for a hook, and the in-place exchange sort by priority;
  - one result per target;
  - the archive entry checks;
  - the required metadata fields;
  - the bounded health-check retry loop.
- **HTTP front and slug middleware** (`Server`, `Middleware`): routing, the
  upload and execute checks, and the health counts.
- **Demo plugin's commerce store** (`PyValues`, `CommerceStore`): the
  `/execute` actions and the three webhook endpoints over a store whose
  order count and revenue must agree with its order list.
- **CLI side** (`StarterErrors`, `StarterValidator`, `StarterManager`,
  `StarterMain`, `StarterServices`, `DockerClient`, `StarterConfig`):
  - typed errors;
  - manifest, slug, version, runtime, size and directory validation;
  - archive extraction rules and name sanitisers;
  - image and container names;
  - the build service's space-error handling;
  - the container match rule;
  - configuration.
- **Stand-alone builder** (`PluginBuilder`): manifest checks, image and
  output names, and the order of its export steps.
- **Control-plane configuration and typed errors** (`CmsConfig`,
  `CmsErrors`): configuration objects updated in place, and error objects
  whose component and context are set after creation.

`Text` holds the string operations of Go's `strings` and `strconv` packages
that this code calls.

## Model

| member | source | states |
|---|---|---|
| IpAllocation.Ip | cu-cms/internal/services/vm_service.go:815 | an address is "192.168.127." followed by the octet |
| IpAllocation.IpInjective | cu-cms/internal/services/vm_service.go:815 | distinct octets give distinct address strings, so the octet set stands for the set of used address strings |
| IpAllocation.InitialValid | cu-cms/internal/services/vm_service.go:93 | the fresh allocator (empty maps, cursor at 2) satisfies the allocator invariant: cursor in [2, 253], held addresses in .2-.254, used set equal to the held addresses, no address held twice |
| IpAllocation.FirstFree | cu-cms/internal/services/vm_service.go:814-843 | the scan finds the lowest free octet of its range, and finds none only when every octet of the range is used |
| IpAllocation.ValuesAfterInsert | cu-cms/internal/services/vm_service.go:817-818 | recording a new instance adds exactly its address to the held addresses |
| IpAllocation.ValuesAfterRemove | cu-cms/internal/services/vm_service.go:855-859 | forgetting an instance removes exactly its address from the held addresses |
| IpAllocation.Allocate | cu-cms/internal/services/vm_service.go:800-846 | every allocation, successful or not, keeps the allocator invariant (cursor within [2, 253], no address handed out twice) |
| IpAllocation.Deallocate | cu-cms/internal/services/vm_service.go:850-862 | deallocation keeps the invariant and the cursor, and the instance no longer holds an address |
| IpAllocation.AllocateExisting | cu-cms/internal/services/vm_service.go:805-811 | an instance that already holds an address gets that address back with no state change |
| IpAllocation.AllocateFresh | cu-cms/internal/services/vm_service.go:814-819 | a fresh allocation hands out an address in .2-.254 that was unused, records it for this instance alone and marks it used |
| IpAllocation.AllocateFailsOnlyWhenFull | cu-cms/internal/services/vm_service.go:814-846 | allocation fails if and only if the instance holds no address and every address .2-.254 is in use |
| IpAllocation.AllocateFailureKeepsState | cu-cms/internal/services/vm_service.go:845 | a failed allocation changes nothing and reports "no available IPs" |
| IpAllocation.DeallocateWithoutAddress | cu-cms/internal/services/vm_service.go:854-861 | deallocating an instance without an address is a no-op |
| IpAllocation.AllocateThenDeallocate | cu-cms/internal/services/vm_service.go:800-862 | allocating for a new instance and deallocating it restores both `ipPool` and `usedIPs` |
| IpAllocation.IpAllocator.constructor | cu-cms/internal/services/vm_service.go:88-93 | a new allocator has empty maps, cursor 2, and is valid |
| IpAllocation.IpAllocator.AllocateIP | cu-cms/internal/services/vm_service.go:800-846 | the two scanning loops produce exactly the state and result of `Allocate`, with the address as its string |
| IpAllocation.IpAllocator.DeallocateIP | cu-cms/internal/services/vm_service.go:850-862 | the new state is `Deallocate` of the old one |
| IpAllocation.IpAllocator.GetIP | cu-cms/internal/services/vm_service.go:737-743 | returns the instance's address and true exactly when it holds one, else "" and false |
| VmService.PoolOf | cu-cms/internal/services/vm_service.go:174-177 | a plugin without a queue reads as an empty queue |
| VmService.Unexpired | cu-cms/internal/services/vm_service.go:137-161 | the kept instances are exactly the unexpired ones of the queue, and never more than the queue held |
| VmService.ReleaseAll | cu-cms/internal/services/vm_service.go:850-862 | releasing a set of instances removes exactly them from `ipPool` and keeps the cursor |
| VmService.StartVMSpec | cu-cms/internal/services/vm_service.go:264-364 | starting, with any mix of failing steps, keeps the service invariant (allocator valid, queues within capacity) |
| VmService.StopVMSpec | cu-cms/internal/services/vm_service.go:366-436 | the corrected stop: an unknown instance changes nothing; a known one stops running and releases its address, for execution instances too |
| VmService.ReturnPrewarmSpec | cu-cms/internal/services/vm_service.go:196-219 | returning an instance keeps the service invariant |
| VmService.InitialServiceValid | cu-cms/internal/services/vm_service.go:65-93 | a fresh service is valid |
| VmService.ReleaseNone | cu-cms/internal/services/vm_service.go:850-862 | releasing nobody changes nothing |
| VmService.ReleaseAllValid | cu-cms/internal/services/vm_service.go:850-862 | releasing any set of instances keeps the allocator invariant |
| VmService.ReleaseOneMore | cu-cms/internal/services/vm_service.go:850-862 | releasing one more instance is one `deallocateIP` of it |
| VmService.StartThenStop | cu-cms/internal/services/vm_service.go:264-436 | starting a new instance and stopping it restores the running set and both allocator maps |
| VmService.FailedStartReleases | cu-cms/internal/services/vm_service.go:264-364 | a failed start leaves the running set and both allocator maps as they were |
| VmService.StartedHasAddress | cu-cms/internal/services/vm_service.go:264-364 | a successful start leaves the instance running with an address |
| VmService.StopExecLeaksAddress | cu-cms/internal/services/vm_service.go:401-427 | as written, stopping "p-exec-1" leaves address .2 marked used with no holder, breaking the allocator invariant |
| VmService.StopExecReleasesAddress | cu-cms/internal/services/vm_service.go:366-436 | with the corrected stop the same instance frees .2 and the invariant holds |
| VmService.ReturnThenGet | cu-cms/internal/services/vm_service.go:170-219 | the pre-warm queue is first in, first out: return then take gives back the same instance and the empty queue |
| VmService.GetPrewarmIsHead | cu-cms/internal/services/vm_service.go:174-183 | taking yields nothing exactly for a missing or empty queue; otherwise it yields the head and keeps the rest in order, and no other queue changes |
| VmService.GetPrewarmKeepsBound | cu-cms/internal/services/vm_service.go:174-183 | taking keeps every queue within capacity |
| VmService.ReturnPrewarmBounded | cu-cms/internal/services/vm_service.go:201-219 | a return appends to the tail exactly when the queue holds fewer than `maxPoolSize` entries, and otherwise stops the instance with the queues unchanged; no queue grows past capacity |
| VmService.MaintainKeepsUnexpired | cu-cms/internal/services/vm_service.go:137-161 | maintenance keeps exactly the instances created no earlier than ten minutes ago in every queue, stops the expired ones and keeps the invariant |
| VmService.ReleaseTwice | cu-cms/internal/services/vm_service.go:850-862 | releasing two sets in turn releases their union |
| VmService.ExpiredAcrossStep | cu-cms/internal/services/vm_service.go:137-161 | visiting one more plugin adds the expired ids of its queue |
| VmService.SweepStep | cu-cms/internal/services/vm_service.go:141-156 | visiting one more instance either keeps it or adds it to the expired ids |
| VmService.StopIntersect | cu-cms/internal/services/vm_service.go:146-150 | stopping one more id affects the running set only when it was running and not yet stopped |
| VmService.MaintainResult | cu-cms/internal/services/vm_service.go:137-161 | the state the maintenance loop ends in is the one `MaintainSpec` describes |
| VmService.VMService.constructor | cu-cms/internal/services/vm_service.go:65-93 | no instances, a fresh allocator and empty queues of the configured capacity |
| VmService.VMService.StartVM | cu-cms/internal/services/vm_service.go:264-364 | the new state and error are those of `StartVMSpec` |
| VmService.VMService.StopVM | cu-cms/internal/services/vm_service.go:366-436 | the new state is that of the corrected `StopVMSpec` |
| VmService.VMService.GetVMIP | cu-cms/internal/services/vm_service.go:737-743 | returns the address and true exactly when the instance holds one |
| VmService.VMService.GetPrewarmInstance | cu-cms/internal/services/vm_service.go:170-194 | the new state and result are those of `GetPrewarmSpec`, and the invariant is kept |
| VmService.VMService.ReturnPrewarmInstance | cu-cms/internal/services/vm_service.go:196-219 | the new state is that of `ReturnPrewarmSpec`, and the invariant is kept |
| VmService.MaintainStep | cu-cms/internal/services/vm_service.go:137-161 | after one plugin's queue is swept, the stopped set grows by that queue's expired instances and the pools, instances and addresses are those of `MaintainSpec` restricted to the queues visited |
| VmService.StopStep | cu-cms/internal/services/vm_service.go:146-150 | stopping one more expired instance extends the removed instances and the released addresses by that instance |
| VmService.VMService.SweepPool | cu-cms/internal/services/vm_service.go:141-158 | one queue's pass keeps the unexpired instances in order, and stops and releases exactly the expired running ones |
| VmService.VMService.MaintainPrewarmPool | cu-cms/internal/services/vm_service.go:132-161 | visiting the plugins in any order, the new state is `MaintainSpec` of the old one at time `now` |
| VmService.StopVMAsWritten | cu-cms/internal/services/vm_service.go:366-434 | `StopVM` as written: an instance whose id contains "-exec-" loses its `ipPool` entry but its address stays in `usedIPs` |
| VmService.GetPrewarmSpec | cu-cms/internal/services/vm_service.go:170-193 | nothing for a missing or empty queue, else the head of the queue, leaving the tail |
| VmService.MaintainSpec | cu-cms/internal/services/vm_service.go:132-167 | every queue keeps exactly its instances created no earlier than ten minutes ago, in order, and every dropped instance that was running is stopped |
| VmManager.StartSpec | cu-cms/vm_manager.go:162-231 | starting keeps the allocator invariant whatever step fails |
| VmManager.StopSpec | cu-cms/vm_manager.go:233-288 | stopping keeps the allocator invariant |
| VmManager.StopUnknown | cu-cms/vm_manager.go:237-243 | stopping an unknown instance reports "not found" and changes nothing |
| VmManager.StopFreesAddress | cu-cms/vm_manager.go:233-288 | a stop succeeds exactly for a running instance whose shutdown succeeds; the instance is then gone and holds no address, and other instances keep theirs |
| VmManager.StatusRunningIff | cu-cms/vm_manager.go:317-329 | the status is "running" if and only if the instance is running, "not_found" otherwise |
| VmManager.StatusSpec | cu-cms/vm_manager.go:317-329 | `GetVMStatus`: "running" for an instance in the instance map, "not_found" otherwise |
| VmManager.StopChangesStatus | cu-cms/vm_manager.go:233-329 | a successful stop turns "running" into "not_found" |
| VmManager.StartThenStop | cu-cms/vm_manager.go:162-288 | starting and stopping a new instance restores the running set and both allocator maps |
| VmManager.VMManager.constructor | main.go:65-81 | an empty manager: no running instances, and an allocator in its initial state |
| VmManager.VMManager.StartVM | cu-cms/vm_manager.go:162-231 | the new state and error are those of `StartSpec` |
| VmManager.VMManager.StopVM | cu-cms/vm_manager.go:233-288 | the new state and error are those of `StopSpec` |
| VmManager.VMManager.GetVMIP | cu-cms/vm_manager.go:89-95 | returns (ip, true) exactly when the instance has an allocation, else ("", false) |
| VmManager.VMManager.GetVMStatus | cu-cms/vm_manager.go:317-329 | "running" if and only if the instance is in the instance map |
| PluginModel.Plugin.constructor | cu-cms/internal/models/plugin.go:77-93 | a new plugin is "installed", health "unknown", no actions, priority 0 |
| PluginModel.Plugin.FromMetadata | cu-cms/internal/services/plugin_service.go:912-925 | the record built from metadata carries its fields, and every other field has its zero value, the status included |
| PluginModel.Plugin.UpdateHealth | cu-cms/internal/models/plugin.go:96-102 | the whole record after the call is the old record with only the health (status, message, response time) replaced |
| PluginModel.Plugin.SetStatus | cu-cms/internal/models/plugin.go:105-108 | the whole record after the call is the old record with only the status replaced |
| PluginModel.Plugin.IsActive | cu-cms/internal/models/plugin.go:111-113 | a plugin is active exactly when its status is "active" |
| PluginModel.Plugin.IsInstalled | cu-cms/internal/models/plugin.go:116-118 | a plugin is installed exactly when its status is "installed" |
| PluginModel.Plugin.IsHealthy | cu-cms/internal/models/plugin.go:121-123 | a plugin is healthy exactly when its health status is "healthy" |
| PluginModel.Plugin.GetActionsForHook | cu-cms/internal/models/plugin.go:126-137 | returns exactly the actions whose hooks contain the hook, each once, in map order |
| PluginModel.KeysCardinality | cu-cms/internal/models/plugin.go:126-137 | a list of distinct keys with the members of a set is as long as the set is large, so the result size is the number of matching actions |
| PluginService.ExtractCleanSuffix | cu-cms/internal/services/plugin_service.go:836-882 | after a run of clean entries, the found-flags record which required names occurred |
| PluginService.ExtractCleanArchive | cu-cms/internal/services/plugin_service.go:836-882 | an archive of clean entries is accepted if and only if it holds both `rootfs.ext4` and `plugin.json`; a missing rootfs is the error reported first |
| PluginService.ExtractRefusesTraversal | cu-cms/internal/services/plugin_service.go:840-843 | the first entry whose name contains ".." is refused, whatever follows |
| PluginService.ExtractSkipsClean | cu-cms/internal/services/plugin_service.go:845-870 | a clean entry only records whether it was a required file; other names are skipped |
| PluginService.ExtractPrefixClean | cu-cms/internal/services/plugin_service.go:836-882 | the scan reaches the offending entry across any run of clean ones |
| PluginService.ParseMetadata | cu-cms/internal/services/plugin_service.go:885-911 | metadata is accepted if and only if it was read and decoded and has a slug, a name and a version; the missing fields are reported in that order |
| PluginService.ParsePluginJson | cu-cms/internal/services/plugin_service.go:885-927 | fails exactly as `ParseMetadata`, otherwise returns a fresh record with the metadata's slug and actions and an empty status |
| PluginService.FirstHealthy | cu-cms/internal/services/plugin_service.go:1010-1049 | finds the first healthy attempt in the range, or shows none is healthy |
| PluginService.HealthCheckWithRetries | cu-cms/internal/services/plugin_service.go:1006-1052 | succeeds if and only if some attempt 1..maxRetries answers healthy; it stops at the first one and otherwise makes all `maxRetries` attempts and reports the last error |
| PluginService.HealthCheckSpec | cu-cms/internal/services/plugin_service.go:1006-1052 | what the retry loop reports: success when some attempt is healthy, else the failure text with the last attempt's error |
| PluginService.DeactivateSpec | cu-cms/internal/services/plugin_service.go:589-630 | an inactive plugin is returned as it is; otherwise the status becomes "inactive" and the save outcome is the result |
| PluginService.DeactivateEffect | cu-cms/internal/services/plugin_service.go:589-630 | deactivation leaves the plugin inactive and changes nothing else; it fails exactly on a save error with "failed to save plugin state: " and that error; a second deactivation changes nothing and succeeds |
| PluginService.ActivateSpec | cu-cms/internal/services/plugin_service.go:447-586 | activation of a registered plugin on the VM service state, every outside step given by its outcome |
| PluginService.ActivateFresh | cu-cms/internal/services/plugin_service.go:490-586 | the start of a machine; a failed start is "failed to start VM: " with its error and leaves the plugin alone |
| PluginService.ActivateStarted | cu-cms/internal/services/plugin_service.go:504-586 | the address lookup ("failed to get VM IP after start"), then the health check, whose failure marks the plugin failed and stops the machine |
| PluginService.ActivateHealthy | cu-cms/internal/services/plugin_service.go:522-586 | the snapshot, the pause with its stop fallback, the address and tap device, and the save |
| PluginService.ActivateStartedEffect | cu-cms/internal/services/plugin_service.go:504-586 | after a start the service stays valid; only status, health, address and tap device change; success leaves the plugin active after a healthy answer, with the started instance's address and the tap name; a newly failed plugin reports the health error |
| PluginService.ActivateEffect | cu-cms/internal/services/plugin_service.go:447-586 | activation keeps the VM service valid and returns an active plugin untouched with success; otherwise only status, health, address and tap device change, the status only to active or failed; success leaves the plugin active; with a snapshot the VM service is unchanged |
| PluginService.ActivateHealthFailure | cu-cms/internal/services/plugin_service.go:1054-1106 | a plugin becomes failed only through a failed health check, and the error then starts with "plugin failed health validation: " |
| PluginService.ActivateStartFailure | cu-cms/internal/services/plugin_service.go:496-502 | a machine that does not start leaves the plugin record exactly as it was, and activation fails |
| PluginService.ActivateSuccess | cu-cms/internal/services/plugin_service.go:504-586 | a successful activation without a snapshot follows a healthy answer and records the started instance's address and the tap name |
| PluginService.ActivateTwice | cu-cms/internal/services/plugin_service.go:457-462 | activating a plugin a second time after a success changes nothing and succeeds |
| PluginService.DeleteRemovesOnlySlug | cu-cms/internal/services/plugin_service.go:418-431 | an absent slug is "plugin not found" with the registry unchanged; otherwise exactly that key is removed |
| PluginService.HasHook | cu-cms/internal/services/plugin_service.go:644-652 | the hook scan finds the hook exactly when it is listed |
| PluginService.Swap | cu-cms/internal/services/plugin_service.go:671 | the two entries are exchanged, every other entry is unchanged, and the multiset of plugins is kept |
| PluginService.SwapKeepsPlugins | cu-cms/internal/services/plugin_service.go:671 | exchanging two entries of a sequence keeps its multiset of plugins |
| PluginService.PlaceHighest | cu-cms/internal/services/plugin_service.go:669-673 | one outer pass extends the sorted prefix by one and keeps the multiset |
| PluginService.PluginService.PrioritizedTargets | cu-cms/internal/services/plugin_service.go:640-674 | the targets are active registered plugins, each appearing once per action listing the hook, ordered by non-increasing priority |
| PluginService.SortByPriority | cu-cms/internal/services/plugin_service.go:668-674 | the targets end in non-increasing priority and are a permutation of the selected ones |
| PluginService.PluginService.constructor | cu-cms/internal/services/plugin_service.go:38-54 | an empty registry over a valid VM service |
| PluginService.PluginService.ListPlugins | cu-cms/internal/services/plugin_service.go:56-67 | lists every registered plugin exactly once and nothing else |
| PluginService.PluginService.DeletePlugin | cu-cms/internal/services/plugin_service.go:414-446 | the new registry and result are those of `DeleteSpec` |
| PluginService.PluginService.DeactivatePlugin | cu-cms/internal/services/plugin_service.go:589-630 | an absent slug is "plugin not found"; otherwise the plugin's whole record and the result are those of `DeactivateSpec` |
| PluginService.PluginService.ValidatePluginHealth | cu-cms/internal/services/plugin_service.go:1054-1106 | passes exactly when `HealthCheckSpec` passes, and then only the health becomes "healthy"; on failure the error is the health check's error behind "plugin failed health validation: ", the instance is stopped, and only the status (failed) and health (unhealthy, with that error) change |
| PluginService.PluginService.MarkFailed | cu-cms/internal/services/plugin_service.go:1073-1091 | the instance is stopped, and the plugin's record changes only in its status (failed) and its health (unhealthy, with the message) |
| PluginService.PluginService.ActivatePlugin | cu-cms/internal/services/plugin_service.go:447-586 | an absent slug is "plugin not found" with the VM service unchanged; otherwise the plugin's whole record, the VM service and the result are those of `ActivateSpec` |
| PluginService.PluginService.ActivateRegistered | cu-cms/internal/services/plugin_service.go:457-586 | for a registered plugin, the new record, VM service and outcome are those of `ActivateSpec` |
| PluginService.PluginService.ActivateFreshPlugin | cu-cms/internal/services/plugin_service.go:490-586 | the start path: the new record, VM service and outcome are those of `ActivateFresh` |
| PluginService.PluginService.ActivateStartedPlugin | cu-cms/internal/services/plugin_service.go:504-586 | after the start: the new record, VM service and outcome are those of `ActivateStarted` |
| PluginService.PluginService.FinishActivation | cu-cms/internal/services/plugin_service.go:522-586 | after a healthy answer: the new record, VM service and outcome are those of `ActivateHealthy` |
| PluginService.PluginService.SelectTargets | cu-cms/internal/services/plugin_service.go:640-656 | targets are active registered plugins, each appearing once per action that lists the hook |
| PluginService.PluginService.ExecuteAction | cu-cms/internal/services/plugin_service.go:634-824 | the selected targets run in non-increasing priority; each contributes exactly one result, `executed_plugins` equals the number of results, and no targets give 0 and no results; the new VM service is `DispatchSpec` of the old one over the targets' slugs |
| PluginService.RunTargets | cu-cms/internal/services/plugin_service.go:678-815 | one result per target, in order, naming the target; the new VM service and the instances kept for giving back are the fold `TakeInstances` over the targets' slugs |
| PluginService.RunTarget | cu-cms/internal/services/plugin_service.go:679-812 | one target takes the head of its queue as `GetPrewarmSpec` does; the instance is kept for giving back exactly when there was one and it resumed; a successful result needs a resumed instance and carries the response |
| PluginService.ReturnDeferred | cu-cms/internal/services/plugin_service.go:714-724 | giving the instances back, last first, yields `ReturnAll` of the old VM service, which stays valid |
| PluginService.TakeInstances | cu-cms/internal/services/plugin_service.go:679-729 | each target in turn takes the head of its queue; an instance is kept, with its position and slug, exactly when there was one and it resumed; the service stays valid |
| PluginService.TakeStep | cu-cms/internal/services/plugin_service.go:679-729 | one more target extends the fold by one `GetPrewarmSpec` step |
| PluginService.ReturnAll | cu-cms/internal/services/plugin_service.go:714-724 | the kept instances are handled last first, and one whose pause succeeds goes back through `ReturnPrewarmSpec`; the service stays valid |
| PluginService.DispatchSpec | cu-cms/internal/services/plugin_service.go:678-790 | the VM service after a dispatch: the takes of `TakeInstances`, then the returns of `ReturnAll` |
| PluginService.TakeOne | cu-cms/internal/services/plugin_service.go:682-699 | a single target takes from its queue once and keeps the instance exactly when it resumed |
| PluginService.ReturnOne | cu-cms/internal/services/plugin_service.go:714-724 | a single kept instance goes back through `ReturnPrewarmSpec` exactly when its pause succeeds |
| PluginService.DispatchRotates | cu-cms/internal/services/plugin_service.go:678-790 | dispatching to one plugin rotates its queue: the head goes to the back when it resumes and pauses; otherwise it leaves the queue; addresses, running instances and other queues are untouched |
| PluginService.AppendMatching | cu-cms/internal/services/plugin_service.go:643-654 | appends the plugin once per action that lists the hook |
| PluginService.AppendCopies | cu-cms/internal/services/plugin_service.go:646 | appending copies of a plugin raises its count by that number and no other plugin's count |
| PluginService.CopiesMultiset | cu-cms/internal/services/plugin_service.go:646 | n copies of a plugin are the multiset holding it n times |
| Server.PathParts | cu-cms/internal/server/server.go:147 | the path splits into at least one segment, none containing '/' |
| Server.RoutePluginsMethods | cu-cms/internal/server/server.go:134-143 | GET and POST are dispatched; every other method is refused with 405 |
| Server.PluginPath | cu-cms/internal/server/server.go:145-186 | a plugin path starts with "/api/plugins/" |
| Server.PluginPathJoin | cu-cms/internal/server/server.go:147 | a plugin path is "/" joined with its segments |
| Server.TrimLeadingSlash | cu-cms/internal/server/server.go:147 | trimming slashes removes exactly the leading one of a well-formed path |
| Server.PluginPathParts | cu-cms/internal/server/server.go:147 | splitting a well-formed plugin path gives back the segments it was built from |
| Server.RoutePluginPath | cu-cms/internal/server/server.go:160-186 | an action is dispatched only for POST with "activate" or "deactivate", anything else with an action is "Invalid action"; the bare path dispatches GET and DELETE and gives 405 otherwise |
| Server.DispatchedSlugIsSegment | cu-cms/internal/server/server.go:147-186 | any dispatched request names a non-empty slug without '/', and activation or deactivation only ever came as POST |
| Server.UploadCheckSuffix | cu-cms/internal/server/server.go:232-238 | names ending in ".zip" in any letter case pass, others such as ".tar" are refused |
| Server.ExecuteChecks | cu-cms/internal/server/server.go:357-379 | the hook is returned if and only if the method is POST, the body decodes and names an action; a wrong method is 405, the others 400 |
| Server.ExecutedPluginsAlwaysFour | cu-cms/internal/server/server.go:396-398 | as written, `executed_plugins` is always 4 and so differs from the number of results whenever that is not 4 |
| Server.EmptyDispatchReportedAsFour | cu-cms/internal/server/server.go:396-398 | as written, a dispatch that reached no plugin is reported as four executed plugins |
| Server.ExecuteReplyFor | cu-cms/internal/server/server.go:396-398 | the corrected reply counts exactly the results the dispatch produced |
| Server.ActiveCountBounded | cu-cms/internal/server/server.go:409-415 | the active count never exceeds the number of plugins |
| Server.ActiveCountFull | cu-cms/internal/server/server.go:409-415 | the two counts are equal if and only if every plugin is active |
| Server.HandleHealthCheck | cu-cms/internal/server/server.go:406-425 | reports "healthy", the number of registered plugins, the number of active ones among them (never more), and the machine count |
| Server.ExecuteReplyAsWritten | cu-cms/internal/server/server.go:396-398 | the reply as written: `executed_plugins` is the number of keys of the map the dispatch returned |
| Server.RoutePlugins | cu-cms/internal/server/server.go:134-143 | GET lists the plugins, POST uploads one; any other verb is "Method not allowed" with status 405 |
| Server.RoutePluginBySlug | cu-cms/internal/server/server.go:145-187 | the third path segment is the slug; a fourth segment names an action, which only POST may invoke |
| Server.UploadCheck | cu-cms/internal/server/server.go:208-262 | an upload is accepted only when its file name, lower-cased, ends in ".zip" |
| Middleware.IsValidSlugFormat | cu-cms/internal/middleware/middleware.go:105-112 | true if and only if every character is in [a-z0-9-], hence true for "" |
| Middleware.ValidateSlugIff | cu-cms/internal/middleware/middleware.go:91-102 | a slug is accepted if and only if it is non-empty, at most 50 characters and of [a-z0-9-]; "" is refused first and an over-long slug is refused for length whatever it holds |
| Middleware.EmptySlugFormat | cu-cms/internal/middleware/middleware.go:92-94 | the character scan alone accepts "", and only the emptiness check refuses it |
| Middleware.LooseSlugsAccepted | cu-cms/internal/middleware/middleware.go:91-102 | one-character slugs and slugs with hyphens at either end pass |
| Middleware.ValidateSlugMiddleware | cu-cms/internal/middleware/middleware.go:76-89 | the request is passed on exactly when the slug is valid, else it is answered with 400 and the validation message |
| Middleware.ValidateSlug | cu-cms/internal/middleware/middleware.go:91-102 | emptiness first, then length, then characters |
| PyValues.Number | plugins/python-plugin/app.py:160 | int, float and bool values have a number, and `bool` counts as 0 or 1; other values have none |
| PyValues.Repeat | plugins/python-plugin/app.py:303 | repeating a sequence n times has n times its length, and nothing for n <= 0 |
| PyValues.ProductAsReal | plugins/python-plugin/app.py:303 | an integer product read as a float equals the float product of its factors |
| PyValues.Multiply | plugins/python-plugin/app.py:303 | two numbers multiply as numbers; a non-numeric product arises only from text or a list |
| PyValues.AddTo | plugins/python-plugin/app.py:160 | adding succeeds exactly for a number, and then adds its value |
| PyValues.MinWith | plugins/python-plugin/app.py:346 | `min` with a bound succeeds exactly for a number, never exceeds the bound, and keeps the value when it is within it |
| PyValues.Get | plugins/python-plugin/app.py:290-292 | `get` works exactly on objects, returning the stored value or the default |
| CommerceStore.InitialStoreValid | plugins/python-plugin/app.py:22-31 | the initial store satisfies the invariant: order count equals the number of orders, revenue equals the sum of order totals, ids run 1, 2, 3, ... |
| CommerceStore.RevenueAppend | plugins/python-plugin/app.py:314-315 | appending an order with a numeric total adds that total to the revenue |
| CommerceStore.AppendOrderValid | plugins/python-plugin/app.py:303-316 | recording an order with the next id and adding its total keeps the invariant |
| CommerceStore.FindProduct | plugins/python-plugin/app.py:295 | the product found has an id equal to the request's id; none is found if and only if no product's id is equal |
| CommerceStore.FindProductById | plugins/python-plugin/app.py:295 | in a store numbered 1..n an integer id finds exactly the product at that position |
| CommerceStore.FindProductFirst | plugins/python-plugin/app.py:295 | the lookup returns the first equal product |
| CommerceStore.FibMatchesIteration | plugins/python-plugin/app.py:349-352 | the recursive definition equals the linear iteration |
| CommerceStore.FibMonotone | plugins/python-plugin/app.py:349-352 | the sequence is non-negative and non-decreasing |
| CommerceStore.FibonacciOf | plugins/python-plugin/app.py:343-363 | the computation succeeds exactly for a numeric input |
| CommerceStore.FibonacciClamp | plugins/python-plugin/app.py:346-352 | the input is clamped to 35, and an integer up to 1 is its own result |
| CommerceStore.DelayOf | plugins/python-plugin/app.py:365-378 | the delay is a number between 0 and 2000 ms; a negative delay raises ValueError |
| CommerceStore.Average | plugins/python-plugin/app.py:329 | the average times the order count is the revenue, and with no orders it is the revenue itself (zero in a valid store) |
| CommerceStore.Recent | plugins/python-plugin/app.py:338 | the recent orders are the last min(5, n) orders |
| CommerceStore.ExecutePreservesValid | plugins/python-plugin/app.py:268-433 | every `/execute` request, with `create_order` corrected, keeps the store invariant and counts one request |
| CommerceStore.CreateOrderValid | plugins/python-plugin/app.py:289-323 | the corrected `create_order` keeps the invariant and the catalogue |
| CommerceStore.CreateOrderEffect | plugins/python-plugin/app.py:303-316 | a successful order takes id len+1, costs price times quantity, adds that total to the revenue and one to the count |
| CommerceStore.CreateOrderMissingProduct | plugins/python-plugin/app.py:295-301 | an unknown product is refused with "Product not found" and nothing changes |
| CommerceStore.UnknownActionChangesOnlyCounter | plugins/python-plugin/app.py:395-408 | an unknown action lists the six action names and changes only the request counter |
| CommerceStore.AnalyticsReportShape | plugins/python-plugin/app.py:325-342 | with no orders the average is zero, and the recent list is at most the last five orders |
| CommerceStore.ProductHookPreservesValid | plugins/python-plugin/app.py:84-133 | the product hook keeps the invariant |
| CommerceStore.OrderHookPreservesValid | plugins/python-plugin/app.py:135-183 | the corrected order hook keeps the invariant |
| CommerceStore.AnalyticsHookPreservesValid | plugins/python-plugin/app.py:185-240 | the analytics hook keeps the invariant |
| CommerceStore.ProductHookEffect | plugins/python-plugin/app.py:97-111 | "product.created" appends one product numbered len+1; "product.updated" leaves the catalogue alone |
| CommerceStore.UnsupportedHooksChangeNothing | plugins/python-plugin/app.py:121-126 | an unsupported hook on any endpoint gets 400 with the endpoint's hook list and changes only that endpoint's counter |
| CommerceStore.OrderHookTextTotal | plugins/python-plugin/app.py:152-161 | as written, a text total records the order and then raises, so the orders outgrow the count; the corrected hook refuses without recording |
| CommerceStore.CreateOrderTextPrice | plugins/python-plugin/app.py:303-316 | as written, a text price times 2 records an order and then raises on the revenue; the corrected action leaves the orders empty |
| CommerceStore.DataStore.constructor | plugins/python-plugin/app.py:22-31 | the store starts as the initial store, which is valid |
| CommerceStore.DataStore.FindProductById | plugins/python-plugin/app.py:295 | the generator scan returns `FindProduct` |
| CommerceStore.DataStore.CreateOrder | plugins/python-plugin/app.py:289-323 | new state and reply are those of the corrected `CreateOrderSpec` |
| CommerceStore.DataStore.Execute | plugins/python-plugin/app.py:268-433 | new state and reply are those of `ExecuteSpec` |
| CommerceStore.DataStore.HandleProductAction | plugins/python-plugin/app.py:84-133 | new state and reply are those of `ProductHookSpec` |
| CommerceStore.DataStore.HandleOrderAction | plugins/python-plugin/app.py:135-183 | new state and reply are those of the corrected `OrderHookSpec` |
| CommerceStore.DataStore.HandleAnalyticsAction | plugins/python-plugin/app.py:185-240 | new state and reply are those of `AnalyticsHookSpec` |
| CommerceStore.CreateOrderAsWritten | plugins/python-plugin/app.py:289-323 | `create_order` as written: the order is appended before the revenue update, which may raise |
| CommerceStore.OrderHookAsWritten | plugins/python-plugin/app.py:135-183 | "order.created" as written: the order is appended before the revenue update, which may raise |
| CommerceStore.ExecuteSpec | plugins/python-plugin/app.py:268-433 | `/execute`: counts the request, then runs the named action (default "default", which is unknown) |
| CommerceStore.CreateOrderSpec | plugins/python-plugin/app.py:289-323 | the corrected `create_order`: the product is looked up, the total is its price times the quantity (default 1), and the order is recorded only when its total is a number |
| CommerceStore.ProductHookSpec | plugins/python-plugin/app.py:84-133 | counts the request; "product.created" adds a product with the next id; "product.updated" only answers; any other hook gets the unsupported-hook reply |
| CommerceStore.OrderHookSpec | plugins/python-plugin/app.py:135-183 | the corrected "order.created": an order with the next id and the payload's total, recorded only when the total can be added to the revenue |
| CommerceStore.AnalyticsHookSpec | plugins/python-plugin/app.py:185-240 | counts a calculation (not a request) and reports the store's figures |
| StarterErrors.TypeNamesDistinct | cms-starter/internal/errors/errors.go:14-24 | the seven kinds have seven different names |
| StarterErrors.ErrorText | cms-starter/internal/errors/errors.go:35-40 | the text starts with "op: msg" and is exactly that if and only if there is no cause |
| StarterErrors.WrapUnwrap | cms-starter/internal/errors/errors.go:43-64 | Unwrap of Wrap(e) is e, New has no cause, and the wrapped text ends with the cause's text in parentheses |
| StarterErrors.TypedConstructors | cms-starter/internal/errors/errors.go:67-118 | each typed constructor sets its own kind, with no cause for New and the given cause for Wrap |
| StarterErrors.IsTypeIsDirect | cms-starter/internal/errors/errors.go:121-134 | `IsType` agrees with `GetType` on typed errors and never looks at causes; a foreign error is of no kind but `GetType` says "internal" |
| StarterValidator.ValidateSlugFormatIff | cms-starter/internal/plugin/validator.go:109-129 | a slug passes if and only if it has 3-50 characters of [a-z0-9-] and no hyphen at either end; refusals are validation errors |
| StarterValidator.DigitRunEnd | cms-starter/internal/plugin/validator.go:134 | the greedy `\d+` scan ends at the first non-digit |
| StarterValidator.DigitRunStops | cms-starter/internal/plugin/validator.go:134 | any maximal digit run is the one the greedy scan finds |
| StarterValidator.VersionPartsSound | cms-starter/internal/plugin/validator.go:132-141 | an accepted version is digits.digits.digits with an empty or "-"-led suffix of [a-zA-Z0-9-.], and is rebuilt from its groups |
| StarterValidator.VersionPartsComplete | cms-starter/internal/plugin/validator.go:134 | every X.Y.Z or X.Y.Z-suffix is accepted with exactly those groups (the other direction of the pattern) |
| StarterValidator.DecimalVersionAccepted | cms-starter/internal/plugin/validator.go:134 | every rendered numeric triple is a valid version |
| StarterValidator.ValidateRuntime | cms-starter/internal/plugin/validator.go:144-157 | passes if and only if the lower-cased runtime is one of python, node, php, go, rust, java |
| StarterValidator.RuntimeExamples | cms-starter/internal/plugin/validator.go:147 | case does not matter ("Python", "GO" pass; "ruby" fails) |
| StarterValidator.ValidateManifestIff | cms-starter/internal/plugin/validator.go:34-70 | a manifest passes if and only if all field, slug, version and runtime checks pass; nil, slug, name, version are refused in that order |
| StarterValidator.ValidateSize | cms-starter/internal/plugin/validator.go:94-106 | passes if and only if minSize <= size <= maxSize; refusals are validation errors |
| StarterValidator.ValidateDirectory | cms-starter/internal/plugin/validator.go:73-91 | passes if and only if the directory exists and holds every required file |
| StarterValidator.ValidateManifest | cms-starter/internal/plugin/validator.go:34-70 | a nil manifest fails; then slug, name and version must be present, the slug and version well-formed, and a given runtime supported, checked in that order |
| StarterValidator.ValidateSlugFormat | cms-starter/internal/plugin/validator.go:109-129 | the length (3-50) first, then the characters ([a-z0-9-]), then no hyphen at either end |
| StarterValidator.ValidateVersionFormat | cms-starter/internal/plugin/validator.go:132-141 | a version is accepted exactly when it splits into major, minor and patch digit runs with an optional suffix |
| StarterManager.LoadManifestGate | cms-starter/internal/plugin/manager.go:37-69 | a manifest comes back only when read, decoded and accepted by the validator; a refusal is a validation error wrapping the validator's error |
| StarterManager.ExtractAttemptsOnlyRequired | cms-starter/internal/plugin/manager.go:138-174 | extraction is only ever attempted on the destination path of a required name, i.e. on the two required destination paths |
| StarterManager.ExtractZip | cms-starter/internal/plugin/manager.go:115-182 | the single-pass loop yields the result of `ExtractZipSpec` |
| StarterManager.ExtractRefusesTraversal | cms-starter/internal/plugin/manager.go:140-143 | any entry whose name contains ".." makes extraction fail |
| StarterManager.ExtractCleanArchive | cms-starter/internal/plugin/manager.go:138-174 | a clean archive succeeds if and only if both required names occur; a missing rootfs is reported first |
| StarterManager.ContainsDoubleHyphen | cms-starter/internal/plugin/manager.go:231 | "--" occurs exactly when two hyphens stand side by side |
| StarterManager.ReplaceDoubleHyphens | cms-starter/internal/plugin/manager.go:231-233 | each pass shortens a string that contains "--", so the rewrite loop ends |
| StarterManager.CollapseHyphens | cms-starter/internal/plugin/manager.go:231-233 | the collapse holds no "--" and keeps the first character |
| StarterManager.CollapseCons | cms-starter/internal/plugin/manager.go:231-233 | the collapse of a string with one more character in front |
| StarterManager.CollapseFixes | cms-starter/internal/plugin/manager.go:231-233 | a string without "--" is its own collapse |
| StarterManager.CollapseReplaceDouble | cms-starter/internal/plugin/manager.go:231-233 | a leading "--" that `ReplaceAll` turns into "-" collapses to the same text as before |
| StarterManager.CollapseReplaceSingle | cms-starter/internal/plugin/manager.go:231-233 | a leading character that `ReplaceAll` keeps collapses to the same text as before |
| StarterManager.CollapseReplace | cms-starter/internal/plugin/manager.go:231-233 | one `ReplaceAll` pass does not change what the hyphen runs collapse to |
| StarterManager.ReplaceKeepsHead | cms-starter/internal/plugin/manager.go:231 | `ReplaceAll` keeps a first character that is not a hyphen |
| StarterManager.SanitizeName | cms-starter/internal/plugin/manager.go:220-239 | the loop computes `SanitizedName`: sanitize, collapse hyphen runs, trim hyphens |
| StarterManager.TrimIsSlice | cms-starter/internal/plugin/manager.go:236 | trimming keeps a contiguous piece of its input |
| StarterManager.SanitizedNameChars | cms-starter/internal/plugin/manager.go:222-236 | every character of the result is in [a-z0-9-_.] |
| StarterManager.SanitizedNameNoDoubleHyphen | cms-starter/internal/plugin/manager.go:231-236 | the result contains no "--" |
| StarterManager.SanitizedNameShape | cms-starter/internal/plugin/manager.go:222-236 | the result holds only [a-z0-9-_.], has no "--", and neither starts nor ends with '-' |
| StarterManager.SliceKeepsNoDoubleHyphen | cms-starter/internal/plugin/manager.go:236 | a piece of a string without "--" has none |
| StarterManager.SanitizedNameFixesClean | cms-starter/internal/plugin/manager.go:220-239 | an already clean name is left unchanged |
| StarterManager.SanitizedNameIdempotent | cms-starter/internal/plugin/manager.go:220-239 | sanitizing twice equals sanitizing once |
| StarterManager.LoadManifest | cms-starter/internal/plugin/manager.go:37-69 | a read failure, then a decoding failure, then a validation failure, else the validated manifest |
| StarterManager.ExtractZipSpec | cms-starter/internal/plugin/manager.go:115-182 | opening the archive and creating the destination come first; then the entries are extracted in order |
| StarterMain.Sanitize | cms-starter/main.go:666-675 | the output has the input's length, only characters of "a-z0-9-_.", lower-cased allowed characters in place and '-' for every other |
| StarterMain.SanitizeExamples | cms-starter/main.go:666-675 | hyphens are neither merged nor trimmed ("A  B" gives "a--b") |
| StarterMain.SanitizeFixesClean | cms-starter/main.go:666-675 | a name of allowed characters is unchanged, so `sanitize` is idempotent |
| StarterMain.ModeNamesAgree | cms-starter/main.go:154-171 | test beats dev beats production for both the image tag and the container suffix, and both always name the same mode |
| StarterMain.PluginImage | cms-starter/main.go:373-374 | the image is "plugin-" followed by the build name sanitize(name)-version |
| StarterMain.PluginImageLayout | cms-starter/main.go:444-445 | the image keeps the name's length, so the version starts at a fixed offset |
| StarterServices.AnyIndicator | cms-starter/internal/services/plugin_service.go:140-149 | true if and only if some indicator occurs in the message |
| StarterServices.IsSpaceError | cms-starter/internal/services/plugin_service.go:131-150 | true if and only if the error text contains one of the seven indicators |
| StarterServices.ContainsSuffix | cms-starter/internal/services/plugin_service.go:157-159 | a string occurs at the end of any concatenation ending in it |
| StarterServices.ContainsExtend | cms-starter/internal/services/plugin_service.go:157-159 | an occurrence survives appending more text |
| StarterServices.ContainsMiddle | cms-starter/internal/services/plugin_service.go:157-159 | a string occurs in any concatenation that has it in the middle |
| StarterServices.WrapSpaceErrorContents | cms-starter/internal/services/plugin_service.go:153-160 | the wrapped error is a plugin error with no cause whose message contains the size and the original error's text |
| StarterServices.BuildPluginContract | cms-starter/internal/services/plugin_service.go:45-99 | size 0 becomes the default; the builder is reached only with a valid manifest; space errors are wrapped, and other errors come back unchanged with the build result |
| StarterServices.ValidatePluginOrder | cms-starter/internal/services/plugin_service.go:102-123 | a plugin passes if and only if the directory is complete and the manifest loads and validates; a bad directory is reported before any manifest problem |
| StarterServices.BuildPlugin | cms-starter/internal/services/plugin_service.go:45-99 | a size of 0 is the default size; the manifest is loaded first; the builder's result comes back with its error, a space error being replaced by the guidance error |
| StarterServices.ValidatePlugin | cms-starter/internal/services/plugin_service.go:102-123 | the directory check first, then loading the manifest; the first failure is returned as it is |
| DockerClient.FirstMatch | cms-starter/internal/docker/client.go:199-211 | finds the first container in list order whose ID, or one of whose names without a leading '/', equals the key, or shows there is none |
| DockerClient.GetContainerStatus | cms-starter/internal/docker/client.go:193-212 | the nested scan returns the first match's state, "not_found", or the listing error |
| DockerClient.LookupIdMatches | cms-starter/internal/docker/client.go:140-156 | a non-empty ID found by the stop lookup belongs to a matching container, and no match gives "" |
| DockerClient.LookupIsFirstMatch | cms-starter/internal/docker/client.go:140-156 | with non-empty IDs the stop lookup picks the same container as the status lookup: the first match |
| DockerClient.StopContainerOrder | cms-starter/internal/docker/client.go:158-187 | no match means nothing is stopped or removed and no error; removal happens only when asked and after a successful stop; failures are Docker errors |
| DockerClient.StopContainer | cms-starter/internal/docker/client.go:129-190 | the loop with its break yields `StopContainerSpec` |
| DockerClient.MountRoundTrip | cms-starter/internal/docker/client.go:42-46 | the mount conversion loses and swaps no field |
| DockerClient.ConvertMounts | cms-starter/internal/docker/client.go:74-81 | a fresh array of the same length with each mount converted in place |
| DockerClient.CreateContainer | cms-starter/internal/docker/client.go:67-108 | mounts are converted one for one in order; the privilege, network and capability settings are passed on; an error is wrapped as "container_create" |
| DockerClient.LookupId | cms-starter/internal/docker/client.go:140-156 | the first container whose ID or a trimmed name matches; a name match ends the search only when its ID is not empty |
| DockerClient.StopContainerSpec | cms-starter/internal/docker/client.go:129-190 | a list failure is a wrapped Docker error; no match does nothing; otherwise a stop, then a removal when asked, the first failure ending the call as a wrapped Docker error |
| StarterConfig.ValidateIff | cms-starter/internal/config/config.go:82-97 | valid if and only if the port is 1-65535, the data directory is non-empty and the default size is within bounds; the port error comes first |
| StarterConfig.DefaultsValid | cms-starter/internal/config/config.go:41-56 | the defaults pass validation |
| StarterConfig.LoadFromEnvEffect | cms-starter/internal/config/config.go:59-79 | the port changes only to a value CMS_PORT parses to; debug is set only by "true" or "1"; the modes, names and sizes are untouched |
| StarterConfig.LoadFromEnvKeepsValid | cms-starter/internal/config/config.go:59-97 | loading keeps a valid configuration valid unless CMS_PORT parses outside 1-65535 |
| StarterConfig.OutOfRangePortTaken | cms-starter/internal/config/config.go:61-63 | CMS_PORT=70000 is taken and then refused by `Validate` |
| StarterConfig.ModeNames | cms-starter/internal/config/config.go:100-122 | ":latest" and the bare container name occur if and only if in production mode; the names agree with the entry point's |
| StarterConfig.Config.constructor | cms-starter/internal/config/config.go:41-56 | a new configuration holds the defaults |
| StarterConfig.Config.LoadFromEnv | cms-starter/internal/config/config.go:59-79 | the new fields are `LoadFromEnvSpec` of the old ones |
| CmsConfig.ValidateIff | cu-cms/internal/config/config.go:124-138 | valid if and only if the port and data directory are non-empty and the pool size is positive, checked in that order |
| CmsConfig.LoadFromEnvKeepsValid | cu-cms/internal/config/config.go:41-138 | the defaults are valid, and no environment makes a valid configuration invalid |
| CmsConfig.LoadFromEnvEffect | cu-cms/internal/config/config.go:77-118 | the pool size changes only to a parsed positive value; debug and verbose are set only by "true"/"1" and never cleared |
| CmsConfig.ModesAgree | cu-cms/internal/config/config.go:141-180 | the log level is "debug" if and only if in debug mode; the mode predicates exclude each other; the mode string names the mode that holds, unknown modes giving "production" |
| CmsConfig.UnknownModeExample | cu-cms/internal/config/config.go:169-180 | "staging" reads as "production" although `IsProductionMode` is false |
| CmsConfig.Config.constructor | cu-cms/internal/config/config.go:41-65 | a new configuration holds the defaults |
| CmsConfig.Config.LoadFromEnv | cu-cms/internal/config/config.go:68-121 | the new fields are `LoadFromEnvSpec` of the old ones |
| CmsConfig.Config.LoadServer | cu-cms/internal/config/config.go:70-90 | the server and mode variables update their fields |
| CmsConfig.Config.LoadPaths | cu-cms/internal/config/config.go:92-112 | the directory and Firecracker variables update their fields |
| CmsConfig.ReadPoolSize | cu-cms/internal/config/config.go:114-118 | CMS_PREWARM_POOL_SIZE is taken only when it parses to a positive integer |
| CmsConfig.ReadOverride | cu-cms/internal/config/config.go:70-72 | a non-empty variable replaces the field |
| CmsConfig.ReadFlag | cu-cms/internal/config/config.go:77-79 | "true" or "1" switches the flag on; nothing switches it off |
| CmsConfig.Validate | cu-cms/internal/config/config.go:124-138 | a port, a data directory and a positive pool size, checked in that order |
| CmsConfig.ModeString | cu-cms/internal/config/config.go:169-180 | the canonical name of the mode, with "production" for anything unknown |
| CmsConfig.LogLevel | cu-cms/internal/config/config.go:141-146 | "debug" in debug mode, "info" otherwise |
| CmsErrors.TypeNamesDistinct | cu-cms/internal/errors/errors.go:14-26 | the nine kinds have nine different names |
| CmsErrors.RenderShape | cu-cms/internal/errors/errors.go:39-44 | the text starts with "[type] op: msg", is exactly that if and only if there is no cause, and otherwise ends with the cause's text in parentheses |
| CmsErrors.CMSError.New | cu-cms/internal/errors/errors.go:52-59 | no cause, no component, an empty context |
| CmsErrors.CMSError.Wrap | cu-cms/internal/errors/errors.go:62-70 | as `New`, with the given cause, which `Unwrap` returns |
| CmsErrors.CMSError.WithComponent | cu-cms/internal/errors/errors.go:73-76 | sets the component, keeps the context, returns the same error |
| CmsErrors.CMSError.WithContext | cu-cms/internal/errors/errors.go:79-85 | the context becomes `SetContext` of the old one, and the same error is returned |
| CmsErrors.SetContextEffect | cu-cms/internal/errors/errors.go:79-85 | the key holds the value, other keys keep theirs, and a nil map becomes that key alone |
| CmsErrors.NewValidationError | cu-cms/internal/errors/errors.go:88-90 | a fresh validation error with no cause |
| CmsErrors.WrapValidationError | cu-cms/internal/errors/errors.go:92-94 | a fresh validation error with the given cause |
| CmsErrors.NewHTTPError | cu-cms/internal/errors/errors.go:97-99 | a fresh HTTP error with no cause |
| CmsErrors.WrapHTTPError | cu-cms/internal/errors/errors.go:101-103 | a fresh HTTP error with the given cause |
| CmsErrors.NewPluginError | cu-cms/internal/errors/errors.go:106-108 | a fresh plugin error with no cause |
| CmsErrors.WrapPluginError | cu-cms/internal/errors/errors.go:110-112 | a fresh plugin error with the given cause |
| CmsErrors.NewVMError | cu-cms/internal/errors/errors.go:115-117 | a fresh VM error with no cause |
| CmsErrors.WrapVMError | cu-cms/internal/errors/errors.go:119-121 | a fresh VM error with the given cause |
| CmsErrors.NewFirecrackerError | cu-cms/internal/errors/errors.go:124-126 | a fresh Firecracker error with no cause |
| CmsErrors.WrapFirecrackerError | cu-cms/internal/errors/errors.go:128-130 | a fresh Firecracker error with the given cause |
| CmsErrors.NewNetworkError | cu-cms/internal/errors/errors.go:133-135 | a fresh network error with no cause |
| CmsErrors.WrapNetworkError | cu-cms/internal/errors/errors.go:137-139 | a fresh network error with the given cause |
| CmsErrors.NewFileSystemError | cu-cms/internal/errors/errors.go:142-144 | a fresh filesystem error with no cause |
| CmsErrors.WrapFileSystemError | cu-cms/internal/errors/errors.go:146-148 | a fresh filesystem error with the given cause |
| CmsErrors.NewTimeoutError | cu-cms/internal/errors/errors.go:151-153 | a fresh timeout error with no cause |
| CmsErrors.WrapTimeoutError | cu-cms/internal/errors/errors.go:155-157 | a fresh timeout error with the given cause |
| CmsErrors.NewInternalError | cu-cms/internal/errors/errors.go:160-162 | a fresh internal error with no cause |
| CmsErrors.WrapInternalError | cu-cms/internal/errors/errors.go:164-166 | a fresh internal error with the given cause |
| CmsErrors.Classification | cu-cms/internal/errors/errors.go:169-190 | `IsType` agrees with `GetType` on typed errors without unwrapping; a foreign error is of no kind, `GetType` says "internal" and `GetContext` is nil |
| CmsErrors.Render | cu-cms/internal/errors/errors.go:39-44 | `Error()` of an error: "[kind] operation: message", followed by " (caused by: " and the cause's text when there is one; a foreign error is its own text |
| CmsErrors.IsType | cu-cms/internal/errors/errors.go:169-174 | true exactly for a `*CMSError` of that kind; causes are not consulted |
| CmsErrors.GetType | cu-cms/internal/errors/errors.go:177-182 | the kind of a `*CMSError`, and "internal" for any other error |
| CmsErrors.GetContext | cu-cms/internal/errors/errors.go:185-190 | the context map of a `*CMSError`, and nil for any other error |
| PluginBuilder.ImageSafe | cmd/plugin-builder/main.go:226-241 | one output character per input character, all in [a-z0-9._-]; allowed characters are kept and all others, upper-case letters included, become '-' |
| PluginBuilder.SanitizeImageName | cmd/plugin-builder/main.go:226-241 | the character loop computes `ImageSafe` |
| PluginBuilder.ImageSafeIdempotent | cmd/plugin-builder/main.go:226-241 | sanitizing twice changes nothing more, and upper-case letters are never kept |
| PluginBuilder.ReadPluginManifestChecks | cmd/plugin-builder/main.go:118-127 | a manifest is accepted if and only if name, version and port are set; refused as empty name, empty version, port 0 in that order |
| PluginBuilder.ImageName | cmd/plugin-builder/main.go:134-135 | the image is "plugin-" followed by name-version, sanitized, of the same length |
| PluginBuilder.ExportContainerOfImage | cmd/plugin-builder/main.go:158 | the export container is "export-" and the image name |
| PluginBuilder.OutputPath | cmd/plugin-builder/main.go:41-48 | no plugin directory is an error; a given output is kept; otherwise the path is inside the plugin directory and ends in "/build/rootfs.ext4" |
| PluginBuilder.ValidatePluginDirectory | cmd/plugin-builder/main.go:88-104 | passes if and only if the directory exists and holds plugin.json and Dockerfile |
| PluginBuilder.ExportPluginSteps | cmd/plugin-builder/main.go:57-86 | an export succeeds if and only if every step before clean-up succeeds; clean-up never matters; a refused manifest stops before Docker |
| PluginBuilder.ReadPluginManifest | cmd/plugin-builder/main.go:106-130 | a read failure, then a decoding failure, then a missing name, version or port, else the manifest |
| PluginBuilder.ExportPlugin | cmd/plugin-builder/main.go:57-86 | validate the directory, read the manifest, build the image, export it, each failure wrapped with its step; a failed clean-up is only logged; on success the result is the built image |
| Text.LowerChar | cms-starter/internal/plugin/validator.go:147 | upper-case letters become lower-case and everything else is kept |
| Text.Lower | cms-starter/main.go:667 | lower-casing keeps the length and maps each character |
| Text.TrimPrefix | cms-starter/internal/docker/client.go:148 | removes one leading prefix when present, else keeps the string |
| Text.NatToDecimal | cms-starter/internal/config/config.go:83-85 | a decimal rendering is digits without a leading zero |
| Text.IntToDecimal | cms-starter/internal/config/config.go:83-85 | a negative number renders with a leading '-' |
| Text.DecimalRoundTrip | cms-starter/internal/config/config.go:83-85 | reading a rendered number gives it back |
| Text.NatToDecimalInjective | cms-starter/internal/config/config.go:83-85 | distinct numbers render differently |
| Text.Atoi | cms-starter/internal/config/config.go:61 | a parsed value fits in 64 bits and came from a non-empty string |
| Text.AtoiOfDecimal | cms-starter/internal/config/config.go:61 | every rendered number in the 64-bit range parses back to itself |
| Text.TrimChar | cu-cms/internal/server/server.go:147 | trimming leaves no separator at either end and adds no characters |
| Text.Split | cu-cms/internal/server/server.go:147 | splitting gives at least one piece, none holding the separator |
| Text.JoinSplit | cu-cms/internal/server/server.go:147 | joining the pieces of a split gives back the text |
| Text.SplitNoSeparator | cu-cms/internal/server/server.go:147 | a text without the separator splits into itself |
| Text.SplitAtFirst | cu-cms/internal/server/server.go:147 | splitting peels off the text before the first separator |
| Text.SplitJoin | cu-cms/internal/server/server.go:147 | splitting a join of separator-free pieces gives the pieces back |

## Left out

- Firecracker: machine creation, start, shutdown, pause, resume and snapshots are parameters holding each step's error. The model stops at the bookkeeping around them.
- Host networking: tap device setup and removal (`exec` of `ip` and `brctl`), `checkTapExists` and `CleanupPluginNetwork` are not modelled.
- Snapshot files: `HasSnapshot`, `DeleteSnapshot` and `GetSnapshotPath` are not modelled; whether a snapshot exists is a parameter of activation.
- `generateTapName` (MD5) and `generatePluginTapName` (random) are not modelled; activation takes the tap name as a parameter.
- Concurrency: mutexes, the pre-warm manager goroutine and its ticker are not modelled. Each operation is one atomic step.
- The clock: the maintenance time and instance creation times are integers passed in. `CreatedAt`, `UpdatedAt` and `LastCheck` timestamps are not kept.
- HTTP, Docker and the filesystem: each call is given as its outcome, and JSON decoding is given as a decoded value or an error.
- The sleep between health retries and the `simulate_delay` sleep are not modelled. `random_data` is not modelled, because its values are random.
- Python floats are exact reals. Rounding of prices and of the revenue sum is not captured.
- Path joining is plain concatenation with '/'. `filepath.Join`'s cleaning of "." and ".." is not modelled.
- Case mapping covers ASCII letters only, and lengths count characters rather than UTF-8 bytes.
- `CmsErrors.CMSError.WithContext`: context values are kept as their text rather than as arbitrary Go values. Aliasing of the context map between errors is not modelled.
- `CmsErrors.CMSError.Wrap`: it requires a cause chain that ends, since the recursive `Error()` needs a measure. Go references could form a cycle, on which the source would not terminate.
- `CmsConfig.Config.LoadFromEnv` performs its field updates through two helper methods, `LoadServer` and `LoadPaths`. These are the same assignments, but grouped by kind rather than in source order. No assignment reads another field, so the result is the same.
- `VmService.VMService.StopVM` models the corrected stop, which releases the address of every instance. The as-written behaviour is in `StopVMAsWritten` (see Findings).
- `PluginService.PluginService.DeactivatePlugin`: `RemoveFromPrewarmPool` (called at cu-cms/internal/services/plugin_service.go:603) is not part of this model, so the plugin's pre-warm queue is left as it was.
- `PluginService.PluginService.MarkFailed`: `RemoveFromPrewarmPool` (called at cu-cms/internal/services/plugin_service.go:1074) is not part of this model, so the plugin's pre-warm queue is left as it was; the same holds for `ValidatePluginHealth`, which calls it on failure.
- `VmManager.VMManager.constructor`: `NewVMManager` (main.go:65-81) sets no allocator fields. The model starts the allocator in the state cu-cms/internal/services/vm_service.go:88-93 gives it (empty maps, cursor at 2), and does not capture the nil maps and zero cursor of the Go value.
- `CommerceStore.DataStore.CreateOrder` computes the corrected `create_order`, which records an order only when its total can be added to the revenue. The as-written behaviour is in `CreateOrderAsWritten` (see Findings).
- `CommerceStore.DataStore.HandleOrderAction` computes the corrected "order.created", which records an order only when its total can be added to the revenue. The as-written behaviour is in `OrderHookAsWritten` (see Findings).
- `CommerceStore.DataStore.Execute` runs the corrected `create_order` for that action. The as-written behaviour is in `CreateOrderAsWritten` (see Findings).
- `PluginService.PluginService.ExecuteAction` does not model the response's timestamp, the request payload, or the per-result response time.
- `ListVMs`, `UploadPlugin`, `GetPlugin`, `loadPlugins`/`savePluginsUnsafe` persistence and `restoreActivePlugins` are not modelled: they are listing and persistence glue. A failure to save is a parameter.
- The CLI entry point's own `stopContainer` and `getContainerStatus` shell-outs, the CLI commands under `cms-starter/cmd`, the logger packages, and `CreateZip` are not modelled: they are I/O glue.
- The manifest's `actions` object in the CLI validator is not modelled: no check inspects it.

## Findings

| source | as written | input that shows it | evidently intended | confidence | as-written member | corrected member |
|---|---|---|---|---|---|---|
| cu-cms/internal/services/vm_service.go:401-427 | an instance whose id contains "-exec-" only has its tap device removed and its `ipPool` entry deleted; `deallocateIP` is never called, so its address stays in `usedIPs` | start "p-exec-1" on a fresh service (it gets .2), then stop it: .2 is still used and nobody holds it | every stopped instance releases its address | not executed | VmService.StopExecLeaksAddress | VmService.StopExecReleasesAddress |
| cu-cms/internal/server/server.go:396-398 | `executed_plugins` is `len(results)`, where `results` is the map `ExecuteAction` returns, so it counts that map's four keys | a hook no plugin handles: the service reports 0 executed plugins, the reply says 4 | the number of result entries | not executed | Server.ExecutedPluginsAlwaysFour | Server.ExecuteReplyFor |
| plugins/python-plugin/app.py:152-161 | "order.created" appends the order before `total_revenue += total`; a text total raises after the append, leaving an order that is neither counted nor summed | `{"hook": "order.created", "payload": {"total": "5"}}` | the order is recorded only when its total can be added | not executed | CommerceStore.OrderHookTextTotal | CommerceStore.OrderHookPreservesValid |
| plugins/python-plugin/app.py:303-316 | `create_order` appends the order before adding `price * quantity` to the revenue; a text price repeated by an integer quantity is text, so the update raises after the append | a product created with `"price": "9"`, then `create_order` with quantity 2: the order costs "99" and the revenue update raises | the order is recorded only when its total is a number | not executed | CommerceStore.CreateOrderTextPrice | CommerceStore.CreateOrderValid |
