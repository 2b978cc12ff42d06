/**
 * The older VM manager of the control plane's demo entry point. It shares
 * the address allocator of the VM service (the same scan, the same fields)
 * but keeps no pre-warm queues, and its stop reports failures instead of
 * logging them.
 */
module VmManager {
  import opened Wrappers
  import opened IpAllocation

  const StatusRunning: string := "running"
  const StatusNotFound: string := "not_found"

  /** The manager's state as a value: the allocator and the running instances. */
  datatype Manager = Manager(net: NetState, instances: set<string>)

  /**
   * `StartVM`: allocate an address, then set up the network device, create
   * and start the machine; a failure after allocation releases the address.
   */
  function StartSpec(m: Manager, id: string, setupErr: Option<string>, createErr: Option<string>,
                     startErr: Option<string>): (r: (Manager, Outcome<string>))
    requires ValidState(m.net)
    ensures ValidState(r.0.net)
  {
    var a := Allocate(m.net, id);
    if a.result.Err? then
      (m, Fail("failed to allocate IP for instance " + id + ": " + a.result.error))
    else if setupErr.Some? then
      (m.(net := Deallocate(a.state, id)), Fail("failed to setup network interface: " + setupErr.value))
    else if createErr.Some? then
      (m.(net := Deallocate(a.state, id)), Fail("failed to create machine: " + createErr.value))
    else if startErr.Some? then
      (m.(net := Deallocate(a.state, id)), Fail("failed to start machine: " + startErr.value))
    else
      (m.(net := a.state, instances := m.instances + {id}), Pass)
  }

  /**
   * `StopVM`: an unknown instance is an error; a failed shutdown is an error
   * that changes nothing; otherwise the instance stops running and releases
   * its address.
   */
  function StopSpec(m: Manager, id: string, shutdownErr: Option<string>): (r: (Manager, Outcome<string>))
    requires ValidState(m.net)
    ensures ValidState(r.0.net)
  {
    if id !in m.instances then (m, Fail("VM instance " + id + " not found"))
    else if shutdownErr.Some? then (m, Fail("failed to shutdown machine: " + shutdownErr.value))
    else (Manager(Deallocate(m.net, id), m.instances - {id}), Pass)
  }

  /** `GetVMStatus`. */
  function StatusSpec(m: Manager, id: string): string
  {
    if id in m.instances then StatusRunning else StatusNotFound
  }

  /** Stopping an unknown instance reports it as not found and changes nothing. */
  lemma StopUnknown(m: Manager, id: string, shutdownErr: Option<string>)
    requires ValidState(m.net) && id !in m.instances
    ensures StopSpec(m, id, shutdownErr) == (m, Fail("VM instance " + id + " not found"))
  {
  }

  /**
   * Stopping succeeds exactly for a running instance whose shutdown
   * succeeds; then the instance is gone and holds no address, and every
   * other instance keeps its address.
   */
  lemma StopFreesAddress(m: Manager, id: string, shutdownErr: Option<string>)
    requires ValidState(m.net)
    ensures var (t, out) := StopSpec(m, id, shutdownErr);
      && (out.Pass? <==> id in m.instances && shutdownErr.None?)
      && (out.Pass? ==> t.instances == m.instances - {id} && id !in t.net.ipPool)
      && (out.Pass? ==> forall other :: other in m.net.ipPool && other != id ==>
            other in t.net.ipPool && t.net.ipPool[other] == m.net.ipPool[other])
      && (out.Fail? ==> t == m)
  {
  }

  /** The status is "running" exactly for a running instance, and "not_found" otherwise. */
  lemma StatusRunningIff(m: Manager, id: string)
    ensures StatusSpec(m, id) == StatusRunning <==> id in m.instances
    ensures StatusSpec(m, id) == StatusNotFound <==> id !in m.instances
  {
  }

  /** A successful stop turns the status from "running" to "not_found". */
  lemma StopChangesStatus(m: Manager, id: string)
    requires ValidState(m.net) && id in m.instances
    ensures StatusSpec(m, id) == StatusRunning
    ensures StatusSpec(StopSpec(m, id, None).0, id) == StatusNotFound
  {
  }

  /** Starting a new instance and stopping it again gives back the allocator maps and the running set. */
  lemma StartThenStop(m: Manager, id: string)
    requires ValidState(m.net) && id !in m.instances && id !in m.net.ipPool
    ensures var (started, _) := StartSpec(m, id, None, None, None);
      var (t, _) := StopSpec(started, id, None);
      t.instances == m.instances && t.net.ipPool == m.net.ipPool && t.net.usedIPs == m.net.usedIPs
  {
    AllocateThenDeallocate(m.net, id);
  }

  class VMManager {
    var instances: set<string>
    const net: IpAllocator

    function State(): Manager
      reads this, net
    {
      Manager(net.State(), instances)
    }

    ghost predicate Valid()
      reads this, net
    {
      net.Valid()
    }

    constructor ()
      ensures Valid() && State() == Manager(Initial, {})
      ensures fresh(net)
    {
      instances := {};
      net := new IpAllocator();
    }

    method StartVM(id: string, setupErr: Option<string>, createErr: Option<string>, startErr: Option<string>)
      returns (err: Outcome<string>)
      requires Valid()
      modifies this, net
      ensures Valid()
      ensures (State(), err) == StartSpec(old(State()), id, setupErr, createErr, startErr)
    {
      var ip := net.AllocateIP(id);
      if ip.Err? {
        return Fail("failed to allocate IP for instance " + id + ": " + ip.error);
      }
      if setupErr.Some? {
        net.DeallocateIP(id);
        return Fail("failed to setup network interface: " + setupErr.value);
      }
      if createErr.Some? {
        net.DeallocateIP(id);
        return Fail("failed to create machine: " + createErr.value);
      }
      if startErr.Some? {
        net.DeallocateIP(id);
        return Fail("failed to start machine: " + startErr.value);
      }
      instances := instances + {id};
      return Pass;
    }

    method StopVM(id: string, shutdownErr: Option<string>) returns (err: Outcome<string>)
      requires Valid()
      modifies this, net
      ensures Valid()
      ensures (State(), err) == StopSpec(old(State()), id, shutdownErr)
    {
      if id !in instances {
        return Fail("VM instance " + id + " not found");
      }
      if shutdownErr.Some? {
        return Fail("failed to shutdown machine: " + shutdownErr.value);
      }
      instances := instances - {id};
      net.DeallocateIP(id);
      return Pass;
    }

    /** `getVMIP`: the instance's address and true exactly when it holds one. */
    method GetVMIP(id: string) returns (ip: string, found: bool)
      ensures found <==> id in net.ipPool
      ensures found ==> ip == Ip(net.ipPool[id])
      ensures !found ==> ip == ""
    {
      ip, found := net.GetIP(id);
    }

    method GetVMStatus(id: string) returns (status: string)
      ensures status == StatusSpec(State(), id)
      ensures status == StatusRunning <==> id in instances
    {
      if id !in instances {
        return StatusNotFound;
      }
      return StatusRunning;
    }
  }
}
