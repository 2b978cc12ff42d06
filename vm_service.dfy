/**
 * The microVM service of the control plane, reduced to its bookkeeping: the
 * running instances, the address allocator they draw from, and the per-plugin
 * pre-warm queues of ready instances.
 *
 * The Firecracker machine, its network device and its socket file are
 * outside the model: each step that can fail there is a parameter holding
 * the error it reports (`None` for success).
 */
module VmService {
  import opened Wrappers
  import opened IpAllocation
  import Text

  /** A ready instance waiting in a plugin's pre-warm queue. */
  datatype PrewarmInstance = PrewarmInstance(
    instanceId: string,
    ip: string,
    tapName: string,
    createdAt: int,      // nanoseconds since the epoch
    snapshotType: string)

  /** Instances older than ten minutes are expired: `time.Now().Add(-10 * time.Minute)`. */
  const ExpiryNanos: int := 10 * 60 * 1_000_000_000

  /** The substring that marks a temporary execution instance. */
  const ExecMarker: string := "-exec-"

  /** The service's state as a value. */
  datatype Service = Service(
    net: NetState,
    instances: set<string>,
    pools: map<string, seq<PrewarmInstance>>,
    maxPoolSize: int)

  /** No plugin's queue holds more than `maxPoolSize` instances. */
  ghost predicate PoolsBounded(pools: map<string, seq<PrewarmInstance>>, maxPoolSize: int) {
    forall slug :: slug in pools ==> |pools[slug]| <= maxPoolSize
  }

  ghost predicate ServiceValid(s: Service) {
    ValidState(s.net) && PoolsBounded(s.pools, s.maxPoolSize)
  }

  /** The queue of a plugin; a missing entry reads as empty, as a nil slice does. */
  function PoolOf(pools: map<string, seq<PrewarmInstance>>, slug: string): (q: seq<PrewarmInstance>)
    ensures slug !in pools ==> q == []
  {
    if slug in pools then pools[slug] else []
  }

  predicate Expired(inst: PrewarmInstance, cutoff: int) {
    inst.createdAt < cutoff
  }

  /** The instances of a queue that are not expired, in queue order. */
  function Unexpired(pool: seq<PrewarmInstance>, cutoff: int): (kept: seq<PrewarmInstance>)
    ensures |kept| <= |pool|
    ensures forall x :: x in kept <==> x in pool && !Expired(x, cutoff)
  {
    if pool == [] then []
    else
      var last := pool[|pool| - 1];
      Unexpired(pool[..|pool| - 1], cutoff) + (if Expired(last, cutoff) then [] else [last])
  }

  /** The ids of the expired instances of a queue. */
  ghost function ExpiredIds(pool: seq<PrewarmInstance>, cutoff: int): set<string> {
    set x | x in pool && Expired(x, cutoff) :: x.instanceId
  }

  /** The ids of the expired instances in the queues of the given plugins. */
  ghost function ExpiredAcross(pools: map<string, seq<PrewarmInstance>>, slugs: set<string>, cutoff: int): set<string> {
    set slug, x | slug in slugs && slug in pools && x in pools[slug] && Expired(x, cutoff) :: x.instanceId
  }

  /**
   * The allocator after the given instances have released their addresses:
   * they leave `ipPool` and their addresses leave the used set.
   */
  function ReleaseAll(n: NetState, ids: set<string>): (r: NetState)
    ensures r.nextIP == n.nextIP
    ensures forall id :: id in r.ipPool <==> id in n.ipPool && id !in ids
  {
    NetState(n.ipPool - ids, (n.ipPool - ids).Values, n.nextIP)
  }

  /**
   * `StartVM`: allocate an address, then set up the network device, create
   * and start the machine; a failure in any of the last three releases the
   * address again. On success the instance is running and holds the address.
   */
  function StartVMSpec(s: Service, id: string, setupErr: Option<string>, createErr: Option<string>,
                       startErr: Option<string>): (r: (Service, Outcome<string>))
    requires ServiceValid(s)
    ensures ServiceValid(r.0)
  {
    var a := Allocate(s.net, id);
    if a.result.Err? then
      (s, Fail("failed to allocate IP for instance " + id + ": " + a.result.error))
    else if setupErr.Some? then
      (s.(net := Deallocate(a.state, id)), Fail("failed to setup network interface: " + setupErr.value))
    else if createErr.Some? then
      (s.(net := Deallocate(a.state, id)), Fail("failed to create machine: " + createErr.value))
    else if startErr.Some? then
      (s.(net := Deallocate(a.state, id)), Fail("failed to start machine: " + startErr.value))
    else
      (s.(net := a.state, instances := s.instances + {id}), Pass)
  }

  /**
   * `StopVM`, with the address released for every kind of instance: an
   * unknown instance is left alone; a known one stops running and releases
   * its address. Shutdown failures are only logged, so stopping always succeeds.
   */
  function StopVMSpec(s: Service, id: string): (t: Service)
    requires ServiceValid(s)
    ensures ServiceValid(t)
    ensures t.instances == s.instances - {id}
    ensures id !in s.instances ==> t == s
    ensures id in s.instances ==> id !in t.net.ipPool
  {
    if id !in s.instances then s
    else s.(net := Deallocate(s.net, id), instances := s.instances - {id})
  }

  /**
   * `StopVM` as written: an instance whose id contains "-exec-" only has its
   * network device removed, and its `ipPool` entry is deleted afterwards,
   * but its address is never taken out of `usedIPs`.
   */
  function StopVMAsWritten(s: Service, id: string): Service
    requires ServiceValid(s)
  {
    if id !in s.instances then s
    else if Text.Contains(id, ExecMarker) then
      s.(net := s.net.(ipPool := s.net.ipPool - {id}), instances := s.instances - {id})
    else
      s.(net := Deallocate(s.net, id), instances := s.instances - {id})
  }

  /** `GetPrewarmInstance`: nothing for a missing or empty queue, else the head, leaving the tail. */
  function GetPrewarmSpec(s: Service, slug: string): (r: (Service, Option<PrewarmInstance>))
  {
    if slug !in s.pools || s.pools[slug] == [] then (s, None)
    else (s.(pools := s.pools[slug := s.pools[slug][1..]]), Some(s.pools[slug][0]))
  }

  /**
   * `ReturnPrewarmInstance`: a full queue (at least `maxPoolSize` entries)
   * stops the returned instance; otherwise it goes to the tail of the queue.
   */
  function ReturnPrewarmSpec(s: Service, slug: string, inst: PrewarmInstance): (t: Service)
    requires ServiceValid(s)
    ensures ServiceValid(t)
  {
    var pool := PoolOf(s.pools, slug);
    if |pool| >= s.maxPoolSize then StopVMSpec(s, inst.instanceId)
    else s.(pools := s.pools[slug := pool + [inst]])
  }

  /**
   * `maintainPrewarmPool` at time `now`: every queue keeps exactly its
   * instances created no earlier than ten minutes ago, in order, and every
   * dropped instance that was running is stopped.
   */
  ghost function MaintainSpec(s: Service, now: int): (t: Service)
  {
    var cutoff := now - ExpiryNanos;
    var stopped := ExpiredAcross(s.pools, s.pools.Keys, cutoff) * s.instances;
    Service(ReleaseAll(s.net, stopped), s.instances - stopped,
            map slug | slug in s.pools :: Unexpired(s.pools[slug], cutoff), s.maxPoolSize)
  }

  /** A fresh service is valid. */
  lemma InitialServiceValid(poolSize: int)
    ensures ServiceValid(Service(Initial, {}, map[], poolSize))
  {
    InitialValid();
  }

  /** Releasing nobody changes nothing. */
  lemma ReleaseNone(n: NetState)
    requires ValidState(n)
    ensures ReleaseAll(n, {}) == n
  {
    assert n.ipPool - {} == n.ipPool;
  }

  /** Releasing a set of instances keeps the allocator invariant. */
  lemma ReleaseAllValid(n: NetState, ids: set<string>)
    requires ValidState(n)
    ensures ValidState(ReleaseAll(n, ids))
  {
  }

  /** Releasing one more instance is a `deallocateIP` of it. */
  lemma ReleaseOneMore(n: NetState, ids: set<string>, id: string)
    requires ValidState(n)
    ensures ValidState(ReleaseAll(n, ids))
    ensures Deallocate(ReleaseAll(n, ids), id) == ReleaseAll(n, ids + {id})
  {
    var r := ReleaseAll(n, ids);
    if id in r.ipPool {
      ValuesAfterRemove(r.ipPool, id);
      assert r.ipPool - {id} == n.ipPool - (ids + {id});
    } else {
      assert n.ipPool - ids == n.ipPool - (ids + {id});
    }
  }

  /** Starting a new instance and stopping it again restores the allocator maps and the running set. */
  lemma StartThenStop(s: Service, id: string)
    requires ServiceValid(s) && id !in s.instances && id !in s.net.ipPool
    ensures var (started, _) := StartVMSpec(s, id, None, None, None);
      var t := StopVMSpec(started, id);
      t.instances == s.instances && t.net.ipPool == s.net.ipPool && t.net.usedIPs == s.net.usedIPs
  {
    AllocateThenDeallocate(s.net, id);
  }

  /** A failed start leaves the allocator maps and the running set as they were. */
  lemma FailedStartReleases(s: Service, id: string, setupErr: Option<string>, createErr: Option<string>,
                            startErr: Option<string>)
    requires ServiceValid(s) && id !in s.net.ipPool
    requires StartVMSpec(s, id, setupErr, createErr, startErr).1.Fail?
    ensures var t := StartVMSpec(s, id, setupErr, createErr, startErr).0;
      t.instances == s.instances && t.net.ipPool == s.net.ipPool && t.net.usedIPs == s.net.usedIPs
  {
    AllocateThenDeallocate(s.net, id);
  }

  /** A successful start leaves the instance running with an address. */
  lemma StartedHasAddress(s: Service, id: string)
    requires ServiceValid(s)
    requires StartVMSpec(s, id, None, None, None).1.Pass?
    ensures var t := StartVMSpec(s, id, None, None, None).0;
      id in t.instances && id in t.net.ipPool
  {
  }

  /**
   * The as-written stop of an execution instance leaks its address: after
   * allocating for "p-exec-1" and stopping it, address .2 is still marked
   * used although no instance holds it, so the allocator invariant is lost.
   */
  lemma StopExecLeaksAddress()
    ensures var s := Service(Initial, {}, map[], 10);
      var (started, _) := StartVMSpec(s, "p-exec-1", None, None, None);
      var t := StopVMAsWritten(started, "p-exec-1");
      2 in t.net.usedIPs && 2 !in t.net.ipPool.Values && !ValidState(t.net)
  {
    var s := Service(Initial, {}, map[], 10);
    InitialServiceValid(10);
    var id := "p-exec-1";
    assert FirstFree({}, 2, ScanEnd) == Some(2);
    var (started, _) := StartVMSpec(s, id, None, None, None);
    assert started.net.ipPool == map[id := 2];
    assert Text.HasPrefix(id[1..], ExecMarker);
    assert Text.Contains(id, ExecMarker);
    var t := StopVMAsWritten(started, id);
    assert t.net.ipPool == map[];
  }

  /** The corrected stop keeps the allocator invariant for execution instances too. */
  lemma StopExecReleasesAddress()
    ensures var s := Service(Initial, {}, map[], 10);
      var (started, _) := StartVMSpec(s, "p-exec-1", None, None, None);
      var t := StopVMSpec(started, "p-exec-1");
      2 !in t.net.usedIPs && ValidState(t.net)
  {
    InitialServiceValid(10);
    var id := "p-exec-1";
    assert FirstFree({}, 2, ScanEnd) == Some(2);
    var (started, _) := StartVMSpec(Service(Initial, {}, map[], 10), id, None, None, None);
    assert started.net.ipPool == map[id := 2];
  }

  /**
   * The pre-warm queue is first in, first out: returning an instance to an
   * empty queue with room and then taking one gives back that instance and
   * the empty queue.
   */
  lemma ReturnThenGet(s: Service, slug: string, inst: PrewarmInstance)
    requires ServiceValid(s) && PoolOf(s.pools, slug) == [] && s.maxPoolSize > 0
    ensures var (t, got) := GetPrewarmSpec(ReturnPrewarmSpec(s, slug, inst), slug);
      got == Some(inst) && t.pools[slug] == [] && t.net == s.net && t.instances == s.instances
  {
  }

  /** Taking from a queue yields its head and keeps the rest in order; a missing or empty queue yields nothing. */
  lemma GetPrewarmIsHead(s: Service, slug: string)
    ensures var (t, got) := GetPrewarmSpec(s, slug);
      && (got.None? <==> PoolOf(s.pools, slug) == [])
      && (got.None? ==> t == s)
      && (got.Some? ==> got.value == s.pools[slug][0] && [got.value] + t.pools[slug] == s.pools[slug])
      && t.net == s.net && t.instances == s.instances
      && (forall other :: other != slug ==> PoolOf(t.pools, other) == PoolOf(s.pools, other))
  {
  }

  /** Taking from a queue keeps every queue within the capacity. */
  lemma GetPrewarmKeepsBound(s: Service, slug: string)
    requires ServiceValid(s)
    ensures ServiceValid(GetPrewarmSpec(s, slug).0)
  {
  }

  /**
   * Returning an instance appends it exactly when the queue holds fewer than
   * `maxPoolSize` entries; otherwise the queues are unchanged and the
   * instance is stopped. Either way no queue grows past the capacity.
   */
  lemma ReturnPrewarmBounded(s: Service, slug: string, inst: PrewarmInstance)
    requires ServiceValid(s)
    ensures var t := ReturnPrewarmSpec(s, slug, inst);
      && PoolsBounded(t.pools, t.maxPoolSize)
      && (|PoolOf(s.pools, slug)| < s.maxPoolSize ==> t.pools[slug] == PoolOf(s.pools, slug) + [inst] && t.instances == s.instances)
      && (|PoolOf(s.pools, slug)| >= s.maxPoolSize ==> t.pools == s.pools && inst.instanceId !in t.instances)
  {
  }

  /**
   * Maintenance keeps, for every plugin, exactly the instances that are not
   * expired, stops the expired running ones, and keeps every queue within
   * the capacity.
   */
  lemma MaintainKeepsUnexpired(s: Service, now: int)
    requires ServiceValid(s)
    ensures var t := MaintainSpec(s, now);
      && ServiceValid(t)
      && t.pools.Keys == s.pools.Keys
      && (forall slug, x :: slug in s.pools ==> (x in t.pools[slug] <==> x in s.pools[slug] && x.createdAt >= now - ExpiryNanos))
      && (forall slug, x :: slug in s.pools && x in s.pools[slug] && x.createdAt < now - ExpiryNanos ==> x.instanceId !in t.instances)
  {
    var t := MaintainSpec(s, now);
    forall slug | slug in t.pools ensures |t.pools[slug]| <= t.maxPoolSize {
      assert |t.pools[slug]| <= |s.pools[slug]|;
    }
  }

  /** Releasing two sets one after the other releases their union. */
  lemma ReleaseTwice(n: NetState, a: set<string>, b: set<string>)
    requires ValidState(n)
    ensures ReleaseAll(ReleaseAll(n, a), b) == ReleaseAll(n, a + b)
  {
    assert n.ipPool - a - b == n.ipPool - (a + b);
  }

  /** Adding one plugin to the visited ones adds the expired ids of its queue. */
  lemma ExpiredAcrossStep(pools: map<string, seq<PrewarmInstance>>, slugs: set<string>, slug: string, cutoff: int)
    requires slug in pools
    ensures ExpiredAcross(pools, slugs + {slug}, cutoff) == ExpiredAcross(pools, slugs, cutoff) + ExpiredIds(pools[slug], cutoff)
  {
  }

  /** The effect of visiting one more instance of a queue. */
  lemma SweepStep(pool: seq<PrewarmInstance>, k: nat, cutoff: int)
    requires k < |pool|
    ensures Unexpired(pool[..k + 1], cutoff) ==
      Unexpired(pool[..k], cutoff) + (if Expired(pool[k], cutoff) then [] else [pool[k]])
    ensures ExpiredIds(pool[..k + 1], cutoff) ==
      ExpiredIds(pool[..k], cutoff) + (if Expired(pool[k], cutoff) then {pool[k].instanceId} else {})
  {
    assert pool[..k + 1] == pool[..k] + [pool[k]];
    assert pool[..k + 1][..k] == pool[..k];
  }

  /** Stopping one more id stops it among the running ones exactly when it was running and not yet stopped. */
  lemma StopIntersect(stopped: set<string>, running: set<string>, id: string)
    ensures id in running - stopped ==> stopped * running + {id} == (stopped + {id}) * running
    ensures id !in running - stopped ==> stopped * running == (stopped + {id}) * running
  {
  }

  /** Stopping one more instance during a sweep: the stopped set grows by it. */
  lemma StopStep(s0: Service, cur: Service, stopped: set<string>, id: string)
    requires ValidState(s0.net)
    requires ServiceValid(cur)
    requires cur.instances == s0.instances - stopped
    requires cur.net == ReleaseAll(s0.net, stopped * s0.instances)
    ensures StopVMSpec(cur, id).instances == s0.instances - (stopped + {id})
    ensures StopVMSpec(cur, id).net == ReleaseAll(s0.net, (stopped + {id}) * s0.instances)
    ensures StopVMSpec(cur, id).pools == cur.pools && StopVMSpec(cur, id).maxPoolSize == cur.maxPoolSize
  {
    StopIntersect(stopped, s0.instances, id);
    if id in cur.instances {
      ReleaseOneMore(s0.net, stopped * s0.instances, id);
    }
  }

  /** The state the maintenance loop ends in is the one `MaintainSpec` describes. */
  lemma MaintainResult(s: Service, now: int, pools: map<string, seq<PrewarmInstance>>, stopped: set<string>)
    requires pools.Keys == s.pools.Keys
    requires forall slug :: slug in s.pools ==> pools[slug] == Unexpired(s.pools[slug], now - ExpiryNanos)
    requires stopped == ExpiredAcross(s.pools, s.pools.Keys, now - ExpiryNanos)
    ensures Service(ReleaseAll(s.net, stopped * s.instances), s.instances - stopped, pools, s.maxPoolSize)
      == MaintainSpec(s, now)
  {
    assert s.instances - stopped == s.instances - stopped * s.instances;
  }

  /** One plugin's pass of the maintenance loop, as a step on the loop's ghost state. */
  lemma MaintainStep(s0: Service, pools: map<string, seq<PrewarmInstance>>, done: set<string>, stopped: set<string>,
                     slug: string, cutoff: int)
    requires ValidState(s0.net)
    requires slug in s0.pools && slug !in done
    requires pools.Keys == s0.pools.Keys && PoolsBounded(pools, s0.maxPoolSize)
    requires forall sl :: sl in s0.pools ==>
      pools[sl] == if sl in done then Unexpired(s0.pools[sl], cutoff) else s0.pools[sl]
    requires stopped == ExpiredAcross(s0.pools, done, cutoff)
    ensures var here := ExpiredIds(s0.pools[slug], cutoff);
      var pools' := pools[slug := Unexpired(pools[slug], cutoff)];
      && stopped + here == ExpiredAcross(s0.pools, done + {slug}, cutoff)
      && (s0.instances - stopped) - here == s0.instances - (stopped + here)
      && ReleaseAll(ReleaseAll(s0.net, stopped * s0.instances), here * (s0.instances - stopped))
         == ReleaseAll(s0.net, (stopped + here) * s0.instances)
      && pools'.Keys == s0.pools.Keys
      && PoolsBounded(pools', s0.maxPoolSize)
      && forall sl :: sl in s0.pools ==>
           pools'[sl] == if sl in done + {slug} then Unexpired(s0.pools[sl], cutoff) else s0.pools[sl]
  {
    var here := ExpiredIds(s0.pools[slug], cutoff);
    ExpiredAcrossStep(s0.pools, done, slug, cutoff);
    ReleaseTwice(s0.net, stopped * s0.instances, here * (s0.instances - stopped));
    assert stopped * s0.instances + here * (s0.instances - stopped) == (stopped + here) * s0.instances;
  }

  /** The service object: running instances, the allocator and the pre-warm queues. */
  class VMService {
    var instances: set<string>
    const net: IpAllocator
    var prewarmPool: map<string, seq<PrewarmInstance>>
    var maxPoolSize: int

    function State(): Service
      reads this, net
    {
      Service(net.State(), instances, prewarmPool, maxPoolSize)
    }

    ghost predicate Valid()
      reads this, net
    {
      ServiceValid(State())
    }

    /** `NewVMService`: no instances, a fresh allocator, empty queues of capacity `PrewarmPoolSize`. */
    constructor (prewarmPoolSize: int)
      ensures Valid()
      ensures State() == Service(Initial, {}, map[], prewarmPoolSize)
      ensures fresh(net)
    {
      instances := {};
      net := new IpAllocator();
      prewarmPool := map[];
      maxPoolSize := prewarmPoolSize;
      InitialServiceValid(prewarmPoolSize);
    }

    method StartVM(id: string, setupErr: Option<string>, createErr: Option<string>, startErr: Option<string>)
      returns (err: Outcome<string>)
      requires Valid()
      modifies this, net
      ensures Valid()
      ensures (State(), err) == StartVMSpec(old(State()), id, setupErr, createErr, startErr)
    {
      var ip := net.AllocateIP(id);
      if ip.Err? {
        return Fail("failed to allocate IP for instance " + id + ": " + ip.error);
      }
      if setupErr.Some? {
        net.DeallocateIP(id);
        return Fail("failed to setup network interface: " + setupErr.value);
      }
      if createErr.Some? {
        net.DeallocateIP(id);
        return Fail("failed to create machine: " + createErr.value);
      }
      if startErr.Some? {
        net.DeallocateIP(id);
        return Fail("failed to start machine: " + startErr.value);
      }
      instances := instances + {id};
      return Pass;
    }

    method StopVM(id: string)
      requires Valid()
      modifies this, net
      ensures Valid()
      ensures State() == StopVMSpec(old(State()), id)
    {
      if id !in instances {
        return;
      }
      net.DeallocateIP(id);
      instances := instances - {id};
    }

    /** `GetVMIP`. */
    method GetVMIP(id: string) returns (ip: string, found: bool)
      ensures found <==> id in net.ipPool
      ensures found ==> ip == Ip(net.ipPool[id])
      ensures !found ==> ip == ""
    {
      ip, found := net.GetIP(id);
    }

    method GetPrewarmInstance(slug: string) returns (inst: Option<PrewarmInstance>)
      requires Valid()
      modifies this
      ensures Valid()
      ensures (State(), inst) == GetPrewarmSpec(old(State()), slug)
    {
      GetPrewarmKeepsBound(State(), slug);
      if slug !in prewarmPool || |prewarmPool[slug]| == 0 {
        return None;
      }
      var pool := prewarmPool[slug];
      inst := Some(pool[0]);
      prewarmPool := prewarmPool[slug := pool[1..]];
    }

    method ReturnPrewarmInstance(slug: string, inst: PrewarmInstance)
      requires Valid()
      modifies this, net
      ensures Valid()
      ensures State() == ReturnPrewarmSpec(old(State()), slug, inst)
    {
      var pool := if slug in prewarmPool then prewarmPool[slug] else [];
      if |pool| >= maxPoolSize {
        StopVM(inst.instanceId);
        return;
      }
      prewarmPool := prewarmPool[slug := pool + [inst]];
    }

    /**
     * One plugin's pass of `maintainPrewarmPool`: stops every expired
     * instance of the queue and returns the others in order.
     */
    method SweepPool(pool: seq<PrewarmInstance>, cutoff: int) returns (kept: seq<PrewarmInstance>)
      requires Valid()
      modifies this, net
      ensures Valid()
      ensures kept == Unexpired(pool, cutoff)
      ensures instances == old(instances) - ExpiredIds(pool, cutoff)
      ensures net.State() == ReleaseAll(old(net.State()), ExpiredIds(pool, cutoff) * old(instances))
      ensures prewarmPool == old(prewarmPool) && maxPoolSize == old(maxPoolSize)
    {
      ghost var s0 := State();
      ghost var stopped: set<string> := {};
      ReleaseNone(s0.net);
      kept := [];
      var k := 0;
      while k < |pool|
        invariant 0 <= k <= |pool|
        invariant Valid()
        invariant kept == Unexpired(pool[..k], cutoff)
        invariant stopped == ExpiredIds(pool[..k], cutoff)
        invariant instances == s0.instances - stopped
        invariant net.State() == ReleaseAll(s0.net, stopped * s0.instances)
        invariant prewarmPool == s0.pools && maxPoolSize == s0.maxPoolSize
      {
        var inst := pool[k];
        SweepStep(pool, k, cutoff);
        if inst.createdAt < cutoff {
          StopStep(s0, State(), stopped, inst.instanceId);
          StopVM(inst.instanceId);
          stopped := stopped + {inst.instanceId};
        } else {
          kept := kept + [inst];
        }
        k := k + 1;
      }
      assert pool[..|pool|] == pool;
      assert kept == Unexpired(pool, cutoff);
      assert stopped == ExpiredIds(pool, cutoff);
    }

    /** `maintainPrewarmPool`: visits the plugins in any order, as Go's map iteration does. */
    method MaintainPrewarmPool(now: int)
      requires Valid()
      modifies this, net
      ensures Valid()
      ensures State() == MaintainSpec(old(State()), now)
    {
      var cutoff := now - ExpiryNanos;
      ghost var s0 := State();
      ghost var done: set<string> := {};
      ghost var stopped: set<string> := {};
      ReleaseNone(s0.net);
      var remaining := prewarmPool.Keys;
      while remaining != {}
        invariant Valid()
        invariant remaining !! done && remaining + done == s0.pools.Keys
        invariant prewarmPool.Keys == s0.pools.Keys
        invariant forall slug :: slug in s0.pools ==>
          prewarmPool[slug] == if slug in done then Unexpired(s0.pools[slug], cutoff) else s0.pools[slug]
        invariant stopped == ExpiredAcross(s0.pools, done, cutoff)
        invariant instances == s0.instances - stopped
        invariant net.State() == ReleaseAll(s0.net, stopped * s0.instances)
        invariant maxPoolSize == s0.maxPoolSize
        decreases remaining
      {
        var slug :| slug in remaining;
        MaintainStep(s0, prewarmPool, done, stopped, slug, cutoff);
        var kept := SweepPool(prewarmPool[slug], cutoff);
        stopped := stopped + ExpiredIds(s0.pools[slug], cutoff);
        prewarmPool := prewarmPool[slug := kept];
        done := done + {slug};
        remaining := remaining - {slug};
      }
      MaintainResult(s0, now, prewarmPool, stopped);
      MaintainKeepsUnexpired(s0, now);
    }
  }
}
