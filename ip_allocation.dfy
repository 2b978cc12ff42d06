/**
 * The guest-address allocator of the control plane: every microVM instance
 * gets one address in 192.168.127.2 - 192.168.127.254, handed out by a
 * wrap-around scan that starts at a moving cursor.
 *
 * Addresses are kept here as their last octet; `Ip` gives the dotted string
 * that the service hands out, and `IpInjective` shows the string form loses
 * nothing, so a set of octets stands for the service's set of address strings.
 */
module IpAllocation {
  import opened Wrappers
  import Text

  /** The lowest host octet the scan hands out (192.168.127.1 is the gateway). */
  const FirstHost: nat := 2
  /** The scan runs while the octet is below 255. */
  const ScanEnd: nat := 255
  const NoAvailableIPs: string := "no available IPs"

  /** The address string `fmt.Sprintf("192.168.127.%d", octet)`. */
  function Ip(octet: nat): (r: string)
    ensures Text.HasPrefix(r, "192.168.127.")
  {
    "192.168.127." + Text.NatToDecimal(octet)
  }

  /** Two octets give the same address string only if they are equal. */
  lemma IpInjective(m: nat, n: nat)
    requires Ip(m) == Ip(n)
    ensures m == n
  {
    var p := "192.168.127.";
    assert Text.NatToDecimal(m) == Ip(m)[|p|..];
    assert Text.NatToDecimal(n) == Ip(n)[|p|..];
    Text.NatToDecimalInjective(m, n);
  }

  /** The allocator's state: instance -> octet, the octets in use, and the scan cursor. */
  datatype NetState = NetState(ipPool: map<string, nat>, usedIPs: set<nat>, nextIP: int)

  /** The state a fresh service starts in: nothing allocated, cursor at .2. */
  const Initial: NetState := NetState(map[], {}, 2)

  predicate InRange(octet: int) { FirstHost <= octet < ScanEnd }

  /** No two instances hold the same address. */
  ghost predicate Injective(pool: map<string, nat>) {
    forall a, b :: a in pool && b in pool && a != b ==> pool[a] != pool[b]
  }

  /**
   * The allocator invariant: the cursor lies in [2, 253], every held address
   * is a host address, the used set is exactly the set of held addresses, and
   * no address is held twice.
   */
  ghost predicate ValidState(s: NetState) {
    && 2 <= s.nextIP <= 253
    && (forall id :: id in s.ipPool ==> InRange(s.ipPool[id]))
    && s.usedIPs == s.ipPool.Values
    && Injective(s.ipPool)
  }

  lemma InitialValid()
    ensures ValidState(Initial)
  {
  }

  /** The first octet in [lo, hi) that is not in `used`, scanning upwards. */
  function FirstFree(used: set<nat>, lo: nat, hi: nat): (r: Option<nat>)
    ensures r.Some? ==> lo <= r.value < hi && r.value !in used
    ensures r.Some? ==> forall k :: lo <= k < r.value ==> k in used
    ensures r.None? ==> forall k :: lo <= k < hi ==> k in used
    decreases hi - lo
  {
    if lo >= hi then None
    else if lo !in used then Some(lo)
    else FirstFree(used, lo + 1, hi)
  }

  /** Recording a new instance adds exactly its address to the held addresses. */
  lemma ValuesAfterInsert(pool: map<string, nat>, id: string, ip: nat)
    requires id !in pool
    ensures pool[id := ip].Values == pool.Values + {ip}
  {
    var p := pool[id := ip];
    forall x | x in pool.Values ensures x in p.Values {
      var other :| other in pool && pool[other] == x;
      assert p[other] == x;
    }
    assert p[id] == ip;
  }

  /** Forgetting an instance removes exactly its address, since no one else holds it. */
  lemma ValuesAfterRemove(pool: map<string, nat>, id: string)
    requires id in pool && Injective(pool)
    ensures (pool - {id}).Values == pool.Values - {pool[id]}
  {
    var p := pool - {id};
    forall x | x in pool.Values - {pool[id]} ensures x in p.Values {
      var other :| other in pool && pool[other] == x;
      assert other != id;
      assert p[other] == x;
    }
  }

  /** What an allocation request leaves behind and answers. */
  datatype Allocation = Allocation(state: NetState, result: Result<nat, string>)

  /**
   * `allocateIP`: an instance that already holds an address gets it again;
   * otherwise the first free octet in [nextIP, 254], then in [2, nextIP - 1],
   * is marked used and recorded, and the cursor moves past it (back to 2 when
   * it would reach 254 or more in the first scan).
   */
  function Allocate(s: NetState, id: string): (a: Allocation)
    requires ValidState(s)
    ensures ValidState(a.state)
  {
    if id in s.ipPool then Allocation(s, Ok(s.ipPool[id]))
    else match FirstFree(s.usedIPs, s.nextIP as nat, ScanEnd)
      case Some(ip) =>
        ValuesAfterInsert(s.ipPool, id, ip);
        var next := if ip + 1 <= 2 || ip + 1 >= 254 then 2 else ip + 1;
        Allocation(NetState(s.ipPool[id := ip], s.usedIPs + {ip}, next), Ok(ip))
      case None =>
        match FirstFree(s.usedIPs, FirstHost, s.nextIP as nat)
        case Some(ip) =>
          ValuesAfterInsert(s.ipPool, id, ip);
          Allocation(NetState(s.ipPool[id := ip], s.usedIPs + {ip}, ip + 1), Ok(ip))
        case None =>
          Allocation(s, Err(NoAvailableIPs))
  }

  /** `deallocateIP`: frees the instance's address and forgets the instance; no-op without one. */
  function Deallocate(s: NetState, id: string): (t: NetState)
    requires ValidState(s)
    ensures ValidState(t)
    ensures t.nextIP == s.nextIP
    ensures id !in t.ipPool
  {
    if id in s.ipPool then
      ValuesAfterRemove(s.ipPool, id);
      NetState(s.ipPool - {id}, s.usedIPs - {s.ipPool[id]}, s.nextIP)
    else s
  }

  /** An instance that already holds an address gets the same one back, and nothing changes. */
  lemma AllocateExisting(s: NetState, id: string)
    requires ValidState(s) && id in s.ipPool
    ensures Allocate(s, id) == Allocation(s, Ok(s.ipPool[id]))
  {
  }

  /**
   * A fresh allocation hands out a host address nobody held before, and
   * records it for the instance alone: the other instances keep theirs.
   */
  lemma AllocateFresh(s: NetState, id: string)
    requires ValidState(s) && id !in s.ipPool
    requires Allocate(s, id).result.Ok?
    ensures var ip := Allocate(s, id).result.value;
      && InRange(ip)
      && ip !in s.usedIPs
      && Allocate(s, id).state.ipPool == s.ipPool[id := ip]
      && Allocate(s, id).state.usedIPs == s.usedIPs + {ip}
      && (forall other :: other in s.ipPool ==> s.ipPool[other] != ip)
  {
  }

  /**
   * Allocation fails only when every host address .2 - .254 is in use: the
   * two scans together cover [nextIP, 254] and [2, nextIP - 1].
   */
  lemma {:induction false} AllocateFailsOnlyWhenFull(s: NetState, id: string)
    requires ValidState(s)
    ensures Allocate(s, id).result.Err? <==>
      id !in s.ipPool && forall k :: FirstHost <= k < ScanEnd ==> k in s.usedIPs
  {
    if id !in s.ipPool && (forall k :: FirstHost <= k < ScanEnd ==> k in s.usedIPs) {
      var high := FirstFree(s.usedIPs, s.nextIP as nat, ScanEnd);
      var low := FirstFree(s.usedIPs, FirstHost, s.nextIP as nat);
      assert high.None?;
      assert low.None?;
    }
  }

  /** A failed allocation changes nothing. */
  lemma AllocateFailureKeepsState(s: NetState, id: string)
    requires ValidState(s)
    requires Allocate(s, id).result.Err?
    ensures Allocate(s, id).state == s
    ensures Allocate(s, id).result == Err(NoAvailableIPs)
  {
  }

  /** Deallocating an instance without an address is a no-op. */
  lemma DeallocateWithoutAddress(s: NetState, id: string)
    requires ValidState(s) && id !in s.ipPool
    ensures Deallocate(s, id) == s
  {
  }

  /**
   * Allocating for a new instance and then releasing it gives back exactly
   * the instance map and the used set the allocator had before.
   */
  lemma AllocateThenDeallocate(s: NetState, id: string)
    requires ValidState(s) && id !in s.ipPool
    ensures var t := Deallocate(Allocate(s, id).state, id);
      t.ipPool == s.ipPool && t.usedIPs == s.usedIPs
  {
    var a := Allocate(s, id);
    if a.result.Ok? {
      AllocateFresh(s, id);
      assert a.state.ipPool - {id} == s.ipPool;
    }
  }

  /**
   * The object the services own: the same three fields the Go structs carry,
   * with methods that scan exactly as the source does.
   */
  class IpAllocator {
    var ipPool: map<string, nat>
    var usedIPs: set<nat>
    var nextIP: int

    function State(): NetState
      reads this
    {
      NetState(ipPool, usedIPs, nextIP)
    }

    ghost predicate Valid()
      reads this
    {
      ValidState(State())
    }

    /** The fields as the service constructor sets them: empty maps, cursor at 2. */
    constructor ()
      ensures State() == Initial && Valid()
    {
      ipPool := map[];
      usedIPs := {};
      nextIP := 2;
    }

    /** `allocateIP`, with its two scanning loops; the address is returned as its string. */
    method AllocateIP(id: string) returns (r: Result<string, string>)
      requires Valid()
      modifies this
      ensures Valid()
      ensures State() == Allocate(old(State()), id).state
      ensures r == match Allocate(old(State()), id).result
        case Ok(ip) => Ok(Ip(ip))
        case Err(e) => Err(e)
    {
      if id in ipPool {
        return Ok(Ip(ipPool[id]));
      }
      ghost var s := State();
      var ip := nextIP;
      while ip < 255
        invariant nextIP <= ip <= 255
        invariant State() == s
        invariant forall k :: nextIP <= k < ip ==> k in usedIPs
      {
        if ip !in usedIPs {
          assert FirstFree(s.usedIPs, s.nextIP as nat, ScanEnd) == Some(ip as nat);
          ValuesAfterInsert(ipPool, id, ip);
          usedIPs := usedIPs + {ip};
          ipPool := ipPool[id := ip];
          nextIP := ip + 1;
          if nextIP <= 2 || nextIP >= 254 {
            nextIP := 2;
          }
          return Ok(Ip(ip));
        }
        ip := ip + 1;
      }
      assert FirstFree(s.usedIPs, s.nextIP as nat, ScanEnd).None?;
      ip := 2;
      while ip < nextIP
        invariant 2 <= ip <= nextIP
        invariant State() == s
        invariant forall k :: 2 <= k < ip ==> k in usedIPs
      {
        if ip !in usedIPs {
          assert FirstFree(s.usedIPs, FirstHost, s.nextIP as nat) == Some(ip as nat);
          ValuesAfterInsert(ipPool, id, ip);
          usedIPs := usedIPs + {ip};
          ipPool := ipPool[id := ip];
          nextIP := ip + 1;
          return Ok(Ip(ip));
        }
        ip := ip + 1;
      }
      assert FirstFree(s.usedIPs, FirstHost, s.nextIP as nat).None?;
      return Err(NoAvailableIPs);
    }

    /** `deallocateIP`. */
    method DeallocateIP(id: string)
      requires Valid()
      modifies this
      ensures Valid()
      ensures State() == Deallocate(old(State()), id)
    {
      if id in ipPool {
        var ip := ipPool[id];
        ValuesAfterRemove(ipPool, id);
        usedIPs := usedIPs - {ip};
        ipPool := ipPool - {id};
      }
    }

    /** `GetVMIP` / `getVMIP`: the instance's address, and whether it has one ("" when not). */
    method GetIP(id: string) returns (ip: string, found: bool)
      ensures found <==> id in ipPool
      ensures found ==> ip == Ip(ipPool[id])
      ensures !found ==> ip == ""
    {
      if id in ipPool {
        ip, found := Ip(ipPool[id]), true;
      } else {
        ip, found := "", false;
      }
    }
  }
}
