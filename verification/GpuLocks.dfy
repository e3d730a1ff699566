/** The GPU lock table that keeps two virtual machines from being given the same device. */
module GpuLocks {
  import opened Results
  import opened Clock
  import opened Int32
  import opened Sums
  import opened GpuDevices

  /** A device asked for by a virtual machine, with the availability its reconciler saw. */
  datatype DeviceRequest = DeviceRequest(id: string, amount: int, available: int)

  datatype LockedDevice = LockedDevice(id: string, count: int)
  datatype VMLock = VMLock(host: string, devices: seq<LockedDevice>, lockedAt: int)

  /** Locks of one ELF cluster by virtual machine name, and of all clusters by cluster ID. */
  type ClusterLocks = map<string, VMLock>
  type LockTable = map<string, ClusterLocks>

  const LOCK_TIMEOUT := 8 * MINUTE

  // ---- What the table means ----

  function Share(devices: seq<LockedDevice>, gpu: string): int {
    if devices == [] then 0
    else Share(devices[..|devices| - 1], gpu) +
         (if devices[|devices| - 1].id == gpu then devices[|devices| - 1].count else 0)
  }

  /** Everything the locks of a cluster hold of one GPU. */
  ghost function LockedSum(locks: ClusterLocks, gpu: string): int {
    Sum(locks, (lock: VMLock) => Share(lock.devices, gpu))
  }

  ghost function DeviceIDs(devices: seq<LockedDevice>): set<string> {
    set i | 0 <= i < |devices| :: devices[i].id
  }

  ghost function LockedIDs(locks: ClusterLocks): set<string> {
    set vm, i | vm in locks && 0 <= i < |locks[vm].devices| :: locks[vm].devices[i].id
  }

  predicate Expired(lock: VMLock, now: int) {
    lock.lockedAt + LOCK_TIMEOUT <= now
  }

  function Live(locks: ClusterLocks, now: int): ClusterLocks {
    map vm | vm in locks && !Expired(locks[vm], now) :: locks[vm]
  }

  function Of(table: LockTable, cluster: string): ClusterLocks {
    if cluster in table then table[cluster] else map[]
  }

  // ---- What the operations do to it ----

  function Purged(table: LockTable, cluster: string, now: int): LockTable {
    if cluster in table then table[cluster := Live(table[cluster], now)] else table
  }

  /** What would be left of each requested device; a repeated ID keeps only its last entry. */
  function Remaining(requests: seq<DeviceRequest>): map<string, int> {
    if requests == [] then map[]
    else
      var last := requests[|requests| - 1];
      Remaining(requests[..|requests| - 1])[last.id := Wrap(last.available - last.amount)]
  }

  function ToLock(host: string, requests: seq<DeviceRequest>, now: int): VMLock {
    VMLock(host, seq(|requests|, i requires 0 <= i < |requests| =>
      LockedDevice(requests[i].id, requests[i].amount)), now)
  }

  ghost predicate Fits(locks: ClusterLocks, requests: seq<DeviceRequest>) {
    forall id :: id in Remaining(requests) && id in LockedIDs(locks)
      ==> Wrap(LockedSum(locks, id)) <= Remaining(requests)[id]
  }

  ghost function Locked(table: LockTable, cluster: string, vm: string, host: string,
                        requests: seq<DeviceRequest>, now: int): LockTable
  {
    var live := Live(Of(table, cluster), now);
    if Fits(live, requests) then table[cluster := live[vm := ToLock(host, requests, now)]]
    else Purged(table, cluster, now)
  }

  /** The devices whose availability is not used up by the locks on them. */
  ghost function Free(infos: GpuInfos, locks: ClusterLocks): GpuInfos {
    map id | id in infos && !(id in LockedIDs(locks) && Wrap(LockedSum(locks, id)) >= Available(infos[id])) :: infos[id]
  }

  function Unlocked(table: LockTable, cluster: string, vm: string, now: int): LockTable {
    var left := Live(Of(table, cluster), now) - {vm};
    if left == map[] then table - {cluster} else table[cluster := left]
  }

  // ---- Accounting ----

  /** The sum does not depend on the order in which the locks are visited. */
  lemma SumSplit(locks: ClusterLocks, vm: string, gpu: string)
    requires vm in locks
    ensures LockedSum(locks, gpu) == LockedSum(locks - {vm}, gpu) + Share(locks[vm].devices, gpu)
  {
    Split(locks, (lock: VMLock) => Share(lock.devices, gpu), vm);
  }

  lemma SumWithLock(locks: ClusterLocks, vm: string, lock: VMLock, gpu: string)
    requires vm !in locks
    ensures LockedSum(locks[vm := lock], gpu) == LockedSum(locks, gpu) + Share(lock.devices, gpu)
  {
    SumSplit(locks[vm := lock], vm, gpu);
    assert locks[vm := lock] - {vm} == locks;
  }

  ghost function ShareOf(locks: ClusterLocks, vm: string, gpu: string): int {
    if vm in locks then Share(locks[vm].devices, gpu) else 0
  }

  /** A granted lock replaces exactly the share this virtual machine held, and nobody else's. */
  lemma LockReplacesShare(table: LockTable, cluster: string, vm: string, host: string,
                          requests: seq<DeviceRequest>, now: int, gpu: string)
    requires Fits(Live(Of(table, cluster), now), requests)
    ensures var before := Live(Of(table, cluster), now);
            var after := Of(Locked(table, cluster, vm, host, requests, now), cluster);
            && after - {vm} == before - {vm}
            && LockedSum(after, gpu) == LockedSum(before, gpu) - ShareOf(before, vm, gpu)
                                        + Share(ToLock(host, requests, now).devices, gpu)
  {
    var before := Live(Of(table, cluster), now);
    var after := before[vm := ToLock(host, requests, now)];
    assert after - {vm} == before - {vm};
    SumSplit(after, vm, gpu);
    if vm in before {
      SumSplit(before, vm, gpu);
    } else {
      assert before - {vm} == before;
    }
  }

  /** Unlocking removes exactly the share of this virtual machine. */
  lemma UnlockRemovesShare(table: LockTable, cluster: string, vm: string, now: int, gpu: string)
    ensures var before := Live(Of(table, cluster), now);
            var after := Of(Unlocked(table, cluster, vm, now), cluster);
            && after == before - {vm}
            && LockedSum(after, gpu) == LockedSum(before, gpu) - ShareOf(before, vm, gpu)
  {
    var before := Live(Of(table, cluster), now);
    if vm in before {
      SumSplit(before, vm, gpu);
    } else {
      assert before - {vm} == before;
    }
  }

  /** Locking and then unlocking a virtual machine that held nothing restores every lock and count. */
  lemma LockThenUnlock(table: LockTable, cluster: string, vm: string, host: string,
                       requests: seq<DeviceRequest>, now: int, gpu: string)
    requires vm !in Live(Of(table, cluster), now)
    ensures var restored := Unlocked(Locked(table, cluster, vm, host, requests, now), cluster, vm, now);
            && Of(restored, cluster) == Live(Of(table, cluster), now)
            && LockedSum(Of(restored, cluster), gpu) == LockedSum(Live(Of(table, cluster), now), gpu)
            && (forall c :: c != cluster ==> Of(restored, c) == Of(table, c))
  {
    var before := Live(Of(table, cluster), now);
    var after := Locked(table, cluster, vm, host, requests, now);
    if Fits(before, requests) {
      assert Live(Of(after, cluster), now) == before[vm := ToLock(host, requests, now)];
      assert before[vm := ToLock(host, requests, now)] - {vm} == before;
    } else {
      assert Live(Of(after, cluster), now) - {vm} == before;
    }
  }

  predicate NonNegative(locks: ClusterLocks) {
    forall vm, i :: vm in locks && 0 <= i < |locks[vm].devices| ==> 0 <= locks[vm].devices[i].count
  }

  lemma {:induction false} ShareNonNegative(devices: seq<LockedDevice>, gpu: string)
    requires forall i :: 0 <= i < |devices| ==> 0 <= devices[i].count
    ensures 0 <= Share(devices, gpu)
  {
    if devices != [] {
      ShareNonNegative(devices[..|devices| - 1], gpu);
    }
  }

  lemma {:induction false} ShareOfUnlisted(devices: seq<LockedDevice>, gpu: string)
    requires forall i :: 0 <= i < |devices| ==> devices[i].id != gpu
    ensures Share(devices, gpu) == 0
  {
    if devices != [] {
      ShareOfUnlisted(devices[..|devices| - 1], gpu);
    }
  }

  lemma SumOfFewer(fewer: ClusterLocks, locks: ClusterLocks, gpu: string)
    requires NonNegative(locks)
    requires forall vm :: vm in fewer ==> vm in locks && fewer[vm] == locks[vm]
    ensures 0 <= LockedSum(fewer, gpu) <= LockedSum(locks, gpu)
  {
    forall vm | vm in locks ensures 0 <= Share(locks[vm].devices, gpu) {
      ShareNonNegative(locks[vm].devices, gpu);
    }
    Fewer(fewer, locks, (lock: VMLock) => Share(lock.devices, gpu));
  }

  /** The passing of time only ever lowers what is held of a GPU, and never below zero. */
  lemma LiveSumFalls(locks: ClusterLocks, t0: int, t1: int, gpu: string)
    requires NonNegative(locks) && t0 <= t1
    ensures 0 <= LockedSum(Live(locks, t1), gpu) <= LockedSum(Live(locks, t0), gpu)
  {
    SumOfFewer(Live(locks, t1), Live(locks, t0), gpu);
  }

  /** A lock counts for exactly eight minutes. */
  lemma LiveIff(locks: ClusterLocks, vm: string, now: int)
    ensures vm in Live(locks, now) <==> vm in locks && now < locks[vm].lockedAt + 480_000
    ensures vm in Live(locks, now) ==> Live(locks, now)[vm] == locks[vm]
  {
  }

  lemma UnlistedIsFree(locks: ClusterLocks, gpu: string)
    requires gpu !in LockedIDs(locks)
    ensures LockedSum(locks, gpu) == 0
  {
    forall vm | vm in locks ensures Share(locks[vm].devices, gpu) == 0 {
      ShareOfUnlisted(locks[vm].devices, gpu);
    }
    OfZeros(locks, (lock: VMLock) => Share(lock.devices, gpu));
  }

  // ---- The table itself ----

  class GpuLockTable {
    var locked: LockTable

    constructor ()
      ensures locked == map[]
    {
      locked := map[];
    }

    /** Drops the expired locks of a cluster from the table and returns the others. */
    method LiveLocks(cluster: string, now: int) returns (locks: ClusterLocks)
      modifies this
      ensures locked == Purged(old(locked), cluster, now)
      ensures locks == Live(Of(old(locked), cluster), now)
    {
      if cluster !in locked {
        return map[];
      }
      locks := locked[cluster];
      var all := locks;
      var todo := locks.Keys;
      while todo != {}
        invariant todo <= all.Keys
        invariant locked == old(locked)
        invariant locks == map vm | vm in all && (vm in todo || !Expired(all[vm], now)) :: all[vm]
        decreases |todo|
      {
        var vm :| vm in todo;
        todo := todo - {vm};
        if !(now < all[vm].lockedAt + LOCK_TIMEOUT) {
          locks := locks - {vm};
        }
      }
      assert locks == Live(all, now);
      locked := locked[cluster := locks];
    }

    /** Locks the devices for the virtual machine unless what others hold leaves too little of one of them. */
    method LockDevices(cluster: string, vm: string, host: string, requests: seq<DeviceRequest>, now: int)
      returns (ok: bool)
      modifies this
      ensures ok <==> Fits(Live(Of(old(locked), cluster), now), requests)
      ensures locked == Locked(old(locked), cluster, vm, host, requests, now)
    {
      var remaining, devices := Prepare(requests);
      assert VMLock(host, devices, now) == ToLock(host, requests, now);
      var live := LiveLocks(cluster, now);
      var counts := CountLocked(live);
      var fits := AllFit(counts, remaining);
      if !fits {
        return false;
      }
      locked := locked[cluster := live[vm := VMLock(host, devices, now)]];
      return true;
    }

    /** The lock of the virtual machine, if it is still live. */
    method LockOf(cluster: string, vm: string, now: int) returns (lock: Option<VMLock>)
      modifies this
      ensures locked == Purged(old(locked), cluster, now)
      ensures lock == (var live := Live(Of(old(locked), cluster), now);
                       if vm in live then Some(live[vm]) else None)
    {
      var live := LiveLocks(cluster, now);
      lock := if vm in live then Some(live[vm]) else None;
    }

    /** Keeps the devices that the locks of the cluster have not used up. */
    method FilterLocked(cluster: string, infos: GpuInfos, now: int) returns (free: GpuInfos)
      modifies this
      ensures locked == Purged(old(locked), cluster, now)
      ensures free == Free(infos, Live(Of(old(locked), cluster), now))
    {
      var live := LiveLocks(cluster, now);
      var counts := CountLocked(live);
      free := map id | id in infos && !(id in counts && counts[id] >= Available(infos[id])) :: infos[id];
    }

    method UnlockDevices(cluster: string, vm: string, now: int)
      modifies this
      ensures locked == Unlocked(old(locked), cluster, vm, now)
    {
      var left := LiveLocks(cluster, now);
      left := left - {vm};
      assert locked - {cluster} == old(locked) - {cluster};
      assert locked[cluster := left] == old(locked)[cluster := left];
      if |left| == 0 {
        locked := locked - {cluster};
      } else {
        locked := locked[cluster := left];
      }
    }
  }

  // ---- The counting loops ----

  /** Counts on top of a base that is zero outside `ids`, with the devices of one more lock added. */
  ghost predicate CountsFor(counts: map<string, int>, ids: set<string>, base: string -> int,
                            devices: seq<LockedDevice>)
  {
    && counts.Keys == ids + DeviceIDs(devices)
    && (forall gpu :: gpu !in ids ==> base(gpu) == 0)
    && (forall gpu :: gpu in counts ==> counts[gpu] == Wrap(base(gpu) + Share(devices, gpu)))
  }

  function AddCount(counts: map<string, int>, device: LockedDevice): map<string, int> {
    counts[device.id := Wrap(if device.id in counts then counts[device.id] + device.count else device.count)]
  }

  lemma DeviceIDsGrow(devices: seq<LockedDevice>, device: LockedDevice)
    ensures DeviceIDs(devices + [device]) == DeviceIDs(devices) + {device.id}
  {
    var all := devices + [device];
    assert all[|devices|] == device;
    forall i | 0 <= i < |devices| ensures all[i] == devices[i] {}
  }

  lemma ShareGrows(devices: seq<LockedDevice>, device: LockedDevice, gpu: string)
    ensures Share(devices + [device], gpu) == Share(devices, gpu) + if device.id == gpu then device.count else 0
  {
  }

  lemma CountAt(counts: map<string, int>, ids: set<string>, base: string -> int,
                devices: seq<LockedDevice>, device: LockedDevice)
    requires CountsFor(counts, ids, base, devices)
    ensures AddCount(counts, device)[device.id] == Wrap(base(device.id) + Share(devices, device.id) + device.count)
  {
    var sum := base(device.id) + Share(devices, device.id);
    if device.id in counts {
      WrapAdd(sum, device.count);
    } else {
      assert forall i :: 0 <= i < |devices| ==> devices[i].id in DeviceIDs(devices);
      ShareOfUnlisted(devices, device.id);
    }
  }

  lemma CountStep(counts: map<string, int>, ids: set<string>, base: string -> int,
                  devices: seq<LockedDevice>, device: LockedDevice)
    requires CountsFor(counts, ids, base, devices)
    ensures CountsFor(AddCount(counts, device), ids, base, devices + [device])
  {
    hide Share, DeviceIDs, Wrap;
    DeviceIDsGrow(devices, device);
    var next := AddCount(counts, device);
    forall gpu | gpu in next ensures next[gpu] == Wrap(base(gpu) + Share(devices + [device], gpu)) {
      ShareGrows(devices, device, gpu);
      if gpu == device.id {
        CountAt(counts, ids, base, devices, device);
      } else {
        assert gpu in counts;
      }
    }
  }

  method AllFit(counts: map<string, int>, remaining: map<string, int>) returns (fits: bool)
    ensures fits <==> forall id :: id in remaining && id in counts ==> counts[id] <= remaining[id]
  {
    var todo := remaining.Keys;
    while todo != {}
      invariant todo <= remaining.Keys
      invariant forall id :: id in remaining && id !in todo && id in counts ==> counts[id] <= remaining[id]
      decreases |todo|
    {
      var id :| id in todo;
      todo := todo - {id};
      if id in counts && counts[id] > remaining[id] {
        return false;
      }
    }
    return true;
  }

  /** What is left of each requested device, and the entries to lock. */
  method Prepare(requests: seq<DeviceRequest>) returns (remaining: map<string, int>, devices: seq<LockedDevice>)
    ensures remaining == Remaining(requests)
    ensures |devices| == |requests|
    ensures forall j :: 0 <= j < |devices| ==> devices[j] == LockedDevice(requests[j].id, requests[j].amount)
  {
    remaining, devices := map[], [];
    for i := 0 to |requests|
      invariant remaining == Remaining(requests[..i])
      invariant |devices| == i
      invariant forall j :: 0 <= j < i ==> devices[j] == LockedDevice(requests[j].id, requests[j].amount)
    {
      assert requests[..i + 1][..i] == requests[..i];
      remaining := remaining[requests[i].id := Wrap(requests[i].available - requests[i].amount)];
      devices := devices + [LockedDevice(requests[i].id, requests[i].amount)];
    }
    assert requests[..|requests|] == requests;
  }

  /** The inner counting loop, over the devices of one lock. */
  method CountLock(counts: map<string, int>, devices: seq<LockedDevice>,
                   ghost ids: set<string>, ghost base: string -> int)
    returns (next: map<string, int>)
    requires CountsFor(counts, ids, base, [])
    ensures CountsFor(next, ids, base, devices)
  {
    hide CountsFor, Wrap;
    next := counts;
    assert devices[..0] == [];
    for i := 0 to |devices|
      invariant CountsFor(next, ids, base, devices[..i])
    {
      CountStep(next, ids, base, devices[..i], devices[i]);
      assert devices[..i + 1] == devices[..i] + [devices[i]];
      if devices[i].id in next {
        next := next[devices[i].id := Wrap(next[devices[i].id] + devices[i].count)];
      } else {
        next := next[devices[i].id := Wrap(devices[i].count)];
      }
    }
    assert devices[..|devices|] == devices;
  }

  lemma LockedIDsGrow(seen: ClusterLocks, vm: string, lock: VMLock)
    requires vm !in seen
    ensures LockedIDs(seen[vm := lock]) == LockedIDs(seen) + DeviceIDs(lock.devices)
  {
    var all := seen[vm := lock];
    forall id | id in LockedIDs(seen) ensures id in LockedIDs(all) {
      var v, i :| v in seen && 0 <= i < |seen[v].devices| && seen[v].devices[i].id == id;
      assert v in all && all[v].devices[i].id == id;
    }
    forall id | id in DeviceIDs(lock.devices) ensures id in LockedIDs(all) {
      var i :| 0 <= i < |lock.devices| && lock.devices[i].id == id;
      assert all[vm].devices[i].id == id;
    }
    forall id | id in LockedIDs(all) ensures id in LockedIDs(seen) + DeviceIDs(lock.devices) {
      var v, i :| v in all && 0 <= i < |all[v].devices| && all[v].devices[i].id == id;
      assert v != vm ==> seen[v].devices[i].id == id;
    }
  }

  ghost predicate CountsOf(counts: map<string, int>, locks: ClusterLocks) {
    && counts.Keys == LockedIDs(locks)
    && forall gpu :: gpu in counts ==> counts[gpu] == Wrap(LockedSum(locks, gpu))
  }

  lemma CountsOfNone()
    ensures CountsOf(map[], map[])
  {
  }

  lemma CountsOfStart(counts: map<string, int>, seen: ClusterLocks)
    requires CountsOf(counts, seen)
    ensures CountsFor(counts, LockedIDs(seen), gpu => LockedSum(seen, gpu), [])
  {
    forall gpu | gpu !in LockedIDs(seen) ensures LockedSum(seen, gpu) == 0 {
      UnlistedIsFree(seen, gpu);
    }
  }

  lemma CountsOfNext(next: map<string, int>, seen: ClusterLocks, vm: string, lock: VMLock)
    requires vm !in seen
    requires CountsFor(next, LockedIDs(seen), gpu => LockedSum(seen, gpu), lock.devices)
    ensures CountsOf(next, seen[vm := lock])
  {
    hide LockedSum, Share, LockedIDs, DeviceIDs, Wrap;
    LockedIDsGrow(seen, vm, lock);
    forall gpu | gpu in next ensures next[gpu] == Wrap(LockedSum(seen[vm := lock], gpu)) {
      SumWithLock(seen, vm, lock, gpu);
    }
  }

  /** The nested counting loops: each count is the whole sum held of that GPU, up to int32 wrap-around. */
  method CountLocked(locks: ClusterLocks) returns (counts: map<string, int>)
    ensures counts.Keys == LockedIDs(locks)
    ensures forall gpu :: gpu in counts ==> counts[gpu] == Wrap(LockedSum(locks, gpu))
  {
    hide LockedSum, LockedIDs, CountsFor, Wrap;
    counts := map[];
    ghost var seen: ClusterLocks := map[];
    CountsOfNone();
    var todo := locks.Keys;
    while todo != {}
      invariant todo <= locks.Keys
      invariant seen == map vm | vm in locks && vm !in todo :: locks[vm]
      invariant CountsOf(counts, seen)
      decreases |todo|
    {
      var vm :| vm in todo;
      todo := todo - {vm};
      CountsOfStart(counts, seen);
      counts := CountLock(counts, locks[vm].devices, LockedIDs(seen), gpu => LockedSum(seen, gpu));
      CountsOfNext(counts, seen, vm, locks[vm]);
      seen := seen[vm := locks[vm]];
    }
    assert seen == locks;
  }
}
