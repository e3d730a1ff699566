/** Choosing a host and GPU devices for a machine, from the lock it may hold already or from what Tower offers. */
module GpuChoice {
  import opened Results
  import opened Int32
  import opened Sums
  import opened GpuDevices
  import opened GpuLocks
  import opened GpuSelect
  import opened GpuReuse
  import opened GpuProtocol
  import opened GpuReserve

  // ---- When a host has to be able to serve a machine ----

  function Min(a: int, b: int): int {
    if a < b then a else b
  }

  /** Every model or type has enough left on the host in all. */
  ghost predicate Covers(offered: GpuInfos, machine: Machine, host: string) {
    forall k :: 0 <= k < |machine.Required()| ==>
      Total(OnHost(offered, host), machine.Kind(), machine.Required()[k].name) >= machine.Required()[k].count
  }

  /** What is not used up by the locks of others: some unit is available and not held. */
  ghost function Left(offered: GpuInfos, others: ClusterLocks): GpuInfos {
    map id | id in offered && LockedSum(others, id) < Available(offered[id]) :: offered[id]
  }

  /** What the others hold of each device leaves whatever a requirement could draw of it. */
  ghost predicate Uncontended(infos: GpuInfos, others: ClusterLocks, machine: Machine, host: string) {
    forall id, k ::
      id in infos && 0 <= k < |machine.Required()| && infos[id].host == host
      && machine.Kind().Name(infos[id]) == machine.Required()[k].name ==>
        Min(machine.Required()[k].count, Available(infos[id])) + LockedSum(others, id) <= Available(infos[id])
  }

  /** The devices that others have not used up cover every requirement, and none of them is contended. */
  ghost predicate CanServe(offered: GpuInfos, others: ClusterLocks, machine: Machine, host: string) {
    Covers(Left(offered, others), machine, host) && Uncontended(Left(offered, others), others, machine, host)
  }

  /** Counts that int32 can hold. */
  ghost predicate Sane(offered: GpuInfos, others: ClusterLocks) {
    forall id :: id in offered ==> Available(offered[id]) <= MAX && 0 <= LockedSum(others, id) <= MAX
  }

  /** The devices that hosts are tried with. */
  ghost function Tried(offered: GpuInfos, others: ClusterLocks): GpuInfos {
    Free(Offered(offered), others)
  }

  function Offered(infos: GpuInfos): GpuInfos {
    map id | id in infos && Available(infos[id]) > 0 :: infos[id]
  }

  lemma TriedIsPart(offered: GpuInfos, others: ClusterLocks)
    ensures PartOf(Tried(offered, others), offered)
  {
    hide LockedSum, LockedIDs;
  }

  lemma TriedIsLeft(offered: GpuInfos, others: ClusterLocks)
    requires Sane(offered, others)
    ensures Tried(offered, others) == Left(offered, others)
  {
    hide LockedSum, LockedIDs;
    forall id | id in offered ensures id in Tried(offered, others) <==> id in Left(offered, others) {
      assert Wrap(LockedSum(others, id)) == LockedSum(others, id);
      if id !in LockedIDs(others) {
        UnlistedIsFree(others, id);
      }
    }
  }

  // ---- Why a lock is refused ----

  lemma {:induction false} RemainingFrom(requests: seq<DeviceRequest>, id: string) returns (r: DeviceRequest)
    requires id in Remaining(requests)
    ensures r in requests && r.id == id && Remaining(requests)[id] == Wrap(r.available - r.amount)
  {
    var n := |requests| - 1;
    if requests[n].id == id {
      r := requests[n];
    } else {
      r := RemainingFrom(requests[..n], id);
    }
  }

  lemma {:induction false} TakeAtMost(gpus: seq<GpuInfo>, need: int)
    requires need >= 1
    ensures forall r :: r in Take(gpus, need) ==> r.amount <= need
  {
    if gpus != [] {
      var available := Available(gpus[0]);
      if available < need {
        TakeAtMost(gpus[1..], need - available);
      }
    }
  }

  /** A request draws no more of a device than some requirement of its name asks for. */
  predicate WithinARequirement(r: DeviceRequest, infos: GpuInfos, kind: Grouping, required: seq<Requirement>) {
    && DrawnFrom(r, infos)
    && exists k :: 0 <= k < |required| && kind.Name(infos[r.id]) == required[k].name && r.amount <= required[k].count
  }

  lemma {:induction false} SelectionWithin(groups: Groups, infos: GpuInfos, kind: Grouping, required: seq<Requirement>)
    requires IsGrouping(groups, infos, kind) && Positive(required) && SelectFrom(groups, required).Some?
    ensures forall r :: r in SelectFrom(groups, required).value ==> WithinARequirement(r, infos, kind, required)
  {
    if required != [] {
      var n := |required| - 1;
      var front, last := required[..n], required[n];
      var taken := Take(groups[last.name], last.count);
      SelectionWithin(groups, infos, kind, front);
      TakeDraws(groups[last.name], infos, last.count);
      TakeAtMost(groups[last.name], last.count);
      forall r | r in SelectFrom(groups, front).value ensures WithinARequirement(r, infos, kind, required) {
        var k :| 0 <= k < n && kind.Name(infos[r.id]) == front[k].name && r.amount <= front[k].count;
        assert required[k] == front[k];
      }
      forall r | r in taken ensures WithinARequirement(r, infos, kind, required) {
        var i :| 0 <= i < |groups[last.name]| && groups[last.name][i].id == r.id;
        assert kind.Name(infos[r.id]) == required[n].name;
      }
    }
  }

  /** A host that can serve is never refused. */
  lemma NotRefused(offered: GpuInfos, others: ClusterLocks, machine: Machine, host: string)
    requires KeyedByID(offered) && Positive(machine.Required()) && Sane(offered, others)
    requires CanServe(offered, others, machine, host)
    ensures !Refused(others, machine, Tried(offered, others), host)
  {
    hide Sane, Uncontended, Tried, Left, LockedSum, Total, SelectFrom, IsGrouping, Fits;
    TriedIsLeft(offered, others);
    TriedIsPart(offered, others);
    var infos, kind, required := OnHost(Tried(offered, others), host), machine.Kind(), machine.Required();
    forall groups | IsGrouping(groups, infos, kind) ensures Fits(others, Selected(groups, required)) {
      SelectionSucceedsIff(groups, infos, kind, required);
      SelectionWithin(groups, infos, kind, required);
      SelectionFits(offered, others, machine, host, Selected(groups, required));
    }
  }

  lemma SelectionFits(offered: GpuInfos, others: ClusterLocks, machine: Machine, host: string, selected: seq<DeviceRequest>)
    requires Sane(offered, others) && Uncontended(Left(offered, others), others, machine, host)
    requires forall r :: r in selected ==>
               WithinARequirement(r, OnHost(Left(offered, others), host), machine.Kind(), machine.Required())
    ensures Fits(others, selected)
  {
    hide LockedSum, LockedIDs;
    var kind, required, infos := machine.Kind(), machine.Required(), OnHost(Left(offered, others), host);
    forall id | id in Remaining(selected) && id in LockedIDs(others)
      ensures Wrap(LockedSum(others, id)) <= Remaining(selected)[id]
    {
      var r := RemainingFrom(selected, id);
      assert WithinARequirement(r, infos, kind, required);
      var k :| 0 <= k < |required| && kind.Name(infos[r.id]) == required[k].name && r.amount <= required[k].count;
      assert id in Left(offered, others) && Left(offered, others)[id] == offered[id];
      assert Min(required[k].count, Available(offered[id])) + LockedSum(others, id) <= Available(offered[id]);
    }
  }

  /** Such a host has a device that is tried. */
  lemma HasTried(offered: GpuInfos, others: ClusterLocks, machine: Machine, host: string) returns (id: string)
    requires Positive(machine.Required()) && machine.Required() != [] && Sane(offered, others)
    requires Covers(Left(offered, others), machine, host)
    ensures id in Tried(offered, others) && Tried(offered, others)[id].host == host
  {
    hide Sane, Tried, Left, LockedSum;
    TriedIsLeft(offered, others);
    var name, kind := machine.Required()[0].name, machine.Kind();
    var infos := OnHost(Left(offered, others), host);
    if forall id :: id in infos ==> kind.Name(infos[id]) != name {
      TotalOfNone(infos, kind, name);
      assert false;
    }
    id :| id in infos && kind.Name(infos[id]) == name;
  }

  // ---- From the lock a machine may hold already ----

  function HeldIDs(lock: VMLock): seq<string> {
    seq(|lock.devices|, i requires 0 <= i < |lock.devices| => lock.devices[i].id)
  }

  function HeldDevices(lock: VMLock): seq<DeviceRequest> {
    seq(|lock.devices|, i requires 0 <= i < |lock.devices| => DeviceRequest(lock.devices[i].id, lock.devices[i].count, 0))
  }

  /** The machine's live lock is on this host and holds just these devices. */
  ghost predicate Holds(table: LockTable, cluster: string, vm: string, r: Reservation, now: int) {
    var live := Live(Of(table, cluster), now);
    && vm in live && live[vm].host == r.host && |live[vm].devices| == |r.devices|
    && forall i :: 0 <= i < |r.devices| ==> live[vm].devices[i] == LockedDevice(r.devices[i].id, r.devices[i].amount)
  }

  /** What others may have to say of a machine's choice: the live locks but its own. */
  ghost function Others(table: LockTable, cluster: string, vm: string, now: int): ClusterLocks {
    Live(Of(table, cluster), now) - {vm}
  }

  /** The machine's live lock passes the test of devices held already. */
  ghost predicate HoldsUsable(table: LockTable, cluster: string, machine: Machine, snapshot: GpuInfos, now: int) {
    var live := Live(Of(table, cluster), now);
    machine.name in live && Reusable(snapshot, HeldIDs(live[machine.name]), machine)
  }

  /** A live lock that can still be used is used as it is, and one that cannot is given up before hosts are
      tried. Whatever is returned is what the machine's live lock holds; nobody else's lock changes. Nothing
      is found only when no host can serve, and a preferred host that can is the one that is found. */
  method SelectHostAndGPUs(table: GpuLockTable, cluster: string, machine: Machine, cache: GpuInfos, snapshot: GpuInfos,
                           fetchError: bool, offered: GpuInfos, preferred: string, now: int)
    returns (found: Option<Reservation>)
    requires PartOf(cache, snapshot)
    requires KeyedByID(offered) && machine.Required() != [] && Positive(machine.Required())
    requires forall id :: id in offered ==> offered[id].usage.Passthrough? == (machine.gpus != [])
    modifies table
    ensures OthersKept(old(table.locked), table.locked, cluster, machine.name, now)
    ensures found.Some? ==> Holds(table.locked, cluster, machine.name, found.value, now)
    ensures HoldsUsable(old(table.locked), cluster, machine, snapshot, now) && !fetchError ==>
              var live := Live(Of(old(table.locked), cluster), now);
              && found == Some(Reservation(live[machine.name].host, HeldDevices(live[machine.name])))
              && Live(Of(table.locked, cluster), now) == live
    ensures found.None? && !fetchError ==> machine.name !in Live(Of(table.locked, cluster), now)
    ensures !HoldsUsable(old(table.locked), cluster, machine, snapshot, now) && !fetchError ==>
              ChosenWell(offered, Others(old(table.locked), cluster, machine.name, now), machine, preferred, found)
  {
    hide Reusable, ChosenWell, Live, Of;
    ghost var before := table.locked;
    ghost var others := Others(before, cluster, machine.name, now);
    var error;
    found, error := UseOrRelease(table, cluster, machine, cache, snapshot, fetchError, now);
    if error || found.Some? {
      return;
    }
    found := ReserveOffered(table, cluster, machine, offered, others, preferred, now);
  }

  /** Returns a live lock that can still be used, and gives up one that cannot. */
  method UseOrRelease(table: GpuLockTable, cluster: string, machine: Machine, cache: GpuInfos, snapshot: GpuInfos,
                      fetchError: bool, now: int)
    returns (found: Option<Reservation>, error: bool)
    requires PartOf(cache, snapshot)
    modifies table
    ensures OthersKept(old(table.locked), table.locked, cluster, machine.name, now)
    ensures error ==> fetchError && found.None?
    ensures !error ==> (found.Some? <==> HoldsUsable(old(table.locked), cluster, machine, snapshot, now))
    ensures found.Some? ==>
              var live := Live(Of(old(table.locked), cluster), now);
              && machine.name in live && found.value == Reservation(live[machine.name].host, HeldDevices(live[machine.name]))
              && Live(Of(table.locked, cluster), now) == live && Holds(table.locked, cluster, machine.name, found.value, now)
    ensures !error && found.None? ==>
              Live(Of(table.locked, cluster), now) == Others(old(table.locked), cluster, machine.name, now)
  {
    hide Reusable;
    ghost var before := table.locked;
    var lock := table.LockOf(cluster, machine.name, now);
    PurgedKeeps(before, cluster, now);
    if lock.None? {
      return None, false;
    }
    var ok, left;
    ok, error, left := CanBeReused(cache, snapshot, fetchError, HeldIDs(lock.value), machine);
    if error {
      return None, true;
    }
    if ok {
      return Some(Reservation(lock.value.host, HeldDevices(lock.value))), false;
    }
    ghost var purged := table.locked;
    table.UnlockDevices(cluster, machine.name, now);
    UnlockedKeeps(purged, cluster, machine.name, now);
    return None, false;
  }

  /** Filters what Tower offers by what is available and by the locks of others, and tries the hosts. */
  method ReserveOffered(table: GpuLockTable, cluster: string, machine: Machine, offered: GpuInfos,
                        ghost others: ClusterLocks, preferred: string, now: int)
    returns (found: Option<Reservation>)
    requires KeyedByID(offered) && machine.Required() != [] && Positive(machine.Required())
    requires forall id :: id in offered ==> offered[id].usage.Passthrough? == (machine.gpus != [])
    requires Live(Of(table.locked, cluster), now) == others && machine.name !in others
    modifies table
    ensures OthersKept(old(table.locked), table.locked, cluster, machine.name, now)
    ensures found.Some? ==> Holds(table.locked, cluster, machine.name, found.value, now)
    ensures found.None? ==> machine.name !in Live(Of(table.locked, cluster), now)
    ensures ChosenWell(offered, others, machine, preferred, found)
  {
    hide Refused, Serves, ChosenWell, Satisfiable;
    ghost var before := table.locked;
    var view := table.FilterLocked(cluster, Offered(offered), now);
    assert view == Tried(offered, others);
    PurgedKeeps(before, cluster, now);
    found := Reserve(table, cluster, machine, view, preferred, now);
    if found.Some? {
      FreshIsLive(table.locked, cluster, machine.name, found.value, now);
    }
    hide Tried;
    ChoiceIsGood(offered, others, machine, preferred, found);
  }

  /** With counts that int32 can hold: nothing is found only when no host can serve; a preferred host that can is
      found; the host that is found covers every requirement with what others left. Distinct names are served exactly. */
  ghost predicate ChosenWell(offered: GpuInfos, others: ClusterLocks, machine: Machine, preferred: string,
                             found: Option<Reservation>)
  {
    && (Sane(offered, others) ==>
          && (found.None? ==> forall host :: !CanServe(offered, others, machine, host))
          && (CanServe(offered, others, machine, preferred) ==> found.Some? && found.value.host == preferred)
          && (found.Some? ==> Covers(Left(offered, others), machine, found.value.host)))
    && (found.Some? && DistinctNames(machine.Required()) ==>
          Serves(found.value.devices, OnHost(offered, found.value.host), machine.Kind(), machine.Required()))
  }

  lemma ChoiceIsGood(offered: GpuInfos, others: ClusterLocks, machine: Machine, preferred: string, found: Option<Reservation>)
    requires KeyedByID(offered) && machine.Required() != [] && Positive(machine.Required())
    requires var view := Tried(offered, others);
      && (found.None? ==> forall id :: id in view ==> Refused(others, machine, view, view[id].host))
      && (found.Some? ==>
            && Satisfiable(OnHost(view, found.value.host), machine.Kind(), machine.Required())
            && (DistinctNames(machine.Required()) ==>
                  Serves(found.value.devices, OnHost(view, found.value.host), machine.Kind(), machine.Required()))
            && (found.value.host == preferred || Refused(others, machine, view, preferred)
                || forall id :: id in view ==> view[id].host != preferred))
    ensures ChosenWell(offered, others, machine, preferred, found)
  {
    hide Refused, Serves, Tried, Left, Covers, Uncontended, Sane, Satisfiable;
    forall host | Sane(offered, others) && CanServe(offered, others, machine, host)
      ensures found.Some? && (host == preferred ==> found.value.host == preferred)
    {
      NotRefused(offered, others, machine, host);
      var id := HasTried(offered, others, machine, host);
    }
    if found.Some? {
      TriedIsPart(offered, others);
      PartServes(OnHost(Tried(offered, others), found.value.host), OnHost(offered, found.value.host), machine, found.value.devices);
      if Sane(offered, others) {
        TriedIsLeft(offered, others);
        CoversIs(Left(offered, others), machine, found.value.host);
      }
    }
  }

  /** Whole devices are never contended: something is found exactly when the devices nobody holds cover every
      requirement on some host. */
  lemma WholeDevicesIff(offered: GpuInfos, others: ClusterLocks, machine: Machine, preferred: string, found: Option<Reservation>)
    requires ChosenWell(offered, others, machine, preferred, found) && Sane(offered, others)
    requires forall id :: id in offered ==> offered[id].usage.Passthrough?
    ensures found.Some? <==> exists host :: Covers(Left(offered, others), machine, host)
  {
    hide LockedSum, Total;
    forall host | Covers(Left(offered, others), machine, host) ensures found.Some? {
      assert Uncontended(Left(offered, others), others, machine, host);
      assert CanServe(offered, others, machine, host);
    }
  }

  /** With no other live lock, any host whose totals cover the requirements is good enough. */
  lemma AloneIsServed(offered: GpuInfos, machine: Machine, preferred: string, found: Option<Reservation>, host: string)
    requires ChosenWell(offered, map[], machine, preferred, found) && Sane(offered, map[]) && Covers(offered, machine, host)
    ensures found.Some? && (host == preferred ==> found.value.host == preferred)
  {
    var others: ClusterLocks := map[];
    var kind, left := machine.Kind(), OnHost(Left(offered, others), host);
    forall name ensures Total(left, kind, name) == Total(OnHost(offered, host), kind, name) {
      WithoutZeros(left, OnHost(offered, host), gpu => Part(gpu, kind, name));
    }
    hide Total, LockedSum;
    assert forall id :: LockedSum(others, id) == 0 by { NoLocks(); }
    assert CanServe(offered, others, machine, host);
  }

  lemma NoLocks()
    ensures forall id :: LockedSum(map[], id) == 0
  {
  }

  lemma CoversIs(offered: GpuInfos, machine: Machine, host: string)
    ensures Covers(offered, machine, host) <==> Satisfiable(OnHost(offered, host), machine.Kind(), machine.Required())
  {
  }

  /** What serves a machine from some of the devices serves it from all. */
  lemma PartServes(part: GpuInfos, infos: GpuInfos, machine: Machine, devices: seq<DeviceRequest>)
    requires PartOf(part, infos)
    ensures Satisfiable(part, machine.Kind(), machine.Required()) ==> Satisfiable(infos, machine.Kind(), machine.Required())
    ensures Serves(devices, part, machine.Kind(), machine.Required()) ==> Serves(devices, infos, machine.Kind(), machine.Required())
  {
    var kind, required := machine.Kind(), machine.Required();
    forall name ensures Total(part, kind, name) <= Total(infos, kind, name) {
      Fewer(part, infos, gpu => Part(gpu, kind, name));
    }
    if Serves(devices, part, kind, required) {
      forall name ensures Given(devices, part, kind, name) == Given(devices, infos, kind, name) {
        GivenSame(devices, part, infos, kind, name);
      }
    }
  }

  lemma PurgedKeeps(table: LockTable, cluster: string, now: int)
    ensures var after := Purged(table, cluster, now);
            && Live(Of(after, cluster), now) == Live(Of(table, cluster), now)
            && forall c :: c != cluster ==> Of(after, c) == Of(table, c)
  {
  }

  lemma UnlockedKeeps(table: LockTable, cluster: string, vm: string, now: int)
    ensures var after := Unlocked(table, cluster, vm, now);
            && Live(Of(after, cluster), now) == Live(Of(table, cluster), now) - {vm}
            && forall c :: c != cluster ==> Of(after, c) == Of(table, c)
  {
  }

  lemma FreshIsLive(table: LockTable, cluster: string, vm: string, r: Reservation, now: int)
    requires vm in Of(table, cluster) && Of(table, cluster)[vm] == ToLock(r.host, r.devices, now)
    ensures Holds(table, cluster, vm, r, now)
  {
  }
}
