/** One reconcile reserving a host and devices for its virtual machine. */
module GpuReserve {
  import opened Results
  import opened GpuDevices
  import opened GpuLocks
  import opened GpuSelect
  import opened GpuReuse
  import opened GpuProtocol

  datatype Reservation = Reservation(host: string, devices: seq<DeviceRequest>)

  /** The locks of everyone else in this cluster, and of all other clusters, are as they were. */
  ghost predicate OthersKept(before: LockTable, after: LockTable, cluster: string, vm: string, now: int) {
    && Live(Of(after, cluster), now) - {vm} == Live(Of(before, cluster), now) - {vm}
    && forall c :: c != cluster ==> Of(after, c) == Of(before, c)
  }

  ghost predicate Refused(live: ClusterLocks, machine: Machine, view: GpuInfos, host: string) {
    Satisfiable(OnHost(view, host), machine.Kind(), machine.Required()) ==>
      exists groups :: IsGrouping(groups, OnHost(view, host), machine.Kind()) &&
        !Fits(live, Selected(groups, machine.Required()))
  }

  lemma LockedKeepsOthers(table: LockTable, cluster: string, vm: string, host: string,
                          requests: seq<DeviceRequest>, now: int)
    ensures var after := Locked(table, cluster, vm, host, requests, now);
            && OthersKept(table, after, cluster, vm, now)
            && (Fits(Live(Of(table, cluster), now), requests) ==>
                  vm in Of(after, cluster) && Of(after, cluster)[vm] == ToLock(host, requests, now))
            && (!Fits(Live(Of(table, cluster), now), requests) ==>
                  Live(Of(after, cluster), now) == Live(Of(table, cluster), now))
  {
    var live := Live(Of(table, cluster), now);
    if Fits(live, requests) {
      var locked := live[vm := ToLock(host, requests, now)];
      assert Live(locked, now) == locked;
      assert locked - {vm} == live - {vm};
    } else if cluster in table {
      assert Live(live, now) == live;
    }
  }

  method SelectOnHost(machine: Machine, infos: GpuInfos) returns (selected: seq<DeviceRequest>, ghost groups: Groups)
    requires KeyedByID(infos) && machine.Required() != [] && Positive(machine.Required())
    requires forall id :: id in infos ==> infos[id].usage.Passthrough? == (machine.gpus != []) && Available(infos[id]) > 0
    ensures IsGrouping(groups, infos, machine.Kind()) && selected == Selected(groups, machine.Required())
    ensures selected != [] <==> Satisfiable(infos, machine.Kind(), machine.Required())
    ensures selected != [] && DistinctNames(machine.Required()) ==>
              Serves(selected, infos, machine.Kind(), machine.Required())
  {
    if machine.gpus != [] {
      selected, groups := SelectGPUs(infos, machine.gpus);
    } else {
      selected, groups := SelectVGPUs(infos, machine.vgpus);
    }
  }

  /** Locks the machine's devices on one host, if the host has enough and the lock is granted. */
  method TryOne(table: GpuLockTable, cluster: string, machine: Machine, view: GpuInfos, host: string, now: int)
    returns (devices: seq<DeviceRequest>)
    requires KeyedByID(view) && machine.Required() != [] && Positive(machine.Required())
    requires forall id :: id in view ==> view[id].usage.Passthrough? == (machine.gpus != []) && Available(view[id]) > 0
    modifies table
    ensures OthersKept(old(table.locked), table.locked, cluster, machine.name, now)
    ensures devices == [] ==>
      && Live(Of(table.locked, cluster), now) == Live(Of(old(table.locked), cluster), now)
      && Refused(Live(Of(old(table.locked), cluster), now), machine, view, host)
    ensures devices != [] ==>
      && machine.name in Of(table.locked, cluster)
      && Of(table.locked, cluster)[machine.name] == ToLock(host, devices, now)
      && Satisfiable(OnHost(view, host), machine.Kind(), machine.Required())
      && (DistinctNames(machine.Required()) ==> Serves(devices, OnHost(view, host), machine.Kind(), machine.Required()))
  {
    ghost var groups;
    devices, groups := SelectOnHost(machine, OnHost(view, host));
    if devices != [] {
      LockedKeepsOthers(table.locked, cluster, machine.name, host, devices, now);
      var granted := table.LockDevices(cluster, machine.name, host, devices, now);
      if !granted {
        assert Refused(Live(Of(old(table.locked), cluster), now), machine, view, host);
        devices := [];
      }
    }
  }

  method TryHosts(table: GpuLockTable, cluster: string, machine: Machine, view: GpuInfos, hosts: set<string>, now: int)
    returns (found: Option<Reservation>)
    requires KeyedByID(view) && machine.Required() != [] && Positive(machine.Required())
    requires forall id :: id in view ==> view[id].usage.Passthrough? == (machine.gpus != []) && Available(view[id]) > 0
    modifies table
    ensures OthersKept(old(table.locked), table.locked, cluster, machine.name, now)
    ensures found.None? ==>
      && Live(Of(table.locked, cluster), now) == Live(Of(old(table.locked), cluster), now)
      && forall host :: host in hosts ==> Refused(Live(Of(old(table.locked), cluster), now), machine, view, host)
    ensures found.Some? ==>
      && found.value.host in hosts
      && machine.name in Of(table.locked, cluster)
      && Of(table.locked, cluster)[machine.name] == ToLock(found.value.host, found.value.devices, now)
      && Satisfiable(OnHost(view, found.value.host), machine.Kind(), machine.Required())
      && (DistinctNames(machine.Required()) ==>
            Serves(found.value.devices, OnHost(view, found.value.host), machine.Kind(), machine.Required()))
  {
    var todo := hosts;
    while todo != {}
      invariant todo <= hosts
      invariant OthersKept(old(table.locked), table.locked, cluster, machine.name, now)
      invariant Live(Of(table.locked, cluster), now) == Live(Of(old(table.locked), cluster), now)
      invariant forall host :: host in hosts - todo ==> Refused(Live(Of(old(table.locked), cluster), now), machine, view, host)
      decreases |todo|
    {
      var host :| host in todo;
      todo := todo - {host};
      var devices := TryOne(table, cluster, machine, view, host, now);
      if devices != [] {
        return Some(Reservation(host, devices));
      }
    }
    return None;
  }

  /** Visits the hosts in any order, the preferred one first, until one grants the devices. */
  method Reserve(table: GpuLockTable, cluster: string, machine: Machine, view: GpuInfos, preferred: string, now: int)
    returns (found: Option<Reservation>)
    requires KeyedByID(view) && machine.Required() != [] && Positive(machine.Required())
    requires forall id :: id in view ==> view[id].usage.Passthrough? == (machine.gpus != []) && Available(view[id]) > 0
    modifies table
    ensures OthersKept(old(table.locked), table.locked, cluster, machine.name, now)
    ensures found.None? ==>
      && Live(Of(table.locked, cluster), now) == Live(Of(old(table.locked), cluster), now)
      && forall id :: id in view ==> Refused(Live(Of(old(table.locked), cluster), now), machine, view, view[id].host)
    ensures found.Some? ==>
      && machine.name in Of(table.locked, cluster)
      && Of(table.locked, cluster)[machine.name] == ToLock(found.value.host, found.value.devices, now)
      && Satisfiable(OnHost(view, found.value.host), machine.Kind(), machine.Required())
      && (DistinctNames(machine.Required()) ==>
            Serves(found.value.devices, OnHost(view, found.value.host), machine.Kind(), machine.Required()))
      && (found.value.host == preferred || Refused(Live(Of(old(table.locked), cluster), now), machine, view, preferred)
          || forall id :: id in view ==> view[id].host != preferred)
  {
    var hosts := set id | id in view :: view[id].host;
    if preferred in hosts {
      found := TryHosts(table, cluster, machine, view, {preferred}, now);
      if found.Some? {
        return;
      }
      hosts := hosts - {preferred};
    }
    found := TryHosts(table, cluster, machine, view, hosts, now);
  }
}
