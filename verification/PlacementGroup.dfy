/** Putting a virtual machine into its placement group, or first moving it to a host no member uses. */
module PlacementGroup {
  import opened Results
  import opened Hosts
  import opened Tower

  datatype VM = VM(id: string, host: string, status: VMStatus)

  /** Another control plane machine as listed: its recorded group and the recorded host of its VM. */
  datatype Listed = Listed(name: string, groupRef: string, hostRef: string)

  datatype ControlPlane = ControlPlane(replicas: int, updatedReplicas: int, statusReplicas: int)

  datatype GroupReply = GroupError | GroupBusy | Group(id: string, members: set<string>)

  /** What one attempt to join sees; the flags are foreign errors. */
  datatype Answers = Answers(
    nameError: bool, ticket: bool, group: GroupReply,
    hostsError: bool, hosts: HostSet, membersError: bool, memberVMs: seq<VM>,
    kcpError: bool, kcp: ControlPlane, listError: bool, machines: seq<Listed>,
    migrateError: bool, updateError: bool, taskError: bool, taskFailed: bool)

  datatype Spec = Spec(name: string, controlPlane: bool, failureDomain: string, memory: int)
  datatype Status = Status(groupRef: string, hasTask: bool)

  datatype Call = Migrate(vm: string, host: string) | UpdateGroup(group: string, members: set<string>)

  datatype Out = Out(status: Status, calls: seq<Call>, flow: Flow)

  predicate InRollingUpdate(kcp: ControlPlane) {
    (kcp.replicas > kcp.updatedReplicas && kcp.replicas <= kcp.statusReplicas) ||
    (kcp.replicas == kcp.updatedReplicas && kcp.replicas < kcp.statusReplicas)
  }

  function HostsOf(vms: seq<VM>): set<string> {
    set vm | vm in vms :: vm.host
  }

  function UsedHosts(e: Answers): HostSet {
    Find(e.hosts, HostsOf(e.memberVMs))
  }

  /** The machine's own host needs no free memory when it runs there already. */
  function AvailableHosts(memory: int, hosts: HostSet, used: HostSet, vm: VM): HostSet {
    var roomy := Difference(Where(hosts, (h: Host) => IsAvailable(h, memory)), used);
    if (vm.status.Running? || vm.status.Suspended?) && vm.host !in roomy && vm.host in hosts
       && IsAvailable(hosts[vm.host], 0) && hosts[vm.host].id !in used
    then roomy[hosts[vm.host].id := hosts[vm.host]]
    else roomy
  }

  function Targets(spec: Spec, e: Answers, vm: VM): HostSet {
    AvailableHosts(spec.memory, e.hosts, UsedHosts(e), vm)
  }

  /** The recorded hosts of the other control plane machines that are recorded as members. */
  function RecordedHosts(machines: seq<Listed>, self: string, group: string): set<string> {
    if machines == [] then {}
    else
      var last := machines[|machines| - 1];
      var rest := RecordedHosts(machines[..|machines| - 1], self, group);
      if last.name != self && last.groupRef == group then rest + {last.hostRef} else rest
  }

  function Move(e: Answers, st: Status, vm: VM, target: string): Out {
    if vm.host == target then Out(st, [], Proceed)
    else if e.migrateError then Out(st, [], Fail)
    else Out(st.(hasTask := true), [Migrate(vm.id, target)], Wait)
  }

  function AddToGroup(e: Answers, st: Status, vm: VM): Out
    requires e.group.Group?
  {
    if e.updateError then Out(st, [], Fail)
    else
      var calls := [UpdateGroup(e.group.id, e.group.members + {vm.id})];
      if e.taskError || e.taskFailed then Out(st, calls, Fail)
      else Out(st.(groupRef := e.group.id), calls, Proceed)
  }

  /** No host is left that the group does not use. */
  function GroupFull(spec: Spec, e: Answers, st: Status, vm: VM): Out {
    if e.kcpError then Out(st, [], Fail)
    else if InRollingUpdate(e.kcp) && vm.status.Stopped? then
      Out(st, [], if Where(UsedHosts(e), (h: Host) => !IsAvailable(h, spec.memory)) == map[] then Proceed else Wait)
    else Out(st, [], if vm.status.Stopped? then Wait else Proceed)
  }

  /** A virtual machine that is up on a host it cannot join the group from. */
  function Relocate(spec: Spec, e: Answers, st: Status, vm: VM, target: string): Out
    requires e.group.Group?
  {
    var recorded := RecordedHosts(e.machines, spec.name, e.group.id);
    if e.kcpError then Out(st, [], Fail)
    else if InRollingUpdate(e.kcp) then Out(st, [], Proceed)
    else if e.listError then Out(st, [], Fail)
    else if |e.machines| != e.kcp.replicas then Out(st, [], Proceed)
    else if |recorded| < e.kcp.replicas - 1 then Out(st, [], Proceed)
    else if target in recorded then Out(st, [], Proceed)
    else Move(e, st, vm, target)
  }

  function JoinControlPlane(spec: Spec, e: Answers, st: Status, vm: VM, target: string): Out
    requires e.group.Group?
  {
    if e.hostsError || e.membersError then Out(st, [], Fail)
    else
      var available := Targets(spec, e, vm);
      if spec.failureDomain != "" then
        if available == map[] && vm.status.Stopped? then Out(st, [], Wait) else AddToGroup(e, st, vm)
      else if available == map[] then GroupFull(spec, e, st, vm)
      else if vm.host !in available && !vm.status.Stopped? then Relocate(spec, e, st, vm, target)
      else AddToGroup(e, st, vm)
  }

  /** One attempt to join; `target` is the available host that happens to be listed first. */
  function Join(spec: Spec, e: Answers, st: Status, vm: VM, target: string): Out {
    if e.nameError then Out(st, [], Fail)
    else if !e.ticket then Out(st, [], Wait)
    else if e.group.GroupError? then Out(st, [], Fail)
    else if e.group.GroupBusy? then Out(st, [], Wait)
    else if vm.id in e.group.members then Out(st.(groupRef := e.group.id), [], Proceed)
    else if spec.controlPlane then JoinControlPlane(spec, e, st, vm, target)
    else AddToGroup(e, st, vm)
  }

  predicate Listable(spec: Spec, e: Answers, vm: VM, target: string) {
    Targets(spec, e, vm) != map[] ==> target in Targets(spec, e, vm)
  }

  // ---- The loops ----

  method HostsInPlacementGroup(vms: seq<VM>) returns (ids: set<string>)
    ensures ids == HostsOf(vms)
  {
    ids := {};
    for i := 0 to |vms|
      invariant ids == HostsOf(vms[..i])
    {
      ids := ids + {vms[i].host};
      assert vms[..i + 1] == vms[..i] + [vms[i]];
    }
    assert vms[..|vms|] == vms;
  }

  method CollectAvailableHosts(memory: int, hosts: HostSet, used: HostSet, vm: VM) returns (available: HostSet)
    requires Keyed(hosts)
    ensures available == AvailableHosts(memory, hosts, used, vm)
  {
    available := Filter(hosts, (h: Host) => IsAvailable(h, memory));
    available := Filter(available, (h: Host) => h.id !in used);
    if (vm.status.Running? || vm.status.Suspended?) && vm.host !in available {
      if vm.host in hosts {
        var host := hosts[vm.host];
        if IsAvailable(host, 0) && host.id !in used {
          available := available[host.id := host];
        }
      }
    }
  }

  method CollectRecordedHosts(machines: seq<Listed>, self: string, group: string) returns (recorded: set<string>)
    ensures recorded == RecordedHosts(machines, self, group)
  {
    recorded := {};
    for i := 0 to |machines|
      invariant recorded == RecordedHosts(machines[..i], self, group)
    {
      assert machines[..i + 1][..i] == machines[..i];
      if self != machines[i].name && machines[i].groupRef == group {
        recorded := recorded + {machines[i].hostRef};
      }
    }
    assert machines[..|machines|] == machines;
  }
}
