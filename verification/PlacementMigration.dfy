/** Why a control plane VM is only migrated when every other one has its own host in the group. */
module PlacementMigration {
  import opened Results
  import opened Hosts
  import opened PlacementGroup

  predicate NamesUnique(machines: seq<Listed>) {
    forall i, j :: 0 <= i < j < |machines| ==> machines[i].name != machines[j].name
  }

  predicate Lists(machines: seq<Listed>, self: string) {
    exists i :: 0 <= i < |machines| && machines[i].name == self
  }

  predicate OthersJoined(machines: seq<Listed>, self: string, group: string) {
    forall i :: 0 <= i < |machines| && machines[i].name != self ==> machines[i].groupRef == group
  }

  predicate OthersApart(machines: seq<Listed>, self: string) {
    forall i, j :: 0 <= i < j < |machines| && machines[i].name != self && machines[j].name != self ==>
      machines[i].hostRef != machines[j].hostRef
  }

  predicate OthersElsewhere(machines: seq<Listed>, self: string, host: string) {
    forall i :: 0 <= i < |machines| && machines[i].name != self ==> machines[i].hostRef != host
  }

  function CountOthers(machines: seq<Listed>, self: string): nat {
    if machines == [] then 0
    else
      CountOthers(machines[..|machines| - 1], self) + if machines[|machines| - 1].name != self then 1 else 0
  }

  lemma {:induction false} OthersWithout(machines: seq<Listed>, self: string)
    requires !Lists(machines, self)
    ensures CountOthers(machines, self) == |machines|
  {
    if machines != [] {
      OthersWithout(machines[..|machines| - 1], self);
    }
  }

  lemma {:induction false} OthersWith(machines: seq<Listed>, self: string)
    requires NamesUnique(machines) && Lists(machines, self)
    ensures CountOthers(machines, self) == |machines| - 1
  {
    var n := |machines| - 1;
    if machines[n].name == self {
      OthersWithout(machines[..n], self);
    } else {
      var i :| 0 <= i < |machines| && machines[i].name == self;
      assert machines[..n][i].name == self;
      OthersWith(machines[..n], self);
    }
  }

  lemma {:induction false} RecordedIff(machines: seq<Listed>, self: string, group: string, host: string)
    ensures host in RecordedHosts(machines, self, group) <==>
            exists i :: 0 <= i < |machines| && machines[i].name != self && machines[i].groupRef == group
                        && machines[i].hostRef == host
  {
    if machines != [] {
      var n := |machines| - 1;
      RecordedIff(machines[..n], self, group, host);
      if i :| 0 <= i < n && machines[i].name != self && machines[i].groupRef == group && machines[i].hostRef == host {
        assert machines[..n][i] == machines[i];
      }
    }
  }

  /** The hosts recorded are as many as the other machines exactly when all of those are members, each
      on a host of its own. */
  lemma {:induction false} Pigeonhole(machines: seq<Listed>, self: string, group: string)
    ensures var recorded, others := |RecordedHosts(machines, self, group)|, CountOthers(machines, self);
            && recorded <= others
            && (recorded == others <==> OthersJoined(machines, self, group) && OthersApart(machines, self))
  {
    if machines != [] {
      var n := |machines| - 1;
      var rest, last := machines[..n], machines[n];
      Pigeonhole(rest, self, group);
      RecordedIff(rest, self, group, last.hostRef);
      assert machines == rest + [last];
    }
  }

  /** The listing after the machine has been moved to the target. */
  function Moved(machines: seq<Listed>, self: string, host: string): seq<Listed> {
    seq(|machines|, i requires 0 <= i < |machines| =>
      if machines[i].name == self then machines[i].(hostRef := host) else machines[i])
  }

  predicate AllApart(machines: seq<Listed>) {
    forall i, j :: 0 <= i < j < |machines| ==> machines[i].hostRef != machines[j].hostRef
  }

  predicate UpOffTheGroup(spec: Spec, e: Answers, vm: VM) {
    && !e.nameError && e.ticket && e.group.Group? && vm.id !in e.group.members
    && spec.controlPlane && spec.failureDomain == "" && !e.hostsError && !e.membersError
    && vm.host !in Targets(spec, e, vm) && Targets(spec, e, vm) != map[] && !vm.status.Stopped?
  }

  /** A virtual machine is migrated exactly when it is up on a host that it cannot join the group from, no
      rolling update is on, every other control plane machine is a member on a host of its own, and the
      target is none of those hosts. */
  lemma MigratesIff(spec: Spec, e: Answers, st: Status, vm: VM, target: string)
    requires Listable(spec, e, vm, target) && NamesUnique(e.machines) && Lists(e.machines, spec.name)
    ensures Join(spec, e, st, vm, target).calls == [Migrate(vm.id, target)] <==>
            && UpOffTheGroup(spec, e, vm) && !e.kcpError && !e.listError && !e.migrateError
            && !InRollingUpdate(e.kcp) && |e.machines| == e.kcp.replicas
            && OthersJoined(e.machines, spec.name, e.group.id) && OthersApart(e.machines, spec.name)
            && OthersElsewhere(e.machines, spec.name, target)
  {
    hide Targets, RecordedHosts, UsedHosts;
    if e.group.Group? {
      Pigeonhole(e.machines, spec.name, e.group.id);
      OthersWith(e.machines, spec.name);
      RecordedIff(e.machines, spec.name, e.group.id, target);
    }
  }

  /** Whatever is migrated, it goes where the listing's replicas end up on pairwise distinct hosts, to a host
      that is not the one it is on, that is available, and that no member of the group is on. */
  lemma MigrationSeparates(spec: Spec, e: Answers, st: Status, vm: VM, target: string, id: string, host: string)
    requires Listable(spec, e, vm, target) && NamesUnique(e.machines) && Lists(e.machines, spec.name) && Keyed(e.hosts)
    requires Migrate(id, host) in Join(spec, e, st, vm, target).calls
    ensures id == vm.id && host != vm.host && host !in HostsOf(e.memberVMs)
    ensures host in e.hosts && IsAvailable(e.hosts[host], spec.memory)
    ensures AllApart(Moved(e.machines, spec.name, host))
  {
    hide RecordedHosts;
    MigratesIff(spec, e, st, vm, target);
    assert Join(spec, e, st, vm, target).calls == [Migrate(vm.id, target)];
    AvailableIsFree(spec, e, vm, target);
  }

  /** No member of the group is on an available host. */
  lemma AvailableIsFree(spec: Spec, e: Answers, vm: VM, host: string)
    requires Keyed(e.hosts) && host in Targets(spec, e, vm)
    ensures host !in HostsOf(e.memberVMs) && host in e.hosts
    ensures host != vm.host ==> IsAvailable(e.hosts[host], spec.memory)
  {
  }

  // ---- What one attempt may do ----

  /** Nothing, one migration of its own VM, or the old members and its own VM sent to Tower. */
  predicate OwnCalls(e: Answers, vm: VM, target: string, calls: seq<Call>) {
    || calls == []
    || calls == [Migrate(vm.id, target)]
    || (e.group.Group? && vm.id !in e.group.members && calls == [UpdateGroup(e.group.id, e.group.members + {vm.id})])
  }

  lemma JoinCalls(spec: Spec, e: Answers, st: Status, vm: VM, target: string)
    ensures OwnCalls(e, vm, target, Join(spec, e, st, vm, target).calls)
  {
    hide Targets, UsedHosts, RecordedHosts;
  }

  /** A VM that is up is added to the group only from a host no member is on. */
  predicate JoinsFree(e: Answers, vm: VM, calls: seq<Call>) {
    calls != [] && calls[0].UpdateGroup? && !vm.status.Stopped? ==> vm.host !in HostsOf(e.memberVMs)
  }

  lemma JoinIsFree(spec: Spec, e: Answers, st: Status, vm: VM, target: string)
    requires spec.controlPlane && spec.failureDomain == "" && Keyed(e.hosts)
    ensures JoinsFree(e, vm, Join(spec, e, st, vm, target).calls)
  {
    hide Targets, UsedHosts, RecordedHosts;
    if vm.host in Targets(spec, e, vm) {
      AvailableIsFree(spec, e, vm, vm.host);
    }
  }

  /** A migration goes to another host, which no member is on, and leaves all replicas on distinct hosts. */
  predicate MovesApart(spec: Spec, e: Answers, vm: VM, calls: seq<Call>) {
    forall c :: c in calls && c.Migrate? ==>
      && c.vm == vm.id && c.host != vm.host && c.host !in HostsOf(e.memberVMs)
      && AllApart(Moved(e.machines, spec.name, c.host))
  }

  lemma JoinMovesApart(spec: Spec, e: Answers, st: Status, vm: VM, target: string)
    requires Listable(spec, e, vm, target) && NamesUnique(e.machines) && Lists(e.machines, spec.name) && Keyed(e.hosts)
    ensures MovesApart(spec, e, vm, Join(spec, e, st, vm, target).calls)
  {
    hide Join;
    forall c | c in Join(spec, e, st, vm, target).calls && c.Migrate?
      ensures c.vm == vm.id && c.host != vm.host && c.host !in HostsOf(e.memberVMs)
      ensures AllApart(Moved(e.machines, spec.name, c.host))
    {
      MigrationSeparates(spec, e, st, vm, target, c.vm, c.host);
    }
  }
}
