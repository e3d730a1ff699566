/** When an attempt to join a placement group adds its VM, and how every other attempt ends. */
module PlacementEndings {
  import opened Results
  import opened Tower
  import opened Hosts
  import opened PlacementGroup
  import opened PlacementMigration

  // ---- What the attempt finds out ----

  predicate Powered(vm: VM) {
    vm.status == Running || vm.status == Suspended
  }

  /** No member of the group is on the host, and the VM can run there; where it runs already, it needs no memory. */
  predicate FreeHost(spec: Spec, e: Answers, vm: VM, host: string) {
    && host in e.hosts && (forall m :: m in e.memberVMs ==> m.host != host)
    && (IsAvailable(e.hosts[host], spec.memory) || (host == vm.host && Powered(vm) && IsAvailable(e.hosts[host], 0)))
  }

  ghost predicate HostLeft(spec: Spec, e: Answers, vm: VM) {
    exists host :: FreeHost(spec, e, vm, host)
  }

  /** Every host a member is on could run this VM too. */
  predicate MemberHostsUsable(spec: Spec, e: Answers) {
    forall host :: host in e.hosts && (exists m :: m in e.memberVMs && m.host == host) ==>
      IsAvailable(e.hosts[host], spec.memory)
  }

  /** The ticket was granted and the group read, and the VM is not in it. */
  predicate Outside(e: Answers, vm: VM) {
    !e.nameError && e.ticket && e.group.Group? && vm.id !in e.group.members
  }

  /** The control plane path without a failure domain, with hosts and members read. */
  predicate PlacedByHost(spec: Spec, e: Answers, vm: VM) {
    Outside(e, vm) && spec.controlPlane && spec.failureDomain == "" && !e.hostsError && !e.membersError
  }

  /** Where the other machines matter, they are listed once each, and this machine with them. */
  predicate ListedOnce(spec: Spec, e: Answers, vm: VM) {
    PlacedByHost(spec, e, vm) && !e.listError ==> NamesUnique(e.machines) && Lists(e.machines, spec.name)
  }

  // ---- How an attempt may end ----

  /** The VM may be put into the group. */
  ghost predicate MayJoin(spec: Spec, e: Answers, vm: VM) {
    && Outside(e, vm)
    && (spec.controlPlane ==>
          && !e.hostsError && !e.membersError
          && (if spec.failureDomain != "" then vm.status != Stopped || HostLeft(spec, e, vm)
              else FreeHost(spec, e, vm, vm.host) || (vm.status == Stopped && HostLeft(spec, e, vm))))
  }

  /** The reconcile goes on with the VM outside the group: the group is full and the VM is up, or is the
      new one of a rolling update whose hosts can all run it; or the VM is up on a host it cannot join from
      and is not to be moved now. */
  ghost predicate StaysOutside(spec: Spec, e: Answers, vm: VM, target: string) {
    && PlacedByHost(spec, e, vm) && !MayJoin(spec, e, vm) && !e.kcpError
    && (if !HostLeft(spec, e, vm) then
          vm.status != Stopped || (InRollingUpdate(e.kcp) && MemberHostsUsable(spec, e))
        else
          InRollingUpdate(e.kcp) || (!e.listError && !ReadyToMove(spec, e, target)))
  }

  /** All other machines are members on hosts of their own, and the target is none of those. */
  predicate ReadyToMove(spec: Spec, e: Answers, target: string)
    requires e.group.Group?
  {
    && |e.machines| == e.kcp.replicas
    && OthersJoined(e.machines, spec.name, e.group.id) && OthersApart(e.machines, spec.name)
    && OthersElsewhere(e.machines, spec.name, target)
  }

  /** The VM is up off the group and is moved. */
  ghost predicate IsMoved(spec: Spec, e: Answers, vm: VM, target: string) {
    && PlacedByHost(spec, e, vm) && !MayJoin(spec, e, vm) && HostLeft(spec, e, vm)
    && !e.kcpError && !InRollingUpdate(e.kcp) && !e.listError && ReadyToMove(spec, e, target) && !e.migrateError
  }

  /** The attempt waits: for the ticket, for the group, for a host, or for the migration it asked for. */
  ghost predicate HasToWait(spec: Spec, e: Answers, vm: VM, target: string) {
    && !e.nameError
    && (|| !e.ticket
        || e.group.GroupBusy?
        || IsMoved(spec, e, vm, target)
        || (&& Outside(e, vm) && spec.controlPlane && !e.hostsError && !e.membersError
            && vm.status == Stopped && !HostLeft(spec, e, vm)
            && (spec.failureDomain != "" || (!e.kcpError && !(InRollingUpdate(e.kcp) && MemberHostsUsable(spec, e))))))
  }

  /** How an attempt ends, told from what it found out. */
  ghost predicate EndsAs(spec: Spec, e: Answers, st: Status, vm: VM, target: string, out: Out) {
    var member := !e.nameError && e.ticket && e.group.Group? && vm.id in e.group.members;
    var joined := MayJoin(spec, e, vm) && !e.updateError;
    && (out.calls == (if joined then [UpdateGroup(e.group.id, e.group.members + {vm.id})]
                      else if IsMoved(spec, e, vm, target) then [Migrate(vm.id, target)] else []))
    && out.status.hasTask == (st.hasTask || IsMoved(spec, e, vm, target))
    && out.status.groupRef == (if member || (joined && !e.taskError && !e.taskFailed) then e.group.id else st.groupRef)
    && (out.flow.Proceed? <==> member || (joined && !e.taskError && !e.taskFailed) || StaysOutside(spec, e, vm, target))
    && (out.flow.Wait? <==> HasToWait(spec, e, vm, target))
  }

  // ---- Proof ----

  lemma TargetsIff(spec: Spec, e: Answers, vm: VM, host: string)
    requires Keyed(e.hosts)
    ensures host in Targets(spec, e, vm) <==> FreeHost(spec, e, vm, host)
  {
    FindAndDifference(e.hosts, HostsOf(e.memberVMs));
  }

  lemma TargetsLeft(spec: Spec, e: Answers, vm: VM)
    requires Keyed(e.hosts)
    ensures Targets(spec, e, vm) != map[] <==> HostLeft(spec, e, vm)
  {
    hide Targets, FreeHost;
    if Targets(spec, e, vm) != map[] {
      var host :| host in Targets(spec, e, vm);
      TargetsIff(spec, e, vm, host);
    }
    if HostLeft(spec, e, vm) {
      var host :| FreeHost(spec, e, vm, host);
      TargetsIff(spec, e, vm, host);
    }
  }

  lemma UsableIff(spec: Spec, e: Answers)
    requires Keyed(e.hosts)
    ensures Where(UsedHosts(e), (h: Host) => !IsAvailable(h, spec.memory)) == map[] <==> MemberHostsUsable(spec, e)
  {
    var unusable := Where(UsedHosts(e), (h: Host) => !IsAvailable(h, spec.memory));
    FindAndDifference(e.hosts, HostsOf(e.memberVMs));
    if host :| host in e.hosts && (exists m :: m in e.memberVMs && m.host == host) && !IsAvailable(e.hosts[host], spec.memory) {
      assert host in unusable;
    }
  }

  lemma ReadyIff(spec: Spec, e: Answers, target: string)
    requires e.group.Group? && NamesUnique(e.machines) && Lists(e.machines, spec.name)
    ensures var recorded := RecordedHosts(e.machines, spec.name, e.group.id);
            ReadyToMove(spec, e, target) <==>
            |e.machines| == e.kcp.replicas && |recorded| >= e.kcp.replicas - 1 && target !in recorded
  {
    hide RecordedHosts;
    Pigeonhole(e.machines, spec.name, e.group.id);
    OthersWith(e.machines, spec.name);
    RecordedIff(e.machines, spec.name, e.group.id, target);
  }

  /** Every attempt ends as it should. */
  lemma JoinEnds(spec: Spec, e: Answers, st: Status, vm: VM, target: string)
    requires Keyed(e.hosts) && Listable(spec, e, vm, target) && ListedOnce(spec, e, vm)
    ensures EndsAs(spec, e, st, vm, target, Join(spec, e, st, vm, target))
  {
    hide Targets, UsedHosts, RecordedHosts, FreeHost, HostLeft, MemberHostsUsable, ReadyToMove, Where;
    TargetsLeft(spec, e, vm);
    TargetsIff(spec, e, vm, vm.host);
    UsableIff(spec, e);
    OwnHostIsLeft(spec, e, vm);
    if PlacedByHost(spec, e, vm) && !e.listError {
      ReadyIff(spec, e, target);
    }
  }

  lemma OwnHostIsLeft(spec: Spec, e: Answers, vm: VM)
    ensures FreeHost(spec, e, vm, vm.host) ==> HostLeft(spec, e, vm)
  {
  }

  // ---- Names said once ----

  /** A rolling update is on when some of the wanted replicas are old, or more than the wanted are there. */
  lemma RollingIff(kcp: ControlPlane)
    ensures InRollingUpdate(kcp) <==>
            && kcp.updatedReplicas <= kcp.replicas <= kcp.statusReplicas
            && !(kcp.updatedReplicas == kcp.replicas == kcp.statusReplicas)
  {
  }
}
