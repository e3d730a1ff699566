/** The machine object whose status joining a placement group changes in place. */
module PlacementMachine {
  import opened Results
  import opened Hosts
  import opened PlacementGroup
  import opened PlacementMigration
  import opened PlacementEndings

  class ElfMachine {
    var groupRef: string
    var hasTask: bool
    ghost var calls: seq<Call>

    ghost function View(): Status
      reads this
    {
      Status(groupRef, hasTask)
    }

    twostate predicate Did(out: Out, flow: Flow)
      reads this
    {
      View() == out.status && calls == old(calls) + out.calls && flow == out.flow
    }

    constructor ()
      ensures View() == Status("", false) && calls == []
    {
      groupRef, hasTask, calls := "", false, [];
    }

    method MigrateVM(e: Answers, vm: VM, target: string) returns (flow: Flow)
      modifies this
      ensures Did(Move(e, old(View()), vm, target), flow)
    {
      if vm.host == target {
        return Proceed;
      }
      if e.migrateError {
        return Fail;
      }
      calls := calls + [Migrate(vm.id, target)];
      hasTask := true;
      return Wait;
    }

    method AddVMsToPlacementGroup(e: Answers, ids: set<string>) returns (flow: Flow)
      requires e.group.Group?
      modifies this
      ensures forall vm: VM :: ids == e.group.members + {vm.id} ==> Did(AddToGroup(e, old(View()), vm), flow)
    {
      if e.updateError {
        return Fail;
      }
      calls := calls + [UpdateGroup(e.group.id, ids)];
      if e.taskError || e.taskFailed {
        return Fail;
      }
      groupRef := e.group.id;
      return Proceed;
    }

    method RelocateVM(spec: Spec, e: Answers, vm: VM, available: HostSet) returns (flow: Flow, ghost target: string)
      requires e.group.Group? && available != map[]
      modifies this
      ensures target in available && Did(Relocate(spec, e, old(View()), vm, target), flow)
    {
      target :| target in available;
      if e.kcpError {
        return Fail, target;
      }
      if InRollingUpdate(e.kcp) {
        return Proceed, target;
      }
      if e.listError {
        return Fail, target;
      }
      var recorded := CollectRecordedHosts(e.machines, spec.name, e.group.id);
      if |e.machines| != e.kcp.replicas {
        return Proceed, target;
      }
      var first :| first in available;
      target := first;
      if |recorded| < e.kcp.replicas - 1 {
        return Proceed, target;
      }
      if first in recorded {
        return Proceed, target;
      }
      flow := MigrateVM(e, vm, first);
    }

    /** One attempt to join. It sends nothing, one migration of its own VM, or the members and its VM. On
        the control plane path a VM that is up is added only from a host no member is on, and is moved
        only where all replicas end up on distinct hosts; and it ends as what it found out says. */
    method JoinPlacementGroup(spec: Spec, e: Answers, vm: VM) returns (flow: Flow, ghost target: string)
      requires Keyed(e.hosts)
      modifies this
      ensures Listable(spec, e, vm, target) && Did(Join(spec, e, old(View()), vm, target), flow)
      ensures old(calls) <= calls && OwnCalls(e, vm, target, calls[|old(calls)|..])
      ensures spec.controlPlane && spec.failureDomain == "" ==> JoinsFree(e, vm, calls[|old(calls)|..])
      ensures NamesUnique(e.machines) && Lists(e.machines, spec.name) ==> MovesApart(spec, e, vm, calls[|old(calls)|..])
      ensures ListedOnce(spec, e, vm) ==>
                EndsAs(spec, e, old(View()), vm, target, Out(View(), calls[|old(calls)|..], flow))
    {
      hide Join, OwnCalls, JoinsFree, MovesApart, EndsAs, ListedOnce;
      flow, target := TryToJoin(spec, e, vm);
      var st := old(View());
      assert calls[|old(calls)|..] == Join(spec, e, st, vm, target).calls;
      JoinCalls(spec, e, st, vm, target);
      if ListedOnce(spec, e, vm) {
        JoinEnds(spec, e, st, vm, target);
      }
      if spec.controlPlane && spec.failureDomain == "" {
        JoinIsFree(spec, e, st, vm, target);
      }
      if NamesUnique(e.machines) && Lists(e.machines, spec.name) {
        JoinMovesApart(spec, e, st, vm, target);
      }
    }

    method TryToJoin(spec: Spec, e: Answers, vm: VM) returns (flow: Flow, ghost target: string)
      requires Keyed(e.hosts)
      modifies this
      ensures Listable(spec, e, vm, target) && Did(Join(spec, e, old(View()), vm, target), flow)
    {
      hide AddToGroup, Relocate;
      target := if Targets(spec, e, vm) == map[] then "" else (var id :| id in Targets(spec, e, vm); id);
      if e.nameError {
        return Fail, target;
      }
      if !e.ticket {
        return Wait, target;
      }
      if e.group.GroupError? {
        return Fail, target;
      }
      if e.group.GroupBusy? {
        return Wait, target;
      }
      if vm.id in e.group.members {
        groupRef := e.group.id;
        return Proceed, target;
      }
      if spec.controlPlane {
        if e.hostsError {
          return Fail, target;
        }
        if e.membersError {
          return Fail, target;
        }
        var usedIds := HostsInPlacementGroup(e.memberVMs);
        var used := Filter(e.hosts, (h: Host) => h.id in usedIds);
        var available := CollectAvailableHosts(spec.memory, e.hosts, used, vm);
        if spec.failureDomain != "" {
          if available == map[] && vm.status.Stopped? {
            return Wait, target;
          }
        } else {
          if available == map[] {
            if e.kcpError {
              return Fail, target;
            }
            if InRollingUpdate(e.kcp) && vm.status.Stopped? {
              var unusable := Filter(used, (h: Host) => !IsAvailable(h, spec.memory));
              return if unusable == map[] then Proceed else Wait, target;
            }
            return if vm.status.Stopped? then Wait else Proceed, target;
          }
          if vm.host !in available && !vm.status.Stopped? {
            flow, target := RelocateVM(spec, e, vm, available);
            return;
          }
        }
      }
      flow := AddVMsToPlacementGroup(e, e.group.members + {vm.id});
    }
  }
}
