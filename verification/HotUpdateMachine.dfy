/** The machine object whose status the hot-update stages change in place. */
module HotUpdateMachine {
  import opened Results
  import opened HotUpdate
  import opened HotUpdateRuns

  class ElfMachine {
    var condition: Condition
    var network: seq<Nic>
    var hasTask: bool
    var resources: Resources
    ghost var calls: seq<Call>

    ghost function View(): Status
      reads this
    {
      Status(condition, network, hasTask, resources)
    }

    /** This call did what the stage says to the status, and made exactly the stage's calls. */
    twostate predicate Did(out: Out, flow: Flow)
      reads this
    {
      View() == out.status && calls == old(calls) + out.calls && flow == out.flow
    }

    constructor ()
      ensures View() == Status(Missing, [], false, Resources(0, 0, 0)) && calls == []
    {
      condition, network, hasTask, resources, calls := Missing, [], false, Resources(0, 0, 0), [];
    }

    method MarkFalse(reason: Reason)
      modifies this`condition
      ensures condition == False(reason)
    {
      condition := False(reason);
    }

    predicate HasReason(a: Reason, b: Reason)
      reads this
    {
      condition == False(a) || condition == False(b)
    }

    method ReconcileCompute(spec: Spec, e: Answers) returns (flow: Flow)
      modifies this
      ensures Did(Compute(spec, e, old(View())), flow)
    {
      resources := resources.(cpus := e.vm.cpus, memoryMiB := e.vm.memoryMiB);
      if !(spec.cpus > e.vm.cpus || spec.memoryMiB > e.vm.memoryMiB) {
        return Proceed;
      }
      if !HasReason(ExpandingCompute, ExpandingComputeFailed) {
        // The condition is saved before the resources are touched.
        MarkFalse(ExpandingCompute);
        return Wait;
      }
      if !e.memoryAllowed {
        MarkFalse(ExpandingCompute);
        return Wait;
      }
      if !e.ticket {
        return Wait;
      }
      if e.updateError {
        MarkFalse(ExpandingComputeFailed);
        return Fail;
      }
      calls := calls + [UpdateVM];
      hasTask := true;
      return Wait;
    }

    method ReconcileHostJob(e: Answers, name: JobName, macTypes: seq<MacType>, failed: Reason) returns (flow: Flow)
      modifies this
      ensures Did(HostJob(e, old(View()), name, macTypes, failed), flow)
    {
      if !e.nodeExists {
        return Wait;
      }
      if e.clientError || e.readJobError {
        MarkFalse(failed);
        return Fail;
      }
      if name !in e.jobs {
        if e.generateError {
          MarkFalse(failed);
          return Fail;
        }
        if !e.createError || e.createdAnyway {
          calls := calls + [CreateJob(name, macTypes)];
        }
        if e.createError {
          MarkFalse(failed);
          return Fail;
        }
        return Wait;
      }
      match e.jobs[name]
      case Succeeded =>
        calls := calls + [SawSuccess(name)];
        return Proceed;
      case Failed =>
        MarkFalse(failed);
        if e.retryDue {
          if e.deleteError {
            return Fail;
          }
          calls := calls + [DeleteJob(name)];
        }
        return Wait;
      case Pending =>
        return Wait;
    }

    method RestartKubelet(spec: Spec, e: Answers) returns (flow: Flow)
      modifies this
      ensures Did(Kubelet(spec, e, old(View())), flow)
    {
      if !HasReason(ExpandingCompute, ExpandingComputeFailed) && !HasReason(RestartingKubelet, RestartingKubeletFailed) {
        return Proceed;
      }
      if condition != False(RestartingKubeletFailed) {
        MarkFalse(RestartingKubelet);
      }
      flow := ReconcileHostJob(e, KubeletName(spec), [], RestartingKubeletFailed);
    }

    method ReconcileVolume(spec: Spec, e: Answers) returns (flow: Flow)
      modifies this
      ensures Did(Volume(spec, e, old(View())), flow)
    {
      if spec.diskGiB == 0 {
        return Proceed;
      }
      if e.volumeError {
        return Fail;
      }
      resources := resources.(diskGiB := e.vm.diskGiB);
      if spec.diskGiB <= e.vm.diskGiB {
        return Proceed;
      }
      if !HasReason(ExpandingDisk, ExpandingDiskFailed) {
        MarkFalse(ExpandingDisk);
        return Wait;
      }
      if !e.storageAllowed {
        MarkFalse(ExpandingDisk);
        return Wait;
      }
      if e.vm.volumeBusy {
        return Wait;
      }
      if e.resizeError {
        MarkFalse(ExpandingDiskFailed);
        return Fail;
      }
      calls := calls + [ResizeVolume(spec.diskGiB)];
      hasTask := true;
      return Wait;
    }

    method ExpandRootPartition(spec: Spec, e: Answers) returns (flow: Flow)
      modifies this
      ensures Did(Partition(spec, e, old(View())), flow)
    {
      if !HasReason(ExpandingDisk, ExpandingDiskFailed)
         && !HasReason(ExpandingRootPartition, ExpandingRootPartitionFailed) {
        return Proceed;
      }
      if condition != False(ExpandingRootPartitionFailed) {
        MarkFalse(ExpandingRootPartition);
      }
      flow := ReconcileHostJob(e, PartitionJob(spec.diskGiB), [], ExpandingRootPartitionFailed);
    }

    method ReconcileNics(spec: Spec, e: Answers) returns (flow: Flow)
      modifies this
      ensures Did(GrowNics(spec, e, old(View())), flow)
    {
      if |spec.devices| <= |e.vm.nics| {
        return Proceed;
      }
      if |network| != |e.vm.nics| {
        network := [];
        for i := 0 to |e.vm.nics|
          invariant network == e.vm.nics[..i]
          invariant condition == old(condition) && hasTask == old(hasTask) && resources == old(resources)
          invariant calls == old(calls)
        {
          network := network + [e.vm.nics[i]];
        }
        assert e.vm.nics[..|e.vm.nics|] == e.vm.nics;
      }
      if !HasReason(AddingNic, AddingNicFailed) {
        MarkFalse(AddingNic);
        return Wait;
      }
      if e.vlanError {
        return Fail;
      }
      if e.addNicsError {
        MarkFalse(AddingNicFailed);
        return Fail;
      }
      calls := calls + [AddNics(|e.vm.nics|, |spec.devices| - |e.vm.nics|)];
      if condition == False(AddingNicFailed) {
        MarkFalse(AddingNic);
      }
      hasTask := true;
      return Wait;
    }

    /** The MACs and network types of the NICs still to be configured, or the index of one without a MAC. */
    method CollectMacTypes(spec: Spec, nics: seq<Nic>, toConfigure: nat) returns (macTypes: seq<MacType>, missing: bool)
      requires 1 <= |spec.devices| == |nics| && 1 <= toConfigure < |nics|
      ensures missing <==> !HasAllMacs(nics, |nics| - toConfigure)
      ensures !missing ==> macTypes == Pairs(spec, nics, |nics| - toConfigure, |nics|)
    {
      macTypes := [];
      var rest, devices := nics[1..], spec.devices[1..];
      var i := |rest| - toConfigure;
      ghost var from := |nics| - toConfigure;
      while i >= 0 && i < |rest|
        invariant from - 1 <= i <= |rest|
        invariant forall k :: from <= k < i + 1 ==> nics[k].mac != ""
        invariant macTypes == Pairs(spec, nics, from, i + 1)
        decreases |rest| - i
      {
        if rest[i].mac == "" {
          assert nics[i + 1].mac == "";
          return macTypes, true;
        }
        macTypes := macTypes + [MacType(rest[i].mac, devices[i])];
        i := i + 1;
      }
      return macTypes, false;
    }

    method SetNicConfig(spec: Spec, e: Answers) returns (flow: Flow)
      requires NicsMet(spec, e.vm) && e.vm.nics != []
      modifies this
      ensures Did(ConfigureNics(spec, e, old(View())), flow)
    {
      hide HostJob;
      if !HasReason(AddingNic, AddingNicFailed) && !HasReason(SettingNicConfig, SettingNicConfigFailed)
         && condition != False(WaitingForMac) {
        return Proceed;
      }
      var deviceCount := |spec.devices| - 1;
      var networkCount := |network|;
      if networkCount > 0 {
        networkCount := networkCount - 1;
      }
      var toConfigure := deviceCount - networkCount;
      if toConfigure <= 0 {
        return Proceed;
      }
      if deviceCount != |e.vm.nics| - 1 {
        MarkFalse(SettingNicConfigFailed);
        return Wait;
      }
      var macTypes, missing := CollectMacTypes(spec, e.vm.nics, toConfigure);
      assert |e.vm.nics| - toConfigure == FirstNew(View());
      if missing {
        MarkFalse(WaitingForMac);
        return Wait;
      }
      if condition != False(SettingNicConfigFailed) {
        MarkFalse(SettingNicConfig);
      }
      flow := ReconcileHostJob(e, NicJob(macTypes[|macTypes| - 1].mac), macTypes, SettingNicConfigFailed);
    }

    method AwaitNicAddresses(spec: Spec, e: Answers) returns (flow: Flow)
      requires NicsMet(spec, e.vm)
      modifies this
      ensures Did(AwaitAddresses(spec, e, old(View())), flow)
      ensures if StageIn(old(condition)) >= 5 && !Addressed(spec, e.vm)
              then flow.Wait? && condition == False(WaitingForAddresses) else flow.Proceed? && condition == old(condition)
    {
      AwaitEffect(spec, e, View());
      if !NetworkStage(condition) {
        return Proceed;
      }
      for i := 0 to |spec.devices|
        invariant View() == old(View()) && calls == old(calls)
        invariant forall j :: 0 <= j < i && !spec.devices[j].NoNetwork? ==> e.vm.nics[j].ip != ""
      {
        if spec.devices[i].NoNetwork? {
          continue;
        }
        if e.vm.nics[i].ip == "" {
          MarkFalse(WaitingForAddresses);
          return Wait;
        }
      }
      return Proceed;
    }

    method ReconcileNetwork(spec: Spec, e: Answers) returns (flow: Flow)
      modifies this
      ensures Did(Network(spec, e, old(View())), flow)
    {
      if e.nicsError {
        return Fail;
      }
      if e.vm.nics == [] {
        return Wait;
      }
      flow := ReconcileNics(spec, e);
      if flow != Proceed {
        return;
      }
      flow := SetNicConfig(spec, e);
      if flow != Proceed {
        return;
      }
      flow := AwaitNicAddresses(spec, e);
    }

    method ReconcileComputeStages(spec: Spec, e: Answers) returns (flow: Flow)
      modifies this
      ensures Did(ComputeStages(spec, e, old(View())), flow)
    {
      flow := ReconcileCompute(spec, e);
      if flow != Proceed {
        return;
      }
      flow := RestartKubelet(spec, e);
    }

    method ReconcileDiskStages(spec: Spec, e: Answers) returns (flow: Flow)
      modifies this
      ensures Did(DiskStages(spec, e, old(View())), flow)
    {
      flow := ReconcileVolume(spec, e);
      if flow != Proceed {
        return;
      }
      flow := ExpandRootPartition(spec, e);
    }

    /** One pass over all stages: it never falls back a stage, calls at most once and only for what its
        saved reason names and its VM lacks, leaves a stage only on seeing its job succeed, and ends in
        success only with everything there. */
    method ReconcileResources(spec: Spec, e: Answers) returns (flow: Flow)
      modifies this
      ensures Did(Reconciled(spec, e, old(View())), flow)
      ensures old(calls) <= calls && Gated(old(condition), calls[|old(calls)|..])
      ensures StageEarned(spec, e.vm, old(condition)) ==>
                GoodPass(spec, e, old(condition), Out(View(), calls[|old(calls)|..], flow))
      ensures flow.Fail? && !e.volumeError && !e.nicsError && !e.vlanError ==> FailedForm(condition)
      ensures AllAllowed(spec, e, calls[|old(calls)|..]) && Observes(spec, e.vm, Out(View(), calls[|old(calls)|..], flow))
    {
      hide Reconciled, GoodPass, Gated, StageEarned, AllAllowed, Observes, FailedForm;
      flow := ReconcileStages(spec, e);
      PassIsGated(spec, e, old(View()));
      PassIsAllowed(spec, e, old(View()));
      PassObserves(spec, e, old(View()));
      PassMarks(spec, e, old(View()));
      if StageEarned(spec, e.vm, old(condition)) {
        PassIsGood(spec, e, old(View()));
      }
      assert calls[|old(calls)|..] == Reconciled(spec, e, old(View())).calls;
    }

    method ReconcileStages(spec: Spec, e: Answers) returns (flow: Flow)
      modifies this
      ensures Did(Reconciled(spec, e, old(View())), flow)
    {
      hide ComputeStages, DiskStages, Network;
      flow := ReconcileComputeStages(spec, e);
      if flow != Proceed {
        return;
      }
      flow := ReconcileDiskStages(spec, e);
      if flow != Proceed {
        return;
      }
      flow := ReconcileNetwork(spec, e);
      if flow != Proceed {
        return;
      }
      if condition.False? {
        condition := True;
      }
    }
  }
}
