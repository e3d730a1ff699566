/** Whole runs of hot updates for one machine: reconciles, Tower finishing work, and jobs moving on. */
module HotUpdateRuns {
  import opened Results
  import opened HotUpdate

  // ---- One reconcile, from the saved status ----

  datatype FailedTask = NotFailed | VolumeTask | EditTask | OtherTask

  /** What happens before the resource stages: the machine's own task is looked at first, and the
      earlier stages of the reconcile may stop it, perhaps leaving a task of their own. What comes after
      the resource stages, when they are passed, may record the NICs anew. */
  datatype Entry = Entry(taskRunning: bool, failed: FailedTask, reached: bool, otherTask: bool, network: Option<seq<Nic>>)

  function AfterTask(st: Status, failed: FailedTask): Status {
    var ended := st.(hasTask := false);
    if failed.VolumeTask? && Is(st, ExpandingDisk, ExpandingDiskFailed) then Mark(ended, ExpandingDiskFailed)
    else if failed.EditTask? && Is(st, ExpandingCompute, ExpandingComputeFailed) then Mark(ended, ExpandingComputeFailed)
    else ended
  }

  function Recorded(out: Out, network: Option<seq<Nic>>): Out {
    if out.flow.Proceed? && network.Some? then out.(status := out.status.(network := network.value)) else out
  }

  function Turn(spec: Spec, e: Answers, entry: Entry, st: Status): Out {
    if st.hasTask && entry.taskRunning then Out(st, [], Wait)
    else
      var ready := if st.hasTask then AfterTask(st, entry.failed) else st;
      if entry.reached then Recorded(Reconciled(spec, e, ready), entry.network)
      else Out(ready.(hasTask := entry.otherTask), [], Wait)
  }

  // ---- Runs ----

  datatype World = World(vm: VM, jobs: Jobs, saved: Status, log: seq<Call>)

  /** `patched` is false when the reconcile's status could not be saved. */
  datatype Step =
    | Reconcile(e: Answers, entry: Entry, patched: bool)
    | TowerChange(vm: VM)
    | JobsChange(jobs: Jobs)

  predicate Grown(vm: VM, vm': VM) {
    vm.cpus <= vm'.cpus && vm.memoryMiB <= vm'.memoryMiB && vm.diskGiB <= vm'.diskGiB && |vm.nics| <= |vm'.nics|
  }

  function ApplyCall(jobs: Jobs, c: Call): Jobs {
    if c.CreateJob? then jobs[c.name := Pending] else if c.DeleteJob? then jobs - {c.name} else jobs
  }

  function Apply(jobs: Jobs, calls: seq<Call>): Jobs {
    if calls == [] then jobs else ApplyCall(Apply(jobs, calls[..|calls| - 1]), calls[|calls| - 1])
  }

  /** The specification is fixed, the virtual machine never shrinks, and only reconciles create jobs. */
  predicate Next(spec: Spec, w: World, step: Step, w': World) {
    match step
    case Reconcile(e, entry, patched) =>
      && e.vm == w.vm && e.jobs == w.jobs
      && (var out := Turn(spec, e, entry, w.saved);
          w' == World(w.vm, Apply(w.jobs, out.calls), if patched then out.status else w.saved, w.log + out.calls))
    case TowerChange(vm) => Grown(w.vm, vm) && w' == w.(vm := vm)
    case JobsChange(jobs) => jobs.Keys <= w.jobs.Keys && w' == w.(jobs := jobs)
  }

  /** An update starts from a clear condition, with no job of this specification's names left behind. */
  predicate Start(spec: Spec, w: World) {
    !w.saved.condition.False? && w.log == [] && KubeletName(spec) !in w.jobs && PartitionJob(spec.diskGiB) !in w.jobs
  }

  predicate Run(spec: Spec, worlds: seq<World>, steps: seq<Step>) {
    && |worlds| == |steps| + 1 && Start(spec, worlds[0])
    && forall i :: 0 <= i < |steps| ==> Next(spec, worlds[i], steps[i], worlds[i + 1])
  }

  // ---- Stages ----

  function StageOf(reason: Reason): nat {
    match reason
    case ExpandingCompute => 1 case ExpandingComputeFailed => 1
    case RestartingKubelet => 2 case RestartingKubeletFailed => 2
    case ExpandingDisk => 3 case ExpandingDiskFailed => 3
    case ExpandingRootPartition => 4 case ExpandingRootPartitionFailed => 4
    case AddingNic => 5 case AddingNicFailed => 5
    case WaitingForMac => 6 case SettingNicConfig => 6 case SettingNicConfigFailed => 6
    case WaitingForAddresses => 7
  }

  function StageIn(c: Condition): nat {
    if c.False? then StageOf(c.reason) else 0
  }

  predicate AllMet(spec: Spec, vm: VM) {
    ComputeMet(spec, vm) && DiskMet(spec, vm) && NicsMet(spec, vm)
  }

  /** A clear condition ranks lowest while something is still wanted, and highest once nothing is. */
  function Rank(spec: Spec, vm: VM, c: Condition): nat {
    if c.False? then StageOf(c.reason) else if AllMet(spec, vm) then 8 else 0
  }

  /** A later stage is only ever entered when the earlier resources are there. */
  predicate StageEarned(spec: Spec, vm: VM, c: Condition) {
    && (StageIn(c) >= 2 ==> ComputeMet(spec, vm))
    && (StageIn(c) >= 4 ==> DiskMet(spec, vm))
    && (StageIn(c) >= 6 ==> NicsMet(spec, vm))
  }

  // ---- What each stage does to the stage number, and which call it makes ----

  lemma HostJobEffect(e: Answers, st: Status, name: JobName, macTypes: seq<MacType>, failed: Reason)
    ensures var out := HostJob(e, st, name, macTypes, failed);
            && (out.status == st || out.status == Mark(st, failed))
            && (out.calls == [] || (name !in e.jobs && out.calls == [CreateJob(name, macTypes)])
                || out.calls == [DeleteJob(name)] || out.calls == [SawSuccess(name)])
            && (out.flow.Proceed? <==> out.calls == [SawSuccess(name)])
            && (out.flow.Proceed? ==> out.status == st && name in e.jobs)
  {
  }

  lemma ComputeEffect(spec: Spec, e: Answers, st: Status)
    ensures var out := Compute(spec, e, st);
            && (out.flow.Proceed? <==> ComputeMet(spec, e.vm))
            && (out.flow.Proceed? ==> out.calls == [] && out.status.condition == st.condition
                                      && out.status.network == st.network)
            && (!out.flow.Proceed? ==> StageIn(out.status.condition) == 1 && out.status.network == st.network)
            && (out.calls == [] || (out.calls == [UpdateVM] && StageIn(st.condition) == 1))
  {
  }

  lemma KubeletEffect(spec: Spec, e: Answers, st: Status)
    ensures var out := Kubelet(spec, e, st); var stage := StageIn(st.condition); var name := KubeletName(spec);
            && out.status.network == st.network
            && (stage != 1 && stage != 2 ==> out == Out(st, [], Proceed))
            && (stage == 1 || stage == 2 ==>
                  && StageIn(out.status.condition) == 2
                  && (out.flow.Proceed? <==> out.calls == [SawSuccess(name)])
                  && (out.flow.Proceed? ==> name in e.jobs)
                  && (out.calls == [] || (name !in e.jobs && out.calls == [CreateJob(name, [])])
                      || out.calls == [DeleteJob(name)] || out.calls == [SawSuccess(name)]))
  {
    var marked := if st.condition == False(RestartingKubeletFailed) then st else Mark(st, RestartingKubelet);
    HostJobEffect(e, marked, KubeletName(spec), [], RestartingKubeletFailed);
  }

  lemma VolumeEffect(spec: Spec, e: Answers, st: Status)
    ensures var out := Volume(spec, e, st);
            && out.status.network == st.network
            && (out.flow.Proceed? ==> out.calls == [] && out.status.condition == st.condition && DiskMet(spec, e.vm))
            && (!out.flow.Proceed? ==> out.status.condition == st.condition || StageIn(out.status.condition) == 3)
            && (!out.flow.Proceed? && StageIn(out.status.condition) != 3 ==> out.flow.Fail?)
            && (out.calls == [] || (out.calls == [ResizeVolume(spec.diskGiB)] && StageIn(st.condition) == 3
                                    && !DiskMet(spec, e.vm) && StageIn(out.status.condition) == 3))
            && (DiskMet(spec, e.vm) ==> out.calls == [] && out.status.condition == st.condition)
  {
  }

  lemma PartitionEffect(spec: Spec, e: Answers, st: Status)
    ensures var out := Partition(spec, e, st); var stage := StageIn(st.condition);
            var name := PartitionJob(spec.diskGiB);
            && out.status.network == st.network
            && (stage != 3 && stage != 4 ==> out == Out(st, [], Proceed))
            && (stage == 3 || stage == 4 ==>
                  && StageIn(out.status.condition) == 4
                  && (out.flow.Proceed? <==> out.calls == [SawSuccess(name)])
                  && (out.flow.Proceed? ==> name in e.jobs)
                  && (out.calls == [] || (name !in e.jobs && out.calls == [CreateJob(name, [])])
                      || out.calls == [DeleteJob(name)] || out.calls == [SawSuccess(name)]))
  {
    var marked := if st.condition == False(ExpandingRootPartitionFailed) then st else Mark(st, ExpandingRootPartition);
    HostJobEffect(e, marked, PartitionJob(spec.diskGiB), [], ExpandingRootPartitionFailed);
  }

  /** Calls of the network stages: NICs are added, or a NIC job is made, deleted or seen to succeed. */
  predicate NetworkCall(c: Call) {
    c.AddNics? || (c.CreateJob? && c.name.NicJob?) || (c.DeleteJob? && c.name.NicJob?) || (c.SawSuccess? && c.name.NicJob?)
  }

  lemma ConfigureEffect(spec: Spec, e: Answers, st: Status)
    ensures var out := ConfigureNics(spec, e, st); var stage := StageIn(st.condition);
            && out.status.network == st.network
            && (stage != 5 && stage != 6 ==> out == Out(st, [], Proceed))
            && (stage == 5 || stage == 6 ==> 5 <= StageIn(out.status.condition) <= 6)
            && (!out.flow.Proceed? ==> StageIn(out.status.condition) == 6)
            && (stage == 6 ==> StageIn(out.status.condition) == 6)
            && (out.calls == [] || (|out.calls| == 1 && NetworkCall(out.calls[0]) && !out.calls[0].AddNics? && 5 <= stage <= 6))
  {
    if StageIn(st.condition) == 5 || StageIn(st.condition) == 6 {
      if FirstNew(st) < |spec.devices| == |e.vm.nics| && HasAllMacs(e.vm.nics, FirstNew(st)) {
        var marked := if st.condition == False(SettingNicConfigFailed) then st else Mark(st, SettingNicConfig);
        HostJobEffect(e, marked, NicJob(e.vm.nics[|e.vm.nics| - 1].mac),
                      Pairs(spec, e.vm.nics, FirstNew(st), |spec.devices|), SettingNicConfigFailed);
      }
    }
  }

  /** Every device that has a network has an address on its NIC. */
  predicate Addressed(spec: Spec, vm: VM) {
    forall i :: 0 <= i < |spec.devices| && i < |vm.nics| && (spec.devices[i] == IPv4 || spec.devices[i] == IPv4DHCP) ==>
      vm.nics[i].ip != ""
  }

  /** From the network stages on nothing is passed without all addresses, and a pass that has seen the NICs
      configured waits for nothing else. */
  predicate AddressesAwaited(spec: Spec, vm: VM, c: Condition, out: Out) {
    && (out.flow.Proceed? && StageIn(c) >= 5 ==> Addressed(spec, vm))
    && (StageIn(out.status.condition) == 7 && StageIn(c) != 7 ==> !Addressed(spec, vm))
    && (forall x :: x in out.calls && x.SawSuccess? && x.name.NicJob? ==>
          if Addressed(spec, vm) then out.flow.Proceed?
          else out.flow.Wait? && out.status.condition == False(WaitingForAddresses))
  }

  lemma AwaitEffect(spec: Spec, e: Answers, st: Status)
    requires NicsMet(spec, e.vm)
    ensures AwaitAddresses(spec, e, st) ==
            if StageIn(st.condition) >= 5 && !Addressed(spec, e.vm) then Out(Mark(st, WaitingForAddresses), [], Wait)
            else Out(st, [], Proceed)
  {
  }

  /** Entered at stage s, the network stages end no lower, and beyond stage 5 only with all NICs there. */
  lemma NetworkEffect(spec: Spec, e: Answers, st: Status)
    requires StageEarned(spec, e.vm, st.condition)
    ensures var out := Network(spec, e, st); var stage := StageIn(out.status.condition);
            && (StageIn(st.condition) <= stage)
            && (out.status.condition == st.condition || 5 <= stage)
            && (out.flow.Proceed? ==> NicsMet(spec, e.vm))
            && (stage >= 6 ==> NicsMet(spec, e.vm))
            && (out.calls == [] || (|out.calls| == 1 && NetworkCall(out.calls[0]) && 5 <= StageIn(st.condition) <= 6 && stage >= 5))
            && (!st.condition.False? && AllMet(spec, e.vm) ==> out.status.condition == st.condition)
            && (st.condition.False? ==> out.status.condition.False?)
            && (out.calls != [] && out.calls[0].AddNics? ==> StageIn(st.condition) == 5 && stage == 5 && out.flow.Wait?)
  {
    if !e.nicsError && e.vm.nics != [] && NicsMet(spec, e.vm) {
      hide ConfigureNics, AwaitAddresses, Addressed;
      ConfigureEffect(spec, e, st);
      AwaitEffect(spec, e, ConfigureNics(spec, e, st).status);
    }
  }

  /** Once the NICs are configured, or were so before, only missing addresses keep the network stages from
      being passed, and then the condition says so. */
  lemma NetworkAwaits(spec: Spec, e: Answers, st: Status)
    ensures var out := Network(spec, e, st);
            && AddressesAwaited(spec, e.vm, st.condition, out)
            && (StageIn(st.condition) == 7 && NicsMet(spec, e.vm) && e.vm.nics != [] && !e.nicsError ==>
                  out == if Addressed(spec, e.vm) then Out(st, [], Proceed) else Out(st, [], Wait))
  {
    hide ConfigureNics, AwaitAddresses, Addressed, GrowNics;
    if !NicsMet(spec, e.vm) {
      GrowWaits(spec, e, st);
    } else {
      ConfigureEffect(spec, e, st);
      AwaitEffect(spec, e, ConfigureNics(spec, e, st).status);
      SeenMeansConfigured(spec, e, st);
    }
  }

  lemma GrowWaits(spec: Spec, e: Answers, st: Status)
    requires !NicsMet(spec, e.vm)
    ensures var out := GrowNics(spec, e, st);
            !out.flow.Proceed? && StageIn(out.status.condition) == 5 && forall x :: x in out.calls ==> x.AddNics?
  {
  }

  lemma SeenMeansConfigured(spec: Spec, e: Answers, st: Status)
    ensures var out := ConfigureNics(spec, e, st);
            forall x :: x in out.calls && x.SawSuccess? ==> out.flow.Proceed? && StageIn(out.status.condition) >= 5
  {
    hide Pairs;
  }

  // ---- The whole pass ----


  predicate OwesKubelet(c: Condition) {
    StageIn(c) == 1 || StageIn(c) == 2
  }

  predicate OwesPartition(c: Condition) {
    StageIn(c) == 3 || StageIn(c) == 4
  }

  /** What a pass that starts with condition `c` and ends with `c'` may have called, one call at most. */
  predicate Justified(spec: Spec, e: Answers, c: Condition, c': Condition, calls: seq<Call>) {
    |calls| <= 1 &&
    (calls != [] ==>
      match calls[0]
      case UpdateVM => StageIn(c) == 1 && StageIn(c') == 1 && !ComputeMet(spec, e.vm)
      case ResizeVolume(size) => StageIn(c) == 3 && StageIn(c') == 3 && size == spec.diskGiB && !DiskMet(spec, e.vm)
      case AddNics(_, _) => StageIn(c) == 5 && StageIn(c') == 5
      case CreateJob(KubeletJob(_, _, _), _) =>
        calls[0].name == KubeletName(spec) && calls[0].name !in e.jobs && OwesKubelet(c) && StageIn(c') == 2
        && ComputeMet(spec, e.vm)
      case CreateJob(PartitionJob(size), _) =>
        size == spec.diskGiB && calls[0].name !in e.jobs && OwesPartition(c) && StageIn(c') == 4 && DiskMet(spec, e.vm)
      case CreateJob(NicJob(_), _) => 5 <= StageIn(c) <= 6
      case DeleteJob(name) =>
        (name == KubeletName(spec) && OwesKubelet(c)) || (name == PartitionJob(spec.diskGiB) && OwesPartition(c))
        || (name.NicJob? && 5 <= StageIn(c) <= 6)
      case SawSuccess(name) => name in e.jobs || name.NicJob?)
  }

  /** A debt is only ever left behind by seeing its job succeed. */
  predicate DebtKept(spec: Spec, c: Condition, c': Condition, calls: seq<Call>) {
    && (OwesKubelet(c) && !OwesKubelet(c') ==> calls == [SawSuccess(KubeletName(spec))])
    && (OwesPartition(c) && !OwesPartition(c') ==> calls == [SawSuccess(PartitionJob(spec.diskGiB))])
  }

  predicate GoodPass(spec: Spec, e: Answers, c: Condition, out: Out) {
    && StageEarned(spec, e.vm, out.status.condition)
    && Rank(spec, e.vm, c) <= Rank(spec, e.vm, out.status.condition)
    && Justified(spec, e, c, out.status.condition, out.calls)
    && DebtKept(spec, c, out.status.condition, out.calls)
    && (c.False? && !out.status.condition.False? ==> out.status.condition.True? && AllMet(spec, e.vm))
    && (out.flow.Proceed? ==> AllMet(spec, e.vm) && !out.status.condition.False?)
    && (out.flow.Proceed? && !c.False? ==> out.status.condition == c)
    && AddressesAwaited(spec, e.vm, c, out)
  }

  /** From the network stages on, starting with condition `c` and calls already made. */
  lemma NetworkPass(spec: Spec, e: Answers, st: Status, c: Condition, calls: seq<Call>)
    requires StageEarned(spec, e.vm, st.condition) && ComputeMet(spec, e.vm) && DiskMet(spec, e.vm)
    requires StageIn(c) <= StageIn(st.condition) && (c.False? <==> st.condition.False?)
    requires calls == [] || StageIn(st.condition) < 5
    requires Justified(spec, e, c, st.condition, calls) && DebtKept(spec, c, Missing, calls)
    requires StageIn(c) >= 5 || !c.False? ==> c == st.condition
    requires calls != [] ==> calls[0].SawSuccess? && !calls[0].name.NicJob?
    ensures GoodPass(spec, e, c, Finish(Chain(Out(st, calls, Proceed), Network(spec, e, st))))
  {
    hide Network;
    var network := Network(spec, e, st);
    NetworkEffect(spec, e, st);
    NetworkAwaits(spec, e, st);
    if network.calls == [] {
      assert calls + network.calls == calls;
    } else {
      assert calls + network.calls == network.calls;
    }
  }

  /** What the disk stages are entered with: perhaps the kubelet job was just seen to succeed. */
  predicate DiskEntry(spec: Spec, e: Answers, st: Status, c: Condition, calls: seq<Call>) {
    && StageEarned(spec, e.vm, st.condition) && ComputeMet(spec, e.vm)
    && (if OwesKubelet(c) then StageIn(st.condition) == 2 && calls == [SawSuccess(KubeletName(spec))]
        else c == st.condition && calls == [])
    && (calls != [] ==> KubeletName(spec) in e.jobs)
  }

  lemma DiskStops(spec: Spec, e: Answers, st: Status, c: Condition, calls: seq<Call>)
    requires DiskEntry(spec, e, st, c, calls)
    requires var disk := DiskStages(spec, e, st); !disk.flow.Proceed?
    ensures var disk := DiskStages(spec, e, st); GoodPass(spec, e, c, Out(disk.status, calls + disk.calls, disk.flow))
  {
    hide Volume, Partition;
    var volume := Volume(spec, e, st);
    VolumeEffect(spec, e, st);
    PartitionEffect(spec, e, volume.status);
    assert calls + [] == calls;
  }

  /** From the disk stages on, starting with condition `c`. */
  lemma DiskPass(spec: Spec, e: Answers, st: Status, c: Condition, calls: seq<Call>)
    requires DiskEntry(spec, e, st, c, calls)
    ensures var disk := DiskStages(spec, e, st);
            GoodPass(spec, e, c, Finish(Chain(Out(st, calls, Proceed), Chain(disk, Network(spec, e, disk.status)))))
  {
    hide Volume, Partition, Network, GoodPass;
    var volume := Volume(spec, e, st);
    var partition := Partition(spec, e, volume.status);
    if volume.flow.Proceed? && partition.flow.Proceed? {
      VolumeEffect(spec, e, st);
      PartitionEffect(spec, e, volume.status);
      var seen := calls + partition.calls;
      var network := Network(spec, e, partition.status);
      assert calls + (volume.calls + partition.calls + network.calls) == seen + network.calls;
      NetworkPass(spec, e, partition.status, c, seen);
    } else {
      DiskStops(spec, e, st, c, calls);
    }
  }

  lemma ComputeStops(spec: Spec, e: Answers, st: Status)
    requires StageEarned(spec, e.vm, st.condition) && !ComputeStages(spec, e, st).flow.Proceed?
    ensures GoodPass(spec, e, st.condition, ComputeStages(spec, e, st))
  {
    hide Compute, Kubelet;
    var compute := Compute(spec, e, st);
    ComputeEffect(spec, e, st);
    KubeletEffect(spec, e, compute.status);
    assert [] + Kubelet(spec, e, compute.status).calls == Kubelet(spec, e, compute.status).calls;
  }

  lemma ComputeProceeds(spec: Spec, e: Answers, st: Status)
    requires StageEarned(spec, e.vm, st.condition) && ComputeStages(spec, e, st).flow.Proceed?
    ensures var compute := ComputeStages(spec, e, st); DiskEntry(spec, e, compute.status, st.condition, compute.calls)
  {
    hide Compute, Kubelet;
    var compute := Compute(spec, e, st);
    ComputeEffect(spec, e, st);
    KubeletEffect(spec, e, compute.status);
    assert [] + Kubelet(spec, e, compute.status).calls == Kubelet(spec, e, compute.status).calls;
  }

  /** One pass over all stages, whatever Tower and the cluster answer. */
  lemma PassIsGood(spec: Spec, e: Answers, st: Status)
    requires StageEarned(spec, e.vm, st.condition)
    ensures GoodPass(spec, e, st.condition, Reconciled(spec, e, st))
  {
    hide ComputeStages, DiskStages, Network, GoodPass, DiskEntry;
    var compute := ComputeStages(spec, e, st);
    if compute.flow.Proceed? {
      ComputeProceeds(spec, e, st);
      DiskPass(spec, e, compute.status, st.condition, compute.calls);
    } else {
      ComputeStops(spec, e, st);
    }
  }

  // ---- Calls wait for the saved condition ----

  lemma NetworkCallsGated(spec: Spec, e: Answers, st: Status)
    ensures forall c :: c in Network(spec, e, st).calls ==> NetworkCall(c) && (c.AddNics? ==> StageIn(st.condition) == 5)
  {
    if !e.nicsError && e.vm.nics != [] && NicsMet(spec, e.vm) {
      ConfigureEffect(spec, e, st);
    }
  }

  predicate Gated(c: Condition, calls: seq<Call>) {
    forall x :: x in calls ==>
      && (x.UpdateVM? ==> StageIn(c) == 1) && (x.ResizeVolume? ==> StageIn(c) == 3) && (x.AddNics? ==> StageIn(c) == 5)
  }

  lemma DiskAndNetworkGated(spec: Spec, e: Answers, st: Status)
    ensures var disk := DiskStages(spec, e, st);
            Gated(st.condition, Chain(disk, Network(spec, e, disk.status)).calls)
  {
    var volume := Volume(spec, e, st);
    VolumeEffect(spec, e, st);
    var partition := Partition(spec, e, volume.status);
    PartitionEffect(spec, e, volume.status);
    NetworkCallsGated(spec, e, partition.status);
    hide Volume, Partition, Network;
  }

  lemma PassIsGated(spec: Spec, e: Answers, st: Status)
    ensures Gated(st.condition, Reconciled(spec, e, st).calls)
  {
    var compute := Compute(spec, e, st);
    ComputeEffect(spec, e, st);
    var kubelet := Kubelet(spec, e, compute.status);
    KubeletEffect(spec, e, compute.status);
    DiskAndNetworkGated(spec, e, kubelet.status);
    hide Compute, Kubelet, DiskStages, Network;
  }

  /** Resources are touched only in a reconcile whose saved condition already named that stage, or its
      failed form; no assumption is made about the specification, the machine or the answers. */
  lemma CallsAreGated(spec: Spec, e: Answers, entry: Entry, st: Status)
    ensures forall c :: c in Turn(spec, e, entry, st).calls ==>
              && (c.UpdateVM? ==> Is(st, ExpandingCompute, ExpandingComputeFailed))
              && (c.ResizeVolume? ==> Is(st, ExpandingDisk, ExpandingDiskFailed))
              && (c.AddNics? ==> Is(st, AddingNic, AddingNicFailed))
  {
    var ready := if st.hasTask then AfterTask(st, entry.failed) else st;
    PassIsGated(spec, e, ready);
    hide Reconciled;
  }

  // ---- What every call needs, and what every pass records ----

  /** Tickets, shortages, running operations, nodes and the state of jobs are respected by every call. */
  predicate Allowed(spec: Spec, e: Answers, c: Call) {
    match c
    case UpdateVM => !ComputeMet(spec, e.vm) && e.memoryAllowed && e.ticket && !e.updateError
    case ResizeVolume(size) =>
      size == spec.diskGiB > e.vm.diskGiB && e.storageAllowed && !e.vm.volumeBusy && !e.volumeError && !e.resizeError
    case AddNics(_, _) => |e.vm.nics| < |spec.devices| && !e.nicsError && !e.vlanError && !e.addNicsError
    case CreateJob(name, _) =>
      && e.nodeExists && name !in e.jobs && !e.clientError && !e.readJobError && !e.generateError
      && (!e.createError || e.createdAnyway)
    case DeleteJob(name) => e.nodeExists && name in e.jobs && e.jobs[name].Failed? && e.retryDue && !e.deleteError
    case SawSuccess(name) => e.nodeExists && name in e.jobs && e.jobs[name].Succeeded?
  }

  predicate AllAllowed(spec: Spec, e: Answers, calls: seq<Call>) {
    forall c :: c in calls ==> Allowed(spec, e, c)
  }

  lemma HostJobAllowed(spec: Spec, e: Answers, st: Status, name: JobName, macTypes: seq<MacType>, failed: Reason)
    ensures AllAllowed(spec, e, HostJob(e, st, name, macTypes, failed).calls)
  {
  }

  lemma ComputeAllowed(spec: Spec, e: Answers, st: Status)
    ensures AllAllowed(spec, e, ComputeStages(spec, e, st).calls)
  {
    hide HostJob;
    var st1 := Compute(spec, e, st).status;
    var marked := if st1.condition == False(RestartingKubeletFailed) then st1 else Mark(st1, RestartingKubelet);
    HostJobAllowed(spec, e, marked, KubeletName(spec), [], RestartingKubeletFailed);
  }

  lemma DiskAllowed(spec: Spec, e: Answers, st: Status)
    ensures AllAllowed(spec, e, DiskStages(spec, e, st).calls)
  {
    hide HostJob;
    var st1 := Volume(spec, e, st).status;
    var marked := if st1.condition == False(ExpandingRootPartitionFailed) then st1 else Mark(st1, ExpandingRootPartition);
    HostJobAllowed(spec, e, marked, PartitionJob(spec.diskGiB), [], ExpandingRootPartitionFailed);
  }

  lemma NetworkAllowed(spec: Spec, e: Answers, st: Status)
    ensures AllAllowed(spec, e, Network(spec, e, st).calls)
  {
    hide HostJob, HasAllAddresses;
    if FirstNew(st) < |spec.devices| == |e.vm.nics| {
      var marked := if st.condition == False(SettingNicConfigFailed) then st else Mark(st, SettingNicConfig);
      HostJobAllowed(spec, e, marked, NicJob(e.vm.nics[|e.vm.nics| - 1].mac),
                     Pairs(spec, e.vm.nics, FirstNew(st), |spec.devices|), SettingNicConfigFailed);
    }
  }

  lemma PassIsAllowed(spec: Spec, e: Answers, st: Status)
    ensures AllAllowed(spec, e, Reconciled(spec, e, st).calls)
  {
    hide ComputeStages, DiskStages, Network, Allowed;
    var compute := ComputeStages(spec, e, st);
    var disk := DiskStages(spec, e, compute.status);
    ComputeAllowed(spec, e, st);
    DiskAllowed(spec, e, compute.status);
    NetworkAllowed(spec, e, disk.status);
  }

  /** A job is left alone while it runs, made when there is none, and deleted once it failed and is due. */
  lemma HostJobMoves(e: Answers, st: Status, name: JobName, macTypes: seq<MacType>, failed: Reason)
    requires e.nodeExists && !e.clientError && !e.readJobError
    ensures var out := HostJob(e, st, name, macTypes, failed);
            && (name !in e.jobs && !e.generateError && !e.createError ==> out == Out(st, [CreateJob(name, macTypes)], Wait))
            && (name in e.jobs && e.jobs[name].Pending? ==> out == Out(st, [], Wait))
            && (name in e.jobs && e.jobs[name].Failed? ==>
                  out.status == Mark(st, failed) && (out.calls == [DeleteJob(name)] <==> e.retryDue && !e.deleteError))
  {
  }

  /** Jobs of different specifications are told apart. */
  lemma KubeletNameIff(a: Spec, b: Spec)
    ensures KubeletName(a) == KubeletName(b) <==>
            a.cpus == b.cpus && a.coresPerSocket == b.coresPerSocket && a.memoryMiB == b.memoryMiB
  {
  }

  predicate FailedForm(c: Condition) {
    c.False? && (c.reason.ExpandingComputeFailed? || c.reason.RestartingKubeletFailed? || c.reason.ExpandingDiskFailed? ||
                 c.reason.ExpandingRootPartitionFailed? || c.reason.AddingNicFailed? || c.reason.SettingNicConfigFailed?)
  }

  /** A call that fails leaves the failed form of its stage; a reading that fails leaves the reason alone. */
  predicate FailureMarked(e: Answers, c: Condition, out: Out) {
    out.flow.Fail? ==>
      FailedForm(out.status.condition) || (out.status.condition == c && (e.volumeError || e.nicsError || e.vlanError))
  }

  lemma ComputeMarks(spec: Spec, e: Answers, st: Status)
    ensures FailureMarked(e, ComputeStages(spec, e, st).status.condition, ComputeStages(spec, e, st))
    ensures ComputeStages(spec, e, st).flow.Fail? ==> FailedForm(ComputeStages(spec, e, st).status.condition)
  {
    hide HostJob;
    var st1 := Compute(spec, e, st).status;
    var marked := if st1.condition == False(RestartingKubeletFailed) then st1 else Mark(st1, RestartingKubelet);
    JobMarks(e, marked, KubeletName(spec), [], RestartingKubeletFailed);
  }

  lemma JobMarks(e: Answers, st: Status, name: JobName, macTypes: seq<MacType>, failed: Reason)
    ensures var out := HostJob(e, st, name, macTypes, failed); out.flow.Fail? ==> out.status.condition == False(failed)
  {
  }

  lemma DiskMarks(spec: Spec, e: Answers, st: Status)
    ensures FailureMarked(e, st.condition, DiskStages(spec, e, st))
    ensures DiskStages(spec, e, st).flow.Fail? && !e.volumeError ==> FailedForm(DiskStages(spec, e, st).status.condition)
  {
    hide HostJob;
    var st1 := Volume(spec, e, st).status;
    var marked := if st1.condition == False(ExpandingRootPartitionFailed) then st1 else Mark(st1, ExpandingRootPartition);
    JobMarks(e, marked, PartitionJob(spec.diskGiB), [], ExpandingRootPartitionFailed);
  }

  /** How the network stages end short of the host job: without NICs they wait, a VLAN that cannot be read leaves the
      reason alone, too many NICs are a failed configuration, and a NIC without a MAC is waited for. */
  lemma NetworkMarks(spec: Spec, e: Answers, st: Status)
    ensures var out := Network(spec, e, st);
            && FailureMarked(e, st.condition, out)
            && (!e.nicsError && e.vm.nics == [] ==> out == Out(st, [], Wait))
            && (!e.nicsError && e.vm.nics != [] && !NicsMet(spec, e.vm) && e.vlanError && StageIn(st.condition) == 5 ==>
                  out.flow.Fail? && out.status.condition == st.condition)
            && (!e.nicsError && 5 <= StageIn(st.condition) <= 6 && FirstNew(st) < |spec.devices| ==>
                  && (|spec.devices| < |e.vm.nics| ==> out == Out(Mark(st, SettingNicConfigFailed), [], Wait))
                  && (|spec.devices| == |e.vm.nics| && (exists k :: FirstNew(st) <= k < |e.vm.nics| && e.vm.nics[k].mac == "") ==>
                        out == Out(Mark(st, WaitingForMac), [], Wait)))
  {
    hide HostJob, HasAllAddresses, Pairs;
    if FirstNew(st) < |spec.devices| == |e.vm.nics| {
      var marked := if st.condition == False(SettingNicConfigFailed) then st else Mark(st, SettingNicConfig);
      JobMarks(e, marked, NicJob(e.vm.nics[|e.vm.nics| - 1].mac),
               Pairs(spec, e.vm.nics, FirstNew(st), |spec.devices|), SettingNicConfigFailed);
    }
  }

  /** A pass that fails says which stage failed, unless it could not read the disk, the NICs or a VLAN. */
  lemma PassMarks(spec: Spec, e: Answers, st: Status)
    ensures var out := Reconciled(spec, e, st);
            out.flow.Fail? && !e.volumeError && !e.nicsError && !e.vlanError ==> FailedForm(out.status.condition)
  {
    hide ComputeStages, DiskStages, Network, FailedForm;
    var compute := ComputeStages(spec, e, st);
    var disk := DiskStages(spec, e, compute.status);
    ComputeMarks(spec, e, st);
    DiskMarks(spec, e, compute.status);
    NetworkMarks(spec, e, disk.status);
  }

  /** Every pass records the VM's CPUs and memory, and its disk as soon as it is looked at. */
  predicate Observes(spec: Spec, vm: VM, out: Out) {
    && out.status.resources.cpus == vm.cpus && out.status.resources.memoryMiB == vm.memoryMiB
    && (out.flow.Proceed? && spec.diskGiB != 0 ==> out.status.resources.diskGiB == vm.diskGiB)
  }

  lemma NetworkObserves(spec: Spec, e: Answers, st: Status)
    ensures Network(spec, e, st).status.resources == st.resources
  {
    hide HasAllAddresses, HasAllMacs, Pairs;
  }

  lemma PassObserves(spec: Spec, e: Answers, st: Status)
    ensures Observes(spec, e.vm, Reconciled(spec, e, st))
  {
    hide ComputeStages, DiskStages, Network;
    var compute := ComputeStages(spec, e, st);
    var disk := DiskStages(spec, e, compute.status);
    ComputeObserves(spec, e, st);
    DiskObserves(spec, e, compute.status);
    NetworkObserves(spec, e, disk.status);
  }

  lemma ComputeObserves(spec: Spec, e: Answers, st: Status)
    ensures var out := ComputeStages(spec, e, st);
            out.status.resources.cpus == e.vm.cpus && out.status.resources.memoryMiB == e.vm.memoryMiB
  {
    hide HostJob;
    var st1 := Compute(spec, e, st).status;
    var marked := if st1.condition == False(RestartingKubeletFailed) then st1 else Mark(st1, RestartingKubelet);
    HostJobEffect(e, marked, KubeletName(spec), [], RestartingKubeletFailed);
  }

  lemma DiskObserves(spec: Spec, e: Answers, st: Status)
    ensures var before, out := st.resources, DiskStages(spec, e, st);
            && out.status.resources.cpus == before.cpus && out.status.resources.memoryMiB == before.memoryMiB
            && (out.flow.Proceed? && spec.diskGiB != 0 ==> out.status.resources.diskGiB == e.vm.diskGiB)
  {
    hide HostJob;
    var st1 := Volume(spec, e, st).status;
    var marked := if st1.condition == False(ExpandingRootPartitionFailed) then st1 else Mark(st1, ExpandingRootPartition);
    HostJobEffect(e, marked, PartitionJob(spec.diskGiB), [], ExpandingRootPartitionFailed);
  }

  // ---- Debts over a run ----

  datatype Kind = ComputeWork | DiskWork

  predicate Expands(c: Call, kind: Kind) {
    if kind.ComputeWork? then c.UpdateVM? else c.ResizeVolume?
  }

  function FollowUp(spec: Spec, kind: Kind): JobName {
    if kind.ComputeWork? then KubeletName(spec) else PartitionJob(spec.diskGiB)
  }

  predicate Met(spec: Spec, vm: VM, kind: Kind) {
    if kind.ComputeWork? then ComputeMet(spec, vm) else DiskMet(spec, vm)
  }

  predicate Owes(c: Condition, kind: Kind) {
    if kind.ComputeWork? then OwesKubelet(c) else OwesPartition(c)
  }

  /** Where the follow-up of the last expansion stands. A success counts only for a job made after it. */
  datatype Debt = Settled | Expanded | JobMade

  function AfterCall(debt: Debt, c: Call, kind: Kind, job: JobName): Debt {
    if Expands(c, kind) then Expanded
    else if debt.Expanded? && c.CreateJob? && c.name == job then JobMade
    else if debt.JobMade? && c == SawSuccess(job) then Settled
    else debt
  }

  function DebtOf(log: seq<Call>, kind: Kind, job: JobName): Debt {
    if log == [] then Settled
    else AfterCall(DebtOf(log[..|log| - 1], kind, job), log[|log| - 1], kind, job)
  }

  /** The expansion at index i was followed by the making of the job and then by its success. */
  predicate Followed(log: seq<Call>, i: nat, job: JobName) {
    exists j, k :: i < j < k < |log| && log[j].CreateJob? && log[j].name == job && log[k] == SawSuccess(job)
  }

  predicate Started(log: seq<Call>, i: nat, job: JobName) {
    exists j :: i < j < |log| && log[j].CreateJob? && log[j].name == job
  }

  lemma FollowedGrows(log: seq<Call>, c: Call, i: nat, job: JobName)
    ensures Followed(log, i, job) ==> Followed(log + [c], i, job)
    ensures Started(log, i, job) ==> Started(log + [c], i, job)
    ensures Started(log, i, job) && c == SawSuccess(job) ==> Followed(log + [c], i, job)
    ensures i < |log| && c.CreateJob? && c.name == job ==> Started(log + [c], i, job)
  {
    var longer := log + [c];
    assert longer[|log|] == c;
    if Followed(log, i, job) {
      var j, k :| i < j < k < |log| && log[j].CreateJob? && log[j].name == job && log[k] == SawSuccess(job);
      assert longer[j] == log[j] && longer[k] == log[k];
    }
    if Started(log, i, job) {
      var j :| i < j < |log| && log[j].CreateJob? && log[j].name == job;
      assert longer[j] == log[j];
    }
  }

  lemma {:induction false} SettledMeansFollowed(log: seq<Call>, kind: Kind, job: JobName, i: nat)
    requires i < |log| && Expands(log[i], kind)
    ensures DebtOf(log, kind, job).Settled? ==> Followed(log, i, job)
    ensures DebtOf(log, kind, job).JobMade? ==> Followed(log, i, job) || Started(log, i, job)
  {
    var n := |log| - 1;
    var front := log[..n];
    assert log == front + [log[n]];
    if i < n {
      SettledMeansFollowed(front, kind, job, i);
      FollowedGrows(front, log[n], i, job);
    }
  }

  /** An open debt is always visible in the saved condition, and cannot be paid by an older job. */
  predicate Shown(spec: Spec, vm: VM, jobs: Jobs, c: Condition, debt: Debt, kind: Kind) {
    var job := FollowUp(spec, kind);
    && (job in jobs ==> Met(spec, vm, kind))
    && (debt.Expanded? ==> job !in jobs && Owes(c, kind))
    && (debt.JobMade? ==> Met(spec, vm, kind) && Owes(c, kind))
  }

  predicate DebtShown(spec: Spec, w: World, kind: Kind) {
    Shown(spec, w.vm, w.jobs, w.saved.condition, DebtOf(w.log, kind, FollowUp(spec, kind)), kind)
  }

  predicate Invariant(spec: Spec, w: World) {
    StageEarned(spec, w.vm, w.saved.condition) && DebtShown(spec, w, ComputeWork) && DebtShown(spec, w, DiskWork)
  }

  lemma AfterTaskStage(st: Status, failed: FailedTask)
    ensures StageIn(AfterTask(st, failed).condition) == StageIn(st.condition)
    ensures AfterTask(st, failed).condition.False? == st.condition.False?
    ensures !st.condition.False? ==> AfterTask(st, failed).condition == st.condition
    ensures AfterTask(st, failed).network == st.network
    ensures AfterTask(st, failed).condition ==
            if failed == VolumeTask && StageIn(st.condition) == 3 then False(ExpandingDiskFailed)
            else if failed == EditTask && StageIn(st.condition) == 1 then False(ExpandingComputeFailed)
            else st.condition
  {
  }

  lemma SameStage(spec: Spec, e: Answers, c: Condition, same: Condition, out: Out)
    requires GoodPass(spec, e, c, out)
    requires StageIn(c) == StageIn(same) && c.False? == same.False? && (!c.False? ==> c == same)
    ensures GoodPass(spec, e, same, out)
  {
  }

  lemma StayingIsGood(spec: Spec, e: Answers, c: Condition, st: Status)
    requires StageEarned(spec, e.vm, c)
    requires StageIn(c) == StageIn(st.condition) && c.False? == st.condition.False? && (!c.False? ==> c == st.condition)
    ensures GoodPass(spec, e, c, Out(st, [], Wait))
  {
  }

  lemma TurnIsGood(spec: Spec, e: Answers, entry: Entry, st: Status)
    requires StageEarned(spec, e.vm, st.condition)
    ensures GoodPass(spec, e, st.condition, Turn(spec, e, entry, st))
  {
    AfterTaskStage(st, entry.failed);
    var ready := if st.hasTask then AfterTask(st, entry.failed) else st;
    StayingIsGood(spec, e, st.condition, st);
    StayingIsGood(spec, e, st.condition, ready.(hasTask := entry.otherTask));
    PassIsGood(spec, e, ready);
    hide Reconciled, AfterTask, GoodPass;
    SameStage(spec, e, ready.condition, st.condition, Reconciled(spec, e, ready));
  }

  lemma ApplyOne(jobs: Jobs, calls: seq<Call>)
    requires |calls| <= 1
    ensures Apply(jobs, calls) == if calls == [] then jobs else ApplyCall(jobs, calls[0])
  {
  }

  lemma DebtGrows(log: seq<Call>, calls: seq<Call>, kind: Kind, job: JobName)
    requires |calls| <= 1
    ensures DebtOf(log + calls, kind, job) ==
              if calls == [] then DebtOf(log, kind, job) else AfterCall(DebtOf(log, kind, job), calls[0], kind, job)
  {
    if calls == [] {
      assert log + calls == log;
    } else {
      assert (log + calls)[..|log|] == log;
    }
  }

  lemma ShownAfterCall(spec: Spec, e: Answers, c: Condition, c': Condition, debt: Debt, x: Call, kind: Kind)
    requires Shown(spec, e.vm, e.jobs, c, debt, kind)
    requires Justified(spec, e, c, c', [x]) && DebtKept(spec, c, c', [x])
    ensures var job := FollowUp(spec, kind);
            && Shown(spec, e.vm, ApplyCall(e.jobs, x), c, AfterCall(debt, x, kind, job), kind)
            && Shown(spec, e.vm, ApplyCall(e.jobs, x), c', AfterCall(debt, x, kind, job), kind)
  {
  }

  lemma ReconcileKeepsDebt(spec: Spec, w: World, e: Answers, entry: Entry, patched: bool, kind: Kind, w': World)
    requires Invariant(spec, w) && Next(spec, w, Reconcile(e, entry, patched), w')
    ensures DebtShown(spec, w', kind)
  {
    var out := Turn(spec, e, entry, w.saved);
    TurnIsGood(spec, e, entry, w.saved);
    ApplyOne(w.jobs, out.calls);
    DebtGrows(w.log, out.calls, kind, FollowUp(spec, kind));
    hide Turn, Apply, DebtOf, ApplyCall, AfterCall, Justified;
    if out.calls != [] {
      AtMostOne(spec, e, w.saved.condition, out);
      assert out.calls == [out.calls[0]];
      ShownAfterCall(spec, e, w.saved.condition, out.status.condition,
                     DebtOf(w.log, kind, FollowUp(spec, kind)), out.calls[0], kind);
    }
  }

  lemma AtMostOne(spec: Spec, e: Answers, c: Condition, out: Out)
    requires GoodPass(spec, e, c, out)
    ensures |out.calls| <= 1
  {
  }

  lemma StepKeepsInvariant(spec: Spec, w: World, step: Step, w': World)
    requires Invariant(spec, w) && Next(spec, w, step, w')
    ensures Invariant(spec, w')
    ensures Rank(spec, w.vm, w.saved.condition) <= Rank(spec, w'.vm, w'.saved.condition)
    ensures w.saved.condition.False? && !w'.saved.condition.False? ==> w'.saved.condition.True? && AllMet(spec, w'.vm)
  {
    match step
    case Reconcile(e, entry, patched) =>
      TurnIsGood(spec, e, entry, w.saved);
      ReconcileKeepsDebt(spec, w, e, entry, patched, ComputeWork, w');
      ReconcileKeepsDebt(spec, w, e, entry, patched, DiskWork, w');
      hide Turn, DebtShown, Apply;
    case TowerChange(vm) =>
    case JobsChange(jobs) =>
  }

  lemma {:induction false} RunKeepsInvariant(spec: Spec, worlds: seq<World>, steps: seq<Step>, i: nat)
    requires Run(spec, worlds, steps) && i < |worlds|
    ensures Invariant(spec, worlds[i])
  {
    hide Next;
    if i > 0 {
      RunKeepsInvariant(spec, worlds, steps, i - 1);
      StepKeepsInvariant(spec, worlds[i - 1], steps[i - 1], worlds[i]);
    }
  }

  /** In every run the stage never falls back, even when patches are lost. */
  lemma {:induction false} RankNeverFalls(spec: Spec, worlds: seq<World>, steps: seq<Step>, i: nat, j: nat)
    requires Run(spec, worlds, steps) && i <= j < |worlds|
    ensures Rank(spec, worlds[i].vm, worlds[i].saved.condition) <= Rank(spec, worlds[j].vm, worlds[j].saved.condition)
  {
    hide Rank, Invariant, Next;
    if i < j {
      RankNeverFalls(spec, worlds, steps, i, j - 1);
      RunKeepsInvariant(spec, worlds, steps, j - 1);
      StepKeepsInvariant(spec, worlds[j - 1], steps[j - 1], worlds[j]);
    }
  }

  /** NICs are only ever added from stage 5 on, and that is never left backwards. */
  lemma {:induction false} AddedMeansNetworkStage(spec: Spec, worlds: seq<World>, steps: seq<Step>, i: nat)
    requires Run(spec, worlds, steps) && i < |worlds|
    ensures (exists x :: x in worlds[i].log && x.AddNics?) ==> Rank(spec, worlds[i].vm, worlds[i].saved.condition) >= 5
  {
    hide Invariant, Turn, Apply, Rank;
    if i > 0 {
      var n := i - 1;
      AddedMeansNetworkStage(spec, worlds, steps, n);
      RunKeepsInvariant(spec, worlds, steps, n);
      assert Next(spec, worlds[n], steps[n], worlds[i]);
      StepKeepsInvariant(spec, worlds[n], steps[n], worlds[i]);
      if x :| x in worlds[i].log && x.AddNics? && x !in worlds[n].log {
        CallsAreGated(spec, steps[n].e, steps[n].entry, worlds[n].saved);
        StageRanks(spec, worlds[n].vm, worlds[n].saved);
      }
    }
  }

  lemma StageRanks(spec: Spec, vm: VM, st: Status)
    ensures Is(st, AddingNic, AddingNicFailed) ==> Rank(spec, vm, st.condition) == 5
  {
  }

  /** When the saved condition turns True from a network stage, and so whenever NICs were added in the run,
      every NIC that has a network has its address. */
  lemma CompletionIsAddressed(spec: Spec, worlds: seq<World>, steps: seq<Step>, i: nat)
    requires Run(spec, worlds, steps) && i < |steps|
    requires worlds[i].saved.condition.False? && !worlds[i + 1].saved.condition.False?
    requires StageIn(worlds[i].saved.condition) >= 5 || exists x :: x in worlds[i].log && x.AddNics?
    ensures Addressed(spec, worlds[i + 1].vm)
  {
    hide Invariant, Turn, Apply, Addressed;
    AddedMeansNetworkStage(spec, worlds, steps, i);
    RunKeepsInvariant(spec, worlds, steps, i);
    assert Next(spec, worlds[i], steps[i], worlds[i + 1]);
    EarnedOf(spec, worlds[i]);
    TurnIsGood(spec, steps[i].e, steps[i].entry, worlds[i].saved);
    TrueMeansPassed(spec, steps[i].e, steps[i].entry, worlds[i].saved);
  }

  lemma EarnedOf(spec: Spec, w: World)
    requires Invariant(spec, w)
    ensures StageEarned(spec, w.vm, w.saved.condition)
  {
  }

  lemma TrueMeansPassed(spec: Spec, e: Answers, entry: Entry, st: Status)
    ensures var out := Turn(spec, e, entry, st); st.condition.False? && !out.status.condition.False? ==> out.flow.Proceed?
  {
    hide ComputeStages, DiskStages, Network;
    AfterTaskStage(st, entry.failed);
    var ready := if st.hasTask then AfterTask(st, entry.failed) else st;
    if ready.condition.False? {
      StillFalse(spec, e, ready);
    }
  }

  /** No stage turns a False condition into anything else. */
  lemma StillFalse(spec: Spec, e: Answers, st: Status)
    requires st.condition.False?
    ensures var compute := ComputeStages(spec, e, st); var disk := DiskStages(spec, e, compute.status);
            compute.status.condition.False? && disk.status.condition.False? && Network(spec, e, disk.status).status.condition.False?
  {
    ComputeStillFalse(spec, e, st);
    DiskStillFalse(spec, e, ComputeStages(spec, e, st).status);
    NetworkStillFalse(spec, e, DiskStages(spec, e, ComputeStages(spec, e, st).status).status);
    hide ComputeStages, DiskStages, Network;
  }

  lemma ComputeStillFalse(spec: Spec, e: Answers, st: Status)
    ensures st.condition.False? ==> ComputeStages(spec, e, st).status.condition.False?
  {
  }

  lemma DiskStillFalse(spec: Spec, e: Answers, st: Status)
    ensures st.condition.False? ==> DiskStages(spec, e, st).status.condition.False?
  {
  }

  lemma NetworkStillFalse(spec: Spec, e: Answers, st: Status)
    ensures st.condition.False? ==> Network(spec, e, st).status.condition.False?
  {
    hide Pairs, HasAllAddresses, HasAllMacs;
  }

  /** When the saved condition turns True, every capacity is there, every compute expansion was followed
      by a kubelet restart made for it that succeeded, and every disk expansion by such a partition job. */
  lemma CompletionIsEarned(spec: Spec, worlds: seq<World>, steps: seq<Step>, i: nat)
    requires Run(spec, worlds, steps) && i < |steps|
    requires worlds[i].saved.condition.False? && !worlds[i + 1].saved.condition.False?
    ensures worlds[i + 1].saved.condition.True? && AllMet(spec, worlds[i + 1].vm)
    ensures var log := worlds[i + 1].log;
            forall k :: 0 <= k < |log| ==>
              && (log[k].UpdateVM? ==> Followed(log, k, KubeletName(spec)))
              && (log[k].ResizeVolume? ==> Followed(log, k, PartitionJob(spec.diskGiB)))
  {
    RunKeepsInvariant(spec, worlds, steps, i);
    StepKeepsInvariant(spec, worlds[i], steps[i], worlds[i + 1]);
    var log := worlds[i + 1].log;
    forall k | 0 <= k < |log|
      ensures log[k].UpdateVM? ==> Followed(log, k, KubeletName(spec))
      ensures log[k].ResizeVolume? ==> Followed(log, k, PartitionJob(spec.diskGiB))
    {
      if log[k].UpdateVM? {
        SettledMeansFollowed(log, ComputeWork, KubeletName(spec), k);
      }
      if log[k].ResizeVolume? {
        SettledMeansFollowed(log, DiskWork, PartitionJob(spec.diskGiB), k);
      }
    }
  }
}
