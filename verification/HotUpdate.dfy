/** Hot update of a running virtual machine. The reason of one condition is the only program counter
    that survives from one reconcile to the next. */
module HotUpdate {
  import opened Results

  datatype Reason =
    | ExpandingCompute | ExpandingComputeFailed
    | RestartingKubelet | RestartingKubeletFailed
    | ExpandingDisk | ExpandingDiskFailed
    | ExpandingRootPartition | ExpandingRootPartitionFailed
    | AddingNic | AddingNicFailed
    | WaitingForMac | SettingNicConfig | SettingNicConfigFailed
    | WaitingForAddresses

  datatype Condition = Missing | True | False(reason: Reason)

  datatype NetworkType = NoNetwork | IPv4 | IPv4DHCP

  /** A disk size of zero asks for no change. */
  datatype Spec = Spec(cpus: int, coresPerSocket: int, memoryMiB: int, diskGiB: int, devices: seq<NetworkType>)

  datatype Nic = Nic(mac: string, ip: string)
  datatype VM = VM(cpus: int, memoryMiB: int, diskGiB: int, volumeBusy: bool, nics: seq<Nic>)

  datatype MacType = MacType(mac: string, networkType: NetworkType)
  datatype JobName =
    | KubeletJob(cpus: int, coresPerSocket: int, memoryMiB: int)
    | PartitionJob(diskGiB: int)
    | NicJob(mac: string)
  datatype Phase = Pending | Succeeded | Failed
  type Jobs = map<JobName, Phase>

  datatype Resources = Resources(cpus: int, memoryMiB: int, diskGiB: int)

  /** The part of the machine's status that hot update reads and writes. */
  datatype Status = Status(condition: Condition, network: seq<Nic>, hasTask: bool, resources: Resources)

  /** What a reconcile asks of Tower and of the workload cluster, and the successes it reads. */
  datatype Call =
    | UpdateVM
    | ResizeVolume(diskGiB: int)
    | AddNics(existing: nat, added: nat)
    | CreateJob(name: JobName, macTypes: seq<MacType>)
    | DeleteJob(name: JobName)
    | SawSuccess(name: JobName)

  /** Everything outside the machine's status that one reconcile sees; the flags are foreign answers. */
  datatype Answers = Answers(
    vm: VM, jobs: Jobs, nodeExists: bool,
    memoryAllowed: bool, ticket: bool, updateError: bool,
    volumeError: bool, storageAllowed: bool, resizeError: bool,
    clientError: bool, readJobError: bool, generateError: bool, createError: bool, createdAnyway: bool,
    retryDue: bool, deleteError: bool,
    nicsError: bool, vlanError: bool, addNicsError: bool)

  datatype Out = Out(status: Status, calls: seq<Call>, flow: Flow)

  predicate ComputeMet(spec: Spec, vm: VM) {
    spec.cpus <= vm.cpus && spec.memoryMiB <= vm.memoryMiB
  }

  predicate DiskMet(spec: Spec, vm: VM) {
    spec.diskGiB == 0 || spec.diskGiB <= vm.diskGiB
  }

  predicate NicsMet(spec: Spec, vm: VM) {
    |spec.devices| <= |vm.nics|
  }

  function Mark(st: Status, reason: Reason): Status {
    st.(condition := False(reason))
  }

  predicate Is(st: Status, a: Reason, b: Reason) {
    st.condition == False(a) || st.condition == False(b)
  }

  // ---- The stages, as functions of what a reconcile sees ----

  function Compute(spec: Spec, e: Answers, st: Status): Out {
    var seen := st.(resources := st.resources.(cpus := e.vm.cpus, memoryMiB := e.vm.memoryMiB));
    if ComputeMet(spec, e.vm) then Out(seen, [], Proceed)
    else if !Is(st, ExpandingCompute, ExpandingComputeFailed) then Out(Mark(seen, ExpandingCompute), [], Wait)
    else if !e.memoryAllowed then Out(Mark(seen, ExpandingCompute), [], Wait)
    else if !e.ticket then Out(seen, [], Wait)
    else if e.updateError then Out(Mark(seen, ExpandingComputeFailed), [], Fail)
    else Out(seen.(hasTask := true), [UpdateVM], Wait)
  }

  /** Creates the job, waits for it, or deletes a failed one so that it is tried again. */
  function HostJob(e: Answers, st: Status, name: JobName, macTypes: seq<MacType>, failed: Reason): Out {
    if !e.nodeExists then Out(st, [], Wait)
    else if e.clientError || e.readJobError then Out(Mark(st, failed), [], Fail)
    else if name !in e.jobs then
      if e.generateError then Out(Mark(st, failed), [], Fail)
      // A creation that reports an error may have taken effect.
      else if e.createError then Out(Mark(st, failed), if e.createdAnyway then [CreateJob(name, macTypes)] else [], Fail)
      else Out(st, [CreateJob(name, macTypes)], Wait)
    else
      match e.jobs[name]
      case Succeeded => Out(st, [SawSuccess(name)], Proceed)
      case Failed =>
        if !e.retryDue then Out(Mark(st, failed), [], Wait)
        else if e.deleteError then Out(Mark(st, failed), [], Fail)
        else Out(Mark(st, failed), [DeleteJob(name)], Wait)
      case Pending => Out(st, [], Wait)
  }

  function KubeletName(spec: Spec): JobName {
    KubeletJob(spec.cpus, spec.coresPerSocket, spec.memoryMiB)
  }

  function Kubelet(spec: Spec, e: Answers, st: Status): Out {
    if !Is(st, ExpandingCompute, ExpandingComputeFailed) && !Is(st, RestartingKubelet, RestartingKubeletFailed)
    then Out(st, [], Proceed)
    else
      var marked := if st.condition == False(RestartingKubeletFailed) then st else Mark(st, RestartingKubelet);
      HostJob(e, marked, KubeletName(spec), [], RestartingKubeletFailed)
  }

  function Volume(spec: Spec, e: Answers, st: Status): Out {
    if spec.diskGiB == 0 then Out(st, [], Proceed)
    else if e.volumeError then Out(st, [], Fail)
    else
      var seen := st.(resources := st.resources.(diskGiB := e.vm.diskGiB));
      if spec.diskGiB <= e.vm.diskGiB then Out(seen, [], Proceed)
      else if !Is(st, ExpandingDisk, ExpandingDiskFailed) then Out(Mark(seen, ExpandingDisk), [], Wait)
      else if !e.storageAllowed then Out(Mark(seen, ExpandingDisk), [], Wait)
      else if e.vm.volumeBusy then Out(seen, [], Wait)
      else if e.resizeError then Out(Mark(seen, ExpandingDiskFailed), [], Fail)
      else Out(seen.(hasTask := true), [ResizeVolume(spec.diskGiB)], Wait)
  }

  function Partition(spec: Spec, e: Answers, st: Status): Out {
    if !Is(st, ExpandingDisk, ExpandingDiskFailed) && !Is(st, ExpandingRootPartition, ExpandingRootPartitionFailed)
    then Out(st, [], Proceed)
    else
      var marked := if st.condition == False(ExpandingRootPartitionFailed) then st else Mark(st, ExpandingRootPartition);
      HostJob(e, marked, PartitionJob(spec.diskGiB), [], ExpandingRootPartitionFailed)
  }

  function GrowNics(spec: Spec, e: Answers, st: Status): Out {
    if NicsMet(spec, e.vm) then Out(st, [], Proceed)
    else
      var seen := if |st.network| != |e.vm.nics| then st.(network := e.vm.nics) else st;
      if !Is(st, AddingNic, AddingNicFailed) then Out(Mark(seen, AddingNic), [], Wait)
      else if e.vlanError then Out(seen, [], Fail)
      else if e.addNicsError then Out(Mark(seen, AddingNicFailed), [], Fail)
      else Out(Mark(seen, AddingNic).(hasTask := true),
               [AddNics(|e.vm.nics|, |spec.devices| - |e.vm.nics|)], Wait)
  }

  /** The index of the first NIC not yet recorded in the status; the management NIC is never configured. */
  function FirstNew(st: Status): nat {
    if |st.network| > 1 then |st.network| else 1
  }

  function Pairs(spec: Spec, nics: seq<Nic>, from: nat, to: nat): seq<MacType>
    requires from <= to <= |nics| && to <= |spec.devices|
  {
    seq(to - from, i requires 0 <= i < to - from => MacType(nics[from + i].mac, spec.devices[from + i]))
  }

  predicate HasAllMacs(nics: seq<Nic>, from: nat) {
    forall k :: from <= k < |nics| ==> nics[k].mac != ""
  }

  function ConfigureNics(spec: Spec, e: Answers, st: Status): Out {
    if !Is(st, AddingNic, AddingNicFailed) && !Is(st, SettingNicConfig, SettingNicConfigFailed)
       && st.condition != False(WaitingForMac)
    then Out(st, [], Proceed)
    else if |spec.devices| <= FirstNew(st) then Out(st, [], Proceed)
    else if |spec.devices| != |e.vm.nics| then Out(Mark(st, SettingNicConfigFailed), [], Wait)
    else if !HasAllMacs(e.vm.nics, FirstNew(st)) then Out(Mark(st, WaitingForMac), [], Wait)
    else
      var marked := if st.condition == False(SettingNicConfigFailed) then st else Mark(st, SettingNicConfig);
      HostJob(e, marked, NicJob(e.vm.nics[|e.vm.nics| - 1].mac),
              Pairs(spec, e.vm.nics, FirstNew(st), |spec.devices|), SettingNicConfigFailed)
  }

  predicate NetworkStage(c: Condition) {
    c.False? && (c.reason.AddingNic? || c.reason.AddingNicFailed? || c.reason.WaitingForMac? ||
                 c.reason.SettingNicConfig? || c.reason.SettingNicConfigFailed? || c.reason.WaitingForAddresses?)
  }

  predicate HasAllAddresses(spec: Spec, nics: seq<Nic>)
    requires |spec.devices| <= |nics|
  {
    forall i :: 0 <= i < |spec.devices| && !spec.devices[i].NoNetwork? ==> nics[i].ip != ""
  }

  function AwaitAddresses(spec: Spec, e: Answers, st: Status): Out
    requires NicsMet(spec, e.vm)
  {
    if !NetworkStage(st.condition) || HasAllAddresses(spec, e.vm.nics) then Out(st, [], Proceed)
    else Out(Mark(st, WaitingForAddresses), [], Wait)
  }

  /** A stage runs only when the one before it let the reconcile proceed. */
  function Chain(first: Out, second: Out): Out {
    if first.flow.Proceed? then Out(second.status, first.calls + second.calls, second.flow) else first
  }

  function Network(spec: Spec, e: Answers, st: Status): Out {
    if e.nicsError then Out(st, [], Fail)
    else if e.vm.nics == [] then Out(st, [], Wait)
    else if !NicsMet(spec, e.vm) then GrowNics(spec, e, st)
    else
      var configured := ConfigureNics(spec, e, st);
      Chain(configured, AwaitAddresses(spec, e, configured.status))
  }

  function ComputeStages(spec: Spec, e: Answers, st: Status): Out {
    var compute := Compute(spec, e, st);
    Chain(compute, Kubelet(spec, e, compute.status))
  }

  function DiskStages(spec: Spec, e: Answers, st: Status): Out {
    var volume := Volume(spec, e, st);
    Chain(volume, Partition(spec, e, volume.status))
  }

  function Finish(out: Out): Out {
    if out.flow.Proceed? && out.status.condition.False? then out.(status := out.status.(condition := True)) else out
  }

  /** The stages in order; the update is complete when the last one is passed. */
  function Reconciled(spec: Spec, e: Answers, st: Status): Out {
    var compute := ComputeStages(spec, e, st);
    var disk := DiskStages(spec, e, compute.status);
    Finish(Chain(compute, Chain(disk, Network(spec, e, disk.status))))
  }
}
