/** The stages of a reconcile that may hand a task on the machine's VM to Tower. */
module TaskStages {
  import opened Results
  import opened Tower
  import HU = HotUpdate
  import PG = PlacementGroup

  /** How a stage ended, and the task it submitted if it did. */
  datatype StageResult = StageResult(flow: Flow, task: Option<nat>)

  const GoOn := StageResult(Proceed, None)
  const Later := StageResult(Wait, None)
  const Broken := StageResult(Fail, None)

  function Submitted(id: nat): StageResult {
    StageResult(Wait, Some(id))
  }

  function Request(error: bool, id: nat): StageResult {
    if error then Broken else Submitted(id)
  }

  // ---- Placement group and resources, from their own models ----

  datatype JoinInput = JoinInput(spec: PG.Spec, e: PG.Answers, st: PG.Status, vm: PG.VM, target: string)

  predicate MovesVM(c: PG.Call) {
    c.Migrate?
  }

  function JoinStage(input: JoinInput, id: nat): StageResult {
    var out := PG.Join(input.spec, input.e, input.st, input.vm, input.target);
    StageResult(out.flow, if exists c :: c in out.calls && MovesVM(c) then Some(id) else None)
  }

  datatype ResourcesInput = ResourcesInput(spec: HU.Spec, e: HU.Answers, st: HU.Status)

  predicate ChangesVM(c: HU.Call) {
    c.UpdateVM? || c.ResizeVolume? || c.AddNics?
  }

  function Result(out: HU.Out, id: nat): StageResult {
    StageResult(out.flow, if exists c :: c in out.calls && ChangesVM(c) then Some(id) else None)
  }

  function ResourcesStage(input: ResourcesInput, id: nat): StageResult {
    Result(HU.Reconciled(input.spec, input.e, input.st), id)
  }

  // ---- GPU devices ----

  datatype GpuInput = GpuInput(
    required: bool, status: VMStatus, host: string, attached: bool, assignFailed: bool,
    selectError: bool, selected: Option<string>, migrateError: bool, attachError: bool,
    checkError: bool, usable: bool, infoError: bool, detachError: bool)

  function AttachGpus(g: GpuInput, id: nat): StageResult {
    if g.selectError then Broken
    else if g.selected.None? then Later
    else if g.selected.value != g.host then Request(g.migrateError, id)
    else Request(g.attachError, id)
  }

  function DetachGpus(g: GpuInput, id: nat): StageResult {
    Request(g.infoError || g.detachError, id)
  }

  function GpuStage(g: GpuInput, id: nat): StageResult {
    if !g.required || !g.status.Stopped? then GoOn
    else if !g.attached then AttachGpus(g, id)
    else if g.assignFailed then DetachGpus(g, id)
    else if g.checkError then Broken
    else if !g.usable then DetachGpus(g, id)
    else GoOn
  }

  // ---- Power ----

  datatype PowerInput = PowerInput(
    status: Option<VMStatus>, restrictedFieldsChanged: bool, customConfigAllowed: bool,
    firstBoot: bool, hotUpdating: bool, volume: ResourcesInput,
    ticket: bool, requestError: bool, recordError: bool, scheduleErrorRecorded: bool, retryError: bool, canRetry: bool)

  /** Power off, shut down and update only wait for a ticket. */
  function Ticketed(p: PowerInput, id: nat): StageResult {
    if !p.ticket then Later else Request(p.requestError, id)
  }

  function PowerOn(p: PowerInput, id: nat): StageResult {
    if p.recordError then Broken
    else if p.scheduleErrorRecorded && p.retryError then Broken
    else if p.scheduleErrorRecorded && !p.canRetry then Later
    else Ticketed(p, id)
  }

  function PowerStage(p: PowerInput, id: nat): StageResult {
    if p.status.None? then Later
    else
      match p.status.value
      case Running => if p.restrictedFieldsChanged && p.customConfigAllowed then Ticketed(p, id) else GoOn
      case Stopped =>
        if p.restrictedFieldsChanged && p.customConfigAllowed then Ticketed(p, id)
        else if p.firstBoot && !p.hotUpdating then
          // The disk grows before the first boot, then the guest takes it in by itself.
          var volume := HU.Volume(p.volume.spec, p.volume.e, p.volume.st);
          if volume.flow.Proceed? then PowerOn(p, id) else Result(volume, id)
        else PowerOn(p, id)
      case Suspended => Ticketed(p, id)
      case _ => Later
  }

  // ---- Every stage submits one task at most, and then makes the reconcile wait ----

  predicate Disciplined(r: StageResult, id: nat) {
    r.task.Some? ==> r.flow.Wait? && r.task.value == id
  }

  predicate OneChange(calls: seq<HU.Call>) {
    forall i, j :: 0 <= i < j < |calls| ==> !(ChangesVM(calls[i]) && ChangesVM(calls[j]))
  }

  predicate Changes(calls: seq<HU.Call>) {
    exists c :: c in calls && ChangesVM(c)
  }

  /** A VM is changed by the last call only, its task is recorded, and the pass waits. */
  predicate Orderly(out: HU.Out) {
    && OneChange(out.calls)
    && (Changes(out.calls) ==> out.flow.Wait? && out.status.hasTask)
  }

  lemma HostJobOrderly(e: HU.Answers, st: HU.Status, name: HU.JobName, macTypes: seq<HU.MacType>, failed: HU.Reason)
    ensures var out := HU.HostJob(e, st, name, macTypes, failed); !Changes(out.calls) && OneChange(out.calls)
  {
  }

  lemma ComputeOrderly(spec: HU.Spec, e: HU.Answers, st: HU.Status)
    ensures Orderly(HU.ComputeStages(spec, e, st))
  {
    var compute := HU.Compute(spec, e, st);
    var st1 := compute.status;
    var marked := if st1.condition == HU.False(HU.RestartingKubeletFailed) then st1 else HU.Mark(st1, HU.RestartingKubelet);
    HostJobOrderly(e, marked, HU.KubeletName(spec), [], HU.RestartingKubeletFailed);
    hide HU.HostJob;
  }

  lemma DiskOrderly(spec: HU.Spec, e: HU.Answers, st: HU.Status)
    ensures Orderly(HU.DiskStages(spec, e, st))
  {
    var volume := HU.Volume(spec, e, st);
    var st1 := volume.status;
    var marked :=
      if st1.condition == HU.False(HU.ExpandingRootPartitionFailed) then st1 else HU.Mark(st1, HU.ExpandingRootPartition);
    HostJobOrderly(e, marked, HU.PartitionJob(spec.diskGiB), [], HU.ExpandingRootPartitionFailed);
    hide HU.HostJob;
  }

  lemma ConfigureOrderly(spec: HU.Spec, e: HU.Answers, st: HU.Status)
    ensures var out := HU.ConfigureNics(spec, e, st); !Changes(out.calls) && OneChange(out.calls)
  {
  }

  lemma NetworkOrderly(spec: HU.Spec, e: HU.Answers, st: HU.Status)
    ensures Orderly(HU.Network(spec, e, st))
  {
    if !e.nicsError && e.vm.nics != [] && HU.NicsMet(spec, e.vm) {
      ConfigureOrderly(spec, e, st);
      hide HU.ConfigureNics;
    }
  }

  lemma ChainOrderly(first: HU.Out, second: HU.Out)
    requires Orderly(first) && Orderly(second)
    ensures Orderly(HU.Chain(first, second))
  {
  }

  lemma ResourcesOrderly(spec: HU.Spec, e: HU.Answers, st: HU.Status)
    ensures Orderly(HU.Reconciled(spec, e, st))
  {
    hide HU.ComputeStages, HU.DiskStages, HU.Network, HU.Chain;
    var compute := HU.ComputeStages(spec, e, st);
    var disk := HU.DiskStages(spec, e, compute.status);
    var network := HU.Network(spec, e, disk.status);
    ComputeOrderly(spec, e, st);
    DiskOrderly(spec, e, compute.status);
    NetworkOrderly(spec, e, disk.status);
    ChainOrderly(disk, network);
    ChainOrderly(compute, HU.Chain(disk, network));
  }

  lemma JoinDisciplined(input: JoinInput, id: nat)
    ensures Disciplined(JoinStage(input, id), id)
  {
    hide PG.Targets, PG.UsedHosts, PG.RecordedHosts;
  }

  lemma GpuDisciplined(g: GpuInput, id: nat)
    ensures Disciplined(GpuStage(g, id), id)
  {
  }

  lemma PowerDisciplined(p: PowerInput, id: nat)
    ensures Disciplined(PowerStage(p, id), id)
  {
  }

  lemma ResourcesDisciplined(input: ResourcesInput, id: nat)
    ensures Disciplined(ResourcesStage(input, id), id)
  {
    hide HU.Reconciled;
    ResourcesOrderly(input.spec, input.e, input.st);
  }

  // ---- The stages of one reconcile ----

  datatype StageInputs = StageInputs(join: JoinInput, gpu: GpuInput, power: PowerInput, resources: ResourcesInput)

  /** The tasks submitted by a stage, and by the stages after it if it lets the reconcile go on. */
  function Then(result: StageResult, rest: seq<nat>): seq<nat> {
    var own := if result.task.Some? then [result.task.value] else [];
    if result.flow.Proceed? then own + rest else own
  }

  /** The tasks submitted through the stages, `id` being the next one Tower would create. */
  function StageTasks(input: StageInputs, id: nat): seq<nat> {
    Then(JoinStage(input.join, id), Then(GpuStage(input.gpu, id + 1), LaterTasks(input, id)))
  }

  function LaterTasks(input: StageInputs, id: nat): seq<nat> {
    Then(PowerStage(input.power, id + 2), Then(ResourcesStage(input.resources, id + 3), []))
  }

  /** However the stages go, one reconcile submits at most one task through them. */
  lemma OneTaskPerReconcile(input: StageInputs, id: nat)
    ensures var tasks := StageTasks(input, id); |tasks| <= 1 && forall t :: t in tasks ==> id <= t
  {
    hide JoinStage, GpuStage, PowerStage, ResourcesStage;
    JoinDisciplined(input.join, id);
    GpuDisciplined(input.gpu, id + 1);
    PowerDisciplined(input.power, id + 2);
    ResourcesDisciplined(input.resources, id + 3);
  }

  // ---- Which answers lead to a task ----

  /** Nothing recorded forbids powering on, or a retry is allowed. */
  predicate MayStart(p: PowerInput) {
    !p.recordError && (p.scheduleErrorRecorded ==> !p.retryError && p.canRetry)
  }

  /** Before its first boot the VM's disk is smaller than asked for. */
  predicate DiskTooSmall(p: PowerInput) {
    p.firstBoot && !p.hotUpdating && p.volume.spec.diskGiB != 0 && p.volume.e.vm.diskGiB < p.volume.spec.diskGiB
  }

  predicate DiskUnread(p: PowerInput) {
    p.firstBoot && !p.hotUpdating && p.volume.spec.diskGiB != 0 && p.volume.e.volumeError
  }

  predicate DiskMayGrow(p: PowerInput) {
    && (p.volume.st.condition == HU.False(HU.ExpandingDisk) || p.volume.st.condition == HU.False(HU.ExpandingDiskFailed))
    && p.volume.e.storageAllowed && !p.volume.e.vm.volumeBusy && !p.volume.e.resizeError
  }

  /** A suspended VM is stopped; a changed configuration is restored, for which a running VM is stopped first;
      a stopped VM gets its disk before its first boot and is then powered on. */
  predicate PowerWanted(p: PowerInput) {
    var granted, restore := p.ticket && !p.requestError, p.restrictedFieldsChanged && p.customConfigAllowed;
    || (p.status == Some(Suspended) && granted)
    || (p.status == Some(Running) && restore && granted)
    || (p.status == Some(Stopped) && restore && granted)
    || (p.status == Some(Stopped) && !restore && !DiskUnread(p) && DiskTooSmall(p) && DiskMayGrow(p))
    || (p.status == Some(Stopped) && !restore && !DiskUnread(p) && !DiskTooSmall(p) && MayStart(p) && granted)
  }

  lemma PowerTaskIff(p: PowerInput, id: nat)
    ensures PowerStage(p, id).task == if PowerWanted(p) then Some(id) else None
    ensures PowerStage(p, id).flow.Proceed? ==> p.status == Some(Running)
  {
    var volume := HU.Volume(p.volume.spec, p.volume.e, p.volume.st);
    if volume.calls != [] {
      assert volume.calls[0] in volume.calls && ChangesVM(volume.calls[0]);
    }
  }

  /** Devices are attached where there are none, from another host after a migration, and detached where they
      were refused at start or cannot be used; only a stopped VM is touched. */
  predicate GpuChangeWanted(g: GpuInput) {
    && g.required && g.status == Stopped
    && (if !g.attached then
          && !g.selectError && g.selected.Some?
          && (if g.selected == Some(g.host) then !g.attachError else !g.migrateError)
        else (g.assignFailed || (!g.checkError && !g.usable)) && !g.infoError && !g.detachError)
  }

  /** Some call that the devices of a stopped VM need has failed. */
  predicate GpuCallFails(g: GpuInput) {
    && g.required && g.status == Stopped
    && (if !g.attached then
          g.selectError || (g.selected == Some(g.host) && g.attachError)
          || (g.selected.Some? && g.selected != Some(g.host) && g.migrateError)
        else
          (!g.assignFailed && g.checkError) || ((g.assignFailed || !g.usable) && (g.infoError || g.detachError)))
  }

  lemma GpuTaskIff(g: GpuInput, id: nat)
    ensures GpuStage(g, id).task == if GpuChangeWanted(g) then Some(id) else None
    ensures GpuStage(g, id).flow.Fail? <==> GpuCallFails(g)
    ensures GpuStage(g, id).flow.Proceed? ==> g.required && g.status == Stopped ==> g.attached && !g.assignFailed && g.usable
  {
  }

  /** A stopped VM that is in its group, has its devices and its disk, and may start, is powered on. */
  lemma StoppedIsPoweredOn(input: StageInputs, id: nat)
    requires JoinStage(input.join, id).flow.Proceed? && GpuStage(input.gpu, id + 1).flow.Proceed?
    requires var p := input.power;
             && p.status == Some(Stopped) && !(p.restrictedFieldsChanged && p.customConfigAllowed)
             && !DiskUnread(p) && !DiskTooSmall(p) && MayStart(p) && p.ticket && !p.requestError
    ensures StageTasks(input, id) == [id + 2]
  {
    hide JoinStage, GpuStage, PowerStage, ResourcesStage;
    JoinDisciplined(input.join, id);
    GpuDisciplined(input.gpu, id + 1);
    PowerDisciplined(input.power, id + 2);
    PowerTaskIff(input.power, id + 2);
  }
}
