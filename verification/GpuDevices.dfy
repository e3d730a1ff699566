/** GPU devices as Tower reports them, and how many units of each can still be allocated. */
module GpuDevices {
  import opened Tower
  import opened Sums

  datatype Usage = Passthrough | VGPU

  /** A virtual machine attached to a device; `inRecycleBin` is false when Tower leaves it out. */
  datatype AttachedVM = AttachedVM(name: string, status: VMStatus, inRecycleBin: bool)

  datatype GpuInfo = GpuInfo(
    id: string, host: string, model: string, vgpuType: string,
    usage: Usage, availableVgpus: nat, vms: seq<AttachedVM>)

  /** A keyed set of devices: the key of each entry is the ID of its device. */
  type GpuInfos = map<string, GpuInfo>

  predicate KeyedByID(infos: GpuInfos) {
    forall id :: id in infos ==> infos[id].id == id
  }

  predicate Occupies(vm: AttachedVM) {
    !vm.inRecycleBin && vm.status != Stopped
  }

  function Occupying(vms: seq<AttachedVM>): (r: seq<AttachedVM>)
    ensures forall vm :: vm in r <==> vm in vms && Occupies(vm)
    ensures forall vm :: multiset(r)[vm] == if Occupies(vm) then multiset(vms)[vm] else 0
  {
    if vms == [] then []
    else
      var front := Occupying(vms[..|vms| - 1]);
      var last := vms[|vms| - 1];
      assert vms == vms[..|vms| - 1] + [last];
      if Occupies(last) then front + [last] else front
  }

  function Available(gpu: GpuInfo): (count: nat)
    ensures gpu.usage.Passthrough? ==>
              count <= 1 && (count == 1 <==> forall vm :: vm in gpu.vms ==> !Occupies(vm))
    ensures gpu.usage.VGPU? ==> count == gpu.availableVgpus
  {
    if gpu.usage.Passthrough? then
      var vms := Occupying(gpu.vms);
      assert |vms| > 0 ==> vms[0] in vms;
      if |vms| > 0 then 0 else 1
    else gpu.availableVgpus
  }

  /** What a machine asks for is grouped by device model, or by vGPU type. */
  datatype Grouping = ByModel | ByVGPUType {
    function Name(gpu: GpuInfo): string {
      if ByModel? then gpu.model else gpu.vgpuType
    }
  }

  /** All that can be allocated of one model or type, over all devices. */
  ghost function Total(infos: GpuInfos, kind: Grouping, name: string): int {
    Sum(infos, gpu => Part(gpu, kind, name))
  }

  function Part(gpu: GpuInfo, kind: Grouping, name: string): int {
    if kind.Name(gpu) == name then Available(gpu) else 0
  }

  lemma TotalSplit(infos: GpuInfos, kind: Grouping, name: string, id: string)
    requires id in infos
    ensures Total(infos, kind, name) == Total(infos - {id}, kind, name) + Part(infos[id], kind, name)
  {
    Split(infos, gpu => Part(gpu, kind, name), id);
  }

  lemma TotalOfNone(infos: GpuInfos, kind: Grouping, name: string)
    requires forall id :: id in infos ==> kind.Name(infos[id]) != name
    ensures Total(infos, kind, name) == 0
  {
    OfZeros(infos, gpu => Part(gpu, kind, name));
  }
}
