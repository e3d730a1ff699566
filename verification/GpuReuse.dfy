/** Whether devices already reserved for a machine may still be used by it. */
module GpuReuse {
  import opened Results
  import opened Int32
  import opened Sums
  import opened GpuDevices
  import opened GpuLocks
  import opened GpuSelect

  /** The GPU part of a machine's specification. */
  datatype Machine = Machine(name: string, gpus: seq<Requirement>, vgpus: seq<Requirement>) {
    function Kind(): Grouping {
      if gpus != [] then ByModel else ByVGPUType
    }

    function Required(): seq<Requirement> {
      if gpus != [] then gpus else vgpus
    }
  }

  predicate TakenByOthers(gpu: GpuInfo, name: string) {
    var vms := Occupying(gpu.vms);
    |vms| > 1 || (|vms| == 1 && vms[0].name != name)
  }

  /** Somebody else occupies the device, or more than one does. */
  lemma TakenIff(gpu: GpuInfo, name: string)
    ensures TakenByOthers(gpu, name) <==>
            || (exists i :: 0 <= i < |gpu.vms| && Occupies(gpu.vms[i]) && gpu.vms[i].name != name)
            || (exists i, j :: 0 <= i < j < |gpu.vms| && Occupies(gpu.vms[i]) && Occupies(gpu.vms[j]))
  {
    var vms := Occupying(gpu.vms);
    OccupyingCount(gpu.vms);
    if i :| 0 <= i < |gpu.vms| && Occupies(gpu.vms[i]) && gpu.vms[i].name != name {
      assert gpu.vms[i] in vms;
    }
    if |vms| == 1 {
      assert vms[0] in vms;
      var i :| 0 <= i < |gpu.vms| && gpu.vms[i] == vms[0];
      assert Occupies(gpu.vms[i]);
    }
  }

  predicate AnyOccupies(vms: seq<AttachedVM>) {
    exists i :: 0 <= i < |vms| && Occupies(vms[i])
  }

  predicate TwoOccupy(vms: seq<AttachedVM>) {
    exists i, j :: 0 <= i < j < |vms| && Occupies(vms[i]) && Occupies(vms[j])
  }

  lemma OneMore(vms: seq<AttachedVM>)
    requires vms != []
    ensures var n := |vms| - 1;
            && (AnyOccupies(vms) <==> AnyOccupies(vms[..n]) || Occupies(vms[n]))
            && (TwoOccupy(vms) <==> TwoOccupy(vms[..n]) || (AnyOccupies(vms[..n]) && Occupies(vms[n])))
  {
    hide Occupies;
    var n := |vms| - 1;
    var front := vms[..n];
    assert forall i :: 0 <= i < n ==> front[i] == vms[i];
    if AnyOccupies(front) {
      var i :| 0 <= i < n && Occupies(front[i]);
      assert Occupies(vms[i]);
    }
    if TwoOccupy(front) {
      var i, j :| 0 <= i < j < n && Occupies(front[i]) && Occupies(front[j]);
      assert Occupies(vms[i]) && Occupies(vms[j]);
    }
    if TwoOccupy(vms) {
      var i, j :| 0 <= i < j < |vms| && Occupies(vms[i]) && Occupies(vms[j]);
      assert Occupies(front[i]);
    }
  }

  lemma {:induction false} OccupyingCount(vms: seq<AttachedVM>)
    ensures |Occupying(vms)| > 0 <==> AnyOccupies(vms)
    ensures |Occupying(vms)| > 1 <==> TwoOccupy(vms)
  {
    hide Occupies, AnyOccupies, TwoOccupy;
    if vms == [] {
      NoneOccupies(vms);
    } else {
      OccupyingCount(vms[..|vms| - 1]);
      OneMore(vms);
    }
  }

  lemma NoneOccupies(vms: seq<AttachedVM>)
    requires vms == []
    ensures !AnyOccupies(vms) && !TwoOccupy(vms)
  {
  }

  predicate OfType(infos: GpuInfos, name: string) {
    exists id :: id in infos && infos[id].vgpuType == name
  }

  /** Some device is held by another machine, or some vGPU type has too little left. */
  ghost predicate Unusable(infos: GpuInfos, machine: Machine) {
    if machine.gpus != [] then exists id :: id in infos && TakenByOthers(infos[id], machine.name)
    else
      infos != map[] &&
      exists i :: 0 <= i < |machine.vgpus| &&
        (!OfType(infos, machine.vgpus[i].name) ||
         machine.vgpus[i].count > Wrap(Total(infos, ByVGPUType, machine.vgpus[i].name)))
  }

  ghost predicate CountsByType(counts: map<string, int>, infos: GpuInfos) {
    && (forall name :: name in counts <==> OfType(infos, name))
    && (forall name :: name in counts ==> counts[name] == Wrap(Total(infos, ByVGPUType, name)))
  }

  lemma CountsByTypeGrow(counts: map<string, int>, seen: GpuInfos, id: string, gpu: GpuInfo)
    requires CountsByType(counts, seen) && id !in seen
    ensures var name := gpu.vgpuType;
            var sum := if name in counts then counts[name] + Available(gpu) else Available(gpu);
            CountsByType(counts[name := Wrap(sum)], seen[id := gpu])
  {
    var all := seen[id := gpu];
    assert all - {id} == seen;
    assert OfType(all, gpu.vgpuType) by { assert all[id] == gpu; }
    forall name ensures OfType(all, name) <==> name == gpu.vgpuType || OfType(seen, name) {
      if OfType(seen, name) {
        var k :| k in seen && seen[k].vgpuType == name;
        assert all[k].vgpuType == name;
      }
    }
    forall name ensures Total(all, ByVGPUType, name)
                     == Total(seen, ByVGPUType, name) + Part(gpu, ByVGPUType, name) {
      TotalSplit(all, ByVGPUType, name, id);
    }
    if gpu.vgpuType in counts {
      WrapAdd(Total(seen, ByVGPUType, gpu.vgpuType), Available(gpu));
    } else {
      TotalOfNone(seen, ByVGPUType, gpu.vgpuType);
    }
  }

  method CountByType(infos: GpuInfos) returns (counts: map<string, int>)
    ensures CountsByType(counts, infos)
  {
    counts := map[];
    ghost var seen: GpuInfos := map[];
    var todo := infos.Keys;
    while todo != {}
      invariant todo <= infos.Keys
      invariant seen == map id | id in infos && id !in todo :: infos[id]
      invariant CountsByType(counts, seen)
      decreases |todo|
    {
      var id :| id in todo;
      todo := todo - {id};
      var gpu := infos[id];
      CountsByTypeGrow(counts, seen, id, gpu);
      if gpu.vgpuType in counts {
        counts := counts[gpu.vgpuType := Wrap(counts[gpu.vgpuType] + Available(gpu))];
      } else {
        counts := counts[gpu.vgpuType := Wrap(Available(gpu))];
      }
      seen := seen[id := gpu];
    }
    assert seen == infos;
  }

  method HasUnusable(infos: GpuInfos, machine: Machine) returns (bad: bool)
    ensures bad <==> Unusable(infos, machine)
  {
    if machine.gpus != [] {
      var todo := infos.Keys;
      while todo != {}
        invariant todo <= infos.Keys
        invariant forall id :: id in infos && id !in todo ==> !TakenByOthers(infos[id], machine.name)
        decreases |todo|
      {
        var id :| id in todo;
        todo := todo - {id};
        if TakenByOthers(infos[id], machine.name) {
          return true;
        }
      }
      return false;
    }
    if infos == map[] {
      return false;
    }
    var counts := CountByType(infos);
    for i := 0 to |machine.vgpus|
      invariant forall j :: 0 <= j < i ==>
        OfType(infos, machine.vgpus[j].name) &&
        machine.vgpus[j].count <= Wrap(Total(infos, ByVGPUType, machine.vgpus[j].name))
    {
      if machine.vgpus[i].name !in counts || machine.vgpus[i].count > counts[machine.vgpus[i].name] {
        return true;
      }
    }
    return false;
  }

  // ---- The whole test of devices that are held already ----

  predicate Distinct(ids: seq<string>) {
    forall i, j :: 0 <= i < j < |ids| ==> ids[i] != ids[j]
  }

  /** What is known of the devices asked for; a repeated ID is answered once. */
  function Report(infos: GpuInfos, ids: seq<string>): GpuInfos {
    map id | id in infos && id in ids :: infos[id]
  }

  /** On one snapshot: the devices are all there, none is named twice, and none is unusable. */
  ghost predicate Reusable(infos: GpuInfos, ids: seq<string>, machine: Machine) {
    Distinct(ids) && (forall id :: id in ids ==> id in infos) && !Unusable(Report(infos, ids), machine)
  }

  lemma {:induction false} ReportSize(infos: GpuInfos, ids: seq<string>)
    ensures |Report(infos, ids)| <= |ids|
    ensures |Report(infos, ids)| == |ids| <==> Distinct(ids) && forall id :: id in ids ==> id in infos
  {
    if ids != [] {
      var n := |ids| - 1;
      var front, last := ids[..n], ids[n];
      assert ids == front + [last];
      ReportSize(infos, front);
      var seen := Report(infos, front);
      if last in infos && last !in front {
        assert Report(infos, ids) == seen[last := infos[last]];
        assert Distinct(front) ==> Distinct(ids);
      } else {
        assert Report(infos, ids) == seen;
        if last in front {
          var k :| 0 <= k < n && front[k] == last;
          assert ids[k] == ids[n];
        }
      }
    }
  }

  /** Devices found in the cache leave it. */
  method TakeFromCache(cache: GpuInfos, ids: seq<string>) returns (found: GpuInfos, left: GpuInfos)
    ensures found == Report(cache, ids)
    ensures left == map id | id in cache && id !in ids :: cache[id]
  {
    found, left := map[], cache;
    for i := 0 to |ids|
      invariant found == Report(cache, ids[..i])
      invariant left == map id | id in cache && id !in ids[..i] :: cache[id]
    {
      assert ids[..i + 1] == ids[..i] + [ids[i]];
      if ids[i] in left {
        found := found[ids[i] := left[ids[i]]];
        left := left - {ids[i]};
      }
    }
    assert ids[..|ids|] == ids;
  }

  /** The cache holds nothing but entries of Tower's snapshot. */
  predicate PartOf(cache: GpuInfos, infos: GpuInfos) {
    forall id :: id in cache ==> id in infos && cache[id] == infos[id]
  }

  lemma SameReport(part: GpuInfos, infos: GpuInfos, ids: seq<string>)
    requires PartOf(part, infos) && forall id :: id in ids ==> id in part
    ensures Report(part, ids) == Report(infos, ids)
  {
  }

  /** Whether devices held by the machine may be used. On one snapshot it does not matter whether the
      cache or Tower is asked, and the cache stays part of the snapshot. */
  method CanBeReused(cache: GpuInfos, infos: GpuInfos, fetchError: bool, ids: seq<string>, machine: Machine)
    returns (ok: bool, error: bool, left: GpuInfos)
    requires PartOf(cache, infos)
    ensures error <==> fetchError && |Report(cache, ids)| != |ids|
    ensures !error ==> (ok <==> Reusable(infos, ids, machine))
    ensures PartOf(left, infos)
  {
    hide Unusable;
    ReportSize(cache, ids);
    ReportSize(infos, ids);
    var reported;
    reported, left := TakeFromCache(cache, ids);
    if |reported| != |ids| {
      if fetchError {
        return false, true, left;
      }
      reported := Report(infos, ids);
      if |reported| != |ids| {
        return false, false, left;
      }
      left := left + reported;
    } else {
      SameReport(cache, infos, ids);
    }
    var bad := HasUnusable(reported, machine);
    ok, error := !bad, false;
  }

  // ---- A selection passes that test exactly when it names no device twice ----

  function IDsOf(selected: seq<DeviceRequest>): (ids: seq<string>)
    ensures |ids| == |selected| && forall i :: 0 <= i < |ids| ==> ids[i] == selected[i].id
  {
    seq(|selected|, i requires 0 <= i < |selected| => selected[i].id)
  }

  /** What Tower reports, on the same snapshot, for the selected devices alone. */
  function Reported(infos: GpuInfos, selected: seq<DeviceRequest>): GpuInfos {
    Report(infos, IDsOf(selected))
  }

  lemma {:induction false} GivenWithinTotal(selected: seq<DeviceRequest>, infos: GpuInfos, kind: Grouping, name: string)
    requires DistinctIDs(selected) && forall r :: r in selected ==> DrawnFrom(r, infos)
    ensures Given(selected, infos, kind, name) <= Total(infos, kind, name)
    ensures Given(selected, infos, kind, name) > 0 ==> exists id :: id in infos && kind.Name(infos[id]) == name
    decreases |selected|
  {
    if selected == [] {
      TotalNonNegative(infos, kind, name);
    } else {
      var id, rest := selected[0].id, infos - {selected[0].id};
      assert selected[0] in selected;
      TotalSplit(infos, kind, name, id);
      forall r | r in selected[1..] ensures r in selected && r.id != id {}
      GivenWithinTotal(selected[1..], rest, kind, name);
      GivenSame(selected[1..], rest, infos, kind, name);
    }
  }

  lemma TotalNonNegative(infos: GpuInfos, kind: Grouping, name: string)
    ensures Total(infos, kind, name) >= 0
  {
    Fewer(infos, infos, gpu => Part(gpu, kind, name));
  }

  lemma {:induction false} GivenSame(selected: seq<DeviceRequest>, fewer: GpuInfos, infos: GpuInfos,
                                     kind: Grouping, name: string)
    requires forall r :: r in selected ==> r.id in fewer && r.id in infos && fewer[r.id] == infos[r.id]
    ensures Given(selected, fewer, kind, name) == Given(selected, infos, kind, name)
  {
    if selected != [] {
      assert selected[0] in selected;
      GivenSame(selected[1..], fewer, infos, kind, name);
    }
  }

  lemma ServedTypeHasEnough(selected: seq<DeviceRequest>, infos: GpuInfos, required: seq<Requirement>, i: nat)
    requires Serves(selected, infos, ByVGPUType, required) && Positive(required) && i < |required|
    ensures OfType(Reported(infos, selected), required[i].name)
    ensures required[i].count <= Total(Reported(infos, selected), ByVGPUType, required[i].name)
  {
    var reported, name := Reported(infos, selected), required[i].name;
    GivenSame(selected, reported, infos, ByVGPUType, name);
    GivenWithinTotal(selected, reported, ByVGPUType, name);
    var id :| id in reported && ByVGPUType.Name(reported[id]) == name;
  }

  lemma SelectedGPUsAreFree(selected: seq<DeviceRequest>, infos: GpuInfos, id: string, name: string)
    requires forall r :: r in selected ==> DrawnFrom(r, infos)
    requires forall k :: k in infos ==> infos[k].usage.Passthrough?
    requires id in Reported(infos, selected)
    ensures !TakenByOthers(infos[id], name)
  {
    var k :| 0 <= k < |selected| && selected[k].id == id;
    assert DrawnFrom(selected[k], infos);
  }

  lemma SelectedVGPUsSuffice(selected: seq<DeviceRequest>, infos: GpuInfos, machine: Machine, reported: GpuInfos)
    requires machine.gpus == [] && reported == Reported(infos, selected)
    requires Serves(selected, infos, ByVGPUType, machine.vgpus) && Positive(machine.vgpus)
    requires forall i :: 0 <= i < |machine.vgpus| ==> Total(reported, ByVGPUType, machine.vgpus[i].name) <= MAX
    ensures !Unusable(reported, machine)
  {
    forall i | 0 <= i < |machine.vgpus|
      ensures OfType(reported, machine.vgpus[i].name)
      ensures machine.vgpus[i].count <= Wrap(Total(reported, ByVGPUType, machine.vgpus[i].name))
    {
      ServedTypeHasEnough(selected, infos, machine.vgpus, i);
    }
  }

  /** Devices that serve a machine exactly are usable, judged on the snapshot they were selected from. */
  lemma SelectionIsUsable(selected: seq<DeviceRequest>, infos: GpuInfos, machine: Machine, reported: GpuInfos)
    requires Serves(selected, infos, machine.Kind(), machine.Required()) && Positive(machine.Required())
    requires machine.gpus != [] ==> forall id :: id in infos ==> infos[id].usage.Passthrough?
    requires reported == Reported(infos, selected)
    requires forall i :: 0 <= i < |machine.vgpus| ==> Total(reported, ByVGPUType, machine.vgpus[i].name) <= MAX
    ensures !Unusable(reported, machine)
  {
    if machine.gpus != [] {
      forall id | id in reported ensures !TakenByOthers(reported[id], machine.name) {
        SelectedGPUsAreFree(selected, infos, id, machine.name);
      }
    } else {
      SelectedVGPUsSuffice(selected, infos, machine, reported);
    }
  }

  lemma {:induction false} SelectionDraws(groups: Groups, infos: GpuInfos, kind: Grouping, required: seq<Requirement>)
    requires IsGrouping(groups, infos, kind) && Positive(required) && SelectFrom(groups, required).Some?
    ensures forall r :: r in SelectFrom(groups, required).value ==> DrawnFrom(r, infos)
  {
    if required != [] {
      var n := |required| - 1;
      SelectionDraws(groups, infos, kind, required[..n]);
      TakeDraws(groups[required[n].name], infos, required[n].count);
    }
  }

  /** A lock just taken on devices of a snapshot passes the test on that snapshot exactly when the machine
      names no model or type twice; otherwise it is given up and taken again at every reconcile. */
  lemma FreshLockReusableIff(groups: Groups, infos: GpuInfos, machine: Machine, snapshot: GpuInfos)
    requires IsGrouping(groups, infos, machine.Kind()) && Positive(machine.Required())
    requires SelectFrom(groups, machine.Required()).Some?
    requires machine.gpus != [] ==> forall id :: id in infos ==> infos[id].usage.Passthrough?
    requires PartOf(infos, snapshot)
    requires forall name :: Total(Reported(snapshot, Selected(groups, machine.Required())), ByVGPUType, name) <= MAX
    ensures Reusable(snapshot, IDsOf(Selected(groups, machine.Required())), machine) <==> DistinctNames(machine.Required())
  {
    hide Unusable, Total, SelectFrom, IsGrouping;
    var required := machine.Required();
    var selected := Selected(groups, required);
    SelectionDraws(groups, infos, machine.Kind(), required);
    SelectionDistinctIff(groups, infos, machine.Kind(), required);
    DistinctEitherWay(selected);
    DrawnAreThere(selected, infos, snapshot);
    if DistinctNames(required) {
      SelectionServes(groups, infos, machine.Kind(), required);
      SelectionIsUsable(selected, infos, machine, Reported(infos, selected));
    }
  }

  lemma DistinctEitherWay(selected: seq<DeviceRequest>)
    ensures Distinct(IDsOf(selected)) <==> DistinctIDs(selected)
  {
  }

  lemma DrawnAreThere(selected: seq<DeviceRequest>, infos: GpuInfos, snapshot: GpuInfos)
    requires (forall r :: r in selected ==> DrawnFrom(r, infos)) && PartOf(infos, snapshot)
    ensures Reported(snapshot, selected) == Reported(infos, selected)
    ensures forall id :: id in IDsOf(selected) ==> id in snapshot
  {
    forall id | id in IDsOf(selected) ensures id in infos {
      var k :| 0 <= k < |selected| && selected[k].id == id;
      assert DrawnFrom(selected[k], infos);
    }
    SameReport(infos, snapshot, IDsOf(selected));
  }
}
