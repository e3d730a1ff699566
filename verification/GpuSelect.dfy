/** Choosing the devices of one host for a virtual machine. */
module GpuSelect {
  import opened Results
  import opened GpuDevices
  import opened GpuLocks

  /** A number of devices of one model, or of vGPUs of one type. */
  datatype Requirement = Requirement(name: string, count: int)

  type Groups = map<string, seq<GpuInfo>>

  // ---- Grouping ----

  predicate DistinctDevices(gpus: seq<GpuInfo>) {
    forall i, j :: 0 <= i < j < |gpus| ==> gpus[i].id != gpus[j].id
  }

  predicate GroupOf(gpus: seq<GpuInfo>, infos: GpuInfos, kind: Grouping, name: string) {
    && DistinctDevices(gpus)
    && (forall i :: 0 <= i < |gpus| ==> gpus[i].id in infos && infos[gpus[i].id] == gpus[i] && kind.Name(gpus[i]) == name)
    && (forall id :: id in infos && kind.Name(infos[id]) == name ==> infos[id] in gpus)
  }

  /** Every device is listed once, in some order, under its own model or type. */
  predicate IsGrouping(groups: Groups, infos: GpuInfos, kind: Grouping) {
    && (forall name :: name in groups ==> GroupOf(groups[name], infos, kind, name))
    && (forall id :: id in infos ==> kind.Name(infos[id]) in groups)
  }

  lemma GroupGrows(gpus: seq<GpuInfo>, seen: GpuInfos, kind: Grouping, gpu: GpuInfo)
    requires GroupOf(gpus, seen, kind, kind.Name(gpu)) && gpu.id !in seen
    ensures GroupOf(gpus + [gpu], seen[gpu.id := gpu], kind, kind.Name(gpu))
  {
  }

  lemma OtherGroupsStay(gpus: seq<GpuInfo>, seen: GpuInfos, kind: Grouping, name: string, gpu: GpuInfo)
    requires GroupOf(gpus, seen, kind, name) && gpu.id !in seen && name != kind.Name(gpu)
    ensures GroupOf(gpus, seen[gpu.id := gpu], kind, name)
  {
  }

  function Listed(groups: Groups, name: string): seq<GpuInfo> {
    if name in groups then groups[name] else []
  }

  lemma GroupingGrows(groups: Groups, seen: GpuInfos, kind: Grouping, gpu: GpuInfo)
    requires IsGrouping(groups, seen, kind) && gpu.id !in seen
    ensures IsGrouping(groups[kind.Name(gpu) := Listed(groups, kind.Name(gpu)) + [gpu]], seen[gpu.id := gpu], kind)
  {
    GroupGrows(Listed(groups, kind.Name(gpu)), seen, kind, gpu);
    forall name | name in groups && name != kind.Name(gpu)
      ensures GroupOf(groups[name], seen[gpu.id := gpu], kind, name)
    {
      OtherGroupsStay(groups[name], seen, kind, name, gpu);
    }
  }

  /** Go visits a map in no fixed order; so does this loop, and every order is covered. */
  method Group(infos: GpuInfos, kind: Grouping) returns (groups: Groups)
    requires KeyedByID(infos)
    ensures IsGrouping(groups, infos, kind)
  {
    groups := map[];
    ghost var seen: GpuInfos := map[];
    var todo := infos.Keys;
    while todo != {}
      invariant todo <= infos.Keys
      invariant seen == map id | id in infos && id !in todo :: infos[id]
      invariant IsGrouping(groups, seen, kind)
      decreases |todo|
    {
      var id :| id in todo;
      todo := todo - {id};
      var gpu := infos[id];
      var name := kind.Name(gpu);
      GroupingGrows(groups, seen, kind, gpu);
      assert [] + [gpu] == [gpu];
      if name !in groups {
        groups := groups[name := [gpu]];
      } else {
        groups := groups[name := groups[name] + [gpu]];
      }
      seen := seen[id := gpu];
    }
    assert seen == infos;
  }

  function Cover(gpus: seq<GpuInfo>): nat {
    if gpus == [] then 0 else Available(gpus[0]) + Cover(gpus[1..])
  }

  /** A group lists exactly the availability the unordered map holds of its name. */
  lemma {:induction false} CoverIsTotal(gpus: seq<GpuInfo>, infos: GpuInfos, kind: Grouping, name: string)
    requires GroupOf(gpus, infos, kind, name)
    requires KeyedByID(infos)
    ensures Cover(gpus) == Total(infos, kind, name)
  {
    if gpus == [] {
      TotalOfNone(infos, kind, name);
    } else {
      var id, rest := gpus[0].id, gpus[1..];
      TotalSplit(infos, kind, name, id);
      forall k | k in infos - {id} && kind.Name(infos[k]) == name ensures infos[k] in rest {
        assert infos[k] in gpus && infos[k] != gpus[0];
      }
      CoverIsTotal(rest, infos - {id}, kind, name);
    }
  }

  // ---- Taking from one group ----

  /** Uses up one device after another until the need is met. */
  function Take(gpus: seq<GpuInfo>, need: int): (taken: seq<DeviceRequest>)
  {
    if gpus == [] then []
    else
      var id, available := gpus[0].id, Available(gpus[0]);
      if available <= 0 then Take(gpus[1..], need)
      else if available >= need then [DeviceRequest(id, need, available)]
      else [DeviceRequest(id, available, available)] + Take(gpus[1..], need - available)
  }

  function Amount(requests: seq<DeviceRequest>): int {
    if requests == [] then 0 else requests[0].amount + Amount(requests[1..])
  }

  predicate DistinctIDs(requests: seq<DeviceRequest>) {
    forall i, j :: 0 <= i < j < |requests| ==> requests[i].id != requests[j].id
  }

  ghost function IDs(gpus: seq<GpuInfo>): set<string> {
    set i | 0 <= i < |gpus| :: gpus[i].id
  }

  /** The request takes some, and no more than there is, of a device on offer. */
  predicate DrawnFrom(request: DeviceRequest, infos: GpuInfos) {
    request.id in infos && 0 < request.amount <= request.available == Available(infos[request.id])
  }

  lemma IDsOfRest(gpus: seq<GpuInfo>)
    requires gpus != []
    ensures IDs(gpus) == {gpus[0].id} + IDs(gpus[1..])
  {
  }

  lemma {:induction false} TakeDraws(gpus: seq<GpuInfo>, infos: GpuInfos, need: int)
    requires need >= 1
    requires forall i :: 0 <= i < |gpus| ==> gpus[i].id in infos && infos[gpus[i].id] == gpus[i]
    ensures forall r :: r in Take(gpus, need) ==> DrawnFrom(r, infos) && r.id in IDs(gpus)
  {
    if gpus != [] {
      IDsOfRest(gpus);
      var available := Available(gpus[0]);
      if available < need {
        TakeDraws(gpus[1..], infos, need - available);
      }
    }
  }

  lemma {:induction false} TakeDistinct(gpus: seq<GpuInfo>, infos: GpuInfos, need: int)
    requires need >= 1 && DistinctDevices(gpus)
    requires forall i :: 0 <= i < |gpus| ==> gpus[i].id in infos && infos[gpus[i].id] == gpus[i]
    ensures DistinctIDs(Take(gpus, need))
  {
    if gpus != [] && Available(gpus[0]) < need {
      var left := need - Available(gpus[0]);
      var tail := Take(gpus[1..], left);
      TakeDistinct(gpus[1..], infos, left);
      TakeDraws(gpus[1..], infos, left);
      assert gpus[0].id !in IDs(gpus[1..]);
      forall i | 0 <= i < |tail| ensures tail[i].id != gpus[0].id {
        assert tail[i] in tail;
      }
    }
  }

  lemma {:induction false} TakeAmount(gpus: seq<GpuInfo>, need: int)
    requires need >= 1
    ensures Amount(Take(gpus, need)) == if Cover(gpus) >= need then need else Cover(gpus)
    ensures Take(gpus, need) != [] <==> Cover(gpus) > 0
  {
    if gpus != [] {
      var available := Available(gpus[0]);
      if available < need {
        TakeAmount(gpus[1..], need - available);
        assert available > 0 ==> Take(gpus, need)[1..] == Take(gpus[1..], need - available);
      }
    }
  }

  /** Whatever the need, the first device that has anything left is drawn on. */
  lemma {:induction false} TakeStartsAlike(gpus: seq<GpuInfo>, need: int, need': int)
    requires need >= 1 && need' >= 1 && Cover(gpus) > 0
    ensures Take(gpus, need) != [] && Take(gpus, need') != []
    ensures Take(gpus, need)[0].id == Take(gpus, need')[0].id
  {
    if Available(gpus[0]) <= 0 {
      TakeStartsAlike(gpus[1..], need, need');
    }
  }

  // ---- Serving all requirements ----

  /** None when some requirement cannot be met. */
  function SelectFrom(groups: Groups, required: seq<Requirement>): Option<seq<DeviceRequest>> {
    if required == [] then Some([])
    else
      var n := |required| - 1;
      var name, count := required[n].name, required[n].count;
      match SelectFrom(groups, required[..n])
      case None => None
      case Some(selected) =>
        if name !in groups || Cover(groups[name]) < count then None
        else Some(selected + Take(groups[name], count))
  }

  function Selected(groups: Groups, required: seq<Requirement>): seq<DeviceRequest> {
    match SelectFrom(groups, required)
    case None => []
    case Some(selected) => selected
  }

  predicate Positive(required: seq<Requirement>) {
    forall i :: 0 <= i < |required| ==> required[i].count >= 1
  }

  predicate DistinctNames(required: seq<Requirement>) {
    forall i, j :: 0 <= i < j < |required| ==> required[i].name != required[j].name
  }

  ghost predicate Satisfiable(infos: GpuInfos, kind: Grouping, required: seq<Requirement>) {
    forall i :: 0 <= i < |required| ==> Total(infos, kind, required[i].name) >= required[i].count
  }

  /** What a selection gives of one model or type. */
  function Given(selected: seq<DeviceRequest>, infos: GpuInfos, kind: Grouping, name: string): int {
    if selected == [] then 0
    else
      (if selected[0].id in infos && kind.Name(infos[selected[0].id]) == name then selected[0].amount else 0)
      + Given(selected[1..], infos, kind, name)
  }

  function Names(required: seq<Requirement>): set<string> {
    set k | 0 <= k < |required| :: required[k].name
  }

  /** Every request draws on a device on offer whose model or type is among the names. */
  predicate DrawnUnder(selected: seq<DeviceRequest>, infos: GpuInfos, kind: Grouping, names: set<string>) {
    forall r :: r in selected ==> DrawnFrom(r, infos) && kind.Name(infos[r.id]) in names
  }

  /** A selection that serves the requirements exactly, device by device and name by name. */
  predicate Serves(selected: seq<DeviceRequest>, infos: GpuInfos, kind: Grouping, required: seq<Requirement>) {
    && DistinctIDs(selected)
    && DrawnUnder(selected, infos, kind, Names(required))
    && (forall k :: 0 <= k < |required| ==> Given(selected, infos, kind, required[k].name) == required[k].count)
  }

  // ---- The selection serves the requirements whenever their names are distinct ----

  lemma {:induction false} GivenConcat(a: seq<DeviceRequest>, b: seq<DeviceRequest>,
                                       infos: GpuInfos, kind: Grouping, name: string)
    ensures Given(a + b, infos, kind, name) == Given(a, infos, kind, name) + Given(b, infos, kind, name)
  {
    if a == [] {
      assert a + b == b;
    } else {
      assert (a + b)[1..] == a[1..] + b;
      GivenConcat(a[1..], b, infos, kind, name);
    }
  }

  lemma {:induction false} GivenOfOthers(selected: seq<DeviceRequest>, infos: GpuInfos, kind: Grouping,
                                         names: set<string>, name: string)
    requires DrawnUnder(selected, infos, kind, names) && name !in names
    ensures Given(selected, infos, kind, name) == 0
  {
    if selected != [] {
      assert selected[0] in selected;
      GivenOfOthers(selected[1..], infos, kind, names, name);
    }
  }

  lemma {:induction false} GivenOfOne(selected: seq<DeviceRequest>, infos: GpuInfos, kind: Grouping, name: string)
    requires DrawnUnder(selected, infos, kind, {name})
    ensures Given(selected, infos, kind, name) == Amount(selected)
  {
    if selected != [] {
      assert selected[0] in selected;
      GivenOfOne(selected[1..], infos, kind, name);
    }
  }

  lemma TakeServes(gpus: seq<GpuInfo>, infos: GpuInfos, kind: Grouping, need: Requirement)
    requires GroupOf(gpus, infos, kind, need.name) && 1 <= need.count <= Cover(gpus)
    ensures Serves(Take(gpus, need.count), infos, kind, [need])
    ensures DrawnUnder(Take(gpus, need.count), infos, kind, {need.name})
  {
    var taken := Take(gpus, need.count);
    TakeDraws(gpus, infos, need.count);
    TakeDistinct(gpus, infos, need.count);
    TakeAmount(gpus, need.count);
    forall r | r in taken ensures kind.Name(infos[r.id]) == need.name {
      var i :| 0 <= i < |gpus| && gpus[i].id == r.id;
    }
    GivenOfOne(taken, infos, kind, need.name);
    assert [need][0].name in Names([need]);
  }

  lemma NamesGrow(required: seq<Requirement>)
    requires required != []
    ensures Names(required) == Names(required[..|required| - 1]) + {required[|required| - 1].name}
  {
  }

  lemma ServesMore(selected: seq<DeviceRequest>, taken: seq<DeviceRequest>, infos: GpuInfos, kind: Grouping,
                   required: seq<Requirement>)
    requires required != [] && DistinctNames(required)
    requires Serves(selected, infos, kind, required[..|required| - 1])
    requires var need := required[|required| - 1];
             Serves(taken, infos, kind, [need]) && DrawnUnder(taken, infos, kind, {need.name})
    ensures Serves(selected + taken, infos, kind, required)
  {
    var n := |required| - 1;
    var front, need, all := required[..n], required[n], selected + taken;
    NamesGrow(required);
    assert need.name !in Names(front) by {
      forall k | 0 <= k < n ensures front[k].name != need.name { assert front[k] == required[k]; }
    }
    forall r | r in all ensures DrawnFrom(r, infos) && kind.Name(infos[r.id]) in Names(required) {
      assert r in selected || r in taken;
    }
    forall i, j | 0 <= i < |selected| && 0 <= j < |taken| ensures selected[i].id != taken[j].id {
      assert selected[i] in selected && taken[j] in taken;
    }
    forall k | 0 <= k <= n ensures Given(all, infos, kind, required[k].name) == required[k].count {
      GivenConcat(selected, taken, infos, kind, required[k].name);
      if k < n {
        assert front[k] == required[k];
        GivenOfOthers(taken, infos, kind, {need.name}, required[k].name);
      } else {
        GivenOfOthers(selected, infos, kind, Names(front), need.name);
        assert [need][0] == need;
      }
    }
  }

  /** Whatever order the devices were visited in, a successful selection gives exactly what was asked for. */
  lemma {:induction false} SelectionServes(groups: Groups, infos: GpuInfos, kind: Grouping, required: seq<Requirement>)
    requires IsGrouping(groups, infos, kind) && Positive(required) && DistinctNames(required)
    requires SelectFrom(groups, required).Some?
    ensures Serves(SelectFrom(groups, required).value, infos, kind, required)
  {
    if required != [] {
      var n := |required| - 1;
      SelectionServes(groups, infos, kind, required[..n]);
      TakeServes(groups[required[n].name], infos, kind, required[n]);
      ServesMore(SelectFrom(groups, required[..n]).value, Take(groups[required[n].name], required[n].count),
                 infos, kind, required);
    }
  }

  lemma SatisfiableSplit(infos: GpuInfos, kind: Grouping, required: seq<Requirement>)
    requires required != []
    ensures var n := |required| - 1;
            Satisfiable(infos, kind, required) <==>
            Satisfiable(infos, kind, required[..n]) && Total(infos, kind, required[n].name) >= required[n].count
  {
  }

  /** Selection succeeds exactly when each model or type has enough left in total. */
  lemma {:induction false} SelectionSucceedsIff(groups: Groups, infos: GpuInfos, kind: Grouping, required: seq<Requirement>)
    requires KeyedByID(infos) && IsGrouping(groups, infos, kind) && Positive(required)
    ensures SelectFrom(groups, required).Some? <==> Satisfiable(infos, kind, required)
  {
    if required != [] {
      var n := |required| - 1;
      var need := required[n];
      SelectionSucceedsIff(groups, infos, kind, required[..n]);
      SatisfiableSplit(infos, kind, required);
      if need.name in groups {
        CoverIsTotal(groups[need.name], infos, kind, need.name);
      } else {
        TotalOfNone(infos, kind, need.name);
      }
    }
  }

  lemma SelectionNonEmpty(groups: Groups, required: seq<Requirement>)
    requires Positive(required) && required != [] && SelectFrom(groups, required).Some?
    ensures SelectFrom(groups, required).value != []
  {
    var need := required[|required| - 1];
    TakeAmount(groups[need.name], need.count);
  }

  /** What a caller of a selector learns, for every order in which the devices may have been visited. */
  lemma SelectionExact(groups: Groups, infos: GpuInfos, kind: Grouping, required: seq<Requirement>)
    requires KeyedByID(infos) && IsGrouping(groups, infos, kind) && Positive(required)
    ensures required != [] ==> (Selected(groups, required) != [] <==> Satisfiable(infos, kind, required))
    ensures Selected(groups, required) != [] && DistinctNames(required)
        ==> Serves(Selected(groups, required), infos, kind, required)
  {
    SelectionSucceedsIff(groups, infos, kind, required);
    if SelectFrom(groups, required).Some? && required != [] {
      SelectionNonEmpty(groups, required);
    }
    if SelectFrom(groups, required).Some? && DistinctNames(required) {
      SelectionServes(groups, infos, kind, required);
    }
  }

  // ---- Repeated names draw on the same device twice ----

  lemma {:induction false} SelectFromPrefix(groups: Groups, required: seq<Requirement>, k: nat)
    requires k <= |required| && SelectFrom(groups, required).Some?
    ensures SelectFrom(groups, required[..k]).Some?
    ensures SelectFrom(groups, required[..k]).value <= SelectFrom(groups, required).value
  {
    if k == |required| {
      assert required[..k] == required;
    } else {
      var front := required[..|required| - 1];
      SelectFromPrefix(groups, front, k);
      assert front[..k] == required[..k];
    }
  }

  lemma SelectFromContains(groups: Groups, required: seq<Requirement>, k: nat) returns (p: nat)
    requires k < |required| && Positive(required) && SelectFrom(groups, required).Some?
    ensures SelectFrom(groups, required[..k]).Some? && p == |SelectFrom(groups, required[..k]).value|
    ensures SelectFrom(groups, required[..k + 1]).Some? && p < |SelectFrom(groups, required[..k + 1]).value|
    ensures SelectFrom(groups, required[..k + 1]).value <= SelectFrom(groups, required).value
    ensures required[k].name in groups && Cover(groups[required[k].name]) >= required[k].count
    ensures var taken := Take(groups[required[k].name], required[k].count);
            taken != [] && SelectFrom(groups, required[..k + 1]).value[p] == taken[0]
  {
    SelectFromPrefix(groups, required, k + 1);
    SelectFromPrefix(groups, required, k);
    assert required[..k + 1][..k] == required[..k];
    p := |SelectFrom(groups, required[..k]).value|;
    TakeAmount(groups[required[k].name], required[k].count);
  }

  /** The IDs of a successful selection are distinct exactly when the names asked for are. */
  lemma SelectionDistinctIff(groups: Groups, infos: GpuInfos, kind: Grouping, required: seq<Requirement>)
    requires IsGrouping(groups, infos, kind) && Positive(required) && SelectFrom(groups, required).Some?
    ensures DistinctIDs(SelectFrom(groups, required).value) <==> DistinctNames(required)
  {
    if DistinctNames(required) {
      SelectionServes(groups, infos, kind, required);
    } else {
      var i, j :| 0 <= i < j < |required| && required[i].name == required[j].name;
      var p := SelectFromContains(groups, required, i);
      var q := SelectFromContains(groups, required, j);
      TakeStartsAlike(groups[required[i].name], required[i].count, required[j].count);
      SelectFromPrefix(groups, required[..j], i + 1);
      assert required[..j][..i + 1] == required[..i + 1];
      var selected := SelectFrom(groups, required).value;
      assert selected[p].id == selected[q].id && p < q;
    }
  }

  // ---- The two selectors ----

  lemma {:induction false} FailureIsFinal(groups: Groups, required: seq<Requirement>, k: nat)
    requires k <= |required| && SelectFrom(groups, required[..k]).None?
    ensures SelectFrom(groups, required).None?
  {
    if k == |required| {
      assert required[..k] == required;
    } else {
      var front := required[..|required| - 1];
      assert front[..k] == required[..k];
      FailureIsFinal(groups, front, k);
    }
  }

  lemma {:induction false} TakeOnes(gpus: seq<GpuInfo>, need: nat)
    requires 1 <= need <= |gpus| && forall i :: 0 <= i < |gpus| ==> Available(gpus[i]) == 1
    ensures Take(gpus, need) == seq(need, i requires 0 <= i < need => DeviceRequest(gpus[i].id, 1, 1))
  {
    if need > 1 {
      TakeOnes(gpus[1..], need - 1);
    }
  }

  lemma {:induction false} CoverOnes(gpus: seq<GpuInfo>)
    requires forall i :: 0 <= i < |gpus| ==> Available(gpus[i]) == 1
    ensures Cover(gpus) == |gpus|
  {
    if gpus != [] {
      CoverOnes(gpus[1..]);
    }
  }

  /** Whole devices by model; the caller has dropped the devices that are in use. */
  method SelectGPUs(infos: GpuInfos, required: seq<Requirement>)
    returns (selected: seq<DeviceRequest>, ghost groups: Groups)
    requires KeyedByID(infos) && Positive(required)
    requires forall id :: id in infos ==> infos[id].usage.Passthrough? && Available(infos[id]) == 1
    ensures IsGrouping(groups, infos, ByModel) && selected == Selected(groups, required)
    ensures required != [] ==> (selected != [] <==> Satisfiable(infos, ByModel, required))
    ensures selected != [] && DistinctNames(required) ==> Serves(selected, infos, ByModel, required)
  {
    var byModel := Group(infos, ByModel);
    groups := byModel;
    selected := PickGPUs(byModel, required);
    SelectionExact(groups, infos, ByModel, required);
  }

  /** vGPUs by type; a device may serve only part of what it has left. */
  method SelectVGPUs(infos: GpuInfos, required: seq<Requirement>)
    returns (selected: seq<DeviceRequest>, ghost groups: Groups)
    requires KeyedByID(infos) && Positive(required)
    requires forall id :: id in infos ==> infos[id].usage.VGPU?
    ensures IsGrouping(groups, infos, ByVGPUType) && selected == Selected(groups, required)
    ensures required != [] ==> (selected != [] <==> Satisfiable(infos, ByVGPUType, required))
    ensures selected != [] && DistinctNames(required) ==> Serves(selected, infos, ByVGPUType, required)
  {
    var byType := Group(infos, ByVGPUType);
    groups := byType;
    selected := PickVGPUs(byType, required);
    SelectionExact(groups, infos, ByVGPUType, required);
  }

  method PickGPUs(groups: Groups, required: seq<Requirement>) returns (selected: seq<DeviceRequest>)
    requires Positive(required)
    requires forall name, i :: name in groups && 0 <= i < |groups[name]| ==> Available(groups[name][i]) == 1
    ensures selected == Selected(groups, required)
  {
    selected := [];
    for i := 0 to |required|
      invariant SelectFrom(groups, required[..i]) == Some(selected)
    {
      assert required[..i + 1][..i] == required[..i];
      var name, count := required[i].name, required[i].count;
      if name in groups {
        CoverOnes(groups[name]);
      }
      if name !in groups || |groups[name]| < count {
        FailureIsFinal(groups, required, i + 1);
        return [];
      }
      TakeOnes(groups[name], count);
      var gpus := groups[name][..count];
      ghost var before := selected;
      for j := 0 to |gpus|
        invariant selected == before + Take(groups[name], count)[..j]
      {
        selected := selected + [DeviceRequest(gpus[j].id, 1, 1)];
      }
      assert Take(groups[name], count)[..count] == Take(groups[name], count);
    }
    assert required[..|required|] == required;
  }

  method PickVGPUs(groups: Groups, required: seq<Requirement>) returns (selected: seq<DeviceRequest>)
    requires Positive(required)
    requires forall name, i :: name in groups && 0 <= i < |groups[name]| ==> groups[name][i].usage.VGPU?
    ensures selected == Selected(groups, required)
  {
    selected := [];
    for i := 0 to |required|
      invariant SelectFrom(groups, required[..i]) == Some(selected)
    {
      assert required[..i + 1][..i] == required[..i];
      if required[i].name !in groups {
        FailureIsFinal(groups, required, i + 1);
        return [];
      }
      var taken, left := TakeVGPUs(groups[required[i].name], required[i].count);
      if left > 0 {
        FailureIsFinal(groups, required, i + 1);
        return [];
      }
      selected := selected + taken;
    }
    assert required[..|required|] == required;
  }

  method TakeVGPUs(gpus: seq<GpuInfo>, need: int) returns (taken: seq<DeviceRequest>, left: int)
    requires need >= 1 && forall i :: 0 <= i < |gpus| ==> gpus[i].usage.VGPU?
    ensures taken == Take(gpus, need)
    ensures left > 0 <==> Cover(gpus) < need
  {
    taken, left := [], need;
    for j := 0 to |gpus|
      invariant left >= 1
      invariant taken + Take(gpus[j..], left) == Take(gpus, need)
      invariant Cover(gpus) - need == Cover(gpus[j..]) - left
    {
      assert gpus[j..][1..] == gpus[j + 1..];
      var available := Available(gpus[j]);
      if available <= 0 {
        continue;
      }
      if available >= left {
        taken := taken + [DeviceRequest(gpus[j].id, left, available)];
        left := 0;
        return;
      } else {
        taken := taken + [DeviceRequest(gpus[j].id, gpus[j].availableVgpus, available)];
        left := left - gpus[j].availableVgpus;
      }
    }
  }
}
