/** What naming a model or a type more than once does to the lock that is taken. */
module GpuRepeats {
  import opened Results
  import opened GpuDevices
  import opened GpuLocks
  import opened GpuSelect
  import opened GpuReuse
  import opened GpuProtocol

  /** How often a name is required, for how many units, and for how many when each asks for `cap` at most. */
  function Times(required: seq<Requirement>, name: string): nat {
    if required == [] then 0
    else Times(required[..|required| - 1], name) + if required[|required| - 1].name == name then 1 else 0
  }

  function Asked(required: seq<Requirement>, name: string): int {
    if required == [] then 0
    else Asked(required[..|required| - 1], name) +
         if required[|required| - 1].name == name then required[|required| - 1].count else 0
  }

  function Min(a: int, b: int): int {
    if a < b then a else b
  }

  function Capped(required: seq<Requirement>, name: string, cap: int): int {
    if required == [] then 0
    else Capped(required[..|required| - 1], name, cap) +
         if required[|required| - 1].name == name then Min(required[|required| - 1].count, cap) else 0
  }

  /** The first device of a group that has anything left. */
  function First(gpus: seq<GpuInfo>): Option<GpuInfo> {
    if gpus == [] then None else if Available(gpus[0]) > 0 then Some(gpus[0]) else First(gpus[1..])
  }

  function FirstOffer(gpus: seq<GpuInfo>): nat {
    if First(gpus).Some? then Available(First(gpus).value) else 0
  }

  function Drawn(requests: seq<DeviceRequest>, gpu: string): int {
    if requests == [] then 0 else (if requests[0].id == gpu then requests[0].amount else 0) + Drawn(requests[1..], gpu)
  }

  // ---- What one requirement draws of a device ----

  lemma {:induction false} DrawnConcat(a: seq<DeviceRequest>, b: seq<DeviceRequest>, gpu: string)
    ensures Drawn(a + b, gpu) == Drawn(a, gpu) + Drawn(b, gpu)
  {
    if a == [] {
      assert a + b == b;
    } else {
      assert (a + b)[1..] == a[1..] + b;
      DrawnConcat(a[1..], b, gpu);
    }
  }

  lemma {:induction false} DrawnOfUnlisted(requests: seq<DeviceRequest>, gpu: string)
    requires forall r :: r in requests ==> r.id != gpu
    ensures Drawn(requests, gpu) == 0
  {
    if requests != [] {
      assert requests[0] in requests;
      DrawnOfUnlisted(requests[1..], gpu);
    }
  }

  lemma {:induction false} TakeOfOthers(gpus: seq<GpuInfo>, need: int, gpu: string)
    requires forall i :: 0 <= i < |gpus| ==> gpus[i].id != gpu
    ensures Drawn(Take(gpus, need), gpu) == 0
  {
    if gpus != [] {
      var available := Available(gpus[0]);
      if available <= 0 {
        TakeOfOthers(gpus[1..], need, gpu);
      } else if available < need {
        TakeOfOthers(gpus[1..], need - available, gpu);
        assert Take(gpus, need)[1..] == Take(gpus[1..], need - available);
      }
    }
  }

  lemma {:induction false} TakeBounded(gpus: seq<GpuInfo>, need: int, k: nat)
    requires need >= 1 && DistinctDevices(gpus) && k < |gpus|
    ensures 0 <= Drawn(Take(gpus, need), gpus[k].id) <= Available(gpus[k])
  {
    var available, rest := Available(gpus[0]), gpus[1..];
    if available < need {
      assert available > 0 ==> Take(gpus, need)[1..] == Take(rest, need - available);
      if k == 0 {
        TakeOfOthers(rest, need - available, gpus[0].id);
      } else {
        TakeBounded(rest, need - available, k - 1);
      }
    }
  }

  lemma {:induction false} TakeOfFirst(gpus: seq<GpuInfo>, need: int)
    requires need >= 1 && DistinctDevices(gpus) && First(gpus).Some?
    ensures Drawn(Take(gpus, need), First(gpus).value.id) == Min(need, FirstOffer(gpus))
    ensures need <= FirstOffer(gpus) ==>
              Take(gpus, need) == [DeviceRequest(First(gpus).value.id, need, FirstOffer(gpus))]
    ensures First(gpus).value in gpus && FirstOffer(gpus) > 0
  {
    var available := Available(gpus[0]);
    if available <= 0 {
      TakeOfFirst(gpus[1..], need);
    } else if available < need {
      TakeOfOthers(gpus[1..], need - available, gpus[0].id);
      assert Take(gpus, need)[1..] == Take(gpus[1..], need - available);
    }
  }

  lemma {:induction false} CoveredHasFirst(gpus: seq<GpuInfo>)
    requires Cover(gpus) > 0
    ensures First(gpus).Some?
  {
    if Available(gpus[0]) <= 0 {
      CoveredHasFirst(gpus[1..]);
    }
  }

  // ---- What all requirements draw of it ----

  /** A selection for requirements that can all be met. */
  predicate Selects(groups: Groups, infos: GpuInfos, kind: Grouping, required: seq<Requirement>) {
    KeyedByID(infos) && IsGrouping(groups, infos, kind) && Positive(required) && SelectFrom(groups, required).Some?
  }

  /** The last requirement draws on a device only under the device's own name. */
  lemma DrawnStep(groups: Groups, infos: GpuInfos, kind: Grouping, required: seq<Requirement>, gpu: string)
    requires Selects(groups, infos, kind, required) && required != [] && gpu in infos
    ensures var n := |required| - 1; var last := required[n];
            && Selects(groups, infos, kind, required[..n])
            && last.name in groups && Cover(groups[last.name]) >= last.count
            && Drawn(SelectFrom(groups, required).value, gpu) == Drawn(SelectFrom(groups, required[..n]).value, gpu)
               + (if last.name == kind.Name(infos[gpu]) then Drawn(Take(groups[last.name], last.count), gpu) else 0)
  {
    var n := |required| - 1;
    var last := required[n];
    DrawnConcat(SelectFrom(groups, required[..n]).value, Take(groups[last.name], last.count), gpu);
    if last.name != kind.Name(infos[gpu]) {
      TakeOfOthers(groups[last.name], last.count, gpu);
    }
  }

  lemma GroupHas(groups: Groups, infos: GpuInfos, kind: Grouping, gpu: string) returns (k: nat)
    requires KeyedByID(infos) && IsGrouping(groups, infos, kind) && gpu in infos
    ensures kind.Name(infos[gpu]) in groups
    ensures var gpus := groups[kind.Name(infos[gpu])]; k < |gpus| && gpus[k] == infos[gpu] && gpus[k].id == gpu
  {
    var gpus := groups[kind.Name(infos[gpu])];
    assert infos[gpu] in gpus;
    k :| 0 <= k < |gpus| && gpus[k] == infos[gpu];
  }

  /** A device whose name is required once at most is not drawn on beyond what it has. */
  lemma {:induction false} DrawnOnce(groups: Groups, infos: GpuInfos, kind: Grouping, required: seq<Requirement>, gpu: string)
    requires Selects(groups, infos, kind, required) && gpu in infos
    ensures var times := Times(required, kind.Name(infos[gpu])); var drawn := Drawn(SelectFrom(groups, required).value, gpu);
            0 <= drawn && (times == 0 ==> drawn == 0) && (times == 1 ==> drawn <= Available(infos[gpu]))
  {
    if required != [] {
      var last := required[|required| - 1];
      DrawnStep(groups, infos, kind, required, gpu);
      DrawnOnce(groups, infos, kind, required[..|required| - 1], gpu);
      if last.name == kind.Name(infos[gpu]) {
        var k := GroupHas(groups, infos, kind, gpu);
        TakeBounded(groups[last.name], last.count, k);
      }
    }
  }

  /** Every requirement of a name draws on the first device of its group that has anything left, up to
      all of it, and on no other while it asks for no more. */
  lemma {:induction false} DrawnRepeatedly(groups: Groups, infos: GpuInfos, kind: Grouping,
                                           required: seq<Requirement>, gpu: string)
    requires Selects(groups, infos, kind, required) && gpu in infos
    ensures var name := kind.Name(infos[gpu]);
            var first, cap := First(Listed(groups, name)), FirstOffer(Listed(groups, name));
            var drawn := Drawn(SelectFrom(groups, required).value, gpu);
            && (first.Some? && first.value.id == gpu ==> drawn == Capped(required, name, cap))
            && (first.Some? && first.value.id != gpu && Asked(required, name) <= cap ==> drawn == 0)
            && Times(required, name) <= Asked(required, name)
            && (Times(required, name) > 0 ==> first.Some?)
  {
    if required != [] {
      var last, front := required[|required| - 1], required[..|required| - 1];
      var name := kind.Name(infos[gpu]);
      DrawnStep(groups, infos, kind, required, gpu);
      DrawnRepeatedly(groups, infos, kind, front, gpu);
      if last.name == name {
        CoveredHasFirst(groups[name]);
        TakeOfFirst(groups[name], last.count);
        var cap := FirstOffer(groups[name]);
        if Asked(required, name) <= cap && First(groups[name]).value.id != gpu {
          assert last.count <= cap;
          assert Drawn(Take(groups[name], last.count), gpu) == 0;
        }
      }
    }
  }

  /** Asking more than once for more than the cap in all goes beyond it even when each demand is capped. */
  lemma {:induction false} CappedExceeds(required: seq<Requirement>, name: string, cap: int)
    requires Positive(required) && cap >= 1
    ensures Times(required, name) <= Capped(required, name, cap) <= Asked(required, name)
    ensures Times(required, name) == 0 ==> Asked(required, name) == 0
    ensures Times(required, name) > 0 ==>
              Capped(required, name, cap) >= Min(Asked(required, name), cap + Times(required, name) - 1)
  {
    if required != [] {
      CappedExceeds(required[..|required| - 1], name, cap);
    }
  }

  // ---- The lock ----

  lemma {:induction false} ShareIsDrawn(host: string, requests: seq<DeviceRequest>, now: int, gpu: string)
    ensures Share(ToLock(host, requests, now).devices, gpu) == Drawn(requests, gpu)
  {
    if requests != [] {
      var n := |requests| - 1;
      ShareIsDrawn(host, requests[..n], now, gpu);
      assert ToLock(host, requests, now).devices[..n] == ToLock(host, requests[..n], now).devices;
      assert requests == requests[..n] + [requests[n]];
      DrawnConcat(requests[..n], [requests[n]], gpu);
      assert Drawn([requests[n]], gpu) == if requests[n].id == gpu then requests[n].amount else 0;
    }
  }

  /** Every name that is required more than once asks, in all, for no more than its first free device has. */
  predicate RepeatsFit(groups: Groups, required: seq<Requirement>) {
    forall k :: 0 <= k < |required| && Times(required, required[k].name) > 1 ==>
      Asked(required, required[k].name) <= FirstOffer(Listed(groups, required[k].name))
  }

  lemma {:induction false} RequiredMeans(required: seq<Requirement>, name: string)
    ensures Times(required, name) > 0 <==> exists k :: 0 <= k < |required| && required[k].name == name
  {
    if required != [] {
      var n := |required| - 1;
      RequiredMeans(required[..n], name);
      if k :| 0 <= k < n && required[k].name == name {
        assert required[..n][k].name == name;
      }
    }
  }

  /** A device stays within what it offers when its own name does not ask too much of it. */
  lemma DrawnWithin(groups: Groups, infos: GpuInfos, kind: Grouping, required: seq<Requirement>, gpu: string)
    requires Selects(groups, infos, kind, required) && gpu in infos && RepeatsFit(groups, required)
    ensures Drawn(SelectFrom(groups, required).value, gpu) <= Available(infos[gpu])
  {
    hide SelectFrom, IsGrouping;
    var name := kind.Name(infos[gpu]);
    DrawnOnce(groups, infos, kind, required, gpu);
    if Times(required, name) > 1 {
      RequiredMeans(required, name);
      DrawnRepeatedly(groups, infos, kind, required, gpu);
      FirstIsOffered(groups, infos, kind, name);
      CappedExceeds(required, name, FirstOffer(Listed(groups, name)));
    }
  }

  lemma FirstIsOffered(groups: Groups, infos: GpuInfos, kind: Grouping, name: string)
    requires KeyedByID(infos) && IsGrouping(groups, infos, kind) && First(Listed(groups, name)).Some?
    ensures var first := First(Listed(groups, name)).value;
            && first.id in infos && infos[first.id] == first && kind.Name(first) == name
            && FirstOffer(Listed(groups, name)) == Available(first) >= 1
  {
    TakeOfFirst(groups[name], 1);
  }

  /** A name that asks for too much overdraws its first free device. */
  lemma DrawnBeyond(groups: Groups, infos: GpuInfos, kind: Grouping, required: seq<Requirement>, k: nat)
    returns (gpu: string)
    requires Selects(groups, infos, kind, required) && k < |required| && Times(required, required[k].name) > 1
    requires Asked(required, required[k].name) > FirstOffer(Listed(groups, required[k].name))
    ensures gpu in infos && Drawn(SelectFrom(groups, required).value, gpu) > Available(infos[gpu])
  {
    var name := required[k].name;
    var p := SelectFromContains(groups, required, k);
    CoveredHasFirst(groups[name]);
    FirstIsOffered(groups, infos, kind, name);
    gpu := First(groups[name]).value.id;
    DrawnRepeatedly(groups, infos, kind, required, gpu);
    CappedExceeds(required, name, FirstOffer(groups[name]));
  }

  /** On an empty table, where a GPU has exactly what it offers, the lock taken for a machine stays within
      every capacity exactly when each name it repeats asks in all for no more than one device: the
      first of its group that has anything left. */
  lemma LockWithinIff(w: World, infos: GpuInfos, kind: Grouping, required: seq<Requirement>, groups: Groups,
                      vm: string, host: string, now: int)
    requires Selects(groups, infos, kind, required)
    requires forall id :: id in infos ==> w.Capacity(id) == Available(infos[id])
    ensures Within(w, map[vm := ToLock(host, SelectFrom(groups, required).value, now)]) <==> RepeatsFit(groups, required)
  {
    hide SelectFrom, IsGrouping, Capped, RepeatsFit, LockedSum;
    var selected := SelectFrom(groups, required).value;
    var lock := ToLock(host, selected, now);
    if RepeatsFit(groups, required) {
      SelectionDraws(groups, infos, kind, required);
      assert forall i :: 0 <= i < |selected| ==> selected[i] in selected;
      forall gpu ensures LockedSum(map[vm := lock], gpu) <= w.Capacity(gpu) {
        SumOfSingle(vm, lock, gpu);
        ShareIsDrawn(host, selected, now, gpu);
        if gpu in infos {
          DrawnWithin(groups, infos, kind, required, gpu);
        } else {
          DrawnOfUnlisted(selected, gpu);
        }
      }
    } else {
      var k := Misfit(groups, required);
      var gpu := DrawnBeyond(groups, infos, kind, required, k);
      SumOfSingle(vm, lock, gpu);
      ShareIsDrawn(host, selected, now, gpu);
    }
  }

  lemma Misfit(groups: Groups, required: seq<Requirement>) returns (k: nat)
    requires !RepeatsFit(groups, required)
    ensures k < |required| && Times(required, required[k].name) > 1
    ensures Asked(required, required[k].name) > FirstOffer(Listed(groups, required[k].name))
  {
    k :| 0 <= k < |required| && Times(required, required[k].name) > 1 &&
         Asked(required, required[k].name) > FirstOffer(Listed(groups, required[k].name));
  }

  lemma SumOfSingle(vm: string, lock: VMLock, gpu: string)
    ensures LockedSum(map[vm := lock], gpu) == Share(lock.devices, gpu)
  {
    var none: ClusterLocks := map[];
    SumWithLock(none, vm, lock, gpu);
    assert none[vm := lock] == map[vm := lock];
  }

  // ---- Whole devices ----

  lemma {:induction false} TwiceIff(required: seq<Requirement>)
    ensures DistinctNames(required) <==> forall k :: 0 <= k < |required| ==> Times(required, required[k].name) <= 1
  {
    if required != [] {
      var n := |required| - 1;
      var front, last := required[..n], required[n];
      TwiceIff(front);
      RequiredMeans(front, last.name);
      assert forall k :: 0 <= k < n ==> front[k] == required[k];
      if k :| 0 <= k < n && Times(front, front[k].name) > 1 {
        assert Times(required, required[k].name) > 1;
      }
    }
  }

  /** With whole devices, that is exactly when no model is named twice. */
  lemma PassthroughWithinIff(w: World, infos: GpuInfos, required: seq<Requirement>, groups: Groups,
                             vm: string, host: string, now: int)
    requires Selects(groups, infos, ByModel, required)
    requires forall id :: id in infos ==> infos[id].usage.Passthrough? && w.Capacity(id) == Available(infos[id])
    ensures Within(w, map[vm := ToLock(host, SelectFrom(groups, required).value, now)]) <==> DistinctNames(required)
  {
    hide Within, SelectFrom, IsGrouping;
    LockWithinIff(w, infos, ByModel, required, groups, vm, host, now);
    TwiceIff(required);
    forall k | 0 <= k < |required| && Times(required, required[k].name) > 1
      ensures Asked(required, required[k].name) > FirstOffer(Listed(groups, required[k].name))
    {
      OffersOne(groups, infos, required[k].name);
      CappedExceeds(required, required[k].name, 1);
    }
  }

  lemma OffersOne(groups: Groups, infos: GpuInfos, name: string)
    requires KeyedByID(infos) && IsGrouping(groups, infos, ByModel)
    requires forall id :: id in infos ==> infos[id].usage.Passthrough?
    ensures FirstOffer(Listed(groups, name)) <= 1
  {
    if First(Listed(groups, name)).Some? {
      FirstIsOffered(groups, infos, ByModel, name);
    }
  }
}
