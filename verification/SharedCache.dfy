/** The one in-memory cache that tickets, silence markers, retry records and cached Tower objects share. */
module SharedCache {
  import opened Results
  import opened Clock

  /** What is stored: a bare marker, a time, a record of missing resources, or a cached Tower object. */
  datatype Value =
    | Marker
    | Time(at: int)
    | Resource(lastDetected: int, lastRetried: int, amount: int)
    | Group
    | Gpu

  /** An item without an expiry time never expires. */
  datatype Item = Item(value: Value, expiry: Option<int>)
  type Items = map<string, Item>

  predicate Fresh(item: Item, now: int) {
    item.expiry.None? || now <= item.expiry.value
  }

  function Get(items: Items, key: string, now: int): Option<Value> {
    if key in items && Fresh(items[key], now) then Some(items[key].value) else None
  }

  predicate Found(items: Items, key: string, now: int) {
    Get(items, key, now).Some?
  }

  // ---- Keys ----

  function GroupKey(name: string): string { "pg:" + name }
  function GroupDuplicateKey(name: string): string { "pg:duplicate:" + name }
  function GroupCacheKey(name: string): string { "pg:" + name + ":cache" }
  function VMKey(name: string): string { "vm:" + name }
  function VMDuplicateKey(name: string): string { "vm:duplicate:" + name }
  function GpuKey(id: string): string { "gpu:vm:info:" + id }
  function LabelKey(tower: string): string { "label:gc:" + tower }
  function LabelTimeKey(tower: string): string { "label:gc:time:" + tower }

  /** What may be found missing when a virtual machine is scheduled. The policy record of a placement
      group is kept under the very key that marks the group as a duplicate. */
  datatype Shortage = Memory(cluster: string) | Storage(cluster: string) | Policy(group: string) {
    function Key(): string {
      match this
      case Memory(cluster) => "insufficient:memory:" + cluster
      case Storage(cluster) => "insufficient:storage:" + cluster
      case Policy(group) => GroupDuplicateKey(group)
    }
  }

  // ---- Operations ----

  const VM_OPERATION_RATE_LIMIT := 6 * SECOND
  const SILENCE_TIME := 5 * MINUTE
  const RESOURCE_SILENCE_TIME := 5 * MINUTE
  const RESOURCE_DURATION := 10 * MINUTE
  const GROUP_CACHE_DURATION := 20 * SECOND
  const GPU_CACHE_DURATION := 3 * SECOND
  const LABEL_GC_INTERVAL := 24 * 60 * MINUTE

  datatype Op =
    | AcquireGroup(group: string) | ReleaseGroup(group: string)
    | MarkGroupDuplicate(group: string) | CanCreateGroup(group: string)
    | AcquireVM(vm: string) | MarkVMDuplicate(vm: string) | IsVMDuplicate(vm: string)
    | Record(shortage: Shortage, amount: int) | Clear(shortage: Shortage)
    | Read(shortage: Shortage) | Retry(shortage: Shortage, amount: int)
    | CacheGroup(group: string) | DropGroup(group: string) | ReadGroup(group: string)
    | CacheGpu(gpu: string) | ReadGpu(gpu: string)
    | AcquireLabels(tower: string) | ReleaseLabels(tower: string) | RecordLabels(tower: string)
    | Evict

  /** The cache after an operation, and what the operation answers. */
  datatype Outcome = Outcome(items: Items, yes: bool)

  function Put(items: Items, key: string, value: Value, now: int, duration: int): Items {
    items[key := Item(value, Some(now + duration))]
  }

  /** Reading a record of missing resources throws away anything else found under its key. */
  function ReadResource(items: Items, key: string, now: int): Outcome {
    match Get(items, key, now)
    case None => Outcome(items, false)
    case Some(value) => if value.Resource? then Outcome(items, true) else Outcome(items - {key}, false)
  }

  function CanRetry(items: Items, key: string, amount: int, now: int): Outcome {
    var read := ReadResource(items, key, now);
    if !read.yes then read
    else
      var item := items[key];
      var resource := item.value;
      if amount < resource.amount then Outcome(items, true)
      else if now < resource.lastDetected + RESOURCE_SILENCE_TIME then Outcome(items, false)
      else if now < resource.lastRetried + RESOURCE_SILENCE_TIME then Outcome(items, false)
      else Outcome(items[key := item.(value := resource.(lastRetried := now))], true)
  }

  function GrantLabels(items: Items, tower: string, now: int): Outcome {
    var last := Get(items, LabelTimeKey(tower), now);
    if Found(items, LabelKey(tower), now) then Outcome(items, false)
    else if last.Some? && last.value.Time? && now < last.value.at + LABEL_GC_INTERVAL then Outcome(items, false)
    else
      var kept := if last.Some? && !last.value.Time? then items - {LabelTimeKey(tower)} else items;
      Outcome(kept[LabelKey(tower) := Item(Marker, None)], true)
  }

  function Do(items: Items, now: int, op: Op): Outcome {
    match op
    case AcquireGroup(group) =>
      if Found(items, GroupKey(group), now) then Outcome(items, false)
      else Outcome(items[GroupKey(group) := Item(Marker, None)], true)
    case ReleaseGroup(group) => Outcome(items - {GroupKey(group)}, true)
    case MarkGroupDuplicate(group) => Outcome(Put(items, GroupDuplicateKey(group), Marker, now, SILENCE_TIME), true)
    case CanCreateGroup(group) => Outcome(items, !Found(items, GroupDuplicateKey(group), now))
    case AcquireVM(vm) =>
      if Found(items, VMKey(vm), now) then Outcome(items, false)
      else Outcome(Put(items, VMKey(vm), Marker, now, VM_OPERATION_RATE_LIMIT), true)
    case MarkVMDuplicate(vm) => Outcome(Put(items, VMDuplicateKey(vm), Marker, now, SILENCE_TIME), true)
    case IsVMDuplicate(vm) => Outcome(items, Found(items, VMDuplicateKey(vm), now))
    case Record(shortage, amount) =>
      Outcome(Put(items, shortage.Key(), Resource(now, now, amount), now, RESOURCE_DURATION), true)
    case Clear(shortage) => Outcome(items - {shortage.Key()}, true)
    case Read(shortage) => ReadResource(items, shortage.Key(), now)
    case Retry(shortage, amount) => CanRetry(items, shortage.Key(), amount, now)
    case CacheGroup(group) => Outcome(Put(items, GroupCacheKey(group), Group, now, GROUP_CACHE_DURATION), true)
    case DropGroup(group) => Outcome(items - {GroupCacheKey(group)}, true)
    case ReadGroup(group) =>
      (match Get(items, GroupCacheKey(group), now)
       case None => Outcome(items, false)
       case Some(value) => if value.Group? then Outcome(items, true) else Outcome(items - {GroupCacheKey(group)}, false))
    case CacheGpu(gpu) => Outcome(Put(items, GpuKey(gpu), Gpu, now, GPU_CACHE_DURATION), true)
    case ReadGpu(gpu) =>
      // The cached device is dropped even when it was what was looked for.
      if Found(items, GpuKey(gpu), now) then Outcome(items - {GpuKey(gpu)}, Get(items, GpuKey(gpu), now) == Some(Gpu))
      else Outcome(items, false)
    case AcquireLabels(tower) => GrantLabels(items, tower, now)
    case ReleaseLabels(tower) => Outcome(items - {LabelKey(tower)}, true)
    case RecordLabels(tower) => Outcome(items[LabelTimeKey(tower) := Item(Time(now), None)], true)
    case Evict => Outcome(map key | key in items && Fresh(items[key], now) :: items[key], true)
  }

  /** The keys an operation may write or delete. */
  function Touched(op: Op): set<string> {
    match op
    case AcquireGroup(group) => {GroupKey(group)}
    case ReleaseGroup(group) => {GroupKey(group)}
    case MarkGroupDuplicate(group) => {GroupDuplicateKey(group)}
    case CanCreateGroup(_) => {}
    case AcquireVM(vm) => {VMKey(vm)}
    case MarkVMDuplicate(vm) => {VMDuplicateKey(vm)}
    case IsVMDuplicate(_) => {}
    case Record(shortage, _) => {shortage.Key()}
    case Clear(shortage) => {shortage.Key()}
    case Read(shortage) => {shortage.Key()}
    case Retry(shortage, _) => {shortage.Key()}
    case CacheGroup(group) => {GroupCacheKey(group)}
    case DropGroup(group) => {GroupCacheKey(group)}
    case ReadGroup(group) => {GroupCacheKey(group)}
    case CacheGpu(gpu) => {GpuKey(gpu)}
    case ReadGpu(gpu) => {GpuKey(gpu)}
    case AcquireLabels(tower) => {LabelKey(tower), LabelTimeKey(tower)}
    case ReleaseLabels(tower) => {LabelKey(tower)}
    case RecordLabels(tower) => {LabelTimeKey(tower)}
    case Evict => {}
  }

  /** Other keys keep what can be found under them. */
  lemma OthersKept(items: Items, now: int, op: Op, key: string)
    requires key !in Touched(op)
    ensures var after := Do(items, now, op).items;
            && (key in after ==> key in items && after[key] == items[key])
            && (key in items && Fresh(items[key], now) ==> key in after)
  {
  }

  /** A duplicate VM is remembered for five minutes. */
  lemma DuplicateVMIff(items: Items, vm: string, t: int, now: int)
    ensures Do(Do(items, t, MarkVMDuplicate(vm)).items, now, IsVMDuplicate(vm)).yes <==> now <= t + 300_000
  {
  }

  /** A cached group is found for twenty seconds. */
  lemma CachedGroupIff(items: Items, group: string, t: int, now: int)
    ensures Do(Do(items, t, CacheGroup(group)).items, now, ReadGroup(group)).yes <==> now <= t + 20_000
  {
  }

  /** A cached GPU is found for three seconds, and once. */
  lemma CachedGpuIff(items: Items, gpu: string, t: int, now: int)
    ensures var read := Do(Do(items, t, CacheGpu(gpu)).items, now, ReadGpu(gpu));
            (read.yes <==> now <= t + 3_000) && !Do(read.items, now, ReadGpu(gpu)).yes
  {
  }

  /** Labels that were collected are not collected again for a day. */
  lemma LabelsOnceADay(items: Items, tower: string, t: int, now: int)
    ensures Do(Do(items, t, RecordLabels(tower)).items, now, AcquireLabels(tower)).yes ==> t + 86_400_000 <= now
  {
    hide LabelKey;
  }

  /** The labels of a Tower are collected by one at a time, and once a day. */
  lemma LabelsGrantedIff(items: Items, tower: string, now: int)
    ensures var time := "label:gc:time:" + tower; var out := Do(items, now, AcquireLabels(tower));
            && (out.yes <==>
                  && !Found(items, "label:gc:" + tower, now)
                  && !(Found(items, time, now) && items[time].value.Time? && now < items[time].value.at + 86_400_000))
            && (out.yes ==> forall t :: Found(out.items, "label:gc:" + tower, t))
  {
  }

  /** At every time, what is found under all keys but this one is what was found before. */
  ghost predicate OthersFound(before: Items, after: Items, key: string) {
    forall k, t :: k != key ==> Get(after, k, t) == Get(before, k, t)
  }

  class MemoryCache {
    var items: Items

    constructor ()
      ensures items == map[]
    {
      items := map[];
    }

    method AcquirePlacementGroup(group: string, now: int) returns (ok: bool)
      modifies this
      ensures Outcome(items, ok) == Do(old(items), now, AcquireGroup(group))
      ensures ok <==> !Found(old(items), GroupKey(group), now)
      ensures if ok then forall t :: Found(items, GroupKey(group), t) else items == old(items)
      ensures OthersFound(old(items), items, GroupKey(group))
    {
      if Found(items, GroupKey(group), now) {
        return false;
      }
      items := items[GroupKey(group) := Item(Marker, None)];
      return true;
    }

    method ReleasePlacementGroup(group: string, ghost now: int)
      modifies this
      ensures items == Do(old(items), now, ReleaseGroup(group)).items
      ensures forall t :: !Found(items, GroupKey(group), t)
      ensures OthersFound(old(items), items, GroupKey(group))
    {
      items := items - {GroupKey(group)};
    }

    method MarkPlacementGroupDuplicate(group: string, now: int)
      modifies this
      ensures items == Do(old(items), now, MarkGroupDuplicate(group)).items
      ensures forall t :: Found(items, GroupDuplicateKey(group), t) <==> t <= now + SILENCE_TIME
      ensures OthersFound(old(items), items, GroupDuplicateKey(group))
    {
      items := items[GroupDuplicateKey(group) := Item(Marker, Some(now + SILENCE_TIME))];
    }

    method AcquireForUpdate(vm: string, now: int) returns (ok: bool)
      modifies this
      ensures Outcome(items, ok) == Do(old(items), now, AcquireVM(vm))
      ensures ok <==> !Found(old(items), VMKey(vm), now)
      ensures ok ==> forall t :: Found(items, VMKey(vm), t) <==> t <= now + VM_OPERATION_RATE_LIMIT
      ensures !ok ==> items == old(items)
      ensures OthersFound(old(items), items, VMKey(vm))
    {
      if Found(items, VMKey(vm), now) {
        return false;
      }
      items := items[VMKey(vm) := Item(Marker, Some(now + VM_OPERATION_RATE_LIMIT))];
      return true;
    }

    method ClusterResource(key: string, now: int) returns (resource: Option<Value>)
      modifies this
      ensures Outcome(items, resource.Some?) == ReadResource(old(items), key, now)
      ensures resource.Some? ==> resource.value.Resource? && key in items && items[key].value == resource.value
    {
      var found := Get(items, key, now);
      if found.Some? {
        if found.value.Resource? {
          return found;
        }
        items := items - {key};
      }
      return None;
    }

    /** A retry at full size is granted once in five minutes, and keeps the record's lifespan. */
    method CanRetryKey(key: string, amount: int, now: int) returns (ok: bool)
      modifies this
      ensures Outcome(items, ok) == CanRetry(old(items), key, amount, now)
      ensures ok ==> Found(old(items), key, now) && old(items[key]).value.Resource? && key in items
                     && items[key].expiry == old(items[key]).expiry
      ensures ok && amount >= old(items[key]).value.amount ==>
                forall a, t :: a >= amount && now <= t < now + RESOURCE_SILENCE_TIME ==> !CanRetry(items, key, a, t).yes
      ensures ok <==> Allows(old(items), key, amount, now)
      ensures OthersFound(old(items), items, key)
    {
      var resource := ClusterResource(key, now);
      if resource.Some? {
        if amount < resource.value.amount {
          return true;
        }
        if now < resource.value.lastDetected + RESOURCE_SILENCE_TIME {
          return false;
        }
        if now < resource.value.lastRetried + RESOURCE_SILENCE_TIME {
          return false;
        }
        // The record is shared, not copied: its retry time changes where it is stored.
        items := items[key := items[key].(value := resource.value.(lastRetried := now))];
        return true;
      }
      return false;
    }

    /** Whether a virtual machine may be created or powered on although something was recorded as missing: when
        some record allows it, the first of which counts the retry. */
    method CanRetryOperation(cluster: string, group: string, memory: int, storage: int, now: int) returns (ok: bool)
      modifies this
      ensures Outcome(items, ok) == CanRetryAny(old(items), cluster, group, memory, storage, now)
      ensures ok <==> AnyAllows(old(items), Questions(cluster, group, memory, storage), now)
      ensures RecordsAfter(old(items), Counted(old(items), Questions(cluster, group, memory, storage), now), now, items)
      ensures forall k0, k1 :: Retried(old(items), items, k0) && Retried(old(items), items, k1) ==> k0 == k1 && ok
    {
      hide CanRetryAny, AnyAllows, RecordsAfter, Counted, Retried;
      CanRetryAnyIff(items, cluster, group, memory, storage, now);
      ok := AskInTurn(cluster, group, memory, storage, now);
      forall k0, k1 | Retried(old(items), items, k0) && Retried(old(items), items, k1) ensures k0 == k1 && ok {
        AtMostOneRetried(old(items), cluster, group, memory, storage, now, k0, k1);
      }
    }

    method AskInTurn(cluster: string, group: string, memory: int, storage: int, now: int) returns (ok: bool)
      modifies this
      ensures Outcome(items, ok) == CanRetryAny(old(items), cluster, group, memory, storage, now)
    {
      ok := CanRetryKey(Memory(cluster).Key(), memory, now);
      if ok {
        return;
      }
      ok := CanRetryKey(Storage(cluster).Key(), storage, now);
      if ok {
        return;
      }
      ok := CanRetryKey(Policy(group).Key(), 0, now);
    }

    method DropPlacementGroups(groups: seq<string>)
      modifies this
      ensures items == old(items) - (set g | g in groups :: GroupCacheKey(g))
    {
      for i := 0 to |groups|
        invariant items == old(items) - (set g | g in groups[..i] :: GroupCacheKey(g))
      {
        items := items - {GroupCacheKey(groups[i])};
        assert groups[..i + 1] == groups[..i] + [groups[i]];
      }
      assert groups[..|groups|] == groups;
    }
  }

  function CanRetryAny(items: Items, cluster: string, group: string, memory: int, storage: int, now: int): Outcome {
    var first := CanRetry(items, Memory(cluster).Key(), memory, now);
    if first.yes then first
    else
      var second := CanRetry(first.items, Storage(cluster).Key(), storage, now);
      if second.yes then second
      else CanRetry(second.items, Policy(group).Key(), 0, now)
  }

  predicate Retried(before: Items, after: Items, key: string) {
    && key in before && key in after && before[key].value.Resource? && after[key].value.Resource?
    && before[key].value.lastRetried != after[key].value.lastRetried
  }

  /** A fresh record is found under the key that asks for more than is requested now. */
  predicate AllowsSmaller(items: Items, key: string, amount: int, now: int) {
    Found(items, key, now) && items[key].value.Resource? && amount < items[key].value.amount
  }

  /** A fresh record is found that was detected, and retried last, at least five minutes ago. */
  predicate AllowsAgain(items: Items, key: string, amount: int, now: int) {
    && Found(items, key, now) && items[key].value.Resource? && amount >= items[key].value.amount
    && items[key].value.lastDetected + 300_000 <= now && items[key].value.lastRetried + 300_000 <= now
  }

  predicate Allows(items: Items, key: string, amount: int, now: int) {
    AllowsSmaller(items, key, amount, now) || AllowsAgain(items, key, amount, now)
  }

  /** What is asked, in order: memory, storage, policy. */
  datatype Question = Question(key: string, amount: int)

  function Questions(cluster: string, group: string, memory: int, storage: int): seq<Question> {
    [Question("insufficient:memory:" + cluster, memory), Question("insufficient:storage:" + cluster, storage),
     Question("pg:duplicate:" + group, 0)]
  }

  predicate AnyAllows(items: Items, asked: seq<Question>, now: int) {
    exists i :: 0 <= i < |asked| && Allows(items, asked[i].key, asked[i].amount, now)
  }

  /** The record whose retry is counted: that of the first question a record allows, unless for a smaller request. */
  function Counted(items: Items, asked: seq<Question>, now: int): Option<string> {
    if asked == [] || AllowsSmaller(items, asked[0].key, asked[0].amount, now) then None
    else if AllowsAgain(items, asked[0].key, asked[0].amount, now) then Some(asked[0].key)
    else Counted(items, asked[1..], now)
  }

  /** Every record stays as it is, but the retry time of the counted one is now. */
  predicate RecordsAfter(before: Items, counted: Option<string>, now: int, after: Items) {
    forall key :: key in before && before[key].value.Resource? ==>
      && key in after && after[key].expiry == before[key].expiry
      && after[key].value == if counted == Some(key) then before[key].value.(lastRetried := now) else before[key].value
  }

  /** One key: whether it allows a retry, and what the question leaves behind. */
  lemma CanRetryIff(items: Items, key: string, amount: int, now: int)
    ensures var out := CanRetry(items, key, amount, now);
            && (out.yes <==> Allows(items, key, amount, now))
            && (forall k :: k != key ==> (k in out.items <==> k in items) && (k in items ==> out.items[k] == items[k]))
            && (AllowsAgain(items, key, amount, now) ==>
                  out.items == items[key := items[key].(value := items[key].value.(lastRetried := now))])
            && (!AllowsAgain(items, key, amount, now) && key in items && items[key].value.Resource? ==> out.items == items)
  {
  }

  lemma AllowsKept(items: Items, after: Items, key: string, amount: int, now: int)
    requires key in after <==> key in items
    requires key in items ==> after[key] == items[key]
    ensures AllowsAgain(after, key, amount, now) == AllowsAgain(items, key, amount, now)
    ensures Allows(after, key, amount, now) == Allows(items, key, amount, now)
  {
  }

  lemma QuestionKeysDiffer(cluster: string, group: string)
    ensures var m, s, p := "insufficient:memory:" + cluster, "insufficient:storage:" + cluster, "pg:duplicate:" + group;
            m != s && m != p && s != p
  {
    assert ("insufficient:memory:" + cluster)[13] == 'm';
    assert ("insufficient:storage:" + cluster)[13] == 's';
    assert ("pg:duplicate:" + group)[0] == 'p';
  }

  /** The answer is yes exactly when some record allows a retry, and the first that does is the one that is counted. */
  lemma CanRetryAnyIff(items: Items, cluster: string, group: string, memory: int, storage: int, now: int)
    ensures var asked := Questions(cluster, group, memory, storage);
            var out := CanRetryAny(items, cluster, group, memory, storage, now);
            && (out.yes <==> AnyAllows(items, asked, now))
            && RecordsAfter(items, Counted(items, asked, now), now, out.items)
  {
    hide CanRetry, Allows, AllowsAgain, AllowsSmaller, RecordsAfter, Counted, AnyAllows;
    var asked := Questions(cluster, group, memory, storage);
    QuestionKeysDiffer(cluster, group);
    AskedInTurn(items, asked, now);
    var m, s, p := asked[0].key, asked[1].key, asked[2].key;
    CanRetryStep(items, m, memory, now);
    var first := CanRetry(items, m, memory, now);
    AllowsKept(items, first.items, s, storage, now);
    AllowsKept(items, first.items, p, 0, now);
    CanRetryStep(first.items, s, storage, now);
    var second := CanRetry(first.items, s, storage, now);
    AllowsKept(first.items, second.items, p, 0, now);
    CanRetryStep(second.items, p, 0, now);
    if !first.yes {
      NoneCounted(items, first.items, second.items, now, None);
      if !second.yes {
        NoneCounted(items, second.items, CanRetry(second.items, p, 0, now).items, now, CountedBy(second.items, p, 0, now));
      } else {
        NoneCounted(items, first.items, second.items, now, CountedBy(first.items, s, storage, now));
      }
    }
  }

  function CountedBy(items: Items, key: string, amount: int, now: int): Option<string> {
    if AllowsAgain(items, key, amount, now) then Some(key) else None
  }

  /** One key: the answer, the records afterwards, and all other keys. */
  lemma CanRetryStep(items: Items, key: string, amount: int, now: int)
    ensures var out := CanRetry(items, key, amount, now);
            && (out.yes <==> Allows(items, key, amount, now))
            && RecordsAfter(items, CountedBy(items, key, amount, now), now, out.items)
            && (forall k :: k != key ==> (k in out.items <==> k in items) && (k in items ==> out.items[k] == items[k]))
            && (!out.yes ==> CountedBy(items, key, amount, now).None?)
  {
    CanRetryIff(items, key, amount, now);
    hide CanRetry;
  }

  lemma NoneCounted(before: Items, between: Items, after: Items, now: int, counted: Option<string>)
    ensures RecordsAfter(before, None, now, between) && RecordsAfter(between, counted, now, after) ==>
              RecordsAfter(before, counted, now, after)
  {
  }

  lemma AskedInTurn(items: Items, asked: seq<Question>, now: int)
    requires |asked| == 3
    ensures AnyAllows(items, asked, now) <==>
            || Allows(items, asked[0].key, asked[0].amount, now) || Allows(items, asked[1].key, asked[1].amount, now)
            || Allows(items, asked[2].key, asked[2].amount, now)
    ensures Counted(items, asked, now) ==
            if Allows(items, asked[0].key, asked[0].amount, now) then CountedBy(items, asked[0].key, asked[0].amount, now)
            else if Allows(items, asked[1].key, asked[1].amount, now) then CountedBy(items, asked[1].key, asked[1].amount, now)
            else CountedBy(items, asked[2].key, asked[2].amount, now)
  {
    hide Allows, CountedBy, Counted;
    var rest := asked[1..];
    assert rest[0] == asked[1] && rest[1..][0] == asked[2] && rest[1..][1..] == [];
    CountedStep(items, asked, now);
    CountedStep(items, rest, now);
    CountedStep(items, rest[1..], now);
    NothingCounted(items, now);
    AllowedOrNot(items, asked[2].key, asked[2].amount, now);
  }

  lemma CountedStep(items: Items, asked: seq<Question>, now: int)
    requires asked != []
    ensures Counted(items, asked, now) ==
            if Allows(items, asked[0].key, asked[0].amount, now) then CountedBy(items, asked[0].key, asked[0].amount, now)
            else Counted(items, asked[1..], now)
  {
  }

  lemma NothingCounted(items: Items, now: int)
    ensures Counted(items, [], now) == None
  {
  }

  lemma AllowedOrNot(items: Items, key: string, amount: int, now: int)
    ensures !Allows(items, key, amount, now) ==> CountedBy(items, key, amount, now) == None
  {
  }

  /** One question touches the retry time of at most one record. */
  lemma AtMostOneRetried(items: Items, cluster: string, group: string, memory: int, storage: int, now: int,
                         k0: string, k1: string)
    requires var after := CanRetryAny(items, cluster, group, memory, storage, now).items;
             Retried(items, after, k0) && Retried(items, after, k1)
    ensures k0 == k1
    ensures CanRetryAny(items, cluster, group, memory, storage, now).yes
  {
  }
}
