/** Any number of reconcilers reserving GPUs at the same time, each working from its own, possibly old, view. */
module GpuProtocol {
  import opened Results
  import opened Int32
  import opened GpuDevices
  import opened GpuLocks
  import opened GpuSelect
  import opened GpuReuse

  /** A machine is known by its cluster and its name. */
  datatype Reconciler = Reconciler(cluster: string, vm: string)

  /** Fixed during a run: what each machine asks for, and how many units each GPU really has. */
  datatype World = World(machines: map<Reconciler, Machine>, capacity: map<string, nat>) {
    function Capacity(gpu: string): nat {
      if gpu in capacity then capacity[gpu] else 0
    }

    /** The hypothesis on the specifications: counts are at least one, and no model or type is named twice. */
    predicate WellAsked() {
      && (forall gpu :: gpu in capacity ==> capacity[gpu] <= MAX)
      && (forall who :: who in machines ==>
            Positive(machines[who].Required()) && DistinctNames(machines[who].Required()))
    }

    /** Tower never reports more available units than there are; the report may be out of date otherwise. */
    predicate Honest(infos: GpuInfos) {
      KeyedByID(infos) && forall id :: id in infos ==> 0 < Available(infos[id]) <= Capacity(id)
    }
  }

  /** The lock table, the clock, and the view each reconciler currently works from. */
  datatype State = State(table: LockTable, now: int, views: map<Reconciler, GpuInfos>)

  datatype Step =
    | Fetch(who: Reconciler, infos: GpuInfos)
    | FilterView(who: Reconciler)
    | TryHost(who: Reconciler, host: string, groups: Groups)
    | ReadLock(cluster: string)
    | Unlock(who: Reconciler)
    | Wait(time: nat)

  function OnHost(infos: GpuInfos, host: string): GpuInfos {
    map id | id in infos && infos[id].host == host :: infos[id]
  }

  ghost predicate Next(w: World, s: State, step: Step, s': State) {
    match step
    case Fetch(who, infos) =>
      w.Honest(infos) && s' == s.(views := s.views[who := infos])
    case FilterView(who) =>
      && who in s.views
      && s' == s.(table := Purged(s.table, who.cluster, s.now),
                  views := s.views[who := Free(s.views[who], Live(Of(s.table, who.cluster), s.now))])
    case TryHost(who, host, groups) =>
      && who in s.views && who in w.machines
      && IsGrouping(groups, OnHost(s.views[who], host), w.machines[who].Kind())
      && (var selected := Selected(groups, w.machines[who].Required());
          if selected == [] then s' == s
          else s' == s.(table := Locked(s.table, who.cluster, who.vm, host, selected, s.now)))
    case ReadLock(cluster) => s' == s.(table := Purged(s.table, cluster, s.now))
    case Unlock(who) => s' == s.(table := Unlocked(s.table, who.cluster, who.vm, s.now))
    case Wait(time) => s' == s.(now := s.now + time)
  }

  ghost predicate Run(w: World, states: seq<State>, steps: seq<Step>) {
    && |states| == |steps| + 1
    && states[0].table == map[] && states[0].views == map[]
    && forall i :: 0 <= i < |steps| ==> Next(w, states[i], steps[i], states[i + 1])
  }

  /** No GPU has more units locked by live locks than it has. */
  ghost predicate Within(w: World, locks: ClusterLocks) {
    NonNegative(locks) && forall gpu :: LockedSum(locks, gpu) <= w.Capacity(gpu)
  }

  ghost predicate Invariant(w: World, s: State) {
    && (forall c :: c in s.table ==> NonNegative(s.table[c]) && Within(w, Live(s.table[c], s.now)))
    && (forall who :: who in s.views ==> w.Honest(s.views[who]))
  }

  // ---- One granted lock ----

  lemma {:induction false} RemainingAt(requests: seq<DeviceRequest>, i: nat)
    requires DistinctIDs(requests) && i < |requests|
    ensures requests[i].id in Remaining(requests)
    ensures Remaining(requests)[requests[i].id] == Wrap(requests[i].available - requests[i].amount)
  {
    var n := |requests| - 1;
    if i < n {
      RemainingAt(requests[..n], i);
    }
  }

  lemma {:induction false} ShareAt(devices: seq<LockedDevice>, i: nat)
    requires i < |devices| && forall j, k :: 0 <= j < k < |devices| ==> devices[j].id != devices[k].id
    ensures Share(devices, devices[i].id) == devices[i].count
  {
    var n := |devices| - 1;
    if i < n {
      ShareAt(devices[..n], i);
    } else {
      ShareOfUnlisted(devices[..n], devices[n].id);
    }
  }

  /** Requests no larger than what was seen available, on distinct devices. */
  predicate Modest(w: World, requests: seq<DeviceRequest>) {
    && DistinctIDs(requests)
    && forall r :: r in requests ==> 0 < r.amount <= r.available <= w.Capacity(r.id)
  }

  lemma GrantStaysWithin(w: World, live: ClusterLocks, host: string, requests: seq<DeviceRequest>, now: int, gpu: string)
    requires w.WellAsked() && Within(w, live) && Modest(w, requests) && Fits(live, requests)
    ensures 0 <= LockedSum(live, gpu) + Share(ToLock(host, requests, now).devices, gpu) <= w.Capacity(gpu)
  {
    var devices := ToLock(host, requests, now).devices;
    SumOfFewer(live, live, gpu);
    if i :| 0 <= i < |requests| && requests[i].id == gpu {
      assert devices[i].id == gpu && requests[i] in requests;
      ShareAt(devices, i);
      RemainingAt(requests, i);
      if gpu !in LockedIDs(live) {
        UnlistedIsFree(live, gpu);
      }
    } else {
      ShareOfUnlisted(devices, gpu);
    }
  }

  lemma LockStaysWithin(w: World, live: ClusterLocks, vm: string, host: string, requests: seq<DeviceRequest>, now: int)
    requires w.WellAsked() && Within(w, live) && Modest(w, requests) && Fits(live, requests)
    ensures Within(w, live[vm := ToLock(host, requests, now)])
  {
    var lock := ToLock(host, requests, now);
    var after := live[vm := lock];
    assert NonNegative(after) by {
      assert forall i :: 0 <= i < |requests| ==> requests[i] in requests;
    }
    forall gpu ensures LockedSum(after, gpu) <= w.Capacity(gpu) {
      GrantStaysWithin(w, live, host, requests, now, gpu);
      SumSplit(after, vm, gpu);
      assert after - {vm} == live - {vm};
      SumOfFewer(live - {vm}, live, gpu);
    }
  }

  // ---- One step ----

  lemma SelectionIsModest(w: World, view: GpuInfos, host: string, machine: Machine, groups: Groups)
    requires w.Honest(view) && Positive(machine.Required()) && DistinctNames(machine.Required())
    requires IsGrouping(groups, OnHost(view, host), machine.Kind())
    ensures Modest(w, Selected(groups, machine.Required()))
  {
    if SelectFrom(groups, machine.Required()).Some? {
      SelectionServes(groups, OnHost(view, host), machine.Kind(), machine.Required());
    }
  }

  lemma FewerStaysWithin(w: World, fewer: ClusterLocks, locks: ClusterLocks)
    requires Within(w, locks) && forall vm :: vm in fewer ==> vm in locks && fewer[vm] == locks[vm]
    ensures Within(w, fewer)
  {
    forall gpu ensures LockedSum(fewer, gpu) <= w.Capacity(gpu) {
      SumOfFewer(fewer, locks, gpu);
    }
  }

  lemma LiveOfIsWithin(w: World, s: State, cluster: string)
    requires Invariant(w, s)
    ensures Within(w, Live(Of(s.table, cluster), s.now))
  {
  }

  /** Replacing the locks of one cluster by safe ones keeps the invariant. */
  lemma ReplacedIsSafe(w: World, s: State, cluster: string, locks: ClusterLocks)
    requires Invariant(w, s) && Within(w, locks)
    ensures Invariant(w, s.(table := s.table[cluster := locks]))
  {
    FewerStaysWithin(w, Live(locks, s.now), locks);
  }

  lemma PurgedIsSafe(w: World, s: State, cluster: string)
    requires Invariant(w, s)
    ensures Invariant(w, s.(table := Purged(s.table, cluster, s.now)))
  {
    LiveOfIsWithin(w, s, cluster);
    if cluster in s.table {
      ReplacedIsSafe(w, s, cluster, Live(s.table[cluster], s.now));
    }
  }

  lemma UnlockedIsSafe(w: World, s: State, cluster: string, vm: string)
    requires Invariant(w, s)
    ensures Invariant(w, s.(table := Unlocked(s.table, cluster, vm, s.now)))
  {
    var live := Live(Of(s.table, cluster), s.now);
    LiveOfIsWithin(w, s, cluster);
    FewerStaysWithin(w, live - {vm}, live);
    if live - {vm} != map[] {
      ReplacedIsSafe(w, s, cluster, live - {vm});
    }
  }

  lemma LockedIsSafe(w: World, s: State, cluster: string, vm: string, host: string, requests: seq<DeviceRequest>)
    requires w.WellAsked() && Invariant(w, s) && Modest(w, requests)
    ensures Invariant(w, s.(table := Locked(s.table, cluster, vm, host, requests, s.now)))
  {
    var live := Live(Of(s.table, cluster), s.now);
    LiveOfIsWithin(w, s, cluster);
    if Fits(live, requests) {
      LockStaysWithin(w, live, vm, host, requests, s.now);
      ReplacedIsSafe(w, s, cluster, live[vm := ToLock(host, requests, s.now)]);
    } else {
      PurgedIsSafe(w, s, cluster);
    }
  }

  lemma FetchIsSafe(w: World, s: State, who: Reconciler, infos: GpuInfos)
    requires Invariant(w, s) && w.Honest(infos)
    ensures Invariant(w, s.(views := s.views[who := infos]))
  {
  }

  lemma WaitIsSafe(w: World, s: State, time: nat)
    requires Invariant(w, s)
    ensures Invariant(w, s.(now := s.now + time))
  {
    hide Within;
    forall c | c in s.table ensures Within(w, Live(s.table[c], s.now + time)) {
      FewerStaysWithin(w, Live(s.table[c], s.now + time), Live(s.table[c], s.now));
    }
  }

  lemma FilterIsSafe(w: World, s: State, who: Reconciler)
    requires Invariant(w, s) && who in s.views
    ensures Invariant(w, s.(table := Purged(s.table, who.cluster, s.now),
                            views := s.views[who := Free(s.views[who], Live(Of(s.table, who.cluster), s.now))]))
  {
    PurgedIsSafe(w, s, who.cluster);
    assert w.Honest(Free(s.views[who], Live(Of(s.table, who.cluster), s.now)));
  }

  lemma TryHostIsSafe(w: World, s: State, who: Reconciler, host: string, groups: Groups)
    requires w.WellAsked() && Invariant(w, s) && who in s.views && who in w.machines
    requires IsGrouping(groups, OnHost(s.views[who], host), w.machines[who].Kind())
    ensures Invariant(w, s.(table := Locked(s.table, who.cluster, who.vm, host,
                                            Selected(groups, w.machines[who].Required()), s.now)))
  {
    var machine := w.machines[who];
    SelectionIsModest(w, s.views[who], host, machine, groups);
    LockedIsSafe(w, s, who.cluster, who.vm, host, Selected(groups, machine.Required()));
  }

  lemma StepKeepsInvariant(w: World, s: State, step: Step, s': State)
    requires w.WellAsked() && Invariant(w, s) && Next(w, s, step, s')
    ensures Invariant(w, s')
  {
    hide Invariant, Purged, Live, Of, Free, Locked, Unlocked, Selected, IsGrouping, OnHost;
    match step
    case Fetch(who, infos) => FetchIsSafe(w, s, who, infos);
    case FilterView(who) => FilterIsSafe(w, s, who);
    case TryHost(who, host, groups) => TryHostIsSafe(w, s, who, host, groups);
    case ReadLock(cluster) => PurgedIsSafe(w, s, cluster);
    case Unlock(who) => UnlockedIsSafe(w, s, who.cluster, who.vm);
    case Wait(time) => WaitIsSafe(w, s, time);
  }

  // ---- Every run ----

  lemma {:induction false} RunKeepsInvariant(w: World, states: seq<State>, steps: seq<Step>, i: nat)
    requires w.WellAsked() && Run(w, states, steps) && i < |states|
    ensures Invariant(w, states[i])
  {
    if i > 0 {
      RunKeepsInvariant(w, states, steps, i - 1);
      StepKeepsInvariant(w, states[i - 1], steps[i - 1], states[i]);
    }
  }

  /** In every interleaving, live locks never exceed a GPU's capacity, and so no int32 count ever wraps. */
  lemma NeverOvercommitted(w: World, states: seq<State>, steps: seq<Step>, i: nat, cluster: string, gpu: string)
    requires w.WellAsked() && Run(w, states, steps) && i < |states|
    ensures var held := LockedSum(Live(Of(states[i].table, cluster), states[i].now), gpu);
            0 <= held <= w.Capacity(gpu) && Wrap(held) == held
  {
    RunKeepsInvariant(w, states, steps, i);
    LiveOfIsWithin(w, states[i], cluster);
    var live := Live(Of(states[i].table, cluster), states[i].now);
    SumOfFewer(live, live, gpu);
  }

  // ---- Every lock wears off ----

  lemma StepLocks(w: World, s: State, step: Step, s': State, cluster: string, vm: string)
    requires Next(w, s, step, s') && vm in Of(s'.table, cluster)
    ensures || (vm in Of(s.table, cluster) && Of(s'.table, cluster)[vm] == Of(s.table, cluster)[vm])
            || (step.TryHost? && step.who == Reconciler(cluster, vm) && Of(s'.table, cluster)[vm].lockedAt == s.now)
  {
    hide Fits, Free, Selected, IsGrouping, OnHost;
  }

  lemma {:induction false} LocksHaveTakers(w: World, states: seq<State>, steps: seq<Step>, i: nat, cluster: string, vm: string)
    returns (k: nat)
    requires Run(w, states, steps) && i < |states| && vm in Of(states[i].table, cluster)
    ensures k < i && steps[k].TryHost? && steps[k].who == Reconciler(cluster, vm)
    ensures Of(states[i].table, cluster)[vm].lockedAt == states[k].now
  {
    hide Next;
    k := i - 1;
    StepLocks(w, states[k], steps[k], states[i], cluster, vm);
    if vm in Of(states[k].table, cluster) && Of(states[i].table, cluster)[vm] == Of(states[k].table, cluster)[vm] {
      k := LocksHaveTakers(w, states, steps, i - 1, cluster, vm);
    }
  }

  /** In every run a lock that counts was taken by its own machine less than eight minutes ago. */
  lemma LiveLocksAreRecent(w: World, states: seq<State>, steps: seq<Step>, i: nat, cluster: string, vm: string)
    requires Run(w, states, steps) && i < |states| && vm in Live(Of(states[i].table, cluster), states[i].now)
    ensures exists k :: 0 <= k < i && steps[k].TryHost? && steps[k].who == Reconciler(cluster, vm)
                        && states[i].now < states[k].now + 480_000
  {
    LiveIff(Of(states[i].table, cluster), vm, states[i].now);
    var k := LocksHaveTakers(w, states, steps, i, cluster, vm);
  }
}
