/** Hot updates finish when nothing goes wrong, and what a specification changed too late can break. */
module HotUpdateProgress {
  import opened Results
  import opened HotUpdate
  import opened HotUpdateRuns

  /** Every call succeeds and every ticket is granted. */
  function Calm(vm: VM, jobs: Jobs): Answers {
    Answers(vm, jobs, true, true, true, false, false, true, false, false, false, false, false, false, false, false,
            false, false, false)
  }

  // ---- Progress ----

  datatype Site = Site(vm: VM, jobs: Jobs, st: Status)

  function Pass(spec: Spec, s: Site): Out {
    Reconciled(spec, Calm(s.vm, s.jobs), s.st)
  }

  /** Tower and the host agent finish what the pass asked for before the next one. */
  function Serve(spec: Spec, supply: seq<Nic>, s: Site, out: Out): Site {
    var rested := s.(st := out.status.(hasTask := false));
    if out.calls == [] then rested
    else
      match out.calls[0]
      case UpdateVM =>
        rested.(vm := s.vm.(cpus := Max(s.vm.cpus, spec.cpus), memoryMiB := Max(s.vm.memoryMiB, spec.memoryMiB)))
      case ResizeVolume(size) => rested.(vm := s.vm.(diskGiB := size))
      case AddNics(existing, added) =>
        if existing + added <= |supply| then rested.(vm := s.vm.(nics := s.vm.nics + supply[existing..existing + added]))
        else rested
      case CreateJob(name, _) => rested.(jobs := s.jobs[name := Succeeded])
      case _ => rested
  }

  function Max(a: int, b: int): int {
    if a < b then b else a
  }

  function Round(spec: Spec, supply: seq<Nic>, s: Site): Site {
    Serve(spec, supply, s, Pass(spec, s))
  }

  function Rounds(spec: Spec, supply: seq<Nic>, s: Site, n: nat): Site
    decreases n
  {
    if n == 0 then s else Rounds(spec, supply, Round(spec, supply, s), n - 1)
  }

  predicate Working(nics: seq<Nic>) {
    forall k :: 0 <= k < |nics| ==> nics[k].mac != "" && nics[k].ip != ""
  }

  predicate Healthy(spec: Spec, supply: seq<Nic>, s: Site) {
    && 1 <= |s.vm.nics| <= |spec.devices| == |supply| && Working(s.vm.nics) && Working(supply)
    && !s.vm.volumeBusy && (forall name :: name in s.jobs ==> s.jobs[name].Succeeded?)
    && StageEarned(spec, s.vm, s.st.condition)
  }

  function ComputeLeft(spec: Spec, s: Site): nat {
    if !ComputeMet(spec, s.vm) then if StageIn(s.st.condition) == 1 then 2 else 3
    else if OwesKubelet(s.st.condition) && KubeletName(spec) !in s.jobs then 1 else 0
  }

  function DiskLeft(spec: Spec, s: Site): nat {
    if !DiskMet(spec, s.vm) then if StageIn(s.st.condition) == 3 then 2 else 3
    else if OwesPartition(s.st.condition) && PartitionJob(spec.diskGiB) !in s.jobs then 1 else 0
  }

  predicate OwesNicConfig(spec: Spec, s: Site) {
    5 <= StageIn(s.st.condition) <= 6 && FirstNew(s.st) < |spec.devices|
  }

  function NicsLeft(spec: Spec, s: Site): nat {
    if !NicsMet(spec, s.vm) then if StageIn(s.st.condition) == 5 then 2 else 3
    else if OwesNicConfig(spec, s) && |s.vm.nics| > 0 && NicJob(s.vm.nics[|s.vm.nics| - 1].mac) !in s.jobs then 1 else 0
  }

  /** How many passes are left, at most. */
  function Left(spec: Spec, s: Site): nat {
    ComputeLeft(spec, s) + DiskLeft(spec, s) + NicsLeft(spec, s)
  }

  lemma ComputeRound(spec: Spec, supply: seq<Nic>, s: Site)
    requires Healthy(spec, supply, s) && ComputeLeft(spec, s) > 0
    ensures var s' := Round(spec, supply, s);
            Healthy(spec, supply, s') && Left(spec, s') < Left(spec, s) && !Pass(spec, s).flow.Proceed?
  {
    hide DiskStages, Network;
  }

  /** With the compute stages done, a pass reaches the disk stages having at most seen the kubelet job succeed. */
  lemma ReachDisk(spec: Spec, supply: seq<Nic>, s: Site) returns (st: Status, calls: seq<Call>)
    requires Healthy(spec, supply, s) && ComputeLeft(spec, s) == 0
    ensures ComputeMet(spec, s.vm) && st.network == s.st.network && st.hasTask == s.st.hasTask
    ensures if OwesKubelet(s.st.condition) then StageIn(st.condition) == 2 && calls == [SawSuccess(KubeletName(spec))]
            else st.condition == s.st.condition && calls == []
    ensures var e := Calm(s.vm, s.jobs); var disk := DiskStages(spec, e, st);
            Pass(spec, s) == Finish(Chain(Out(st, calls, Proceed), Chain(disk, Network(spec, e, disk.status))))
  {
    hide DiskStages, Network;
    var compute := ComputeStages(spec, Calm(s.vm, s.jobs), s.st);
    st, calls := compute.status, compute.calls;
  }

  lemma CalmDisk(spec: Spec, vm: VM, jobs: Jobs, st: Status)
    requires !vm.volumeBusy && forall name :: name in jobs ==> jobs[name].Succeeded?
    ensures var out := DiskStages(spec, Calm(vm, jobs), st); var c, job := out.status.condition, PartitionJob(spec.diskGiB);
            && out.status.network == st.network
            && (!DiskMet(spec, vm) && StageIn(st.condition) == 3 ==>
                  StageIn(c) == 3 && out.calls == [ResizeVolume(spec.diskGiB)] && out.flow.Wait?)
            && (!DiskMet(spec, vm) && StageIn(st.condition) != 3 ==>
                  StageIn(c) == 3 && out.calls == [] && out.flow.Wait?)
            && (DiskMet(spec, vm) && OwesPartition(st.condition) && job !in jobs ==>
                  StageIn(c) == 4 && out.calls == [CreateJob(job, [])] && out.flow.Wait?)
            && (DiskMet(spec, vm) && OwesPartition(st.condition) && job in jobs ==>
                  StageIn(c) == 4 && out.calls == [SawSuccess(job)] && out.flow.Proceed?)
            && (DiskMet(spec, vm) && !OwesPartition(st.condition) ==>
                  c == st.condition && out.calls == [] && out.flow.Proceed?)
  {
  }

  lemma DiskRound(spec: Spec, supply: seq<Nic>, s: Site)
    requires Healthy(spec, supply, s) && ComputeLeft(spec, s) == 0 && DiskLeft(spec, s) > 0
    ensures var s' := Round(spec, supply, s);
            Healthy(spec, supply, s') && Left(spec, s') < Left(spec, s) && !Pass(spec, s).flow.Proceed?
  {
    hide Pass, Network, Reconciled, DiskStages;
    var st, calls := ReachDisk(spec, supply, s);
    CalmDisk(spec, s.vm, s.jobs, st);
    assert calls + [] == calls;
  }

  /** With the disk stages done too, a pass reaches the network stages. */
  lemma ReachNetwork(spec: Spec, supply: seq<Nic>, s: Site) returns (st: Status, calls: seq<Call>)
    requires Healthy(spec, supply, s) && ComputeLeft(spec, s) == 0 && DiskLeft(spec, s) == 0
    ensures ComputeMet(spec, s.vm) && DiskMet(spec, s.vm) && st.network == s.st.network
    ensures |calls| <= 1 && (calls != [] ==> calls[0].SawSuccess?)
    ensures StageIn(s.st.condition) >= 5 || StageIn(s.st.condition) == 0 ==> calls == [] && st.condition == s.st.condition
    ensures 1 <= StageIn(s.st.condition) <= 4 ==> 1 <= StageIn(st.condition) <= 4
    ensures Pass(spec, s) == Finish(Chain(Out(st, calls, Proceed), Network(spec, Calm(s.vm, s.jobs), st)))
  {
    hide Pass, Network, Reconciled, DiskStages;
    st, calls := ReachDisk(spec, supply, s);
    CalmDisk(spec, s.vm, s.jobs, st);
    var disk := DiskStages(spec, Calm(s.vm, s.jobs), st);
    var network := Network(spec, Calm(s.vm, s.jobs), disk.status);
    assert calls + (disk.calls + network.calls) == (calls + disk.calls) + network.calls;
    st, calls := disk.status, calls + disk.calls;
  }

  lemma CalmNetwork(spec: Spec, vm: VM, jobs: Jobs, st: Status)
    requires 1 <= |vm.nics| <= |spec.devices| && Working(vm.nics) && forall name :: name in jobs ==> jobs[name].Succeeded?
    ensures var out := Network(spec, Calm(vm, jobs), st); var c := out.status.condition; var stage := StageIn(st.condition);
            var job := NicJob(vm.nics[|vm.nics| - 1].mac);
            var owes := 5 <= stage <= 6 && FirstNew(st) < |spec.devices|;
            && (!NicsMet(spec, vm) && stage == 5 ==>
                  StageIn(c) == 5 && out.flow.Wait? && out.calls == [AddNics(|vm.nics|, |spec.devices| - |vm.nics|)])
            && (!NicsMet(spec, vm) && stage != 5 ==> StageIn(c) == 5 && out.calls == [] && out.flow.Wait?)
            && (NicsMet(spec, vm) && owes && job !in jobs ==>
                  StageIn(c) == 6 && out.flow.Wait? && out.status.network == st.network
                  && exists macTypes :: out.calls == [CreateJob(job, macTypes)])
            && (NicsMet(spec, vm) && (!owes || job in jobs) ==>
                  && out.flow.Proceed? && |out.calls| <= 1
                  && (c.False? <==> st.condition.False?) && (out.calls != [] ==> out.calls[0].SawSuccess?))
  {
  }

  lemma NicsRound(spec: Spec, supply: seq<Nic>, s: Site)
    requires Healthy(spec, supply, s) && ComputeLeft(spec, s) == 0 && DiskLeft(spec, s) == 0 && NicsLeft(spec, s) > 0
    ensures var s' := Round(spec, supply, s);
            Healthy(spec, supply, s') && Left(spec, s') < Left(spec, s) && !Pass(spec, s).flow.Proceed?
  {
    hide Pass, Reconciled, Network;
    var st, calls := ReachNetwork(spec, supply, s);
    CalmNetwork(spec, s.vm, s.jobs, st);
    assert calls + [] == calls;
  }

  lemma LastPass(spec: Spec, supply: seq<Nic>, s: Site)
    requires Healthy(spec, supply, s) && Left(spec, s) == 0
    ensures Pass(spec, s).flow.Proceed? && !Pass(spec, s).status.condition.False?
    ensures AllMet(spec, s.vm) && Addressed(spec, s.vm)
  {
    hide Pass, Reconciled, Network;
    var st, calls := ReachNetwork(spec, supply, s);
    CalmNetwork(spec, s.vm, s.jobs, st);
  }

  /** Every pass that does not finish brings the end strictly closer. */
  lemma RoundProgress(spec: Spec, supply: seq<Nic>, s: Site)
    requires Healthy(spec, supply, s) && Left(spec, s) > 0
    ensures Healthy(spec, supply, Round(spec, supply, s)) && Left(spec, Round(spec, supply, s)) < Left(spec, s)
  {
    hide Round, Healthy, Pass;
    if ComputeLeft(spec, s) > 0 {
      ComputeRound(spec, supply, s);
    } else if DiskLeft(spec, s) > 0 {
      DiskRound(spec, supply, s);
    } else {
      NicsRound(spec, supply, s);
    }
  }

  lemma {:induction false} FinishesWithin(spec: Spec, supply: seq<Nic>, s: Site) returns (n: nat)
    requires Healthy(spec, supply, s)
    ensures n <= Left(spec, s)
    ensures var last := Rounds(spec, supply, s, n);
            Pass(spec, last).flow.Proceed? && !Pass(spec, last).status.condition.False?
            && AllMet(spec, last.vm) && Addressed(spec, last.vm)
    decreases Left(spec, s)
  {
    hide Pass, Healthy, Left, Round;
    if Left(spec, s) == 0 {
      LastPass(spec, supply, s);
      n := 0;
    } else {
      RoundProgress(spec, supply, s);
      n := FinishesWithin(spec, supply, Round(spec, supply, s));
      n := n + 1;
    }
  }

  /** From a clear condition, with nothing going wrong, the tenth reconcile at the latest reports success. */
  lemma FinishesInTenReconciles(spec: Spec, supply: seq<Nic>, s: Site) returns (n: nat)
    requires Healthy(spec, supply, s) && !s.st.condition.False?
    ensures n <= 9
    ensures var last := Rounds(spec, supply, s, n);
            Pass(spec, last).flow.Proceed? && !Pass(spec, last).status.condition.False?
            && AllMet(spec, last.vm) && Addressed(spec, last.vm)
  {
    hide Pass, Rounds;
    n := FinishesWithin(spec, supply, s);
  }

  // ---- A specification changed during the update ----

  /** A pass drops the partition work it still owes exactly when compute resources are wanted at that moment. */
  lemma PartitionDebtLostIff(spec: Spec, e: Answers, st: Status)
    requires OwesPartition(st.condition)
    ensures var out := Reconciled(spec, e, st);
            (!OwesPartition(out.status.condition) && SawSuccess(PartitionJob(spec.diskGiB)) !in out.calls)
            <==> !ComputeMet(spec, e.vm)
  {
    hide Compute, Kubelet, Volume, Partition, Network;
    var compute := Compute(spec, e, st);
    ComputeEffect(spec, e, st);
    KubeletEffect(spec, e, compute.status);
    if ComputeMet(spec, e.vm) {
      var kubelet := Kubelet(spec, e, compute.status);
      var volume := Volume(spec, e, kubelet.status);
      VolumeEffect(spec, e, kubelet.status);
      var partition := Partition(spec, e, volume.status);
      PartitionEffect(spec, e, volume.status);
      assert partition.flow.Proceed? ==> partition.calls[0] == SawSuccess(PartitionJob(spec.diskGiB));
    }
  }

  /** Whenever more compute is asked for after the disk has grown and before its partition work is done,
      four calm reconciles end with the condition True and the partition work never seen to succeed. */
  lemma LateComputeSkipsPartition(spec: Spec, s: Site, grown: VM)
    requires OwesPartition(s.st.condition) && DiskMet(spec, s.vm) && NicsMet(spec, s.vm) && s.vm.nics != []
    requires !ComputeMet(spec, s.vm) && !s.st.hasTask && KubeletName(spec) !in s.jobs
    requires grown == s.vm.(cpus := Max(s.vm.cpus, spec.cpus), memoryMiB := Max(s.vm.memoryMiB, spec.memoryMiB))
    ensures var o1 := Reconciled(spec, Calm(s.vm, s.jobs), s.st);
            var o2 := Reconciled(spec, Calm(s.vm, s.jobs), o1.status);
            var o3 := Reconciled(spec, Calm(grown, s.jobs), AfterTask(o2.status, NotFailed));
            var o4 := Reconciled(spec, Calm(grown, s.jobs[KubeletName(spec) := Succeeded]), o3.status);
            && o1.calls == [] && o2.calls == [UpdateVM]
            && o3.calls == [CreateJob(KubeletName(spec), [])] && o4.calls == [SawSuccess(KubeletName(spec))]
            && o4.status.condition.True?
  {
    var o1 := Reconciled(spec, Calm(s.vm, s.jobs), s.st);
    assert o1.status.condition == False(ExpandingCompute) && o1.calls == [];
    var o2 := Reconciled(spec, Calm(s.vm, s.jobs), o1.status);
    assert o2.status.condition == False(ExpandingCompute) && o2.calls == [UpdateVM];
    var ready := AfterTask(o2.status, NotFailed);
    assert ready.condition == False(ExpandingCompute);
    KubeletMade(spec, grown, s.jobs, ready);
    var o3 := Reconciled(spec, Calm(grown, s.jobs), ready);
    KubeletDone(spec, grown, s.jobs[KubeletName(spec) := Succeeded], o3.status);
  }

  lemma KubeletMade(spec: Spec, vm: VM, jobs: Jobs, st: Status)
    requires ComputeMet(spec, vm) && st.condition == False(ExpandingCompute) && KubeletName(spec) !in jobs
    ensures var out := Reconciled(spec, Calm(vm, jobs), st);
            out.calls == [CreateJob(KubeletName(spec), [])] && out.status.condition == False(RestartingKubelet)
  {
  }

  lemma KubeletDone(spec: Spec, vm: VM, jobs: Jobs, st: Status)
    requires AllMet(spec, vm) && vm.nics != [] && st.condition == False(RestartingKubelet)
    requires KubeletName(spec) in jobs && jobs[KubeletName(spec)].Succeeded?
    ensures var out := Reconciled(spec, Calm(vm, jobs), st);
            out.calls == [SawSuccess(KubeletName(spec))] && out.status.condition.True?
  {
    hide DiskStages, Network;
    var e := Calm(vm, jobs);
    var compute := ComputeStages(spec, e, st);
    var disk := DiskStages(spec, e, compute.status);
    assert compute.flow.Proceed? && StageIn(compute.status.condition) == 2 && compute.calls == [SawSuccess(KubeletName(spec))];
    DiskPasses(spec, e, compute.status);
    NetworkPasses(spec, e, disk.status);
  }

  lemma DiskPasses(spec: Spec, e: Answers, st: Status)
    requires DiskMet(spec, e.vm) && !e.volumeError && !OwesPartition(st.condition)
    ensures var out := DiskStages(spec, e, st);
            out.flow.Proceed? && out.calls == [] && out.status.condition == st.condition
  {
  }

  lemma NetworkPasses(spec: Spec, e: Answers, st: Status)
    requires NicsMet(spec, e.vm) && !e.nicsError && e.vm.nics != [] && 1 <= StageIn(st.condition) <= 4
    ensures Network(spec, e, st) == Out(st, [], Proceed)
  {
  }
}
