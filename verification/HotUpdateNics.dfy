/** Which NICs the host agent is told to configure. */
module HotUpdateNics {
  import opened Results
  import opened HotUpdate
  import opened HotUpdateRuns
  import opened HotUpdateProgress

  predicate NicStage(c: Condition) {
    5 <= StageIn(c) <= 6
  }

  // ---- One pass ----

  /** The stages before the network are passed and the NICs are read. */
  predicate ReachesNics(spec: Spec, e: Answers, st: Status) {
    var compute := ComputeStages(spec, e, st);
    compute.flow.Proceed? && DiskStages(spec, e, compute.status).flow.Proceed? && !e.nicsError
  }

  /** The pass reads the NICs and finds some missing: it records how many there are. */
  predicate FindsMissing(spec: Spec, e: Answers, entry: Entry, st: Status) {
    && !(st.hasTask && entry.taskRunning) && entry.reached
    && ReachesNics(spec, e, if st.hasTask then AfterTask(st, entry.failed) else st)
    && e.vm.nics != [] && !NicsMet(spec, e.vm)
  }

  /** What the network stages do to the recorded NICs, and what they tell the host agent. */
  predicate NicsHandled(spec: Spec, vm: VM, missing: bool, st: Status, out: Out) {
    && (missing ==> NicStage(out.status.condition) && |out.status.network| == |vm.nics|)
    && (!missing && NicStage(out.status.condition) ==> NicStage(st.condition) && out.status.network == st.network)
    && (forall x :: x in out.calls && x.AddNics? ==>
          missing && x.existing == |vm.nics| && x.existing + x.added == |spec.devices|)
    && (forall x :: x in out.calls && x.CreateJob? && x.name.NicJob? ==>
          && NicStage(st.condition) && FirstNew(st) < |spec.devices| == |vm.nics|
          && x.name.mac == vm.nics[|vm.nics| - 1].mac
          && x.macTypes == Pairs(spec, vm.nics, FirstNew(st), |spec.devices|))
  }

  lemma GrowHandles(spec: Spec, e: Answers, st: Status)
    requires !NicsMet(spec, e.vm)
    ensures NicsHandled(spec, e.vm, true, st, GrowNics(spec, e, st))
  {
  }

  lemma ConfigureHandles(spec: Spec, e: Answers, st: Status)
    requires NicsMet(spec, e.vm)
    ensures NicsHandled(spec, e.vm, false, st, ConfigureNics(spec, e, st))
  {
    ConfigureEffect(spec, e, st);
  }

  lemma NetworkHandles(spec: Spec, e: Answers, st: Status)
    ensures var missing := !e.nicsError && e.vm.nics != [] && !NicsMet(spec, e.vm);
            NicsHandled(spec, e.vm, missing, st, Network(spec, e, st))
  {
    hide GrowNics, ConfigureNics;
    if !NicsMet(spec, e.vm) {
      GrowHandles(spec, e, st);
    } else {
      ConfigureHandles(spec, e, st);
    }
  }

  lemma DiskEffect(spec: Spec, e: Answers, st: Status)
    ensures var out := DiskStages(spec, e, st);
            && out.status.network == st.network
            && (NicStage(out.status.condition) ==> out.status.condition == st.condition)
            && (forall x :: x in out.calls ==> !x.AddNics? && (x.CreateJob? ==> !x.name.NicJob?))
            && (NicStage(st.condition) && out.flow.Proceed? ==> out.status.condition == st.condition)
            && (out.flow.Proceed? ==> out.calls == [] || |out.calls| == 1)
  {
    hide Volume, Partition;
    var volume := Volume(spec, e, st);
    VolumeEffect(spec, e, st);
    PartitionEffect(spec, e, volume.status);
  }

  lemma ComputePartEffect(spec: Spec, e: Answers, st: Status)
    ensures var out := ComputeStages(spec, e, st);
            && out.status.network == st.network
            && (NicStage(out.status.condition) ==> out.status.condition == st.condition)
            && (forall x :: x in out.calls ==> !x.AddNics? && (x.CreateJob? ==> !x.name.NicJob?))
  {
    hide Compute, Kubelet;
    var compute := Compute(spec, e, st);
    ComputeEffect(spec, e, st);
    KubeletEffect(spec, e, compute.status);
  }

  lemma PassHandles(spec: Spec, e: Answers, st: Status)
    ensures var missing := ReachesNics(spec, e, st) && e.vm.nics != [] && !NicsMet(spec, e.vm);
            NicsHandled(spec, e.vm, missing, st, Reconciled(spec, e, st))
  {
    hide ComputeStages, DiskStages, Network;
    var compute := ComputeStages(spec, e, st);
    var disk := DiskStages(spec, e, compute.status);
    ComputePartEffect(spec, e, st);
    DiskEffect(spec, e, compute.status);
    NetworkHandles(spec, e, disk.status);
    NetworkWaits(spec, e, disk.status);
  }

  lemma NetworkWaits(spec: Spec, e: Answers, st: Status)
    ensures !NicsMet(spec, e.vm) ==> !Network(spec, e, st).flow.Proceed?
  {
  }

  /** A whole reconcile, for every answer and from every status. */
  lemma TurnHandles(spec: Spec, e: Answers, entry: Entry, st: Status)
    ensures NicsHandled(spec, e.vm, FindsMissing(spec, e, entry, st), st, Turn(spec, e, entry, st))
  {
    hide Reconciled, AfterTask, ReachesNics, NicStage;
    var ready := if st.hasTask then AfterTask(st, entry.failed) else st;
    AfterTaskStage(st, entry.failed);
    SameNicStage(st.condition, ready.condition);
    PassHandles(spec, e, ready);
    PassEnds(spec, e, ready);
  }

  lemma SameNicStage(a: Condition, b: Condition)
    requires StageIn(a) == StageIn(b)
    ensures NicStage(a) == NicStage(b)
  {
  }

  lemma PassEnds(spec: Spec, e: Answers, st: Status)
    ensures Reconciled(spec, e, st).flow.Proceed? ==> !NicStage(Reconciled(spec, e, st).status.condition)
  {
    hide ComputeStages, DiskStages, Network;
  }

  // ---- Runs ----

  /** A saved pass that found NICs missing, and so recorded their number. */
  predicate Records(spec: Spec, w: World, step: Step) {
    step.Reconcile? && step.patched && FindsMissing(spec, step.e, step.entry, w.saved)
  }

  /** The number recorded last before step i. */
  function LastCount(spec: Spec, worlds: seq<World>, steps: seq<Step>, i: nat): Option<nat>
    requires i <= |steps| < |worlds|
  {
    if i == 0 then None
    else if Records(spec, worlds[i - 1], steps[i - 1]) then Some(|worlds[i - 1].vm.nics|)
    else LastCount(spec, worlds, steps, i - 1)
  }

  lemma {:induction false} NicsOnlyGrow(spec: Spec, worlds: seq<World>, steps: seq<Step>, k: nat, i: nat)
    requires Run(spec, worlds, steps) && k <= i < |worlds|
    ensures |worlds[k].vm.nics| <= |worlds[i].vm.nics|
    decreases i - k
  {
    hide Turn, Apply;
    if k < i {
      NicsOnlyGrow(spec, worlds, steps, k, i - 1);
      assert Next(spec, worlds[i - 1], steps[i - 1], worlds[i]);
    }
  }

  lemma NicStepKeeps(spec: Spec, w: World, step: Step, w': World, last: Option<nat>)
    requires Next(spec, w, step, w') && (NicStage(w.saved.condition) ==> last == Some(|w.saved.network|))
    ensures var after := if Records(spec, w, step) then Some(|w.vm.nics|) else last;
            NicStage(w'.saved.condition) ==> after == Some(|w'.saved.network|)
  {
    hide Turn, Apply, NicStage, FindsMissing;
    if step.Reconcile? {
      TurnHandles(spec, step.e, step.entry, w.saved);
    }
  }

  /** In every run, while NICs are added and configured, the status records the number counted last. */
  lemma {:induction false} NicRunKeeps(spec: Spec, worlds: seq<World>, steps: seq<Step>, i: nat)
    requires Run(spec, worlds, steps) && i < |worlds|
    ensures NicStage(worlds[i].saved.condition) ==> LastCount(spec, worlds, steps, i) == Some(|worlds[i].saved.network|)
  {
    hide Records, Next;
    if i > 0 {
      NicRunKeeps(spec, worlds, steps, i - 1);
      NicStepKeeps(spec, worlds[i - 1], steps[i - 1], worlds[i], LastCount(spec, worlds, steps, i - 1));
    }
  }

  /** The NICs an update begins with; the management NIC counts even when it is not there yet. */
  function Existing(worlds: seq<World>): nat
    requires worlds != []
  {
    if worlds[0].vm.nics == [] then 1 else |worlds[0].vm.nics|
  }

  /** The number recorded last is the largest recorded, and none is below what the update began with. */
  lemma {:induction false} LastCountIsLargest(spec: Spec, worlds: seq<World>, steps: seq<Step>, i: nat)
    requires Run(spec, worlds, steps) && i < |worlds|
    ensures var last := LastCount(spec, worlds, steps, i);
            && (last.Some? ==> exists k :: 0 <= k < i && Records(spec, worlds[k], steps[k]) && |worlds[k].vm.nics| == last.value)
            && forall k :: 0 <= k < i && Records(spec, worlds[k], steps[k]) ==>
                 last.Some? && Existing(worlds) <= |worlds[k].vm.nics| <= last.value && |worlds[k].vm.nics| < |spec.devices|
  {
    if i > 0 {
      var n := i - 1;
      LastCountIsLargest(spec, worlds, steps, n);
      assert Next(spec, worlds[n], steps[n], worlds[i]);
      if Records(spec, worlds[n], steps[n]) {
        RecordsCount(spec, worlds[n], steps[n], worlds[i]);
        NicsOnlyGrow(spec, worlds, steps, 0, n);
      }
      hide Records, Next;
      forall k | 0 <= k < n ensures |worlds[k].vm.nics| <= |worlds[n].vm.nics| {
        NicsOnlyGrow(spec, worlds, steps, k, n);
      }
    }
  }

  lemma RecordsCount(spec: Spec, w: World, step: Step, w': World)
    requires Records(spec, w, step) && Next(spec, w, step, w')
    ensures 1 <= |w.vm.nics| < |spec.devices|
  {
    hide Turn, Apply, ReachesNics;
  }

  /** The step makes the job that configures NICs. */
  predicate MakesNicJob(spec: Spec, w: World, step: Step, x: Call) {
    step.Reconcile? && x in Turn(spec, step.e, step.entry, w.saved).calls && x.CreateJob? && x.name.NicJob?
  }

  /** In every run, lost patches included, the job is given exactly the NICs after the number counted
      last, each with the network type of its own device, in order. */
  lemma ConfiguresTheUncounted(spec: Spec, worlds: seq<World>, steps: seq<Step>, i: nat, x: Call)
    requires Run(spec, worlds, steps) && i < |steps| && MakesNicJob(spec, worlds[i], steps[i], x)
    ensures var last := LastCount(spec, worlds, steps, i);
            && last.Some? && Existing(worlds) <= last.value < |spec.devices| == |worlds[i].vm.nics|
            && x.macTypes == Pairs(spec, worlds[i].vm.nics, last.value, |spec.devices|)
  {
    hide Turn, Apply, FindsMissing;
    NicRunKeeps(spec, worlds, steps, i);
    LastCountIsLargest(spec, worlds, steps, i);
    assert Next(spec, worlds[i], steps[i], worlds[i + 1]);
    TurnHandles(spec, steps[i].e, steps[i].entry, worlds[i].saved);
  }

  /** A saved pass counted NICs when some, but not all, of those to be added had arrived. */
  predicate CountedInBetween(spec: Spec, worlds: seq<World>, steps: seq<Step>, i: nat)
    requires i <= |steps| < |worlds|
  {
    exists k :: 0 <= k < i && Records(spec, worlds[k], steps[k]) && Existing(worlds) < |worlds[k].vm.nics| < |spec.devices|
  }

  /** The job is given every NIC added since the update began exactly when none was counted in between. */
  lemma ConfiguresAllAddedIff(spec: Spec, worlds: seq<World>, steps: seq<Step>, i: nat, x: Call)
    requires Run(spec, worlds, steps) && i < |steps| && MakesNicJob(spec, worlds[i], steps[i], x)
    ensures Existing(worlds) < |spec.devices| == |worlds[i].vm.nics|
    ensures x.macTypes == Pairs(spec, worlds[i].vm.nics, Existing(worlds), |spec.devices|)
            <==> !CountedInBetween(spec, worlds, steps, i)
  {
    hide Records, LastCount, Next, Turn;
    ConfiguresTheUncounted(spec, worlds, steps, i, x);
    LastCountIsLargest(spec, worlds, steps, i);
    var last := LastCount(spec, worlds, steps, i).value;
    assert |x.macTypes| == |spec.devices| - last;
  }

  // ---- NICs that arrive one by one ----

  const ThreeDevices := Spec(1, 1, 1, 0, [IPv4, IPv4, IPv4])
  const ThreeNics := [Nic("a", "1"), Nic("b", "2"), Nic("c", "3")]
  const Quiet := Entry(false, NotFailed, true, false, None)

  function WithNics(n: nat): VM
    requires n <= 3
  {
    VM(1, 1, 0, false, ThreeNics[..n])
  }

  function PassWith(n: nat, st: Status): Out
    requires n <= 3
  {
    Turn(ThreeDevices, Calm(WithNics(n), map[]), Quiet, st)
  }

  const Before := Status(Missing, [], false, Resources(0, 0, 0))
  const Waiting := Status(False(AddingNic), ThreeNics[..1], false, Resources(1, 1, 0))
  const Adding := Status(False(AddingNic), ThreeNics[..2], true, Resources(1, 1, 0))
  const Job := CreateJob(NicJob("c"), [MacType("c", IPv4)])

  lemma FirstPass()
    ensures PassWith(1, Before) == Out(Waiting, [], Wait)
  {
  }

  lemma SecondPass()
    ensures PassWith(2, Waiting) == Out(Adding, [AddNics(2, 1)], Wait)
  {
  }

  lemma ThirdPass()
    ensures Job in PassWith(3, Adding).calls
  {
    assert HasAllMacs(ThreeNics[..3], 2);
    assert Pairs(ThreeDevices, ThreeNics[..3], 2, 3) == [MacType("c", IPv4)];
  }

  /** One NIC, then two, then three: the second is counted before it is configured, and never told of. */
  lemma MiddleNicIsLeftOut()
    ensures exists worlds: seq<World>, steps: seq<Step> ::
              && Run(ThreeDevices, worlds, steps) && |steps| == 5 && |worlds[0].vm.nics| == 1
              && MakesNicJob(ThreeDevices, worlds[4], steps[4], Job) && CountedInBetween(ThreeDevices, worlds, steps, 4)
  {
    hide Turn, Records;
    FirstPass();
    SecondPass();
    ThirdPass();
    var none: Jobs := map[];
    var w0, w1 := World(WithNics(1), none, Before, []), World(WithNics(1), none, Waiting, []);
    var w2, w3 := World(WithNics(2), none, Waiting, []), World(WithNics(2), none, Adding, [AddNics(2, 1)]);
    var w4 := w3.(vm := WithNics(3));
    var out := PassWith(3, Adding);
    var w5 := World(w4.vm, Apply(none, out.calls), out.status, w4.log + out.calls);
    var worlds := [w0, w1, w2, w3, w4, w5];
    var steps := [Reconcile(Calm(WithNics(1), none), Quiet, true), TowerChange(WithNics(2)),
                  Reconcile(Calm(WithNics(2), none), Quiet, true), TowerChange(WithNics(3)),
                  Reconcile(Calm(WithNics(3), none), Quiet, true)];
    assert Apply(none, []) == none && Apply(none, [AddNics(2, 1)]) == none;
    assert Next(ThreeDevices, w0, steps[0], w1) && Next(ThreeDevices, w1, steps[1], w2);
    assert Next(ThreeDevices, w2, steps[2], w3) && Next(ThreeDevices, w3, steps[3], w4);
    assert Next(ThreeDevices, w4, steps[4], w5);
    assert Run(ThreeDevices, worlds, steps);
    assert MakesNicJob(ThreeDevices, worlds[4], steps[4], Job);
    ConfiguresAllAddedIff(ThreeDevices, worlds, steps, 4, Job);
    assert |Pairs(ThreeDevices, worlds[4].vm.nics, 1, 3)| == 2;
  }
}
