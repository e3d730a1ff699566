/** Every run of reconciles of one machine, with Tower finishing and forgetting tasks in between. */
module TaskRuns {
  import opened Results
  import opened TaskStages
  import opened VMTasks

  /** `history` is every task the machine submitted so far, `clone` the last one that created a VM. */
  datatype World = World(status: Status, deleting: bool, tasks: Tasks, history: set<nat>, clone: Option<nat>)

  datatype Step =
    | Reconcile(e: Answers)
    | ReconcileDeleted(e: Answers)
    | MarkDeleted
    | Progress(tasks: Tasks)

  /** Pending tasks may end, any task may be forgotten, and nothing else happens to them. */
  predicate Evolves(before: Tasks, after: Tasks) {
    forall t :: t in after ==> t in before && (before[t].Pending? || after[t] == before[t])
  }

  /** The task that creates the VM, when this reconcile gets as far as submitting it. */
  function Cloning(st: Status, e: Answers): Option<nat> {
    if !st.failed && st.finalizer && !e.tooEarly && st.vmRef.None? && e.create.Created? then Some(e.create.task) else None
  }

  function Started(tasks: Tasks, task: Option<nat>): Tasks {
    if task.Some? then tasks[task.value := Pending] else tasks
  }

  function Elements(tasks: seq<nat>): set<nat> {
    set t | t in tasks
  }

  /** New tasks have new IDs, and the recorded task is read from Tower as it is then. */
  predicate Sees(w: World, e: Answers, cloning: Option<nat>) {
    && Evolves(Started(w.tasks, cloning), e.tasks)
    && (cloning.Some? ==> cloning.value !in w.history && cloning.value < e.nextTask)
    && (forall t :: t in w.history ==> t < e.nextTask)
  }

  function Pend(tasks: Tasks, submitted: seq<nat>, cloning: Option<nat>): Tasks {
    tasks + map t | t in submitted && Some(t) != cloning :: Pending
  }

  function AfterPass(w: World, e: Answers, out: Out, cloning: Option<nat>): World {
    World(out.status, w.deleting, Pend(e.tasks, out.submitted, cloning),
          w.history + Elements(out.submitted), if cloning.Some? then cloning else w.clone)
  }

  predicate Gone(w: World) {
    w.deleting && !w.status.finalizer
  }

  predicate Next(w: World, step: Step, w': World) {
    match step
    case Reconcile(e) =>
      var cloning := Cloning(w.status, e);
      !w.deleting && Sees(w, e, cloning) && w' == AfterPass(w, e, Normal(w.status, e), cloning)
    case ReconcileDeleted(e) =>
      w.deleting && !Gone(w) && Sees(w, e, None) && w' == AfterPass(w, e, Deletion(w.status, e), None)
    case MarkDeleted => w' == w.(deleting := true)
    case Progress(tasks) => Evolves(w.tasks, tasks) && w' == w.(tasks := tasks)
  }

  // ---- What is promised ----

  predicate AllEnded(tasks: Tasks, history: set<nat>) {
    forall t :: t in history ==> Ended(tasks, t)
  }

  /** A clone is submitted, and then a task of a later stage, only when all tasks before are over. */
  predicate SubmitsInTurn(w: World, e: Answers, out: Out, cloning: Option<nat>) {
    && (cloning.Some? ==> out.submitted != [] && out.submitted[0] == cloning.value && AllEnded(w.tasks, w.history))
    && var later := if cloning.Some? && out.submitted != [] then out.submitted[1..] else out.submitted;
       |later| <= 1 && (later != [] ==> AllEnded(e.tasks, w.history + if cloning.Some? then {cloning.value} else {}))
  }

  predicate InTurn(w: World, step: Step) {
    match step
    case Reconcile(e) => SubmitsInTurn(w, e, Normal(w.status, e), Cloning(w.status, e))
    case ReconcileDeleted(e) => SubmitsInTurn(w, e, Deletion(w.status, e), None)
    case _ => true
  }

  // ---- What every step keeps ----

  /** A task that is not over is the recorded one, and without a VM none is recorded. */
  predicate Tracks(st: Status, tasks: Tasks, history: set<nat>) {
    && (forall t :: t in history ==> Ended(tasks, t) || st.taskRef == Some(t))
    && (st.taskRef.Some? ==> st.taskRef.value in history && st.vmRef.Some?)
  }

  /** While the VM has its temporary ID only the task that creates it can be recorded. */
  predicate OnlyClone(st: Status, clone: Option<nat>) {
    st.vmRef == Some(Temporary) && st.taskRef.Some? ==> st.taskRef == clone
  }

  predicate Invariant(w: World) {
    !Gone(w) ==> Tracks(w.status, w.tasks, w.history) && (!w.deleting ==> OnlyClone(w.status, w.clone))
  }

  /** The temporary record is gone while the recorded task still runs, and the reconcile learns both. */
  predicate DropsEarly(st: Status, e: Answers) {
    && st.vmRef == Some(Temporary) && e.get.NotFound? && st.taskRef.Some?
    && !e.readTaskError && !Ended(e.tasks, st.taskRef.value)
  }

  /** The status with which the VM is looked up, if it is. */
  function Entry(st: Status, e: Answers): Option<Status> {
    if st.failed || !st.finalizer || e.tooEarly then None
    else if st.vmRef.Some? then Some(st)
    else
      match e.create
      case Duplicate(Named(ref)) => Some(SetVM(st, Some(ref)))
      case Created(ref, task) => Some(SetVM(st, Some(ref)).(taskRef := Some(task)))
      case _ => None
  }

  predicate LosesTask(st: Status, e: Answers) {
    Entry(st, e).Some? && DropsEarly(Entry(st, e).value, e)
  }

  // ---- One reconcile ----

  lemma CheckedMeans(st: Status, e: Answers, busy: bool)
    ensures var checked := CheckTask(st, e, busy);
            && checked.status.vmRef == st.vmRef && checked.status.finalizer == st.finalizer
            && (checked.status.taskRef == st.taskRef
                || (checked.status.taskRef.None? && st.taskRef.Some? && Ended(e.tasks, st.taskRef.value)))
            && (checked.done ==> checked.status.taskRef.None?)
  {
  }

  lemma SettledKeeps(st: Status, e: Answers, vm: FoundVM, history: set<nat>)
    requires st.taskRef.None? && st.vmRef.Some? && Tracks(st, e.tasks, history)
    requires forall t :: t in history ==> t < e.nextTask
    ensures var out := Settled(st, e, vm);
            && |out.submitted| <= 1 && (forall t :: t in out.submitted ==> e.nextTask <= t)
            && Tracks(out.status, Pend(e.tasks, out.submitted, None), history + Elements(out.submitted))
            && AllEnded(e.tasks, history)
            && (out.status.vmRef == Some(Temporary) ==> out.status.taskRef.None?)
  {
    OneTaskPerReconcile(e.stages, e.nextTask);
    hide StageTasks;
  }

  /** Looking up and driving the VM keeps track of its tasks exactly when no running task is dropped. */
  lemma ExistingKeeps(st: Status, e: Answers, history: set<nat>, clone: Option<nat>)
    requires st.vmRef.Some? && Tracks(st, e.tasks, history) && OnlyClone(st, clone)
    requires forall t :: t in history ==> t < e.nextTask
    ensures var out := Existing(st, e);
            && |out.submitted| <= 1 && (forall t :: t in out.submitted ==> e.nextTask <= t)
            && (out.submitted != [] ==> AllEnded(e.tasks, history))
            && (Tracks(out.status, Pend(e.tasks, out.submitted, None), history + Elements(out.submitted)) <==> !DropsEarly(st, e))
            && OnlyClone(out.status, clone)
  {
    hide Settled;
    assert Pend(e.tasks, [], None) == e.tasks && history + Elements([]) == history;
    if e.get.Found? {
      var busy := e.get.vm.busy;
      CheckedMeans(st, e, busy);
      var checked := CheckTask(st, e, busy);
      if !checked.error && checked.done {
        SettledKeeps(checked.status, e, e.get.vm, history);
      }
    } else if e.get.NotFound? && st.vmRef.value.Temporary? {
      CheckedMeans(st, e, false);
      assert DropsEarly(st, e) ==> st.taskRef.value in history;
    }
  }

  lemma EvolvedTracks(st: Status, before: Tasks, after: Tasks, history: set<nat>)
    requires Tracks(st, before, history) && Evolves(before, after)
    ensures Tracks(st, after, history)
  {
  }

  /** What a reconcile does depends on the status with which the VM is looked up. */
  lemma NormalIs(st: Status, e: Answers)
    ensures var entry, cloning, out := Entry(st, e), Cloning(st, e), Normal(st, e);
            && (entry.None? ==> cloning.None? && out == Out(st.(finalizer := st.finalizer || !st.failed), []))
            && (entry.Some? ==>
                  var rest := Existing(entry.value, e);
                  && out == Out(rest.status, (if cloning.Some? then [cloning.value] else []) + rest.submitted)
                  && entry.value.vmRef.Some?
                  && (cloning.None? && entry.value != st ==> st.vmRef.None? && entry.value.taskRef.None?)
                  && (cloning.Some? ==> entry.value.taskRef == cloning && st.vmRef.None?))
  {
    hide Existing;
  }

  /** With the clone counted among the tasks so far, the VM is looked up in a status that keeps track. */
  lemma EntryTracks(w: World, e: Answers)
    requires !w.deleting && Invariant(w) && Sees(w, e, Cloning(w.status, e)) && Entry(w.status, e).Some?
    ensures var cloning, entry := Cloning(w.status, e), Entry(w.status, e).value;
            && Tracks(entry, e.tasks, w.history + if cloning.Some? then {cloning.value} else {})
            && OnlyClone(entry, if cloning.Some? then cloning else w.clone)
            && (cloning.Some? ==> AllEnded(w.tasks, w.history))
  {
  }

  lemma PendRest(tasks: Tasks, rest: seq<nat>, cloning: Option<nat>, history: set<nat>)
    requires cloning.Some? ==> cloning.value !in rest
    ensures var all := (if cloning.Some? then [cloning.value] else []) + rest;
            && Pend(tasks, all, cloning) == Pend(tasks, rest, None)
            && history + Elements(all) == history + (if cloning.Some? then {cloning.value} else {}) + Elements(rest)
  {
    if cloning.None? {
      assert [] + rest == rest;
    } else {
      var all := [cloning.value] + rest;
      assert forall t :: t in all <==> t == cloning.value || t in rest;
    }
  }

  /** A reconcile keeps the invariant exactly when it does not lose a running task with a dropped record. */
  lemma NormalKeepsIff(w: World, e: Answers)
    requires !w.deleting && Invariant(w) && Sees(w, e, Cloning(w.status, e))
    ensures var out, cloning := Normal(w.status, e), Cloning(w.status, e);
            && SubmitsInTurn(w, e, out, cloning)
            && (Invariant(AfterPass(w, e, out, cloning)) <==> !LosesTask(w.status, e))
  {
    hide Existing, Normal, Cloning, Entry, Pend, Elements;
    var st, cloning := w.status, Cloning(w.status, e);
    var clone := if cloning.Some? then cloning else w.clone;
    NormalIs(st, e);
    if Entry(st, e).Some? {
      var entry := Entry(st, e).value;
      var history := w.history + if cloning.Some? then {cloning.value} else {};
      EntryTracks(w, e);
      ExistingKeeps(entry, e, history, clone);
      PendRest(e.tasks, Existing(entry, e).submitted, cloning, w.history);
    } else {
      EvolvedTracks(st, w.tasks, e.tasks, w.history);
      NothingPends(e.tasks, w.history);
    }
  }

  lemma NothingPends(tasks: Tasks, history: set<nat>)
    ensures Pend(tasks, [], None) == tasks && history + Elements([]) == history
  {
  }

  /** Deleting never loses a running task before the finalizer is gone, whatever Tower answers. */
  lemma DeletionKeeps(w: World, e: Answers)
    requires w.deleting && !Gone(w) && Invariant(w) && Sees(w, e, None)
    ensures var out := Deletion(w.status, e);
            SubmitsInTurn(w, e, out, None) && Invariant(AfterPass(w, e, out, None))
  {
    hide CheckTask, Elements, Pend;
    var st := w.status;
    EvolvedTracks(st, w.tasks, e.tasks, w.history);
    NothingPends(e.tasks, w.history);
    OnePends(e.tasks, w.history, e.nextTask);
    if e.get.Found? {
      var named := if st.vmRef.None? && e.name.Named? then SetVM(st, Some(e.name.ref)) else st;
      CheckedMeans(named, e, e.get.vm.busy);
    }
  }

  lemma OnePends(tasks: Tasks, history: set<nat>, task: nat)
    ensures Pend(tasks, [task], None) == tasks[task := Pending] && history + Elements([task]) == history + {task}
  {
  }

  // ---- Runs ----

  predicate Start(w: World) {
    !Gone(w) && w.status.vmRef.None? && w.status.taskRef.None? && w.tasks == map[] && w.history == {}
  }

  predicate Run(worlds: seq<World>, steps: seq<Step>) {
    && |worlds| == |steps| + 1 && Start(worlds[0])
    && forall i :: 0 <= i < |steps| ==> Next(worlds[i], steps[i], worlds[i + 1])
  }

  /** Tower drops a temporary record only after the task that was to create the VM has ended. */
  predicate PromiseKept(w: World, step: Step) {
    step.Reconcile? ==>
      var e := step.e;
      var cloning, entry := Cloning(w.status, e), Entry(w.status, e);
      var clone := if cloning.Some? then cloning else w.clone;
      entry.Some? && entry.value.vmRef == Some(Temporary) && e.get.NotFound? && clone.Some? ==> Ended(e.tasks, clone.value)
  }

  lemma StepKeepsInvariant(w: World, step: Step, w': World)
    requires Invariant(w) && Next(w, step, w') && PromiseKept(w, step)
    ensures Invariant(w') && InTurn(w, step)
  {
    hide Normal, Deletion, Entry, Cloning, AfterPass;
    match step
    case Reconcile(e) =>
      NormalKeepsIff(w, e);
      if LosesTask(w.status, e) {
        EntryTracks(w, e);
      }
    case ReconcileDeleted(e) => DeletionKeeps(w, e);
    case MarkDeleted =>
    case Progress(tasks) =>
      if !Gone(w) {
        EvolvedTracks(w.status, w.tasks, tasks, w.history);
      }
  }

  lemma {:induction false} RunKeepsInvariant(worlds: seq<World>, steps: seq<Step>, i: nat)
    requires Run(worlds, steps) && i < |worlds|
    requires forall k :: 0 <= k < i ==> PromiseKept(worlds[k], steps[k])
    ensures Invariant(worlds[i])
  {
    hide Next, PromiseKept;
    if i > 0 {
      RunKeepsInvariant(worlds, steps, i - 1);
      StepKeepsInvariant(worlds[i - 1], steps[i - 1], worlds[i]);
    }
  }

  /** In every run a task is submitted only when every task before it has ended or vanished. */
  lemma TasksInTurn(worlds: seq<World>, steps: seq<Step>, i: nat)
    requires Run(worlds, steps) && i < |steps|
    requires forall k :: 0 <= k <= i ==> PromiseKept(worlds[k], steps[k])
    ensures InTurn(worlds[i], steps[i])
  {
    hide Next, PromiseKept, InTurn;
    RunKeepsInvariant(worlds, steps, i);
    StepKeepsInvariant(worlds[i], steps[i], worlds[i + 1]);
  }

  // ---- No VM, no task: this needs no promise ----

  predicate NoStrayTask(st: Status) {
    st.vmRef.None? ==> st.taskRef.None?
  }

  lemma ExistingHasNoStray(st: Status, e: Answers)
    requires st.vmRef.Some?
    ensures NoStrayTask(Existing(st, e).status)
  {
    hide StageTasks, CheckTask;
    CheckedMeans(st, e, e.get.Found? && e.get.vm.busy);
  }

  lemma NormalKeepsNoStray(st: Status, e: Answers)
    requires NoStrayTask(st)
    ensures NoStrayTask(Normal(st, e).status)
  {
    hide Existing, Normal;
    NormalIs(st, e);
    if Entry(st, e).Some? {
      ExistingHasNoStray(Entry(st, e).value, e);
    }
  }

  lemma DeletionKeepsNoStray(st: Status, e: Answers)
    requires NoStrayTask(st)
    ensures NoStrayTask(Deletion(st, e).status)
  {
  }

  // ---- What one reconcile submits, and what it does to the recorded task ----

  /** Beside the task that creates the VM there is at most one. */
  predicate OneBesideClone(st: Status, e: Answers, submitted: seq<nat>) {
    var clone := if Cloning(st, e).Some? then [Cloning(st, e).value] else [];
    clone <= submitted && |submitted| <= |clone| + 1
  }

  lemma NormalSubmits(st: Status, e: Answers)
    ensures OneBesideClone(st, e, Normal(st, e).submitted)
  {
    hide Existing, Normal, Entry, Cloning;
    NormalIs(st, e);
    if Entry(st, e).Some? {
      ExistingSubmits(Entry(st, e).value, e);
    }
  }

  lemma ExistingSubmits(st: Status, e: Answers)
    ensures |Existing(st, e).submitted| <= 1
  {
    hide StageTasks, CheckTask;
    OneTaskPerReconcile(e.stages, e.nextTask);
  }

  lemma DeletionSubmits(st: Status, e: Answers)
    ensures Deletion(st, e).submitted <= [e.nextTask]
  {
    hide CheckTask;
  }

  /** A recorded task that still runs stays recorded, and nothing is submitted beside it. */
  predicate RunningTaskKept(st: Status, e: Answers, st': Status, submitted: seq<nat>) {
    st.taskRef.Some? && !Ended(e.tasks, st.taskRef.value) ==> st'.taskRef == st.taskRef && submitted == []
  }

  lemma NormalKeepsTask(st: Status, e: Answers)
    requires NoStrayTask(st) && !(e.get.NotFound? && st.vmRef == Some(Temporary))
    ensures RunningTaskKept(st, e, Normal(st, e).status, Normal(st, e).submitted)
  {
    hide StageTasks, CheckTask;
    CheckedMeans(st, e, e.get.Found? && e.get.vm.busy);
    assert st.vmRef.Some? ==> st.vmRef.value.Temporary? || st.vmRef.value.Uuid?;
  }

  lemma DeletionKeepsTask(st: Status, e: Answers)
    requires NoStrayTask(st)
    ensures var out := Deletion(st, e);
            RunningTaskKept(st, e, out.status, out.submitted) || (e.get.NotFound? && !out.status.finalizer)
  {
    hide CheckTask;
    CheckedMeans(st, e, e.get.Found? && e.get.vm.busy);
  }

  // ---- What one reconcile gets done ----

  /** The recorded task is over, and what followed from it was done. */
  predicate Over(st: Status, e: Answers) {
    st.taskRef.Some? ==> !e.readTaskError && Ended(e.tasks, st.taskRef.value)
                         && (st.taskRef.value in e.tasks ==> !e.followUpError)
  }

  lemma CheckedIff(st: Status, e: Answers, busy: bool)
    ensures var checked := CheckTask(st, e, busy);
            && (checked.done && !checked.error <==> !busy && Over(st, e))
            && (Over(st, e) ==> !checked.error && checked.status.vmRef == st.vmRef && checked.status.taskRef.None?)
            && (checked.status.failed <==>
                  || st.failed
                  || (st.taskRef.Some? && !e.readTaskError && st.taskRef.value in e.tasks
                      && e.tasks[st.taskRef.value].Failed? && e.cloudInitError))
  {
  }

  /** What becomes of a VM that is looked up. */
  predicate Driven(st: Status, e: Answers, out: Out) {
    && (e.get.Found? && !e.get.vm.busy && Over(st, e) && e.get.vm.ref.Uuid? && !e.hostZoneError ==>
          if e.get.vm.inRecycleBin then out.status.failed && out.status.vmRef.None? && out.submitted == []
          else
            var tasks := StageTasks(e.stages, e.nextTask);
            && out.submitted == tasks && out.status.vmRef == Some(Uuid)
            && out.status.taskRef == (if tasks == [] then None else Some(tasks[|tasks| - 1])))
    && (e.get.NotFound? && st.vmRef == Some(Uuid) ==> out == Out(st.(failed := st.failed || e.disconnectedTooLong), []))
    && (e.get.NotFound? && st.vmRef == Some(Temporary) ==>
          out.submitted == [] && (Over(st, e) ==> out.status.vmRef.None?))
    && (e.get.Found? && (e.get.vm.busy || !Over(st, e) || !e.get.vm.ref.Uuid? || e.hostZoneError) ==> out.submitted == [])
    && (e.get.GetError? ==> out == Out(st, []))
  }

  lemma ExistingDrives(st: Status, e: Answers)
    ensures Driven(st, e, Existing(st, e))
  {
    hide StageTasks, CheckTask;
    CheckedIff(st, e, e.get.Found? && e.get.vm.busy);
  }

  /** A machine that is not failed and has its finalizer creates its VM or adopts one of its name, and then
      drives it; the clone's task comes first. */
  predicate Reconciles(st: Status, e: Answers, out: Out) {
    var entry := Entry(st, e);
    && (entry.None? ==> out == Out(st.(finalizer := st.finalizer || !st.failed), []))
    && (entry.Some? ==>
          var clone := if Cloning(st, e).Some? then [Cloning(st, e).value] else [];
          clone <= out.submitted && Driven(entry.value, e, Out(out.status, out.submitted[|clone|..])))
  }

  lemma NormalReconciles(st: Status, e: Answers)
    ensures Reconciles(st, e, Normal(st, e))
  {
    hide Existing, Normal, Entry, Cloning, Driven;
    NormalIs(st, e);
    if Entry(st, e).Some? {
      var rest := Existing(Entry(st, e).value, e);
      ExistingDrives(Entry(st, e).value, e);
      var clone := if Cloning(st, e).Some? then [Cloning(st, e).value] else [];
      assert (clone + rest.submitted)[|clone|..] == rest.submitted;
    }
  }

  // ---- When a deleted machine may go ----

  /** The VM is known: it is recorded, or found by name. */
  predicate Known(st: Status, e: Answers) {
    st.vmRef.Some? || e.name.Named?
  }

  /** The lookups say that the machine has no VM any more. */
  predicate SaysGone(st: Status, e: Answers) {
    || (st.vmRef.None? && e.name.NoSuchName?)
    || (Known(st, e) && !e.duplicatesLeft && e.get.NotFound?)
  }

  /** The VM is there, idle, and may be stopped or deleted now. */
  predicate MayTearDown(st: Status, e: Answers) {
    && !e.groupNotDeleted && !e.forceDelete && Known(st, e) && !e.duplicatesLeft
    && e.get.Found? && !e.get.vm.busy && (st.vmRef.Some? ==> Over(st, e))
    && (if e.get.vm.status.Running? then !e.stopError else !e.nodeError && !e.deleteError)
  }

  /** The finalizer goes exactly on force, or when the VM is gone; a VM that is there gets exactly one new task
      as soon as it may. */
  predicate TearsDown(st: Status, e: Answers, out: Out) {
    && (st.finalizer ==> (!out.status.finalizer <==> !e.groupNotDeleted && (e.forceDelete || SaysGone(st, e))))
    && out.submitted == (if MayTearDown(st, e) then [e.nextTask] else [])
    && (MayTearDown(st, e) ==> out.status.taskRef == Some(e.nextTask) && out.status.vmRef.Some?)
  }

  lemma DeletionTearsDown(st: Status, e: Answers)
    requires NoStrayTask(st)
    ensures TearsDown(st, e, Deletion(st, e))
  {
    hide CheckTask;
    var named := if st.vmRef.None? && e.name.Named? then SetVM(st, Some(e.name.ref)) else st;
    CheckedIff(named, e, e.get.Found? && e.get.vm.busy);
    CheckedMeans(named, e, e.get.Found? && e.get.vm.busy);
  }

  lemma {:induction false} RunHasNoStray(worlds: seq<World>, steps: seq<Step>, i: nat)
    requires Run(worlds, steps) && i < |worlds|
    ensures NoStrayTask(worlds[i].status)
  {
    hide Normal, Deletion, Sees;
    if i > 0 {
      RunHasNoStray(worlds, steps, i - 1);
      var step := steps[i - 1];
      assert Next(worlds[i - 1], step, worlds[i]);
      if step.Reconcile? {
        NormalKeepsNoStray(worlds[i - 1].status, step.e);
      } else if step.ReconcileDeleted? {
        DeletionKeepsNoStray(worlds[i - 1].status, step.e);
      }
    }
  }

  // ---- A deleted machine goes only when its VM has ----

  /** Before a machine has its finalizer it has no VM and has submitted nothing. */
  predicate FinalizerFirst(w: World) {
    !w.status.finalizer && !w.deleting ==> w.status.vmRef.None? && w.history == {}
  }

  lemma NormalKeepsFinalizer(st: Status, e: Answers)
    ensures var out := Normal(st, e);
            && (st.finalizer ==> out.status.finalizer)
            && (!st.finalizer ==> out.status.vmRef == st.vmRef && out.submitted == [])
            && (!st.finalizer ==> Cloning(st, e).None?)
  {
    hide StageTasks, CheckTask;
    CheckedMeans(st, e, e.get.Found? && e.get.vm.busy);
    if Entry(st, e).Some? {
      CheckedMeans(Entry(st, e).value, e, e.get.Found? && e.get.vm.busy);
      CheckedMeans(Entry(st, e).value, e, false);
    }
  }

  lemma StepKeepsFinalizer(w: World, step: Step, w': World)
    requires FinalizerFirst(w) && Next(w, step, w')
    ensures FinalizerFirst(w')
    ensures w.status.finalizer && !w'.status.finalizer ==> step.ReconcileDeleted?
    ensures Gone(w) ==> Gone(w') && w'.history == w.history && !step.Reconcile? && !step.ReconcileDeleted?
  {
    hide Normal, Deletion, Sees;
    if step.Reconcile? {
      NormalKeepsFinalizer(w.status, step.e);
    }
  }

  /** Step k took the finalizer away, on force or because the lookups said that the VM is gone, and no
      reconcile came after it. */
  predicate LastWord(worlds: seq<World>, steps: seq<Step>, i: nat, k: nat)
    requires k < i <= |steps| < |worlds|
  {
    && steps[k].ReconcileDeleted? && (steps[k].e.forceDelete || SaysGone(worlds[k].status, steps[k].e))
    && forall j :: k < j < i ==> !steps[j].Reconcile? && !steps[j].ReconcileDeleted?
  }

  /** In every run a machine that is gone never had anything to do with a VM, or its last reconcile was
      forced or told that the VM is gone. */
  lemma {:induction false} GoneMeansNoVM(worlds: seq<World>, steps: seq<Step>, i: nat)
    requires Run(worlds, steps) && i < |worlds|
    ensures FinalizerFirst(worlds[i])
    ensures Gone(worlds[i]) ==> worlds[i].history == {} || exists k :: 0 <= k < i && LastWord(worlds, steps, i, k)
  {
    hide Next, SaysGone;
    if i > 0 {
      var n := i - 1;
      GoneMeansNoVM(worlds, steps, n);
      StepKeepsFinalizer(worlds[n], steps[n], worlds[i]);
      if Gone(worlds[n]) {
        if k :| 0 <= k < n && LastWord(worlds, steps, n, k) {
          assert LastWord(worlds, steps, i, k);
        }
      } else if Gone(worlds[i]) {
        if steps[n].ReconcileDeleted? {
          RunHasNoStray(worlds, steps, n);
          LosesFinalizer(worlds[n], steps[n], worlds[i]);
          assert LastWord(worlds, steps, i, n);
        } else {
          UnfinalizedIsClean(worlds[n], steps[n], worlds[i]);
        }
      }
    }
  }

  lemma LosesFinalizer(w: World, step: Step, w': World)
    requires step.ReconcileDeleted? && Next(w, step, w') && Gone(w') && NoStrayTask(w.status)
    ensures step.e.forceDelete || SaysGone(w.status, step.e)
  {
    hide Deletion, Sees;
    DeletionTearsDown(w.status, step.e);
  }

  lemma UnfinalizedIsClean(w: World, step: Step, w': World)
    requires FinalizerFirst(w) && Next(w, step, w') && !Gone(w) && Gone(w') && !step.ReconcileDeleted?
    ensures w'.history == {}
  {
    hide Normal, Sees;
  }

  // ---- Without the promise ----

  const Bare := Status(None, None, false, true)

  /** A clone is started with the given task, and what is then read of Tower. */
  function CloneAnswers(any: Answers, task: nat, get: GetReply, tasks: Tasks): Answers {
    any.(tooEarly := false, create := Created(Temporary, task), get := get,
         readTaskError := false, tasks := tasks, nextTask := task + 1)
  }

  lemma DroppedClone(any: Answers)
    ensures Normal(Bare, CloneAnswers(any, 0, NotFound, map[0 := Pending])) == Out(Bare, [0])
  {
  }

  /** The record is dropped while the clone runs: the machine forgets the task and clones again beside it. */
  lemma EarlyDropClonesTwice(any: Answers)
    ensures exists worlds: seq<World>, steps: seq<Step> :: Run(worlds, steps) && |steps| == 2 && !InTurn(worlds[1], steps[1])
  {
    hide Normal;
    var first := CloneAnswers(any, 0, NotFound, map[0 := Pending]);
    var second := CloneAnswers(any, 1, GetError, map[0 := Pending, 1 := Pending]);
    var w0 := World(Bare, false, map[], {}, None);
    var w1 := World(Bare, false, map[0 := Pending], {0}, Some(0));
    var w2 := AfterPass(w1, second, Normal(Bare, second), Some(1));
    DroppedClone(any);
    assert Next(w0, Reconcile(first), w1);
    assert Next(w1, Reconcile(second), w2);
    var worlds, steps := [w0, w1, w2], [Reconcile(first), Reconcile(second)];
    assert Run(worlds, steps);
    assert !Ended(w1.tasks, 0) && 0 in w1.history;
    assert !InTurn(worlds[1], steps[1]);
  }
}
