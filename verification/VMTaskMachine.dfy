/** The machine object whose references to its VM and its task reconciles change in place. */
module VMTaskMachine {
  import opened Results
  import opened TaskStages
  import opened VMTasks
  import opened TaskRuns

  class ElfMachine {
    var vmRef: Option<VMRef>
    var taskRef: Option<nat>
    var failed: bool
    var finalizer: bool
    ghost var submitted: seq<nat>

    ghost function View(): Status
      reads this
    {
      Status(vmRef, taskRef, failed, finalizer)
    }

    twostate predicate Did(out: Out)
      reads this
    {
      View() == out.status && submitted == old(submitted) + out.submitted
    }

    constructor ()
      ensures View() == Status(None, None, false, false) && submitted == []
    {
      vmRef, taskRef, failed, finalizer, submitted := None, None, false, false, [];
    }

    method SetVMRef(ref: Option<VMRef>)
      modifies this`vmRef, this`taskRef
      ensures View() == SetVM(old(View()), ref)
    {
      taskRef := None;
      vmRef := ref;
    }

    method Submit(task: nat)
      modifies this`taskRef, this`submitted
      ensures View() == old(View()).(taskRef := Some(task)) && submitted == old(submitted) + [task]
    {
      submitted := submitted + [task];
      taskRef := Some(task);
    }

    method ReconcileTask(e: Answers, busy: bool) returns (done: bool, error: bool)
      modifies this`taskRef, this`failed
      ensures Checked(View(), done, error) == CheckTask(old(View()), e, busy)
    {
      var task := None;
      if taskRef.Some? {
        if e.readTaskError {
          return false, true;
        }
        if taskRef.value in e.tasks {
          task := Some(e.tasks[taskRef.value]);
        } else {
          taskRef := None;
        }
      }
      if task.None? {
        return !busy, false;
      }
      done, error := false, false;
      match task.value {
        case Failed =>
          failed := failed || e.cloudInitError;
          done, error := true, e.followUpError;
        case Succeeded =>
          done, error := true, e.followUpError;
        case Pending =>
      }
      // Deferred: the task is forgotten when it is over, and a busy VM is waited for even then.
      if done {
        taskRef := None;
      }
      if busy {
        done := false;
      }
    }

    method LookUpVM(e: Answers) returns (vm: Option<FoundVM>)
      modifies this
      ensures Did(Out(LookUp(old(View()), e), []))
      ensures vm == if e.get.Found? then Some(e.get.vm) else None
    {
      if e.get.Found? {
        return Some(e.get.vm);
      }
      if e.get.GetError? {
        return None;
      }
      if vmRef == Some(Uuid) {
        if e.disconnectedTooLong {
          failed := true;
        }
        return None;
      }
      var done, error := ReconcileTask(e, false);
      if !error {
        // Whether the task is done is not asked.
        SetVMRef(None);
      }
      return None;
    }

    method RunStage(result: StageResult) returns (flow: Flow)
      modifies this`taskRef, this`submitted
      ensures var tasks := Then(result, []); taskRef == LastTask(old(taskRef), tasks) && submitted == old(submitted) + tasks
      ensures flow == result.flow
    {
      if result.task.Some? {
        Submit(result.task.value);
      }
      return result.flow;
    }

    method RunStages(e: Answers)
      modifies this`taskRef, this`submitted
      ensures var tasks := StageTasks(e.stages, e.nextTask);
              taskRef == LastTask(old(taskRef), tasks) && submitted == old(submitted) + tasks
    {
      hide JoinStage, GpuStage, LaterTasks;
      var join := JoinStage(e.stages.join, e.nextTask);
      JoinDisciplined(e.stages.join, e.nextTask);
      var flow := RunStage(join);
      if !flow.Proceed? {
        return;
      }
      var gpu := GpuStage(e.stages.gpu, e.nextTask + 1);
      GpuDisciplined(e.stages.gpu, e.nextTask + 1);
      flow := RunStage(gpu);
      if !flow.Proceed? {
        return;
      }
      RunLaterStages(e);
    }

    method RunLaterStages(e: Answers)
      modifies this`taskRef, this`submitted
      ensures var tasks := LaterTasks(e.stages, e.nextTask);
              taskRef == LastTask(old(taskRef), tasks) && submitted == old(submitted) + tasks
    {
      hide PowerStage, ResourcesStage;
      var power := PowerStage(e.stages.power, e.nextTask + 2);
      PowerDisciplined(e.stages.power, e.nextTask + 2);
      var flow := RunStage(power);
      if !flow.Proceed? {
        return;
      }
      flow := RunStage(ResourcesStage(e.stages.resources, e.nextTask + 3));
    }

    method ReconcileExisting(e: Answers)
      modifies this
      ensures Did(Existing(old(View()), e))
    {
      hide StageTasks;
      var vm := LookUpVM(e);
      if vm.None? {
        return;
      }
      var done, error := ReconcileTask(e, vm.value.busy);
      if error || !done {
        return;
      }
      if !vm.value.ref.Uuid? {
        return;
      }
      if vmRef != Some(Uuid) {
        SetVMRef(Some(vm.value.ref));
      }
      if e.hostZoneError {
        return;
      }
      if vm.value.inRecycleBin {
        failed := true;
        SetVMRef(None);
        return;
      }
      RunStages(e);
    }

    method ReconcileVM(e: Answers)
      modifies this
      ensures Did(ReconciledVM(old(View()), e))
    {
      hide Existing;
      if vmRef.None? {
        match e.create {
          case NotYet => return;
          case CreateError => return;
          case Duplicate(name) =>
            if !name.Named? {
              return;
            }
            SetVMRef(Some(name.ref));
          case Created(ref, task) =>
            SetVMRef(Some(ref));
            Submit(task);
        }
      }
      ReconcileExisting(e);
    }

    /** One reconcile: a recorded task that still runs is kept and nothing is submitted beside it, unless
        the VM's temporary record is gone; beside a clone at most one task is submitted; without a VM no
        task is recorded; and an idle VM is driven through all stages. */
    method ReconcileNormal(e: Answers)
      modifies this
      ensures Did(Normal(old(View()), e))
      ensures NoStrayTask(old(View())) ==> NoStrayTask(View())
      ensures old(submitted) <= submitted && OneBesideClone(old(View()), e, submitted[|old(submitted)|..])
      ensures Reconciles(old(View()), e, Out(View(), submitted[|old(submitted)|..]))
      ensures NoStrayTask(old(View())) && !(e.get.NotFound? && old(vmRef) == Some(Temporary)) ==>
                RunningTaskKept(old(View()), e, View(), submitted[|old(submitted)|..])
    {
      hide Normal, OneBesideClone, RunningTaskKept, Reconciles;
      ReconcileUndeleted(e);
      NormalSubmits(old(View()), e);
      NormalReconciles(old(View()), e);
      if NoStrayTask(old(View())) {
        NormalKeepsNoStray(old(View()), e);
        if !(e.get.NotFound? && old(vmRef) == Some(Temporary)) {
          NormalKeepsTask(old(View()), e);
        }
      }
      assert submitted[|old(submitted)|..] == Normal(old(View()), e).submitted;
    }

    method ReconcileUndeleted(e: Answers)
      modifies this
      ensures Did(Normal(old(View()), e))
    {
      hide ReconciledVM;
      if failed {
        return;
      }
      if !finalizer {
        finalizer := true;
        return;
      }
      if e.tooEarly {
        return;
      }
      ReconcileVM(e);
    }

    method DeleteVM(e: Answers) returns (notFound: bool)
      modifies this
      ensures var out := DeletedVM(old(View()), e);
              && notFound == e.get.NotFound? && submitted == old(submitted) + out.submitted
              && View() == out.status.(finalizer := old(finalizer))
    {
      if e.get.GetError? {
        return false;
      }
      if e.get.NotFound? {
        SetVMRef(None);
        return true;
      }
      var vm := e.get.vm;
      var done, error := ReconcileTask(e, vm.busy);
      if error || !done {
        return false;
      }
      if vm.status.Running? {
        if !e.stopError {
          Submit(e.nextTask);
        }
        return false;
      }
      if e.nodeError || e.deleteError {
        return false;
      }
      Submit(e.nextTask);
      return false;
    }

    /** One reconcile of a deleted machine: a recorded task that still runs is kept and nothing is
        submitted beside it, unless the VM is gone and the finalizer with it; an idle VM gets one task; and
        the finalizer goes only on force or with the VM. */
    method ReconcileDelete(e: Answers)
      modifies this
      ensures Did(Deletion(old(View()), e))
      ensures NoStrayTask(old(View())) ==> NoStrayTask(View())
      ensures old(submitted) <= submitted <= old(submitted) + [e.nextTask]
      ensures NoStrayTask(old(View())) ==> TearsDown(old(View()), e, Out(View(), submitted[|old(submitted)|..]))
      ensures NoStrayTask(old(View())) && !(e.get.NotFound? && !finalizer) ==>
                RunningTaskKept(old(View()), e, View(), submitted[|old(submitted)|..])
    {
      hide Deletion, RunningTaskKept, TearsDown;
      TearDown(e);
      DeletionSubmits(old(View()), e);
      if NoStrayTask(old(View())) {
        DeletionKeepsNoStray(old(View()), e);
        DeletionKeepsTask(old(View()), e);
        DeletionTearsDown(old(View()), e);
      }
      assert submitted[|old(submitted)|..] == Deletion(old(View()), e).submitted;
    }

    method TearDown(e: Answers)
      modifies this
      ensures Did(Deletion(old(View()), e))
    {
      if e.groupNotDeleted {
        return;
      }
      if e.forceDelete {
        finalizer := false;
        return;
      }
      if vmRef.None? {
        if e.name.NameError? {
          return;
        }
        if e.name.NoSuchName? {
          finalizer := false;
          return;
        }
        SetVMRef(Some(e.name.ref));
      }
      if e.duplicatesLeft {
        return;
      }
      var notFound := DeleteVM(e);
      if notFound {
        finalizer := false;
      }
    }
  }
}
