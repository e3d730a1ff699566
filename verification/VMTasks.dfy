/** One machine's reference to its VM and to the task that is changing it. */
module VMTasks {
  import opened Results
  import opened Tower
  import opened TaskStages

  /** Tower names a VM by a temporary ID until ELF has created it. */
  datatype VMRef = Temporary | Uuid

  datatype Status = Status(vmRef: Option<VMRef>, taskRef: Option<nat>, failed: bool, finalizer: bool)

  datatype TaskState = Pending | Succeeded | Failed
  /** The tasks Tower still knows. */
  type Tasks = map<nat, TaskState>

  datatype FoundVM = FoundVM(ref: VMRef, busy: bool, status: VMStatus, inRecycleBin: bool)
  datatype GetReply = GetError | NotFound | Found(vm: FoundVM)
  datatype NameReply = NameError | NoSuchName | Named(ref: VMRef)

  /** What came of creating the VM; the task is the one Tower started. */
  datatype CreateReply = NotYet | CreateError | Duplicate(name: NameReply) | Created(ref: VMRef, task: nat)

  /** What one reconcile sees; `tasks` is what Tower knows when the recorded task is read. */
  datatype Answers = Answers(
    tasks: Tasks, readTaskError: bool, followUpError: bool, cloudInitError: bool,
    tooEarly: bool, create: CreateReply, get: GetReply, disconnectedTooLong: bool, hostZoneError: bool,
    stages: StageInputs, nextTask: nat,
    groupNotDeleted: bool, forceDelete: bool, name: NameReply, duplicatesLeft: bool,
    stopError: bool, nodeError: bool, deleteError: bool)

  datatype Out = Out(status: Status, submitted: seq<nat>)

  function SetVM(st: Status, ref: Option<VMRef>): Status {
    st.(vmRef := ref, taskRef := None)
  }

  predicate Ended(tasks: Tasks, task: nat) {
    task in tasks ==> !tasks[task].Pending?
  }

  // ---- The recorded task ----

  datatype Checked = Checked(status: Status, done: bool, error: bool)

  function CheckTask(st: Status, e: Answers, busy: bool): Checked {
    if st.taskRef.None? then Checked(st, !busy, false)
    else if e.readTaskError then Checked(st, false, true)
    else if st.taskRef.value !in e.tasks then Checked(st.(taskRef := None), !busy, false)
    else
      match e.tasks[st.taskRef.value]
      case Pending => Checked(st, false, false)
      case Failed => Checked(st.(taskRef := None, failed := st.failed || e.cloudInitError), !busy, e.followUpError)
      case Succeeded => Checked(st.(taskRef := None), !busy, e.followUpError)
  }

  // ---- Reconciling the VM ----

  /** Looking the VM up; a temporary record that is gone means that the VM could not be created. */
  function LookUp(st: Status, e: Answers): Status {
    if e.get.NotFound? then
      if st.vmRef == Some(Uuid) then st.(failed := st.failed || e.disconnectedTooLong)
      else
        var checked := CheckTask(st, e, false);
        if checked.error then checked.status else SetVM(checked.status, None)
    else st
  }

  function LastTask(ref: Option<nat>, tasks: seq<nat>): Option<nat> {
    if tasks == [] then ref else Some(tasks[|tasks| - 1])
  }

  /** From the point where the VM was found and its recorded task is over. */
  function Settled(st: Status, e: Answers, vm: FoundVM): Out {
    if !vm.ref.Uuid? then Out(st, [])
    else
      var named := if st.vmRef == Some(Uuid) then st else SetVM(st, Some(vm.ref));
      if e.hostZoneError then Out(named, [])
      else if vm.inRecycleBin then Out(SetVM(named.(failed := true), None), [])
      else
        var tasks := StageTasks(e.stages, e.nextTask);
        Out(named.(taskRef := LastTask(named.taskRef, tasks)), tasks)
  }

  function Existing(st: Status, e: Answers): Out {
    if !e.get.Found? then Out(LookUp(st, e), [])
    else
      var checked := CheckTask(st, e, e.get.vm.busy);
      if checked.error || !checked.done then Out(checked.status, []) else Settled(checked.status, e, e.get.vm)
  }

  function ReconciledVM(st: Status, e: Answers): Out {
    if st.vmRef.Some? then Existing(st, e)
    else
      match e.create
      case NotYet => Out(st, [])
      case CreateError => Out(st, [])
      case Duplicate(name) => if name.Named? then Existing(SetVM(st, Some(name.ref)), e) else Out(st, [])
      case Created(ref, task) =>
        var rest := Existing(SetVM(st, Some(ref)).(taskRef := Some(task)), e);
        Out(rest.status, [task] + rest.submitted)
  }

  function Normal(st: Status, e: Answers): Out {
    if st.failed then Out(st, [])
    else if !st.finalizer then Out(st.(finalizer := true), [])
    else if e.tooEarly then Out(st, [])
    else ReconciledVM(st, e)
  }

  // ---- Deleting ----

  function DeletedVM(st: Status, e: Answers): Out {
    if e.get.GetError? then Out(st, [])
    else if e.get.NotFound? then Out(SetVM(st, None).(finalizer := false), [])
    else
      var checked := CheckTask(st, e, e.get.vm.busy);
      if checked.error || !checked.done then Out(checked.status, [])
      else if if e.get.vm.status.Running? then e.stopError else e.nodeError || e.deleteError then Out(checked.status, [])
      else Out(checked.status.(taskRef := Some(e.nextTask)), [e.nextTask])
  }

  function Deletion(st: Status, e: Answers): Out {
    if e.groupNotDeleted then Out(st, [])
    else if e.forceDelete then Out(st.(finalizer := false), [])
    else if st.vmRef.None? && e.name.NameError? then Out(st, [])
    else if st.vmRef.None? && e.name.NoSuchName? then Out(st.(finalizer := false), [])
    else
      var named := if st.vmRef.None? then SetVM(st, Some(e.name.ref)) else st;
      if e.duplicatesLeft then Out(named, []) else DeletedVM(named, e)
  }
}
