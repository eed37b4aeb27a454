/** A standard operating procedure at work on a shipment: a task state machine with an event log. */
module SopInstances {
  import opened Shared
  import SopDefinitions

  datatype TaskStatus = Pending | InProgress | Completed | Skipped | Error

  datatype Task = Task(
    id: Id, stepId: Id, name: string, orderIndex: nat, status: TaskStatus,
    assignee: Option<Id>, documents: seq<Id>, completedBy: Option<Id>, note: string)
  {
    predicate Done() {
      status in {TaskStatus.Completed, Skipped}
    }
  }

  datatype InstanceStatus = Running | Finished | Cancelled

  datatype Event =
    | InstanceCreated(taskCount: nat)
    | TaskStarted(taskId: Id, assignee: Id)
    | TaskCompleted(taskId: Id, who: Id)
    | TaskSkipped(taskId: Id, reason: string)
    | TaskFailed(taskId: Id, reason: string)
    | InstanceCompleted
    | InstanceCancelled

  /** `log` holds every event ever recorded, whether or not it has been pulled. */
  datatype Instance = Instance(tasks: seq<Task>, status: InstanceStatus, log: seq<Event>)

  datatype InstanceError =
    | DefinitionNotActive | ShipmentRequired | IsCancelled | IsFinished | TaskNotFound
    | NotPending | NotInProgress | AlreadyDone | AlreadyLinked

  datatype Command =
    | Start(taskId: Id, assignee: Id)
    | Complete(taskId: Id, who: Id, note: string)
    | Skip(taskId: Id, reason: string)
    | Fail(taskId: Id, reason: string)
    | Link(taskId: Id, document: Id)
    | Cancel

  // ---------------------------------------------------------------- transitions

  /** The position of the first task with the given ID. */
  function Find(tasks: seq<Task>, id: Id): Option<nat> {
    FirstIndex(tasks, (t: Task) => t.id == id)
  }

  predicate AllDone(tasks: seq<Task>) {
    forall i :: 0 <= i < |tasks| ==> tasks[i].Done()
  }

  /** checkAllTasksDone. */
  ghost function Checked(inst: Instance): Instance {
    if AllDone(inst.tasks) then inst.(status := Finished, log := inst.log + [InstanceCompleted]) else inst
  }

  ghost function Updated(inst: Instance, i: nat, t: Task, e: Event): Instance
    requires i < |inst.tasks|
  {
    inst.(tasks := inst.tasks[i := t], log := inst.log + [e])
  }

  /** What a command does to a task that it finds. */
  ghost function Worked(inst: Instance, i: nat, c: Command): Result<Instance, InstanceError>
    requires i < |inst.tasks| && !c.Cancel?
  {
    var t := inst.tasks[i];
    match c
    case Start(id, who) =>
      if t.status != Pending then Err(NotPending)
      else Ok(Updated(inst, i, t.(status := InProgress, assignee := Some(who)), TaskStarted(id, who)))
    case Complete(id, who, note) =>
      if t.status != InProgress then Err(NotInProgress)
      else
        var done := t.(status := TaskStatus.Completed, completedBy := Some(who), note := note);
        Ok(Checked(Updated(inst, i, done, TaskCompleted(id, who))))
    case Skip(id, reason) =>
      if t.Done() then Err(AlreadyDone)
      else Ok(Checked(Updated(inst, i, t.(status := Skipped, note := reason), TaskSkipped(id, reason))))
    case Fail(id, reason) =>
      if t.Done() then Err(AlreadyDone)
      else Ok(Updated(inst, i, t.(status := Error, note := reason), TaskFailed(id, reason)))
    case Link(id, document) =>
      if document in t.documents then Err(AlreadyLinked)
      else Ok(inst.(tasks := inst.tasks[i := t.(documents := t.documents + [document])]))
  }

  ghost function Step(inst: Instance, c: Command): Result<Instance, InstanceError> {
    if c.Cancel? then
      if inst.status == Cancelled then Err(IsCancelled)
      else if inst.status == Finished then Err(IsFinished)
      else Ok(inst.(status := Cancelled, log := inst.log + [InstanceCancelled]))
    else if inst.status == Cancelled then Err(IsCancelled)
    else if Find(inst.tasks, c.taskId).None? then Err(TaskNotFound)
    else Worked(inst, Find(inst.tasks, c.taskId).value, c)
  }

  ghost function After(inst: Instance, c: Command): Instance {
    match Step(inst, c) case Ok(i) => i case Err(_) => inst
  }

  ghost function Run(inst: Instance, cs: seq<Command>): Instance {
    if cs == [] then inst else After(Run(inst, cs[..|cs| - 1]), cs[|cs| - 1])
  }

  /** The tasks of a new instance: one pending task for each step, with the given fresh IDs. */
  function Hydrated(steps: seq<SopDefinitions.StepDefinition>, ids: seq<Id>): seq<Task>
    requires |ids| == |steps|
  {
    seq(|steps|, i requires 0 <= i < |steps| =>
      Task(ids[i], steps[i].id, steps[i].name, steps[i].orderIndex, Pending, None, [], None, ""))
  }

  /** NewSOPInstance. */
  function Created(shipmentId: Id, d: SopDefinitions.DefinitionState, ids: seq<Id>): Result<Instance, InstanceError>
    requires |ids| == |d.steps|
  {
    if shipmentId == NIL then Err(ShipmentRequired)
    else if d.status != SopDefinitions.Active then Err(DefinitionNotActive)
    else Ok(Instance(Hydrated(d.steps, ids), Running, [InstanceCreated(|d.steps|)]))
  }

  // ---------------------------------------------------------------- the aggregate

  ghost predicate Follows(
    was: Instance, now: Instance, error: Option<InstanceError>, expected: Result<Instance, InstanceError>)
  {
    match expected
    case Ok(i) => error.None? && now == i
    case Err(e) => error == Some(e) && now == was
  }

  class SOPInstance {
    var tasks: seq<Task>
    var status: InstanceStatus
    var log: seq<Event>

    ghost function State(): Instance
      reads this
    {
      Instance(tasks, status, log)
    }

    constructor (created: Instance)
      ensures State() == created
    {
      tasks, status, log := created.tasks, created.status, created.log;
    }

    method FindTask(taskId: Id) returns (r: Option<nat>)
      ensures r == Find(tasks, taskId)
    {
      for i := 0 to |tasks|
        invariant forall j :: 0 <= j < i ==> tasks[j].id != taskId
      {
        if tasks[i].id == taskId {
          assert Find(tasks, taskId) == Some(i);
          return Some(i);
        }
      }
      return None;
    }

    method CheckAllTasksDone()
      modifies this
      ensures State() == Checked(old(State()))
    {
      for i := 0 to |tasks|
        invariant State() == old(State())
        invariant forall j :: 0 <= j < i ==> tasks[j].Done()
      {
        if !tasks[i].Done() {
          return;
        }
      }
      status := Finished;
      log := log + [InstanceCompleted];
    }

    method StartTask(taskId: Id, assignee: Id) returns (error: Option<InstanceError>)
      modifies this
      ensures Follows(old(State()), State(), error, Step(old(State()), Start(taskId, assignee)))
    {
      if status == Cancelled {
        return Some(IsCancelled);
      }
      var i := FindTask(taskId);
      if i.None? {
        return Some(TaskNotFound);
      }
      var task := tasks[i.value];
      if task.status != Pending {
        return Some(NotPending);
      }
      tasks := tasks[i.value := task.(status := InProgress, assignee := Some(assignee))];
      log := log + [TaskStarted(taskId, assignee)];
      return None;
    }

    method CompleteTask(taskId: Id, who: Id, note: string) returns (error: Option<InstanceError>)
      modifies this
      ensures Follows(old(State()), State(), error, Step(old(State()), Complete(taskId, who, note)))
    {
      if status == Cancelled {
        return Some(IsCancelled);
      }
      var i := FindTask(taskId);
      if i.None? {
        return Some(TaskNotFound);
      }
      var task := tasks[i.value];
      if task.status != InProgress {
        return Some(NotInProgress);
      }
      tasks := tasks[i.value := task.(status := TaskStatus.Completed, completedBy := Some(who), note := note)];
      log := log + [TaskCompleted(taskId, who)];
      CheckAllTasksDone();
      return None;
    }

    method SkipTask(taskId: Id, reason: string) returns (error: Option<InstanceError>)
      modifies this
      ensures Follows(old(State()), State(), error, Step(old(State()), Skip(taskId, reason)))
    {
      if status == Cancelled {
        return Some(IsCancelled);
      }
      var i := FindTask(taskId);
      if i.None? {
        return Some(TaskNotFound);
      }
      var task := tasks[i.value];
      if task.Done() {
        return Some(AlreadyDone);
      }
      tasks := tasks[i.value := task.(status := Skipped, note := reason)];
      log := log + [TaskSkipped(taskId, reason)];
      CheckAllTasksDone();
      return None;
    }

    method FailTask(taskId: Id, reason: string) returns (error: Option<InstanceError>)
      modifies this
      ensures Follows(old(State()), State(), error, Step(old(State()), Fail(taskId, reason)))
    {
      if status == Cancelled {
        return Some(IsCancelled);
      }
      var i := FindTask(taskId);
      if i.None? {
        return Some(TaskNotFound);
      }
      var task := tasks[i.value];
      if task.Done() {
        return Some(AlreadyDone);
      }
      tasks := tasks[i.value := task.(status := Error, note := reason)];
      log := log + [TaskFailed(taskId, reason)];
      return None;
    }

    method LinkDocumentToTask(taskId: Id, document: Id) returns (error: Option<InstanceError>)
      modifies this
      ensures Follows(old(State()), State(), error, Step(old(State()), Link(taskId, document)))
    {
      if status == Cancelled {
        return Some(IsCancelled);
      }
      var i := FindTask(taskId);
      if i.None? {
        return Some(TaskNotFound);
      }
      var task := tasks[i.value];
      if document in task.documents {
        return Some(AlreadyLinked);
      }
      tasks := tasks[i.value := task.(documents := task.documents + [document])];
      return None;
    }

    method Cancel() returns (error: Option<InstanceError>)
      modifies this
      ensures Follows(old(State()), State(), error, Step(old(State()), Command.Cancel))
    {
      if status == Cancelled {
        return Some(IsCancelled);
      }
      if status == Finished {
        return Some(IsFinished);
      }
      status := Cancelled;
      log := log + [InstanceCancelled];
      return None;
    }

    method Progress() returns (completed: nat, total: nat)
      ensures completed == DoneCount(tasks) && total == |tasks|
    {
      completed, total := 0, |tasks|;
      for i := 0 to |tasks|
        invariant completed == DoneCount(tasks[..i])
      {
        assert tasks[..i + 1][..i] == tasks[..i];
        if tasks[i].Done() {
          completed := completed + 1;
        }
      }
      assert tasks[..|tasks|] == tasks;
    }
  }

  ghost function DoneCount(tasks: seq<Task>): nat {
    if tasks == [] then 0
    else DoneCount(tasks[..|tasks| - 1]) + if tasks[|tasks| - 1].Done() then 1 else 0
  }

  /** NewSOPInstance: one pending task for each step of an active definition, with new IDs. */
  method NewSOPInstance(shipmentId: Id, d: SopDefinitions.DefinitionState, ids: seq<Id>)
    returns (r: Result<SOPInstance, InstanceError>)
    requires |ids| == |d.steps|
    ensures match Created(shipmentId, d, ids)
      case Err(e) => r == Err(e)
      case Ok(created) => r.Ok? && fresh(r.value) && r.value.State() == created
  {
    if shipmentId == NIL {
      return Err(ShipmentRequired);
    }
    if d.status != SopDefinitions.Active {
      return Err(DefinitionNotActive);
    }
    var tasks: seq<Task> := [];
    for i := 0 to |d.steps|
      invariant |tasks| == i && tasks == Hydrated(d.steps, ids)[..i]
    {
      var step := d.steps[i];
      tasks := tasks + [Task(ids[i], step.id, step.name, step.orderIndex, Pending, None, [], None, "")];
    }
    var instance := new SOPInstance(Instance(tasks, Running, [InstanceCreated(|d.steps|)]));
    r := Ok(instance);
  }
}
