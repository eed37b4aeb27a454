/** The log of an SOP instance as a history of each task: which events may follow which, in every run. */
module SopHistories {
  import opened Shared
  import SopDefinitions
  import opened SopInstances
  import opened SopTheorems

  // ---------------------------------------------------------------- histories

  ghost function TaskOf(e: Event): Option<Id> {
    match e
    case TaskStarted(id, _) => Some(id)
    case TaskCompleted(id, _) => Some(id)
    case TaskSkipped(id, _) => Some(id)
    case TaskFailed(id, _) => Some(id)
    case _ => None
  }

  /** The last event of a task. */
  ghost function LastOf(log: seq<Event>, id: Id): Option<Event> {
    if log == [] then None
    else if TaskOf(log[|log| - 1]) == Some(id) then Some(log[|log| - 1])
    else LastOf(log[..|log| - 1], id)
  }

  /** Who started the task last. */
  ghost function AssignedIn(log: seq<Event>, id: Id): Option<Id> {
    if log == [] then None
    else
      match log[|log| - 1]
      case TaskStarted(task, who) => if task == id then Some(who) else AssignedIn(log[..|log| - 1], id)
      case _ => AssignedIn(log[..|log| - 1], id)
  }

  /** A task that has been completed or skipped is done with. */
  ghost predicate Ended(last: Option<Event>) {
    last.Some? && (last.value.TaskCompleted? || last.value.TaskSkipped?)
  }

  /** The event may follow the last event of its task. */
  ghost predicate MayFollow(last: Option<Event>, e: Event) {
    match e
    case TaskStarted(_, _) => last == None
    case TaskCompleted(_, _) => last.Some? && last.value.TaskStarted?
    case TaskSkipped(_, _) => !Ended(last)
    case TaskFailed(_, _) => !Ended(last)
    case _ => true
  }

  ghost predicate Orderly(log: seq<Event>) {
    forall n :: 0 <= n < |log| && TaskOf(log[n]).Some? ==> MayFollow(LastOf(log[..n], TaskOf(log[n]).value), log[n])
  }

  /** The task is as its last event left it, and its assignee is who started it last. */
  ghost predicate AsLogged(t: Task, log: seq<Event>) {
    && t.assignee == AssignedIn(log, t.id)
    && match LastOf(log, t.id)
       case None => t.status == Pending
       case Some(TaskStarted(_, who)) => t.status == InProgress && t.assignee == Some(who)
       case Some(TaskCompleted(_, who)) =>
         t.status == TaskStatus.Completed && t.completedBy == Some(who) && t.assignee.Some?
       case Some(TaskSkipped(_, reason)) => t.status == Skipped && t.note == reason
       case Some(TaskFailed(_, reason)) => t.status == Error && t.note == reason
       case Some(_) => false
  }

  /** The instance is what its log says, and the log is orderly. */
  ghost predicate Documented(inst: Instance) {
    && Distinct(TaskIds(inst.tasks)) && Orderly(inst.log)
    && forall i :: 0 <= i < |inst.tasks| ==> AsLogged(inst.tasks[i], inst.log)
  }

  // ---------------------------------------------------------------- one more event

  lemma OneMoreEvent(log: seq<Event>, e: Event, id: Id)
    ensures LastOf(log + [e], id) == if TaskOf(e) == Some(id) then Some(e) else LastOf(log, id)
    ensures AssignedIn(log + [e], id)
      == if e.TaskStarted? && e.taskId == id then Some(e.assignee) else AssignedIn(log, id)
  {
    assert (log + [e])[..|log|] == log;
  }

  lemma StaysOrderly(log: seq<Event>, e: Event)
    requires Orderly(log) && (TaskOf(e).Some? ==> MayFollow(LastOf(log, TaskOf(e).value), e))
    ensures Orderly(log + [e])
  {
    var more := log + [e];
    assert more[..|log|] == log;
    forall n | 0 <= n < |log|
      ensures more[..n] == log[..n] && more[n] == log[n]
    {
    }
  }

  lemma OthersStayAsLogged(t: Task, log: seq<Event>, e: Event)
    requires AsLogged(t, log) && TaskOf(e) != Some(t.id)
    ensures AsLogged(t, log + [e])
  {
    OneMoreEvent(log, e, t.id);
  }

  lemma DistinctTasks(tasks: seq<Task>, i: nat, j: nat)
    requires Distinct(TaskIds(tasks)) && i < |tasks| && j < |tasks| && i != j
    ensures tasks[i].id != tasks[j].id
  {
    assert TaskIds(tasks)[i] == tasks[i].id && TaskIds(tasks)[j] == tasks[j].id;
  }

  /** Work on one task with an event of that task. */
  lemma WorkIsDocumented(inst: Instance, i: nat, t: Task, e: Event)
    requires Documented(inst) && i < |inst.tasks| && t.id == inst.tasks[i].id
    requires TaskOf(e) == Some(t.id) && MayFollow(LastOf(inst.log, t.id), e) && AsLogged(t, inst.log + [e])
    ensures Documented(Updated(inst, i, t, e))
  {
    var now := Updated(inst, i, t, e);
    assert TaskIds(now.tasks) == TaskIds(inst.tasks);
    StaysOrderly(inst.log, e);
    forall j | 0 <= j < |now.tasks|
      ensures AsLogged(now.tasks[j], now.log)
    {
      if j != i {
        DistinctTasks(inst.tasks, i, j);
        OthersStayAsLogged(inst.tasks[j], inst.log, e);
      }
    }
  }

  /** An event of the instance itself. */
  lemma InstanceEventIsDocumented(inst: Instance, status: InstanceStatus, e: Event)
    requires Documented(inst) && TaskOf(e) == None
    ensures Documented(inst.(status := status, log := inst.log + [e]))
  {
    StaysOrderly(inst.log, e);
    forall j | 0 <= j < |inst.tasks|
      ensures AsLogged(inst.tasks[j], inst.log + [e])
    {
      OthersStayAsLogged(inst.tasks[j], inst.log, e);
    }
  }

  lemma CheckIsDocumented(inst: Instance)
    requires Documented(inst)
    ensures Documented(Checked(inst))
  {
    InstanceEventIsDocumented(inst, Finished, InstanceCompleted);
  }

  lemma LinkIsDocumented(inst: Instance, i: nat, documents: seq<Id>)
    requires Documented(inst) && i < |inst.tasks|
    ensures Documented(inst.(tasks := inst.tasks[i := inst.tasks[i].(documents := documents)]))
  {
    assert TaskIds(inst.tasks[i := inst.tasks[i].(documents := documents)]) == TaskIds(inst.tasks);
  }

  lemma TaskWorkIsDocumented(inst: Instance, i: nat, c: Command)
    requires Documented(inst) && i < |inst.tasks| && !c.Cancel? && inst.tasks[i].id == c.taskId
    requires Worked(inst, i, c).Ok?
    ensures Documented(Worked(inst, i, c).value)
  {
    var t := inst.tasks[i];
    assert AsLogged(t, inst.log);
    match c
    case Start(id, who) =>
      OneMoreEvent(inst.log, TaskStarted(id, who), id);
      WorkIsDocumented(inst, i, t.(status := InProgress, assignee := Some(who)), TaskStarted(id, who));
    case Complete(id, who, note) =>
      var done, e := t.(status := TaskStatus.Completed, completedBy := Some(who), note := note), TaskCompleted(id, who);
      OneMoreEvent(inst.log, e, id);
      WorkIsDocumented(inst, i, done, e);
      CheckIsDocumented(Updated(inst, i, done, e));
    case Skip(id, reason) =>
      var done, e := t.(status := Skipped, note := reason), TaskSkipped(id, reason);
      OneMoreEvent(inst.log, e, id);
      WorkIsDocumented(inst, i, done, e);
      CheckIsDocumented(Updated(inst, i, done, e));
    case Fail(id, reason) =>
      OneMoreEvent(inst.log, TaskFailed(id, reason), id);
      WorkIsDocumented(inst, i, t.(status := Error, note := reason), TaskFailed(id, reason));
    case Link(id, document) =>
      LinkIsDocumented(inst, i, t.documents + [document]);
  }

  lemma StepIsDocumented(inst: Instance, c: Command)
    requires Documented(inst)
    ensures Documented(After(inst, c))
  {
    if Step(inst, c).Ok? {
      if c.Cancel? {
        InstanceEventIsDocumented(inst, Cancelled, InstanceCancelled);
      } else {
        TaskWorkIsDocumented(inst, Find(inst.tasks, c.taskId).value, c);
      }
    }
  }

  // ---------------------------------------------------------------- every run

  lemma OnlyCreated(taskCount: nat, id: Id)
    ensures LastOf([InstanceCreated(taskCount)], id) == None && AssignedIn([InstanceCreated(taskCount)], id) == None
  {
    OneMoreEvent([], InstanceCreated(taskCount), id);
    assert [] + [InstanceCreated(taskCount)] == [InstanceCreated(taskCount)];
  }

  lemma CreatedIsDocumented(shipmentId: Id, d: SopDefinitions.DefinitionState, ids: seq<Id>)
    requires |ids| == |d.steps| && Distinct(ids) && Created(shipmentId, d, ids).Ok?
    ensures Documented(Created(shipmentId, d, ids).value)
  {
    var inst := Created(shipmentId, d, ids).value;
    assert TaskIds(inst.tasks) == ids;
    forall i | 0 <= i < |inst.tasks|
      ensures AsLogged(inst.tasks[i], inst.log)
    {
      OnlyCreated(|d.steps|, inst.tasks[i].id);
    }
  }

  /** A new instance has one pending task, with the step's name and place, for each step of its active definition. */
  lemma CreatedMirrorsSteps(shipmentId: Id, d: SopDefinitions.DefinitionState, ids: seq<Id>)
    requires |ids| == |d.steps|
    ensures Created(shipmentId, d, ids).Ok? <==> shipmentId != NIL && d.status == SopDefinitions.Active
    ensures Created(shipmentId, d, ids) == Err(ShipmentRequired) <==> shipmentId == NIL
    ensures Created(shipmentId, d, ids).Ok? ==>
      var inst := Created(shipmentId, d, ids).value;
      && inst.status == Running && inst.log == [InstanceCreated(|inst.tasks|)] && |inst.tasks| == |d.steps|
      && forall i :: 0 <= i < |d.steps| ==>
        && inst.tasks[i].id == ids[i] && inst.tasks[i].status == Pending
        && inst.tasks[i].stepId == d.steps[i].id && inst.tasks[i].name == d.steps[i].name
        && inst.tasks[i].orderIndex == d.steps[i].orderIndex
  {
  }

  lemma {:induction false} EveryRunIsDocumented(inst: Instance, cs: seq<Command>)
    requires Documented(inst)
    ensures Documented(Run(inst, cs))
  {
    if cs != [] {
      EveryRunIsDocumented(inst, cs[..|cs| - 1]);
      StepIsDocumented(Run(inst, cs[..|cs| - 1]), cs[|cs| - 1]);
    }
  }

  /** In every run of a new instance, a task is started at most once, and completed only then, with an assignee. */
  lemma {:induction false} CompletedWasStarted(
    shipmentId: Id, d: SopDefinitions.DefinitionState, ids: seq<Id>, cs: seq<Command>)
    requires |ids| == |d.steps| && Distinct(ids) && Created(shipmentId, d, ids).Ok?
    ensures var now := Run(Created(shipmentId, d, ids).value, cs);
      && (forall n :: 0 <= n < |now.log| && now.log[n].TaskCompleted? ==>
            var last := LastOf(now.log[..n], now.log[n].taskId);
            last.Some? && last.value.TaskStarted?)
      && (forall n :: 0 <= n < |now.log| && now.log[n].TaskStarted? ==>
            LastOf(now.log[..n], now.log[n].taskId) == None)
      && forall i :: 0 <= i < |now.tasks| && now.tasks[i].status == TaskStatus.Completed ==>
           now.tasks[i].assignee.Some? && now.tasks[i].assignee == AssignedIn(now.log, now.tasks[i].id)
  {
    CreatedIsDocumented(shipmentId, d, ids);
    EveryRunIsDocumented(Created(shipmentId, d, ids).value, cs);
    var now := Run(Created(shipmentId, d, ids).value, cs);
    forall n | 0 <= n < |now.log| && TaskOf(now.log[n]).Some?
      ensures MayFollow(LastOf(now.log[..n], TaskOf(now.log[n]).value), now.log[n])
    {
    }
    assert forall i :: 0 <= i < |now.tasks| ==> AsLogged(now.tasks[i], now.log);
  }

  // ---------------------------------------------------------------- which steps succeed

  lemma FindsItsTask(inst: Instance, id: Id)
    ensures Find(inst.tasks, id).Some? <==> id in TaskIds(inst.tasks)
  {
    var ids := TaskIds(inst.tasks);
    if Find(inst.tasks, id).Some? {
      assert ids[Find(inst.tasks, id).value] == id;
    }
    if id in ids {
      var i :| 0 <= i < |ids| && ids[i] == id;
      assert inst.tasks[i].id == id;
    }
  }

  /**
   Exactly which operations succeed on a documented instance: by the history of the task, and not
   at all once the instance is cancelled.
   */
  lemma SucceedsIff(inst: Instance, c: Command)
    requires Documented(inst)
    ensures Step(inst, c).Ok? <==>
      match c
      case Cancel => inst.status == Running
      case Link(id, document) =>
        inst.status != Cancelled
        && exists i :: 0 <= i < |inst.tasks| && inst.tasks[i].id == id && document !in inst.tasks[i].documents
      case Start(id, _) =>
        inst.status != Cancelled && id in TaskIds(inst.tasks) && LastOf(inst.log, id) == None
      case Complete(id, _, _) =>
        inst.status != Cancelled && id in TaskIds(inst.tasks)
        && LastOf(inst.log, id).Some? && LastOf(inst.log, id).value.TaskStarted?
      case Skip(id, _) =>
        inst.status != Cancelled && id in TaskIds(inst.tasks) && !Ended(LastOf(inst.log, id))
      case Fail(id, _) =>
        inst.status != Cancelled && id in TaskIds(inst.tasks) && !Ended(LastOf(inst.log, id))
    ensures !c.Cancel? && inst.status == Cancelled ==> Step(inst, c) == Err(IsCancelled)
    ensures !c.Cancel? && inst.status != Cancelled && c.taskId !in TaskIds(inst.tasks) ==>
      Step(inst, c) == Err(TaskNotFound)
  {
    if !c.Cancel? {
      FindsItsTask(inst, c.taskId);
      if Find(inst.tasks, c.taskId).Some? {
        var i := Find(inst.tasks, c.taskId).value;
        assert AsLogged(inst.tasks[i], inst.log);
        forall j | 0 <= j < |inst.tasks| && j != i
          ensures inst.tasks[j].id != c.taskId
        {
          DistinctTasks(inst.tasks, i, j);
        }
      } else if c.Link? {
        forall j | 0 <= j < |inst.tasks|
          ensures inst.tasks[j].id != c.taskId
        {
          assert TaskIds(inst.tasks)[j] == inst.tasks[j].id;
        }
      }
    }
  }

  /** What is said to those that do not succeed. */
  lemma RefusedIff(inst: Instance, c: Command)
    ensures Step(inst, c) == Err(IsCancelled) <==> inst.status == Cancelled
    ensures Step(inst, c) == Err(IsFinished) <==> c.Cancel? && inst.status == Finished
    ensures !c.Cancel? && inst.status != Cancelled && c.taskId in TaskIds(inst.tasks) && Step(inst, c).Err? ==>
      Step(inst, c).error == match c
        case Start(_, _) => NotPending
        case Complete(_, _, _) => NotInProgress
        case Link(_, _) => AlreadyLinked
        case _ => AlreadyDone
  {
    if !c.Cancel? {
      FindsItsTask(inst, c.taskId);
    }
  }

  // ---------------------------------------------------------------- documents

  /** The documents that were linked to a task, in order. */
  ghost function LinkedIn(inst: Instance, cs: seq<Command>, id: Id): seq<Id> {
    if cs == [] then []
    else
      var front, last := cs[..|cs| - 1], cs[|cs| - 1];
      LinkedIn(inst, front, id)
      + if last.Link? && last.taskId == id && Step(Run(inst, front), last).Ok? then [last.document] else []
  }

  lemma StepLinks(inst: Instance, c: Command, i: nat)
    requires Documented(inst) && i < |inst.tasks|
    ensures var linked := c.Link? && c.taskId == inst.tasks[i].id && Step(inst, c).Ok?;
      && |After(inst, c).tasks| == |inst.tasks| && After(inst, c).tasks[i].id == inst.tasks[i].id
      && After(inst, c).tasks[i].documents == inst.tasks[i].documents + (if linked then [c.document] else [])
      && (linked ==> c.document !in inst.tasks[i].documents)
  {
    if Step(inst, c).Ok? && !c.Cancel? {
      var k := Find(inst.tasks, c.taskId).value;
      if k != i {
        DistinctTasks(inst.tasks, k, i);
      }
    }
  }

  /** In every run, a task has exactly the documents that were linked to it, each once, in that order. */
  lemma {:induction false} DocumentsAreLinked(inst: Instance, cs: seq<Command>, i: nat)
    requires Documented(inst) && i < |inst.tasks| && inst.tasks[i].documents == []
    ensures var now := Run(inst, cs);
      && |now.tasks| == |inst.tasks| && now.tasks[i].id == inst.tasks[i].id
      && now.tasks[i].documents == LinkedIn(inst, cs, inst.tasks[i].id) && Distinct(now.tasks[i].documents)
  {
    if cs != [] {
      var front := cs[..|cs| - 1];
      DocumentsAreLinked(inst, front, i);
      EveryRunIsDocumented(inst, front);
      StepLinks(Run(inst, front), cs[|cs| - 1], i);
    }
  }
}
