/** What every run of an SOP instance keeps, how its log relates to its tasks, and that it can finish. */
module SopTheorems {
  import opened Shared
  import SopDefinitions
  import opened SopInstances

  // ---------------------------------------------------------------- replaying the log

  ghost function Statuses(tasks: seq<Task>): map<Id, TaskStatus> {
    if tasks == [] then map[]
    else Statuses(tasks[..|tasks| - 1])[tasks[|tasks| - 1].id := tasks[|tasks| - 1].status]
  }

  /** The effect of one event on task statuses. */
  ghost function Effect(m: map<Id, TaskStatus>, e: Event): map<Id, TaskStatus> {
    match e
    case TaskStarted(id, _) => m[id := InProgress]
    case TaskCompleted(id, _) => m[id := TaskStatus.Completed]
    case TaskSkipped(id, _) => m[id := Skipped]
    case TaskFailed(id, _) => m[id := Error]
    case _ => m
  }

  ghost function Replay(m: map<Id, TaskStatus>, log: seq<Event>): map<Id, TaskStatus> {
    if log == [] then m else Effect(Replay(m, log[..|log| - 1]), log[|log| - 1])
  }

  ghost function TaskIds(tasks: seq<Task>): seq<Id> {
    seq(|tasks|, i requires 0 <= i < |tasks| => tasks[i].id)
  }

  ghost function AllPending(ids: seq<Id>): map<Id, TaskStatus> {
    map id | id in ids :: Pending
  }

  ghost function Completions(log: seq<Event>): nat {
    if log == [] then 0
    else Completions(log[..|log| - 1]) + if log[|log| - 1] == InstanceCompleted then 1 else 0
  }

  // ---------------------------------------------------------------- the invariant

  ghost predicate Inv(inst: Instance) {
    && inst.tasks != []
    && Distinct(TaskIds(inst.tasks))
    && (inst.status == Finished <==> AllDone(inst.tasks))
    && Completions(inst.log) == (if inst.status == Finished then 1 else 0)
    && Replay(AllPending(TaskIds(inst.tasks)), inst.log) == Statuses(inst.tasks)
  }

  lemma StatusesMore(tasks: seq<Task>, t: Task)
    ensures Statuses(tasks + [t]) == Statuses(tasks)[t.id := t.status]
    ensures TaskIds(tasks + [t]) == TaskIds(tasks) + [t.id]
  {
    assert (tasks + [t])[..|tasks|] == tasks;
  }

  lemma {:induction false} StatusKeys(tasks: seq<Task>)
    ensures forall id :: id in Statuses(tasks) <==> id in TaskIds(tasks)
  {
    if tasks != [] {
      var front, last := tasks[..|tasks| - 1], tasks[|tasks| - 1];
      assert tasks == front + [last];
      StatusesMore(front, last);
      StatusKeys(front);
    }
  }

  lemma {:induction false} StatusAt(tasks: seq<Task>, i: nat)
    requires Distinct(TaskIds(tasks)) && i < |tasks|
    ensures tasks[i].id in Statuses(tasks) && Statuses(tasks)[tasks[i].id] == tasks[i].status
  {
    var front, last := tasks[..|tasks| - 1], tasks[|tasks| - 1];
    assert tasks == front + [last];
    StatusesMore(front, last);
    if i < |front| {
      assert TaskIds(tasks)[i] != TaskIds(tasks)[|front|];
      assert forall j :: 0 <= j < |front| ==> TaskIds(front)[j] == TaskIds(tasks)[j];
      StatusAt(front, i);
    }
  }

  lemma StatusesOf(tasks: seq<Task>)
    requires Distinct(TaskIds(tasks))
    ensures forall id :: id in Statuses(tasks) <==> id in TaskIds(tasks)
    ensures forall i :: 0 <= i < |tasks| ==>
      tasks[i].id in Statuses(tasks) && Statuses(tasks)[tasks[i].id] == tasks[i].status
  {
    StatusKeys(tasks);
    forall i | 0 <= i < |tasks|
      ensures tasks[i].id in Statuses(tasks) && Statuses(tasks)[tasks[i].id] == tasks[i].status
    {
      StatusAt(tasks, i);
    }
  }

  /** Updating one task updates its status, and nothing else. */
  lemma UpdateOne(tasks: seq<Task>, i: nat, t: Task)
    requires Distinct(TaskIds(tasks)) && i < |tasks| && t.id == tasks[i].id
    ensures TaskIds(tasks[i := t]) == TaskIds(tasks)
    ensures Statuses(tasks[i := t]) == Statuses(tasks)[t.id := t.status]
  {
    var now := tasks[i := t];
    assert TaskIds(now) == TaskIds(tasks);
    StatusesOf(tasks);
    StatusesOf(now);
    assert TaskIds(tasks)[i] in TaskIds(tasks);
    forall id | id in Statuses(now)
      ensures Statuses(now)[id] == Statuses(tasks)[t.id := t.status][id]
    {
      var j :| 0 <= j < |tasks| && TaskIds(tasks)[j] == id;
      assert j != i ==> TaskIds(tasks)[j] != TaskIds(tasks)[i];
    }
    assert Statuses(now).Keys == Statuses(tasks)[t.id := t.status].Keys;
  }

  lemma LogMore(m: map<Id, TaskStatus>, log: seq<Event>, e: Event)
    ensures Replay(m, log + [e]) == Effect(Replay(m, log), e)
    ensures Completions(log + [e]) == Completions(log) + if e == InstanceCompleted then 1 else 0
  {
    assert (log + [e])[..|log|] == log;
  }

  lemma CheckedKeeps(inst: Instance)
    requires inst.tasks != [] && Distinct(TaskIds(inst.tasks))
    requires inst.status == Running && Completions(inst.log) == 0
    requires Replay(AllPending(TaskIds(inst.tasks)), inst.log) == Statuses(inst.tasks)
    ensures Inv(Checked(inst))
  {
    LogMore(AllPending(TaskIds(inst.tasks)), inst.log, InstanceCompleted);
  }

  /** Work on an open task: the log still replays to the statuses, and nothing is complete yet. */
  lemma UpdatedKeeps(inst: Instance, i: nat, t: Task, e: Event)
    requires Inv(inst) && inst.status != Cancelled && i < |inst.tasks| && !inst.tasks[i].Done()
    requires t.id == inst.tasks[i].id && e != InstanceCompleted
    requires forall m :: Effect(m, e) == m[t.id := t.status]
    ensures var now := Updated(inst, i, t, e);
      && now.tasks != [] && Distinct(TaskIds(now.tasks))
      && now.status == Running && Completions(now.log) == 0
      && Replay(AllPending(TaskIds(now.tasks)), now.log) == Statuses(now.tasks)
    ensures !t.Done() ==> Inv(Updated(inst, i, t, e))
  {
    var ids := TaskIds(inst.tasks);
    assert !AllDone(inst.tasks);
    UpdateOne(inst.tasks, i, t);
    LogMore(AllPending(ids), inst.log, e);
    assert inst.tasks[i := t][i] == t;
  }

  lemma LinkKeeps(inst: Instance, i: nat, t: Task)
    requires Inv(inst) && i < |inst.tasks| && t.id == inst.tasks[i].id && t.status == inst.tasks[i].status
    ensures Inv(inst.(tasks := inst.tasks[i := t]))
  {
    var now := inst.tasks[i := t];
    UpdateOne(inst.tasks, i, t);
    StatusesOf(inst.tasks);
    assert Statuses(now) == Statuses(inst.tasks);
    assert forall j :: 0 <= j < |now| ==> (now[j].Done() <==> inst.tasks[j].Done());
  }

  lemma WorkedKeeps(inst: Instance, i: nat, c: Command)
    requires Inv(inst) && inst.status != Cancelled && i < |inst.tasks| && !c.Cancel? && inst.tasks[i].id == c.taskId
    requires Worked(inst, i, c).Ok?
    ensures Inv(Worked(inst, i, c).value)
  {
    var t := inst.tasks[i];
    match c
    case Start(id, who) =>
      UpdatedKeeps(inst, i, t.(status := InProgress, assignee := Some(who)), TaskStarted(id, who));
    case Complete(id, who, note) =>
      var done := t.(status := TaskStatus.Completed, completedBy := Some(who), note := note);
      UpdatedKeeps(inst, i, done, TaskCompleted(id, who));
      CheckedKeeps(Updated(inst, i, done, TaskCompleted(id, who)));
    case Skip(id, reason) =>
      var done := t.(status := Skipped, note := reason);
      UpdatedKeeps(inst, i, done, TaskSkipped(id, reason));
      CheckedKeeps(Updated(inst, i, done, TaskSkipped(id, reason)));
    case Fail(id, reason) =>
      UpdatedKeeps(inst, i, t.(status := Error, note := reason), TaskFailed(id, reason));
    case Link(id, document) =>
      LinkKeeps(inst, i, t.(documents := t.documents + [document]));
  }

  lemma StepKeepsInvariant(inst: Instance, c: Command)
    requires Inv(inst)
    ensures Inv(After(inst, c))
  {
    if Step(inst, c).Ok? {
      if c.Cancel? {
        LogMore(AllPending(TaskIds(inst.tasks)), inst.log, InstanceCancelled);
      } else {
        WorkedKeeps(inst, Find(inst.tasks, c.taskId).value, c);
      }
    }
  }

  /** Every instance of an active definition starts out sound: an active definition has steps. */
  lemma CreatedIsSound(shipmentId: Id, cs: seq<SopDefinitions.DefinitionCommand>, ids: seq<Id>)
    requires var d := SopDefinitions.Run(SopDefinitions.DefinitionState(SopDefinitions.Draft, []), cs);
      |ids| == |d.steps| && Distinct(ids) && Created(shipmentId, d, ids).Ok?
    ensures var d := SopDefinitions.Run(SopDefinitions.DefinitionState(SopDefinitions.Draft, []), cs);
      Inv(Created(shipmentId, d, ids).value)
  {
    SopDefinitions.ActivatedDefinitionsAreFrozen(SopDefinitions.DefinitionState(SopDefinitions.Draft, []), cs);
    var d := SopDefinitions.Run(SopDefinitions.DefinitionState(SopDefinitions.Draft, []), cs);
    var inst := Created(shipmentId, d, ids).value;
    assert TaskIds(inst.tasks) == ids;
    StatusesOf(inst.tasks);
    assert !inst.tasks[0].Done();
    forall id | id in Statuses(inst.tasks)
      ensures Statuses(inst.tasks)[id] == Pending
    {
      var i :| 0 <= i < |ids| && ids[i] == id;
      assert inst.tasks[i].id == id;
    }
    assert AllPending(ids) == Statuses(inst.tasks);
    LogMore(AllPending(ids), [], InstanceCreated(|d.steps|));
    assert [] + inst.log == inst.log;
  }

  /**
   In every run: the instance is finished iff all its tasks are completed or skipped, the
   completion event is recorded once then and never otherwise, and replaying the log over
   pending tasks gives every task's status.
   */
  lemma {:induction false} EveryRunKeepsInvariant(inst: Instance, cs: seq<Command>)
    requires Inv(inst)
    ensures Inv(Run(inst, cs))
  {
    if cs != [] {
      EveryRunKeepsInvariant(inst, cs[..|cs| - 1]);
      StepKeepsInvariant(Run(inst, cs[..|cs| - 1]), cs[|cs| - 1]);
    }
  }

  // ---------------------------------------------------------------- terminal states

  lemma TerminalStep(inst: Instance, c: Command)
    requires Inv(inst) && inst.status != Running
    ensures After(inst, c).status == inst.status && Statuses(After(inst, c).tasks) == Statuses(inst.tasks)
    ensures After(inst, c).log == inst.log
  {
    if Step(inst, c).Ok? {
      var i := Find(inst.tasks, c.taskId).value;
      assert inst.tasks[i].Done();
      UpdateOne(inst.tasks, i, After(inst, c).tasks[i]);
      StatusesOf(inst.tasks);
    }
  }

  /** After completion or cancellation neither the instance nor any task changes status, and nothing is logged. */
  lemma {:induction false} TerminalStatesAreFinal(inst: Instance, cs: seq<Command>)
    requires Inv(inst) && inst.status != Running
    ensures Run(inst, cs).status == inst.status && Statuses(Run(inst, cs).tasks) == Statuses(inst.tasks)
    ensures Run(inst, cs).log == inst.log
  {
    if cs != [] {
      TerminalStatesAreFinal(inst, cs[..|cs| - 1]);
      EveryRunKeepsInvariant(inst, cs[..|cs| - 1]);
      TerminalStep(Run(inst, cs[..|cs| - 1]), cs[|cs| - 1]);
    }
  }

  // ---------------------------------------------------------------- termination

  ghost function Rank(s: TaskStatus): nat {
    match s
    case Pending => 3
    case InProgress => 2
    case Error => 1
    case _ => 0
  }

  ghost function RankSum(tasks: seq<Task>): nat {
    if tasks == [] then 0 else RankSum(tasks[..|tasks| - 1]) + Rank(tasks[|tasks| - 1].status)
  }

  lemma {:induction false} RankOfUpdate(tasks: seq<Task>, i: nat, t: Task)
    requires i < |tasks|
    ensures RankSum(tasks[i := t]) + Rank(tasks[i].status) == RankSum(tasks) + Rank(t.status)
  {
    var n := |tasks| - 1;
    if i < n {
      RankOfUpdate(tasks[..n], i, t);
      assert tasks[i := t][..n] == tasks[..n][i := t];
    } else {
      assert tasks[i := t][..n] == tasks[..n];
    }
  }

  /** A step that succeeds touches one task, and leaves its status alone or lowers its rank. */
  lemma StepTouchesOneTask(inst: Instance, c: Command) returns (i: nat, t: Task)
    requires Step(inst, c).Ok? && !c.Cancel?
    ensures i < |inst.tasks| && t.id == inst.tasks[i].id && After(inst, c).tasks == inst.tasks[i := t]
    ensures t.status == inst.tasks[i].status || Rank(t.status) < Rank(inst.tasks[i].status)
  {
    i := Find(inst.tasks, c.taskId).value;
    t := After(inst, c).tasks[i];
  }

  /** Every step that changes a task's status strictly lowers the rank; no step raises it. */
  lemma StepLowersRank(inst: Instance, c: Command)
    requires Inv(inst)
    ensures RankSum(After(inst, c).tasks) <= RankSum(inst.tasks)
    ensures Statuses(After(inst, c).tasks) != Statuses(inst.tasks) ==>
      RankSum(After(inst, c).tasks) < RankSum(inst.tasks)
  {
    if Step(inst, c).Ok? && !c.Cancel? {
      var i, t := StepTouchesOneTask(inst, c);
      RankOfUpdate(inst.tasks, i, t);
      UpdateOne(inst.tasks, i, t);
      StatusesOf(inst.tasks);
    }
  }

  /** The number of steps of a run that change some task's status. */
  ghost function StatusChanges(inst: Instance, cs: seq<Command>): nat {
    if cs == [] then 0
    else
      var before := Run(inst, cs[..|cs| - 1]);
      StatusChanges(inst, cs[..|cs| - 1])
      + if Statuses(After(before, cs[|cs| - 1]).tasks) != Statuses(before.tasks) then 1 else 0
  }

  lemma {:induction false} ChangesAreBounded(inst: Instance, cs: seq<Command>)
    requires Inv(inst)
    ensures StatusChanges(inst, cs) + RankSum(Run(inst, cs).tasks) <= RankSum(inst.tasks)
  {
    if cs != [] {
      var front := cs[..|cs| - 1];
      ChangesAreBounded(inst, front);
      EveryRunKeepsInvariant(inst, front);
      StepLowersRank(Run(inst, front), cs[|cs| - 1]);
    }
  }

  lemma {:induction false} RankIsAtMostThree(tasks: seq<Task>)
    ensures RankSum(tasks) <= 3 * |tasks|
  {
    if tasks != [] {
      RankIsAtMostThree(tasks[..|tasks| - 1]);
    }
  }

  /** Any run of an instance with n tasks changes task statuses at most 3n times. */
  lemma AtMostThreeChangesPerTask(inst: Instance, cs: seq<Command>)
    requires Inv(inst)
    ensures StatusChanges(inst, cs) <= 3 * |inst.tasks|
  {
    ChangesAreBounded(inst, cs);
    RankIsAtMostThree(inst.tasks);
  }

  // ---------------------------------------------------------------- completion

  lemma RunFromStep(inst: Instance, c: Command, cs: seq<Command>)
    ensures Run(inst, [c] + cs) == Run(After(inst, c), cs)
  {
    if cs == [] {
      assert [c] + cs == [c] && [c][..0] == [];
    } else {
      RunFromStep(inst, c, cs[..|cs| - 1]);
      assert ([c] + cs)[..|cs|] == [c] + cs[..|cs| - 1];
    }
  }

  /** From any sound instance that is not cancelled, some run finishes it. */
  lemma {:induction false} CanAlwaysFinish(inst: Instance) returns (cs: seq<Command>)
    requires Inv(inst) && inst.status != Cancelled
    ensures Run(inst, cs).status == Finished
    decreases RankSum(inst.tasks)
  {
    if AllDone(inst.tasks) {
      return [];
    }
    var i :| 0 <= i < |inst.tasks| && !inst.tasks[i].Done();
    var c := Skip(inst.tasks[i].id, "");
    assert Find(inst.tasks, inst.tasks[i].id) == Some(i) by {
      var j := Find(inst.tasks, inst.tasks[i].id).value;
      assert TaskIds(inst.tasks)[j] == TaskIds(inst.tasks)[i];
    }
    var t := After(inst, c).tasks[i];
    assert After(inst, c).tasks == inst.tasks[i := t];
    RankOfUpdate(inst.tasks, i, t);
    StepKeepsInvariant(inst, c);
    var rest := CanAlwaysFinish(After(inst, c));
    RunFromStep(inst, c, rest);
    cs := [c] + rest;
  }

  // ---------------------------------------------------------------- progress

  lemma {:induction false} DoneCountIsFull(tasks: seq<Task>)
    ensures DoneCount(tasks) <= |tasks|
    ensures DoneCount(tasks) == |tasks| <==> AllDone(tasks)
  {
    if tasks != [] {
      DoneCountIsFull(tasks[..|tasks| - 1]);
      assert tasks == tasks[..|tasks| - 1] + [tasks[|tasks| - 1]];
    }
  }
}
