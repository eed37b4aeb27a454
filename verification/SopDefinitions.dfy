/** Templates of standard operating procedures: steps are edited in draft and frozen by activation. */
module SopDefinitions {
  import opened Permutations
  import opened Shared

  datatype StepDefinition = StepDefinition(id: Id, name: string, orderIndex: nat)

  datatype DefinitionStatus = Draft | Active | Archived

  datatype DefinitionState = DefinitionState(status: DefinitionStatus, steps: seq<StepDefinition>)

  datatype DefinitionError = NotDraft | NotActive | NameRequired | StepNotFound | WrongCount | NoSteps

  /** Finds the last step with the given ID, as a map built from the steps would. */
  function Lookup(steps: seq<StepDefinition>, id: Id): (r: Option<StepDefinition>)
    ensures r.Some? ==> r.value in steps && r.value.id == id
    ensures r.None? ==> forall s :: s in steps ==> s.id != id
  {
    if steps == [] then None
    else if steps[|steps| - 1].id == id then Some(steps[|steps| - 1])
    else Lookup(steps[..|steps| - 1], id)
  }

  function FirstStep(steps: seq<StepDefinition>, id: Id): Option<nat> {
    FirstIndex(steps, (s: StepDefinition) => s.id == id)
  }

  ghost predicate AllKnown(steps: seq<StepDefinition>, ids: seq<Id>) {
    forall id :: id in ids ==> Lookup(steps, id).Some?
  }

  /** The steps in the requested order, renumbered. */
  ghost function Reordered(steps: seq<StepDefinition>, ids: seq<Id>): seq<StepDefinition>
    requires AllKnown(steps, ids)
  {
    seq(|ids|, i requires 0 <= i < |ids| => Lookup(steps, ids[i]).value.(orderIndex := i))
  }

  datatype DefinitionCommand =
    | AddStep(step: StepDefinition, freshId: Id)
    | RemoveStep(id: Id)
    | ReorderSteps(ids: seq<Id>)
    | Activate
    | Archive

  ghost function Apply(d: DefinitionState, c: DefinitionCommand): Result<DefinitionState, DefinitionError> {
    match c
    case AddStep(step, freshId) =>
      if d.status != Draft then Err(NotDraft)
      else if step.name == "" then Err(NameRequired)
      else Ok(d.(steps := d.steps + [if step.id == NIL then step.(id := freshId) else step]))
    case RemoveStep(id) =>
      if d.status != Draft then Err(NotDraft)
      else if FirstStep(d.steps, id).None? then Err(StepNotFound)
      else Ok(d.(steps := Without(d.steps, FirstStep(d.steps, id).value)))
    case ReorderSteps(ids) =>
      if d.status != Draft then Err(NotDraft)
      else if |ids| != |d.steps| then Err(WrongCount)
      else if !AllKnown(d.steps, ids) then Err(StepNotFound)
      else Ok(d.(steps := Reordered(d.steps, ids)))
    case Activate =>
      if d.status != Draft then Err(NotDraft)
      else if d.steps == [] then Err(NoSteps)
      else Ok(d.(status := Active))
    case Archive =>
      if d.status != Active then Err(NotActive) else Ok(d.(status := Archived))
  }

  ghost predicate Follows(
    was: DefinitionState, now: DefinitionState, error: Option<DefinitionError>,
    expected: Result<DefinitionState, DefinitionError>)
  {
    match expected
    case Ok(d) => error.None? && now == d
    case Err(e) => error == Some(e) && now == was
  }

  /** The steps by ID; of steps with the same ID, the last one. */
  method StepMap(steps: seq<StepDefinition>) returns (stepMap: map<Id, StepDefinition>)
    ensures forall id :: id in stepMap <==> Lookup(steps, id).Some?
    ensures forall id :: id in stepMap ==> stepMap[id] == Lookup(steps, id).value
  {
    stepMap := map[];
    for i := 0 to |steps|
      invariant forall id :: id in stepMap <==> Lookup(steps[..i], id).Some?
      invariant forall id :: id in stepMap ==> stepMap[id] == Lookup(steps[..i], id).value
    {
      assert steps[..i + 1][..i] == steps[..i];
      stepMap := stepMap[steps[i].id := steps[i]];
    }
    assert steps[..|steps|] == steps;
  }

  class SOPDefinition {
    const id: Id
    var steps: seq<StepDefinition>
    var status: DefinitionStatus

    ghost function State(): DefinitionState
      reads this
    {
      DefinitionState(status, steps)
    }

    constructor (id: Id)
      ensures this.id == id && State() == DefinitionState(Draft, [])
    {
      this.id := id;
      steps, status := [], Draft;
    }

    method AddStep(step: StepDefinition, freshId: Id) returns (error: Option<DefinitionError>)
      modifies this
      ensures Follows(old(State()), State(), error, Apply(old(State()), DefinitionCommand.AddStep(step, freshId)))
    {
      if status != Draft {
        return Some(NotDraft);
      }
      if step.name == "" {
        return Some(NameRequired);
      }
      var added := step;
      if added.id == NIL {
        added := added.(id := freshId);
      }
      steps := steps + [added];
      return None;
    }

    method RemoveStep(stepId: Id) returns (error: Option<DefinitionError>)
      modifies this
      ensures Follows(old(State()), State(), error, Apply(old(State()), DefinitionCommand.RemoveStep(stepId)))
    {
      if status != Draft {
        return Some(NotDraft);
      }
      for i := 0 to |steps|
        invariant State() == old(State())
        invariant forall j :: 0 <= j < i ==> steps[j].id != stepId
      {
        if steps[i].id == stepId {
          assert FirstStep(steps, stepId) == Some(i);
          steps := steps[..i] + steps[i + 1..];
          return None;
        }
      }
      return Some(StepNotFound);
    }

    method ReorderSteps(stepIds: seq<Id>) returns (error: Option<DefinitionError>)
      modifies this
      ensures Follows(old(State()), State(), error, Apply(old(State()), DefinitionCommand.ReorderSteps(stepIds)))
    {
      if status != Draft {
        return Some(NotDraft);
      }
      if |stepIds| != |steps| {
        return Some(WrongCount);
      }
      var stepMap := StepMap(steps);
      var reordered: seq<StepDefinition> := [];
      for i := 0 to |stepIds|
        invariant |reordered| == i
        invariant forall j :: 0 <= j < i ==>
          stepIds[j] in stepMap && reordered[j] == stepMap[stepIds[j]].(orderIndex := j)
      {
        if stepIds[i] !in stepMap {
          assert stepIds[i] in stepIds && Lookup(steps, stepIds[i]).None?;
          return Some(StepNotFound);
        }
        reordered := reordered + [stepMap[stepIds[i]].(orderIndex := i)];
      }
      assert reordered == Reordered(steps, stepIds);
      steps := reordered;
      return None;
    }

    method Activate() returns (error: Option<DefinitionError>)
      modifies this
      ensures Follows(old(State()), State(), error, Apply(old(State()), DefinitionCommand.Activate))
    {
      if status != Draft {
        return Some(NotDraft);
      }
      if |steps| == 0 {
        return Some(NoSteps);
      }
      status := Active;
      return None;
    }

    method Archive() returns (error: Option<DefinitionError>)
      modifies this
      ensures Follows(old(State()), State(), error, Apply(old(State()), DefinitionCommand.Archive))
    {
      if status != Active {
        return Some(NotActive);
      }
      status := Archived;
      return None;
    }
  }

  /** NewSOPDefinition: a nameless definition is refused. */
  method NewSOPDefinition(name: string, freshId: Id) returns (r: Result<SOPDefinition, DefinitionError>)
    ensures r.Err? <==> name == ""
    ensures r.Err? ==> r.error == NameRequired
    ensures r.Ok? ==> fresh(r.value) && r.value.id == freshId && r.value.State() == DefinitionState(Draft, [])
  {
    if name == "" {
      return Err(NameRequired);
    }
    var d := new SOPDefinition(freshId);
    return Ok(d);
  }

  // ---------------------------------------------------------------- runs

  ghost function After(d: DefinitionState, c: DefinitionCommand): DefinitionState {
    match Apply(d, c) case Ok(d') => d' case Err(_) => d
  }

  ghost function Run(d: DefinitionState, cs: seq<DefinitionCommand>): DefinitionState {
    if cs == [] then d else After(Run(d, cs[..|cs| - 1]), cs[|cs| - 1])
  }

  /** A definition that has ever been activated has steps, and they no longer change. */
  lemma {:induction false} ActivatedDefinitionsAreFrozen(d: DefinitionState, cs: seq<DefinitionCommand>)
    requires d.status != Draft ==> d.steps != []
    ensures Run(d, cs).status != Draft ==> Run(d, cs).steps != []
    ensures d.status != Draft ==> Run(d, cs).status != Draft && Run(d, cs).steps == d.steps
  {
    if cs != [] {
      ActivatedDefinitionsAreFrozen(d, cs[..|cs| - 1]);
    }
  }

  // ---------------------------------------------------------------- reordering

  ghost function StepIds(steps: seq<StepDefinition>): seq<Id> {
    seq(|steps|, i requires 0 <= i < |steps| => steps[i].id)
  }

  /** The steps without their position. */
  ghost function Bare(steps: seq<StepDefinition>): seq<StepDefinition> {
    seq(|steps|, i requires 0 <= i < |steps| => steps[i].(orderIndex := 0))
  }

  lemma {:induction false} DistinctCounts(xs: seq<Id>, x: Id)
    requires Distinct(xs)
    ensures multiset(xs)[x] == if x in xs then 1 else 0
  {
    if xs != [] {
      DistinctCounts(xs[..|xs| - 1], x);
      assert xs == xs[..|xs| - 1] + [xs[|xs| - 1]];
    }
  }

  lemma StillThere(b: seq<Id>, k: nat, x: Id)
    requires k < |b| && x in b && x != b[k]
    ensures x in Without(b, k)
  {
    var j :| 0 <= j < |b| && b[j] == x;
    assert x == Without(b, k)[if j < k then j else j - 1];
  }

  /** Pigeonhole: as many distinct IDs, all drawn from distinct ones, are a permutation of them. */
  lemma {:induction false} DistinctSelectionIsPermutation(a: seq<Id>, b: seq<Id>)
    requires Distinct(a) && Distinct(b) && |a| == |b| && forall x :: x in a ==> x in b
    ensures multiset(a) == multiset(b)
  {
    if a != [] {
      var n := |a| - 1;
      assert a[n] in a;
      var k :| 0 <= k < |b| && b[k] == a[n];
      SplitAt(b, k);
      DropLast(a);
      forall x | x in a[..n]
        ensures x in Without(b, k)
      {
        assert x in a && x != a[n];
        StillThere(b, k, x);
      }
      DistinctSelectionIsPermutation(a[..n], Without(b, k));
    }
  }

  /**
   A successful reorder of distinct steps puts them in the requested order and numbers them by
   position; it keeps exactly the original steps iff the requested IDs are distinct.
   */
  lemma ReorderIsPermutationIff(steps: seq<StepDefinition>, ids: seq<Id>)
    requires Distinct(StepIds(steps)) && |ids| == |steps| && AllKnown(steps, ids)
    ensures StepIds(Reordered(steps, ids)) == ids
    ensures forall i :: 0 <= i < |ids| ==> Reordered(steps, ids)[i].orderIndex == i
    ensures multiset(Bare(Reordered(steps, ids))) == multiset(Bare(steps)) <==> Distinct(ids)
  {
    var known, now := StepIds(steps), Reordered(steps, ids);
    forall i | 0 <= i < |ids|
      ensures exists j :: 0 <= j < |steps| && steps[j] == Lookup(steps, ids[i]).value && known[j] == ids[i]
    {
      assert ids[i] in ids;
      var j :| 0 <= j < |steps| && steps[j] == Lookup(steps, ids[i]).value;
      assert known[j] == ids[i];
    }
    if Distinct(ids) {
      DistinctSelectionIsPermutation(ids, known);
      Relabel(ids, known, Bare(now), Bare(steps));
    }
    if multiset(Bare(now)) == multiset(Bare(steps)) {
      Relabel(Bare(now), Bare(steps), ids, known);
      forall i, j | 0 <= i < j < |ids|
        ensures ids[i] != ids[j]
      {
        DistinctCounts(known, ids[i]);
        TwoPositions(ids, i, j);
      }
    }
  }

  lemma TwoPositions(xs: seq<Id>, i: nat, j: nat)
    requires i < j < |xs|
    ensures xs[i] == xs[j] ==> multiset(xs)[xs[i]] >= 2
  {
    assert xs == xs[..i] + [xs[i]] + xs[i + 1..j] + [xs[j]] + xs[j + 1..];
  }

  /** A repeated ID is accepted, and loses a step. */
  lemma RepeatedIdLosesAStep(a: StepDefinition, b: StepDefinition)
    requires a.id != b.id
    ensures Apply(DefinitionState(Draft, [a, b]), ReorderSteps([a.id, a.id])).Ok?
    ensures b.(orderIndex := 0) !in Bare(After(DefinitionState(Draft, [a, b]), ReorderSteps([a.id, a.id])).steps)
  {
    var steps, ids := [a, b], [a.id, a.id];
    assert a in steps;
    assert forall id :: id in ids ==> id == a.id;
    assert Lookup(steps, a.id) == Some(a);
  }

  // ---------------------------------------------------------------- which edits succeed

  ghost predicate HasStep(d: DefinitionState, id: Id) {
    exists s :: s in d.steps && s.id == id
  }

  /** Steps are edited in draft only; activation asks for a step, archiving for an active definition. */
  lemma EditSucceedsIff(d: DefinitionState, c: DefinitionCommand)
    ensures Apply(d, c).Ok? <==>
      match c
      case AddStep(step, _) => d.status == Draft && step.name != ""
      case RemoveStep(id) => d.status == Draft && HasStep(d, id)
      case ReorderSteps(ids) => d.status == Draft && |ids| == |d.steps| && forall id :: id in ids ==> HasStep(d, id)
      case Activate => d.status == Draft && d.steps != []
      case Archive => d.status == Active
  {
    match c
    case RemoveStep(id) =>
      var i := FirstStep(d.steps, id);
      if i.Some? {
        assert d.steps[i.value] in d.steps;
      }
    case ReorderSteps(ids) =>
      forall id | id in ids
        ensures HasStep(d, id) <==> Lookup(d.steps, id).Some?
      {
      }
    case _ =>
  }

  /** Which refusal it is. */
  lemma EditRefusedIff(d: DefinitionState, c: DefinitionCommand)
    ensures Apply(d, c) == Err(NotActive) <==> c.Archive? && d.status != Active
    ensures Apply(d, c) == Err(NotDraft) <==> !c.Archive? && d.status != Draft
    ensures Apply(d, c) == Err(NameRequired) <==> d.status == Draft && c.AddStep? && c.step.name == ""
    ensures Apply(d, c) == Err(NoSteps) <==> d.status == Draft && c.Activate? && d.steps == []
    ensures Apply(d, c) == Err(WrongCount) <==> d.status == Draft && c.ReorderSteps? && |c.ids| != |d.steps|
  {
  }

  /** A step is added at the end, with the new ID if it has none; the first step with the ID is removed. */
  lemma EditsChange(d: DefinitionState, c: DefinitionCommand)
    requires Apply(d, c).Ok? && (c.AddStep? || c.RemoveStep?)
    ensures var now := Apply(d, c).value;
      && now.status == d.status
      && match c
         case AddStep(step, freshId) =>
           now.steps == d.steps + [step.(id := if step.id == NIL then freshId else step.id)]
         case RemoveStep(id) => exists i ::
           0 <= i < |d.steps| && d.steps[i].id == id && now.steps == d.steps[..i] + d.steps[i + 1..]
           && forall j :: 0 <= j < i ==> d.steps[j].id != id
  {
    if c.RemoveStep? {
      var i := FirstStep(d.steps, c.id).value;
      assert Apply(d, c).value.steps == d.steps[..i] + d.steps[i + 1..];
    }
  }

  ghost predicate IsLastStep(steps: seq<StepDefinition>, n: nat, id: Id) {
    n < |steps| && steps[n].id == id && forall k :: n < k < |steps| ==> steps[k].id != id
  }

  lemma {:induction false} LookupFindsLast(steps: seq<StepDefinition>, n: nat, id: Id)
    requires IsLastStep(steps, n, id)
    ensures Lookup(steps, id) == Some(steps[n])
  {
    if n < |steps| - 1 {
      LookupFindsLast(steps[..|steps| - 1], n, id);
    }
  }

  /** At each place a reorder puts the step with the requested ID; of steps with the same ID, the last. */
  lemma ReorderTakesTheLast(d: DefinitionState, ids: seq<Id>, i: nat, n: nat)
    requires Apply(d, ReorderSteps(ids)).Ok? && i < |ids| && IsLastStep(d.steps, n, ids[i])
    ensures var now := Apply(d, ReorderSteps(ids)).value;
      now.status == d.status && |now.steps| == |ids| && now.steps[i] == d.steps[n].(orderIndex := i)
  {
    LookupFindsLast(d.steps, n, ids[i]);
  }

  /** Any named step makes a definition that can be activated. */
  lemma CanBeActivated(step: StepDefinition, freshId: Id)
    requires step.name != ""
    ensures var d := Run(DefinitionState(Draft, []), [DefinitionCommand.AddStep(step, freshId), Activate]);
      d.status == Active && |d.steps| == 1 && d.steps[0].name == step.name
  {
    var none: seq<DefinitionCommand> := [];
    var first, both := [DefinitionCommand.AddStep(step, freshId)], [DefinitionCommand.AddStep(step, freshId), Activate];
    assert both[..1] == first && first[..0] == none;
    assert Run(DefinitionState(Draft, []), none) == DefinitionState(Draft, []);
  }
}
