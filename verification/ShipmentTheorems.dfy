/** Milestone histories survive saving and loading, and a shipment's status depends only on what has happened. */
module ShipmentTheorems {
  import opened Permutations
  import opened Shared
  import opened Shipments

  // ---------------------------------------------------------------- histories

  /** In the history of every type, sequence numbers run from 1 without gaps. */
  ghost predicate WellSequenced(ms: seq<Milestone>) {
    forall t, i :: 0 <= i < |OfType(ms, t)| ==> OfType(ms, t)[i].sequence == i + 1
  }

  lemma OfTypeMore(ms: seq<Milestone>, m: Milestone, t: string)
    ensures OfType(ms + [m], t) == OfType(ms, t) + if m.mtype == t then [m] else []
  {
    assert (ms + [m])[..|ms|] == ms;
  }

  lemma {:induction false} OfTypeCollects(ms: seq<Milestone>, t: string)
    ensures OfType(ms, t) == Collect(ms, (m: Milestone) => if m.mtype == t then [m] else [])
  {
    if ms != [] {
      OfTypeCollects(ms[..|ms| - 1], t);
    }
  }

  lemma OfTypePermutation(a: seq<Milestone>, b: seq<Milestone>, t: string)
    requires multiset(a) == multiset(b)
    ensures multiset(OfType(a, t)) == multiset(OfType(b, t))
  {
    var pick := (m: Milestone) => if m.mtype == t then [m] else [];
    OfTypeCollects(a, t);
    OfTypeCollects(b, t);
    CollectPermutation(a, b, pick);
  }

  /** The order in which the store returns milestones: by sequence number, ties in any order. */
  ghost predicate SortedBySequence(ms: seq<Milestone>) {
    forall i, j :: 0 <= i < j < |ms| ==> ms[i].sequence <= ms[j].sequence
  }

  lemma {:induction false} OfTypeIsSorted(ms: seq<Milestone>, t: string)
    requires SortedBySequence(ms)
    ensures SortedBySequence(OfType(ms, t))
    ensures forall m :: m in OfType(ms, t) ==> m in ms
  {
    if ms != [] {
      var front, last := ms[..|ms| - 1], ms[|ms| - 1];
      OfTypeIsSorted(front, t);
      assert forall m :: m in front ==> m.sequence <= last.sequence;
      assert ms == front + [last];
    }
  }

  ghost predicate StrictlySorted(ms: seq<Milestone>) {
    forall i, j :: 0 <= i < j < |ms| ==> ms[i].sequence < ms[j].sequence
  }

  lemma SameLast(a: seq<Milestone>, b: seq<Milestone>)
    requires multiset(a) == multiset(b) && SortedBySequence(b) && StrictlySorted(a) && a != [] && b != []
    ensures a[|a| - 1] == b[|b| - 1]
  {
    assert b[|b| - 1] in multiset(a) && a[|a| - 1] in multiset(b);
    var i :| 0 <= i < |a| && a[i] == b[|b| - 1];
    var j :| 0 <= j < |b| && b[j] == a[|a| - 1];
  }

  lemma SameFront(a: seq<Milestone>, b: seq<Milestone>)
    requires multiset(a) == multiset(b) && a != [] && b != [] && a[|a| - 1] == b[|b| - 1]
    ensures multiset(a[..|a| - 1]) == multiset(b[..|b| - 1])
  {
    DropLast(a);
    DropLast(b);
  }

  lemma SameLength(a: seq<Milestone>, b: seq<Milestone>)
    requires multiset(a) == multiset(b)
    ensures |a| == |b|
  {
    assert |multiset(a)| == |a| && |multiset(b)| == |b|;
  }

  /** Sorting by distinct numbers leaves no choice. */
  lemma {:induction false} SortedOrderIsUnique(a: seq<Milestone>, b: seq<Milestone>)
    requires multiset(a) == multiset(b) && SortedBySequence(b) && StrictlySorted(a)
    ensures a == b
  {
    SameLength(a, b);
    if a != [] {
      var fa, fb := a[..|a| - 1], b[..|b| - 1];
      SameLast(a, b);
      SameFront(a, b);
      SortedOrderIsUnique(fa, fb);
      assert a == fa + [a[|a| - 1]] && b == fb + [b[|b| - 1]];
    }
  }

  /** Loading may interleave types differently, but keeps the history of every type. */
  lemma ReloadKeepsHistories(ms: seq<Milestone>, loaded: seq<Milestone>)
    requires WellSequenced(ms) && multiset(loaded) == multiset(ms) && SortedBySequence(loaded)
    ensures forall t :: OfType(loaded, t) == OfType(ms, t)
  {
    forall t
      ensures OfType(loaded, t) == OfType(ms, t)
    {
      OfTypePermutation(ms, loaded, t);
      OfTypeIsSorted(loaded, t);
      SortedOrderIsUnique(OfType(ms, t), OfType(loaded, t));
    }
  }

  // ---------------------------------------------------------------- runs with saving and loading

  /** Either a milestone is recorded, or the shipment is saved and later loaded in the store's order. */
  datatype Action =
    | Append(id: Id, mtype: string, occurredAt: int, source: Id)
    | Reload(order: seq<Milestone>)

  ghost function After(ms: seq<Milestone>, a: Action): seq<Milestone> {
    match a
    case Append(id, mtype, at, source) => Recorded(ms, id, mtype, at, source)
    case Reload(order) => order
  }

  ghost function Run(actions: seq<Action>): seq<Milestone> {
    if actions == [] then [] else After(Run(actions[..|actions| - 1]), actions[|actions| - 1])
  }

  /** Every load returns the saved milestones, sorted by sequence number. */
  ghost predicate StoreIsFaithful(actions: seq<Action>) {
    forall n :: 0 <= n < |actions| && actions[n].Reload? ==>
      multiset(actions[n].order) == multiset(Run(actions[..n])) && SortedBySequence(actions[n].order)
  }

  ghost function WithoutReloads(actions: seq<Action>): seq<Action> {
    if actions == [] then []
    else
      WithoutReloads(actions[..|actions| - 1])
      + if actions[|actions| - 1].Reload? then [] else [actions[|actions| - 1]]
  }

  lemma RecordKeepsSequence(ms: seq<Milestone>, id: Id, mtype: string, at: int, source: Id)
    requires WellSequenced(ms)
    ensures WellSequenced(Recorded(ms, id, mtype, at, source))
  {
    var m := Milestone(id, mtype, at, source, |OfType(ms, mtype)| + 1);
    forall t, i | 0 <= i < |OfType(ms + [m], t)|
      ensures OfType(ms + [m], t)[i].sequence == i + 1
    {
      OfTypeMore(ms, m, t);
    }
  }

  lemma RecordedAlike(a: seq<Milestone>, b: seq<Milestone>, id: Id, mtype: string, at: int, source: Id)
    requires forall t :: OfType(a, t) == OfType(b, t)
    ensures forall t :: OfType(Recorded(a, id, mtype, at, source), t) == OfType(Recorded(b, id, mtype, at, source), t)
  {
    var m := Milestone(id, mtype, at, source, |OfType(a, mtype)| + 1);
    forall t
      ensures OfType(a + [m], t) == OfType(b + [m], t)
    {
      OfTypeMore(a, m, t);
      OfTypeMore(b, m, t);
    }
  }

  /**
   However often a shipment is saved and loaded in between, the history of every type is the one
   that recording alone would give, with sequence numbers 1 to k.
   */
  lemma {:induction false} HistoriesSurviveReloads(actions: seq<Action>)
    requires StoreIsFaithful(actions)
    ensures WellSequenced(Run(actions))
    ensures forall t :: OfType(Run(actions), t) == OfType(Run(WithoutReloads(actions)), t)
  {
    if actions != [] {
      var front, last := actions[..|actions| - 1], actions[|actions| - 1];
      assert forall n :: 0 <= n < |front| ==> front[..n] == actions[..n];
      HistoriesSurviveReloads(front);
      var ms, bare := Run(front), Run(WithoutReloads(front));
      match last
      case Append(id, mtype, at, source) =>
        RecordKeepsSequence(ms, id, mtype, at, source);
        assert (WithoutReloads(front) + [last])[..|WithoutReloads(front)|] == WithoutReloads(front);
        RecordedAlike(ms, bare, id, mtype, at, source);
      case Reload(order) =>
        ReloadKeepsHistories(ms, order);
        assert WithoutReloads(actions) == WithoutReloads(front);
    }
  }

  /** The latest milestone of a type is the one with the highest sequence number. */
  lemma LatestHasHighestSequence(ms: seq<Milestone>, t: string)
    requires WellSequenced(ms) && OfType(ms, t) != []
    ensures var latest := OfType(ms, t)[|OfType(ms, t)| - 1];
      latest.sequence == |OfType(ms, t)| && forall m :: m in OfType(ms, t) ==> m.sequence <= latest.sequence
  {
  }

  // ---------------------------------------------------------------- status

  /** The status of a shipment on which exactly the milestone types `types` were recorded. */
  ghost function StatusOf(types: set<string>): ShipmentStatus {
    if "DELIVERED" in types then Completed
    else if "SHIPPED" in types then InTransit
    else if "BOOKING_CONFIRMED" in types then Booked
    else Planned
  }

  ghost function Types(ms: seq<Milestone>): set<string> {
    set m | m in ms :: m.mtype
  }

  ghost function Progress(s: ShipmentStatus): nat {
    match s case Planned => 0 case Booked => 1 case InTransit => 2 case _ => 3
  }

  datatype ShipmentCommand =
    | Record(id: Id, mtype: string, occurredAt: int, source: Id)
    | SetStatus(status: ShipmentStatus)
    | AddUnit(unit: Id)

  ghost function Execute(s: ShipmentState, c: ShipmentCommand): ShipmentState {
    match c
    case Record(id, mtype, at, source) => MilestoneAdded(s, id, mtype, at, source)
    case SetStatus(status) => StatusSet(s, status)
    case AddUnit(unit) => UnitAdded(s, unit)
  }

  ghost function ExecuteAll(s: ShipmentState, cs: seq<ShipmentCommand>): ShipmentState {
    if cs == [] then s else Execute(ExecuteAll(s, cs[..|cs| - 1]), cs[|cs| - 1])
  }

  const NEW_SHIPMENT := ShipmentState(Planned, [], [], [ShipmentCreated])

  lemma TypesMore(ms: seq<Milestone>, m: Milestone)
    ensures Types(ms + [m]) == Types(ms) + {m.mtype}
  {
    assert forall x :: x in ms + [m] <==> x in ms || x == m;
    assert m in ms + [m];
  }

  lemma StepKeepsStatus(s: ShipmentState, c: ShipmentCommand)
    requires !c.SetStatus? && s.status == StatusOf(Types(s.milestones))
    ensures Execute(s, c).status == StatusOf(Types(Execute(s, c).milestones))
  {
    if c.Record? {
      TypesMore(s.milestones,
        Milestone(c.id, c.mtype, c.occurredAt, c.source, |OfType(s.milestones, c.mtype)| + 1));
    }
  }

  /**
   Without direct status updates, the status depends only on the set of milestone types recorded
   so far, whatever their order and number.
   */
  lemma {:induction false} StatusIsConfluent(cs: seq<ShipmentCommand>)
    requires forall c :: c in cs ==> !c.SetStatus?
    ensures var s := ExecuteAll(NEW_SHIPMENT, cs);
      s.status == StatusOf(Types(s.milestones))
  {
    if cs != [] {
      StatusIsConfluent(cs[..|cs| - 1]);
      assert cs[|cs| - 1] in cs;
      StepKeepsStatus(ExecuteAll(NEW_SHIPMENT, cs[..|cs| - 1]), cs[|cs| - 1]);
    }
  }

  lemma DerivedMovesForward(status: ShipmentStatus, t: string)
    requires status in {Planned, Booked, InTransit, Completed}
    ensures Derived(status, t) in {Planned, Booked, InTransit, Completed}
    ensures Progress(Derived(status, t)) >= Progress(status)
  {
  }

  /** A milestone is refused exactly for the first of the three things that is missing. */
  lemma RefusedIff(mtype: string, source: Id, hasPayload: bool)
    ensures Refusal(mtype, source, hasPayload) == Some(TypeRequired) <==> mtype == ""
    ensures Refusal(mtype, source, hasPayload) == Some(SourceRequired) <==> mtype != "" && source == NIL
    ensures Refusal(mtype, source, hasPayload) == Some(PayloadRequired) <==> mtype != "" && source != NIL && !hasPayload
  {
  }

  /** A shipment in exception, or cancelled, is moved on by a delivery and by no other milestone. */
  lemma OnlyDeliveryMovesOn(s: ShipmentState, id: Id, mtype: string, at: int, source: Id)
    requires s.status in {Exception, Cancelled}
    ensures MilestoneAdded(s, id, mtype, at, source).status == if mtype == "DELIVERED" then Completed else s.status
  {
  }

  /** A tracking unit is listed once, however often it is added, and the others stay. */
  lemma UnitsAreListedOnce(s: ShipmentState, unit: Id)
    requires Distinct(s.units)
    ensures Distinct(UnitAdded(s, unit).units) && s.units <= UnitAdded(s, unit).units
    ensures forall u :: u in UnitAdded(s, unit).units <==> u in s.units || u == unit
  {
  }

  lemma StepMovesForward(s: ShipmentState, c: ShipmentCommand)
    requires s.status in {Planned, Booked, InTransit, Completed} && !c.SetStatus?
    ensures Progress(Execute(s, c).status) >= Progress(s.status)
  {
    if c.Record? {
      DerivedMovesForward(s.status, c.mtype);
    }
  }

  /** Without direct status updates, the status never moves back, however a run goes on. */
  lemma {:induction false} MilestonesNeverMoveBack(cs: seq<ShipmentCommand>, more: seq<ShipmentCommand>)
    requires forall c :: c in cs + more ==> !c.SetStatus?
    ensures Progress(ExecuteAll(NEW_SHIPMENT, cs + more).status) >= Progress(ExecuteAll(NEW_SHIPMENT, cs).status)
    decreases |more|
  {
    if more == [] {
      assert cs + more == cs;
    } else {
      var front, last := more[..|more| - 1], more[|more| - 1];
      assert cs + more == cs + front + [last];
      assert last in cs + more && forall c :: c in cs + front ==> c in cs + more;
      MilestonesNeverMoveBack(cs, front);
      StatusIsConfluent(cs + front);
      StepMovesForward(ExecuteAll(NEW_SHIPMENT, cs + front), last);
      assert (cs + more)[..|cs + more| - 1] == cs + front;
    }
  }

  /** The status that the logged changes lead to from `from`, if they form an unbroken chain. */
  ghost function Chained(from: ShipmentStatus, log: seq<ShipmentEvent>): Option<ShipmentStatus> {
    if log == [] then Some(from)
    else
      match Chained(from, log[..|log| - 1])
      case None => None
      case Some(s) =>
        match log[|log| - 1]
        case StatusChanged(a, b) => if a == s && a != b then Some(b) else None
        case _ => Some(s)
  }

  lemma ChainMore(log: seq<ShipmentEvent>, e: ShipmentEvent)
    ensures Chained(Planned, log + [e])
      == match Chained(Planned, log) {
           case None => None
           case Some(s) => if !e.StatusChanged? then Some(s)
             else if e.before == s && e.before != e.after then Some(e.after) else None
         }
  {
    assert (log + [e])[..|log|] == log;
  }

  /** In every run, status-change events form an unbroken chain from Planned to the current status. */
  lemma {:induction false} StatusEventsFormAChain(cs: seq<ShipmentCommand>)
    ensures var s := ExecuteAll(NEW_SHIPMENT, cs);
      Chained(Planned, s.log) == Some(s.status)
  {
    if cs == [] {
      ChainMore([], ShipmentCreated);
      assert [] + NEW_SHIPMENT.log == NEW_SHIPMENT.log;
    } else {
      var front, last := cs[..|cs| - 1], cs[|cs| - 1];
      StatusEventsFormAChain(front);
      var s := ExecuteAll(NEW_SHIPMENT, front);
      match last
      case Record(id, mtype, _, _) =>
        var e := MilestoneRecorded(id, mtype);
        ChainMore(s.log, e);
        ChainMore(s.log + [e], StatusChanged(s.status, Derived(s.status, mtype)));
      case SetStatus(status) =>
        ChainMore(s.log, StatusChanged(s.status, status));
      case AddUnit(_) =>
    }
  }

  /** The milestones that the log tells of, in order. */
  ghost function Told(log: seq<ShipmentEvent>): seq<(Id, string)> {
    if log == [] then []
    else
      var last := log[|log| - 1];
      Told(log[..|log| - 1]) + if last.MilestoneRecorded? then [(last.milestoneId, last.mtype)] else []
  }

  lemma ToldMore(log: seq<ShipmentEvent>, e: ShipmentEvent)
    ensures Told(log + [e]) == Told(log) + if e.MilestoneRecorded? then [(e.milestoneId, e.mtype)] else []
  {
    assert (log + [e])[..|log|] == log;
  }

  ghost predicate Tells(log: seq<ShipmentEvent>, ms: seq<Milestone>) {
    |Told(log)| == |ms| && forall i :: 0 <= i < |ms| ==> Told(log)[i] == (ms[i].id, ms[i].mtype)
  }

  lemma StatusSetTells(s: ShipmentState, status: ShipmentStatus)
    requires Tells(s.log, s.milestones)
    ensures Tells(StatusSet(s, status).log, StatusSet(s, status).milestones)
  {
    ToldMore(s.log, StatusChanged(s.status, status));
  }

  lemma MilestoneAddedTells(s: ShipmentState, id: Id, mtype: string, at: int, source: Id)
    requires Tells(s.log, s.milestones)
    ensures Tells(MilestoneAdded(s, id, mtype, at, source).log, MilestoneAdded(s, id, mtype, at, source).milestones)
  {
    var recorded := s.(
      milestones := Recorded(s.milestones, id, mtype, at, source), log := s.log + [MilestoneRecorded(id, mtype)]);
    ToldMore(s.log, MilestoneRecorded(id, mtype));
    StatusSetTells(recorded, Derived(s.status, mtype));
  }

  /** In every run, the log tells of exactly the recorded milestones, each with its ID and type, in order. */
  lemma {:induction false} LogTellsOfMilestones(cs: seq<ShipmentCommand>)
    ensures Tells(ExecuteAll(NEW_SHIPMENT, cs).log, ExecuteAll(NEW_SHIPMENT, cs).milestones)
  {
    if cs == [] {
      ToldMore([], ShipmentCreated);
      assert [] + NEW_SHIPMENT.log == NEW_SHIPMENT.log;
    } else {
      LogTellsOfMilestones(cs[..|cs| - 1]);
      var s := ExecuteAll(NEW_SHIPMENT, cs[..|cs| - 1]);
      match cs[|cs| - 1]
      case Record(id, mtype, at, source) => MilestoneAddedTells(s, id, mtype, at, source);
      case SetStatus(status) => StatusSetTells(s, status);
      case AddUnit(_) =>
    }
  }

  /** What the commands of a run say of milestones. */
  ghost function Commanded(cs: seq<ShipmentCommand>): seq<(Id, string, int, Id)> {
    if cs == [] then []
    else
      var last := cs[|cs| - 1];
      Commanded(cs[..|cs| - 1]) + if last.Record? then [(last.id, last.mtype, last.occurredAt, last.source)] else []
  }

  /** In every run, the milestones are exactly those of the commands, as they were given and in order. */
  lemma {:induction false} MilestonesAreAsCommanded(cs: seq<ShipmentCommand>)
    ensures var ms := ExecuteAll(NEW_SHIPMENT, cs).milestones;
      Commanded(cs) == seq(|ms|, i requires 0 <= i < |ms| =>
        (ms[i].id, ms[i].mtype, ms[i].occurredAt, ms[i].source))
  {
    if cs != [] {
      MilestonesAreAsCommanded(cs[..|cs| - 1]);
    }
  }
}
