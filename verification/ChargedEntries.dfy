/**
 What a simulation charges for the entry of a rate, said in terms of the route's stops and of the
 cargo of the job.
 */
module ChargedEntries {
  import opened ChargedItems
  import opened Permutations
  import opened Pricing
  import opened Rates
  import opened Refinement
  import opened Shared
  import opened Simulation
  import opened SimulationTheorems

  ghost predicate IsCharged(res: RouteResult, id: Id) {
    exists ch :: ch in res.applied && ch.entryId == id
  }

  ghost predicate IsReportedSkipped(res: RouteResult, id: Id) {
    exists s :: s in res.skipped && s.entryId == id
  }

  // ---------------------------------------------------------------- which entries are charged

  /** In a successful simulation, a line item that is served on the route has a price. */
  lemma {:induction false} ServedHasAPrice(
    res: RouteResult, e: RateEntry, entries: seq<RateEntry>, job: Job, eng: Engine, price: Pricer)
    requires Prices(price, job, eng) && IsSimulationOf(Ok(res), entries, job.route, price)
    requires DistinctEntries(entries) && AreProjections(entries, job.tariffs) && e in entries
    requires Served(ItemOf(e, job.tariffs).scope, job.route)
    ensures Applies(ItemOf(e, job.tariffs), ContextOf(job), eng) && RequestOf(job).summary.Valid()
  {
    var item := ItemOf(e, job.tariffs);
    ApplicableIffServed(item.scope, job.route);
    MatchingIsApplicability(e, item, job.route);
    SimulationFailsIff(Ok(res), entries, job, eng, price);
    assert !CannotPrice(e, job, eng);
    assert !Fails(item, ContextOf(job), eng);
  }

  /** An entry is charged exactly if its line item is served on the route. */
  lemma {:induction false} ChargedIffServed(
    res: RouteResult, e: RateEntry, entries: seq<RateEntry>, job: Job, eng: Engine, price: Pricer)
    requires Prices(price, job, eng) && IsSimulationOf(Ok(res), entries, job.route, price)
    requires DistinctEntries(entries) && AreProjections(entries, job.tariffs) && e in entries
    ensures IsCharged(res, e.id) <==> Served(ItemOf(e, job.tariffs).scope, job.route)
  {
    var item := ItemOf(e, job.tariffs);
    ChargesOfEntry(res, e, entries, job, eng, price);
    ApplicableIffServed(item.scope, job.route);
    if Served(item.scope, job.route) {
      ServedHasAPrice(res, e, entries, job, eng, price);
      assert DirectCharge(e, job, eng)[0] in DirectCharge(e, job, eng);
    }
  }

  lemma {:induction false} DirectSkipsMembers(es: seq<RateEntry>, job: Job)
    requires AreProjections(es, job.tariffs)
    ensures forall s :: s in DirectSkips(es, job) <==> exists e :: e in es && s in DirectSkip(e, job)
  {
    if es != [] {
      var front, last := es[..|es| - 1], es[|es| - 1];
      assert last in es && forall e :: e in es <==> e in front || e == last;
      DirectSkipsMembers(front, job);
    }
  }

  lemma {:induction false} SkippedAreDirect(
    res: RouteResult, entries: seq<RateEntry>, job: Job, eng: Engine, price: Pricer)
    requires Prices(price, job, eng) && IsSimulationOf(Ok(res), entries, job.route, price)
    requires DistinctEntries(entries) && AreProjections(entries, job.tariffs)
    ensures forall s :: s in res.skipped <==> exists e :: e in entries && s in DirectSkip(e, job)
  {
    SimulationRefinesDirectPricing(res, entries, job, eng, price);
    DirectSkipsMembers(entries, job);
    SameMembers(res.skipped, DirectSkips(entries, job));
  }

  lemma DirectSkipIsOwn(e: RateEntry, job: Job)
    requires IsProjection(e, job.tariffs)
    ensures forall s :: s in DirectSkip(e, job) ==> s.entryId == e.id
  {
  }

  lemma {:induction false} SkipsOfEntry(
    res: RouteResult, e: RateEntry, entries: seq<RateEntry>, job: Job, eng: Engine, price: Pricer)
    requires Prices(price, job, eng) && IsSimulationOf(Ok(res), entries, job.route, price)
    requires DistinctEntries(entries) && AreProjections(entries, job.tariffs) && e in entries
    ensures forall s :: s in res.skipped && s.entryId == e.id <==> s in DirectSkip(e, job)
  {
    SkippedAreDirect(res, entries, job, eng, price);
    DirectSkipIsOwn(e, job);
    forall s | s in res.skipped && s.entryId == e.id
      ensures s in DirectSkip(e, job)
    {
      var other :| other in entries && s in DirectSkip(other, job);
      DirectSkipIsOwn(other, job);
      SameIdSameEntry(entries, e, other);
    }
  }

  /** An entry is reported as skipped exactly if its item is of a location that is no stop of the route. */
  lemma {:induction false} SkippedIffNoStop(
    res: RouteResult, e: RateEntry, entries: seq<RateEntry>, job: Job, eng: Engine, price: Pricer)
    requires Prices(price, job, eng) && IsSimulationOf(Ok(res), entries, job.route, price)
    requires DistinctEntries(entries) && AreProjections(entries, job.tariffs) && e in entries && job.route != []
    ensures IsReportedSkipped(res, e.id) <==>
      var scope := ItemOf(e, job.tariffs).scope; scope.LocationService? && scope.location !in Stops(job.route)
  {
    var item := ItemOf(e, job.tariffs);
    SkipsOfEntry(res, e, entries, job, eng, price);
    ApplicableIffServed(item.scope, job.route);
    if item.scope.LocationService? && !Served(item.scope, job.route) {
      assert DirectSkip(e, job)[0] in DirectSkip(e, job);
    }
  }

  /** A route is available exactly if some entry's line item is served on it. */
  lemma {:induction false} AvailableIff(
    res: RouteResult, entries: seq<RateEntry>, job: Job, eng: Engine, price: Pricer)
    requires Prices(price, job, eng) && IsSimulationOf(Ok(res), entries, job.route, price)
    requires DistinctEntries(entries) && AreProjections(entries, job.tariffs)
    ensures res.isAvailable <==> exists e :: e in entries && Served(ItemOf(e, job.tariffs).scope, job.route)
  {
    AppliedAreDirect(res, entries, job, eng, price);
    if res.isAvailable {
      assert res.applied[0] in res.applied;
      var e :| e in entries && res.applied[0] in DirectCharge(e, job, eng);
      ApplicableIffServed(ItemOf(e, job.tariffs).scope, job.route);
    }
    if e :| e in entries && Served(ItemOf(e, job.tariffs).scope, job.route) {
      ChargedIffServed(res, e, entries, job, eng, price);
    }
  }

  /** A segment has entries exactly if some entry that matches it first has a line item that is served on the route. */
  lemma {:induction false} SegmentHasEntriesIff(
    res: RouteResult, n: nat, entries: seq<RateEntry>, job: Job, eng: Engine, price: Pricer)
    requires Prices(price, job, eng) && IsSimulationOf(Ok(res), entries, job.route, price)
    requires DistinctEntries(entries) && AreProjections(entries, job.tariffs) && n < |job.route|
    ensures res.segments[n].index == n && res.segments[n].segment == job.route[n]
    ensures res.segments[n].hasEntries <==> exists e ::
      e in entries && FirstMatches(e, job.route, n) && Served(ItemOf(e, job.tariffs).scope, job.route)
  {
    var es := TakenBy(entries, job.route, n);
    TakenByMembers(entries, job.route, n);
    SegmentCharges(res, n, entries, job, eng, price);
    forall e | e in es
      ensures Served(ItemOf(e, job.tariffs).scope, job.route) <==> DirectCharge(e, job, eng) != []
    {
      ApplicableIffServed(ItemOf(e, job.tariffs).scope, job.route);
      if Served(ItemOf(e, job.tariffs).scope, job.route) {
        ServedHasAPrice(res, e, entries, job, eng, price);
      }
    }
    SomeCharge(es, job, eng);
  }

  lemma {:induction false} SegmentCharges(
    res: RouteResult, n: nat, entries: seq<RateEntry>, job: Job, eng: Engine, price: Pricer)
    requires Prices(price, job, eng) && IsSimulationOf(Ok(res), entries, job.route, price)
    requires DistinctEntries(entries) && AreProjections(entries, job.tariffs) && n < |job.route|
    ensures res.segments[n].index == n && res.segments[n].segment == job.route[n]
    ensures AreProjections(TakenBy(entries, job.route, n), job.tariffs)
    ensures res.segments[n].hasEntries <==> DirectCharges(TakenBy(entries, job.route, n), job, eng) != []
  {
    TakenByMembers(entries, job.route, n);
    ClaimedIsTaken(entries, job.route, n);
    PricerPrices(entries, job, eng, price);
    assert IsSegmentOf(res.segments[n], n, entries, job.route, price);
    OutcomeIsDirect(TakenBy(entries, job.route, n), job, eng, price);
  }

  lemma {:induction false} SomeCharge(es: seq<RateEntry>, job: Job, eng: Engine)
    requires AreProjections(es, job.tariffs)
    ensures DirectCharges(es, job, eng) != [] <==> exists e :: e in es && DirectCharge(e, job, eng) != []
  {
    if es != [] {
      SomeCharge(es[..|es| - 1], job, eng);
      assert es == es[..|es| - 1] + [es[|es| - 1]];
    }
  }

  /** Location charges of an entry stay when every segment is travelled the other way. */
  lemma {:induction false} LocationEntriesIgnoreDirection(
    res: RouteResult, res': RouteResult, e: RateEntry, entries: seq<RateEntry>, job: Job, eng: Engine,
    price: Pricer, price': Pricer, ch: SimulatedCharge)
    requires Prices(price, job, eng) && IsSimulationOf(Ok(res), entries, job.route, price)
    requires var job' := job.(route := Swapped(job.route));
      Prices(price', job', eng) && IsSimulationOf(Ok(res'), entries, job'.route, price')
    requires DistinctEntries(entries) && AreProjections(entries, job.tariffs) && e in entries
    requires ItemOf(e, job.tariffs).scope.LocationService? && ch.entryId == e.id
    ensures ch in res.applied <==> ch in res'.applied
  {
    var item, job' := ItemOf(e, job.tariffs), job.(route := Swapped(job.route));
    ChargesOfEntry(res, e, entries, job, eng, price);
    ChargesOfEntry(res', e, entries, job', eng, price');
    SwappedHasTheSameStops(job.route);
    ApplicableIffServed(item.scope, job.route);
    ApplicableIffServed(item.scope, job'.route);
    assert ContextOf(job') == ContextOf(job).(route := job'.route);
    PriceIgnoresRoute(item.logic, ContextOf(job), job'.route, eng);
  }

  // ---------------------------------------------------------------- the cargo that formulas see

  /** The number that the cargo of a job has under a name. */
  ghost predicate IsOfCargo(job: Job, name: string, x: real) {
    match name
    case "quantity" => x == job.quantity
    case "weight" => x == job.weight
    case "volume" => x == job.volume
    case _ => x >= job.weight && x >= 1000.0 * job.volume && x in {job.weight, 1000.0 * job.volume}
  }

  lemma CargoIsKnown(job: Job, name: string) returns (x: real)
    requires name in {"quantity", "weight", "volume", "chargeable_weight"} && RequestOf(job).summary.Valid()
    ensures Known(RequestOf(job), name) == Some(Number(x)) && x >= 0.0 && IsOfCargo(job, name, x)
  {
    x := Known(RequestOf(job), name).value.value;
  }

  /**
   In a successful simulation, an entry whose formula is the name of a cargo field is charged that
   field of the job: for the chargeable weight, the larger of weight and volume times 1000.
   */
  lemma {:induction false} CargoIsCharged(
    res: RouteResult, e: RateEntry, entries: seq<RateEntry>, job: Job, eng: Engine, price: Pricer,
    name: string, currency: string) returns (x: real)
    requires Prices(price, job, eng) && IsSimulationOf(Ok(res), entries, job.route, price)
    requires DistinctEntries(entries) && AreProjections(entries, job.tariffs) && e in entries
    requires ItemOf(e, job.tariffs).logic == Expression(name, currency) && Echoes(eng, name)
    requires Served(ItemOf(e, job.tariffs).scope, job.route)
    requires name in {"quantity", "weight", "volume", "chargeable_weight"}
    ensures IsOfCargo(job, name, x)
    ensures forall ch :: ch in res.applied && ch.entryId == e.id <==>
      ch == SimulatedCharge(e.id, e.chargeCode, e.category, e.providerId, Money(x, currency))
  {
    ServedHasAPrice(res, e, entries, job, eng, price);
    ApplicableIffServed(ItemOf(e, job.tariffs).scope, job.route);
    ChargesOfEntry(res, e, entries, job, eng, price);
    x := CargoIsKnown(job, name);
    NamedPrice(RequestOf(job), eng, name, currency, x);
    ExpressionPriceIff(name, currency, ContextOf(job), eng);
  }
}
