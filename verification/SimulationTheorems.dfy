/** The main results about simulated routes. */
module SimulationTheorems {
  import Conservation
  import opened Permutations
  import opened Pricing
  import opened Rates
  import opened RateStore
  import opened Refinement
  import opened Shared
  import opened Simulation
  import opened Totals

  /** Charges and skips do not depend on the order in which entries are processed. */
  lemma {:induction false} OutcomePermutation(a: seq<RateEntry>, b: seq<RateEntry>, price: Pricer)
    requires multiset(a) == multiset(b) && AllPriced(a, price) && AllPriced(b, price)
    ensures multiset(ChargesOf(a, price)) == multiset(ChargesOf(b, price))
    ensures multiset(SkipsOf(a, price)) == multiset(SkipsOf(b, price))
  {
    OutcomeCollects(a, price);
    OutcomeCollects(b, price);
    CollectPermutation(a, b, e => ChargeOfEntry(e, price));
    CollectPermutation(a, b, e => SkipOfEntry(e, price));
  }

  /** A processed entry contributes its line item's direct charge, or its direct skip. */
  lemma OutcomeOfEntry(e: RateEntry, job: Job, eng: Engine, price: Pricer)
    requires IsProjection(e, job.tariffs) && price(e) == PriceOf(job, e, eng) && price(e).Ok?
    requires MatchesSome(e, job.route)
    ensures var r := price(e).value;
      DirectCharge(e, job, eng) == ChargeFrom(e, r) && DirectSkip(e, job) == SkipFrom(e, r)
  {
    PriceOfProjection(e, job, eng);
    MatchingIsApplicability(e, ItemOf(e, job.tariffs), job.route);
  }

  /** An entry that matches no segment would contribute nothing. */
  lemma NothingFromUnmatched(e: RateEntry, job: Job, eng: Engine)
    requires IsProjection(e, job.tariffs) && !MatchesSome(e, job.route)
    ensures DirectCharge(e, job, eng) == [] && DirectSkip(e, job) == []
  {
    MatchingIsApplicability(e, ItemOf(e, job.tariffs), job.route);
  }

  lemma {:induction false} OutcomeIsDirect(es: seq<RateEntry>, job: Job, eng: Engine, price: Pricer)
    requires AreProjections(es, job.tariffs) && AllPriced(es, price)
    requires forall e :: e in es ==> price(e) == PriceOf(job, e, eng) && MatchesSome(e, job.route)
    ensures ChargesOf(es, price) == DirectCharges(es, job, eng)
    ensures SkipsOf(es, price) == DirectSkips(es, job)
  {
    if es != [] {
      var front, last := es[..|es| - 1], es[|es| - 1];
      assert last in es;
      OutcomeIsDirect(front, job, eng, price);
      OutcomeOfEntry(last, job, eng, price);
    }
  }

  lemma {:induction false} DirectOfMatched(entries: seq<RateEntry>, job: Job, eng: Engine)
    requires AreProjections(entries, job.tariffs)
    requires AreProjections(TakenBefore(entries, job.route, |job.route|), job.tariffs)
    ensures DirectCharges(TakenBefore(entries, job.route, |job.route|), job, eng) == DirectCharges(entries, job, eng)
    ensures DirectSkips(TakenBefore(entries, job.route, |job.route|), job) == DirectSkips(entries, job)
  {
    if entries != [] {
      var n := |job.route|;
      var front, last := entries[..|entries| - 1], entries[|entries| - 1];
      assert last in entries;
      TakenBeforeMembers(front, job.route, n);
      DirectOfMatched(front, job, eng);
      var taken := TakenBefore(front, job.route, n);
      if MatchesBefore(last, job.route, n) {
        assert TakenBefore(entries, job.route, n) == taken + [last];
        assert (taken + [last])[..|taken|] == taken;
      } else {
        NothingFromUnmatched(last, job, eng);
        assert TakenBefore(entries, job.route, n) == taken;
      }
    }
  }

  ghost predicate PricesEntries(entries: seq<RateEntry>, job: Job, eng: Engine, price: Pricer) {
    forall e :: e in entries ==> price(e) == PriceOf(job, e, eng)
  }

  lemma PricerPrices(entries: seq<RateEntry>, job: Job, eng: Engine, price: Pricer)
    requires Prices(price, job, eng)
    ensures PricesEntries(entries, job, eng, price)
  {
    forall e | e in entries
      ensures price(e) == PriceOf(job, e, eng)
    {
    }
  }

  /**
   Refinement: a successful simulation applies exactly the entries whose line item applies to
   the whole route, each once and with the line item's own price; the only entries reported as
   skipped are location entries whose location is not on the route.
   */
  lemma {:induction false} SimulationRefinesDirectPricing(
    res: RouteResult, entries: seq<RateEntry>, job: Job, eng: Engine, price: Pricer)
    requires Prices(price, job, eng) && IsSimulationOf(Ok(res), entries, job.route, price)
    requires DistinctEntries(entries) && AreProjections(entries, job.tariffs)
    ensures multiset(res.applied) == multiset(DirectCharges(entries, job, eng))
    ensures multiset(res.skipped) == multiset(DirectSkips(entries, job))
  {
    var visited, taken := Visited(entries, job.route, |job.route|), TakenBefore(entries, job.route, |job.route|);
    PricerPrices(entries, job, eng, price);
    VisitedMembers(entries, job.route);
    TakenBeforeMembers(entries, job.route, |job.route|);
    VisitedOnce(entries, job.route, |job.route|);
    assert forall e :: e in taken ==> e in multiset(visited);
    OutcomePermutation(visited, taken, price);
    OutcomeIsDirect(taken, job, eng, price);
    DirectOfMatched(entries, job, eng);
  }

  /** Each charge is attributed to the first segment that its entry matches, which is segment 0 for location entries. */
  lemma {:induction false} ChargedInFirstMatch(
    res: RouteResult, n: nat, entries: seq<RateEntry>, job: Job, eng: Engine, price: Pricer)
    requires Prices(price, job, eng) && IsSimulationOf(Ok(res), entries, job.route, price)
    requires DistinctEntries(entries) && AreProjections(entries, job.tariffs) && n < |job.route|
    ensures AreProjections(TakenBy(entries, job.route, n), job.tariffs)
    ensures multiset(Conservation.ChargesIn(res.segments[n].providers))
      == multiset(DirectCharges(TakenBy(entries, job.route, n), job, eng))
    ensures res.segments[n].skipped == DirectSkips(TakenBy(entries, job.route, n), job)
  {
    var es := TakenBy(entries, job.route, n);
    TakenByMembers(entries, job.route, n);
    ClaimedIsTaken(entries, job.route, n);
    PricerPrices(entries, job, eng, price);
    assert IsSegmentOf(res.segments[n], n, entries, job.route, price);
    OutcomeIsDirect(es, job, eng, price);
    Conservation.BreakdownIsPermutation(res.segments[n].providers, ChargesOf(es, price));
  }

  lemma {:induction false} TakenByMembers(entries: seq<RateEntry>, route: Route, n: nat)
    requires n < |route|
    ensures forall e :: e in TakenBy(entries, route, n) <==> e in entries && FirstMatches(e, route, n)
  {
    if entries != [] {
      TakenByMembers(entries[..|entries| - 1], route, n);
      assert entries == entries[..|entries| - 1] + [entries[|entries| - 1]];
    }
  }

  /** A simulation fails exactly when some entry that matches a segment has a tariff that cannot be priced. */
  lemma {:induction false} SimulationFailsIff(
    r: Result<RouteResult, SimulationError>, entries: seq<RateEntry>, job: Job, eng: Engine, price: Pricer)
    requires Prices(price, job, eng) && IsSimulationOf(r, entries, job.route, price)
    requires DistinctEntries(entries) && AreProjections(entries, job.tariffs)
    ensures r.Err? <==> exists e :: e in entries && MatchesSome(e, job.route) && CannotPrice(e, job, eng)
  {
    VisitedMembers(entries, job.route);
    PricerPrices(entries, job, eng, price);
    forall e | e in entries
      ensures price(e).Err? <==> CannotPrice(e, job, eng)
    {
      PriceOfProjection(e, job, eng);
    }
  }

  lemma {:induction false} DirectChargesMembers(es: seq<RateEntry>, job: Job, eng: Engine)
    requires AreProjections(es, job.tariffs)
    ensures forall ch :: ch in DirectCharges(es, job, eng) <==> exists e :: e in es && ch in DirectCharge(e, job, eng)
  {
    if es != [] {
      var front, last := es[..|es| - 1], es[|es| - 1];
      assert last in es && forall e :: e in es <==> e in front || e == last;
      DirectChargesMembers(front, job, eng);
    }
  }

  /** The applied charges are the direct charges of the entries. */
  lemma {:induction false} AppliedAreDirect(
    res: RouteResult, entries: seq<RateEntry>, job: Job, eng: Engine, price: Pricer)
    requires Prices(price, job, eng) && IsSimulationOf(Ok(res), entries, job.route, price)
    requires DistinctEntries(entries) && AreProjections(entries, job.tariffs)
    ensures forall ch :: ch in res.applied <==> exists e :: e in entries && ch in DirectCharge(e, job, eng)
  {
    SimulationRefinesDirectPricing(res, entries, job, eng, price);
    DirectChargesMembers(entries, job, eng);
    assert forall ch :: ch in res.applied <==> ch in multiset(res.applied);
    assert forall ch :: ch in DirectCharges(entries, job, eng) <==> ch in multiset(DirectCharges(entries, job, eng));
  }

  lemma DirectChargeIsOwn(e: RateEntry, job: Job, eng: Engine)
    requires IsProjection(e, job.tariffs)
    ensures forall ch :: ch in DirectCharge(e, job, eng) ==> ch.entryId == e.id
  {
  }

  lemma FlatDirectCharge(e: RateEntry, job: Job, eng: Engine)
    requires IsProjection(e, job.tariffs) && ItemOf(e, job.tariffs).logic.Flat?
    ensures DirectCharge(e, job, eng)
      == if !ItemOf(e, job.tariffs).scope.IsApplicable(job.route) then [] else [FlatCharge(e, job)]
  {
  }

  /** The item's own unit price times the quantity. */
  ghost function FlatCharge(e: RateEntry, job: Job): SimulatedCharge
    requires IsProjection(e, job.tariffs) && ItemOf(e, job.tariffs).logic.Flat?
  {
    SimulatedCharge(
      e.id, e.chargeCode, e.category, e.providerId,
      ItemOf(e, job.tariffs).logic.amount.Multiply(job.quantity))
  }

  lemma {:induction false} ChargesOfEntry(
    res: RouteResult, e: RateEntry, entries: seq<RateEntry>, job: Job, eng: Engine, price: Pricer)
    requires Prices(price, job, eng) && IsSimulationOf(Ok(res), entries, job.route, price)
    requires DistinctEntries(entries) && AreProjections(entries, job.tariffs) && e in entries
    ensures forall ch :: ch in res.applied && ch.entryId == e.id <==> ch in DirectCharge(e, job, eng)
  {
    AppliedAreDirect(res, entries, job, eng, price);
    DirectChargeIsOwn(e, job, eng);
    forall ch | ch in res.applied && ch.entryId == e.id
      ensures ch in DirectCharge(e, job, eng)
    {
      var other :| other in entries && ch in DirectCharge(other, job, eng);
      DirectChargeIsOwn(other, job, eng);
      SameIdSameEntry(entries, e, other);
    }
  }

  /**
   In a successful simulation, an entry whose line item is flat is charged the item's unit price
   times the quantity if the item applies to the route, and not at all otherwise.
   */
  lemma {:induction false} FlatItemIsChargedByQuantity(
    res: RouteResult, e: RateEntry, entries: seq<RateEntry>, job: Job, eng: Engine, price: Pricer)
    requires Prices(price, job, eng) && IsSimulationOf(Ok(res), entries, job.route, price)
    requires DistinctEntries(entries) && AreProjections(entries, job.tariffs)
    requires e in entries && ItemOf(e, job.tariffs).logic.Flat?
    ensures forall ch :: ch in res.applied && ch.entryId == e.id <==>
      ItemOf(e, job.tariffs).scope.IsApplicable(job.route) && ch == FlatCharge(e, job)
  {
    ChargesOfEntry(res, e, entries, job, eng, price);
    FlatDirectCharge(e, job, eng);
  }

  lemma SameQuantityIff(x: real, y: real, quantity: real)
    requires quantity > 0.0
    ensures x * quantity == y * quantity <==> x == y
  {
    if x * quantity == y * quantity {
      assert (x - y) * quantity == 0.0;
    }
  }

  /** The charge that the price shown by the entry leads one to expect. */
  ghost function ShownCharge(e: RateEntry, job: Job): SimulatedCharge {
    SimulatedCharge(e.id, e.chargeCode, e.category, e.providerId, e.unitPrice.Multiply(job.quantity))
  }

  lemma ShownIsFlatChargeIff(e: RateEntry, job: Job)
    requires IsProjection(e, job.tariffs) && job.quantity > 0.0
    requires ItemOf(e, job.tariffs).logic.Flat? && ShowsPriceOf(e, ItemOf(e, job.tariffs))
    ensures ShownCharge(e, job) == FlatCharge(e, job) <==>
      HasFourDecimals(ItemOf(e, job.tariffs).logic.amount.amount)
  {
    var item := ItemOf(e, job.tariffs);
    ShownPriceIsExactIff(e, item);
    SameQuantityIff(e.unitPrice.amount, item.logic.amount.amount, job.quantity);
  }

  /**
   A flat item that applies to the route is charged the price that its stored entry shows, times
   the quantity, exactly when the item's price has four decimals.
   */
  lemma {:induction false} ShownPriceIsChargedIff(
    res: RouteResult, e: RateEntry, entries: seq<RateEntry>, job: Job, eng: Engine, price: Pricer)
    requires Prices(price, job, eng) && IsSimulationOf(Ok(res), entries, job.route, price)
    requires DistinctEntries(entries) && AreProjections(entries, job.tariffs) && job.quantity > 0.0
    requires e in entries && ItemOf(e, job.tariffs).logic.Flat? && ShowsPriceOf(e, ItemOf(e, job.tariffs))
    requires ItemOf(e, job.tariffs).scope.IsApplicable(job.route)
    ensures ShownCharge(e, job) in res.applied <==> HasFourDecimals(ItemOf(e, job.tariffs).logic.amount.amount)
  {
    FlatItemIsChargedByQuantity(res, e, entries, job, eng, price);
    ShownIsFlatChargeIff(e, job);
    assert ShownCharge(e, job).entryId == e.id;
  }

  // ---------------------------------------------------------------- the order of entries

  /** Entries with distinct IDs still have distinct IDs in another order. */
  lemma DistinctPermutation(a: seq<RateEntry>, b: seq<RateEntry>)
    requires DistinctEntries(a) && multiset(a) == multiset(b)
    ensures DistinctEntries(b)
  {
    var key := (e: RateEntry) => e.id;
    assert DistinctBy(a, key);
    DistinctByPermutation(a, b, key);
    assert forall i :: 0 <= i < |b| ==> key(b[i]) == b[i].id;
  }

  ghost function TakenOne(e: RateEntry, route: Route, n: nat): seq<RateEntry>
    requires n < |route|
  {
    if FirstMatches(e, route, n) then [e] else []
  }

  lemma {:induction false} TakenCollects(entries: seq<RateEntry>, route: Route, n: nat)
    requires n < |route|
    ensures TakenBy(entries, route, n) == Collect(entries, e => TakenOne(e, route, n))
  {
    if entries != [] {
      TakenCollects(entries[..|entries| - 1], route, n);
    }
  }

  lemma TakenPermutation(a: seq<RateEntry>, b: seq<RateEntry>, route: Route, n: nat)
    requires multiset(a) == multiset(b) && n < |route|
    ensures multiset(TakenBy(a, route, n)) == multiset(TakenBy(b, route, n))
  {
    TakenCollects(a, route, n);
    TakenCollects(b, route, n);
    CollectPermutation(a, b, e => TakenOne(e, route, n));
  }

  ghost function TakenEarlier(e: RateEntry, route: Route, n: nat): seq<RateEntry>
    requires n <= |route|
  {
    if MatchesBefore(e, route, n) then [e] else []
  }

  lemma {:induction false} TakenBeforeCollects(entries: seq<RateEntry>, route: Route, n: nat)
    requires n <= |route|
    ensures TakenBefore(entries, route, n) == Collect(entries, e => TakenEarlier(e, route, n))
  {
    if entries != [] {
      TakenBeforeCollects(entries[..|entries| - 1], route, n);
    }
  }

  lemma VisitedPermutation(a: seq<RateEntry>, b: seq<RateEntry>, route: Route, n: nat)
    requires DistinctEntries(a) && DistinctEntries(b) && multiset(a) == multiset(b) && n <= |route|
    ensures multiset(Visited(a, route, n)) == multiset(Visited(b, route, n))
  {
    VisitedOnce(a, route, n);
    VisitedOnce(b, route, n);
    TakenBeforeCollects(a, route, n);
    TakenBeforeCollects(b, route, n);
    CollectPermutation(a, b, e => TakenEarlier(e, route, n));
  }

  lemma FailsIffUnpriced(
    r: Result<RouteResult, SimulationError>, entries: seq<RateEntry>, route: Route, price: Pricer)
    requires IsSimulationOf(r, entries, route, price)
    ensures r.Err? <==> !AllPriced(Visited(entries, route, |route|), price)
  {
  }

  lemma PricedPermutation(a: seq<RateEntry>, b: seq<RateEntry>, price: Pricer)
    requires multiset(a) == multiset(b)
    ensures AllPriced(a, price) <==> AllPriced(b, price)
  {
    SameMembers(a, b);
  }

  /** Whether a simulation fails does not depend on the order of the entries, which a load leaves open. */
  lemma {:induction false} FailureIgnoresOrder(
    r: Result<RouteResult, SimulationError>, r': Result<RouteResult, SimulationError>,
    a: seq<RateEntry>, b: seq<RateEntry>, route: Route, price: Pricer)
    requires IsSimulationOf(r, a, route, price) && IsSimulationOf(r', b, route, price)
    requires DistinctEntries(a) && multiset(a) == multiset(b)
    ensures r.Err? <==> r'.Err?
  {
    DistinctPermutation(a, b);
    VisitedPermutation(a, b, route, |route|);
    PricedPermutation(Visited(a, route, |route|), Visited(b, route, |route|), price);
    FailsIffUnpriced(r, a, route, price);
    FailsIffUnpriced(r', b, route, price);
  }

  /** Nor do the charges, the skips, or the total in any currency. */
  lemma {:induction false} OutcomeIgnoresOrder(
    res: RouteResult, res': RouteResult, a: seq<RateEntry>, b: seq<RateEntry>, route: Route, price: Pricer, c: string)
    requires IsSimulationOf(Ok(res), a, route, price) && IsSimulationOf(Ok(res'), b, route, price)
    requires DistinctEntries(a) && multiset(a) == multiset(b)
    ensures multiset(res.applied) == multiset(res'.applied)
    ensures multiset(res.skipped) == multiset(res'.skipped)
    ensures SumIn(Listed(res.totals), c) == SumIn(Listed(res'.totals), c)
  {
    DistinctPermutation(a, b);
    VisitedPermutation(a, b, route, |route|);
    OutcomePermutation(Visited(a, route, |route|), Visited(b, route, |route|), price);
    SimulationSums(res, res'.applied, a, route, price, c);
    SimulationSums(res', res'.applied, b, route, price, c);
  }

  /** Nor does the segment that a charge or a skip belongs to. */
  lemma {:induction false} SegmentIgnoresOrder(
    res: RouteResult, res': RouteResult, n: nat, a: seq<RateEntry>, b: seq<RateEntry>, route: Route, price: Pricer)
    requires IsSimulationOf(Ok(res), a, route, price) && IsSimulationOf(Ok(res'), b, route, price)
    requires DistinctEntries(a) && multiset(a) == multiset(b) && n < |route|
    ensures multiset(Conservation.ChargesIn(res.segments[n].providers))
      == multiset(Conservation.ChargesIn(res'.segments[n].providers))
    ensures multiset(res.segments[n].skipped) == multiset(res'.segments[n].skipped)
  {
    DistinctPermutation(a, b);
    TakenPermutation(a, b, route, n);
    ClaimedIsTaken(a, route, n);
    ClaimedIsTaken(b, route, n);
    assert IsSegmentOf(res.segments[n], n, a, route, price) && IsSegmentOf(res'.segments[n], n, b, route, price);
    OutcomePermutation(Claimed(a, route, n), Claimed(b, route, n), price);
    Conservation.BreakdownIsPermutation(res.segments[n].providers, ChargesOf(Claimed(a, route, n), price));
    Conservation.BreakdownIsPermutation(res'.segments[n].providers, ChargesOf(Claimed(b, route, n), price));
  }

  /** The same tariffs, with their line items in whatever order a load returns them. */
  ghost predicate SameTariffs(a: map<Id, Tariff>, b: map<Id, Tariff>) {
    a.Keys == b.Keys && forall t :: t in a ==>
      b[t] == a[t].(items := b[t].items) && multiset(a[t].items) == multiset(b[t].items)
  }

  lemma DistinctItemsPermutation(a: seq<LineItem>, b: seq<LineItem>)
    requires DistinctItems(a) && multiset(a) == multiset(b)
    ensures DistinctItems(b)
  {
    var key := (item: LineItem) => item.id;
    assert DistinctBy(a, key);
    DistinctByPermutation(a, b, key);
    assert forall i :: 0 <= i < |b| ==> key(b[i]) == b[i].id;
  }

  lemma {:induction false} ResultIgnoresItemOrder(
    a: seq<LineItem>, b: seq<LineItem>, id: Id, ctx: ShipmentContext, eng: Engine)
    requires DistinctItems(a) && multiset(a) == multiset(b) && !AnyFails(a, ctx, eng) && !AnyFails(b, ctx, eng)
    ensures FindApplied(Applied(a, ctx, eng), id) == FindApplied(Applied(b, ctx, eng), id)
    ensures FindSkipped(Skipped(a, ctx), id) == FindSkipped(Skipped(b, ctx), id)
  {
    SameMembers(a, b);
    DistinctItemsPermutation(a, b);
    if item :| item in a && item.id == id {
      assert item in b && !Fails(item, ctx, eng);
      PresentItem(a, item, ctx, eng);
      PresentItem(b, item, ctx, eng);
    } else {
      AbsentItem(a, id, ctx, eng);
      assert forall i :: 0 <= i < |b| ==> b[i] in a;
      AbsentItem(b, id, ctx, eng);
    }
  }

  /** No entry is priced differently when line items come back in another order. */
  lemma {:induction false} PriceIgnoresItemOrder(e: RateEntry, job: Job, tariffs: map<Id, Tariff>, eng: Engine)
    requires SameTariffs(job.tariffs, tariffs)
    requires e.tariffId in job.tariffs ==> DistinctItems(job.tariffs[e.tariffId].items)
    ensures PriceOf(job.(tariffs := tariffs), e, eng) == PriceOf(job, e, eng)
  {
    if e.tariffId in job.tariffs {
      var a, b := job.tariffs[e.tariffId].items, tariffs[e.tariffId].items;
      SameMembers(a, b);
      assert a == [] <==> b == [] by {
        assert |multiset(a)| == |multiset(b)|;
      }
      assert AnyFails(a, ContextOf(job), eng) <==> AnyFails(b, ContextOf(job), eng);
      if !AnyFails(a, ContextOf(job), eng) {
        ResultIgnoresItemOrder(a, b, e.lineItemId, ContextOf(job), eng);
      }
    }
  }

  // ---------------------------------------------------------------- a rate that covers one tariff

  /** The entries project the items of one tariff, one for one. */
  ghost predicate Covers(entries: seq<RateEntry>, t: Tariff, tariffs: map<Id, Tariff>) {
    && t.id in tariffs && tariffs[t.id] == t && DistinctItems(t.items)
    && |entries| == |t.items|
    && forall i :: 0 <= i < |entries| ==> Projects(entries[i], t.id, t.items[i])
  }

  lemma CoverProjects(entries: seq<RateEntry>, t: Tariff, tariffs: map<Id, Tariff>)
    requires Covers(entries, t, tariffs)
    ensures AreProjections(entries, tariffs)
    ensures forall i :: 0 <= i < |entries| ==> ItemOf(entries[i], tariffs) == t.items[i]
  {
    forall i | 0 <= i < |entries|
      ensures IsProjection(entries[i], tariffs) && ItemOf(entries[i], tariffs) == t.items[i]
    {
      assert t.items[i] in t.items;
      var item := ItemOf(entries[i], tariffs);
      var j :| 0 <= j < |t.items| && t.items[j] == item;
    }
  }

  lemma CoverOne(e: RateEntry, item: LineItem, applied: seq<AppliedItem>, job: Job, eng: Engine)
    requires IsProjection(e, job.tariffs) && ItemOf(e, job.tariffs) == item
    ensures AppliedAmounts(applied) + Amounts(DirectCharge(e, job, eng))
      == AppliedAmounts(
           if Applies(item, ContextOf(job), eng) then applied + [AppliedFrom(item, ContextOf(job), eng)] else applied)
  {
  }

  ghost function ItemsOf(entries: seq<RateEntry>, tariffs: map<Id, Tariff>): seq<LineItem>
    requires AreProjections(entries, tariffs)
  {
    seq(|entries|, i requires 0 <= i < |entries| => ItemOf(entries[i], tariffs))
  }

  lemma CoverStep(entries: seq<RateEntry>, e: RateEntry, items: seq<LineItem>, job: Job, eng: Engine)
    requires AreProjections(entries, job.tariffs) && IsProjection(e, job.tariffs)
    requires Amounts(DirectCharges(entries, job, eng)) == AppliedAmounts(Applied(items, ContextOf(job), eng))
    ensures AreProjections(entries + [e], job.tariffs)
    ensures Amounts(DirectCharges(entries + [e], job, eng))
      == AppliedAmounts(Applied(items + [ItemOf(e, job.tariffs)], ContextOf(job), eng))
  {
    var item := ItemOf(e, job.tariffs);
    assert (entries + [e])[..|entries|] == entries;
    AppliedStep(items, item, ContextOf(job), eng);
    CoverOne(e, item, Applied(items, ContextOf(job), eng), job, eng);
    AmountsAppend(DirectCharges(entries, job, eng), DirectCharge(e, job, eng));
  }

  lemma ItemsOfMore(entries: seq<RateEntry>, e: RateEntry, tariffs: map<Id, Tariff>)
    requires AreProjections(entries, tariffs) && AreProjections(entries + [e], tariffs) && IsProjection(e, tariffs)
    ensures ItemsOf(entries + [e], tariffs) == ItemsOf(entries, tariffs) + [ItemOf(e, tariffs)]
  {
  }

  lemma {:induction false} CoverAmounts(entries: seq<RateEntry>, job: Job, eng: Engine)
    requires AreProjections(entries, job.tariffs)
    ensures Amounts(DirectCharges(entries, job, eng))
      == AppliedAmounts(Applied(ItemsOf(entries, job.tariffs), ContextOf(job), eng))
  {
    if entries != [] {
      var front, last := entries[..|entries| - 1], entries[|entries| - 1];
      assert entries == front + [last];
      ItemsOfMore(front, last, job.tariffs);
      CoverAmounts(front, job, eng);
      CoverStep(front, last, ItemsOf(front, job.tariffs), job, eng);
    }
  }

  lemma CoverTotal(entries: seq<RateEntry>, t: Tariff, job: Job, eng: Engine)
    requires Covers(entries, t, job.tariffs) && AreProjections(entries, job.tariffs)
    ensures Amounts(DirectCharges(entries, job, eng)) == AppliedAmounts(Applied(t.items, ContextOf(job), eng))
  {
    CoverProjects(entries, t, job.tariffs);
    CoverAmounts(entries, job, eng);
    assert ItemsOf(entries, job.tariffs) == t.items;
  }

  lemma CalculationSums(calculation: Calculation, items: seq<LineItem>, ctx: ShipmentContext, eng: Engine, c: string)
    requires IsCalculationOf(Ok(calculation), items, ctx, eng)
    ensures SumIn(Listed(calculation.totals), c) == SumIn(AppliedAmounts(Applied(items, ctx, eng)), c)
  {
    ListingConserves(calculation.totals, AppliedAmounts(calculation.applied), c);
  }

  lemma SimulationSums(
    res: RouteResult, charges: seq<SimulatedCharge>, entries: seq<RateEntry>, route: Route, price: Pricer, c: string)
    requires IsSimulationOf(Ok(res), entries, route, price) && multiset(res.applied) == multiset(charges)
    ensures SumIn(Listed(res.totals), c) == SumIn(Amounts(charges), c)
  {
    Conservation.AmountsPermutation(res.applied, charges);
    SumInPermutation(Amounts(res.applied), Amounts(charges), c);
    ListingConserves(res.totals, Amounts(res.applied), c);
  }

  /** Simulating a rate that covers a tariff gives, in every currency, the total of one direct pass over the tariff. */
  lemma CoveringRateTotalsAgree(
    res: RouteResult, calculation: Calculation, entries: seq<RateEntry>, t: Tariff,
    job: Job, eng: Engine, price: Pricer, c: string)
    requires Prices(price, job, eng) && IsSimulationOf(Ok(res), entries, job.route, price)
    requires DistinctEntries(entries) && Covers(entries, t, job.tariffs)
    requires IsCalculationOf(Ok(calculation), t.items, ContextOf(job), eng)
    ensures SumIn(Listed(res.totals), c) == SumIn(Listed(calculation.totals), c)
  {
    CoverProjects(entries, t, job.tariffs);
    SimulationRefinesDirectPricing(res, entries, job, eng, price);
    CoverTotal(entries, t, job, eng);
    SimulationSums(res, DirectCharges(entries, job, eng), entries, job.route, price, c);
    CalculationSums(calculation, t.items, ContextOf(job), eng, c);
  }
}
