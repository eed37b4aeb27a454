/**
 Simulating the cost of a route with a rate: segment by segment, every matching entry is priced
 once through the tariff engine, and charges are rolled up by segment, provider and currency.
 */
module Simulation {
  import opened Grouping
  import opened Permutations
  import opened Pricing
  import opened Rates
  import opened Shared
  import opened Totals

  // ---------------------------------------------------------------- the calculator

  /** The stored tariffs and one cargo moving over one route. */
  datatype Job = Job(tariffs: map<Id, Tariff>, route: Route, quantity: real, weight: real, volume: real)

  datatype ChargeResult = ChargeResult(
    lineItemId: Id, chargeCode: string, category: string, amount: Money, skipped: bool)

  datatype CalculatorError = MissingTariff | InvalidCargo | CalculationFailed | MissingLineItem

  function RequestOf(job: Job): CalculationRequest {
    CalculationRequest(
      job.route,
      CargoSummary(job.quantity, job.weight, job.volume, ChargeableWeight(job.weight, job.volume), []),
      NO_CONDITIONS)
  }

  function ContextOf(job: Job): ShipmentContext {
    ToShipmentContext(RequestOf(job))
  }

  ghost function FindApplied(items: seq<AppliedItem>, id: Id): Option<AppliedItem> {
    if items == [] then None
    else if FindApplied(items[..|items| - 1], id).Some? then FindApplied(items[..|items| - 1], id)
    else if items[|items| - 1].lineItemId == id then Some(items[|items| - 1])
    else None
  }

  ghost function FindSkipped(items: seq<SkippedItem>, id: Id): Option<SkippedItem> {
    if items == [] then None
    else if FindSkipped(items[..|items| - 1], id).Some? then FindSkipped(items[..|items| - 1], id)
    else if items[|items| - 1].lineItemId == id then Some(items[|items| - 1])
    else None
  }

  ghost function Extracted(applied: seq<AppliedItem>, skipped: seq<SkippedItem>, id: Id)
    : Result<ChargeResult, CalculatorError>
  {
    match (FindApplied(applied, id), FindSkipped(skipped, id))
    case (Some(a), _) => Ok(ChargeResult(id, a.chargeCode, a.category, a.amount, false))
    case (None, Some(s)) => Ok(ChargeResult(id, s.chargeCode, s.category, ZeroMoney("USD"), true))
    case (None, None) => Err(MissingLineItem)
  }

  /** The price of one line item: its whole tariff is calculated, and the item's result is picked out. */
  ghost function ChargeOf(job: Job, tariffId: Id, lineItemId: Id, eng: Engine): Result<ChargeResult, CalculatorError> {
    if tariffId !in job.tariffs then Err(MissingTariff)
    else if !RequestOf(job).summary.Valid() then Err(InvalidCargo)
    else
      var items := job.tariffs[tariffId].items;
      if items == [] || AnyFails(items, ContextOf(job), eng) then Err(CalculationFailed)
      else Extracted(Applied(items, ContextOf(job), eng), Skipped(items, ContextOf(job)), lineItemId)
  }

  method ExtractResult(c: Calculation, id: Id) returns (r: Result<ChargeResult, CalculatorError>)
    ensures r == Extracted(c.applied, c.skipped, id)
  {
    for i := 0 to |c.applied|
      invariant FindApplied(c.applied[..i], id).None?
    {
      var item := c.applied[i];
      assert c.applied[..i + 1][..i] == c.applied[..i];
      if item.lineItemId == id {
        FirstFoundStays(c.applied, i + 1, id);
        return Ok(ChargeResult(item.lineItemId, item.chargeCode, item.category, item.amount, false));
      }
    }
    assert c.applied[..|c.applied|] == c.applied;
    for i := 0 to |c.skipped|
      invariant FindSkipped(c.skipped[..i], id).None?
    {
      var item := c.skipped[i];
      assert c.skipped[..i + 1][..i] == c.skipped[..i];
      if item.lineItemId == id {
        FirstSkippedStays(c.skipped, i + 1, id);
        return Ok(ChargeResult(item.lineItemId, item.chargeCode, item.category, ZeroMoney("USD"), true));
      }
    }
    assert c.skipped[..|c.skipped|] == c.skipped;
    return Err(MissingLineItem);
  }

  lemma {:induction false} FirstFoundStays(items: seq<AppliedItem>, n: nat, id: Id)
    requires n <= |items| && FindApplied(items[..n], id).Some?
    ensures FindApplied(items, id) == FindApplied(items[..n], id)
  {
    if n == |items| {
      assert items[..n] == items;
    } else {
      assert items[..|items| - 1][..n] == items[..n];
      FirstFoundStays(items[..|items| - 1], n, id);
    }
  }

  lemma {:induction false} FirstSkippedStays(items: seq<SkippedItem>, n: nat, id: Id)
    requires n <= |items| && FindSkipped(items[..n], id).Some?
    ensures FindSkipped(items, id) == FindSkipped(items[..n], id)
  {
    if n == |items| {
      assert items[..n] == items;
    } else {
      assert items[..|items| - 1][..n] == items[..n];
      FirstSkippedStays(items[..|items| - 1], n, id);
    }
  }

  /** TariffCalculatorAdapter.Calculate. */
  method CalculateItem(job: Job, tariffId: Id, lineItemId: Id, eng: Engine)
    returns (r: Result<ChargeResult, CalculatorError>)
    ensures r == ChargeOf(job, tariffId, lineItemId, eng)
  {
    if tariffId !in job.tariffs {
      return Err(MissingTariff);
    }
    var req := RequestOf(job);
    if !req.summary.Valid() {
      return Err(InvalidCargo);
    }
    var c := CalculateCharges(job.tariffs[tariffId], req, eng);
    if c.Err? {
      return Err(CalculationFailed);
    }
    r := ExtractResult(c.value, lineItemId);
  }

  // ---------------------------------------------------------------- results

  datatype SimulatedCharge = SimulatedCharge(
    entryId: Id, chargeCode: string, category: string, providerId: Id, amount: Money)

  datatype SimulatedSkipped = SimulatedSkipped(entryId: Id, chargeCode: string, category: string)

  datatype ProviderGroup = ProviderGroup(
    providerId: Id, charges: seq<SimulatedCharge>, subtotal: seq<CurrencyTotal>)

  datatype SegmentResult = SegmentResult(
    index: nat, segment: Segment, providers: seq<ProviderGroup>,
    skipped: seq<SimulatedSkipped>, totals: seq<CurrencyTotal>, hasEntries: bool)

  datatype RouteResult = RouteResult(
    applied: seq<SimulatedCharge>, skipped: seq<SimulatedSkipped>, totals: seq<CurrencyTotal>,
    isAvailable: bool, segments: seq<SegmentResult>)

  datatype SimulationError = ChargeFailed(entryId: Id)

  ghost function Amounts(charges: seq<SimulatedCharge>): seq<Money> {
    seq(|charges|, i requires 0 <= i < |charges| => charges[i].amount)
  }

  // ---------------------------------------------------------------- which entries a segment takes

  ghost function Ids(entries: seq<RateEntry>): set<Id> {
    set e | e in entries :: e.id
  }

  /** The entries of `matched` whose ID is neither in `seen` nor borne by an earlier one. */
  ghost function Unseen(matched: seq<RateEntry>, seen: set<Id>): seq<RateEntry> {
    if matched == [] then []
    else
      var front, last := matched[..|matched| - 1], matched[|matched| - 1];
      Unseen(front, seen) + if last.id in seen || last.id in Ids(front) then [] else [last]
  }

  /** The IDs processed before segment `n`. */
  ghost function SeenBefore(entries: seq<RateEntry>, route: Route, n: nat): set<Id>
    requires n <= |route|
  {
    if n == 0 then {} else SeenBefore(entries, route, n - 1) + Ids(Matching(entries, route[n - 1]))
  }

  /** The entries that segment `n` processes. */
  ghost function Claimed(entries: seq<RateEntry>, route: Route, n: nat): seq<RateEntry>
    requires n < |route|
  {
    Unseen(Matching(entries, route[n]), SeenBefore(entries, route, n))
  }

  /** The entries processed before segment `n`, in processing order. */
  ghost function Visited(entries: seq<RateEntry>, route: Route, n: nat): seq<RateEntry>
    requires n <= |route|
  {
    if n == 0 then [] else Visited(entries, route, n - 1) + Claimed(entries, route, n - 1)
  }

  /** The calculator as the simulation sees it: an answer for every entry. */
  type Pricer = RateEntry -> Result<ChargeResult, CalculatorError>

  ghost function PriceOf(job: Job, e: RateEntry, eng: Engine): Result<ChargeResult, CalculatorError> {
    ChargeOf(job, e.tariffId, e.lineItemId, eng)
  }

  /** `price` is the tariff engine at work on `job`. */
  ghost predicate Prices(price: Pricer, job: Job, eng: Engine) {
    forall e {:trigger PriceOf(job, e, eng)} :: price(e) == PriceOf(job, e, eng)
  }

  ghost function PricerOf(job: Job, eng: Engine): (price: Pricer)
    ensures Prices(price, job, eng)
  {
    e => PriceOf(job, e, eng)
  }

  ghost predicate AllPriced(es: seq<RateEntry>, price: Pricer) {
    forall e :: e in es ==> price(e).Ok?
  }

  ghost function ChargeFrom(e: RateEntry, r: ChargeResult): seq<SimulatedCharge> {
    if r.skipped then [] else [SimulatedCharge(e.id, r.chargeCode, r.category, e.providerId, r.amount)]
  }

  ghost function SkipFrom(e: RateEntry, r: ChargeResult): seq<SimulatedSkipped> {
    if r.skipped then [SimulatedSkipped(e.id, r.chargeCode, r.category)] else []
  }

  /** The charges of the priced, not skipped entries of `es`, in order. */
  ghost function ChargesOf(es: seq<RateEntry>, price: Pricer): seq<SimulatedCharge>
    requires AllPriced(es, price)
  {
    if es == [] then []
    else ChargesOf(es[..|es| - 1], price) + ChargeFrom(es[|es| - 1], price(es[|es| - 1]).value)
  }

  ghost function SkipsOf(es: seq<RateEntry>, price: Pricer): seq<SimulatedSkipped>
    requires AllPriced(es, price)
  {
    if es == [] then []
    else SkipsOf(es[..|es| - 1], price) + SkipFrom(es[|es| - 1], price(es[|es| - 1]).value)
  }

  ghost function ByProvider(charges: seq<SimulatedCharge>): seq<(Id, SimulatedCharge)> {
    seq(|charges|, i requires 0 <= i < |charges| => (charges[i].providerId, charges[i]))
  }

  /** One group for each provider in order of first occurrence, with its charges in order and their totals. */
  ghost predicate IsProviderBreakdown(groups: seq<ProviderGroup>, charges: seq<SimulatedCharge>) {
    var ps := ByProvider(charges);
    && |groups| == |FirstKeys(ps)|
    && forall i :: 0 <= i < |groups| ==>
      && groups[i].providerId == FirstKeys(ps)[i]
      && groups[i].charges == WithKey(ps, FirstKeys(ps)[i])
      && ListsTotalsOf(groups[i].subtotal, Amounts(groups[i].charges))
  }

  ghost predicate IsSegmentOf(r: SegmentResult, n: nat, entries: seq<RateEntry>, route: Route, price: Pricer) {
    && n < |route|
    && var es := Claimed(entries, route, n);
    && AllPriced(es, price)
    && var charges := ChargesOf(es, price);
    && r.index == n && r.segment == route[n]
    && IsProviderBreakdown(r.providers, charges)
    && r.skipped == SkipsOf(es, price)
    && ListsTotalsOf(r.totals, Amounts(charges))
    && r.hasEntries == (charges != [])
  }

  ghost predicate AreSegmentsOf(
    segments: seq<SegmentResult>, entries: seq<RateEntry>, route: Route, price: Pricer)
  {
    forall n :: 0 <= n < |segments| ==> IsSegmentOf(segments[n], n, entries, route, price)
  }

  /** `id` belongs to the first of the entries `es` that cannot be priced. */
  ghost predicate FirstToFail(id: Id, es: seq<RateEntry>, price: Pricer) {
    exists i :: 0 <= i < |es| && es[i].id == id && price(es[i]).Err? && AllPriced(es[..i], price)
  }

  /** What a simulation may answer; only the order in which totals are listed is left open. */
  ghost predicate IsSimulationOf(
    r: Result<RouteResult, SimulationError>, entries: seq<RateEntry>, route: Route, price: Pricer)
  {
    match r
    case Err(ChargeFailed(id)) => FirstToFail(id, Visited(entries, route, |route|), price)
    case Ok(res) =>
      var es := Visited(entries, route, |route|);
      && AllPriced(es, price)
      && res.applied == ChargesOf(es, price)
      && res.skipped == SkipsOf(es, price)
      && ListsTotalsOf(res.totals, Amounts(res.applied))
      && res.isAvailable == (res.applied != [])
      && |res.segments| == |route|
      && AreSegmentsOf(res.segments, entries, route, price)
  }

  // ---------------------------------------------------------------- grouping by provider

  /** `groups`, indexed by `order`, group the keyed charges `ps`. */
  ghost predicate AreGroupsOf(groups: seq<ProviderGroup>, order: map<Id, nat>, ps: seq<(Id, SimulatedCharge)>) {
    && |groups| == |FirstKeys(ps)|
    && (forall i :: 0 <= i < |groups| ==>
          groups[i].providerId == FirstKeys(ps)[i] && groups[i].charges == WithKey(ps, FirstKeys(ps)[i]))
    && (forall k :: k in order <==> k in FirstKeys(ps))
    && forall k :: k in order ==> order[k] < |groups| && groups[order[k]].providerId == k
  }

  lemma StartGroup(
    groups: seq<ProviderGroup>, order: map<Id, nat>, ps: seq<(Id, SimulatedCharge)>, k: Id, c: SimulatedCharge)
    requires AreGroupsOf(groups, order, ps) && k !in order
    ensures AreGroupsOf(groups + [ProviderGroup(k, [c], [])], order[k := |groups|], ps + [(k, c)])
  {
    FirstKeysAreTheKeys(ps);
    AddKeyed(ps, k, c);
    var qs, keys, now := ps + [(k, c)], FirstKeys(ps), groups + [ProviderGroup(k, [c], [])];
    assert FirstKeys(qs) == keys + [k];
    forall i | 0 <= i < |now|
      ensures now[i].providerId == FirstKeys(qs)[i] && now[i].charges == WithKey(qs, FirstKeys(qs)[i])
    {
      if i < |groups| {
        assert keys[i] in keys;
        assert WithKey(qs, keys[i]) == WithKey(ps, keys[i]);
      } else {
        assert WithKey(ps, k) + [c] == [c];
      }
    }
  }

  lemma GrowGroup(
    groups: seq<ProviderGroup>, order: map<Id, nat>, ps: seq<(Id, SimulatedCharge)>, k: Id, c: SimulatedCharge)
    requires AreGroupsOf(groups, order, ps) && k in order
    ensures var g := groups[order[k]];
      AreGroupsOf(groups[order[k] := g.(charges := g.charges + [c])], order, ps + [(k, c)])
  {
    FirstKeysAreTheKeys(ps);
    AddKeyed(ps, k, c);
  }

  method GroupChargesByProvider(charges: seq<SimulatedCharge>) returns (groups: seq<ProviderGroup>)
    ensures IsProviderBreakdown(groups, charges)
  {
    groups := [];
    var order: map<Id, nat> := map[];
    ghost var ps := ByProvider(charges);
    for n := 0 to |charges|
      invariant AreGroupsOf(groups, order, ps[..n])
    {
      var charge := charges[n];
      var k := charge.providerId;
      assert ps[..n + 1] == ps[..n] + [(k, charge)];
      if k !in order {
        StartGroup(groups, order, ps[..n], k, charge);
        order := order[k := |groups|];
        groups := groups + [ProviderGroup(k, [charge], [])];
      } else {
        GrowGroup(groups, order, ps[..n], k, charge);
        var idx := order[k];
        groups := groups[idx := groups[idx].(charges := groups[idx].charges + [charge])];
      }
    }
    assert ps[..|charges|] == ps;
    groups := FillSubtotals(groups);
  }

  method FillSubtotals(grouped: seq<ProviderGroup>) returns (groups: seq<ProviderGroup>)
    ensures |groups| == |grouped|
    ensures forall i :: 0 <= i < |groups| ==>
      && groups[i].providerId == grouped[i].providerId && groups[i].charges == grouped[i].charges
      && ListsTotalsOf(groups[i].subtotal, Amounts(groups[i].charges))
  {
    groups := grouped;
    for n := 0 to |groups|
      invariant |groups| == |grouped|
      invariant forall i :: 0 <= i < |groups| ==>
        groups[i].providerId == grouped[i].providerId && groups[i].charges == grouped[i].charges
      invariant forall i :: 0 <= i < n ==> ListsTotalsOf(groups[i].subtotal, Amounts(groups[i].charges))
    {
      var subtotal := SumSimulated(groups[n].charges);
      groups := groups[n := groups[n].(subtotal := subtotal)];
    }
  }

  method SumSimulated(charges: seq<SimulatedCharge>) returns (totals: seq<CurrencyTotal>)
    ensures ListsTotalsOf(totals, Amounts(charges))
  {
    totals := SumCharges(seq(|charges|, i requires 0 <= i < |charges| => charges[i].amount));
  }

  // ---------------------------------------------------------------- simulating

  ghost function ChargeOfEntry(e: RateEntry, price: Pricer): seq<SimulatedCharge> {
    if price(e).Ok? then ChargeFrom(e, price(e).value) else []
  }

  ghost function SkipOfEntry(e: RateEntry, price: Pricer): seq<SimulatedSkipped> {
    if price(e).Ok? then SkipFrom(e, price(e).value) else []
  }

  lemma {:induction false} OutcomeCollects(es: seq<RateEntry>, price: Pricer)
    requires AllPriced(es, price)
    ensures ChargesOf(es, price) == Collect(es, e => ChargeOfEntry(e, price))
    ensures SkipsOf(es, price) == Collect(es, e => SkipOfEntry(e, price))
  {
    if es != [] {
      OutcomeCollects(es[..|es| - 1], price);
    }
  }

  lemma VisitedIsPriced(a: seq<RateEntry>, b: seq<RateEntry>, price: Pricer)
    requires AllPriced(a, price) && AllPriced(b, price)
    ensures AllPriced(a + b, price)
    ensures ChargesOf(a + b, price) == ChargesOf(a, price) + ChargesOf(b, price)
    ensures SkipsOf(a + b, price) == SkipsOf(a, price) + SkipsOf(b, price)
  {
    OutcomeCollects(a, price);
    OutcomeCollects(b, price);
    OutcomeCollects(a + b, price);
    CollectAppend(a, b, e => ChargeOfEntry(e, price));
    CollectAppend(a, b, e => SkipOfEntry(e, price));
  }

  lemma AmountsAppend(a: seq<SimulatedCharge>, b: seq<SimulatedCharge>)
    ensures Amounts(a + b) == Amounts(a) + Amounts(b)
  {
  }

  lemma UnseenStep(matched: seq<RateEntry>, i: nat, seen: set<Id>)
    requires i < |matched|
    ensures Unseen(matched[..i + 1], seen)
      == if matched[i].id in seen + Ids(matched[..i]) then Unseen(matched[..i], seen)
         else Unseen(matched[..i], seen) + [matched[i]]
    ensures seen + Ids(matched[..i + 1])
      == if matched[i].id in seen + Ids(matched[..i]) then seen + Ids(matched[..i])
         else seen + Ids(matched[..i]) + {matched[i].id}
  {
    assert matched[..i + 1][..i] == matched[..i];
    assert forall x :: x in matched[..i + 1] <==> x in matched[..i] || x == matched[i];
  }

  lemma {:induction false} UnseenGrows(matched: seq<RateEntry>, n: nat, seen: set<Id>)
    requires n <= |matched|
    ensures Unseen(matched[..n], seen) <= Unseen(matched, seen)
    decreases |matched| - n
  {
    if n == |matched| {
      assert matched[..n] == matched;
    } else {
      UnseenStep(matched, n, seen);
      UnseenGrows(matched, n + 1, seen);
    }
  }

  method PriceEntry(e: RateEntry, job: Job, eng: Engine, ghost price: Pricer)
    returns (r: Result<ChargeResult, CalculatorError>)
    requires Prices(price, job, eng)
    ensures r == price(e)
  {
    r := CalculateItem(job, e.tariffId, e.lineItemId, eng);
    assert r == PriceOf(job, e, eng);
  }

  /** `applied` and `skipped` are the outcome of processing the entries `es`, and `sums` their totals. */
  ghost predicate Rolled(
    es: seq<RateEntry>, applied: seq<SimulatedCharge>, skipped: seq<SimulatedSkipped>, price: Pricer)
  {
    AllPriced(es, price) && applied == ChargesOf(es, price) && skipped == SkipsOf(es, price)
  }

  lemma RollSkipped(
    es: seq<RateEntry>, applied: seq<SimulatedCharge>, skipped: seq<SimulatedSkipped>, e: RateEntry, price: Pricer)
    requires Rolled(es, applied, skipped, price) && price(e).Ok? && price(e).value.skipped
    ensures var r := price(e).value;
      Rolled(es + [e], applied, skipped + [SimulatedSkipped(e.id, r.chargeCode, r.category)], price)
  {
    assert (es + [e])[..|es|] == es;
  }

  lemma RollApplied(
    es: seq<RateEntry>, applied: seq<SimulatedCharge>, skipped: seq<SimulatedSkipped>, e: RateEntry, price: Pricer)
    requires Rolled(es, applied, skipped, price) && price(e).Ok? && !price(e).value.skipped
    ensures var r := price(e).value;
      Rolled(
        es + [e], applied + [SimulatedCharge(e.id, r.chargeCode, r.category, e.providerId, r.amount)], skipped, price)
  {
    assert (es + [e])[..|es|] == es;
  }

  /** The first entry of a segment that cannot be priced. */
  lemma SegmentStopsAt(matched: seq<RateEntry>, i: nat, seen: set<Id>, price: Pricer)
    requires i < |matched| && matched[i].id !in seen + Ids(matched[..i])
    requires AllPriced(Unseen(matched[..i], seen), price) && price(matched[i]).Err?
    ensures FirstToFail(matched[i].id, Unseen(matched, seen), price)
  {
    UnseenStep(matched, i, seen);
    UnseenGrows(matched, i + 1, seen);
    var es, all := Unseen(matched[..i], seen), Unseen(matched, seen);
    assert all[..|es|] == es && all[|es|] == matched[i];
  }

  /** What fails first in a segment, after earlier segments were priced, fails first on the route. */
  lemma RouteStopsAt(entries: seq<RateEntry>, route: Route, n: nat, id: Id, price: Pricer)
    requires n < |route| && AllPriced(Visited(entries, route, n), price)
    requires FirstToFail(id, Claimed(entries, route, n), price)
    ensures FirstToFail(id, Visited(entries, route, |route|), price)
  {
    VisitedGrows(entries, route, n + 1);
    StopsLater(
      Visited(entries, route, n), Claimed(entries, route, n), Visited(entries, route, |route|), id, price);
  }

  lemma StopsLater(front: seq<RateEntry>, part: seq<RateEntry>, all: seq<RateEntry>, id: Id, price: Pricer)
    requires AllPriced(front, price) && FirstToFail(id, part, price) && front + part <= all
    ensures FirstToFail(id, all, price)
  {
    var i :| 0 <= i < |part| && part[i].id == id && price(part[i]).Err? && AllPriced(part[..i], price);
    assert all[..|front| + i] == front + part[..i] && all[|front| + i] == part[i];
  }

  lemma TotalsGrow(sums: map<string, Money>, before: seq<Money>, applied: seq<SimulatedCharge>, c: SimulatedCharge)
    requires IsTotalOf(sums, before + Amounts(applied))
    ensures IsTotalOf(Accumulate(sums, c.amount), before + Amounts(applied + [c]))
  {
    AccumulateKeepsTotals(sums, before + Amounts(applied), c.amount);
    assert before + Amounts(applied + [c]) == before + Amounts(applied) + [c.amount];
  }

  /** Prices the matched entries of one segment that no earlier segment has processed. */
  method SimulateSegment(
    matched: seq<RateEntry>, seen: set<Id>, totals: map<string, Money>, ghost before: seq<Money>,
    job: Job, eng: Engine, ghost price: Pricer)
    returns (failed: Option<Id>, applied: seq<SimulatedCharge>, skipped: seq<SimulatedSkipped>,
             processed: set<Id>, sums: map<string, Money>)
    requires IsTotalOf(totals, before) && Prices(price, job, eng)
    ensures failed.Some? ==> FirstToFail(failed.value, Unseen(matched, seen), price)
    ensures failed.None? ==>
      && Rolled(Unseen(matched, seen), applied, skipped, price)
      && processed == seen + Ids(matched)
      && IsTotalOf(sums, before + Amounts(applied))
  {
    failed, applied, skipped, processed, sums := None, [], [], seen, totals;
    assert before + Amounts([]) == before;
    for i := 0 to |matched|
      invariant Rolled(Unseen(matched[..i], seen), applied, skipped, price)
      invariant processed == seen + Ids(matched[..i])
      invariant IsTotalOf(sums, before + Amounts(applied))
    {
      var entry := matched[i];
      UnseenStep(matched, i, seen);
      ghost var es := Unseen(matched[..i], seen);
      if entry.id in processed {
        continue;
      }
      processed := processed + {entry.id};
      var r := PriceEntry(entry, job, eng, price);
      if r.Err? {
        SegmentStopsAt(matched, i, seen, price);
        failed := Some(entry.id);
        return;
      }
      if r.value.skipped {
        RollSkipped(es, applied, skipped, entry, price);
        skipped := skipped + [SimulatedSkipped(entry.id, r.value.chargeCode, r.value.category)];
        continue;
      }
      var charge := SimulatedCharge(
        entry.id, r.value.chargeCode, r.value.category, entry.providerId, r.value.amount);
      RollApplied(es, applied, skipped, entry, price);
      TotalsGrow(sums, before, applied, charge);
      applied := applied + [charge];
      sums := Accumulate(sums, charge.amount);
    }
    assert matched[..|matched|] == matched;
  }

  method BuildSegment(
    n: nat, seg: Segment, applied: seq<SimulatedCharge>, skipped: seq<SimulatedSkipped>,
    ghost entries: seq<RateEntry>, ghost route: Route, ghost price: Pricer)
    returns (r: SegmentResult)
    requires n < |route| && seg == route[n]
    requires Rolled(Claimed(entries, route, n), applied, skipped, price)
    ensures IsSegmentOf(r, n, entries, route, price)
  {
    var providers := GroupChargesByProvider(applied);
    var totals := SumSimulated(applied);
    r := SegmentResult(n, seg, providers, skipped, totals, |applied| > 0);
  }

  lemma SegmentsGrow(
    segments: seq<SegmentResult>, r: SegmentResult, entries: seq<RateEntry>, route: Route, price: Pricer)
    requires AreSegmentsOf(segments, entries, route, price) && IsSegmentOf(r, |segments|, entries, route, price)
    ensures AreSegmentsOf(segments + [r], entries, route, price)
  {
  }

  lemma RollMany(
    a: seq<RateEntry>, applied: seq<SimulatedCharge>, skipped: seq<SimulatedSkipped>,
    b: seq<RateEntry>, applied': seq<SimulatedCharge>, skipped': seq<SimulatedSkipped>, price: Pricer)
    requires Rolled(a, applied, skipped, price) && Rolled(b, applied', skipped', price)
    ensures Rolled(a + b, applied + applied', skipped + skipped', price)
  {
    VisitedIsPriced(a, b, price);
  }

  /** simulateRoute. */
  method SimulateRoute(rate: Rate, job: Job, eng: Engine, ghost price: Pricer)
    returns (r: Result<RouteResult, SimulationError>)
    requires Prices(price, job, eng)
    ensures IsSimulationOf(r, rate.entries, job.route, price)
  {
    var route := job.route;
    var applied: seq<SimulatedCharge> := [];
    var skipped: seq<SimulatedSkipped> := [];
    if |route| == 0 {
      return Ok(RouteResult(applied, skipped, [], false, []));
    }
    var sums: map<string, Money> := map[];
    var processed: set<Id> := {};
    var segments: seq<SegmentResult> := [];
    for n := 0 to |route|
      invariant processed == SeenBefore(rate.entries, route, n)
      invariant Rolled(Visited(rate.entries, route, n), applied, skipped, price)
      invariant IsTotalOf(sums, Amounts(applied))
      invariant |segments| == n && AreSegmentsOf(segments, rate.entries, route, price)
    {
      var seg := route[n];
      var matched := rate.FindEntriesForRoute(seg);
      var failed, segApplied, segSkipped, seen, totals :=
        SimulateSegment(matched, processed, sums, Amounts(applied), job, eng, price);
      if failed.Some? {
        RouteStopsAt(rate.entries, route, n, failed.value, price);
        return Err(ChargeFailed(failed.value));
      }
      RollMany(Visited(rate.entries, route, n), applied, skipped,
        Claimed(rate.entries, route, n), segApplied, segSkipped, price);
      AmountsAppend(applied, segApplied);
      applied, skipped := applied + segApplied, skipped + segSkipped;
      processed, sums := seen, totals;
      var segment := BuildSegment(n, seg, segApplied, segSkipped, rate.entries, route, price);
      SegmentsGrow(segments, segment, rate.entries, route, price);
      segments := segments + [segment];
    }
    var totals := ListTotals(sums, Amounts(applied));
    r := Ok(RouteResult(applied, skipped, totals, |applied| > 0, segments));
  }

  lemma {:induction false} VisitedGrows(entries: seq<RateEntry>, route: Route, n: nat)
    requires n <= |route|
    ensures Visited(entries, route, n) <= Visited(entries, route, |route|)
    decreases |route| - n
  {
    if n < |route| {
      VisitedGrows(entries, route, n + 1);
    }
  }
}
