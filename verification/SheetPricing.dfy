/**
 From a weight-band sheet to the price of a shipment: a row's line item, stored in a tariff, is
 charged by the row that contains the weight, in the currency of the first row of its group.
 */
module SheetPricing {
  import opened CellScopes
  import ChargedItems
  import opened DecimalText
  import opened FormulaLanguage
  import opened Grouping
  import opened Pricing
  import opened Rates
  import opened Refinement
  import opened Shared
  import opened Simulation
  import SimulationTheorems
  import opened StrategyBuilder
  import opened WeightBandRows
  import opened WeightBands

  // ---------------------------------------------------------------- sheet items as line items

  /** The pricing attributes of an emitted item. */
  function PricingAttrs(item: BandItem): Attrs {
    Attrs(None, None, Some(AText(item.currency, None)), Some(AText(item.formula, None)), None)
  }

  /** The emitted item as the input of the tariff registration. */
  function ItemInputOf(item: BandItem): LineItemInput {
    LineItemInput(item.key.0, item.category, ScopeAttrs(item.scope), "EXPRESSION", PricingAttrs(item))
  }

  /** The line item is what the registration makes of the emitted item. */
  ghost predicate IsBuiltFrom(li: LineItem, item: BandItem) {
    Drafted(ItemInputOf(item)).Ok? && Drafted(ItemInputOf(item)).value.WithId(li.id) == li
  }

  lemma BuiltLogic(li: LineItem, item: BandItem)
    requires IsBuiltFrom(li, item)
    ensures li.logic == Expression(item.formula, item.currency)
    ensures li.chargeCode == item.key.0 && li.category == item.category
    ensures BuiltScope(ScopeAttrs(item.scope)) == Ok(li.scope)
  {
  }

  /** The rows of a group are in ascending order of weight, and their amounts are not negative. */
  ghost predicate WellFormed(rows: seq<BandRow>) {
    && rows != [] && Ascending(Ranges(BandsOf(rows)))
    && forall row :: row in rows ==> Value(row.amount.value) >= 0.0
  }

  ghost function RowPrice(row: BandRow, w: real, currency: string): Money {
    Money(Times(w, Value(row.amount.value)), currency)
  }

  /** Row `k` of a group is the one that charges weight `w`. */
  ghost predicate RowCharges(rows: seq<BandRow>, k: nat, w: real) {
    k < |rows| && ChargedBy(Ranges(BandsOf(rows)), k, w)
  }

  lemma BuiltItemPrice(
    item: BandItem, key: Key, rows: seq<BandRow>, li: LineItem, ctx: ShipmentContext, eng: Engine, k: nat)
    requires IsItemOf(item, key, rows) && IsBuiltFrom(li, item) && item.currency != ""
    requires WellFormed(rows) && HonoursAt(eng, item.formula, ExpressionEnv(ctx))
    requires "weight" !in ctx.attributes && ctx.weight >= 0.0 && RowCharges(rows, k, ctx.weight)
    ensures Evaluate(li.logic, ctx, eng) == Ok(RowPrice(rows[k], ctx.weight, item.currency))
  {
    var bands := BandsOf(rows);
    BuiltLogic(li, item);
    forall b | b in bands
      ensures Value(b.amount) >= 0.0
    {
      var i :| 0 <= i < |bands| && bands[i] == b;
      assert rows[i] in rows;
    }
    AscendingBandsPrice(bands, item.currency, ctx, eng, k);
  }

  // ---------------------------------------------------------------- rows and their items

  /** Every band row of a converted sheet has an item, and is one of the rows the item is made of. */
  lemma EveryRowHasItsItem(items: seq<BandItem>, rows: seq<Row>, row: Row) returns (i: nat, k: nat)
    requires IsConversionOf(items, rows) && row in rows && row.IsBand()
    ensures i < |items| && items[i].key == row.Key()
    ensures IsItemOf(items[i], row.Key(), RowsWith(rows, row.Key()))
    ensures k < |RowsWith(rows, row.Key())| && RowsWith(rows, row.Key())[k] == row
  {
    KeyedHas(rows, row);
    FirstKeysAreTheKeys(Keyed(rows));
    assert (row.Key(), row).0 in FirstKeys(Keyed(rows));
    i :| 0 <= i < |FirstKeys(Keyed(rows))| && FirstKeys(Keyed(rows))[i] == row.Key();
    WithKeyHas(Keyed(rows), row.Key(), row);
    k :| 0 <= k < |RowsWith(rows, row.Key())| && RowsWith(rows, row.Key())[k] == row;
  }

  lemma {:induction false} KeyedHas(rows: seq<Row>, row: Row)
    requires row in rows && row.IsBand()
    ensures (row.Key(), row) in Keyed(rows)
  {
    if row != rows[|rows| - 1] {
      KeyedHas(rows[..|rows| - 1], row);
    }
  }

  lemma {:induction false} WithKeyHas(ps: seq<(Key, BandRow)>, key: Key, row: BandRow)
    requires (key, row) in ps
    ensures row in WithKey(ps, key)
  {
    if (key, row) != ps[|ps| - 1] {
      WithKeyHas(ps[..|ps| - 1], key, row);
    }
  }

  lemma {:induction false} KeyedKeys(ps: seq<(Key, BandRow)>, key: Key)
    ensures forall row :: row in WithKey(ps, key) ==> (key, row) in ps
  {
    if ps != [] {
      KeyedKeys(ps[..|ps| - 1], key);
      assert ps == ps[..|ps| - 1] + [ps[|ps| - 1]];
    }
  }

  lemma {:induction false} KeyedBands(rows: seq<Row>)
    ensures forall p :: p in Keyed(rows) ==> p.0 == p.1.Key()
  {
    if rows != [] {
      KeyedBands(rows[..|rows| - 1]);
    }
  }

  /** The item of a row has the row's charge code and scope: the group's key determines both. */
  lemma {:induction false} RowAndItemAgree(items: seq<BandItem>, rows: seq<Row>, row: Row, item: BandItem)
    requires IsConversionOf(items, rows) && row in rows && row.IsBand()
    requires item in items && item.key == row.Key()
    ensures item.key.0 == row.chargeCode && item.scope == row.scope.value
  {
    var i, k := EveryRowHasItsItem(items, rows, row);
    SameKeySameItem(items, rows, items[i], item);
    var group := RowsWith(rows, row.Key());
    KeyedKeys(Keyed(rows), row.Key());
    assert (row.Key(), group[0]) in Keyed(rows);
    KeyedBands(rows);
  }

  lemma RowContaining(rows: seq<BandRow>, k: nat, w: real)
    requires k < |rows| && RangeOf(rows[k].Band()).Contains(w)
    ensures RowCharges(rows, k, w)
  {
    assert Ranges(BandsOf(rows))[k] == RangeOf(rows[k].Band());
  }

  // ---------------------------------------------------------------- what is charged in the end

  lemma {:induction false} AppliedHas(items: seq<LineItem>, li: LineItem, ctx: ShipmentContext, eng: Engine)
    requires li in items && Applies(li, ctx, eng)
    ensures AppliedFrom(li, ctx, eng) in Applied(items, ctx, eng)
  {
    if li != items[|items| - 1] {
      AppliedHas(items[..|items| - 1], li, ctx, eng);
    }
  }

  lemma {:induction false} SkippedHas(items: seq<LineItem>, li: LineItem, ctx: ShipmentContext)
    requires li in items && !li.scope.IsApplicable(ctx.route)
    ensures SkippedItem(li.id, li.chargeCode, li.category) in Skipped(items, ctx)
  {
    if li != items[|items| - 1] {
      SkippedHas(items[..|items| - 1], li, ctx);
    }
  }

  /** The route has the segment that the cells of the row name, or stops at the place that they name. */
  ghost predicate RowCovers(row: BandRow, route: Route) {
    match row.scope.value
    case TransportCells(origin, destination, mode) =>
      mode.Some? && Segment(origin, destination, mode.value) in route
    case LocationCells(location, _) => location in ChargedItems.Stops(route)
  }

  lemma BuiltCoversIff(row: BandRow, route: Route)
    requires BuiltScope(ScopeAttrs(row.scope.value)).Ok?
    ensures BuiltScope(ScopeAttrs(row.scope.value)).value.IsApplicable(route) <==> RowCovers(row, route)
  {
    ChargedItems.ApplicableIffServed(BuiltScope(ScopeAttrs(row.scope.value)).value, route);
  }

  /**
   From the sheet to Tariff.CalculateCharges: where the scope of a band row applies to the route, a
   successful calculation charges its line item, under the row's charge code, the weight times the
   amount of the row that contains the weight; elsewhere it skips the line item.
   */
  lemma {:induction false} SheetRowIsCharged(
    sheet: seq<Row>, items: seq<BandItem>, row: Row, item: BandItem, li: LineItem,
    calculation: Calculation, tariff: seq<LineItem>, ctx: ShipmentContext, eng: Engine)
    requires IsConversionOf(items, sheet) && row in sheet && row.IsBand()
    requires item in items && item.key == row.Key() && item.currency != "" && IsBuiltFrom(li, item)
    requires WellFormed(RowsWith(sheet, row.Key())) && HonoursAt(eng, item.formula, ExpressionEnv(ctx))
    requires "weight" !in ctx.attributes && ctx.weight >= 0.0 && RangeOf(row.Band()).Contains(ctx.weight)
    requires IsCalculationOf(Ok(calculation), tariff, ctx, eng) && li in tariff
    ensures RowCovers(row, ctx.route) ==>
      AppliedItem(li.id, row.chargeCode, item.category, RowPrice(row, ctx.weight, item.currency))
        in calculation.applied
    ensures !RowCovers(row, ctx.route) ==>
      SkippedItem(li.id, row.chargeCode, item.category) in calculation.skipped
  {
    SheetRowPrice(sheet, items, row, item, li, ctx, eng);
    RowAndItemAgree(items, sheet, row, item);
    BuiltLogic(li, item);
    BuiltCoversIff(row, ctx.route);
    if li.scope.IsApplicable(ctx.route) {
      AppliedHas(tariff, li, ctx, eng);
    } else {
      SkippedHas(tariff, li, ctx);
    }
  }

  lemma {:induction false} SheetRowPrice(
    sheet: seq<Row>, items: seq<BandItem>, row: Row, item: BandItem, li: LineItem, ctx: ShipmentContext, eng: Engine)
    requires IsConversionOf(items, sheet) && row in sheet && row.IsBand()
    requires item in items && item.key == row.Key() && item.currency != "" && IsBuiltFrom(li, item)
    requires WellFormed(RowsWith(sheet, row.Key())) && HonoursAt(eng, item.formula, ExpressionEnv(ctx))
    requires "weight" !in ctx.attributes && ctx.weight >= 0.0 && RangeOf(row.Band()).Contains(ctx.weight)
    ensures Evaluate(li.logic, ctx, eng) == Ok(RowPrice(row, ctx.weight, item.currency))
  {
    var i, k := EveryRowHasItsItem(items, sheet, row);
    SameKeySameItem(items, sheet, items[i], item);
    var rows := RowsWith(sheet, row.Key());
    RowContaining(rows, k, ctx.weight);
    BuiltItemPrice(item, row.Key(), rows, li, ctx, eng, k);
  }

  lemma SameKeySameItem(items: seq<BandItem>, sheet: seq<Row>, a: BandItem, b: BandItem)
    requires IsConversionOf(items, sheet) && a in items && b in items && a.key == b.key
    ensures a == b
  {
    FirstKeysAreTheKeys(Keyed(sheet));
    var i :| 0 <= i < |items| && items[i] == a;
    var j :| 0 <= j < |items| && items[j] == b;
    assert FirstKeys(Keyed(sheet))[i] == a.key && FirstKeys(Keyed(sheet))[j] == b.key;
  }

  /** And on to the simulation of a rate: the entry of that line item is charged the same price. */
  lemma {:induction false} SheetRowIsSimulated(
    sheet: seq<Row>, items: seq<BandItem>, row: Row, item: BandItem, e: RateEntry,
    res: RouteResult, entries: seq<RateEntry>, job: Job, eng: Engine, price: Pricer)
    requires IsConversionOf(items, sheet) && row in sheet && row.IsBand()
    requires item in items && item.key == row.Key() && item.currency != ""
    requires WellFormed(RowsWith(sheet, row.Key())) && HonoursAt(eng, item.formula, ExpressionEnv(ContextOf(job)))
    requires Prices(price, job, eng) && IsSimulationOf(Ok(res), entries, job.route, price)
    requires DistinctEntries(entries) && AreProjections(entries, job.tariffs) && e in entries
    requires IsBuiltFrom(ItemOf(e, job.tariffs), item) && RowCovers(row, job.route)
    requires job.weight >= 0.0 && RangeOf(row.Band()).Contains(job.weight)
    ensures SimulatedCharge(e.id, row.chargeCode, item.category, e.providerId, RowPrice(row, job.weight, item.currency))
      in res.applied
  {
    var li, ctx := ItemOf(e, job.tariffs), ContextOf(job);
    JobContext(job);
    SheetRowPrice(sheet, items, row, item, li, ctx, eng);
    RowAndItemAgree(items, sheet, row, item);
    BuiltLogic(li, item);
    BuiltCoversIff(row, job.route);
    SimulationTheorems.AppliedAreDirect(res, entries, job, eng, price);
    PricedCharge(e, RowPrice(row, job.weight, item.currency), job, eng);
  }

  lemma JobContext(job: Job)
    ensures ContextOf(job).route == job.route && ContextOf(job).weight == job.weight
    ensures "weight" !in ContextOf(job).attributes
  {
  }

  lemma PricedCharge(e: RateEntry, m: Money, job: Job, eng: Engine)
    requires IsProjection(e, job.tariffs) && ItemOf(e, job.tariffs).scope.IsApplicable(job.route)
    requires Evaluate(ItemOf(e, job.tariffs).logic, ContextOf(job), eng) == Ok(m)
    ensures SimulatedCharge(e.id, e.chargeCode, e.category, e.providerId, m) in DirectCharge(e, job, eng)
  {
    JobContext(job);
  }

  // ---------------------------------------------------------------- currencies

  /** No shipment is ever charged for the item in another currency than the row names. */
  ghost predicate ChargedInOwnCurrency(row: BandRow, li: LineItem, eng: Engine) {
    forall ctx :: Evaluate(li.logic, ctx, eng).Ok? ==> Evaluate(li.logic, ctx, eng).value.currency == row.currency
  }

  lemma ItemCurrency(item: BandItem, li: LineItem, ctx: ShipmentContext, eng: Engine)
    requires IsBuiltFrom(li, item) && Evaluate(li.logic, ctx, eng).Ok?
    ensures Evaluate(li.logic, ctx, eng).value.currency == item.currency
  {
    BuiltLogic(li, item);
  }

  /**
   For an item that is ever priced at all, every row is charged in its own currency exactly when
   all rows name the same one.
   */
  lemma {:induction false} OwnCurrencyIff(
    item: BandItem, key: Key, rows: seq<BandRow>, li: LineItem, ctx: ShipmentContext, eng: Engine)
    requires IsItemOf(item, key, rows) && IsBuiltFrom(li, item) && Evaluate(li.logic, ctx, eng).Ok?
    ensures (forall row :: row in rows ==> ChargedInOwnCurrency(row, li, eng))
      <==> forall a, b :: a in rows && b in rows ==> a.currency == b.currency
  {
    ItemCurrency(item, li, ctx, eng);
    forall row | row in rows
      ensures ChargedInOwnCurrency(row, li, eng) <==> row.currency == item.currency
    {
      forall other: ShipmentContext | Evaluate(li.logic, other, eng).Ok?
        ensures Evaluate(li.logic, other, eng).value.currency == item.currency
      {
        ItemCurrency(item, li, other, eng);
      }
    }
    assert rows[0] in rows && rows[0].currency == item.currency;
  }

  const DOCK: LocationId := [0, 0, 0, 0, 0, 0, 0, 0, 0, 0, 0, 0, 0, 0, 0, 0]
  const AT_DOCK := LocationCells(DOCK, None)
  const USD_ROW: BandRow :=
    Row(false, "OFT", "", "FREIGHT", Some(AT_DOCK), Some(Decimal(2, 0)), Decimal(0, 0), Decimal(10, 0), "USD")
  const EUR_ROW: BandRow :=
    Row(false, "OFT", "", "FREIGHT", Some(AT_DOCK), Some(Decimal(3, 0)), Decimal(10, 0), Decimal(20, 0), "EUR")

  /** What the sheet of these two rows is converted to. */
  ghost function TwoRowItem(): BandItem {
    BandItem(USD_ROW.Key(), "", "FREIGHT", AT_DOCK, FormulaText(BandsOf([USD_ROW, EUR_ROW])), "USD")
  }

  /** Two band rows with the same key make one group. */
  lemma TwoRowGroup(a: BandRow, b: BandRow, key: Key)
    requires a.Key() == key == b.Key()
    ensures FirstKeys(Keyed([a, b])) == [key] && RowsWith([a, b], key) == [a, b]
  {
    var sheet: seq<Row> := [a, b];
    var empty: seq<(Key, BandRow)>, noRows: seq<BandRow> := [], [];
    var one, two: seq<(Key, BandRow)> := [(key, a)], [(key, a), (key, b)];
    KeyedStep(sheet, 0);
    KeyedStep(sheet, 1);
    assert sheet[..0] == [] && sheet[..2] == sheet;
    assert Keyed(sheet[..1]) == empty + one == one && Keyed(sheet) == one + [(key, b)] == two;
    AddKeyed(empty, key, a);
    AddKeyed(one, key, b);
    assert empty + [(key, a)] == one && WithKey(empty, key) == noRows;
    assert noRows + [a] == [a] && [a] + [b] == [a, b];
  }

  lemma TwoRowSheet()
    ensures RowsWith([USD_ROW, EUR_ROW], USD_ROW.Key()) == [USD_ROW, EUR_ROW]
    ensures IsConversionOf([TwoRowItem()], [USD_ROW, EUR_ROW])
  {
    TwoRowGroup(USD_ROW, EUR_ROW, USD_ROW.Key());
  }

  lemma TwoRowRanges()
    ensures WellFormed([USD_ROW, EUR_ROW])
    ensures RangeOf(EUR_ROW.Band()) == Range(10.0, 20.0) && Value(EUR_ROW.amount.value) == 3.0
  {
    var rows: seq<BandRow> := [USD_ROW, EUR_ROW];
    assert Value(Decimal(2, 0)) == 2.0 && Value(Decimal(3, 0)) == 3.0;
    assert Value(Decimal(0, 0)) == 0.0 && Value(Decimal(10, 0)) == 10.0 && Value(Decimal(20, 0)) == 20.0;
    assert Ranges(BandsOf(rows)) == [Range(0.0, 10.0), Range(10.0, 20.0)];
  }

  /** A sheet whose second band is in euros: 15 kg, which that band contains, are charged in dollars. */
  lemma TwoCurrencySheet(li: LineItem, ctx: ShipmentContext, eng: Engine)
    requires IsBuiltFrom(li, TwoRowItem()) && HonoursAt(eng, TwoRowItem().formula, ExpressionEnv(ctx))
    requires "weight" !in ctx.attributes && ctx.weight == 15.0
    ensures IsConversionOf([TwoRowItem()], [USD_ROW, EUR_ROW])
    ensures RangeOf(EUR_ROW.Band()).Contains(ctx.weight) && EUR_ROW.currency == "EUR"
    ensures Evaluate(li.logic, ctx, eng) == Ok(Money(45.0, "USD"))
  {
    var sheet: seq<Row> := [USD_ROW, EUR_ROW];
    TwoRowSheet();
    TwoRowRanges();
    SheetRowPrice(sheet, [TwoRowItem()], EUR_ROW, TwoRowItem(), li, ctx, eng);
    assert Times(15.0, 3.0) == 45.0;
  }
}
