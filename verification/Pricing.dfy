/**
 The tariff engine: service scopes, pricing strategies, and the pass of
 Tariff.CalculateCharges over the line items of one tariff.
 */
module Pricing {
  import opened Shared
  import opened Totals

  newtype byte = x: int | 0 <= x < 256

  /** A location is a UUID kept as its 16 bytes, which is also how it is stored. */
  type LocationId = b: seq<byte> | |b| == 16 witness seq(16, _ => 0)

  datatype Segment = Segment(origin: LocationId, dest: LocationId, mode: string)

  type Route = seq<Segment>

  // ---------------------------------------------------------------- scopes

  datatype Scope =
    | LocationService(location: LocationId, serviceType: string)
    | TransportationService(origin: LocationId, destination: LocationId, mode: string)
  {
    predicate IsApplicable(route: Route) {
      match this
      case LocationService(loc, _) =>
        exists i :: 0 <= i < |route| && (route[i].origin == loc || route[i].dest == loc)
      case TransportationService(o, d, m) =>
        exists i :: 0 <= i < |route| && route[i] == Segment(o, d, m)
    }
  }

  /** ServiceScope.IsApplicable: the segments are searched one by one. */
  method AppliesTo(scope: Scope, route: Route) returns (applies: bool)
    ensures applies == scope.IsApplicable(route)
  {
    for i := 0 to |route|
      invariant !scope.IsApplicable(route[..i])
    {
      var seg := route[i];
      assert route[..i + 1] == route[..i] + [seg];
      match scope {
        case LocationService(loc, _) =>
          if seg.origin == loc {
            return true;
          }
          if seg.dest == loc {
            return true;
          }
        case TransportationService(o, d, m) =>
          if seg.origin == o && seg.dest == d && seg.mode == m {
            return true;
          }
      }
    }
    assert route[..|route|] == route;
    return false;
  }

  // ---------------------------------------------------------------- calculation context

  /** A string attribute comes with its reading as a number, if it has one. */
  datatype Attribute = Word(text: string, reading: Option<real>) | Opaque

  datatype Conditions = Conditions(
    attributes: map<string, Attribute>,
    incoterms: Option<Attribute>,
    shipDate: Option<Attribute>,
    hasSpecialRequirements: bool)

  const NO_CONDITIONS := Conditions(map[], None, None, false)

  datatype CargoSummary = CargoSummary(
    quantity: real, weight: real, volume: real, chargeable: real, containerCounts: seq<real>)
  {
    predicate Valid() {
      quantity > 0.0 && weight >= 0.0 && volume >= 0.0 && chargeable >= 0.0
    }
  }

  datatype CalculationRequest = CalculationRequest(route: Route, summary: CargoSummary, conditions: Conditions)

  datatype ShipmentContext = ShipmentContext(
    route: Route, quantity: real, weight: real, volume: real, attributes: map<string, Attribute>)

  function Sum(xs: seq<real>): real {
    if xs == [] then 0.0 else Sum(xs[..|xs| - 1]) + xs[|xs| - 1]
  }

  function Entry(key: string, a: Option<Attribute>): map<string, Attribute> {
    match a case None => map[] case Some(v) => map[key := v]
  }

  /** The conditions as attributes, of which the standard ones are written last. */
  function AttributesOf(c: Conditions, chargeable: real): map<string, Attribute> {
    c.attributes + Entry("incoterms", c.incoterms) + Entry("desiredShipDate", c.shipDate)
    + Entry("specialRequirements", if c.hasSpecialRequirements then Some(Opaque) else None)
    + Entry("chargeableWeightKG", if chargeable == 0.0 then None else Some(Word("", Some(chargeable))))
  }

  /** Containers are counted if there are any. */
  function QuantityOf(s: CargoSummary): real {
    if s.containerCounts == [] then s.quantity else Sum(s.containerCounts)
  }

  function ToShipmentContext(req: CalculationRequest): ShipmentContext {
    ShipmentContext(
      req.route, QuantityOf(req.summary), req.summary.weight, req.summary.volume,
      AttributesOf(req.conditions, req.summary.chargeable))
  }

  lemma OneMore(attrs: map<string, Attribute>, key: string, a: Attribute)
    ensures attrs[key := a] == attrs + Entry(key, Some(a))
    ensures attrs == attrs + Entry(key, None)
  {
  }

  /** The attributes of toShipmentContext. */
  method BuildAttributes(c: Conditions, chargeable: real) returns (attrs: map<string, Attribute>)
    ensures attrs == AttributesOf(c, chargeable)
  {
    attrs := c.attributes;
    attrs := Put(attrs, "incoterms", c.incoterms);
    attrs := Put(attrs, "desiredShipDate", c.shipDate);
    attrs := Put(attrs, "specialRequirements", if c.hasSpecialRequirements then Some(Opaque) else None);
    attrs := Put(attrs, "chargeableWeightKG", if chargeable == 0.0 then None else Some(Word("", Some(chargeable))));
  }

  /** Writes an attribute that is there. */
  method Put(was: map<string, Attribute>, key: string, a: Option<Attribute>) returns (attrs: map<string, Attribute>)
    ensures attrs == was + Entry(key, a)
  {
    attrs := was;
    OneMore(was, key, if a.Some? then a.value else Opaque);
    if a.Some? {
      attrs := attrs[key := a.value];
    }
  }

  /** toShipmentContext. */
  method BuildContext(req: CalculationRequest) returns (ctx: ShipmentContext)
    ensures ctx == ToShipmentContext(req)
  {
    var attrs := BuildAttributes(req.conditions, req.summary.chargeable);
    var quantity, counts := req.summary.quantity, req.summary.containerCounts;
    if |counts| > 0 {
      var total := 0.0;
      for i := 0 to |counts|
        invariant total == Sum(counts[..i])
      {
        assert counts[..i + 1][..i] == counts[..i];
        total := total + counts[i];
      }
      assert counts[..|counts|] == counts;
      quantity := total;
    }
    ctx := ShipmentContext(req.route, quantity, req.summary.weight, req.summary.volume, attrs);
  }

  // ---------------------------------------------------------------- strategies

  datatype Strategy =
    | Flat(amount: Money)
    | Expression(formula: string, currency: string)
    | Composite(steps: seq<Strategy>)

  datatype PricingError = FormulaFailed | CurrencyRequired | MixedCurrencies(mismatch: CurrencyMismatch)

  datatype EnvValue = Number(value: real) | Text(text: string) | Other

  type Env = map<string, EnvValue>

  /** The expression engine: the numeric outcome of compiling, running and converting. */
  type Engine = (string, Env) -> Option<real>

  function ChargeableWeight(weight: real, volume: real): real {
    if volume * 1000.0 > weight then volume * 1000.0 else weight
  }

  function ToEnvValue(a: Attribute): EnvValue {
    match a
    case Word(text, Some(n)) => Number(n)
    case Word(text, None) => Text(text)
    case Opaque => Other
  }

  function StandardEnv(ctx: ShipmentContext): Env {
    map["quantity" := Number(ctx.quantity),
        "weight" := Number(ctx.weight),
        "volume" := Number(ctx.volume),
        "chargeable_weight" := Number(ChargeableWeight(ctx.weight, ctx.volume))]
  }

  function ReadAttributes(attributes: map<string, Attribute>): Env {
    map k | k in attributes :: ToEnvValue(attributes[k])
  }

  /** The dynamic attributes are merged last, so they can override the standard fields. */
  function ExpressionEnv(ctx: ShipmentContext): Env {
    StandardEnv(ctx) + ReadAttributes(ctx.attributes)
  }

  lemma ReadOneMore(standard: Env, attrs: map<string, Attribute>, key: string, a: Attribute)
    ensures standard + ReadAttributes(attrs[key := a]) == (standard + ReadAttributes(attrs))[key := ToEnvValue(a)]
  {
  }

  /** buildExpressionEnv: the standard fields first, then the attributes, in the order of a map iteration. */
  method BuildExpressionEnv(ctx: ShipmentContext) returns (env: Env)
    ensures env == ExpressionEnv(ctx)
  {
    var chargeable := ctx.weight;
    var volumetric := ctx.volume * 1000.0;
    if volumetric > chargeable {
      chargeable := volumetric;
    }
    env := map["quantity" := Number(ctx.quantity), "weight" := Number(ctx.weight), "volume" := Number(ctx.volume),
               "chargeable_weight" := Number(chargeable)];
    env := MergeAttributes(env, ctx.attributes);
  }

  method MergeAttributes(standard: Env, attributes: map<string, Attribute>) returns (env: Env)
    ensures env == standard + ReadAttributes(attributes)
  {
    env := standard;
    ghost var merged: map<string, Attribute> := map[];
    var keys := attributes.Keys;
    while keys != {}
      invariant keys <= attributes.Keys && merged.Keys == attributes.Keys - keys
      invariant forall k :: k in merged ==> merged[k] == attributes[k]
      invariant env == standard + ReadAttributes(merged)
      decreases |keys|
    {
      var key :| key in keys;
      ReadOneMore(standard, merged, key, attributes[key]);
      var value: EnvValue := Other;
      if attributes[key].Word? {
        var reading := attributes[key].reading;
        value := if reading.Some? then Number(reading.value) else Text(attributes[key].text);
      }
      env := env[key := value];
      merged := merged[key := attributes[key]];
      keys := keys - {key};
    }
    assert merged == attributes;
  }

  function NewMoney(amount: real, currency: string): Result<Money, PricingError> {
    if currency == "" then Err(CurrencyRequired) else Ok(Money(amount, currency))
  }

  function EvaluateExpression(formula: string, currency: string, ctx: ShipmentContext, eng: Engine)
    : Result<Money, PricingError>
  {
    match eng(formula, ExpressionEnv(ctx))
    case None => Err(FormulaFailed)
    case Some(v) => NewMoney(if v < 0.0 then 0.0 else v, currency)
  }

  /** ExpressionStrategy.Calculate: negative results count as zero, and a currency is required. */
  method CalculateExpression(formula: string, currency: string, ctx: ShipmentContext, eng: Engine)
    returns (r: Result<Money, PricingError>)
    ensures r == EvaluateExpression(formula, currency, ctx, eng)
  {
    var env := BuildExpressionEnv(ctx);
    var output := eng(formula, env);
    if output.None? {
      return Err(FormulaFailed);
    }
    var amount := output.value;
    if amount < 0.0 {
      amount := 0.0;
    }
    if currency == "" {
      return Err(CurrencyRequired);
    }
    return Ok(Money(amount, currency));
  }

  /** The value of a pricing tree. */
  function Evaluate(s: Strategy, ctx: ShipmentContext, eng: Engine): Result<Money, PricingError>
    decreases s, 1
  {
    match s
    case Flat(amount) => Ok(amount.Multiply(ctx.quantity))
    case Expression(formula, currency) => EvaluateExpression(formula, currency, ctx, eng)
    case Composite(steps) => if steps == [] then Ok(ZeroMoney("USD")) else FoldSteps(steps, ctx, eng)
  }

  function FoldSteps(steps: seq<Strategy>, ctx: ShipmentContext, eng: Engine): Result<Money, PricingError>
    requires steps != []
    decreases steps, 0
  {
    var last := Evaluate(steps[|steps| - 1], ctx, eng);
    if |steps| == 1 then last
    else
      match FoldSteps(steps[..|steps| - 1], ctx, eng)
      case Err(e) => Err(e)
      case Ok(total) =>
        match last
        case Err(e) => Err(e)
        case Ok(m) =>
          match total.Add(m)
          case Err(e) => Err(MixedCurrencies(e))
          case Ok(sum) => Ok(sum)
  }

  /** A fold that fails on a prefix fails in the same way on the whole. */
  lemma {:induction false} FoldStopsAtError(steps: seq<Strategy>, n: nat, ctx: ShipmentContext, eng: Engine)
    requires 0 < n <= |steps|
    requires FoldSteps(steps[..n], ctx, eng).Err?
    ensures FoldSteps(steps, ctx, eng) == FoldSteps(steps[..n], ctx, eng)
  {
    if n == |steps| {
      assert steps[..n] == steps;
    } else {
      var front := steps[..|steps| - 1];
      assert front[..n] == steps[..n];
      FoldStopsAtError(front, n, ctx, eng);
    }
  }

  /** PricingStrategy.Calculate: the composite case loops over its steps and stops at the first failure. */
  method Calculate(s: Strategy, ctx: ShipmentContext, eng: Engine) returns (r: Result<Money, PricingError>)
    ensures r == Evaluate(s, ctx, eng)
    decreases s
  {
    if s.Flat? {
      return Ok(s.amount.Multiply(ctx.quantity));
    }
    if s.Expression? {
      r := CalculateExpression(s.formula, s.currency, ctx, eng);
      return;
    }
    if |s.steps| == 0 {
      return Ok(Money(0.0, "USD"));
    }
    r := Calculate(s.steps[0], ctx, eng);
    assert s.steps[..1] == [s.steps[0]];
    if r.Err? {
      FoldStopsAtError(s.steps, 1, ctx, eng);
      return;
    }
    var total := r.value;
    var i := 1;
    while i < |s.steps|
      invariant 1 <= i <= |s.steps|
      invariant FoldSteps(s.steps[..i], ctx, eng) == Ok(total)
    {
      assert s.steps[..i + 1][..i] == s.steps[..i];
      var res := Calculate(s.steps[i], ctx, eng);
      if res.Err? {
        FoldStopsAtError(s.steps, i + 1, ctx, eng);
        return res;
      }
      var sum := total.Add(res.value);
      if sum.Err? {
        FoldStopsAtError(s.steps, i + 1, ctx, eng);
        return Err(MixedCurrencies(sum.error));
      }
      total := sum.value;
      i := i + 1;
    }
    assert s.steps[..i] == s.steps;
    r := Ok(total);
  }

  // ---------------------------------------------------------------- tariffs

  datatype LineItem = LineItem(id: Id, chargeCode: string, category: string, scope: Scope, logic: Strategy)

  datatype Tariff = Tariff(
    id: Id, contractId: Id, name: string, version: nat, base: Option<Id>,
    effectiveFrom: int, effectiveTo: int, items: seq<LineItem>)

  datatype AppliedItem = AppliedItem(lineItemId: Id, chargeCode: string, category: string, amount: Money)

  datatype SkippedItem = SkippedItem(lineItemId: Id, chargeCode: string, category: string)

  datatype Calculation = Calculation(
    applied: seq<AppliedItem>, skipped: seq<SkippedItem>, totals: seq<CurrencyTotal>)

  datatype CalculationError = NoLineItems | PricingFailed(chargeCode: string, cause: PricingError)

  /** The item applies to the route and its price cannot be computed. */
  ghost predicate Fails(item: LineItem, ctx: ShipmentContext, eng: Engine) {
    item.scope.IsApplicable(ctx.route) && Evaluate(item.logic, ctx, eng).Err?
  }

  ghost predicate AnyFails(items: seq<LineItem>, ctx: ShipmentContext, eng: Engine) {
    exists item :: item in items && Fails(item, ctx, eng)
  }

  /** The charge of one item, if the item is applicable and has a price. */
  ghost function AppliedOne(item: LineItem, ctx: ShipmentContext, eng: Engine): seq<AppliedItem> {
    if item.scope.IsApplicable(ctx.route) && Evaluate(item.logic, ctx, eng).Ok? then
      [AppliedItem(item.id, item.chargeCode, item.category, Evaluate(item.logic, ctx, eng).value)]
    else []
  }

  /** The charges of the applicable items that can be priced, in item order. */
  ghost function Applied(items: seq<LineItem>, ctx: ShipmentContext, eng: Engine): seq<AppliedItem> {
    if items == [] then [] else Applied(items[..|items| - 1], ctx, eng) + AppliedOne(items[|items| - 1], ctx, eng)
  }

  ghost function Skipped(items: seq<LineItem>, ctx: ShipmentContext): seq<SkippedItem> {
    if items == [] then []
    else
      var last := items[|items| - 1];
      Skipped(items[..|items| - 1], ctx)
      + if last.scope.IsApplicable(ctx.route) then [] else [SkippedItem(last.id, last.chargeCode, last.category)]
  }

  ghost function AppliedAmounts(applied: seq<AppliedItem>): seq<Money> {
    seq(|applied|, i requires 0 <= i < |applied| => applied[i].amount)
  }

  /** What a pass over a tariff's items may answer: everything but the order of the totals is determined. */
  ghost predicate IsCalculationOf(
    r: Result<Calculation, CalculationError>, items: seq<LineItem>, ctx: ShipmentContext, eng: Engine)
  {
    match r
    case Err(NoLineItems) => items == []
    case Err(PricingFailed(code, cause)) =>
      exists i :: 0 <= i < |items| && Fails(items[i], ctx, eng) && !AnyFails(items[..i], ctx, eng)
        && code == items[i].chargeCode && cause == Evaluate(items[i].logic, ctx, eng).error
    case Ok(c) =>
      && items != []
      && !AnyFails(items, ctx, eng)
      && c.applied == Applied(items, ctx, eng)
      && c.skipped == Skipped(items, ctx)
      && ListsTotalsOf(c.totals, AppliedAmounts(c.applied))
  }

  /** Tariff.CalculateCharges. */
  method CalculateCharges(t: Tariff, req: CalculationRequest, eng: Engine)
    returns (r: Result<Calculation, CalculationError>)
    ensures IsCalculationOf(r, t.items, ToShipmentContext(req), eng)
  {
    if t.items == [] {
      return Err(NoLineItems);
    }
    var ctx := BuildContext(req);
    var applied: seq<AppliedItem> := [];
    var skipped: seq<SkippedItem> := [];
    var amounts: seq<Money> := [];
    for i := 0 to |t.items|
      invariant applied == Applied(t.items[..i], ctx, eng)
      invariant skipped == Skipped(t.items[..i], ctx)
      invariant amounts == AppliedAmounts(applied)
      invariant !AnyFails(t.items[..i], ctx, eng)
    {
      var item := t.items[i];
      assert t.items[..i + 1] == t.items[..i] + [item];
      var applies := AppliesTo(item.scope, ctx.route);
      if !applies {
        skipped := skipped + [SkippedItem(item.id, item.chargeCode, item.category)];
        continue;
      }
      var amount := Calculate(item.logic, ctx, eng);
      if amount.Err? {
        return Err(PricingFailed(item.chargeCode, amount.error));
      }
      applied := applied + [AppliedItem(item.id, item.chargeCode, item.category, amount.value)];
      amounts := amounts + [amount.value];
    }
    assert t.items[..|t.items|] == t.items;
    var totals := SumCharges(amounts);
    r := Ok(Calculation(applied, skipped, totals));
  }
}
