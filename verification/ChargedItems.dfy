/**
 What is charged, said in terms of the route's stops and of the cargo: which line items a
 calculation and a simulation apply, and which numbers a formula gets to see.
 */
module ChargedItems {
  import opened Pricing
  import opened Rates
  import opened Refinement
  import opened Shared
  import opened Simulation
  import opened SimulationTheorems
  import opened Totals

  // ---------------------------------------------------------------- stops

  /** The places where the route begins, ends or changes. */
  ghost function Stops(route: Route): set<LocationId> {
    (set seg | seg in route :: seg.origin) + (set seg | seg in route :: seg.dest)
  }

  /** A location service is rendered at a stop, a transportation service on a segment. */
  ghost predicate Served(scope: Scope, route: Route) {
    match scope
    case LocationService(location, _) => location in Stops(route)
    case TransportationService(o, d, m) => Segment(o, d, m) in route
  }

  lemma ApplicableIffServed(scope: Scope, route: Route)
    ensures scope.IsApplicable(route) <==> Served(scope, route)
  {
    forall i | 0 <= i < |route|
      ensures route[i].origin in Stops(route) && route[i].dest in Stops(route) && route[i] in route
    {
      assert route[i] in route;
    }
  }

  // ---------------------------------------------------------------- calculations

  ghost predicate IsApplied(c: Calculation, id: Id) {
    exists a :: a in c.applied && a.lineItemId == id
  }

  ghost predicate IsSkipped(c: Calculation, id: Id) {
    exists s :: s in c.skipped && s.lineItemId == id
  }

  lemma {:induction false} FindAppliedIff(items: seq<AppliedItem>, id: Id)
    ensures FindApplied(items, id).Some? <==> exists a :: a in items && a.lineItemId == id
  {
    if items != [] {
      FindAppliedIff(items[..|items| - 1], id);
      assert items == items[..|items| - 1] + [items[|items| - 1]];
    }
  }

  lemma {:induction false} FindSkippedIff(items: seq<SkippedItem>, id: Id)
    ensures FindSkipped(items, id).Some? <==> exists s :: s in items && s.lineItemId == id
  {
    if items != [] {
      FindSkippedIff(items[..|items| - 1], id);
      assert items == items[..|items| - 1] + [items[|items| - 1]];
    }
  }

  /** In a successful calculation, exactly the items served on the route are applied; the others are skipped. */
  lemma {:induction false} AppliedIffServed(
    c: Calculation, items: seq<LineItem>, item: LineItem, ctx: ShipmentContext, eng: Engine)
    requires IsCalculationOf(Ok(c), items, ctx, eng) && DistinctItems(items) && item in items
    ensures IsApplied(c, item.id) <==> Served(item.scope, ctx.route)
    ensures IsSkipped(c, item.id) <==> !Served(item.scope, ctx.route)
  {
    ApplicableIffServed(item.scope, ctx.route);
    assert !Fails(item, ctx, eng);
    PresentItem(items, item, ctx, eng);
    FindAppliedIff(c.applied, item.id);
    FindSkippedIff(c.skipped, item.id);
  }

  /** A calculation fails exactly on a tariff without items, or if an item that is served has no price. */
  lemma CalculationFailsIff(
    r: Result<Calculation, CalculationError>, items: seq<LineItem>, ctx: ShipmentContext, eng: Engine)
    requires IsCalculationOf(r, items, ctx, eng)
    ensures r.Err? <==>
      || items == []
      || exists item :: item in items && Served(item.scope, ctx.route) && Evaluate(item.logic, ctx, eng).Err?
  {
    forall item | item in items
      ensures item.scope.IsApplicable(ctx.route) <==> Served(item.scope, ctx.route)
    {
      ApplicableIffServed(item.scope, ctx.route);
    }
    if r.Err? && r.error.PricingFailed? {
      var i :| 0 <= i < |items| && Fails(items[i], ctx, eng);
      assert items[i] in items;
    }
  }

  /** It is the first such item that the failure names, with what was wrong with its price. */
  lemma FirstFailureIsReported(
    r: Result<Calculation, CalculationError>, items: seq<LineItem>, n: nat, ctx: ShipmentContext, eng: Engine)
    requires IsCalculationOf(r, items, ctx, eng) && n < |items|
    requires Served(items[n].scope, ctx.route) && Evaluate(items[n].logic, ctx, eng).Err?
    requires forall k :: 0 <= k < n && Served(items[k].scope, ctx.route) ==> Evaluate(items[k].logic, ctx, eng).Ok?
    ensures r == Err(PricingFailed(items[n].chargeCode, Evaluate(items[n].logic, ctx, eng).error))
  {
    forall k | 0 <= k < |items|
      ensures Fails(items[k], ctx, eng) <==>
        Served(items[k].scope, ctx.route) && Evaluate(items[k].logic, ctx, eng).Err?
    {
      ApplicableIffServed(items[k].scope, ctx.route);
    }
    assert Fails(items[n], ctx, eng);
    if r.Err? && r.error.PricingFailed? {
      var i :| 0 <= i < |items| && Fails(items[i], ctx, eng) && !AnyFails(items[..i], ctx, eng)
        && r.error.chargeCode == items[i].chargeCode && r.error.cause == Evaluate(items[i].logic, ctx, eng).error;
      if n < i {
        assert items[..i][n] == items[n];
      }
    }
  }

  // ---------------------------------------------------------------- turning segments round

  ghost function Swapped(route: Route): Route {
    seq(|route|, i requires 0 <= i < |route| => Segment(route[i].dest, route[i].origin, route[i].mode))
  }

  lemma SwappedHasTheSameStops(route: Route)
    ensures Stops(Swapped(route)) == Stops(route)
  {
    var turned := Swapped(route);
    forall i | 0 <= i < |route|
      ensures turned[i] in turned && route[i] in route
      ensures route[i].origin == turned[i].dest && route[i].dest == turned[i].origin
    {
    }
    forall l | l in Stops(route)
      ensures l in Stops(turned)
    {
      var seg :| seg in route && (seg.origin == l || seg.dest == l);
      var i :| 0 <= i < |route| && route[i] == seg;
      assert turned[i] in turned;
    }
    forall l | l in Stops(turned)
      ensures l in Stops(route)
    {
      var seg :| seg in turned && (seg.origin == l || seg.dest == l);
      var i :| 0 <= i < |route| && turned[i] == seg;
      assert route[i] in route;
    }
  }

  /** No price depends on the route. */
  lemma {:induction false} PriceIgnoresRoute(s: Strategy, ctx: ShipmentContext, route: Route, eng: Engine)
    ensures Evaluate(s, ctx.(route := route), eng) == Evaluate(s, ctx, eng)
    decreases s, 1
  {
    match s
    case Flat(_) =>
    case Expression(_, _) =>
      assert ExpressionEnv(ctx.(route := route)) == ExpressionEnv(ctx);
    case Composite(steps) =>
      if steps != [] {
        FoldIgnoresRoute(steps, ctx, route, eng);
      }
  }

  lemma {:induction false} FoldIgnoresRoute(steps: seq<Strategy>, ctx: ShipmentContext, route: Route, eng: Engine)
    requires steps != []
    ensures FoldSteps(steps, ctx.(route := route), eng) == FoldSteps(steps, ctx, eng)
    decreases steps, 0
  {
    PriceIgnoresRoute(steps[|steps| - 1], ctx, route, eng);
    if |steps| > 1 {
      FoldIgnoresRoute(steps[..|steps| - 1], ctx, route, eng);
    }
  }

  lemma {:induction false} AppliedMembers(items: seq<LineItem>, ctx: ShipmentContext, eng: Engine)
    ensures forall a :: a in Applied(items, ctx, eng) <==>
      exists item :: item in items && Applies(item, ctx, eng) && a == AppliedFrom(item, ctx, eng)
  {
    if items != [] {
      var front, last := items[..|items| - 1], items[|items| - 1];
      assert items == front + [last];
      AppliedMembers(front, ctx, eng);
      AppliedStep(front, last, ctx, eng);
    }
  }

  lemma SameItem(items: seq<LineItem>, a: LineItem, b: LineItem)
    requires DistinctItems(items) && a in items && b in items && a.id == b.id
    ensures a == b
  {
    var i :| 0 <= i < |items| && items[i] == a;
    var j :| 0 <= j < |items| && items[j] == b;
  }

  ghost predicate IsChargeOf(a: AppliedItem, item: LineItem, ctx: ShipmentContext, eng: Engine) {
    Evaluate(item.logic, ctx, eng) == Ok(a.amount) && a.chargeCode == item.chargeCode && a.category == item.category
  }

  /** The charge of an item in a calculation: there is at most one, and it is the item's own. */
  lemma {:induction false} ChargeOfItem(
    c: Calculation, items: seq<LineItem>, item: LineItem, ctx: ShipmentContext, eng: Engine, a: AppliedItem)
    requires IsCalculationOf(Ok(c), items, ctx, eng) && DistinctItems(items) && item in items && a.lineItemId == item.id
    ensures a in c.applied <==> Served(item.scope, ctx.route) && IsChargeOf(a, item, ctx, eng)
  {
    AppliedMembers(items, ctx, eng);
    ApplicableIffServed(item.scope, ctx.route);
    if a in c.applied {
      var other :| other in items && Applies(other, ctx, eng) && a == AppliedFrom(other, ctx, eng);
      SameItem(items, item, other);
    }
    if Served(item.scope, ctx.route) && Evaluate(item.logic, ctx, eng) == Ok(a.amount) {
      assert Applies(item, ctx, eng);
    }
  }

  /** Location items are charged the same, and skipped the same, when every segment is travelled the other way. */
  lemma {:induction false} LocationItemsIgnoreDirection(
    c: Calculation, c': Calculation, items: seq<LineItem>, item: LineItem, ctx: ShipmentContext, eng: Engine,
    a: AppliedItem)
    requires IsCalculationOf(Ok(c), items, ctx, eng)
    requires IsCalculationOf(Ok(c'), items, ctx.(route := Swapped(ctx.route)), eng)
    requires DistinctItems(items) && item in items && item.scope.LocationService? && a.lineItemId == item.id
    ensures a in c.applied <==> a in c'.applied
    ensures IsSkipped(c, item.id) <==> IsSkipped(c', item.id)
  {
    var ctx' := ctx.(route := Swapped(ctx.route));
    SwappedHasTheSameStops(ctx.route);
    PriceIgnoresRoute(item.logic, ctx, ctx'.route, eng);
    ChargeOfItem(c, items, item, ctx, eng, a);
    ChargeOfItem(c', items, item, ctx', eng, a);
    AppliedIffServed(c, items, item, ctx, eng);
    AppliedIffServed(c', items, item, ctx', eng);
  }

  // ---------------------------------------------------------------- what a formula gets to see

  /** The engine gives the formula that is just a name the number under that name. */
  ghost predicate Echoes(eng: Engine, name: string) {
    forall env: Env :: name in env && env[name].Number? ==> eng(name, env) == Some(env[name].value)
  }

  function Larger(x: real, y: real): (r: real)
    ensures r >= x && r >= y && (r == x || r == y)
  {
    if x < y then y else x
  }

  /** An attribute whose text reads as a number is that number; any other text stays a text. */
  ghost function Reading(a: Attribute): EnvValue {
    match a
    case Opaque => Other
    case Word(text, reading) => if reading == None then Text(text) else Number(reading.value)
  }

  ghost function ReadingOf(a: Option<Attribute>): Option<EnvValue> {
    match a case None => None case Some(v) => Some(Reading(v))
  }

  /** An attribute of the request, where the four that the request writes itself come first. */
  ghost function AttributeOf(req: CalculationRequest, name: string): Option<EnvValue> {
    var c := req.conditions;
    var free := if name in c.attributes then Some(Reading(c.attributes[name])) else None;
    if name == "incoterms" && c.incoterms.Some? then ReadingOf(c.incoterms)
    else if name == "desiredShipDate" && c.shipDate.Some? then ReadingOf(c.shipDate)
    else if name == "specialRequirements" && c.hasSpecialRequirements then Some(Other)
    else if name == "chargeableWeightKG" && req.summary.chargeable != 0.0 then Some(Number(req.summary.chargeable))
    else free
  }

  ghost function CargoField(s: CargoSummary, name: string): Option<real> {
    if name == "quantity" then Some(if s.containerCounts == [] then s.quantity else Sum(s.containerCounts))
    else if name == "weight" then Some(s.weight)
    else if name == "volume" then Some(s.volume)
    else if name == "chargeable_weight" then Some(Larger(s.weight, 1000.0 * s.volume))
    else None
  }

  /** What a formula finds under a name: an attribute if there is one, else a field of the cargo. */
  ghost function Known(req: CalculationRequest, name: string): Option<EnvValue> {
    if AttributeOf(req, name).Some? then AttributeOf(req, name)
    else match CargoField(req.summary, name) case None => None case Some(x) => Some(Number(x))
  }

  ghost function ReadUnder(attrs: map<string, Attribute>, name: string): Option<EnvValue> {
    if name in attrs then Some(ToEnvValue(attrs[name])) else None
  }

  lemma OneMoreAttribute(attrs: map<string, Attribute>, key: string, a: Option<Attribute>, name: string)
    ensures ReadUnder(attrs + Entry(key, a), name)
      == if name == key && a.Some? then ReadingOf(a) else ReadUnder(attrs, name)
  {
  }

  lemma AttributesHold(req: CalculationRequest, name: string)
    ensures ReadUnder(AttributesOf(req.conditions, req.summary.chargeable), name) == AttributeOf(req, name)
  {
    var c, weight := req.conditions, req.summary.chargeable;
    var special: Option<Attribute> := if c.hasSpecialRequirements then Some(Opaque) else None;
    var weighed: Option<Attribute> := if weight == 0.0 then None else Some(Word("", Some(weight)));
    var first := c.attributes + Entry("incoterms", c.incoterms);
    var second := first + Entry("desiredShipDate", c.shipDate);
    var third := second + Entry("specialRequirements", special);
    OneMoreAttribute(c.attributes, "incoterms", c.incoterms, name);
    OneMoreAttribute(first, "desiredShipDate", c.shipDate, name);
    OneMoreAttribute(second, "specialRequirements", special, name);
    OneMoreAttribute(third, "chargeableWeightKG", weighed, name);
  }

  lemma CargoHolds(ctx: ShipmentContext, s: CargoSummary, name: string)
    requires ctx.quantity == (if s.containerCounts == [] then s.quantity else Sum(s.containerCounts))
    requires ctx.weight == s.weight && ctx.volume == s.volume
    ensures name in StandardEnv(ctx) <==> CargoField(s, name).Some?
    ensures name in StandardEnv(ctx) ==> StandardEnv(ctx)[name] == Number(CargoField(s, name).value)
  {
  }

  /** The environment holds exactly what is known. */
  lemma EnvironmentHolds(req: CalculationRequest, name: string)
    ensures var env := ExpressionEnv(ToShipmentContext(req));
      && (name in env <==> Known(req, name).Some?)
      && (name in env ==> env[name] == Known(req, name).value)
  {
    AttributesHold(req, name);
    CargoHolds(ToShipmentContext(req), req.summary, name);
  }

  /** Container counts are added up. */
  lemma {:induction false} SumIsAdditive(a: seq<real>, b: seq<real>)
    ensures Sum(a + b) == Sum(a) + Sum(b)
    ensures forall x :: Sum([x]) == x
  {
    if b == [] {
      assert a + b == a;
    } else {
      SumIsAdditive(a, b[..|b| - 1]);
      assert (a + b)[..|a + b| - 1] == a + b[..|b| - 1];
    }
  }

  lemma NamedPrice(req: CalculationRequest, eng: Engine, name: string, currency: string, x: real)
    requires Echoes(eng, name) && Known(req, name) == Some(Number(x))
    ensures Evaluate(Expression(name, currency), ToShipmentContext(req), eng)
      == if currency == "" then Err(CurrencyRequired) else Ok(Money(if x < 0.0 then 0.0 else x, currency))
  {
    EnvironmentHolds(req, name);
  }

  /** In a successful calculation, a formula that is just a name is charged the number known under that name. */
  lemma {:induction false} NamedNumberIsCharged(
    c: Calculation, items: seq<LineItem>, item: LineItem, req: CalculationRequest, eng: Engine,
    name: string, currency: string, x: real)
    requires IsCalculationOf(Ok(c), items, ToShipmentContext(req), eng) && DistinctItems(items) && item in items
    requires item.logic == Expression(name, currency) && Served(item.scope, req.route)
    requires Echoes(eng, name) && Known(req, name) == Some(Number(x))
    ensures AppliedItem(item.id, item.chargeCode, item.category, Money(if x < 0.0 then 0.0 else x, currency))
      in c.applied
  {
    var ctx := ToShipmentContext(req);
    NamedPrice(req, eng, name, currency, x);
    CalculationFailsIff(Ok(c), items, ctx, eng);
    ChargeOfItem(c, items, item, ctx, eng,
      AppliedItem(item.id, item.chargeCode, item.category, Money(if x < 0.0 then 0.0 else x, currency)));
  }

  lemma OverridingIsKnown(req: CalculationRequest, name: string, text: string, x: real)
    requires name in {"quantity", "weight", "volume", "chargeable_weight"}
    requires name in req.conditions.attributes && req.conditions.attributes[name] == Word(text, Some(x))
    ensures Known(req, name) == Some(Number(x))
  {
  }

  /** A dynamic attribute that reads as a number overrides the field of the cargo of the same name. */
  lemma {:induction false} AttributesOverrideCargo(
    c: Calculation, items: seq<LineItem>, item: LineItem, req: CalculationRequest, eng: Engine,
    name: string, currency: string, text: string, x: real)
    requires IsCalculationOf(Ok(c), items, ToShipmentContext(req), eng) && DistinctItems(items) && item in items
    requires item.logic == Expression(name, currency) && Served(item.scope, req.route) && Echoes(eng, name)
    requires name in {"quantity", "weight", "volume", "chargeable_weight"} && x >= 0.0
    requires name in req.conditions.attributes && req.conditions.attributes[name] == Word(text, Some(x))
    ensures AppliedItem(item.id, item.chargeCode, item.category, Money(x, currency)) in c.applied
  {
    OverridingIsKnown(req, name, text, x);
    NamedNumberIsCharged(c, items, item, req, eng, name, currency, x);
  }

  /** An expression has a price exactly if the engine gives its formula a number and it names a currency. */
  lemma ExpressionPriceIff(formula: string, currency: string, ctx: ShipmentContext, eng: Engine)
    ensures Evaluate(Expression(formula, currency), ctx, eng).Ok? <==>
      currency != "" && eng(formula, ExpressionEnv(ctx)).Some?
    ensures Evaluate(Expression(formula, currency), ctx, eng).Ok? ==>
      Evaluate(Expression(formula, currency), ctx, eng).value
        == Money(Larger(0.0, eng(formula, ExpressionEnv(ctx)).value), currency)
  {
  }
}
