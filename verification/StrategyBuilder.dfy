/** Building line items from structured input: scope attributes and pricing attributes of any type. */
module StrategyBuilder {
  import opened Shared
  import opened Pricing

  /** A loosely typed attribute; a text comes with the decimal library's reading of it, if it has one. */
  datatype Attr =
    | AText(text: string, reading: Option<real>)
    | ANumber(value: real)
    | AList(items: seq<Attr>)
    | AMap(attrs: Attrs)
    | AOther

  /** The keys of a pricing definition that are ever read. */
  datatype Attrs = Attrs(
    typ: Option<Attr>, amount: Option<Attr>, currency: Option<Attr>, formula: Option<Attr>, steps: Option<Attr>)

  datatype BuildError =
    | UnsupportedPricingType | AmountRequired | InvalidAmount | CurrencyMissing | CurrencyNotText | CurrencyEmpty
    | FormulaMissing | FormulaNotText | StepsMissing | StepNotMap | StepsNotArray | StepsEmpty
    | StepTypeMissing | StepTypeNotText | FlatNotImplemented | ExpressionNotImplemented
    | UnsupportedScopeType | LocationRequired | InvalidLocation | ModeRequired | InvalidMode

  function ToDecimal(a: Attr): Option<real> {
    match a
    case AText(_, reading) => reading
    case ANumber(v) => Some(v)
    case _ => None
  }

  function ReadText(a: Option<Attr>, missing: BuildError, notText: BuildError): Result<string, BuildError> {
    match a
    case None => Err(missing)
    case Some(AText(t, _)) => Ok(t)
    case _ => Err(notText)
  }

  function BuiltFlat(attrs: Attrs): Result<Strategy, BuildError> {
    if attrs.amount.None? then Err(AmountRequired)
    else if ToDecimal(attrs.amount.value).None? then Err(InvalidAmount)
    else
      match ReadText(attrs.currency, CurrencyMissing, CurrencyNotText)
      case Err(e) => Err(e)
      case Ok(currency) =>
        if currency == "" then Err(CurrencyEmpty)
        else Ok(Flat(Money(ToDecimal(attrs.amount.value).value, currency)))
  }

  function BuiltExpression(attrs: Attrs): Result<Strategy, BuildError> {
    match ReadText(attrs.formula, FormulaMissing, FormulaNotText)
    case Err(e) => Err(e)
    case Ok(formula) =>
      match ReadText(attrs.currency, CurrencyMissing, CurrencyNotText)
      case Err(e) => Err(e)
      case Ok(currency) => Ok(Expression(formula, currency))
  }

  predicate AllMaps(items: seq<Attr>) {
    forall i :: 0 <= i < |items| ==> items[i].AMap?
  }

  /** What buildPricingStrategy answers for a type name and its attributes. */
  function Built(typ: string, attrs: Attrs): Result<Strategy, BuildError>
    decreases attrs
  {
    if typ == "FLAT" then BuiltFlat(attrs)
    else if typ == "EXPRESSION" then BuiltExpression(attrs)
    else if typ == "COMPOSITE" then
      match attrs.steps
      case None => Err(StepsMissing)
      case Some(AList(items)) =>
        if !AllMaps(items) then Err(StepNotMap)
        else if items == [] then Err(StepsEmpty)
        else (
          match BuiltSteps(items)
          case Err(e) => Err(e)
          case Ok(steps) => Ok(Composite(steps))
        )
      case _ => Err(StepsNotArray)
    else Err(UnsupportedPricingType)
  }

  function BuiltStep(step: Attr): Result<Strategy, BuildError>
    requires step.AMap?
    decreases step
  {
    match ReadText(step.attrs.typ, StepTypeMissing, StepTypeNotText)
    case Err(e) => Err(e)
    case Ok(name) => Built(name, step.attrs)
  }

  function BuiltSteps(items: seq<Attr>): Result<seq<Strategy>, BuildError>
    requires AllMaps(items)
    decreases items
  {
    if items == [] then Ok([])
    else
      match BuiltSteps(items[..|items| - 1])
      case Err(e) => Err(e)
      case Ok(front) =>
        match BuiltStep(items[|items| - 1])
        case Err(e) => Err(e)
        case Ok(last) => Ok(front + [last])
  }

  lemma {:induction false} BuiltStepsStopAtError(items: seq<Attr>, n: nat)
    requires AllMaps(items) && n <= |items| && BuiltSteps(items[..n]).Err?
    ensures BuiltSteps(items) == BuiltSteps(items[..n])
  {
    if n == |items| {
      assert items[..n] == items;
    } else {
      assert items[..|items| - 1][..n] == items[..n];
      BuiltStepsStopAtError(items[..|items| - 1], n);
    }
  }

  /** buildPricingStrategy with the loop of buildCompositeStrategy. */
  method BuildPricingStrategy(typ: string, attrs: Attrs) returns (r: Result<Strategy, BuildError>)
    ensures r == Built(typ, attrs)
    decreases attrs
  {
    if typ != "COMPOSITE" || attrs.steps.None? || !attrs.steps.value.AList?
      || !AllMaps(attrs.steps.value.items) || attrs.steps.value.items == []
    {
      return Built(typ, attrs);
    }
    var items := attrs.steps.value.items;
    var strategies: seq<Strategy> := [];
    for i := 0 to |items|
      invariant BuiltSteps(items[..i]) == Ok(strategies)
    {
      assert items[..i + 1][..i] == items[..i];
      var name := ReadText(items[i].attrs.typ, StepTypeMissing, StepTypeNotText);
      if name.Err? {
        BuiltStepsStopAtError(items, i + 1);
        return Err(name.error);
      }
      var step := BuildPricingStrategy(name.value, items[i].attrs);
      if step.Err? {
        BuiltStepsStopAtError(items, i + 1);
        return step;
      }
      strategies := strategies + [step.value];
    }
    assert items[..|items|] == items;
    r := Ok(Composite(strategies));
  }

  // ---------------------------------------------------------------- the builder's image

  /** No empty composite anywhere, and every flat price names a currency. */
  ghost predicate Buildable(s: Strategy) {
    match s
    case Flat(m) => m.currency != ""
    case Expression(_, _) => true
    case Composite(steps) => steps != [] && forall i :: 0 <= i < |steps| ==> Buildable(steps[i])
  }

  function TypeName(s: Strategy): string {
    match s
    case Flat(_) => "FLAT"
    case Expression(_, _) => "EXPRESSION"
    case Composite(_) => "COMPOSITE"
  }

  /** Attributes that describe a given tree. */
  function Described(s: Strategy): Attrs {
    var typ := Some(AText(TypeName(s), None));
    match s
    case Flat(m) => Attrs(typ, Some(ANumber(m.amount)), Some(AText(m.currency, None)), None, None)
    case Expression(f, c) => Attrs(typ, None, Some(AText(c, None)), Some(AText(f, None)), None)
    case Composite(steps) =>
      var items := seq(|steps|, i requires 0 <= i < |steps| => AMap(Described(steps[i])));
      Attrs(typ, None, None, None, Some(AList(items)))
  }

  lemma {:induction false} BuilderYieldsBuildable(typ: string, attrs: Attrs)
    requires Built(typ, attrs).Ok?
    ensures Buildable(Built(typ, attrs).value)
    decreases attrs
  {
    if typ == "COMPOSITE" {
      StepsAreBuildable(attrs.steps.value.items);
    }
  }

  lemma {:induction false} StepsAreBuildable(items: seq<Attr>)
    requires AllMaps(items) && BuiltSteps(items).Ok?
    ensures |BuiltSteps(items).value| == |items|
    ensures forall i :: 0 <= i < |items| ==> Buildable(BuiltSteps(items).value[i])
    decreases items
  {
    if items != [] {
      StepsAreBuildable(items[..|items| - 1]);
      StepIsBuildable(items[|items| - 1]);
    }
  }

  lemma {:induction false} StepIsBuildable(step: Attr)
    requires step.AMap? && BuiltStep(step).Ok?
    ensures Buildable(BuiltStep(step).value)
    decreases step
  {
    BuilderYieldsBuildable(ReadText(step.attrs.typ, StepTypeMissing, StepTypeNotText).value, step.attrs);
  }

  lemma {:induction false} StepsBuildBack(items: seq<Attr>, steps: seq<Strategy>)
    requires AllMaps(items) && |items| == |steps|
    requires forall i :: 0 <= i < |items| ==> BuiltStep(items[i]) == Ok(steps[i])
    ensures BuiltSteps(items) == Ok(steps)
  {
    if items != [] {
      StepsBuildBack(items[..|items| - 1], steps[..|steps| - 1]);
      assert steps == steps[..|steps| - 1] + [steps[|steps| - 1]];
    }
  }

  lemma CompositeBuildsBack(steps: seq<Strategy>)
    requires steps != []
    requires forall i :: 0 <= i < |steps| ==> Built(TypeName(steps[i]), Described(steps[i])) == Ok(steps[i])
    ensures Built("COMPOSITE", Described(Composite(steps))) == Ok(Composite(steps))
  {
    var items := Described(Composite(steps)).steps.value.items;
    forall i | 0 <= i < |items|
      ensures items[i].AMap? && BuiltStep(items[i]) == Ok(steps[i])
    {
      DescribedNamesItsType(steps[i]);
    }
    StepsBuildBack(items, steps);
  }

  lemma DescribedNamesItsType(s: Strategy)
    ensures Described(s).typ == Some(AText(TypeName(s), None))
  {
  }

  lemma {:induction false} DescribedBuildsBack(s: Strategy)
    requires Buildable(s)
    ensures Built(TypeName(s), Described(s)) == Ok(s)
    decreases s
  {
    if s.Composite? {
      forall i | 0 <= i < |s.steps|
        ensures Built(TypeName(s.steps[i]), Described(s.steps[i])) == Ok(s.steps[i])
      {
        DescribedBuildsBack(s.steps[i]);
      }
      CompositeBuildsBack(s.steps);
    }
  }

  /** The trees the builder can produce are exactly the buildable ones. */
  lemma BuilderImage(s: Strategy)
    ensures Buildable(s) <==> exists typ, attrs :: Built(typ, attrs) == Ok(s)
  {
    if Buildable(s) {
      DescribedBuildsBack(s);
    }
    forall typ, attrs | Built(typ, attrs) == Ok(s)
      ensures Buildable(s)
    {
      BuilderYieldsBuildable(typ, attrs);
    }
  }

  // ---------------------------------------------------------------- line items

  datatype ScopeKind = LocationScope | TransportationScope | OtherScope(name: string)

  /** Scope attributes after reading: a location that is present may still be no UUID. */
  datatype ScopeInput = ScopeInput(
    kind: ScopeKind,
    location: Option<Option<LocationId>>, serviceType: Option<string>,
    origin: Option<Option<LocationId>>, destination: Option<Option<LocationId>>, mode: Option<string>)

  datatype LineItemInput = LineItemInput(
    chargeCode: string, category: string, scope: ScopeInput, pricingType: string, attrs: Attrs)

  function ReadLocation(l: Option<Option<LocationId>>): Result<LocationId, BuildError> {
    match l
    case None => Err(LocationRequired)
    case Some(None) => Err(InvalidLocation)
    case Some(Some(id)) => Ok(id)
  }

  function BuiltScope(s: ScopeInput): Result<Scope, BuildError> {
    if s.kind.LocationScope? then
      match ReadLocation(s.location)
      case Err(e) => Err(e)
      case Ok(id) => Ok(LocationService(id, if s.serviceType.Some? then s.serviceType.value else "HANDLING"))
    else if s.kind.TransportationScope? then
      match ReadLocation(s.origin)
      case Err(e) => Err(e)
      case Ok(o) =>
        match ReadLocation(s.destination)
        case Err(e) => Err(e)
        case Ok(d) =>
          match s.mode
          case None => Err(ModeRequired)
          case Some(m) =>
            if m in {"OCEAN", "AIR", "TRUCK", "Railway"} then Ok(TransportationService(o, d, m))
            else Err(InvalidMode)
    else Err(UnsupportedScopeType)
  }

  /** A line item that has no ID yet. */
  datatype DraftItem = DraftItem(chargeCode: string, category: string, scope: Scope, logic: Strategy) {
    function WithId(id: Id): LineItem {
      LineItem(id, chargeCode, category, scope, logic)
    }
  }

  /** What convertToLineItem makes of an input, up to the new ID. */
  function Drafted(input: LineItemInput): Result<DraftItem, BuildError> {
    match BuiltScope(input.scope)
    case Err(e) => Err(e)
    case Ok(scope) =>
      match Built(input.pricingType, input.attrs)
      case Err(e) => Err(e)
      case Ok(logic) => Ok(DraftItem(input.chargeCode, input.category, scope, logic))
  }

  ghost function AllDrafted(inputs: seq<LineItemInput>): seq<Result<DraftItem, BuildError>> {
    seq(|inputs|, i requires 0 <= i < |inputs| => Drafted(inputs[i]))
  }

  /** convertToLineItem with a new ID; `draft` names its outcome. */
  method ConvertToLineItem(input: LineItemInput, id: Id, ghost draft: Result<DraftItem, BuildError>)
    returns (r: Result<LineItem, BuildError>)
    requires draft == Drafted(input)
    ensures r == match draft case Ok(d) => Ok(d.WithId(id)) case Err(e) => Err(e)
  {
    var scope := BuiltScope(input.scope);
    if scope.Err? {
      return Err(scope.error);
    }
    var logic := BuildPricingStrategy(input.pricingType, input.attrs);
    if logic.Err? {
      return Err(logic.error);
    }
    r := Ok(LineItem(id, input.chargeCode, input.category, scope.value, logic.value));
  }

  /** The strategy builder of the file-based versions: a placeholder for the two types it knows. */
  function PlaceholderStrategy(line: LineItemInput): Result<Strategy, BuildError> {
    if line.pricingType == "FLAT" then Err(FlatNotImplemented)
    else if line.pricingType == "EXPRESSION" then Err(ExpressionNotImplemented)
    else Err(UnsupportedPricingType)
  }

  // ---------------------------------------------------------------- what is accepted

  /** A text that names something. */
  ghost predicate IsText(a: Option<Attr>) {
    a.Some? && a.value.AText?
  }

  /** A number, or a text that reads as one. */
  ghost predicate IsAmount(a: Option<Attr>, x: real) {
    a == Some(ANumber(x)) || (IsText(a) && a.value.reading == Some(x))
  }

  /** A flat price is built from a number or a readable text and a currency that is not empty. */
  lemma FlatIsBuiltIff(attrs: Attrs, m: Money)
    ensures Built("FLAT", attrs) == Ok(Flat(m)) <==>
      IsAmount(attrs.amount, m.amount) && IsText(attrs.currency) && attrs.currency.value.text == m.currency != ""
    ensures Built("FLAT", attrs).Ok? ==> Built("FLAT", attrs).value.Flat?
  {
  }

  /** An expression is built from a formula and a currency, either of which may be empty. */
  lemma ExpressionIsBuiltIff(attrs: Attrs, formula: string, currency: string)
    ensures Built("EXPRESSION", attrs) == Ok(Expression(formula, currency)) <==>
      && IsText(attrs.formula) && attrs.formula.value.text == formula
      && IsText(attrs.currency) && attrs.currency.value.text == currency
    ensures Built("EXPRESSION", attrs).Ok? ==> Built("EXPRESSION", attrs).value.Expression?
  {
  }

  /** A price is refused for its amount or formula first, and then for its currency. */
  lemma PriceIsRefusedIff(attrs: Attrs, typ: string)
    requires typ in {"FLAT", "EXPRESSION"}
    ensures Built(typ, attrs) == Err(AmountRequired) <==> typ == "FLAT" && attrs.amount == None
    ensures Built(typ, attrs) == Err(InvalidAmount) <==>
      typ == "FLAT" && attrs.amount.Some? && forall x :: !IsAmount(attrs.amount, x)
    ensures Built(typ, attrs) == Err(FormulaMissing) <==> typ == "EXPRESSION" && attrs.formula == None
    ensures Built(typ, attrs) == Err(FormulaNotText) <==>
      typ == "EXPRESSION" && attrs.formula.Some? && !IsText(attrs.formula)
    ensures Built(typ, attrs) == Err(CurrencyMissing) <==> IsPriced(attrs, typ) && attrs.currency == None
    ensures Built(typ, attrs) == Err(CurrencyNotText) <==>
      IsPriced(attrs, typ) && attrs.currency.Some? && !IsText(attrs.currency)
    ensures Built(typ, attrs) == Err(CurrencyEmpty) <==>
      typ == "FLAT" && IsPriced(attrs, typ) && IsText(attrs.currency) && attrs.currency.value.text == ""
  {
    if attrs.amount.Some? && ToDecimal(attrs.amount.value).Some? {
      assert IsAmount(attrs.amount, ToDecimal(attrs.amount.value).value);
    }
  }

  ghost predicate IsPriced(attrs: Attrs, typ: string) {
    if typ == "FLAT" then exists x :: IsAmount(attrs.amount, x) else IsText(attrs.formula)
  }

  /** The first step that is refused is what a composite is refused for, unless its list is at fault. */
  lemma CompositeIsRefusedFor(attrs: Attrs, items: seq<Attr>, n: nat)
    requires attrs.steps == Some(AList(items)) && AllMaps(items) && n < |items|
    requires BuiltStep(items[n]).Err? && forall k :: 0 <= k < n ==> BuiltStep(items[k]).Ok?
    ensures Built("COMPOSITE", attrs) == Err(BuiltStep(items[n]).error)
  {
    StepsBeforeAreBuilt(items[..n]);
    assert items[..n + 1][..n] == items[..n];
    BuiltStepsStopAtError(items, n + 1);
  }

  lemma {:induction false} StepsBeforeAreBuilt(items: seq<Attr>)
    requires AllMaps(items) && forall k :: 0 <= k < |items| ==> BuiltStep(items[k]).Ok?
    ensures BuiltSteps(items).Ok?
  {
    if items != [] {
      StepsBeforeAreBuilt(items[..|items| - 1]);
    }
  }

  /** A list of steps is at fault if it is missing, is no list, has something in it that is no map, or is empty. */
  lemma ListIsRefused(attrs: Attrs)
    ensures attrs.steps == None ==> Built("COMPOSITE", attrs) == Err(StepsMissing)
    ensures attrs.steps.Some? && !attrs.steps.value.AList? ==> Built("COMPOSITE", attrs) == Err(StepsNotArray)
    ensures attrs.steps.Some? && attrs.steps.value.AList? && (exists a :: a in attrs.steps.value.items && !a.AMap?) ==>
      Built("COMPOSITE", attrs) == Err(StepNotMap)
    ensures attrs.steps == Some(AList([])) ==> Built("COMPOSITE", attrs) == Err(StepsEmpty)
  {
  }

  /** No other types are known than these and composites. */
  lemma OtherTypesAreRefused(typ: string, attrs: Attrs)
    ensures Built(typ, attrs).Ok? ==> typ in {"FLAT", "EXPRESSION", "COMPOSITE"}
    ensures typ == "COMPOSITE" && Built(typ, attrs).Ok? ==> Built(typ, attrs).value.Composite?
  {
  }

  /** A location scope is built from a location, with "HANDLING" for a service type that is not given. */
  lemma LocationIsBuiltIff(s: ScopeInput, location: LocationId, serviceType: string)
    requires s.kind == LocationScope
    ensures BuiltScope(s) == Ok(LocationService(location, serviceType)) <==>
      s.location == Some(Some(location)) && s.serviceType in {Some(serviceType), None}
      && (s.serviceType == None ==> serviceType == "HANDLING")
    ensures BuiltScope(s).Ok? <==> s.location.Some? && s.location.value.Some?
  {
  }

  /** A transportation scope is built from two locations and one of the four modes. */
  lemma TransportationIsBuiltIff(s: ScopeInput, o: LocationId, d: LocationId, mode: string)
    requires s.kind == TransportationScope
    ensures BuiltScope(s) == Ok(TransportationService(o, d, mode)) <==>
      && s.origin == Some(Some(o)) && s.destination == Some(Some(d)) && s.mode == Some(mode)
      && (mode == "OCEAN" || mode == "AIR" || mode == "TRUCK" || mode == "Railway")
    ensures BuiltScope(s).Ok? ==> BuiltScope(s).value.TransportationService?
  {
  }

  /** A scope is refused for its first location that is missing or no UUID, and then for its mode. */
  lemma ScopeIsRefusedIff(s: ScopeInput)
    requires s.kind in {LocationScope, TransportationScope}
    ensures BuiltScope(s) == Err(LocationRequired) <==> FirstUnread(s) == Some(None)
    ensures BuiltScope(s) == Err(InvalidLocation) <==> FirstUnread(s) == Some(Some(None))
    ensures BuiltScope(s) == Err(ModeRequired) <==>
      s.kind == TransportationScope && FirstUnread(s) == None && s.mode == None
    ensures BuiltScope(s) == Err(InvalidMode) <==>
      && s.kind == TransportationScope && FirstUnread(s) == None && s.mode.Some?
      && s.mode.value !in {"OCEAN", "AIR", "TRUCK", "Railway"}
  {
  }

  /** The first location that the scope needs and that cannot be read. */
  ghost function FirstUnread(s: ScopeInput): Option<Option<Option<LocationId>>> {
    var needed := if s.kind == LocationScope then [s.location] else [s.origin, s.destination];
    if needed[0].None? || needed[0].value.None? then Some(needed[0])
    else if |needed| == 2 && (needed[1].None? || needed[1].value.None?) then Some(needed[1])
    else None
  }

  /** What is wrong with the scope of a line is said before what is wrong with its price. */
  lemma LineIsRefusedFor(input: LineItemInput)
    ensures Drafted(input).Ok? <==> BuiltScope(input.scope).Ok? && Built(input.pricingType, input.attrs).Ok?
    ensures BuiltScope(input.scope).Err? ==> Drafted(input) == Err(BuiltScope(input.scope).error)
    ensures BuiltScope(input.scope).Ok? && Built(input.pricingType, input.attrs).Err? ==>
      Drafted(input) == Err(Built(input.pricingType, input.attrs).error)
  {
  }

  lemma OtherScopesAreRefused(s: ScopeInput)
    ensures s.kind.OtherScope? ==> BuiltScope(s) == Err(UnsupportedScopeType)
  {
  }
}
