# Verified model of the money path of a transport management system

The system prices transport. Logistics providers hand in *tariffs* (price lists of line items) under
service *contracts*; shippers combine line items of contracted tariffs into *rates*; a rate is
simulated on a route, segment by segment, and gives a cost per segment, provider and currency.
Around this sit standard operating procedures (SOPs), shipments with milestones, and tracking units.

This project models that logic in Dafny and proves what it keeps, over all inputs and all runs.

| area | modules |
|---|---|
| money, totals, grouping, orders of sequences | `Shared`, `Totals`, `Grouping`, `Permutations` |
| the tariff engine, its pricing trees, and what is charged | `Pricing`, `PricingTrees`, `StrategyBuilder`, `ChargedItems`, `ChargedEntries` |
| storing tariffs as JSON | `TariffStore` |
| weight-band sheets compiled to formulas, and what they charge | `DecimalText`, `FormulaLanguage`, `WeightBands`, `CellScopes`, `WeightBandRows`, `SheetPricing` |
| rates, their store and their simulation | `Rates`, `RateStore`, `Simulation`, `Conservation`, `Refinement`, `SimulationTheorems` |
| contracts, tariffs and rates as one protocol | `SourcingModel`, `SourcingInvariants`, `SourcingSafety`, `SourcingAnswers`, `SourcingRefusals`, `SourcingOrigins`, `SourcingLoads`, `SourcingTheorems`, `Sourcing`, `SimulationAnswers` |
| SOPs | `SopDefinitions`, `SopInstances`, `SopTheorems`, `SopHistories` |
| shipments and tracking | `Shipments`, `ShipmentTheorems`, `Tracking`, `TrackingTheorems`, `TrackingStore` |

Code that updates objects is modelled by classes (`Rate`, `ServiceContract`, `SOPDefinition`,
`SOPInstance`, `ShipmentExecution`, `Shipment`, `TrackingUnit`, and `Platform`, which holds the three
stores); each method is proved to take exactly the step of a transition function, with the same
guards in the same order, and the run-level theorems are about those functions. Loops over values
are methods with invariants, proved against specifications. `dafny verify dfyconfig.toml` checks all.

## Conventions

- A UUID is a number; `NIL` is the zero UUID, and a new UUID is the next unused number, so new IDs
  are distinct from all others. A location is its 16 bytes.
- Decimals are exact, so amounts are `real`; texts of decimals are modelled digit by digit. The
  unit price of a rate entry is rounded by its column, and so it is in the model (`RateStore`).
- The expression engine is a parameter `eng` that maps a formula and an environment to a number or a
  failure. The weight-band theorems ask one thing of it (`HonoursAt`): that it gives the one formula
  they are about its exact value in the one environment they are about. The program's engine computes
  in float64, so the theorems are about those weights and amounts for which its product is exact. The
  only name in a generated formula is `weight` (`OnlyWeightIsNamed`), so reserved words play no part.
- The runs of the protocol are over all use cases that write contracts, tariffs or rates, file-based
  ones included. What a parser and a validator make of a file is an input of the step.
- A repository is a map, and a use case is one atomic step. Where an answer has no defined order, the
  model allows every order (map iteration, the tariffs of a contract), or shows that the order plays
  no part: so it is for the entries of a rate (`RunsIgnoreOrder`, `OutcomeIgnoresOrder`) and for the
  line items of a tariff (`ReloadedTariffPricesAlike`, `PriceIgnoresItemOrder`).
- Times are integers; the zero time is 0.

## What the proofs bring out

- In every run, with no proviso, a rate entry whose tariff exists shows the data of one of its line
  items (`EntriesAreCorrectCaches`), and an ACTIVE rate never changes (`ActiveRatesAreFrozen`).
- The price an entry shows is rounded to four decimals when the rate is saved, while the simulation
  charges what the tariff says. A flat item is charged the shown price times the quantity if and only
  if its price has four decimals (`ShownPriceIsChargedIff`, over runs `ShownPriceIsChargedOverRuns`); a
  price of 0.00001 is shown as zero (`TinyPriceIsShownAsZero`). Nothing else depends on it: matching,
  charges, totals and failures are those of the tariff, whatever the entries show.
- Entries are loaded without ORDER BY. For any two orders, a simulation fails for the same requests,
  charges and skips the same in every segment, and has the same totals (`FailureIgnoresOrder`,
  `OutcomeIgnoresOrder`, `SegmentIgnoresOrder`), and every use case answers alike and leaves the same
  stores behind up to that order (`StepsAlike`, `RunsIgnoreOrder`). Only which of several failing
  entries is reported, and the order of listings, may differ.
- `UpdateRateEntryTariff` does not ask that the named contract be out of DRAFT. That is exactly what
  decides whether a tariff can disappear under a rate: a successful replace keeps all entries safe if
  and only if the contract it names is no draft (`ReplaceIsSafeIff`), runs whose replaces name no
  draft never let anything disappear (`SafetyOverRuns`), and an entry whose tariff is in a draft
  contract is one removal away from dangling (`DraftEntryCanDangle`, `CrossReplacementDangles`). A
  replace that names another contracted contract is harmless in this respect; it only breaks that
  entries point into their own contract (`ReplaceAgreesIff`).
  In a whole run without replaces that name a draft, loads in any order included, no simulation ever
  fails for a missing tariff or line item (`SimulationsNeverDangleOverRuns`).
- The strategy builder of the file-based versions is a placeholder that refuses every line, but a
  sheet without lines passes (`OnlyEmptySheetsPass`). `AddTariffVersion` then puts a version on a
  tariff of a draft contract, and its base can still be removed (`EmptyVersionDangles`). That guard is
  what decides: as long as all versions are in contracts that have left DRAFT, a step keeps them so if
  and only if it is not a successful `AddTariffVersion` (`VersionsStaySettledIff`); a version in a draft
  contract is one removal away from a dangling base (`DraftVersionCanDangle`); and where there is no
  such version, and only there, no run that adds none can break a chain
  (`SettledIffChainsCannotBreak`, `ChainsHoldOverRuns`, `ChainsHoldFromStart`). A tariff without line
  items is stored if and only if a file-based use case succeeds on an empty sheet
  (`StoredHasItemsIff`, `EmptySheetIsStored`).
- Everything in the stores comes from commands as they were given: in every run, each contract has the
  parties and dates, each tariff the contract, name, dates and items, and each entry the provider and
  the line item that some command named (`SourcingOrigins`). Which commands succeed is said of input
  and stores alone (`SourcingAnswers`). An apply adds exactly the items that pass the filter
  (`AddedEntriesPass`, `PassingItemsAreAdded`), and it succeeds even on an ACTIVE rate if none does
  (`ApplySucceedsIff`).
- All use cases that write contracts, tariffs and rates check in the same order: input, rate, contract,
  its status, tariff, sheet or line item. Each refusal comes exactly when its check is the first that
  fails (`SourcingRefusals`).
- A valid request to simulate a rate is answered by simulations if and only if the rate was activated
  before (`SimulatedIffActivated`).
- A location item is charged if and only if its location is a stop of the route, at whichever end of a
  segment, so its charge does not depend on the direction of travel (`AppliedIffServed`,
  `LocationItemsIgnoreDirection`).
- Formulas see the larger of weight and 1000 times volume as the chargeable weight (`CargoIsCharged`).
  A dynamic attribute with the name of a cargo field hides that field (`AttributesOverrideCargo`).
- The log of an SOP instance tells the whole history of each task: completion only directly after a
  start, no second start, and every task in the state and with the assignee its log says
  (`EveryRunIsDocumented`, `CompletedWasStarted`).
- `ReorderSteps` accepts repeated IDs of the right count and then loses a step; it keeps exactly the
  original steps if and only if the requested IDs are distinct (`ReorderIsPermutationIff`).
- A compiled weight-band formula never looks at lower bounds: every weight is charged by the band
  that contains it if and only if the rows come in ascending order
  (`PickedByContainmentIffAscending`).
- Band rows are grouped by the printed text of their scope. Equal texts mean equal scopes
  (`ScopeKeyIsInjective`), so a row's line item has the row's own scope and charge code
  (`RowAndItemAgree`) and applies exactly where the row's scope does (`SheetRowIsCharged`).
- A weight-band item is charged in the currency of its first row. Every row is charged in its own
  currency if and only if all rows of the group name the same one (`OwnCurrencyIff`); a sheet with a
  dollar and a euro band charges euros as dollars (`TwoCurrencySheet`).
- An empty composite is a zero in USD. Dropping it changes the outcome of a tree exactly when the
  other leaves all price in one currency other than USD (`DroppingEmptiesIsSafeIff`). The builder
  never makes one (`BuilderImage`).
- Line items are loaded without ORDER BY, so a stored tariff may come back in another order; its
  charges and totals do not change, but which of several failing items is reported may. The price of
  every rate entry stays the same (`PriceIgnoresItemOrder`).
- The doubled roll-up of tracking statuses differs from the flat one exactly when some unit has no
  segment and all segments there are have arrived (`TwoLevelRollupIsFlatIff`).
- A batch of tracking events is compared with the events known before it, not with itself, so
  duplicates within one batch are kept: keys stay distinct if and only if every key that occurs twice
  in the batch was known before (`KeysStayDistinctIff`).
- New events go to the first segment with the processed segment's ID. A second sync with the same
  answers changes nothing if and only if segments that repeat an ID already know the events of their
  own answers (`SyncIsIdempotentIff`), which holds when segment IDs are distinct. The store makes them
  distinct, but keeps event times to the microsecond only: across a save and a load the second sync
  changes nothing if and only if all times in the answers are whole microseconds, and otherwise adds
  the event again each time (`SyncAcrossStoreIff`).
- A location charge belongs to no particular segment: its entry matches every segment, so it is
  attributed to the first, and it is the only kind of charge that is ever reported as skipped.

## Model

| member | source | states |
|---|---|---|
| Totals.AccumulateKeepsTotals | src/internal/rate/application/rate/simulate_rate_cost.go:229-237 | adding a charge to a correct map of totals keeps it correct, and the `Add` error that the code swallows cannot occur |
| Totals.ListTotals | src/internal/rate/application/rate/simulate_rate_cost.go:256-263 | in whatever order the map is iterated, each currency present is listed exactly once, with its sum |
| Totals.SumCharges | src/internal/rate/application/rate/simulate_rate_cost.go:302-320 | the list names every currency of the charges once, no other, each with the sum of its charges |
| Totals.ListingConserves | src/internal/sourcing/domain/pricing/tariff.go:240-263 | adding up a list of totals gives back the sum of the charges, in every currency |
| Pricing.Calculate | src/internal/sourcing/domain/pricing/composite_strategy.go:15-37 | the loop over steps computes the recursive value of the tree, including which failure comes first |
| Pricing.AppliesTo | src/internal/sourcing/domain/pricing/service_scope.go:27-59 | the search of the segments finds out whether the scope applies |
| Pricing.BuildExpressionEnv | src/internal/sourcing/domain/pricing/expression_strategy.go:61-98 | the standard fields with the chargeable weight, then the attributes in any order, give the environment of the formula |
| Pricing.BuildContext | src/internal/sourcing/domain/pricing/calculation_request.go:69-110 | conditions, containers and chargeable weight of a request become the context of the calculation |
| Pricing.CalculateCharges | src/internal/sourcing/domain/pricing/tariff.go:176-221 | fails on no items or with the first applicable item that has no price; otherwise applied and skipped items are exactly the applicable and the inapplicable ones, in order, with correct totals |
| ChargedItems.AppliedIffServed | src/internal/sourcing/domain/pricing/service_scope.go:27-59 | in a successful calculation, an item is applied if and only if its location is a stop of the route, or its exact segment is on it, and skipped otherwise |
| ChargedItems.CalculationFailsIff | src/internal/sourcing/domain/pricing/tariff.go:177-205 | a calculation fails if and only if there are no items or an item so served has no price |
| ChargedItems.FirstFailureIsReported | src/internal/sourcing/domain/pricing/tariff.go:198-205 | it names the first item so served that has no price, and why |
| ChargedItems.LocationItemsIgnoreDirection | src/internal/sourcing/domain/pricing/service_scope.go:27-39 | location items are charged and skipped alike when every segment is travelled the other way |
| ChargedItems.EnvironmentHolds | src/internal/sourcing/domain/pricing/expression_strategy.go:61-98 | name by name: a formula finds the attribute of the request if there is one, read as a number where it can be, and else the field of the cargo |
| ChargedItems.NamedNumberIsCharged | src/internal/sourcing/domain/pricing/expression_strategy.go:21-57 | a formula that is just a name is charged the number known under that name, and zero where it is negative |
| ChargedItems.AttributesOverrideCargo | src/internal/sourcing/domain/pricing/expression_strategy.go:79-95 | a dynamic attribute that reads as a number is charged in place of the cargo field of the same name |
| ChargedItems.ExpressionPriceIff | src/internal/sourcing/domain/pricing/expression_strategy.go:21-57 | an expression has a price if and only if the engine gives its formula a number and it names a currency; the price is that number or zero, whichever is larger |
| PricingTrees.TreeIsSumOfLeaves | src/internal/sourcing/domain/pricing/composite_strategy.go:15-37 | a tree has a price if and only if all its leaves price in one common currency, and the price is then their sum |
| PricingTrees.FirstBadStepDecides | src/internal/sourcing/domain/pricing/composite_strategy.go:20-36 | a composite reports its first step without a price, or in another currency than the steps before it, with both currencies in order |
| PricingTrees.FlattenPreservesMeaning | src/internal/sourcing/domain/pricing/composite_strategy.go:20-36 | putting all leaves under one composite changes neither the value of a tree nor whether it fails |
| PricingTrees.DroppingEmptiesIsSafeIff | src/internal/sourcing/domain/pricing/composite_strategy.go:16-18 | empty composites can be dropped without changing the outcome if and only if the other leaves do not all price in one currency other than USD |
| StrategyBuilder.BuildPricingStrategy | src/internal/sourcing/application/tariff/register_tariff.go:349-474 | the loop over steps builds the tree of the recursive definition or reports the first error |
| StrategyBuilder.BuilderImage | src/internal/sourcing/application/tariff/register_tariff.go:384-474 | the trees that can be built are exactly those without empty composites whose flat prices name a currency |
| StrategyBuilder.FlatIsBuiltIff | src/internal/sourcing/application/tariff/register_tariff.go:368-396 | a flat price is built from a number, or a text that reads as one, and a currency that is not empty |
| StrategyBuilder.ExpressionIsBuiltIff | src/internal/sourcing/application/tariff/register_tariff.go:398-421 | an expression is built from a formula and a currency text, either of which may be empty |
| StrategyBuilder.LocationIsBuiltIff | src/internal/sourcing/application/tariff/register_tariff.go:289-307 | a location scope needs a location; the service type is HANDLING where none is given |
| StrategyBuilder.TransportationIsBuiltIff | src/internal/sourcing/application/tariff/register_tariff.go:309-342 | a transportation scope needs two locations, in their order, and one of the four modes |
| StrategyBuilder.PriceIsRefusedIff | src/internal/sourcing/application/tariff/register_tariff.go:368-421 | for what a flat price or an expression is refused, amount or formula before currency |
| StrategyBuilder.CompositeIsRefusedFor | src/internal/sourcing/application/tariff/register_tariff.go:424-474 | a composite is refused for its first step that is refused |
| StrategyBuilder.ScopeIsRefusedIff | src/internal/sourcing/application/tariff/register_tariff.go:285-342 | for what a scope is refused: the first location that is missing or unreadable, then the mode |
| StrategyBuilder.ConvertToLineItem | src/internal/sourcing/application/tariff/register_tariff.go:261-282 | the scope error comes before the pricing error; otherwise the line item has the built scope and tree and the new ID |
| TariffStore.DeserializeLogic | src/internal/sourcing/infrastructure/persistence/postgres_tariff_repo.go:272-332 | the recursive decoder with its loop over steps reads the tree determined by which keys are present, and leaves out unreadable steps |
| TariffStore.LogicRoundTrip | src/internal/sourcing/infrastructure/persistence/postgres_tariff_repo.go:63-72 | decoding the marshalled form of any pricing tree, however nested, gives that tree back |
| TariffStore.ScopeRoundTrip | src/internal/sourcing/infrastructure/persistence/postgres_tariff_repo.go:226-269 | decoding the marshalled form of any scope gives that scope back, so it accepts the same routes |
| TariffStore.KeysDecide | src/internal/sourcing/infrastructure/persistence/postgres_tariff_repo.go:272-332 | a document is read as flat, expression or composite by the first of three keys that is present, and not at all without any |
| TariffStore.KeysDecideScope | src/internal/sourcing/infrastructure/persistence/postgres_tariff_repo.go:226-269 | a scope document is read by OriginID before LocationID, and not at all without either |
| TariffStore.FlatIsReadIff | src/internal/sourcing/infrastructure/persistence/postgres_tariff_repo.go:283-296 | of any document with an amount, stored by this program or not: exactly which flat price is read, where null and absent mean zero and empty |
| TariffStore.ExpressionIsReadIff | src/internal/sourcing/infrastructure/persistence/postgres_tariff_repo.go:299-311 | exactly which expression is read from any document with a formula and without an amount |
| TariffStore.CompositeIsReadIff | src/internal/sourcing/infrastructure/persistence/postgres_tariff_repo.go:314-329 | exactly which composite is read from a document with steps and without the other keys |
| TariffStore.LocationIsReadIff | src/internal/sourcing/infrastructure/persistence/postgres_tariff_repo.go:254-266 | exactly which location scope is read: missing bytes are zero, bytes after the sixteenth are ignored |
| TariffStore.TransportationIsReadIff | src/internal/sourcing/infrastructure/persistence/postgres_tariff_repo.go:237-251 | exactly which transportation scope is read, with the two locations in their order |
| TariffStore.UnreadableStepIsLeftOut | src/internal/sourcing/infrastructure/persistence/postgres_tariff_repo.go:310-328 | a step that cannot be read is left out without any effect on the other steps |
| TariffStore.SameLogic | src/internal/sourcing/infrastructure/persistence/postgres_tariff_repo.go:272-332 | decoding a pricing tree does not depend on the order of fields in any object of the document, at any depth |
| TariffStore.SameScope | src/internal/sourcing/infrastructure/persistence/postgres_tariff_repo.go:226-269 | decoding a scope does not depend on the order of fields |
| TariffStore.ReorderedFieldsAreSame | src/db/migrations/000005_sourcing_contracts_tariffs.up.sql:40-41 | any reordering of the fields of an object, which a JSONB column may do, leaves the same document |
| TariffStore.ReloadIsPermutation | src/internal/sourcing/infrastructure/persistence/postgres_tariff_repo.go:173-195 | every stored row can be read, whatever the order of its fields, and a load yields the stored line items, each as often as it was stored |
| TariffStore.ReloadedTariffPricesAlike | src/internal/sourcing/infrastructure/persistence/postgres_tariff_repo.go:82-99 | a stored tariff prices every request as before: it fails for the same requests, and has the same charges and the same sum in every currency |
| FormulaLanguage.LexLiteral | src/internal/sourcing/infrastructure/parser/csv_row_converter.go:267-269 | the text that the decimal library prints, with sign and without trailing zeros, is read back as exactly that number |
| FormulaLanguage.FragmentEngineHonours | src/internal/sourcing/domain/pricing/expression_strategy.go:26-49 | the hypothesis on the engine can be met for all formulas and environments at once |
| WeightBands.BuildWeightBandFormula | src/internal/sourcing/infrastructure/parser/csv_row_converter.go:255-273 | the parts joined with " : " spell the nested conditional formula |
| WeightBands.DocumentedFormula | src/internal/sourcing/infrastructure/parser/csv_row_converter.go:253-255 | two bands of the documented example give exactly its text, without trailing zeros |
| WeightBands.FormulaParses | src/internal/sourcing/infrastructure/parser/csv_row_converter.go:255-273 | for every list of bands, lexing and parsing the generated text with a right-associative conditional gives the intended nesting |
| WeightBands.OnlyWeightIsNamed | src/internal/sourcing/infrastructure/parser/csv_row_converter.go:260-269 | the parsed formula mentions no name but `weight` |
| WeightBands.TreeValue | src/internal/sourcing/infrastructure/parser/csv_row_converter.go:263-271 | the nested conditional evaluates to the weight times the amount of the first band whose upper bound is not exceeded, or of the last band |
| WeightBands.CompiledBandsPrice | src/internal/sourcing/domain/pricing/expression_strategy.go:21-57 | where the engine is exact, an expression strategy with a generated formula charges that product in its currency, and zero where the product is negative |
| WeightBands.ClampIsInert | src/internal/sourcing/domain/pricing/expression_strategy.go:51-56 | for non-negative weight and amounts the clamp at zero changes nothing |
| WeightBands.PickedByContainmentIffAscending | src/internal/sourcing/infrastructure/parser/csv_row_converter.go:264-270 | every weight is charged by the band that contains it if and only if the rows are in ascending order |
| WeightBands.OutsideTheRange | src/internal/sourcing/infrastructure/parser/csv_row_converter.go:264-270 | a weight up to the first upper bound is charged by the first band, one above all bounds by the last |
| WeightBands.AscendingBandsPrice | src/internal/sourcing/infrastructure/parser/csv_row_converter.go:253-273 | end to end, for ascending rows and an engine that is exact on this shipment: text, parse, evaluation and clamp charge the weight times the amount of the band that contains it (first below, last above) |
| CellScopes.ScopeKeyIsInjective | src/internal/sourcing/infrastructure/parser/csv_row_converter.go:180-181 | scopes with the same printed text are the same scope, optional mode and service type included |
| WeightBandRows.SameGroupIff | src/internal/sourcing/infrastructure/parser/csv_row_converter.go:180-181 | two band rows have the same key if and only if their charge codes and scope texts agree |
| WeightBandRows.GroupRows | src/internal/sourcing/infrastructure/parser/csv_row_converter.go:154-224 | fails if and only if some non-blank row has no scope; otherwise there is one group for each key, with its bands in row order and its name, category and scope from its first row |
| WeightBandRows.ConvertWeightBandRows | src/internal/sourcing/infrastructure/parser/csv_row_converter.go:139-251 | one item for each key in order of first occurrence, compiled from all rows with that key, in the first row's currency |
| WeightBandRows.RowsArePartitioned | src/internal/sourcing/infrastructure/parser/csv_row_converter.go:202-223 | the items' keys are pairwise distinct, and the groups together hold every band row exactly once |
| WeightBandRows.RowsWithAre | src/internal/sourcing/infrastructure/parser/csv_row_converter.go:154-192 | an item is made of exactly the non-blank rows with a readable amount and the item's charge code and scope |
| SheetPricing.EveryRowHasItsItem | src/internal/sourcing/infrastructure/parser/csv_row_converter.go:202-248 | every band row of a sheet has an emitted item with its key, and is one of the rows that item is compiled from |
| SheetPricing.RowAndItemAgree | src/internal/sourcing/infrastructure/parser/csv_row_converter.go:234-247 | the item of a band row has the charge code and the scope of that row |
| SheetPricing.SheetRowIsCharged | src/internal/sourcing/domain/pricing/tariff.go:186-210 | from the sheet through the registration to the calculation: where the row's scope applies to the route, its line item is charged, under the row's charge code, the weight times the amount of the row that contains the weight; elsewhere it is skipped |
| SheetPricing.SheetRowIsSimulated | src/internal/rate/application/rate/simulate_rate_cost.go:190-227 | from the sheet to the simulation: the entry of that line item is charged the same price |
| SheetPricing.OwnCurrencyIff | src/internal/sourcing/infrastructure/parser/csv_row_converter.go:231-246 | for an item that can be priced at all, every row is charged in its own currency if and only if all its rows name the same one |
| SheetPricing.TwoCurrencySheet | src/internal/sourcing/infrastructure/parser/csv_row_converter.go:231-246 | a sheet with a dollar and a euro band: a weight in the euro band is charged in dollars |
| Rates.ExtractRateableItems | src/internal/sourcing/domain/pricing/rateable_line_item.go:24-63 | item by item: a route only for transport, a unit price only for flat pricing |
| Rates.Rate.AddEntry | src/internal/rate/domain/rate/rate.go:86-111 | appends the entry in DRAFT if its tariff, line item and charge code are present, with a new ID if it has none; otherwise the rate is unchanged |
| Rates.Rate.RemoveEntry | src/internal/rate/domain/rate/rate.go:114-128 | removes the first entry with the ID, in DRAFT only |
| Rates.Rate.Activate | src/internal/rate/domain/rate/rate.go:131-143 | DRAFT with entries becomes ACTIVE; entries do not change |
| Rates.Rate.MarkAsExpired | src/internal/rate/domain/rate/rate.go:146-154 | only ACTIVE becomes EXPIRED |
| Rates.Rate.ReplaceEntryLineItem | src/internal/rate/domain/rate/rate.go:167-195 | the first entry with the ID takes the replacement's data and keeps its ID, contract and provider; all other entries stay |
| Rates.Rate.FindEntriesForRoute | src/internal/rate/domain/rate/rate.go:198-206 | exactly the matching entries, in entry order |
| Rates.EditsSucceedIff | src/internal/rate/domain/rate/rate.go:86-195 | exactly when adding, removing, replacing and activating succeed: on a draft, with what each needs |
| Rates.EditRefusedIff | src/internal/rate/domain/rate/rate.go:86-195 | and for which of the conditions an edit is refused, in the order of the checks |
| Rates.RemovedIsWithout | src/internal/rate/domain/rate/rate.go:114-128 | a removal takes out the entry with the ID and keeps the others in their order |
| Rates.AddedIsLast | src/internal/rate/domain/rate/rate.go:86-111 | an added entry comes last as it was given, with its own ID or, without one, the new ID |
| Rates.ShownPriceIs | src/internal/sourcing/domain/pricing/rateable_line_item.go:50-58 | an item that is not flat is shown with zero USD, a flat one with its own price |
| RateStore.RoundedIsNearest | src/db/migrations/000012_rate_entry_lineitem_granularity.up.sql:5 | the stored price has four decimals, none is nearer to the exact price, and of two equally near ones it is the one further from zero |
| RateStore.RoundedIff | src/db/migrations/000012_rate_entry_lineitem_granularity.up.sql:5 | storing keeps a price if and only if it has four decimals |
| RateStore.InsertEntries | src/internal/rate/infrastructure/persistence/postgres_rate_repo.go:54-84 | the loop saves every entry in order, with nothing changed but the rounded price |
| RateStore.ShownPriceIsExactIff | src/internal/rate/infrastructure/persistence/postgres_rate_repo.go:79-80 | a stored entry shows the price of its flat item if and only if that price has four decimals |
| RateStore.TinyPriceIsShownAsZero | src/db/migrations/000012_rate_entry_lineitem_granularity.up.sql:5 | a price of 0.00001 is shown as zero |
| Simulation.CalculateItem | src/internal/rate/infrastructure/tariff_calculator_adapter.go:27-51 | the whole tariff is priced and the item's own outcome picked out; each failure in its order |
| Simulation.ExtractResult | src/internal/rate/infrastructure/tariff_calculator_adapter.go:80-112 | the first applied result with the ID, else the first skipped one with zero USD, else an error |
| Simulation.GroupChargesByProvider | src/internal/rate/application/rate/simulate_rate_cost.go:276-299 | one group for each provider in order of first occurrence, with exactly its charges in order and their totals |
| Simulation.SimulateSegment | src/internal/rate/application/rate/simulate_rate_cost.go:181-238 | processes exactly the matched entries whose ID was not seen before, in order, and adds their charges to the running totals; fails at the first entry that cannot be priced |
| Simulation.SimulateRoute | src/internal/rate/application/rate/simulate_rate_cost.go:154-273 | the result is determined up to the order of totals: charges and skips of the visited entries, one segment result for each segment, availability if and only if something applies, or the first failing entry |
| Conservation.BreakdownIsPermutation | src/internal/rate/application/rate/simulate_rate_cost.go:280-291 | the provider groups of a segment hold its charges, each exactly once |
| Conservation.GroupsAreByProvider | src/internal/rate/application/rate/simulate_rate_cost.go:275-300 | each provider of a charge has one group, with exactly the charges of that provider |
| Conservation.SegmentConserves | src/internal/rate/application/rate/simulate_rate_cost.go:240-253 | for the provider groups and totals of the same charges, subtotals add up to the segment total in every currency |
| Conservation.RouteConserves | src/internal/rate/application/rate/simulate_rate_cost.go:226-272 | in every currency, provider subtotals, segment totals, the route total and the applied charges agree |
| Refinement.MatchingIsApplicability | src/internal/sourcing/domain/pricing/service_scope.go:27-59 | a transport entry matches a segment of a route if and only if its line item applies to the route; a location entry matches every segment |
| Refinement.PresentItem | src/internal/sourcing/domain/pricing/tariff.go:186-210 | in the result of a whole-tariff pass, an item's ID leads to that item's own result |
| Refinement.PriceOfProjection | src/internal/rate/infrastructure/tariff_calculator_adapter.go:27-51 | pricing an entry that projects a stored item fails if and only if the cargo is invalid or its tariff has an applicable item without a price, never for a missing item; otherwise it gives that item's own price or skip |
| Refinement.SeenIffMatched | src/internal/rate/application/rate/simulate_rate_cost.go:174-188 | an entry has been processed before a segment if and only if it matched an earlier segment |
| Refinement.ClaimedIsTaken | src/internal/rate/application/rate/simulate_rate_cost.go:178-188 | each segment processes exactly the entries that match it and no earlier segment, in entry order |
| Refinement.VisitedOnce | src/internal/rate/application/rate/simulate_rate_cost.go:178-188 | every entry that matches some segment is processed exactly once |
| SimulationTheorems.SimulationRefinesDirectPricing | src/internal/rate/application/rate/simulate_rate_cost.go:154-273 | a successful simulation applies exactly the entries whose items apply to the whole route, once each, at the amount that pricing the item directly gives; it skips exactly the location entries that do not apply |
| SimulationTheorems.ChargedInFirstMatch | src/internal/rate/application/rate/simulate_rate_cost.go:178-253 | each charge and skip is attributed to the first segment that its entry matches |
| SimulationTheorems.SimulationFailsIff | src/internal/rate/application/rate/simulate_rate_cost.go:199-205 | a simulation fails if and only if some matching entry's tariff cannot be priced |
| SimulationTheorems.CoveringRateTotalsAgree | src/internal/rate/application/rate/simulate_rate_cost.go:256-272 | for a rate with one entry for each item of a tariff, the simulated total is the total of one direct pass over the tariff, in every currency |
| SimulationTheorems.AppliedAreDirect | src/internal/rate/application/rate/simulate_rate_cost.go:219-227 | a charge is applied if and only if it is the direct charge of some entry of the rate |
| SimulationTheorems.FlatItemIsChargedByQuantity | src/internal/sourcing/domain/pricing/flat_strategy.go:14-17 | in a successful simulation, an entry of a flat item is charged exactly the item's unit price times the quantity if the item applies to the route, and nothing otherwise |
| ChargedEntries.ChargedIffServed | src/internal/sourcing/domain/pricing/service_scope.go:27-59 | in a successful simulation, an entry is charged if and only if the location of its item is a stop of the route, or its exact segment is on it |
| ChargedEntries.SkippedIffNoStop | src/internal/rate/application/rate/simulate_rate_cost.go:208-217 | an entry is reported as skipped if and only if its item is of a location that is no stop of the route |
| ChargedEntries.AvailableIff | src/internal/rate/application/rate/simulate_rate_cost.go:265-272 | a route is available if and only if some entry is so served |
| ChargedEntries.SegmentHasEntriesIff | src/internal/rate/application/rate/simulate_rate_cost.go:240-253 | a segment has entries if and only if some entry that matches it first is so served |
| ChargedEntries.LocationEntriesIgnoreDirection | src/internal/sourcing/domain/pricing/service_scope.go:27-39 | location charges of entries stay when every segment is travelled the other way |
| ChargedEntries.CargoIsCharged | src/internal/rate/infrastructure/tariff_calculator_adapter.go:54-78 | a formula that names a cargo field is charged that field of the job: quantity, weight, volume, and for the chargeable weight one of weight and 1000 times volume that is at least both |
| SimulationTheorems.ShownPriceIsChargedIff | src/internal/rate/infrastructure/persistence/postgres_rate_repo.go:79-80 | what a stored entry shows, times the quantity, is what its applicable flat item is charged, if and only if the item's price has four decimals |
| SimulationTheorems.FailureIgnoresOrder | src/internal/rate/infrastructure/persistence/postgres_rate_repo.go:168-173 | for the same entries in another order, a simulation fails for the same requests |
| SimulationTheorems.OutcomeIgnoresOrder | src/internal/rate/infrastructure/persistence/postgres_rate_repo.go:168-213 | and charges the same, skips the same and has the same total in every currency |
| SimulationTheorems.SegmentIgnoresOrder | src/internal/rate/application/rate/simulate_rate_cost.go:178-253 | and does so in every segment |
| SimulationTheorems.PriceIgnoresItemOrder | src/internal/sourcing/infrastructure/persistence/postgres_tariff_repo.go:173-195 | for tariffs whose line items come back in another order, every entry has the same price, skip or failure |
| Sourcing.ServiceContract.MarkAsContracted | src/internal/sourcing/domain/contract/service_contract.go:68-78 | only DRAFT becomes CONTRACTED |
| Sourcing.ServiceContract.MarkAsExpired | src/internal/sourcing/domain/contract/service_contract.go:81-91 | only CONTRACTED becomes EXPIRED |
| Sourcing.ServiceContract.MarkAsCancelled | src/internal/sourcing/domain/contract/service_contract.go:94-104 | all but EXPIRED and CANCELLED become CANCELLED |
| Sourcing.ConvertItems | src/internal/sourcing/application/tariff/register_tariff_direct.go:98-119 | all inputs converted in order with new IDs, or the first conversion or add error |
| Sourcing.Platform.FindTariffs | src/internal/rate/application/rate/apply_contract_to_rate.go:156-179 | the named tariffs in order, all of the contract, or the first that is missing or of another contract |
| Sourcing.SelectItems | src/internal/rate/application/rate/apply_contract_to_rate.go:189-205 | the items of each tariff in order that pass the filter; an empty filter passes all |
| Sourcing.AddEntriesToRate | src/internal/rate/application/rate/apply_contract_to_rate.go:207-247 | the rate grows by one entry for each selected item, or the first refusal is reported |
| Sourcing.Platform.CreateBidContract | src/internal/sourcing/application/bid/create_contract.go:40-105 | takes exactly the model's step on the stores, or refuses and changes nothing |
| Sourcing.Platform.RegisterTariffDirect | src/internal/sourcing/application/tariff/register_tariff_direct.go:66-125 | version 1 tariffs only under DRAFT contracts; takes exactly the model's step |
| Sourcing.Platform.UpdateContractPeriod | src/internal/sourcing/application/bid/update_contract_period.go:51-91 | new dates for a DRAFT contract only; takes exactly the model's step |
| Sourcing.Platform.GetOrCreateContract | src/internal/sourcing/application/tariff/register_tariff.go:149-180 | the named draft contract, or a new draft with the given period that is not saved yet |
| Sourcing.Platform.RegisterTariffFile | src/internal/sourcing/application/tariff/register_tariff.go:43-94 | a version 1 tariff from a parsed file, for an existing draft or a new contract, with each refusal in its order; takes exactly the model's step |
| Sourcing.Platform.AwardBidContract | src/internal/sourcing/application/bid/award_contract.go:45-89 | a DRAFT contract with a tariff becomes CONTRACTED; takes exactly the model's step |
| Sourcing.Platform.CountByContractId | src/internal/sourcing/infrastructure/persistence/postgres_tariff_repo.go:139-143 | the number of the contract's tariffs, which is zero if and only if it has none |
| Sourcing.Platform.DeleteBidContract | src/internal/sourcing/application/bid/delete_contract.go:41-72 | a DRAFT contract becomes CANCELLED; takes exactly the model's step |
| Sourcing.Platform.AmendTariffDirect | src/internal/sourcing/application/tariff/amend_tariff_direct.go:58-132 | next versions only under CONTRACTED contracts, linked to their base; takes exactly the model's step |
| Sourcing.BuildVersionItems | src/internal/sourcing/application/tariff/amend_tariff.go:115-141 | the loop over lines, for any strategy builder: all line items in order with new IDs, or the first line whose scope, strategy or charge code fails |
| Sourcing.OnlyEmptySheetsPass | src/internal/sourcing/application/tariff/amend_tariff.go:265-278 | with the placeholder builder, whose branches for known and unknown types all fail, exactly the sheets without lines pass |
| Sourcing.Platform.NewVersionFromFile | src/internal/sourcing/application/tariff/amend_tariff.go:72-141 | the next version of a tariff of the contract, from a sheet that parses, has valid dates and no lines; each refusal in its order |
| Sourcing.Platform.AmendContractTariff | src/internal/sourcing/application/tariff/amend_tariff.go:48-152 | such a version under a CONTRACTED contract; takes exactly the model's step |
| Sourcing.Platform.AddTariffVersion | src/internal/sourcing/application/tariff/add_tariff_version.go:66-159 | such a version under a DRAFT contract; takes exactly the model's step |
| Sourcing.Platform.RemoveTariffFromContract | src/internal/sourcing/application/tariff/remove_tariff.go:46-82 | removals only from DRAFT contracts; takes exactly the model's step |
| Sourcing.Platform.NewRate | src/internal/rate/application/rate/create_rate.go:43-86 | a DRAFT rate without entries; takes exactly the model's step |
| Sourcing.Platform.SaveRate | src/internal/rate/infrastructure/persistence/postgres_rate_repo.go:26-87 | the stored rate is replaced, status and all entries, with the prices rounded |
| Sourcing.Platform.ApplyContractToRate | src/internal/rate/application/rate/apply_contract_to_rate.go:59-74 | entries for the selected items of a CONTRACTED contract's tariffs; takes exactly the model's step |
| Sourcing.Platform.UpdateRateEntryTariff | src/internal/rate/application/rate/update_rate_entry_tariff.go:40-145 | one entry takes over another line item; takes exactly the model's step |
| Sourcing.Platform.ActivateStoredRate | src/internal/rate/application/rate/activate_rate.go:36-63 | DRAFT with entries becomes ACTIVE; takes exactly the model's step |
| Sourcing.SimulateConditions | src/internal/rate/application/rate/simulate_rate_cost.go:134-142 | one route result for each condition in order, or the failure of the first condition that fails |
| Sourcing.Platform.SimulateRateCost | src/internal/rate/application/rate/simulate_rate_cost.go:108-150 | refuses invalid input, unknown and inactive rates in that order; otherwise every condition is answered by a simulation of the rate's entries, or the first failing one is reported |
| SimulationAnswers.AnswersIff | src/internal/rate/application/rate/simulate_rate_cost.go:108-131 | each refusal comes exactly under its own condition: bad input, then a rate that is not stored, then one that is not ACTIVE; in all other cases the rate is simulated |
| SimulationAnswers.AnswersSimulate | src/internal/rate/application/rate/simulate_rate_cost.go:133-150 | each condition in order is answered by a simulation with its own route, quantity, weight and volume; a failure is that of the first condition that cannot be simulated |
| SimulationAnswers.ActiveIffActivated | src/internal/rate/application/rate/activate_rate.go:36-63 | in every run, a rate is ACTIVE if and only if some step was a successful activation of it |
| SimulationAnswers.SimulatedIffActivated | src/internal/rate/application/rate/simulate_rate_cost.go:108-131 | in every run, a valid request is simulated if and only if the rate was activated before |
| SourcingInvariants.StepKeepsInvariant | src/internal/rate/application/rate/apply_contract_to_rate.go:112-265 | every use case keeps, with no proviso: entries belong to CONTRACTED contracts with their provider and show the data of a line item of their tariff while it exists, entry IDs are distinct, rates past DRAFT have entries, CONTRACTED contracts have tariffs, tariffs are in existing contracts with distinct sound items, IDs are in use once |
| SourcingInvariants.EveryRunKeepsInvariant | src/internal/sourcing/application/tariff/remove_tariff.go:57-82 | the invariant holds over every run of the use cases |
| SourcingInvariants.ReachableStatesAreSound | src/internal/sourcing/application/bid/award_contract.go:61-89 | the invariant holds in every state that any run reaches from empty stores |
| SourcingInvariants.EntriesAreCorrectCaches | src/internal/rate/application/rate/update_rate_entry_tariff.go:103-139 | in every reachable state, scope, charge code and category of an entry whose tariff exists are those extracted from one of its line items, and the unit price is that item's, rounded to four decimals |
| SourcingSafety.ReplaceIsSafeIff | src/internal/rate/application/rate/update_rate_entry_tariff.go:62-139 | from a state where no entry can lose its tariff, a replace leads to such a state if and only if it fails or the contract it names has left DRAFT |
| SourcingSafety.SafetyOverRuns | src/internal/sourcing/application/tariff/remove_tariff.go:57-82 | in every run whose replaces name no draft contract, nothing a rate points at ever disappears |
| SourcingSafety.DraftEntryCanDangle | src/internal/sourcing/application/tariff/remove_tariff.go:46-82 | an entry whose tariff is in a draft contract dangles after one removal |
| SourcingSafety.SafeIffNothingCanDisappear | src/internal/sourcing/application/tariff/remove_tariff.go:46-82 | all entries point into contracts that have left DRAFT if and only if no run without replaces can make an entry dangle |
| SourcingSafety.ReplaceAgreesIff | src/internal/rate/application/rate/update_rate_entry_tariff.go:62-73 | a replace keeps every entry on a tariff of its own contract if and only if it fails or names the entry's contract |
| SourcingSafety.AgreementOverRuns | src/internal/rate/application/rate/apply_contract_to_rate.go:156-180 | in runs whose replaces name the entry's contract, every entry's tariff exists and belongs to the entry's contract |
| SourcingSafety.OtherStepsKeepChains | src/internal/sourcing/domain/pricing/tariff.go:70-97 | every use case but a removal keeps version chains sound: a base exists, one version lower, of the same contract and name |
| SourcingSafety.RemoveKeepsChainsIff | src/internal/sourcing/application/tariff/remove_tariff.go:57-82 | a removal keeps all chains if and only if it fails or no tariff is based on the removed one |
| SourcingSafety.VersionsStaySettledIff | src/internal/sourcing/application/tariff/add_tariff_version.go:77-83 | from a state whose versions are all in contracts that have left DRAFT, a step leads to such a state if and only if it fails or is no AddTariffVersion |
| SourcingSafety.DraftVersionCanDangle | src/internal/sourcing/application/tariff/remove_tariff.go:46-82 | a version in a draft contract loses its base to one removal |
| SourcingSafety.SettledIffChainsCannotBreak | src/internal/sourcing/application/tariff/remove_tariff.go:57-82 | all versions are in contracts that have left DRAFT if and only if no run that adds no version can break a chain |
| SourcingSafety.ChainsHoldOverRuns | src/internal/sourcing/application/tariff/add_tariff_version.go:66-159 | from such a state, in every run in which no AddTariffVersion succeeds, no version chain dangles |
| SourcingSafety.ChainsHoldFromStart | src/internal/sourcing/application/tariff/add_tariff_version.go:66-159 | in every run from empty stores without versions added from empty sheets, no version chain dangles |
| SourcingSafety.StoredHasItemsIff | src/internal/sourcing/application/tariff/register_tariff.go:246-255 | a step stores a tariff without line items if and only if it succeeds on an empty sheet |
| SourcingSafety.ItemsOverRuns | src/internal/sourcing/application/tariff/register_tariff.go:246-255 | in every run without empty sheets, every tariff has line items |
| SourcingAnswers.ContractStepSucceedsIff | src/internal/sourcing/application/bid/award_contract.go:45-89 | contracts are made from complete input, changed, awarded and deleted only as drafts, and awarded only with a tariff |
| SourcingAnswers.DirectStepSucceedsIff | src/internal/sourcing/application/tariff/amend_tariff_direct.go:58-132 | registering succeeds exactly for drafts, amending exactly for contracted contracts that hold the base, whatever its version, both if all inputs are usable; removing exactly for tariffs of a draft |
| SourcingAnswers.RegisterFileSucceedsIff | src/internal/sourcing/application/tariff/register_tariff.go:43-94 | a file is registered exactly if input, contract or period, sheet and validation are in order |
| SourcingAnswers.FileVersionSucceedsIff | src/internal/sourcing/application/tariff/add_tariff_version.go:66-159 | a file-based version succeeds exactly on an empty sheet with valid dates, for a base the contract holds |
| SourcingAnswers.RateStepSucceedsIff | src/internal/rate/application/rate/create_rate.go:43-86 | rates are created from complete input, and activated exactly as drafts with entries |
| SourcingAnswers.ReplaceSucceedsIff | src/internal/rate/application/rate/update_rate_entry_tariff.go:40-145 | a replace succeeds exactly on an entry of a draft rate, with an item of a tariff that the named contract holds |
| SourcingAnswers.ReplaceChangesOneEntry | src/internal/rate/application/rate/update_rate_entry_tariff.go:103-139 | it changes that one entry to the named tariff and line item, and nothing else in the stores |
| SourcingAnswers.ApplySucceedsIff | src/internal/rate/application/rate/apply_contract_to_rate.go:59-180 | an apply succeeds exactly for a contracted contract that holds the named tariffs, on a draft rate, or on any rate if no item passes the filter |
| SourcingAnswers.AddedEntriesPass | src/internal/rate/application/rate/apply_contract_to_rate.go:201-205 | every entry that an apply adds is of a target tariff and one of its items, whose ID is in the filter if that is not empty |
| SourcingAnswers.PassingItemsAreAdded | src/internal/rate/application/rate/apply_contract_to_rate.go:197-247 | every item of a target tariff that passes the filter has an entry among those added |
| SourcingAnswers.NoItemIsAddedTwice | src/internal/rate/application/rate/apply_contract_to_rate.go:197-247 | for distinct target tariffs no item has two |
| SourcingRefusals.RefusedForTheInputIff | src/internal/sourcing/application/tariff/register_tariff_direct.go:71-73 | every use case refuses for its input before anything else, and for nothing but what is missing or out of order in it |
| SourcingRefusals.RefusedForTheRateIff | src/internal/rate/application/rate/update_rate_entry_tariff.go:41-59 | with complete input, for a rate that is not stored, or, for a replace, is no draft |
| SourcingRefusals.RefusedForTheContractIff | src/internal/sourcing/application/tariff/amend_tariff_direct.go:68-72 | with the rate in order, for the contract it names that is not stored |
| SourcingRefusals.RefusedForNoDraftIff | src/internal/sourcing/application/tariff/register_tariff_direct.go:80-84 | then, in all use cases for drafts, for a contract that is no draft |
| SourcingRefusals.RefusedForNoContractedIff | src/internal/sourcing/application/tariff/amend_tariff_direct.go:73-78 | and, in the three use cases for contracted contracts, for one that is not contracted |
| SourcingRefusals.RefusedForTheTariffIff | src/internal/sourcing/application/tariff/add_tariff_version.go:85-96 | with the contract in order, for the tariff that is not stored, or is not that contract's |
| SourcingRefusals.RefusedForTheSheetIff | src/internal/sourcing/application/tariff/register_tariff.go:51-77 | with the tariff in order, for a new contract's period, a file that cannot be parsed, or a validator that rejects it, in this order |
| SourcingRefusals.RefusedForTheLinesIff | src/internal/sourcing/application/tariff/add_tariff_version.go:118-152 | and then for the name and the dates of the sheet, or for having any lines where none can be built |
| SourcingRefusals.RefusedForALine | src/internal/sourcing/application/tariff/register_tariff_direct.go:99-120 | among lines, the first that cannot be used is what is reported |
| SourcingRefusals.RefusedForANamedTariff | src/internal/rate/application/rate/apply_contract_to_rate.go:156-176 | an apply reports the first named tariff that is not stored or not the contract's |
| SourcingRefusals.RefusedForTheEntryIff | src/internal/rate/application/rate/update_rate_entry_tariff.go:75-128 | a replace refuses for the line item that the tariff does not have, and then for the entry that the rate does not have |
| SourcingRefusals.RefusedForNoTariffs | src/internal/sourcing/application/bid/award_contract.go:63-72 | with the contract in order, awarding it, or applying all its tariffs, is refused if and only if it has none |
| SourcingRefusals.RefusedForAnActiveRateIff | src/internal/rate/application/rate/apply_contract_to_rate.go:197-247 | an apply that finds its tariffs is refused if and only if the rate is no draft and some item passes the filter |
| SourcingOrigins.ContractsHaveTheirParties | src/internal/sourcing/application/bid/create_contract.go:40-58 | in every run, a contract is between the provider and the shipper that were named when it was made |
| SourcingOrigins.ContractsHaveTheirDates | src/internal/sourcing/application/bid/update_contract_period.go:51-91 | and has the dates it was made with, or those of an update |
| SourcingOrigins.StatusIsHistory | src/internal/sourcing/application/bid/delete_contract.go:41-72 | and is CONTRACTED if and only if it was awarded, CANCELLED if and only if it was deleted, DRAFT otherwise |
| SourcingOrigins.TariffsAreAsDescribed | src/internal/sourcing/application/tariff/register_tariff_direct.go:66-125 | in every run, every stored tariff has the contract, name, dates, version, base and items that the command described which stored it |
| SourcingOrigins.TariffLeavesIff | src/internal/sourcing/application/tariff/remove_tariff.go:46-82 | a tariff leaves its store if and only if a removal names it and its contract, which is a draft |
| SourcingOrigins.EntriesAreChosen | src/internal/rate/application/rate/apply_contract_to_rate.go:197-247 | in every run, an entry was added by an apply of its contract, and shows an item that passed the filter of an apply or was named by a replace |
| SourcingOrigins.EntriesHaveTheirProvider | src/internal/rate/application/rate/apply_contract_to_rate.go:207-230 | in every run, the provider of an entry is the one named when its contract was made |
| SourcingLoads.StepsAlike | src/internal/rate/infrastructure/persistence/postgres_rate_repo.go:168-213 | in states that differ only in the order of entries, every use case gives the same answer and leads to states that differ only in that |
| SourcingLoads.RunsIgnoreOrder | src/internal/rate/infrastructure/persistence/postgres_rate_repo.go:90-108 | loads that reorder entries, anywhere in a run from empty stores, change nothing but the order of entries, and the invariant still holds |
| SourcingTheorems.AncestorIsOlderVersion | src/internal/sourcing/domain/pricing/tariff.go:70-97 | following base links from version v lands, after h hops, on version v-h of the same contract and name |
| SourcingTheorems.ChainEndsAtFirstVersion | src/internal/sourcing/domain/pricing/tariff.go:70-97 | a chain from version v has exactly v-1 links and is at version 1 only at its end |
| SourcingTheorems.ActiveRatesAreFrozen | src/internal/rate/domain/rate/rate.go:86-195 | in every run, with no proviso, an active rate has entries and never changes again |
| SourcingTheorems.WhyNoPrice | src/internal/rate/infrastructure/tariff_calculator_adapter.go:27-51 | in every reachable state, an entry has no price if and only if its tariff is gone, the cargo is negative, or an applicable item of its tariff has no price; never because the line item is missing |
| SourcingTheorems.WhySimulationFails | src/internal/rate/application/rate/simulate_rate_cost.go:117-142 | in every reachable state, a simulation fails if and only if that is so for an entry that matches a segment |
| SourcingTheorems.SimulationNeverDangles | src/internal/rate/application/rate/simulate_rate_cost.go:117-142 | where no entry can lose its tariff, a simulation fails only through negative cargo or an unpriced applicable item, never for a missing tariff or line item |
| SourcingTheorems.SimulationsNeverDangleOverRuns | src/internal/rate/application/rate/simulate_rate_cost.go:117-142 | over every run from empty stores whose replaces name no draft contract, with entries reordered by loads anywhere: no simulation fails for a missing tariff or line item, only through negative cargo or an unpriced applicable item |
| SourcingTheorems.ShownPriceIsChargedOverRuns | src/internal/rate/infrastructure/persistence/postgres_rate_repo.go:54-84 | in every such run, what an entry shows times the quantity is what its applicable flat item is charged, if and only if the item's price has four decimals |
| SourcingTheorems.CrossReplacementDangles | src/internal/rate/application/rate/update_rate_entry_tariff.go:62-73 | a concrete run with a replace across contracts ends with an active rate that points at a removed tariff |
| SourcingTheorems.EmptySheetIsStored | src/internal/sourcing/application/tariff/register_tariff.go:43-94 | registering a file without lines stores a tariff without line items, and its new contract |
| SourcingTheorems.EmptyVersionDangles | src/internal/sourcing/application/tariff/add_tariff_version.go:129-159 | a concrete run: a version added to a draft contract from an empty sheet loses its base to a removal |
| SopDefinitions.NewSOPDefinition | src/internal/operation/domain/sop/sop_definition.go:39-56 | a nameless definition is refused, any other starts as a draft without steps |
| SopDefinitions.SOPDefinition.AddStep | src/internal/operation/domain/sop/sop_definition.go:59-72 | appends a named step in DRAFT, with a new ID if it has none |
| SopDefinitions.SOPDefinition.RemoveStep | src/internal/operation/domain/sop/sop_definition.go:75-87 | removes the first step with the ID, in DRAFT only |
| SopDefinitions.SOPDefinition.ReorderSteps | src/internal/operation/domain/sop/sop_definition.go:90-116 | the steps looked up in the requested order and renumbered, if the count is right and all IDs are known |
| SopDefinitions.SOPDefinition.Activate | src/internal/operation/domain/sop/sop_definition.go:119-129 | DRAFT with steps becomes ACTIVE |
| SopDefinitions.SOPDefinition.Archive | src/internal/operation/domain/sop/sop_definition.go:132-139 | only ACTIVE becomes ARCHIVED |
| SopDefinitions.ActivatedDefinitionsAreFrozen | src/internal/operation/domain/sop/sop_definition.go:58-139 | in every run, a definition that was ever activated has steps, and they never change again |
| SopDefinitions.EditSucceedsIff | src/internal/operation/domain/sop/sop_definition.go:58-139 | exactly which edits succeed: steps change in DRAFT only, activation asks for a step, archiving for an active definition |
| SopDefinitions.EditRefusedIff | src/internal/operation/domain/sop/sop_definition.go:58-139 | for which of the conditions an edit is refused |
| SopDefinitions.EditsChange | src/internal/operation/domain/sop/sop_definition.go:59-87 | a step is added at the end, with a new ID if it has none; the first step with the ID is removed and the others stay |
| SopDefinitions.ReorderTakesTheLast | src/internal/operation/domain/sop/sop_definition.go:98-113 | at each place a reorder puts the step with the requested ID, and the last one if IDs repeat |
| SopDefinitions.CanBeActivated | src/internal/operation/domain/sop/sop_definition.go:59-129 | one named step makes a definition that can be activated |
| SopDefinitions.ReorderIsPermutationIff | src/internal/operation/domain/sop/sop_definition.go:94-113 | a successful reorder yields the requested order and numbering, and keeps exactly the original steps if and only if the requested IDs are distinct |
| SopDefinitions.RepeatedIdLosesAStep | src/internal/operation/domain/sop/sop_definition.go:94-111 | reordering two steps by one ID twice is accepted and loses the other step |
| SopInstances.SOPInstance.FindTask | src/internal/operation/domain/sop/sop_instance.go:286-293 | the first task with the ID |
| SopInstances.SOPInstance.CheckAllTasksDone | src/internal/operation/domain/sop/sop_instance.go:296-304 | completes the instance and records it if and only if all tasks are done |
| SopInstances.SOPInstance.StartTask | src/internal/operation/domain/sop/sop_instance.go:100-121 | PENDING becomes IN_PROGRESS with its assignee and event; all else stays |
| SopInstances.SOPInstance.CompleteTask | src/internal/operation/domain/sop/sop_instance.go:125-151 | IN_PROGRESS becomes COMPLETED with its event, then the completion rule applies |
| SopInstances.SOPInstance.SkipTask | src/internal/operation/domain/sop/sop_instance.go:154-177 | any task not done becomes SKIPPED with its event, then the completion rule applies |
| SopInstances.SOPInstance.FailTask | src/internal/operation/domain/sop/sop_instance.go:180-201 | any task not done becomes ERROR with its event |
| SopInstances.SOPInstance.LinkDocumentToTask | src/internal/operation/domain/sop/sop_instance.go:204-224 | adds a document that is not linked yet, without an event |
| SopInstances.SOPInstance.Cancel | src/internal/operation/domain/sop/sop_instance.go:227-241 | cancels an instance that is in progress, and records it |
| SopInstances.SOPInstance.Progress | src/internal/operation/domain/sop/sop_instance.go:267-275 | counts the done tasks |
| SopTheorems.CreatedIsSound | src/internal/operation/domain/sop/sop_instance.go:49-97 | an instance of any definition that a run of edits can activate satisfies the invariant; it has tasks because active definitions have steps |
| SopInstances.NewSOPInstance | src/internal/operation/domain/sop/sop_instance.go:49-97 | the loop over steps makes the instance of an active definition, or refuses |
| SopHistories.CreatedMirrorsSteps | src/internal/operation/domain/sop/sop_instance.go:49-97 | exactly when an instance is made, with one pending task for each step, with its name and place |
| SopHistories.EveryRunIsDocumented | src/internal/operation/domain/sop/sop_instance.go:99-241 | in every run, status, assignee, completer and note of each task are what its last event in the log says, and events follow each other only as the operations allow |
| SopHistories.CompletedWasStarted | src/internal/operation/domain/sop/sop_instance.go:123-151 | in every run from a new instance, the last event of a task before its completion is its start, a task is started once at most, and a COMPLETED task has the assignee it was started with |
| SopHistories.SucceedsIff | src/internal/operation/domain/sop/sop_instance.go:99-241 | by the history of the task: start succeeds exactly on tasks without events, complete exactly on tasks last started, skip and fail exactly on tasks not ended, linking exactly on documents not linked, cancelling exactly while running |
| SopHistories.RefusedIff | src/internal/operation/domain/sop/sop_instance.go:99-241 | what is said to an operation that does not succeed |
| SopHistories.DocumentsAreLinked | src/internal/operation/domain/sop/sop_instance.go:204-224 | in every run, a task has exactly the documents that were linked to it, each once, in the order of linking |
| SopTheorems.StepKeepsInvariant | src/internal/operation/domain/sop/sop_instance.go:99-241 | each operation keeps: COMPLETED if and only if all tasks are done, the completion event recorded once then and never before, and the log replays to the task statuses |
| SopTheorems.EveryRunKeepsInvariant | src/internal/operation/domain/sop/sop_instance.go:99-304 | the invariant holds over every run, cancelled instances included |
| SopTheorems.TerminalStatesAreFinal | src/internal/operation/domain/sop/sop_instance.go:278-283 | after COMPLETED or CANCELLED no task status, no instance status and no event changes in any run |
| SopTheorems.StepLowersRank | src/internal/operation/domain/sop/sop_instance.go:110-198 | every step that changes a task status strictly lowers the rank PENDING, IN_PROGRESS, ERROR, done; no step raises it |
| SopTheorems.AtMostThreeChangesPerTask | src/internal/operation/domain/sop/sop_instance.go:100-201 | a run over n tasks changes task statuses at most 3n times |
| SopTheorems.CanAlwaysFinish | src/internal/operation/domain/sop/sop_instance.go:154-177 | from every sound instance that is not cancelled some run leads to COMPLETED |
| SopTheorems.DoneCountIsFull | src/internal/operation/domain/sop/sop_instance.go:267-275 | progress is full if and only if all tasks are done |
| Shipments.ShipmentExecution.RecordMilestone | src/internal/shipment/domain/shipment/execution.go:155-194 | appends a milestone numbered one above the count of its type, or refuses and changes nothing |
| Shipments.ShipmentExecution.FindLatestMilestone | src/internal/shipment/domain/shipment/execution.go:204-217 | the last of the type's history, if there is one |
| Shipments.ShipmentExecution.FindMilestonesByType | src/internal/shipment/domain/shipment/execution.go:220-228 | the type's history in order |
| Shipments.Shipment.constructor | src/internal/shipment/domain/shipment/shipment.go:69-82 | a planned shipment without milestones, its creation recorded |
| Shipments.Shipment.RecordMilestone | src/internal/shipment/domain/shipment/shipment.go:208-243 | records the milestone and its event and derives the status from its type |
| Shipments.Shipment.UpdateShipmentStatus | src/internal/shipment/domain/shipment/shipment.go:258-265 | a change is recorded with old and new status, a repetition is not |
| Shipments.Shipment.AddTrackingUnitId | src/internal/shipment/domain/shipment/shipment.go:246-255 | adds an ID that is not there yet |
| ShipmentTheorems.ReloadKeepsHistories | src/internal/shipment/infrastructure/persistence/postgres_shipment_repo.go:325-363 | a load ordered by sequence number, ties in any order, keeps the history of every type |
| ShipmentTheorems.HistoriesSurviveReloads | src/internal/shipment/domain/shipment/execution.go:172-191 | over every run with saves and loads anywhere in it, every type's history is the one that recording alone would give, numbered 1 to k |
| ShipmentTheorems.LatestHasHighestSequence | src/internal/shipment/domain/shipment/execution.go:203-217 | the last milestone of a type has the highest sequence number, equal to their count |
| ShipmentTheorems.StatusIsConfluent | src/internal/shipment/domain/shipment/shipment.go:226-243 | without direct status updates the status depends only on the set of milestone types recorded |
| ShipmentTheorems.RefusedIff | src/internal/shipment/domain/shipment/execution.go:162-170 | a milestone is refused for the first of type, source and payload that is missing, and for nothing else |
| ShipmentTheorems.OnlyDeliveryMovesOn | src/internal/shipment/domain/shipment/shipment.go:226-243 | a shipment in exception or cancelled is moved on by DELIVERED and by no other milestone |
| ShipmentTheorems.UnitsAreListedOnce | src/internal/shipment/domain/shipment/shipment.go:246-255 | adding a unit keeps the list without repetitions and in order |
| ShipmentTheorems.MilestonesNeverMoveBack | src/internal/shipment/domain/shipment/shipment.go:226-243 | in every run without direct status updates, the status never moves back from what it was at any earlier point |
| ShipmentTheorems.StatusEventsFormAChain | src/internal/shipment/domain/shipment/shipment.go:258-265 | in every run the status-change events form an unbroken chain of real changes from PLANNED to the current status |
| ShipmentTheorems.LogTellsOfMilestones | src/internal/shipment/domain/shipment/shipment.go:208-224 | in every run the log tells of exactly the recorded milestones, each with its ID and type, in order |
| ShipmentTheorems.MilestonesAreAsCommanded | src/internal/shipment/domain/shipment/execution.go:155-194 | in every run the milestones are exactly those of the commands, with type, time and source as given, in order |
| Tracking.TrackingUnit.constructor | src/internal/tracking/domain/tracking/tracking.go:93-101 | the overall status of a new unit is the roll-up of its segments |
| Tracking.TrackingUnit.RecalculateOverallStatus | src/internal/tracking/domain/tracking/tracking.go:146-184 | the flags of the loop compute the roll-up of all segment statuses |
| Tracking.TrackingUnit.UpdateSegmentStatus | src/internal/tracking/domain/tracking/tracking.go:117-143 | the event is appended to the first segment with the ID and to no other, and the overall status stays up to date |
| Tracking.TrackingUnit.SyncSegment | src/internal/tracking/application/tracking/sync_tracking.go:83-141 | exactly the events whose key the segment did not know before the batch are appended, in order, to the first segment with its ID, and counted; arrived and unanswered segments add nothing |
| Tracking.TrackingUnit.Sync | src/internal/tracking/application/tracking/sync_tracking.go:52-61 | every segment is synced in turn with its own answer, and the total is the growth in events |
| Tracking.UpdateStatus | src/internal/shipment/domain/shipment/shipment_status_updater.go:22-64 | the shipment takes the roll-up of its units' statuses, with a status event if and only if it changes |
| TrackingTheorems.ShipmentRollupIs | src/internal/shipment/domain/shipment/shipment_status_updater.go:22-64 | each status of a shipment in terms of its units: completed if all have arrived, exception if any has one, in transit if any is and none is in exception |
| TrackingTheorems.TwoLevelRollupIsFlatIff | src/internal/shipment/domain/shipment/shipment_status_updater.go:22-64 | the shipment status computed from unit statuses is the one computed from all segments at once, if and only if every unit has a segment or some segment has not arrived |
| TrackingTheorems.RollupIsOrderFree | src/internal/tracking/domain/tracking/tracking.go:146-181 | both roll-ups depend only on which statuses occur |
| TrackingTheorems.EventKeyIsInjective | src/internal/tracking/application/tracking/sync_tracking.go:144-146 | equal keys have equal codes and times, even if codes contain colons |
| TrackingTheorems.SyncIsIdempotentIff | src/internal/tracking/application/tracking/sync_tracking.go:116-135 | a second sync with the same answers changes nothing if and only if every unarrived segment that repeats an earlier ID knows all events of its answer |
| TrackingTheorems.SyncIsIdempotent | src/internal/tracking/application/tracking/sync_tracking.go:116-135 | a second sync with the same answers changes no segment of a unit with distinct segment IDs |
| TrackingStore.KnownAfterReloadIff | src/internal/tracking/infrastructure/persistence/postgres_tracking_unit_repo.go:66-79 | an event known before a save is known after the load if and only if its time is a whole microsecond |
| TrackingStore.SyncAcrossStoreIff | src/internal/tracking/application/tracking/sync_tracking.go:41-66 | a sync after a sync, a save and a load in any order changes nothing, for the same answers, if and only if all times in the answers are whole microseconds |
| TrackingTheorems.KeysStayDistinctIff | src/internal/tracking/application/tracking/sync_tracking.go:125-135 | a sync keeps a segment's keys distinct if and only if the segment has arrived or every key that occurs twice in the batch was known before |
| TrackingTheorems.RepeatedEventIsStoredTwice | src/internal/tracking/application/tracking/sync_tracking.go:125-135 | an event that comes twice in one batch is stored twice |
| TrackingTheorems.DistinctBatchKeepsKeysDistinct | src/internal/tracking/application/tracking/sync_tracking.go:125-135 | a batch without internal duplicates leaves the segment's keys distinct |

## Left out

- SQL, transactions and connection errors: repositories are maps, and a save that fails is not modelled.
- Interleaving of use cases: each is one atomic step, as the code has no locks to reason about.
- The expression engine beyond the generated fragment: other formulas are the parameter `eng`.
- float64 rounding of formula inputs and results, integer literals beyond 64 bits in formulas, and
  decimal texts with an exponent: for a shipment on which the engine computes something else than the
  exact value of the formula, the weight-band theorems say nothing.
- Limits of columns: amounts beyond 20 digits, codes and names that are too long, unknown enum values;
  such a save fails.
- The JSON text itself: documents are trees, decimals are atoms, and keys match exactly, while the Go
  decoder also matches keys that differ in case.
- Reading sheets: CSV, the language-model analysis, column roles, text normalisation, amount parsing
  and location lookup; a sheet row arrives with its columns already read and its scope resolved. That
  a printed UUID parses back to itself is taken for granted.
- convertRow and the flat rows of a sheet: one row becomes one flat item, without state.
- The parser and the validator of tariff files: their answers are inputs of the file-based use cases.
  The command-line program wires stubs, a parser that refuses every format and a validator that
  accepts everything. Which of scope and strategy fails first on a line of a file-based version is
  not told apart.
- Aggregating cargo from items: the calculator path takes totals directly.
- Vendor IDs, descriptions, notes of scopes, skip reasons, error texts and detail maps.
- Line items that come back in another order between use cases: ApplyContractToRate then hands out the
  new IDs of entries in another order.
- Expiry of rates and contracts as steps of runs: the methods are modelled, but no use case calls them.
- Events of rates and contracts and the clearing of pulled events: the logs of SOP instances and
  shipments keep every event ever recorded.
- `Entries()` hands out pointers into a rate; entries are values here, so changing one from outside
  is not captured.
- Milestone payloads (a load replaces them by a generic one), recording times and document types.
- Event keys for times outside the range of 64-bit nanoseconds, and the loss of events whose ID is
  already in the store; providers give each event a new ID.
- Document guards, shipment costs, logistics resources, standard routes and the provider registry.
- Pricing.CalculateCharges: the order in which totals are listed is left open, because the code iterates over a map.
- Simulation.SimulateRoute: the order in which totals are listed is left open, because the code iterates over a map.
- SimulationTheorems.FlatItemIsChargedByQuantity: speaks of the price in the tariff, because the price that the entry shows is charged only under the condition of ShownPriceIsChargedIff.
- SimulationTheorems.SimulationRefinesDirectPricing: states the charges up to their order across segments; ChargedInFirstMatch says which segment each belongs to.
