/**
 The use cases over the stores of contracts, tariffs and rates. Each loads what it needs, works
 on it, and saves at the end, so a use case that fails leaves every store as it was.
 */
module Sourcing {
  import opened Pricing
  import opened Rates
  import opened RateStore
  import opened Shared
  import opened Simulation
  import opened SourcingModel
  import opened StrategyBuilder

  datatype ContractError = NotDraft | NotContracted | NotCancellable

  class ServiceContract {
    const id: Id
    const data: Contract
    var status: ContractStatus

    constructor (id: Id, data: Contract)
      ensures this.id == id && this.data == data && status == data.status
    {
      this.id, this.data := id, data;
      status := data.status;
    }

    method MarkAsContracted() returns (error: Option<ContractError>)
      modifies this
      ensures if old(status) == InDraft then error.None? && status == Contracted
        else error == Some(NotDraft) && status == old(status)
    {
      if status != InDraft {
        return Some(NotDraft);
      }
      status := Contracted;
      return None;
    }

    method MarkAsExpired() returns (error: Option<ContractError>)
      modifies this
      ensures if old(status) == Contracted then error.None? && status == Lapsed
        else error == Some(NotContracted) && status == old(status)
    {
      if status != Contracted {
        return Some(NotContracted);
      }
      status := Lapsed;
      return None;
    }

    method MarkAsCancelled() returns (error: Option<ContractError>)
      modifies this
      ensures if old(status) in {Lapsed, Cancelled} then error == Some(NotCancellable) && status == old(status)
        else error.None? && status == Cancelled
    {
      if status == Lapsed || status == Cancelled {
        return Some(NotCancellable);
      }
      status := Cancelled;
      return None;
    }
  }

  // ---------------------------------------------------------------- converting line items

  lemma {:induction false} ConversionStopsAtError(inputs: seq<ItemInput>, n: nat, firstId: Id)
    requires n <= |inputs| && ConvertedItems(inputs[..n], firstId).Err?
    ensures ConvertedItems(inputs, firstId) == ConvertedItems(inputs[..n], firstId)
  {
    if n == |inputs| {
      assert inputs[..n] == inputs;
    } else {
      assert inputs[..|inputs| - 1][..n] == inputs[..n];
      ConversionStopsAtError(inputs[..|inputs| - 1], n, firstId);
    }
  }

  lemma ConversionStep(inputs: seq<ItemInput>, i: nat, firstId: Id)
    requires i < |inputs| && ConvertedItems(inputs[..i], firstId).Ok?
    ensures ConvertedItems(inputs[..i + 1], firstId)
      == match inputs[i]
         case Err(e) => Err(ConversionError(e))
         case Ok(draft) =>
           if draft.chargeCode == "" then Err(AddItemError)
           else Ok(ConvertedItems(inputs[..i], firstId).value + [draft.WithId(firstId + i)])
  {
    assert inputs[..i + 1][..i] == inputs[..i];
  }

  method ConvertItems(inputs: seq<LineItemInput>, firstId: Id) returns (r: Result<seq<LineItem>, UseCaseError>)
    ensures r == ConvertedItems(AllDrafted(inputs), firstId)
  {
    ghost var drafts := AllDrafted(inputs);
    var items: seq<LineItem> := [];
    for i := 0 to |inputs|
      invariant ConvertedItems(drafts[..i], firstId) == Ok(items)
    {
      ConversionStep(drafts, i, firstId);
      var item := ConvertToLineItem(inputs[i], firstId + i, drafts[i]);
      if item.Err? {
        ConversionStopsAtError(drafts, i + 1, firstId);
        return Err(ConversionError(item.error));
      }
      if item.value.chargeCode == "" {
        ConversionStopsAtError(drafts, i + 1, firstId);
        return Err(AddItemError);
      }
      items := items + [item.value];
    }
    assert drafts[..|inputs|] == drafts;
    r := Ok(items);
  }

  ghost function DraftedSheet(sheet: Option<Sheet<LineItemInput>>): Option<Sheet<ItemInput>> {
    match sheet
    case None => None
    case Some(p) => Some(Sheet(p.name, p.from, p.to, AllDrafted(p.items)))
  }

  type LineBuilder = LineItemInput -> Result<Strategy, BuildError>

  /** One line of a file-based version: its scope, its strategy by `build`, and the check for a charge code. */
  function VersionItem(line: LineItemInput, build: LineBuilder, id: Id): Result<LineItem, UseCaseError> {
    if BuiltScope(line.scope).Err? || build(line).Err? then Err(LineNotBuilt)
    else if line.chargeCode == "" then Err(AddItemError)
    else Ok(LineItem(id, line.chargeCode, line.category, BuiltScope(line.scope).value, build(line).value))
  }

  function VersionItems(lines: seq<LineItemInput>, build: LineBuilder, firstId: Id)
    : Result<seq<LineItem>, UseCaseError>
  {
    if lines == [] then Ok([])
    else
      var n := |lines| - 1;
      match VersionItems(lines[..n], build, firstId)
      case Err(e) => Err(e)
      case Ok(front) =>
        match VersionItem(lines[n], build, firstId + n)
        case Err(e) => Err(e)
        case Ok(item) => Ok(front + [item])
  }

  lemma {:induction false} VersionStopsAtError(lines: seq<LineItemInput>, n: nat, build: LineBuilder, firstId: Id)
    requires n <= |lines| && VersionItems(lines[..n], build, firstId).Err?
    ensures VersionItems(lines, build, firstId) == VersionItems(lines[..n], build, firstId)
  {
    if n == |lines| {
      assert lines[..n] == lines;
    } else {
      assert lines[..|lines| - 1][..n] == lines[..n];
      VersionStopsAtError(lines[..|lines| - 1], n, build, firstId);
    }
  }

  /** The loop over the lines of a file-based version, whatever the strategy builder. */
  method BuildVersionItems(lines: seq<LineItemInput>, build: LineBuilder, firstId: Id)
    returns (r: Result<seq<LineItem>, UseCaseError>)
    ensures r == VersionItems(lines, build, firstId)
  {
    var items: seq<LineItem> := [];
    for i := 0 to |lines|
      invariant VersionItems(lines[..i], build, firstId) == Ok(items)
    {
      assert lines[..i + 1][..i] == lines[..i];
      var item := VersionItem(lines[i], build, firstId + i);
      if item.Err? {
        VersionStopsAtError(lines, i + 1, build, firstId);
        return Err(item.error);
      }
      items := items + [item.value];
    }
    assert lines[..|lines|] == lines;
    r := Ok(items);
  }

  /** The placeholder refuses every line, known type or not, so exactly the sheets without lines pass. */
  lemma {:induction false} OnlyEmptySheetsPass(lines: seq<LineItemInput>, firstId: Id)
    ensures VersionItems(lines, PlaceholderStrategy, firstId) == if lines == [] then Ok([]) else Err(LineNotBuilt)
  {
    if lines != [] {
      OnlyEmptySheetsPass(lines[..|lines| - 1], firstId);
    }
  }

  /** `now` and `error` are what a step that yields `expected` from `was` leaves behind. */
  ghost predicate Stepped(
    was: State, now: State, error: Option<UseCaseError>, expected: Result<State, UseCaseError>)
  {
    match expected
    case Ok(s) => error.None? && now == s
    case Err(e) => error == Some(e) && now == was
  }

  lemma {:induction false} NamingStopsAtError(s: State, contractId: Id, ids: seq<Id>, n: nat)
    requires n <= |ids| && NamedTariffs(s, contractId, ids[..n]).Err?
    ensures NamedTariffs(s, contractId, ids) == NamedTariffs(s, contractId, ids[..n])
  {
    if n == |ids| {
      assert ids[..n] == ids;
    } else {
      assert ids[..|ids| - 1][..n] == ids[..n];
      NamingStopsAtError(s, contractId, ids[..|ids| - 1], n);
    }
  }

  lemma {:induction false} AddingStopsAtError(r: RateState, es: seq<RateEntry>, n: nat)
    requires n <= |es| && AddedAll(r, es[..n]).Err?
    ensures AddedAll(r, es) == AddedAll(r, es[..n])
  {
    if n == |es| {
      assert es[..n] == es;
    } else {
      assert es[..|es| - 1][..n] == es[..n];
      AddingStopsAtError(r, es[..|es| - 1], n);
    }
  }

  /** The line items to apply, tariff by tariff. */
  method SelectItems(ts: seq<Tariff>, itemFilter: seq<Id>) returns (items: seq<RateableLineItem>)
    ensures items == Selected(ts, IdSet(itemFilter))
  {
    var filterSet := IdSet(itemFilter);
    items := [];
    for i := 0 to |ts|
      invariant items == Selected(ts[..i], filterSet)
    {
      assert ts[..i + 1][..i] == ts[..i];
      ghost var before := items;
      var rateable := ExtractRateableItems(ts[i]);
      for j := 0 to |rateable|
        invariant items == before + SelectedItems(ts[i], j, filterSet)
      {
        var item := rateable[j];
        if |filterSet| > 0 && item.lineItemId !in filterSet {
          assert filterSet != {};
          continue;
        }
        assert filterSet == {} || item.lineItemId in filterSet;
        items := items + [item];
      }
    }
    assert ts[..|ts|] == ts;
  }

  /** An entry without an ID is added like the same entry with the fresh one. */
  lemma AddingStep(
    r: RateState, now: RateState, items: seq<RateableLineItem>, i: nat, firstId: Id, contractId: Id, providerId: Id)
    requires i < |items|
    requires AddedAll(r, EntriesFrom(items, firstId, contractId, providerId)[..i]) == Ok(now)
    ensures AddedAll(r, EntriesFrom(items, firstId, contractId, providerId)[..i + 1])
      == Added(now, EntryFrom(items[i], NIL, contractId, providerId), firstId + i)
  {
    var es := EntriesFrom(items, firstId, contractId, providerId);
    assert es[..i + 1][..i] == es[..i];
  }

  /** addEntriesToRate: fresh IDs are handed out from `firstId` on. */
  method AddEntriesToRate(
    rate: Rate, contractId: Id, providerId: Id, items: seq<RateableLineItem>, firstId: Id)
    returns (error: Option<RateError>)
    modifies rate
    ensures match AddedAll(old(rate.State()), EntriesFrom(items, firstId, contractId, providerId))
      case Ok(r) => error.None? && rate.State() == r
      case Err(e) => error == Some(e)
  {
    ghost var es := EntriesFrom(items, firstId, contractId, providerId);
    for i := 0 to |items|
      invariant AddedAll(old(rate.State()), es[..i]) == Ok(rate.State())
    {
      AddingStep(old(rate.State()), rate.State(), items, i, firstId, contractId, providerId);
      var refused := rate.AddEntry(EntryFrom(items[i], NIL, contractId, providerId), firstId + i);
      if refused.Some? {
        AddingStopsAtError(old(rate.State()), es, i + 1);
        return refused;
      }
    }
    assert es[..|items|] == es;
    return None;
  }

  datatype RouteCondition = RouteCondition(route: Route, quantity: real, weight: real, volume: real) {
    function JobWith(tariffs: map<Id, Tariff>): Job {
      Job(tariffs, route, quantity, weight, volume)
    }
  }

  /** `r` is a possible outcome of simulating a rate with these entries under one condition. */
  ghost predicate Answers(
    r: Result<RouteResult, SimulationError>, entries: seq<RateEntry>, tariffs: map<Id, Tariff>,
    c: RouteCondition, eng: Engine)
  {
    IsSimulationOf(r, entries, c.route, PricerOf(c.JobWith(tariffs), eng))
  }

  method SimulateCondition(rate: Rate, tariffs: map<Id, Tariff>, c: RouteCondition, eng: Engine)
    returns (r: Result<RouteResult, SimulationError>)
    ensures Answers(r, rate.entries, tariffs, c, eng)
  {
    var job := c.JobWith(tariffs);
    r := SimulateRoute(rate, job, eng, PricerOf(job, eng));
  }

  /** The first elements of `ys` are related to the elements of `xs`, one by one. */
  ghost predicate Pairwise<A, B>(p: (A, B) -> bool, xs: seq<A>, ys: seq<B>) {
    |xs| <= |ys| && forall i :: 0 <= i < |xs| ==> p(xs[i], ys[i])
  }

  lemma PairwiseMore<A, B>(p: (A, B) -> bool, xs: seq<A>, x: A, ys: seq<B>)
    requires Pairwise(p, xs, ys) && |xs| < |ys| && p(x, ys[|xs|])
    ensures Pairwise(p, xs + [x], ys)
  {
  }

  ghost function AnswerRelation(entries: seq<RateEntry>, tariffs: map<Id, Tariff>, eng: Engine)
    : (RouteResult, RouteCondition) -> bool
  {
    (result, c) => Answers(Ok(result), entries, tariffs, c, eng)
  }

  /** Every result answers its condition. */
  ghost predicate AllAnswer(
    results: seq<RouteResult>, entries: seq<RateEntry>, tariffs: map<Id, Tariff>,
    conditions: seq<RouteCondition>, eng: Engine)
  {
    Pairwise(AnswerRelation(entries, tariffs, eng), results, conditions)
  }

  /** All conditions before some condition are answered by results, and that one by the failure `e`. */
  ghost predicate FirstRefused(
    e: SimulationError, entries: seq<RateEntry>, tariffs: map<Id, Tariff>,
    conditions: seq<RouteCondition>, eng: Engine)
  {
    exists results ::
      && AllAnswer(results, entries, tariffs, conditions, eng) && |results| < |conditions|
      && Answers(Err(e), entries, tariffs, conditions[|results|], eng)
  }

  /** One result for each condition; the first condition that fails, fails the whole. */
  method SimulateConditions(rate: Rate, tariffs: map<Id, Tariff>, conditions: seq<RouteCondition>, eng: Engine)
    returns (r: Result<seq<RouteResult>, SimulationError>)
    ensures match r
      case Ok(results) => |results| == |conditions| && AllAnswer(results, rate.entries, tariffs, conditions, eng)
      case Err(e) => FirstRefused(e, rate.entries, tariffs, conditions, eng)
  {
    var results: seq<RouteResult> := [];
    for i := 0 to |conditions|
      invariant |results| == i
      invariant AllAnswer(results, rate.entries, tariffs, conditions, eng)
    {
      var result := SimulateCondition(rate, tariffs, conditions[i], eng);
      if result.Err? {
        return Err(result.error);
      }
      PairwiseMore(AnswerRelation(rate.entries, tariffs, eng), results, result.value, conditions);
      results := results + [result.value];
    }
    return Ok(results);
  }

  datatype SimulationRefusal = InvalidSimulation | UnknownRate | InactiveRate | RouteFailed(cause: SimulationError)

  /** A rate is named, and every one of at least one condition has a segment and a positive quantity. */
  ghost predicate IsAsked(rateId: Id, conditions: seq<RouteCondition>) {
    && rateId != NIL && conditions != []
    && forall i :: 0 <= i < |conditions| ==> conditions[i].route != [] && conditions[i].quantity > 0.0
  }

  /** What a request to simulate a rate may answer: each outcome under its own condition on input and stores. */
  ghost predicate IsAnswerOf(
    r: Result<seq<RouteResult>, SimulationRefusal>, s: State, rateId: Id, conditions: seq<RouteCondition>, eng: Engine)
  {
    if !IsAsked(rateId, conditions) then r == Err(InvalidSimulation)
    else if rateId !in s.rates then r == Err(UnknownRate)
    else if s.rates[rateId].status != Active then r == Err(InactiveRate)
    else
      match r
      case Ok(results) =>
        |results| == |conditions| && AllAnswer(results, s.rates[rateId].entries, s.tariffs, conditions, eng)
      case Err(RouteFailed(cause)) => FirstRefused(cause, s.rates[rateId].entries, s.tariffs, conditions, eng)
      case Err(_) => false
  }

  class Platform {
    var contracts: map<Id, Contract>
    var tariffs: map<Id, Tariff>
    var rates: map<Id, RateState>
    var nextId: Id

    ghost function Stores(): State
      reads this
    {
      State(contracts, tariffs, rates, nextId)
    }

    constructor ()
      ensures Stores() == INITIAL
    {
      contracts, tariffs, rates, nextId := map[], map[], map[], 1;
    }

    method CreateBidContract(bidRequestId: Id, providerId: Id, shipperId: Id, validFrom: int, validTo: int)
      returns (error: Option<UseCaseError>)
      modifies this
      ensures Stepped(old(Stores()), Stores(), error,
                Exec(old(Stores()), CreateContract(bidRequestId, providerId, shipperId, validFrom, validTo)))
    {
      if bidRequestId == NIL || providerId == NIL || shipperId == NIL
        || validFrom == ZERO_TIME || validTo == ZERO_TIME || validFrom > validTo
      {
        return Some(InvalidInput);
      }
      contracts := contracts[nextId := Contract(providerId, shipperId, InDraft, validFrom, validTo)];
      nextId := nextId + 1;
      return None;
    }

    method RegisterTariffDirect(contractId: Id, name: string, from: int, to: int, inputs: seq<LineItemInput>)
      returns (error: Option<UseCaseError>)
      modifies this
      ensures Stepped(old(Stores()), Stores(), error,
                Exec(old(Stores()), RegisterTariff(contractId, name, from, to, AllDrafted(inputs))))
    {
      if contractId == NIL || name == "" || from > to || |inputs| == 0 {
        return Some(InvalidInput);
      }
      if contractId !in contracts {
        return Some(ContractNotFound);
      }
      if contracts[contractId].status != InDraft {
        return Some(ContractNotDraft);
      }
      var items := ConvertItems(inputs, nextId + 1);
      if items.Err? {
        return Some(items.error);
      }
      tariffs := tariffs[nextId := Tariff(nextId, contractId, name, 1, None, from, to, items.value)];
      nextId := nextId + 1 + |items.value|;
      return None;
    }

    method UpdateContractPeriod(contractId: Id, validFrom: int, validTo: int)
      returns (error: Option<UseCaseError>)
      modifies this
      ensures Stepped(old(Stores()), Stores(), error,
                Exec(old(Stores()), UpdatePeriod(contractId, validFrom, validTo)))
    {
      if validFrom > validTo {
        return Some(InvalidInput);
      }
      if contractId !in contracts {
        return Some(ContractNotFound);
      }
      if contracts[contractId].status != InDraft {
        return Some(ContractNotDraft);
      }
      contracts := contracts[contractId := contracts[contractId].(validFrom := validFrom, validTo := validTo)];
      return None;
    }

    /** Finds the draft contract a file is meant for, or makes a new one, which is not saved yet. */
    method GetOrCreateContract(
      target: Option<Id>, providerId: Id, shipperId: Id, period: Option<(int, int)>)
      returns (r: Result<(Id, Option<Contract>), UseCaseError>)
      requires target.None? ==> period.Some?
      ensures match target
        case Some(id) =>
          if id !in contracts then r == Err(ContractNotFound)
          else if contracts[id].status != InDraft then r == Err(ContractNotDraft)
          else r == Ok((id, None))
        case None =>
          if period.value.0 > period.value.1 then r == Err(InvalidPeriod)
          else r == Ok((nextId, Some(Contract(providerId, shipperId, InDraft, period.value.0, period.value.1))))
    {
      if target.Some? {
        if target.value !in contracts {
          return Err(ContractNotFound);
        }
        if contracts[target.value].status != InDraft {
          return Err(ContractNotDraft);
        }
        return Ok((target.value, None));
      }
      if period.value.0 > period.value.1 {
        return Err(InvalidPeriod);
      }
      return Ok((nextId, Some(Contract(providerId, shipperId, InDraft, period.value.0, period.value.1))));
    }

    /** `parsed` is the parser's answer with the caller's overrides, `accepted` the validator's. */
    method RegisterTariffFile(
      fileGiven: bool, target: Option<Id>, providerId: Id, shipperId: Id, period: Option<(int, int)>,
      parsed: Option<Sheet<LineItemInput>>, accepted: bool)
      returns (error: Option<UseCaseError>)
      modifies this
      ensures Stepped(old(Stores()), Stores(), error, Exec(old(Stores()),
                RegisterFile(fileGiven, target, providerId, shipperId, period, DraftedSheet(parsed), accepted)))
    {
      if !fileGiven || providerId == NIL || shipperId == NIL || (target.None? && period.None?) {
        return Some(InvalidInput);
      }
      var c := GetOrCreateContract(target, providerId, shipperId, period);
      if c.Err? {
        return Some(c.error);
      }
      if parsed.None? {
        return Some(SheetNotParsed);
      }
      if !accepted {
        return Some(SheetRejected);
      }
      error := StoreSheet(c.value.0, c.value.1, parsed.value);
    }

    /** The stores with the new contract, if there is one. */
    ghost function WithContract(contractId: Id, created: Option<Contract>): State
      reads this
    {
      if created.None? then Stores()
      else Stores().(contracts := contracts[contractId := created.value], nextId := nextId + 1)
    }

    /** Makes the tariff, then saves it and the contract if that is new. */
    method StoreSheet(contractId: Id, created: Option<Contract>, sheet: Sheet<LineItemInput>)
      returns (error: Option<UseCaseError>)
      modifies this
      ensures Stepped(old(Stores()), Stores(), error,
                SheetStored(old(WithContract(contractId, created)), contractId, DraftedSheet(Some(sheet)).value))
    {
      if sheet.name == "" || contractId == NIL || sheet.from > sheet.to {
        return Some(InvalidTariff);
      }
      var id := if created.Some? then nextId + 1 else nextId;
      assert id == WithContract(contractId, created).nextId;
      var items := ConvertItems(sheet.items, id + 1);
      if items.Err? {
        return Some(items.error);
      }
      tariffs := tariffs[id := Tariff(id, contractId, sheet.name, 1, None, sheet.from, sheet.to, items.value)];
      if created.Some? {
        contracts := contracts[contractId := created.value];
      }
      nextId := id + 1 + |items.value|;
      return None;
    }

    method AwardBidContract(contractId: Id) returns (error: Option<UseCaseError>)
      modifies this
      ensures Stepped(old(Stores()), Stores(), error, Exec(old(Stores()), AwardContract(contractId)))
    {
      if contractId == NIL {
        return Some(InvalidInput);
      }
      if contractId !in contracts {
        return Some(ContractNotFound);
      }
      var c := new ServiceContract(contractId, contracts[contractId]);
      if c.status != InDraft {
        return Some(ContractNotDraft);
      }
      var count := CountByContractId(contractId);
      if count == 0 {
        return Some(NoTariffs);
      }
      var refused := c.MarkAsContracted();
      contracts := contracts[contractId := c.data.(status := c.status)];
      return None;
    }

    method CountByContractId(contractId: Id) returns (count: nat)
      ensures count == |set t | t in tariffs && tariffs[t].contractId == contractId|
      ensures count == 0 <==> !HasTariff(Stores(), contractId)
    {
      var mine := set t | t in tariffs && tariffs[t].contractId == contractId;
      count := |mine|;
      assert forall t :: t in mine <==> t in tariffs && tariffs[t].contractId == contractId;
    }

    method DeleteBidContract(contractId: Id) returns (error: Option<UseCaseError>)
      modifies this
      ensures Stepped(old(Stores()), Stores(), error, Exec(old(Stores()), DeleteContract(contractId)))
    {
      if contractId !in contracts {
        return Some(ContractNotFound);
      }
      var c := new ServiceContract(contractId, contracts[contractId]);
      if c.status != InDraft {
        return Some(ContractNotDraft);
      }
      var refused := c.MarkAsCancelled();
      contracts := contracts[contractId := c.data.(status := c.status)];
      return None;
    }

    method AmendTariffDirect(contractId: Id, baseId: Id, from: int, to: int, inputs: seq<LineItemInput>)
      returns (error: Option<UseCaseError>)
      modifies this
      ensures Stepped(old(Stores()), Stores(), error,
                Exec(old(Stores()), AmendTariff(contractId, baseId, from, to, AllDrafted(inputs))))
    {
      if contractId == NIL || baseId == NIL || from > to || |inputs| == 0 {
        return Some(InvalidInput);
      }
      if contractId !in contracts {
        return Some(ContractNotFound);
      }
      if contracts[contractId].status != Contracted {
        return Some(ContractNotContracted);
      }
      if baseId !in tariffs {
        return Some(TariffNotFound);
      }
      var base := tariffs[baseId];
      if base.contractId != contractId {
        return Some(TariffNotInContract);
      }
      var items := ConvertItems(inputs, nextId + 1);
      if items.Err? {
        return Some(items.error);
      }
      var t := NextVersion(nextId, base, from, to, items.value);
      if !IsNewVersion(t) {
        return Some(NotNewVersion);
      }
      tariffs := tariffs[nextId := t];
      nextId := nextId + 1 + |items.value|;
      return None;
    }

    method AmendContractTariff(fileGiven: bool, contractId: Id, baseId: Id, parsed: Option<Sheet<LineItemInput>>)
      returns (error: Option<UseCaseError>)
      modifies this
      ensures Stepped(old(Stores()), Stores(), error,
                Exec(old(Stores()), AmendFile(fileGiven, contractId, baseId, DraftedSheet(parsed))))
    {
      if !fileGiven || contractId == NIL || baseId == NIL {
        return Some(InvalidInput);
      }
      if contractId !in contracts {
        return Some(ContractNotFound);
      }
      if contracts[contractId].status != Contracted {
        return Some(ContractNotContracted);
      }
      var t := NewVersionFromFile(contractId, baseId, parsed);
      if t.Err? {
        return Some(t.error);
      }
      if !IsNewVersion(t.value) {
        return Some(NotNewVersion);
      }
      tariffs := tariffs[nextId := t.value];
      nextId := nextId + 1;
      return None;
    }

    method AddTariffVersion(contractId: Id, baseId: Id, parsed: Option<Sheet<LineItemInput>>)
      returns (error: Option<UseCaseError>)
      modifies this
      ensures Stepped(old(Stores()), Stores(), error,
                Exec(old(Stores()), AddVersion(contractId, baseId, DraftedSheet(parsed))))
    {
      if contractId !in contracts {
        return Some(ContractNotFound);
      }
      if contracts[contractId].status != InDraft {
        return Some(ContractNotDraft);
      }
      var t := NewVersionFromFile(contractId, baseId, parsed);
      if t.Err? {
        return Some(t.error);
      }
      tariffs := tariffs[nextId := t.value];
      nextId := nextId + 1;
      return None;
    }

    /** The part that file amendments and file versions have in common. */
    method NewVersionFromFile(contractId: Id, baseId: Id, parsed: Option<Sheet<LineItemInput>>)
      returns (r: Result<Tariff, UseCaseError>)
      ensures r == FileVersion(Stores(), contractId, baseId, DraftedSheet(parsed))
    {
      if baseId !in tariffs {
        return Err(TariffNotFound);
      }
      if tariffs[baseId].contractId != contractId {
        return Err(TariffNotInContract);
      }
      if parsed.None? {
        return Err(SheetNotParsed);
      }
      if parsed.value.from > parsed.value.to {
        return Err(InvalidTariff);
      }
      var items := BuildVersionItems(parsed.value.items, PlaceholderStrategy, nextId + 1);
      OnlyEmptySheetsPass(parsed.value.items, nextId + 1);
      if items.Err? {
        return Err(items.error);
      }
      return Ok(NextVersion(nextId, tariffs[baseId], parsed.value.from, parsed.value.to, items.value));
    }

    method RemoveTariffFromContract(contractId: Id, tariffId: Id) returns (error: Option<UseCaseError>)
      modifies this
      ensures Stepped(old(Stores()), Stores(), error, Exec(old(Stores()), RemoveTariff(contractId, tariffId)))
    {
      if contractId !in contracts {
        return Some(ContractNotFound);
      }
      if contracts[contractId].status != InDraft {
        return Some(ContractNotDraft);
      }
      if tariffId !in tariffs {
        return Some(TariffNotFound);
      }
      if tariffs[tariffId].contractId != contractId {
        return Some(TariffNotInContract);
      }
      tariffs := tariffs - {tariffId};
      return None;
    }

    method NewRate(shipperId: Id, name: string, from: int, to: int) returns (error: Option<UseCaseError>)
      modifies this
      ensures Stepped(old(Stores()), Stores(), error, Exec(old(Stores()), CreateRate(shipperId, name, from, to)))
    {
      if shipperId == NIL || name == "" || from > to {
        return Some(InvalidInput);
      }
      rates := rates[nextId := RateState(Draft, [])];
      nextId := nextId + 1;
      return None;
    }

    /** PostgresRateRepo.Save: the header and all entries of the rate are replaced. */
    method SaveRate(rate: Rate)
      modifies this`rates
      ensures rates == old(rates)[rate.id := SavedRate(rate.State())]
    {
      var rows := InsertEntries(rate.entries);
      rates := rates[rate.id := RateState(rate.status, rows)];
    }

    method FindTariffs(contractId: Id, ids: seq<Id>) returns (r: Result<seq<Tariff>, UseCaseError>)
      ensures r == NamedTariffs(Stores(), contractId, ids)
    {
      var found: seq<Tariff> := [];
      for i := 0 to |ids|
        invariant NamedTariffs(Stores(), contractId, ids[..i]) == Ok(found)
      {
        assert ids[..i + 1][..i] == ids[..i];
        if ids[i] !in tariffs {
          NamingStopsAtError(Stores(), contractId, ids, i + 1);
          return Err(TariffNotFound);
        }
        if tariffs[ids[i]].contractId != contractId {
          NamingStopsAtError(Stores(), contractId, ids, i + 1);
          return Err(TariffNotInContract);
        }
        found := found + [tariffs[ids[i]]];
      }
      assert ids[..|ids|] == ids;
      r := Ok(found);
    }

    /** The line items to apply: of the named tariffs, or of all tariffs of the contract. */
    method FindItems(
      contractId: Id, tariffIds: seq<Id>, itemFilter: seq<Id>, listing: seq<Id>, ghost rateId: Id)
      returns (r: Result<seq<RateableLineItem>, UseCaseError>)
      requires IsListing(Stores(), contractId, listing)
      ensures match TargetTariffs(Stores(), ApplyContract(rateId, contractId, tariffIds, itemFilter, listing))
        case Ok(ts) => r == Ok(Selected(ts, IdSet(itemFilter)))
        case Err(e) => r == Err(e)
    {
      if |tariffIds| == 0 && |listing| == 0 {
        return Err(NoTariffs);
      }
      var targets := FindTariffs(contractId, if |tariffIds| == 0 then listing else tariffIds);
      if targets.Err? {
        return Err(targets.error);
      }
      var items := SelectItems(targets.value, itemFilter);
      return Ok(items);
    }

    /** `listing` is the repository's answer to the question for the contract's tariffs. */
    method ApplyContractToRate(
      rateId: Id, contractId: Id, tariffIds: seq<Id>, itemFilter: seq<Id>, listing: seq<Id>)
      returns (error: Option<UseCaseError>)
      requires IsListing(Stores(), contractId, listing)
      modifies this
      ensures Stepped(old(Stores()), Stores(), error,
                Exec(old(Stores()), ApplyContract(rateId, contractId, tariffIds, itemFilter, listing)))
    {
      if rateId == NIL || contractId == NIL {
        return Some(InvalidInput);
      }
      if rateId !in rates {
        return Some(RateNotFound);
      }
      var rate := new Rate(rateId, rates[rateId]);
      if contractId !in contracts {
        return Some(ContractNotFound);
      }
      var c := contracts[contractId];
      if c.status != Contracted {
        return Some(ContractNotContracted);
      }
      var found := FindItems(contractId, tariffIds, itemFilter, listing, rateId);
      if found.Err? {
        return Some(found.error);
      }
      var items := found.value;
      var refused := AddEntriesToRate(rate, contractId, c.providerId, items, nextId);
      if refused.Some? {
        return Some(AddEntryError(refused.value));
      }
      SaveRate(rate);
      nextId := nextId + |items|;
      return None;
    }

    method UpdateRateEntryTariff(rateId: Id, entryId: Id, contractId: Id, tariffId: Id, lineItemId: Id)
      returns (error: Option<UseCaseError>)
      modifies this
      ensures Stepped(old(Stores()), Stores(), error,
                Exec(old(Stores()), ReplaceEntry(rateId, entryId, contractId, tariffId, lineItemId)))
    {
      if rateId == NIL || entryId == NIL || contractId == NIL || tariffId == NIL || lineItemId == NIL {
        return Some(InvalidInput);
      }
      if rateId !in rates {
        return Some(RateNotFound);
      }
      var rate := new Rate(rateId, rates[rateId]);
      if rate.status != Draft {
        return Some(UseCaseError.RateNotDraft);
      }
      if contractId !in contracts {
        return Some(ContractNotFound);
      }
      if tariffId !in tariffs {
        return Some(TariffNotFound);
      }
      if tariffs[tariffId].contractId != contractId {
        return Some(TariffNotInContract);
      }
      var item := FindItem(tariffs[tariffId].items, lineItemId);
      if item.None? {
        return Some(LineItemNotFound);
      }
      var replacement := ReplacementBy(RateableOf(tariffId, item.value));
      var refused := rate.ReplaceEntryLineItem(entryId, replacement);
      if refused.Some? {
        return Some(ReplaceError(refused.value));
      }
      SaveRate(rate);
      return None;
    }

    method ActivateStoredRate(rateId: Id) returns (error: Option<UseCaseError>)
      modifies this
      ensures Stepped(old(Stores()), Stores(), error, Exec(old(Stores()), ActivateRate(rateId)))
    {
      if rateId == NIL {
        return Some(InvalidInput);
      }
      if rateId !in rates {
        return Some(RateNotFound);
      }
      var rate := new Rate(rateId, rates[rateId]);
      var refused := rate.Activate();
      if refused.Some? {
        return Some(ActivationError(refused.value));
      }
      SaveRate(rate);
      return None;
    }

    /** The checks of the input, before anything is loaded. */
    method ValidateInput(rateId: Id, conditions: seq<RouteCondition>) returns (valid: bool)
      ensures valid <==> IsAsked(rateId, conditions)
    {
      if rateId == NIL {
        return false;
      }
      if |conditions| == 0 {
        return false;
      }
      for i := 0 to |conditions|
        invariant forall j :: 0 <= j < i ==> conditions[j].route != [] && conditions[j].quantity > 0.0
      {
        if |conditions[i].route| == 0 {
          return false;
        }
        if conditions[i].quantity <= 0.0 {
          return false;
        }
      }
      return true;
    }

    method SimulateRateCost(rateId: Id, conditions: seq<RouteCondition>, eng: Engine)
      returns (r: Result<seq<RouteResult>, SimulationRefusal>)
      ensures IsAnswerOf(r, Stores(), rateId, conditions, eng)
    {
      var valid := ValidateInput(rateId, conditions);
      if !valid {
        return Err(InvalidSimulation);
      }
      if rateId !in rates {
        return Err(UnknownRate);
      }
      if rates[rateId].status != Active {
        return Err(InactiveRate);
      }
      var rate := new Rate(rateId, rates[rateId]);
      var results := SimulateConditions(rate, tariffs, conditions, eng);
      if results.Err? {
        return Err(RouteFailed(results.error));
      }
      return Ok(results.value);
    }
  }
}
