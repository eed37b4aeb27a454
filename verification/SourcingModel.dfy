/**
 The sourcing-to-rate protocol as a transition function: contracts, tariffs and rates live in
 separate stores that refer to each other by ID only, and use cases are guarded steps.
 */
module SourcingModel {
  import opened Pricing
  import opened Rates
  import opened RateStore
  import opened Shared
  import StrategyBuilder

  // ---------------------------------------------------------------- state

  datatype ContractStatus = InDraft | Contracted | Lapsed | Cancelled

  datatype Contract = Contract(
    providerId: Id, shipperId: Id, status: ContractStatus, validFrom: int, validTo: int)

  /** The stores, and the next unused ID: new UUIDs are modelled as fresh numbers. */
  datatype State = State(
    contracts: map<Id, Contract>, tariffs: map<Id, Tariff>, rates: map<Id, RateState>, nextId: Id)

  const INITIAL := State(map[], map[], map[], 1)

  /** The zero time value, which the contract use case rejects as missing. */
  const ZERO_TIME := 0

  /** A line item as converted from the input of a use case. */
  type ItemInput = Result<StrategyBuilder.DraftItem, StrategyBuilder.BuildError>

  /** What the parser makes of a tariff file, with the caller's overrides applied. */
  datatype Sheet<T> = Sheet(name: string, from: int, to: int, items: seq<T>)

  /**
   The use cases that write to a store. `sheet` is None where the file cannot be parsed, and
   `fileGiven` says whether reader, format, file name and uploader are all there.
   */
  datatype Command =
    | CreateContract(bidRequestId: Id, providerId: Id, shipperId: Id, validFrom: int, validTo: int)
    | UpdatePeriod(contractId: Id, validFrom: int, validTo: int)
    | RegisterTariff(contractId: Id, name: string, from: int, to: int, items: seq<ItemInput>)
    | RegisterFile(
        fileGiven: bool, target: Option<Id>, providerId: Id, shipperId: Id, period: Option<(int, int)>,
        sheet: Option<Sheet<ItemInput>>, accepted: bool)
    | AwardContract(contractId: Id)
    | DeleteContract(contractId: Id)
    | AmendTariff(contractId: Id, baseId: Id, from: int, to: int, items: seq<ItemInput>)
    | AmendFile(fileGiven: bool, contractId: Id, baseId: Id, sheet: Option<Sheet<ItemInput>>)
    | AddVersion(contractId: Id, baseId: Id, sheet: Option<Sheet<ItemInput>>)
    | RemoveTariff(contractId: Id, tariffId: Id)
    | CreateRate(shipperId: Id, name: string, from: int, to: int)
    | ApplyContract(rateId: Id, contractId: Id, tariffIds: seq<Id>, itemFilter: seq<Id>, listing: seq<Id>)
    | ReplaceEntry(rateId: Id, entryId: Id, contractId: Id, tariffId: Id, lineItemId: Id)
    | ActivateRate(rateId: Id)

  datatype UseCaseError =
    | InvalidInput | ContractNotFound | ContractNotDraft | ContractNotContracted | NoTariffs
    | ConversionError(cause: StrategyBuilder.BuildError) | AddItemError | TariffNotFound | TariffNotInContract
    | RateNotFound | RateNotDraft | TariffFetchError | AddEntryError(rateCause: RateError)
    | InvalidPeriod | SheetNotParsed | SheetRejected | InvalidTariff | LineNotBuilt
    | NotNewVersion | LineItemNotFound | ReplaceError(rateCause: RateError) | ActivationError(rateCause: RateError)

  // ---------------------------------------------------------------- contracts

  function CreatedContract(s: State, c: Command): Result<State, UseCaseError>
    requires c.CreateContract?
  {
    if c.bidRequestId == NIL || c.providerId == NIL || c.shipperId == NIL
      || c.validFrom == ZERO_TIME || c.validTo == ZERO_TIME || c.validFrom > c.validTo
    then Err(InvalidInput)
    else
      var contract := Contract(c.providerId, c.shipperId, InDraft, c.validFrom, c.validTo);
      Ok(s.(contracts := s.contracts[s.nextId := contract], nextId := s.nextId + 1))
  }

  function PeriodUpdated(s: State, contractId: Id, from: int, to: int): Result<State, UseCaseError> {
    if from > to then Err(InvalidInput)
    else if contractId !in s.contracts then Err(ContractNotFound)
    else if s.contracts[contractId].status != InDraft then Err(ContractNotDraft)
    else
      var contract := s.contracts[contractId].(validFrom := from, validTo := to);
      Ok(s.(contracts := s.contracts[contractId := contract]))
  }

  predicate HasTariff(s: State, contractId: Id) {
    exists t :: t in s.tariffs && s.tariffs[t].contractId == contractId
  }

  function Awarded(s: State, contractId: Id): Result<State, UseCaseError> {
    if contractId == NIL then Err(InvalidInput)
    else if contractId !in s.contracts then Err(ContractNotFound)
    else if s.contracts[contractId].status != InDraft then Err(ContractNotDraft)
    else if !HasTariff(s, contractId) then Err(NoTariffs)
    else Ok(s.(contracts := s.contracts[contractId := s.contracts[contractId].(status := Contracted)]))
  }

  function Deleted(s: State, contractId: Id): Result<State, UseCaseError> {
    if contractId !in s.contracts then Err(ContractNotFound)
    else if s.contracts[contractId].status != InDraft then Err(ContractNotDraft)
    else Ok(s.(contracts := s.contracts[contractId := s.contracts[contractId].(status := Cancelled)]))
  }

  // ---------------------------------------------------------------- tariffs

  /** The line items of a new tariff; each gets the next ID. */
  function ConvertedItems(inputs: seq<ItemInput>, firstId: Id): Result<seq<LineItem>, UseCaseError> {
    if inputs == [] then Ok([])
    else
      var n := |inputs| - 1;
      match ConvertedItems(inputs[..n], firstId)
      case Err(e) => Err(e)
      case Ok(front) =>
        match inputs[n]
        case Err(e) => Err(ConversionError(e))
        case Ok(draft) =>
          if draft.chargeCode == "" then Err(AddItemError) else Ok(front + [draft.WithId(firstId + n)])
  }

  function Stored(s: State, t: Tariff): State {
    s.(tariffs := s.tariffs[t.id := t], nextId := s.nextId + 1 + |t.items|)
  }

  function Registered(s: State, c: Command): Result<State, UseCaseError>
    requires c.RegisterTariff?
  {
    if c.contractId == NIL || c.name == "" || c.from > c.to || c.items == [] then Err(InvalidInput)
    else if c.contractId !in s.contracts then Err(ContractNotFound)
    else if s.contracts[c.contractId].status != InDraft then Err(ContractNotDraft)
    else
      match ConvertedItems(c.items, s.nextId + 1)
      case Err(e) => Err(e)
      case Ok(items) => Ok(Stored(s, Tariff(s.nextId, c.contractId, c.name, 1, None, c.from, c.to, items)))
  }

  /** NewTariffVersion: the same contract and name, the next version number, linked to its base. */
  function NextVersion(id: Id, base: Tariff, from: int, to: int, items: seq<LineItem>): Tariff {
    Tariff(id, base.contractId, base.name, base.version + 1, Some(base.id), from, to, items)
  }

  predicate IsNewVersion(t: Tariff) {
    t.base.Some? && t.version > 1
  }

  function Amended(s: State, c: Command): Result<State, UseCaseError>
    requires c.AmendTariff?
  {
    if c.contractId == NIL || c.baseId == NIL || c.from > c.to || c.items == [] then Err(InvalidInput)
    else if c.contractId !in s.contracts then Err(ContractNotFound)
    else if s.contracts[c.contractId].status != Contracted then Err(ContractNotContracted)
    else if c.baseId !in s.tariffs then Err(TariffNotFound)
    else if s.tariffs[c.baseId].contractId != c.contractId then Err(TariffNotInContract)
    else
      match ConvertedItems(c.items, s.nextId + 1)
      case Err(e) => Err(e)
      case Ok(items) =>
        var t := NextVersion(s.nextId, s.tariffs[c.baseId], c.from, c.to, items);
        if IsNewVersion(t) then Ok(Stored(s, t)) else Err(NotNewVersion)
  }

  // ---------------------------------------------------------------- tariffs from files

  /** The contract a file is registered for: an existing draft, or a new one with its store and ID. */
  function FileContract(s: State, c: Command): Result<(State, Id), UseCaseError>
    requires c.RegisterFile?
  {
    match c.target
    case Some(id) =>
      if id !in s.contracts then Err(ContractNotFound)
      else if s.contracts[id].status != InDraft then Err(ContractNotDraft)
      else Ok((s, id))
    case None =>
      if c.period.None? then Err(InvalidInput)
      else if c.period.value.0 > c.period.value.1 then Err(InvalidPeriod)
      else
        var contract := Contract(c.providerId, c.shipperId, InDraft, c.period.value.0, c.period.value.1);
        Ok((s.(contracts := s.contracts[s.nextId := contract], nextId := s.nextId + 1), s.nextId))
  }

  /** Registering the lines of a sheet, of which there may be none. */
  function SheetStored(s: State, contractId: Id, sheet: Sheet<ItemInput>): Result<State, UseCaseError> {
    if sheet.name == "" || contractId == NIL || sheet.from > sheet.to then Err(InvalidTariff)
    else
      match ConvertedItems(sheet.items, s.nextId + 1)
      case Err(e) => Err(e)
      case Ok(items) => Ok(Stored(s, Tariff(s.nextId, contractId, sheet.name, 1, None, sheet.from, sheet.to, items)))
  }

  function FileRegistered(s: State, c: Command): Result<State, UseCaseError>
    requires c.RegisterFile?
  {
    if !c.fileGiven || c.providerId == NIL || c.shipperId == NIL then Err(InvalidInput)
    else
      match FileContract(s, c)
      case Err(e) => Err(e)
      case Ok((s', id)) =>
        if c.sheet.None? then Err(SheetNotParsed)
        else if !c.accepted then Err(SheetRejected)
        else SheetStored(s', id, c.sheet.value)
  }

  /** The next version made from a file; its strategy builder refuses every line, so only an empty sheet passes. */
  function FileVersion(s: State, contractId: Id, baseId: Id, sheet: Option<Sheet<ItemInput>>)
    : Result<Tariff, UseCaseError>
  {
    if baseId !in s.tariffs then Err(TariffNotFound)
    else if s.tariffs[baseId].contractId != contractId then Err(TariffNotInContract)
    else if sheet.None? then Err(SheetNotParsed)
    else if sheet.value.from > sheet.value.to then Err(InvalidTariff)
    else if sheet.value.items != [] then Err(LineNotBuilt)
    else Ok(NextVersion(s.nextId, s.tariffs[baseId], sheet.value.from, sheet.value.to, []))
  }

  function FileAmended(s: State, c: Command): Result<State, UseCaseError>
    requires c.AmendFile?
  {
    if !c.fileGiven || c.contractId == NIL || c.baseId == NIL then Err(InvalidInput)
    else if c.contractId !in s.contracts then Err(ContractNotFound)
    else if s.contracts[c.contractId].status != Contracted then Err(ContractNotContracted)
    else
      match FileVersion(s, c.contractId, c.baseId, c.sheet)
      case Err(e) => Err(e)
      case Ok(t) => if IsNewVersion(t) then Ok(Stored(s, t)) else Err(NotNewVersion)
  }

  function VersionAdded(s: State, c: Command): Result<State, UseCaseError>
    requires c.AddVersion?
  {
    if c.contractId !in s.contracts then Err(ContractNotFound)
    else if s.contracts[c.contractId].status != InDraft then Err(ContractNotDraft)
    else
      match FileVersion(s, c.contractId, c.baseId, c.sheet)
      case Err(e) => Err(e)
      case Ok(t) => Ok(Stored(s, t))
  }

  function RemovedTariff(s: State, contractId: Id, tariffId: Id): Result<State, UseCaseError> {
    if contractId !in s.contracts then Err(ContractNotFound)
    else if s.contracts[contractId].status != InDraft then Err(ContractNotDraft)
    else if tariffId !in s.tariffs then Err(TariffNotFound)
    else if s.tariffs[tariffId].contractId != contractId then Err(TariffNotInContract)
    else Ok(s.(tariffs := s.tariffs - {tariffId}))
  }

  // ---------------------------------------------------------------- rates

  function CreatedRate(s: State, c: Command): Result<State, UseCaseError>
    requires c.CreateRate?
  {
    if c.shipperId == NIL || c.name == "" || c.from > c.to then Err(InvalidInput)
    else Ok(s.(rates := s.rates[s.nextId := RateState(Draft, [])], nextId := s.nextId + 1))
  }

  /** `listing` names each tariff of the contract exactly once: the repository's answer, in its own order. */
  ghost predicate IsListing(s: State, contractId: Id, listing: seq<Id>) {
    && Distinct(listing)
    && forall t :: t in listing <==> t in s.tariffs && s.tariffs[t].contractId == contractId
  }

  /** The tariffs with the given IDs, all of which must belong to the contract. */
  function NamedTariffs(s: State, contractId: Id, ids: seq<Id>): Result<seq<Tariff>, UseCaseError> {
    if ids == [] then Ok([])
    else
      var id := ids[|ids| - 1];
      match NamedTariffs(s, contractId, ids[..|ids| - 1])
      case Err(e) => Err(e)
      case Ok(front) =>
        if id !in s.tariffs then Err(TariffNotFound)
        else if s.tariffs[id].contractId != contractId then Err(TariffNotInContract)
        else Ok(front + [s.tariffs[id]])
  }

  ghost function TargetTariffs(s: State, c: Command): Result<seq<Tariff>, UseCaseError>
    requires c.ApplyContract?
  {
    if c.tariffIds != [] then NamedTariffs(s, c.contractId, c.tariffIds)
    else if !IsListing(s, c.contractId, c.listing) then Err(TariffFetchError)
    else if c.listing == [] then Err(NoTariffs)
    else NamedTariffs(s, c.contractId, c.listing)
  }

  /** The line items of a tariff that pass the filter; an empty filter passes all. */
  ghost function SelectedItems(t: Tariff, n: nat, filter: set<Id>): seq<RateableLineItem>
    requires n <= |t.items|
  {
    if n == 0 then []
    else
      var item := t.items[n - 1];
      SelectedItems(t, n - 1, filter) + if filter == {} || item.id in filter then [RateableOf(t.id, item)] else []
  }

  ghost function Selected(ts: seq<Tariff>, filter: set<Id>): seq<RateableLineItem> {
    if ts == [] then []
    else
      var t := ts[|ts| - 1];
      Selected(ts[..|ts| - 1], filter) + SelectedItems(t, |t.items|, filter)
  }

  /** The rate entry made from a line item. */
  function EntryFrom(item: RateableLineItem, id: Id, contractId: Id, providerId: Id): RateEntry {
    RateEntry(
      id, providerId, contractId, item.tariffId, item.lineItemId, item.route,
      item.chargeCode, item.category, ShownPrice(item))
  }

  ghost function EntriesFrom(items: seq<RateableLineItem>, firstId: Id, contractId: Id, providerId: Id)
    : seq<RateEntry>
  {
    seq(|items|, i requires 0 <= i < |items| => EntryFrom(items[i], firstId + i, contractId, providerId))
  }

  /** Adding entries one by one; the first that is refused fails the whole. */
  ghost function AddedAll(r: RateState, es: seq<RateEntry>): Result<RateState, RateError> {
    if es == [] then Ok(r)
    else
      match AddedAll(r, es[..|es| - 1])
      case Err(e) => Err(e)
      case Ok(r') => Added(r', es[|es| - 1], es[|es| - 1].id)
  }

  function IdSet(ids: seq<Id>): set<Id> {
    set i | i in ids
  }

  ghost function Applied(s: State, c: Command): Result<State, UseCaseError>
    requires c.ApplyContract?
  {
    if c.rateId == NIL || c.contractId == NIL then Err(InvalidInput)
    else if c.rateId !in s.rates then Err(RateNotFound)
    else if c.contractId !in s.contracts then Err(ContractNotFound)
    else if s.contracts[c.contractId].status != Contracted then Err(ContractNotContracted)
    else
      match TargetTariffs(s, c)
      case Err(e) => Err(e)
      case Ok(ts) =>
        var items := Selected(ts, IdSet(c.itemFilter));
        match AddedAll(
          s.rates[c.rateId], EntriesFrom(items, s.nextId, c.contractId, s.contracts[c.contractId].providerId))
        case Err(e) => Err(AddEntryError(e))
        case Ok(r) => Ok(s.(rates := s.rates[c.rateId := SavedRate(r)], nextId := s.nextId + |items|))
  }

  /** The first line item with the given ID. */
  function FindItem(items: seq<LineItem>, id: Id): (r: Option<LineItem>)
    ensures r.Some? ==> r.value in items && r.value.id == id
    ensures r.None? ==> forall item :: item in items ==> item.id != id
  {
    if items == [] then None
    else if FindItem(items[..|items| - 1], id).Some? then FindItem(items[..|items| - 1], id)
    else if items[|items| - 1].id == id then Some(items[|items| - 1])
    else None
  }

  function ReplacementBy(item: RateableLineItem): Replacement {
    Replacement(item.tariffId, item.lineItemId, item.route, item.chargeCode, item.category, ShownPrice(item))
  }

  /** The named contract is only compared with the new tariff's contract, never with the entry's own. */
  function ReplacedIn(s: State, c: Command): Result<State, UseCaseError>
    requires c.ReplaceEntry?
  {
    if c.rateId == NIL || c.entryId == NIL || c.contractId == NIL || c.tariffId == NIL || c.lineItemId == NIL
    then Err(InvalidInput)
    else if c.rateId !in s.rates then Err(RateNotFound)
    else if s.rates[c.rateId].status != Draft then Err(UseCaseError.RateNotDraft)
    else if c.contractId !in s.contracts then Err(ContractNotFound)
    else if c.tariffId !in s.tariffs then Err(TariffNotFound)
    else if s.tariffs[c.tariffId].contractId != c.contractId then Err(TariffNotInContract)
    else
      match FindItem(s.tariffs[c.tariffId].items, c.lineItemId)
      case None => Err(LineItemNotFound)
      case Some(item) =>
        match Replaced(s.rates[c.rateId], c.entryId, ReplacementBy(RateableOf(c.tariffId, item)))
        case Err(e) => Err(ReplaceError(e))
        case Ok(r) => Ok(s.(rates := s.rates[c.rateId := SavedRate(r)]))
  }

  function ActivatedIn(s: State, rateId: Id): Result<State, UseCaseError> {
    if rateId == NIL then Err(InvalidInput)
    else if rateId !in s.rates then Err(RateNotFound)
    else
      match Activated(s.rates[rateId])
      case Err(e) => Err(ActivationError(e))
      case Ok(r) => Ok(s.(rates := s.rates[rateId := SavedRate(r)]))
  }

  // ---------------------------------------------------------------- steps and runs

  ghost function Exec(s: State, c: Command): Result<State, UseCaseError> {
    match c
    case CreateContract(_, _, _, _, _) => CreatedContract(s, c)
    case UpdatePeriod(id, from, to) => PeriodUpdated(s, id, from, to)
    case RegisterTariff(_, _, _, _, _) => Registered(s, c)
    case RegisterFile(_, _, _, _, _, _, _) => FileRegistered(s, c)
    case AwardContract(id) => Awarded(s, id)
    case DeleteContract(id) => Deleted(s, id)
    case AmendTariff(_, _, _, _, _) => Amended(s, c)
    case AmendFile(_, _, _, _) => FileAmended(s, c)
    case AddVersion(_, _, _) => VersionAdded(s, c)
    case RemoveTariff(contractId, tariffId) => RemovedTariff(s, contractId, tariffId)
    case CreateRate(_, _, _, _) => CreatedRate(s, c)
    case ApplyContract(_, _, _, _, _) => Applied(s, c)
    case ReplaceEntry(_, _, _, _, _) => ReplacedIn(s, c)
    case ActivateRate(id) => ActivatedIn(s, id)
  }

  /** A step that fails saves nothing. */
  ghost function After(s: State, c: Command): State {
    match Exec(s, c) case Ok(s') => s' case Err(_) => s
  }

  ghost function Run(s: State, cs: seq<Command>): State {
    if cs == [] then s else After(Run(s, cs[..|cs| - 1]), cs[|cs| - 1])
  }

  /** Some step of a run from empty stores is as described. */
  ghost predicate Happened(cs: seq<Command>, p: (State, Command) -> bool) {
    exists n :: 0 <= n < |cs| && p(Run(INITIAL, cs[..n]), cs[n])
  }

  lemma HappenedStep(cs: seq<Command>, p: (State, Command) -> bool)
    requires cs != []
    ensures Happened(cs, p) <==>
      Happened(cs[..|cs| - 1], p) || p(Run(INITIAL, cs[..|cs| - 1]), cs[|cs| - 1])
  {
    var n := |cs| - 1;
    var front := cs[..n];
    assert forall k :: 0 <= k < n ==> front[..k] == cs[..k] && front[k] == cs[k];
    if Happened(front, p) {
      var k :| 0 <= k < n && p(Run(INITIAL, front[..k]), front[k]);
      assert p(Run(INITIAL, cs[..k]), cs[k]);
    }
    if Happened(cs, p) {
      var k :| 0 <= k <= n && p(Run(INITIAL, cs[..k]), cs[k]);
      assert k < n ==> p(Run(INITIAL, front[..k]), front[k]);
    }
  }
}
