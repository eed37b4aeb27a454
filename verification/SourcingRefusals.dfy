/**
 Why use cases refuse. All of them look at the same things in the same order: the input, the rate,
 the contract and its status, the tariff, and at last the sheet or the line item.
 */
module SourcingRefusals {
  import opened Pricing
  import opened Rates
  import opened Shared
  import opened SourcingAnswers
  import opened SourcingInvariants
  import opened SourcingModel

  // ---------------------------------------------------------------- what a command names

  /** All that the use case needs is given, and dates are in order where they are checked at once. */
  ghost predicate IsComplete(c: Command) {
    match c
    case CreateContract(bid, provider, shipper, from, to) =>
      NIL !in {bid, provider, shipper} && ZERO_TIME !in {from, to} && from <= to
    case UpdatePeriod(_, from, to) => from <= to
    case RegisterTariff(id, name, from, to, items) => id != NIL && name != "" && from <= to && items != []
    case RegisterFile(given, target, provider, shipper, period, _, _) =>
      given && NIL !in {provider, shipper} && (target.Some? || period.Some?)
    case AwardContract(id) => id != NIL
    case AmendTariff(id, base, from, to, items) => NIL !in {id, base} && from <= to && items != []
    case AmendFile(given, id, base, _) => given && NIL !in {id, base}
    case CreateRate(shipper, name, from, to) => shipper != NIL && name != "" && from <= to
    case ApplyContract(rate, id, _, _, _) => NIL !in {rate, id}
    case ReplaceEntry(rate, entry, id, tariff, item) => NIL !in {rate, entry, id, tariff, item}
    case ActivateRate(rate) => rate != NIL
    case _ => true
  }

  ghost function RateOf(c: Command): Option<Id> {
    match c
    case ApplyContract(rate, _, _, _, _) => Some(rate)
    case ReplaceEntry(rate, _, _, _, _) => Some(rate)
    case ActivateRate(rate) => Some(rate)
    case _ => None
  }

  ghost function ContractOf(c: Command): Option<Id> {
    match c
    case CreateContract(_, _, _, _, _) => None
    case RegisterFile(_, target, _, _, _, _, _) => target
    case CreateRate(_, _, _, _) => None
    case ActivateRate(_) => None
    case _ => Some(c.contractId)
  }

  ghost function TariffOf(c: Command): Option<Id> {
    match c
    case AmendTariff(_, base, _, _, _) => Some(base)
    case AmendFile(_, _, base, _) => Some(base)
    case AddVersion(_, base, _) => Some(base)
    case RemoveTariff(_, t) => Some(t)
    case ReplaceEntry(_, _, _, t, _) => Some(t)
    case _ => None
  }

  ghost predicate ReadsSheet(c: Command) {
    c.RegisterFile? || c.AmendFile? || c.AddVersion?
  }

  /** Amending and applying are for contracted contracts, a replace is for any, and all else is for drafts. */
  ghost predicate WantsContracted(c: Command) {
    c.AmendTariff? || c.AmendFile? || c.ApplyContract?
  }

  ghost predicate WantsDraft(c: Command) {
    ContractOf(c).Some? && !WantsContracted(c) && !c.ReplaceEntry?
  }

  // ---------------------------------------------------------------- one thing after the other

  ghost predicate RateInOrder(s: State, c: Command) {
    && IsComplete(c)
    && (RateOf(c).Some? ==> RateOf(c).value in s.rates)
    && (c.ReplaceEntry? ==> s.rates[c.rateId].status == Draft)
  }

  ghost predicate ContractFound(s: State, c: Command) {
    RateInOrder(s, c) && (ContractOf(c).Some? ==> ContractOf(c).value in s.contracts)
  }

  ghost predicate ContractInOrder(s: State, c: Command) {
    && ContractFound(s, c)
    && (WantsDraft(c) ==> s.contracts[ContractOf(c).value].status == InDraft)
    && (WantsContracted(c) ==> s.contracts[ContractOf(c).value].status == Contracted)
  }

  ghost predicate TariffInOrder(s: State, c: Command) {
    ContractInOrder(s, c) && (TariffOf(c).Some? ==> Holds(s, c.contractId, TariffOf(c).value))
  }

  /** A new contract for a file has a period in order. */
  ghost predicate PeriodInOrder(s: State, c: Command) {
    && TariffInOrder(s, c)
    && (c.RegisterFile? && c.target.None? ==> c.period.value.0 <= c.period.value.1)
  }

  // ---------------------------------------------------------------- refusals

  lemma {:induction false} ConversionErrors(inputs: seq<ItemInput>, firstId: Id)
    ensures var r := ConvertedItems(inputs, firstId);
      r.Err? ==> r.error.ConversionError? || r.error.AddItemError?
  {
    if inputs != [] {
      ConversionErrors(inputs[..|inputs| - 1], firstId);
    }
  }

  lemma {:induction false} NamedErrors(s: State, contractId: Id, ids: seq<Id>)
    ensures var r := NamedTariffs(s, contractId, ids);
      r.Err? ==> r.error.TariffNotFound? || r.error.TariffNotInContract?
  {
    if ids != [] {
      NamedErrors(s, contractId, ids[..|ids| - 1]);
    }
  }

  /** What later stages may refuse for is none of the things that come before. */
  lemma LaterErrors(s: State, c: Command)
    ensures c.RegisterTariff? || c.AmendTariff? ==>
      var r := ConvertedItems(c.items, s.nextId + 1);
      r.Err? ==> r.error.ConversionError? || r.error.AddItemError?
    ensures c.RegisterFile? && c.sheet.Some? && FileContract(s, c).Ok? ==>
      var r := ConvertedItems(c.sheet.value.items, FileContract(s, c).value.0.nextId + 1);
      r.Err? ==> r.error.ConversionError? || r.error.AddItemError?
    ensures c.ApplyContract? ==>
      var r := TargetTariffs(s, c);
      r.Err? ==> r.error in {TariffNotFound, TariffNotInContract, TariffFetchError, NoTariffs}
  {
    match c
    case RegisterTariff(_, _, _, _, items) => ConversionErrors(items, s.nextId + 1);
    case AmendTariff(_, _, _, _, items) => ConversionErrors(items, s.nextId + 1);
    case RegisterFile(_, _, _, _, _, sheet, _) =>
      if sheet.Some? && FileContract(s, c).Ok? {
        ConversionErrors(sheet.value.items, FileContract(s, c).value.0.nextId + 1);
      }
    case ApplyContract(_, _, _, _, _) =>
      NamedErrors(s, c.contractId, c.tariffIds);
      NamedErrors(s, c.contractId, c.listing);
    case _ =>
  }

  lemma RefusedForTheInputIff(s: State, c: Command)
    ensures Exec(s, c) == Err(InvalidInput) <==> !IsComplete(c)
  {
    LaterErrors(s, c);
  }

  lemma RefusedForTheRateIff(s: State, c: Command)
    ensures Exec(s, c) == Err(RateNotFound) <==> IsComplete(c) && RateOf(c).Some? && RateOf(c).value !in s.rates
    ensures Exec(s, c) == Err(UseCaseError.RateNotDraft) <==>
      IsComplete(c) && c.ReplaceEntry? && c.rateId in s.rates && s.rates[c.rateId].status != Draft
  {
    LaterErrors(s, c);
  }

  lemma RefusedForTheContractIff(s: State, c: Command)
    ensures Exec(s, c) == Err(ContractNotFound) <==> RateInOrder(s, c) && !ContractFound(s, c)
  {
    LaterErrors(s, c);
  }

  lemma RefusedForNoDraftIff(s: State, c: Command)
    ensures Exec(s, c) == Err(ContractNotDraft) <==>
      ContractFound(s, c) && WantsDraft(c) && s.contracts[ContractOf(c).value].status != InDraft
  {
    LaterErrors(s, c);
  }

  lemma RefusedForNoContractedIff(s: State, c: Command)
    ensures Exec(s, c) == Err(ContractNotContracted) <==>
      ContractFound(s, c) && WantsContracted(c) && s.contracts[ContractOf(c).value].status != Contracted
  {
    LaterErrors(s, c);
  }

  lemma RefusedForTheTariffIff(s: State, c: Command)
    requires !c.ApplyContract?
    ensures Exec(s, c) == Err(TariffNotFound) <==>
      ContractInOrder(s, c) && TariffOf(c).Some? && TariffOf(c).value !in s.tariffs
    ensures Exec(s, c) == Err(TariffNotInContract) <==>
      ContractInOrder(s, c) && TariffOf(c).Some? && TariffOf(c).value in s.tariffs && !TariffInOrder(s, c)
  {
    LaterErrors(s, c);
  }

  lemma RefusedForTheSheetIff(s: State, c: Command)
    requires ReadsSheet(c) && Inv(s)
    ensures Exec(s, c) == Err(InvalidPeriod) <==> TariffInOrder(s, c) && !PeriodInOrder(s, c)
    ensures Exec(s, c) == Err(SheetNotParsed) <==> PeriodInOrder(s, c) && c.sheet.None?
    ensures Exec(s, c) == Err(SheetRejected) <==>
      PeriodInOrder(s, c) && c.sheet.Some? && c.RegisterFile? && !c.accepted
  {
    LaterErrors(s, c);
  }

  lemma RefusedForTheLinesIff(s: State, c: Command)
    requires ReadsSheet(c) && Inv(s)
    ensures Exec(s, c) == Err(InvalidTariff) <==>
      && PeriodInOrder(s, c) && c.sheet.Some? && (c.RegisterFile? ==> c.accepted)
      && (c.sheet.value.from > c.sheet.value.to || (c.RegisterFile? && c.sheet.value.name == ""))
    ensures Exec(s, c) == Err(LineNotBuilt) <==>
      && PeriodInOrder(s, c) && c.sheet.Some? && !c.RegisterFile?
      && c.sheet.value.from <= c.sheet.value.to && c.sheet.value.items != []
  {
    LaterErrors(s, c);
  }

  // ---------------------------------------------------------------- lines, named tariffs and entries

  /** The first line that cannot be used: it could not be converted, or it has no charge code. */
  ghost predicate IsFirstUnusable(inputs: seq<ItemInput>, n: nat) {
    n < |inputs| && !IsUsable(inputs[n]) && forall k :: 0 <= k < n ==> IsUsable(inputs[k])
  }

  ghost function LineError(input: ItemInput): UseCaseError {
    match input case Err(e) => ConversionError(e) case Ok(_) => AddItemError
  }

  lemma {:induction false} FirstUnusableDecides(inputs: seq<ItemInput>, firstId: Id, n: nat)
    requires IsFirstUnusable(inputs, n)
    ensures ConvertedItems(inputs, firstId) == Err(LineError(inputs[n]))
  {
    var m := |inputs| - 1;
    if n < m {
      FirstUnusableDecides(inputs[..m], firstId, n);
    } else {
      ConversionSucceedsIff(inputs[..m], firstId);
    }
  }

  /** If all else is in order, the first line that cannot be used is what the use case refuses for. */
  lemma RefusedForALine(s: State, c: Command, n: nat)
    requires (c.RegisterTariff? || c.AmendTariff?) && TariffInOrder(s, c) && IsFirstUnusable(c.items, n)
    ensures Exec(s, c) == Err(LineError(c.items[n]))
  {
    FirstUnusableDecides(c.items, s.nextId + 1, n);
  }

  lemma RefusedForALineOfAFile(s: State, c: Command, n: nat)
    requires Inv(s) && c.RegisterFile? && PeriodInOrder(s, c) && c.sheet.Some? && c.accepted
    requires c.sheet.value.name != "" && c.sheet.value.from <= c.sheet.value.to
    requires IsFirstUnusable(c.sheet.value.items, n)
    ensures Exec(s, c) == Err(LineError(c.sheet.value.items[n]))
  {
    FirstUnusableDecides(c.sheet.value.items, FileContract(s, c).value.0.nextId + 1, n);
  }

  /** The first named tariff that the contract does not hold. */
  ghost predicate IsFirstStray(s: State, contractId: Id, ids: seq<Id>, n: nat) {
    n < |ids| && !Holds(s, contractId, ids[n]) && forall k :: 0 <= k < n ==> Holds(s, contractId, ids[k])
  }

  lemma {:induction false} FirstStrayDecides(s: State, contractId: Id, ids: seq<Id>, n: nat)
    requires IsFirstStray(s, contractId, ids, n)
    ensures NamedTariffs(s, contractId, ids) == Err(if ids[n] in s.tariffs then TariffNotInContract else TariffNotFound)
  {
    var m := |ids| - 1;
    if n < m {
      FirstStrayDecides(s, contractId, ids[..m], n);
    } else {
      NamedAre(s, contractId, ids[..m]);
    }
  }

  /** An apply refuses for the first named tariff that is not the contract's. */
  lemma RefusedForANamedTariff(s: State, c: Command, n: nat)
    requires c.ApplyContract? && ContractInOrder(s, c) && IsFirstStray(s, c.contractId, c.tariffIds, n)
    ensures Exec(s, c) == Err(if c.tariffIds[n] in s.tariffs then TariffNotInContract else TariffNotFound)
  {
    FirstStrayDecides(s, c.contractId, c.tariffIds, n);
  }

  /** A replace refuses for the line item, and then for the entry, of which there must be one with the ID. */
  lemma RefusedForTheEntryIff(s: State, c: Command, e: RateError)
    requires Inv(s) && c.ReplaceEntry? && TariffInOrder(s, c)
    ensures Exec(s, c) == Err(LineItemNotFound) <==>
      forall item :: item in s.tariffs[c.tariffId].items ==> item.id != c.lineItemId
    ensures Exec(s, c) == Err(ReplaceError(e)) <==>
      && e == EntryNotFound && Exec(s, c) != Err(LineItemNotFound)
      && forall x :: x in s.rates[c.rateId].entries ==> x.id != c.entryId
  {
    ReplaceSucceedsIff(s, c);
  }

  lemma RefusedToActivateIff(s: State, c: Command, e: RateError)
    requires c.ActivateRate? && RateInOrder(s, c)
    ensures Exec(s, c) == Err(ActivationError(e)) <==>
      if s.rates[c.rateId].status != Draft then e == RateError.RateNotDraft
      else s.rates[c.rateId].entries == [] && e == NoEntries
  {
  }

  /** Awarding asks for a tariff, and so does an apply of all tariffs of a contract. */
  lemma RefusedForNoTariffs(s: State, c: Command)
    requires c.ApplyContract? ==> IsListing(s, c.contractId, c.listing)
    ensures Exec(s, c) == Err(NoTariffs) <==>
      && (c.AwardContract? || (c.ApplyContract? && c.tariffIds == []))
      && ContractInOrder(s, c) && forall t :: t in s.tariffs ==> s.tariffs[t].contractId != c.contractId
  {
    LaterErrors(s, c);
    if c.ApplyContract? {
      NamedErrors(s, c.contractId, c.tariffIds);
      NamedErrors(s, c.contractId, c.listing);
      assert c.listing != [] ==> c.listing[0] in c.listing;
    }
  }

  /** An apply that finds its tariffs refuses exactly if the rate is no draft and some item passes the filter. */
  lemma {:induction false} RefusedForAnActiveRateIff(s: State, c: Command)
    requires Inv(s) && c.ApplyContract? && ContractInOrder(s, c) && HasTargets(s, c)
    ensures Exec(s, c) == Err(AddEntryError(RateError.RateNotDraft)) <==>
      s.rates[c.rateId].status != Draft && !NothingPasses(s, c)
  {
    ApplySucceedsIff(s, c);
    HasTargetsIff(s, c);
    AppliedErrors(s, c);
  }
}
