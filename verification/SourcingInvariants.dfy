/**
 What every run of the use cases that write to the stores keeps, without any proviso: rate
 entries show the line item they point at for as long as its tariff exists, its price as stored.
 */
module SourcingInvariants {
  import opened Pricing
  import opened Rates
  import opened RateStore
  import opened Refinement
  import opened Shared
  import opened SourcingModel

  // ---------------------------------------------------------------- the invariant

  /** All IDs in use are below the next unused one, and none is NIL. */
  ghost predicate IdsInUse(s: State) {
    && s.nextId > NIL
    && (forall c :: c in s.contracts ==> NIL < c < s.nextId)
    && (forall t :: t in s.tariffs ==> NIL < t < s.nextId)
    && (forall r :: r in s.rates ==> NIL < r < s.nextId)
    && forall r, e :: r in s.rates && e in s.rates[r].entries ==> NIL < e.id < s.nextId && e.tariffId < s.nextId
  }

  ghost predicate IsContracted(s: State, contractId: Id) {
    contractId in s.contracts && s.contracts[contractId].status == Contracted
  }

  /** The line items are sound, and their IDs are distinct. */
  ghost predicate ItemsOk(items: seq<LineItem>) {
    DistinctItems(items) && forall item :: item in items ==> item.id != NIL && item.chargeCode != ""
  }

  /** A tariff is stored under its ID, in an existing contract, with a version from 1 on and sound line items. */
  ghost predicate TariffOk(s: State, id: Id)
    requires id in s.tariffs
  {
    var t := s.tariffs[id];
    t.id == id && t.contractId in s.contracts && t.version >= 1 && ItemsOk(t.items)
  }

  /** The entry shows the data of the line item it points at, its price as stored, unless that item's tariff is gone. */
  ghost predicate Cached(s: State, e: RateEntry) {
    e.tariffId in s.tariffs ==>
      exists item :: item in s.tariffs[e.tariffId].items && Projects(e, e.tariffId, item) && ShowsPriceOf(e, item)
  }

  /** The entry's contract is contracted, the provider is that contract's, and the shown data is up to date. */
  ghost predicate EntryOk(s: State, e: RateEntry) {
    && IsContracted(s, e.contractId) && e.providerId == s.contracts[e.contractId].providerId
    && Cached(s, e) && IsStorable(e)
  }

  ghost predicate RateOk(s: State, r: RateState) {
    && (forall e :: e in r.entries ==> EntryOk(s, e))
    && DistinctEntries(r.entries)
    && (r.status != Draft ==> r.entries != [])
  }

  ghost predicate TariffsOk(s: State) {
    forall t :: t in s.tariffs ==> TariffOk(s, t)
  }

  ghost predicate ContractsOk(s: State) {
    forall c :: IsContracted(s, c) ==> HasTariff(s, c)
  }

  ghost predicate RatesOk(s: State) {
    forall r :: r in s.rates ==> RateOk(s, s.rates[r])
  }

  ghost predicate Inv(s: State) {
    IdsInUse(s) && TariffsOk(s) && ContractsOk(s) && RatesOk(s)
  }

  // ---------------------------------------------------------------- what every step leaves alone

  /**
   Contracts stay, and contracted ones keep their status and provider; a tariff never changes, and
   no tariff ever comes back under an ID that was used before.
   */
  ghost predicate Leaves(s: State, s': State) {
    && s.nextId <= s'.nextId
    && (forall c :: c in s.contracts ==> c in s'.contracts)
    && (forall c :: IsContracted(s, c) ==>
          IsContracted(s', c) && s'.contracts[c].providerId == s.contracts[c].providerId)
    && forall t :: t in s'.tariffs && t < s.nextId ==> t in s.tariffs && s'.tariffs[t] == s.tariffs[t]
  }

  lemma EntryStaysOk(s: State, s': State, e: RateEntry)
    requires Leaves(s, s') && EntryOk(s, e) && e.tariffId < s.nextId
    ensures EntryOk(s', e)
  {
  }

  lemma RatesStayOk(s: State, s': State)
    requires Leaves(s, s') && IdsInUse(s) && RatesOk(s) && s'.rates == s.rates
    ensures RatesOk(s')
  {
    forall r, e | r in s.rates && e in s.rates[r].entries
      ensures EntryOk(s', e)
    {
      assert RateOk(s, s.rates[r]);
      EntryStaysOk(s, s', e);
    }
  }

  /** Contracted contracts keep their tariffs. */
  ghost predicate KeepsTariffs(s: State, s': State) {
    forall t :: t in s.tariffs && IsContracted(s', s.tariffs[t].contractId) ==>
      t in s'.tariffs && s'.tariffs[t] == s.tariffs[t]
  }

  lemma ContractsStayOk(s: State, s': State)
    requires ContractsOk(s) && KeepsTariffs(s, s')
    requires forall c :: IsContracted(s', c) ==> IsContracted(s, c) || HasTariff(s, c)
    ensures ContractsOk(s')
  {
    forall c | IsContracted(s', c)
      ensures HasTariff(s', c)
    {
      var t :| t in s.tariffs && s.tariffs[t].contractId == c;
      assert t in s'.tariffs && s'.tariffs[t].contractId == c;
    }
  }

  lemma TariffsStayOk(s: State, s': State)
    requires Leaves(s, s') && TariffsOk(s) && forall t :: t in s'.tariffs ==> t in s.tariffs && t < s.nextId
    ensures TariffsOk(s')
  {
    forall t | t in s'.tariffs
      ensures TariffOk(s', t)
    {
      assert TariffOk(s, t);
    }
  }

  // ---------------------------------------------------------------- contract steps

  /** Adding a draft contract. */
  lemma ContractAdded(s: State, contract: Contract)
    requires Inv(s) && contract.status == InDraft
    ensures Inv(s.(contracts := s.contracts[s.nextId := contract], nextId := s.nextId + 1))
  {
    var s' := s.(contracts := s.contracts[s.nextId := contract], nextId := s.nextId + 1);
    RatesStayOk(s, s');
    TariffsStayOk(s, s');
    ContractsStayOk(s, s');
  }

  /** Changing a draft contract, to a contracted one only if it has a tariff. */
  lemma ContractChanged(s: State, id: Id, contract: Contract)
    requires Inv(s) && id in s.contracts && s.contracts[id].status == InDraft
    requires contract.status == Contracted ==> HasTariff(s, id)
    ensures Inv(s.(contracts := s.contracts[id := contract]))
  {
    var s' := s.(contracts := s.contracts[id := contract]);
    RatesStayOk(s, s');
    TariffsStayOk(s, s');
    ContractsStayOk(s, s');
  }

  // ---------------------------------------------------------------- tariff steps

  lemma {:induction false} ConvertedItemsHaveIds(inputs: seq<ItemInput>, firstId: Id)
    requires ConvertedItems(inputs, firstId).Ok?
    ensures var items := ConvertedItems(inputs, firstId).value;
      && |items| == |inputs|
      && forall i :: 0 <= i < |items| ==> items[i].id == firstId + i && items[i].chargeCode != ""
  {
    if inputs != [] {
      ConvertedItemsHaveIds(inputs[..|inputs| - 1], firstId);
    }
  }

  lemma ConvertedItemsAreOk(inputs: seq<ItemInput>, firstId: Id)
    requires ConvertedItems(inputs, firstId).Ok? && firstId > NIL
    ensures ItemsOk(ConvertedItems(inputs, firstId).value) && |ConvertedItems(inputs, firstId).value| == |inputs|
  {
    ConvertedItemsHaveIds(inputs, firstId);
  }

  /** Storing a tariff under a fresh ID. */
  lemma StoreKeeps(s: State, t: Tariff)
    requires Inv(s) && t.id == s.nextId && t.contractId in s.contracts && t.version >= 1 && ItemsOk(t.items)
    ensures Inv(Stored(s, t))
  {
    var s' := Stored(s, t);
    RatesStayOk(s, s');
    ContractsStayOk(s, s');
    forall k | k in s'.tariffs
      ensures TariffOk(s', k)
    {
      assert k != t.id ==> TariffOk(s, k);
    }
  }

  lemma RegisterKeeps(s: State, c: Command)
    requires Inv(s) && c.RegisterTariff? && Exec(s, c).Ok?
    ensures Inv(After(s, c))
  {
    ConvertedItemsAreOk(c.items, s.nextId + 1);
    var items := ConvertedItems(c.items, s.nextId + 1).value;
    StoreKeeps(s, Tariff(s.nextId, c.contractId, c.name, 1, None, c.from, c.to, items));
  }

  lemma SheetKeeps(s: State, contractId: Id, sheet: Sheet<ItemInput>)
    requires Inv(s) && contractId in s.contracts && SheetStored(s, contractId, sheet).Ok?
    ensures Inv(SheetStored(s, contractId, sheet).value)
  {
    ConvertedItemsAreOk(sheet.items, s.nextId + 1);
    var items := ConvertedItems(sheet.items, s.nextId + 1).value;
    StoreKeeps(s, Tariff(s.nextId, contractId, sheet.name, 1, None, sheet.from, sheet.to, items));
  }

  lemma RegisterFileKeeps(s: State, c: Command)
    requires Inv(s) && c.RegisterFile? && Exec(s, c).Ok?
    ensures Inv(After(s, c))
  {
    var (s', id) := FileContract(s, c).value;
    if c.target.None? {
      ContractAdded(s, Contract(c.providerId, c.shipperId, InDraft, c.period.value.0, c.period.value.1));
    }
    SheetKeeps(s', id, c.sheet.value);
  }

  lemma AmendKeeps(s: State, c: Command)
    requires Inv(s) && c.AmendTariff? && Exec(s, c).Ok?
    ensures Inv(After(s, c))
  {
    ConvertedItemsAreOk(c.items, s.nextId + 1);
    var items := ConvertedItems(c.items, s.nextId + 1).value;
    StoreKeeps(s, NextVersion(s.nextId, s.tariffs[c.baseId], c.from, c.to, items));
  }

  lemma FileVersionKeeps(s: State, contractId: Id, baseId: Id, sheet: Option<Sheet<ItemInput>>)
    requires Inv(s) && contractId in s.contracts && FileVersion(s, contractId, baseId, sheet).Ok?
    ensures Inv(Stored(s, FileVersion(s, contractId, baseId, sheet).value))
  {
    StoreKeeps(s, FileVersion(s, contractId, baseId, sheet).value);
  }

  lemma RemoveKeeps(s: State, c: Command)
    requires Inv(s) && c.RemoveTariff? && Exec(s, c).Ok?
    ensures Inv(After(s, c))
  {
    var s' := After(s, c);
    RatesStayOk(s, s');
    TariffsStayOk(s, s');
    ContractsStayOk(s, s');
  }

  // ---------------------------------------------------------------- rate steps

  /** Changing one rate, to one that is sound. */
  lemma RateChangeKeeps(s: State, id: Id, r: RateState, nextId: Id)
    requires Inv(s) && NIL < id < nextId && s.nextId <= nextId && RateOk(s, r)
    requires forall e :: e in r.entries ==> NIL < e.id < nextId && e.tariffId < s.nextId
    ensures Inv(s.(rates := s.rates[id := r], nextId := nextId))
  {
    var s' := s.(rates := s.rates[id := r], nextId := nextId);
    TariffsStayOk(s, s');
    ContractsStayOk(s, s');
    forall k | k in s'.rates
      ensures RateOk(s', s'.rates[k])
    {
      assert RateOk(s, s'.rates[k]);
      forall e | e in s'.rates[k].entries
        ensures EntryOk(s', e)
      {
        EntryStaysOk(s, s', e);
      }
    }
  }

  lemma {:induction false} NamedTariffsAreStored(s: State, contractId: Id, ids: seq<Id>)
    requires NamedTariffs(s, contractId, ids).Ok? && TariffsOk(s)
    ensures forall t :: t in NamedTariffs(s, contractId, ids).value ==>
      t.id in s.tariffs && s.tariffs[t.id] == t && t.contractId == contractId
  {
    if ids != [] {
      NamedTariffsAreStored(s, contractId, ids[..|ids| - 1]);
      var id := ids[|ids| - 1];
      assert TariffOk(s, id);
    }
  }

  /** `r` describes a line item of a stored tariff of the contract. */
  ghost predicate Describes(s: State, contractId: Id, r: RateableLineItem) {
    && r.tariffId in s.tariffs && s.tariffs[r.tariffId].contractId == contractId
    && exists item :: item in s.tariffs[r.tariffId].items && r == RateableOf(r.tariffId, item)
  }

  lemma {:induction false} SelectedItemsDescribe(s: State, t: Tariff, n: nat, filter: set<Id>)
    requires n <= |t.items| && t.id in s.tariffs && s.tariffs[t.id] == t
    ensures forall r :: r in SelectedItems(t, n, filter) ==> Describes(s, t.contractId, r)
  {
    if n > 0 {
      SelectedItemsDescribe(s, t, n - 1, filter);
      assert t.items[n - 1] in t.items;
    }
  }

  lemma {:induction false} SelectedDescribe(s: State, contractId: Id, ts: seq<Tariff>, filter: set<Id>)
    requires forall t :: t in ts ==> t.id in s.tariffs && s.tariffs[t.id] == t && t.contractId == contractId
    ensures forall r :: r in Selected(ts, filter) ==> Describes(s, contractId, r)
  {
    if ts != [] {
      var t := ts[|ts| - 1];
      assert t in ts;
      SelectedDescribe(s, contractId, ts[..|ts| - 1], filter);
      SelectedItemsDescribe(s, t, |t.items|, filter);
    }
  }

  lemma {:induction false} AddedAllAppends(r: RateState, es: seq<RateEntry>)
    requires AddedAll(r, es).Ok?
    ensures AddedAll(r, es).value == r.(entries := r.entries + es)
    ensures es != [] ==> r.status == Draft
  {
    if es == [] {
      assert r.entries + es == r.entries;
    } else {
      AddedAllAppends(r, es[..|es| - 1]);
      assert r.entries + es == r.entries + es[..|es| - 1] + [es[|es| - 1]];
    }
  }

  lemma NewEntryIsOk(s: State, contractId: Id, item: RateableLineItem, id: Id)
    requires IsContracted(s, contractId) && Describes(s, contractId, item)
    ensures EntryOk(s, SavedEntry(EntryFrom(item, id, contractId, s.contracts[contractId].providerId)))
  {
    var e := EntryFrom(item, id, contractId, s.contracts[contractId].providerId);
    var li :| li in s.tariffs[item.tariffId].items && item == RateableOf(item.tariffId, li);
    SavedIsStorable(e);
    assert Projects(SavedEntry(e), e.tariffId, li) && ShowsPriceOf(SavedEntry(e), li);
  }

  /** The rows of the entries that are made from line items. */
  ghost function NewEntries(s: State, contractId: Id, items: seq<RateableLineItem>): seq<RateEntry>
    requires contractId in s.contracts
  {
    SavedEntries(EntriesFrom(items, s.nextId, contractId, s.contracts[contractId].providerId))
  }

  lemma NewEntriesAreOk(s: State, contractId: Id, items: seq<RateableLineItem>)
    requires IsContracted(s, contractId) && forall r :: r in items ==> Describes(s, contractId, r)
    ensures forall e :: e in NewEntries(s, contractId, items) ==>
      && EntryOk(s, e) && s.nextId <= e.id < s.nextId + |items|
      && e.tariffId in s.tariffs && s.tariffs[e.tariffId].contractId == contractId == e.contractId
  {
    var es := NewEntries(s, contractId, items);
    forall e | e in es
      ensures EntryOk(s, e) && s.nextId <= e.id < s.nextId + |items|
      ensures e.tariffId in s.tariffs && s.tariffs[e.tariffId].contractId == contractId == e.contractId
    {
      var i :| 0 <= i < |es| && es[i] == e;
      assert items[i] in items;
      NewEntryIsOk(s, contractId, items[i], s.nextId + i);
    }
  }

  lemma GrownRateIsOk(s: State, r: RateState, es: seq<RateEntry>)
    requires RateOk(s, r) && forall e :: e in r.entries ==> e.id < s.nextId
    requires forall e :: e in es ==> EntryOk(s, e)
    requires forall i :: 0 <= i < |es| ==> es[i].id == s.nextId + i
    ensures RateOk(s, r.(entries := r.entries + es))
  {
    assert forall i :: 0 <= i < |r.entries| ==> r.entries[i] in r.entries;
  }

  /** Adding the entries of described line items of a contracted contract to a rate. */
  lemma EntriesKeep(s: State, rateId: Id, contractId: Id, items: seq<RateableLineItem>)
    requires Inv(s) && rateId in s.rates && IsContracted(s, contractId)
    requires forall r :: r in items ==> Describes(s, contractId, r)
    ensures var r, es := s.rates[rateId], NewEntries(s, contractId, items);
      Inv(s.(rates := s.rates[rateId := r.(entries := r.entries + es)], nextId := s.nextId + |items|))
  {
    var r, es := s.rates[rateId], NewEntries(s, contractId, items);
    NewEntriesAreOk(s, contractId, items);
    assert RateOk(s, r);
    GrownRateIsOk(s, r, es);
    RateChangeKeeps(s, rateId, r.(entries := r.entries + es), s.nextId + |items|);
  }

  lemma TargetsDescribe(s: State, c: Command)
    requires TariffsOk(s) && c.ApplyContract? && TargetTariffs(s, c).Ok?
    ensures forall r :: r in Selected(TargetTariffs(s, c).value, IdSet(c.itemFilter)) ==> Describes(s, c.contractId, r)
  {
    NamedTariffsAreStored(s, c.contractId, if c.tariffIds != [] then c.tariffIds else c.listing);
    SelectedDescribe(s, c.contractId, TargetTariffs(s, c).value, IdSet(c.itemFilter));
  }

  /** What a successful apply adds to the rate. */
  ghost function AddedEntries(s: State, c: Command): seq<RateEntry>
    requires c.ApplyContract? && Exec(s, c).Ok?
  {
    NewEntries(s, c.contractId, Selected(TargetTariffs(s, c).value, IdSet(c.itemFilter)))
  }

  lemma ApplyAdds(s: State, c: Command)
    requires RatesOk(s) && c.ApplyContract? && Exec(s, c).Ok?
    ensures var r, es := s.rates[c.rateId], AddedEntries(s, c);
      && After(s, c) == s.(rates := s.rates[c.rateId := r.(entries := r.entries + es)], nextId := s.nextId + |es|)
      && (es != [] ==> r.status == Draft)
  {
    var r, items := s.rates[c.rateId], Selected(TargetTariffs(s, c).value, IdSet(c.itemFilter));
    var es := EntriesFrom(items, s.nextId, c.contractId, s.contracts[c.contractId].providerId);
    assert RateOk(s, r);
    AddedAllAppends(r, es);
    SavedAppend(r.entries, es);
  }

  lemma ApplyKeeps(s: State, c: Command)
    requires Inv(s) && c.ApplyContract? && Exec(s, c).Ok?
    ensures Inv(After(s, c))
  {
    TargetsDescribe(s, c);
    ApplyAdds(s, c);
    EntriesKeep(s, c.rateId, c.contractId, Selected(TargetTariffs(s, c).value, IdSet(c.itemFilter)));
  }

  /** The entry that a successful replace puts in place of the one at the returned position. */
  lemma ReplacePuts(s: State, c: Command) returns (i: nat, e: RateEntry)
    requires TariffsOk(s) && RatesOk(s) && c.ReplaceEntry? && Exec(s, c).Ok?
    ensures c.rateId in s.rates && s.rates[c.rateId].status == Draft && i < |s.rates[c.rateId].entries|
    ensures IndexOf(s.rates[c.rateId].entries, c.entryId) == Some(i)
    ensures var was := s.rates[c.rateId].entries[i];
      e.id == was.id == c.entryId && e.contractId == was.contractId && e.providerId == was.providerId
    ensures e.tariffId == c.tariffId && c.tariffId in s.tariffs && s.tariffs[c.tariffId].contractId == c.contractId
    ensures c.contractId in s.contracts && Cached(s, e) && IsStorable(e)
    ensures var r := s.rates[c.rateId];
      After(s, c) == s.(rates := s.rates[c.rateId := r.(entries := r.entries[i := e])])
  {
    var r := s.rates[c.rateId];
    i := IndexOf(r.entries, c.entryId).value;
    var item := FindItem(s.tariffs[c.tariffId].items, c.lineItemId).value;
    var replaced := ReplacedEntry(r.entries[i], ReplacementBy(RateableOf(c.tariffId, item)));
    e := SavedEntry(replaced);
    assert RateOk(s, r);
    SavedUpdate(r.entries, i, replaced);
    SavedIsStorable(replaced);
    assert Projects(e, c.tariffId, item) && ShowsPriceOf(e, item);
  }

  lemma ReplaceKeeps(s: State, c: Command)
    requires Inv(s) && c.ReplaceEntry? && Exec(s, c).Ok?
    ensures Inv(After(s, c))
  {
    var i, e' := ReplacePuts(s, c);
    var r := s.rates[c.rateId];
    assert RateOk(s, r) && r.entries[i] in r.entries;
    var r' := r.(entries := r.entries[i := e']);
    forall e | e in r'.entries
      ensures EntryOk(s, e) && NIL < e.id < s.nextId && e.tariffId < s.nextId
    {
      assert e == e' || e in r.entries;
    }
    RateChangeKeeps(s, c.rateId, r', s.nextId);
  }

  lemma ActivateOnlyActivates(s: State, c: Command)
    requires RatesOk(s) && c.ActivateRate? && Exec(s, c).Ok?
    ensures var r := s.rates[c.rateId];
      r.status == Draft && After(s, c) == s.(rates := s.rates[c.rateId := r.(status := Active)])
  {
    assert RateOk(s, s.rates[c.rateId]);
    StorableStay(s.rates[c.rateId].entries);
  }

  lemma ActivateKeeps(s: State, c: Command)
    requires Inv(s) && c.ActivateRate? && Exec(s, c).Ok?
    ensures Inv(After(s, c))
  {
    var r := s.rates[c.rateId];
    assert RateOk(s, r);
    ActivateOnlyActivates(s, c);
    RateChangeKeeps(s, c.rateId, r.(status := Active), s.nextId);
  }

  // ---------------------------------------------------------------- runs

  lemma ContractStepKeeps(s: State, c: Command)
    requires Inv(s) && Exec(s, c).Ok?
    requires c.CreateContract? || c.UpdatePeriod? || c.AwardContract? || c.DeleteContract?
    ensures Inv(After(s, c))
  {
    match c
    case CreateContract(_, provider, shipper, from, to) =>
      ContractAdded(s, Contract(provider, shipper, InDraft, from, to));
    case UpdatePeriod(id, from, to) =>
      ContractChanged(s, id, s.contracts[id].(validFrom := from, validTo := to));
    case AwardContract(id) =>
      ContractChanged(s, id, s.contracts[id].(status := Contracted));
    case DeleteContract(id) =>
      ContractChanged(s, id, s.contracts[id].(status := Cancelled));
  }

  lemma TariffStepKeeps(s: State, c: Command)
    requires Inv(s) && Exec(s, c).Ok?
    requires c.RegisterTariff? || c.RegisterFile? || c.AmendTariff? || c.AmendFile? || c.AddVersion? || c.RemoveTariff?
    ensures Inv(After(s, c))
  {
    match c
    case RegisterTariff(_, _, _, _, _) => RegisterKeeps(s, c);
    case RegisterFile(_, _, _, _, _, _, _) => RegisterFileKeeps(s, c);
    case AmendTariff(_, _, _, _, _) => AmendKeeps(s, c);
    case AmendFile(_, contractId, baseId, sheet) => FileVersionKeeps(s, contractId, baseId, sheet);
    case AddVersion(contractId, baseId, sheet) => FileVersionKeeps(s, contractId, baseId, sheet);
    case RemoveTariff(_, _) => RemoveKeeps(s, c);
  }

  ghost predicate IsRateStep(c: Command) {
    c.CreateRate? || c.ApplyContract? || c.ReplaceEntry? || c.ActivateRate?
  }

  lemma RateStepKeeps(s: State, c: Command)
    requires Inv(s) && Exec(s, c).Ok? && IsRateStep(c)
    ensures Inv(After(s, c))
  {
    match c
    case CreateRate(_, _, _, _) => RateChangeKeeps(s, s.nextId, RateState(Draft, []), s.nextId + 1);
    case ApplyContract(_, _, _, _, _) => ApplyKeeps(s, c);
    case ReplaceEntry(_, _, _, _, _) => ReplaceKeeps(s, c);
    case ActivateRate(_) => ActivateKeeps(s, c);
  }

  lemma StepKeepsInvariant(s: State, c: Command)
    requires Inv(s)
    ensures Inv(After(s, c))
  {
    if Exec(s, c).Ok? {
      if IsRateStep(c) {
        RateStepKeeps(s, c);
      } else if c.CreateContract? || c.UpdatePeriod? || c.AwardContract? || c.DeleteContract? {
        ContractStepKeeps(s, c);
      } else {
        TariffStepKeeps(s, c);
      }
    }
  }

  lemma {:induction false} EveryRunKeepsInvariant(s: State, cs: seq<Command>)
    requires Inv(s)
    ensures Inv(Run(s, cs))
  {
    if cs != [] {
      EveryRunKeepsInvariant(s, cs[..|cs| - 1]);
      StepKeepsInvariant(Run(s, cs[..|cs| - 1]), cs[|cs| - 1]);
    }
  }

  /** Every state that any run reaches from empty stores satisfies the invariant. */
  lemma {:induction false} ReachableStatesAreSound(cs: seq<Command>)
    ensures Inv(Run(INITIAL, cs))
  {
    EveryRunKeepsInvariant(INITIAL, cs);
  }

  /**
   In every reachable state, an entry whose tariff exists shows the data of one of its line items,
   and the price of a flat one rounded to four decimals.
   */
  lemma EntriesAreCorrectCaches(cs: seq<Command>, id: Id, e: RateEntry)
    requires id in Run(INITIAL, cs).rates && e in Run(INITIAL, cs).rates[id].entries
    ensures var s := Run(INITIAL, cs);
      e.tariffId in s.tariffs ==>
        exists item :: item in s.tariffs[e.tariffId].items && Projects(e, e.tariffId, item) && ShowsPriceOf(e, item)
  {
    ReachableStatesAreSound(cs);
    assert RateOk(Run(INITIAL, cs), Run(INITIAL, cs).rates[id]);
  }
}
