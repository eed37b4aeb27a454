/** Which use cases succeed, and what ApplyContractToRate adds, said of the input and the stores alone. */
module SourcingAnswers {
  import opened Permutations
  import opened Pricing
  import opened Rates
  import opened RateStore
  import opened Refinement
  import opened Shared
  import opened SourcingInvariants
  import opened SourcingModel

  // ---------------------------------------------------------------- conversion of items

  ghost predicate IsUsable(input: ItemInput) {
    input.Ok? && input.value.chargeCode != ""
  }

  ghost predicate AllUsable(inputs: seq<ItemInput>) {
    forall i :: 0 <= i < |inputs| ==> IsUsable(inputs[i])
  }

  /** The items have the content of the inputs, in order. */
  ghost predicate HasContentOf(items: seq<LineItem>, inputs: seq<ItemInput>) {
    && |items| == |inputs|
    && forall i :: 0 <= i < |items| ==>
      && inputs[i].Ok? && items[i].chargeCode == inputs[i].value.chargeCode
      && items[i].category == inputs[i].value.category && items[i].scope == inputs[i].value.scope
      && items[i].logic == inputs[i].value.logic
  }

  lemma {:induction false} ConversionSucceedsIff(inputs: seq<ItemInput>, firstId: Id)
    ensures ConvertedItems(inputs, firstId).Ok? <==> AllUsable(inputs)
    ensures ConvertedItems(inputs, firstId).Ok? ==> HasContentOf(ConvertedItems(inputs, firstId).value, inputs)
  {
    if inputs != [] {
      ConversionSucceedsIff(inputs[..|inputs| - 1], firstId);
    }
  }

  // ---------------------------------------------------------------- contracts and tariffs

  ghost predicate IsDraft(s: State, contractId: Id) {
    contractId in s.contracts && s.contracts[contractId].status == InDraft
  }

  /** The tariff is stored under the contract. */
  ghost predicate Holds(s: State, contractId: Id, t: Id) {
    t in s.tariffs && s.tariffs[t].contractId == contractId
  }

  lemma ContractStepSucceedsIff(s: State, c: Command)
    requires Inv(s) && (c.CreateContract? || c.UpdatePeriod? || c.AwardContract? || c.DeleteContract?)
    ensures Exec(s, c).Ok? <==>
      match c
      case CreateContract(bid, provider, shipper, from, to) =>
        NIL !in {bid, provider, shipper} && ZERO_TIME !in {from, to} && from <= to
      case UpdatePeriod(id, from, to) => IsDraft(s, id) && from <= to
      case AwardContract(id) => IsDraft(s, id) && exists t :: Holds(s, id, t)
      case DeleteContract(id) => IsDraft(s, id)
  {
    if c.AwardContract? {
      if t :| Holds(s, c.contractId, t) {
        assert HasTariff(s, c.contractId);
      }
      if HasTariff(s, c.contractId) {
        var t :| t in s.tariffs && s.tariffs[t].contractId == c.contractId;
        assert Holds(s, c.contractId, t);
      }
    }
  }

  /** Tariffs are registered in draft contracts and amended in contracted ones, if all inputs are usable. */
  lemma DirectStepSucceedsIff(s: State, c: Command)
    requires Inv(s) && (c.RegisterTariff? || c.AmendTariff? || c.RemoveTariff?)
    ensures Exec(s, c).Ok? <==>
      match c
      case RegisterTariff(id, name, from, to, items) =>
        IsDraft(s, id) && name != "" && from <= to && items != [] && AllUsable(items)
      case AmendTariff(id, base, from, to, items) =>
        IsContracted(s, id) && Holds(s, id, base) && from <= to && items != [] && AllUsable(items)
      case RemoveTariff(id, t) => IsDraft(s, id) && Holds(s, id, t)
  {
    match c
    case RegisterTariff(_, _, _, _, items) => ConversionSucceedsIff(items, s.nextId + 1);
    case AmendTariff(_, base, _, _, items) =>
      ConversionSucceedsIff(items, s.nextId + 1);
      if base in s.tariffs {
        assert TariffOk(s, base);
      }
    case RemoveTariff(_, _) =>
  }

  /** A file is registered for a draft contract, or for a new one. */
  ghost predicate HasFileContract(s: State, target: Option<Id>, period: Option<(int, int)>) {
    match target
    case Some(id) => IsDraft(s, id)
    case None => period.Some? && period.value.0 <= period.value.1
  }

  ghost predicate HasUsableSheet(sheet: Option<Sheet<ItemInput>>) {
    sheet.Some? && sheet.value.name != "" && sheet.value.from <= sheet.value.to && AllUsable(sheet.value.items)
  }

  ghost predicate HasEmptySheet(sheet: Option<Sheet<ItemInput>>) {
    sheet.Some? && sheet.value.from <= sheet.value.to && sheet.value.items == []
  }

  lemma RegisterFileSucceedsIff(s: State, c: Command)
    requires Inv(s) && c.RegisterFile?
    ensures Exec(s, c).Ok? <==>
      && c.fileGiven && NIL !in {c.providerId, c.shipperId} && c.accepted
      && HasFileContract(s, c.target, c.period) && HasUsableSheet(c.sheet)
  {
    if FileContract(s, c).Ok? && c.sheet.Some? {
      ConversionSucceedsIff(c.sheet.value.items, FileContract(s, c).value.0.nextId + 1);
    }
  }

  lemma FileVersionSucceedsIff(s: State, c: Command)
    requires Inv(s) && (c.AmendFile? || c.AddVersion?)
    ensures Exec(s, c).Ok? <==>
      && Holds(s, c.contractId, c.baseId) && HasEmptySheet(c.sheet)
      && if c.AmendFile? then c.fileGiven && IsContracted(s, c.contractId) else IsDraft(s, c.contractId)
  {
    if c.baseId in s.tariffs {
      assert TariffOk(s, c.baseId);
    }
  }

  // ---------------------------------------------------------------- rates

  lemma RateStepSucceedsIff(s: State, c: Command)
    requires Inv(s) && (c.CreateRate? || c.ActivateRate?)
    ensures Exec(s, c).Ok? <==>
      match c
      case CreateRate(shipper, name, from, to) => shipper != NIL && name != "" && from <= to
      case ActivateRate(id) => id in s.rates && s.rates[id].status == Draft && s.rates[id].entries != []
  {
  }

  /** A replace succeeds on an entry of a draft rate, with a line item of a tariff of the named contract. */
  lemma ReplaceSucceedsIff(s: State, c: Command)
    requires Inv(s) && c.ReplaceEntry?
    ensures Exec(s, c).Ok? <==>
      && c.rateId in s.rates && s.rates[c.rateId].status == Draft
      && (exists e :: e in s.rates[c.rateId].entries && e.id == c.entryId)
      && Holds(s, c.contractId, c.tariffId)
      && exists item :: item in s.tariffs[c.tariffId].items && item.id == c.lineItemId
  {
    if c.rateId in s.rates {
      assert RateOk(s, s.rates[c.rateId]);
    }
    if Holds(s, c.contractId, c.tariffId) {
      assert TariffOk(s, c.tariffId);
    }
  }

  /** It changes that one entry, which now shows the named line item and keeps its contract and provider. */
  lemma ReplaceChangesOneEntry(s: State, c: Command) returns (i: nat)
    requires Inv(s) && c.ReplaceEntry? && Exec(s, c).Ok?
    ensures var was, now := s.rates[c.rateId].entries, After(s, c).rates[c.rateId].entries;
      && |now| == |was| && i < |was| && was[i].id == now[i].id == c.entryId
      && (forall j :: 0 <= j < |was| && j != i ==> now[j] == was[j])
      && now[i].tariffId == c.tariffId && now[i].lineItemId == c.lineItemId
      && now[i].contractId == was[i].contractId && now[i].providerId == was[i].providerId
    ensures After(s, c).contracts == s.contracts && After(s, c).tariffs == s.tariffs
    ensures forall r :: r in s.rates && r != c.rateId ==> After(s, c).rates[r] == s.rates[r]
  {
    var e: RateEntry;
    i, e := ReplacePuts(s, c);
  }

  // ---------------------------------------------------------------- what is applied to a rate

  /** The tariffs an apply is about: the named ones, or else all of the contract. */
  ghost predicate IsTarget(s: State, c: Command, t: Id)
    requires c.ApplyContract?
  {
    if c.tariffIds != [] then t in c.tariffIds else Holds(s, c.contractId, t)
  }

  ghost predicate Passes(c: Command, itemId: Id)
    requires c.ApplyContract?
  {
    c.itemFilter == [] || itemId in c.itemFilter
  }

  lemma {:induction false} NamedAre(s: State, contractId: Id, ids: seq<Id>)
    ensures NamedTariffs(s, contractId, ids).Ok? <==> forall i :: 0 <= i < |ids| ==> Holds(s, contractId, ids[i])
    ensures NamedTariffs(s, contractId, ids).Ok? ==>
      var ts := NamedTariffs(s, contractId, ids).value;
      |ts| == |ids| && forall i :: 0 <= i < |ids| ==> ids[i] in s.tariffs && ts[i] == s.tariffs[ids[i]]
  {
    if ids != [] {
      NamedAre(s, contractId, ids[..|ids| - 1]);
    }
  }

  ghost predicate IsIn(filter: set<Id>, id: Id) {
    filter == {} || id in filter
  }

  lemma {:induction false} SelectedItemsPass(t: Tariff, n: nat, filter: set<Id>)
    requires n <= |t.items|
    ensures forall r :: r in SelectedItems(t, n, filter) ==> r.tariffId == t.id && IsIn(filter, r.lineItemId)
    ensures forall r :: r in SelectedItems(t, n, filter) ==> exists k :: 0 <= k < n && t.items[k].id == r.lineItemId
  {
    if n > 0 {
      SelectedItemsPass(t, n - 1, filter);
      assert t.items[n - 1].id == RateableOf(t.id, t.items[n - 1]).lineItemId;
    }
  }

  lemma {:induction false} PassingItemsAreSelected(t: Tariff, n: nat, filter: set<Id>, k: nat)
    requires k < n <= |t.items| && IsIn(filter, t.items[k].id)
    ensures RateableOf(t.id, t.items[k]) in SelectedItems(t, n, filter)
  {
    if k < n - 1 {
      PassingItemsAreSelected(t, n - 1, filter, k);
    }
  }

  lemma {:induction false} SelectedPass(ts: seq<Tariff>, filter: set<Id>)
    ensures forall r :: r in Selected(ts, filter) ==> IsIn(filter, r.lineItemId)
    ensures forall r :: r in Selected(ts, filter) ==> exists t :: t in ts && t.id == r.tariffId
  {
    if ts != [] {
      var n := |ts| - 1;
      SelectedPass(ts[..n], filter);
      SelectedItemsPass(ts[n], |ts[n].items|, filter);
      assert ts == ts[..n] + [ts[n]];
    }
  }

  lemma {:induction false} PassingAreSelected(ts: seq<Tariff>, filter: set<Id>, i: nat, k: nat)
    requires i < |ts| && k < |ts[i].items| && IsIn(filter, ts[i].items[k].id)
    ensures RateableOf(ts[i].id, ts[i].items[k]) in Selected(ts, filter)
  {
    var n := |ts| - 1;
    if i < n {
      PassingAreSelected(ts[..n], filter, i, k);
    } else {
      PassingItemsAreSelected(ts[n], |ts[n].items|, filter, k);
    }
  }

  // ---------------------------------------------------------------- no item twice

  ghost predicate NoneTwice(items: seq<RateableLineItem>) {
    forall i, j :: 0 <= i < j < |items| ==>
      items[i].tariffId != items[j].tariffId || items[i].lineItemId != items[j].lineItemId
  }

  lemma NoneTwiceJoin(a: seq<RateableLineItem>, b: seq<RateableLineItem>)
    requires NoneTwice(a) && NoneTwice(b)
    requires forall x, y :: x in a && y in b ==> x.tariffId != y.tariffId || x.lineItemId != y.lineItemId
    ensures NoneTwice(a + b)
  {
  }

  lemma {:induction false} SelectedItemsOnce(t: Tariff, n: nat, filter: set<Id>)
    requires n <= |t.items| && DistinctItems(t.items)
    ensures NoneTwice(SelectedItems(t, n, filter))
  {
    if n > 0 {
      SelectedItemsOnce(t, n - 1, filter);
      SelectedItemsPass(t, n - 1, filter);
      NoneTwiceJoin(SelectedItems(t, n - 1, filter), [RateableOf(t.id, t.items[n - 1])]);
    }
  }

  lemma {:induction false} SelectedOnce(ts: seq<Tariff>, filter: set<Id>)
    requires forall i :: 0 <= i < |ts| ==> DistinctItems(ts[i].items)
    requires forall i, j :: 0 <= i < j < |ts| ==> ts[i].id != ts[j].id
    ensures NoneTwice(Selected(ts, filter))
  {
    if ts != [] {
      var n := |ts| - 1;
      SelectedOnce(ts[..n], filter);
      SelectedItemsOnce(ts[n], |ts[n].items|, filter);
      SelectedPass(ts[..n], filter);
      SelectedItemsPass(ts[n], |ts[n].items|, filter);
      NoneTwiceJoin(Selected(ts[..n], filter), SelectedItems(ts[n], |ts[n].items|, filter));
    }
  }

  // ---------------------------------------------------------------- the entries added

  /** The entries that the rate has after the step and did not have before. */
  ghost function Added(s: State, c: Command): seq<RateEntry>
    requires Inv(s) && c.ApplyContract? && Exec(s, c).Ok?
  {
    ApplyAdds(s, c);
    After(s, c).rates[c.rateId].entries[|s.rates[c.rateId].entries|..]
  }

  ghost predicate Names(e: RateEntry, t: Id, itemId: Id) {
    e.tariffId == t && e.lineItemId == itemId
  }

  ghost function TargetIds(c: Command): seq<Id>
    requires c.ApplyContract?
  {
    if c.tariffIds != [] then c.tariffIds else c.listing
  }

  /** What the selected items become: one entry for each, in order. */
  lemma AddedAre(s: State, c: Command)
    requires Inv(s) && c.ApplyContract? && Exec(s, c).Ok?
    ensures var items := Selected(TargetTariffs(s, c).value, IdSet(c.itemFilter));
      && |Added(s, c)| == |items|
      && forall i :: 0 <= i < |items| ==>
           Names(Added(s, c)[i], items[i].tariffId, items[i].lineItemId) && Added(s, c)[i].contractId == c.contractId
    ensures After(s, c).rates[c.rateId].entries == s.rates[c.rateId].entries + Added(s, c)
  {
    ApplyAdds(s, c);
    var was := s.rates[c.rateId].entries;
    assert (was + AddedEntries(s, c))[|was|..] == AddedEntries(s, c);
  }

  lemma TargetsAre(s: State, c: Command)
    requires Inv(s) && c.ApplyContract? && TargetTariffs(s, c).Ok?
    ensures var ts, ids := TargetTariffs(s, c).value, TargetIds(c);
      && |ts| == |ids|
      && forall i :: 0 <= i < |ids| ==>
           Holds(s, c.contractId, ids[i]) && ts[i] == s.tariffs[ids[i]] && ts[i].id == ids[i]
    ensures forall t :: IsTarget(s, c, t) <==> t in TargetIds(c)
  {
    NamedAre(s, c.contractId, TargetIds(c));
    forall i | 0 <= i < |TargetIds(c)|
      ensures s.tariffs[TargetIds(c)[i]].id == TargetIds(c)[i]
    {
      assert Holds(s, c.contractId, TargetIds(c)[i]) && TariffOk(s, TargetIds(c)[i]);
    }
  }

  lemma {:induction false} AddedOrigin(s: State, c: Command, e: RateEntry) returns (r: RateableLineItem)
    requires Inv(s) && c.ApplyContract? && Exec(s, c).Ok? && e in Added(s, c)
    ensures r in Selected(TargetTariffs(s, c).value, IdSet(c.itemFilter))
    ensures Names(e, r.tariffId, r.lineItemId) && e.contractId == c.contractId
  {
    var items := Selected(TargetTariffs(s, c).value, IdSet(c.itemFilter));
    AddedAre(s, c);
    var i :| 0 <= i < |Added(s, c)| && Added(s, c)[i] == e;
    r := items[i];
  }

  lemma {:induction false} SelectedOrigin(s: State, c: Command, r: RateableLineItem)
    requires Inv(s) && c.ApplyContract? && TargetTariffs(s, c).Ok?
    requires r in Selected(TargetTariffs(s, c).value, IdSet(c.itemFilter))
    ensures IsTarget(s, c, r.tariffId) && Holds(s, c.contractId, r.tariffId) && IsIn(IdSet(c.itemFilter), r.lineItemId)
    ensures exists item :: item in s.tariffs[r.tariffId].items && item.id == r.lineItemId
  {
    var ts, filter := TargetTariffs(s, c).value, IdSet(c.itemFilter);
    TargetsAre(s, c);
    TargetsDescribe(s, c);
    SelectedPass(ts, filter);
    var t :| t in ts && t.id == r.tariffId;
    var j :| 0 <= j < |ts| && ts[j] == t;
    assert TargetIds(c)[j] in TargetIds(c);
    assert Describes(s, c.contractId, r);
  }

  /** Every added entry is of a target tariff and of one of its items, which passes the filter. */
  lemma {:induction false} AddedEntriesPass(s: State, c: Command, e: RateEntry)
    requires Inv(s) && c.ApplyContract? && Exec(s, c).Ok? && e in Added(s, c)
    ensures IsTarget(s, c, e.tariffId) && Holds(s, c.contractId, e.tariffId) && e.contractId == c.contractId
    ensures exists item :: item in s.tariffs[e.tariffId].items && item.id == e.lineItemId
    ensures c.itemFilter != [] ==> e.lineItemId in c.itemFilter
  {
    var r := AddedOrigin(s, c, e);
    SelectedOrigin(s, c, r);
    assert c.itemFilter != [] ==> c.itemFilter[0] in IdSet(c.itemFilter);
  }

  lemma {:induction false} SelectedIsAdded(s: State, c: Command, r: RateableLineItem)
    requires Inv(s) && c.ApplyContract? && Exec(s, c).Ok?
    requires r in Selected(TargetTariffs(s, c).value, IdSet(c.itemFilter))
    ensures exists e :: e in Added(s, c) && Names(e, r.tariffId, r.lineItemId)
  {
    var items := Selected(TargetTariffs(s, c).value, IdSet(c.itemFilter));
    AddedAre(s, c);
    var n :| 0 <= n < |items| && items[n] == r;
    assert Added(s, c)[n] in Added(s, c);
  }

  lemma {:induction false} PassingIsSelected(s: State, c: Command, t: Id, item: LineItem)
    requires Inv(s) && c.ApplyContract? && TargetTariffs(s, c).Ok?
    requires IsTarget(s, c, t) && t in s.tariffs && item in s.tariffs[t].items && Passes(c, item.id)
    ensures RateableOf(t, item) in Selected(TargetTariffs(s, c).value, IdSet(c.itemFilter))
  {
    var ts := TargetTariffs(s, c).value;
    TargetsAre(s, c);
    var i :| 0 <= i < |TargetIds(c)| && TargetIds(c)[i] == t;
    var k :| 0 <= k < |ts[i].items| && ts[i].items[k] == item;
    PassingAreSelected(ts, IdSet(c.itemFilter), i, k);
  }

  /** Every item of a target tariff that passes the filter is added. */
  lemma {:induction false} PassingItemsAreAdded(s: State, c: Command, t: Id, item: LineItem)
    requires Inv(s) && c.ApplyContract? && Exec(s, c).Ok?
    requires IsTarget(s, c, t) && t in s.tariffs && item in s.tariffs[t].items && Passes(c, item.id)
    ensures exists e :: e in Added(s, c) && Names(e, t, item.id)
  {
    PassingIsSelected(s, c, t, item);
    SelectedIsAdded(s, c, RateableOf(t, item));
  }

  /** If the target tariffs are distinct, which a listing of the contract's tariffs is, no item is added twice. */
  lemma {:induction false} NoItemIsAddedTwice(s: State, c: Command)
    requires Inv(s) && c.ApplyContract? && Exec(s, c).Ok? && Distinct(c.tariffIds)
    ensures forall i, j :: 0 <= i < j < |Added(s, c)| ==>
      !Names(Added(s, c)[j], Added(s, c)[i].tariffId, Added(s, c)[i].lineItemId)
  {
    var ts := TargetTariffs(s, c).value;
    AddedAre(s, c);
    TargetsAre(s, c);
    forall i | 0 <= i < |ts|
      ensures DistinctItems(ts[i].items)
    {
      assert TariffOk(s, TargetIds(c)[i]);
    }
    SelectedOnce(ts, IdSet(c.itemFilter));
  }

  /** Nothing is applied to other rates, and nothing else in the stores changes. */
  lemma ApplyTouchesOneRate(s: State, c: Command)
    requires Inv(s) && c.ApplyContract? && Exec(s, c).Ok?
    ensures After(s, c).contracts == s.contracts && After(s, c).tariffs == s.tariffs
    ensures After(s, c).rates.Keys == s.rates.Keys
    ensures forall r :: r in s.rates && r != c.rateId ==> After(s, c).rates[r] == s.rates[r]
    ensures After(s, c).rates[c.rateId].status == s.rates[c.rateId].status
  {
    ApplyAdds(s, c);
  }

  // ---------------------------------------------------------------- when an apply succeeds

  ghost predicate NothingPasses(s: State, c: Command)
    requires c.ApplyContract?
  {
    forall t, item :: IsTarget(s, c, t) && t in s.tariffs && item in s.tariffs[t].items ==> !Passes(c, item.id)
  }

  /** The named tariffs are all the contract's, or the repository lists those of the contract. */
  ghost predicate HasTargets(s: State, c: Command)
    requires c.ApplyContract?
  {
    if c.tariffIds != [] then forall i :: 0 <= i < |c.tariffIds| ==> Holds(s, c.contractId, c.tariffIds[i])
    else IsListing(s, c.contractId, c.listing)
  }

  lemma HasTargetsIff(s: State, c: Command)
    requires Inv(s) && c.ApplyContract? && IsContracted(s, c.contractId)
    ensures TargetTariffs(s, c).Ok? <==> HasTargets(s, c)
  {
    NamedAre(s, c.contractId, TargetIds(c));
    assert HasTariff(s, c.contractId);
    var t :| t in s.tariffs && s.tariffs[t].contractId == c.contractId;
    if c.tariffIds == [] && IsListing(s, c.contractId, c.listing) {
      assert t in c.listing;
      assert forall i :: 0 <= i < |c.listing| ==> c.listing[i] in c.listing;
    }
  }

  lemma {:induction false} AddedAllSucceedsIff(r: RateState, es: seq<RateEntry>)
    requires forall e :: e in es ==> EntryError(e).None?
    ensures AddedAll(r, es).Ok? <==> es == [] || r.status == Draft
    ensures es != [] && r.status != Draft ==> AddedAll(r, es) == Err(RateError.RateNotDraft)
  {
    if es != [] {
      AddedAllSucceedsIff(r, es[..|es| - 1]);
      assert es[|es| - 1] in es;
      if AddedAll(r, es[..|es| - 1]).Ok? {
        AddedAllAppends(r, es[..|es| - 1]);
      }
    }
  }

  lemma DescribedIsAccepted(s: State, contractId: Id, r: RateableLineItem, id: Id, providerId: Id)
    requires Inv(s) && Describes(s, contractId, r)
    ensures EntryError(EntryFrom(r, id, contractId, providerId)).None?
  {
    assert TariffOk(s, r.tariffId);
  }

  lemma NothingSelectedIff(s: State, c: Command)
    requires Inv(s) && c.ApplyContract? && TargetTariffs(s, c).Ok?
    ensures Selected(TargetTariffs(s, c).value, IdSet(c.itemFilter)) == [] <==> NothingPasses(s, c)
  {
    var ts, filter := TargetTariffs(s, c).value, IdSet(c.itemFilter);
    var items := Selected(ts, filter);
    TargetsAre(s, c);
    assert forall id :: IsIn(filter, id) <==> Passes(c, id) by {
      assert c.itemFilter != [] ==> c.itemFilter[0] in filter;
    }
    if items != [] {
      TargetsDescribe(s, c);
      SelectedPass(ts, filter);
      assert items[0] in items && Describes(s, c.contractId, items[0]);
      var t :| t in ts && t.id == items[0].tariffId;
    }
    if !NothingPasses(s, c) {
      var t, item :| IsTarget(s, c, t) && t in s.tariffs && item in s.tariffs[t].items && Passes(c, item.id);
      PassingIsSelected(s, c, t, item);
    }
  }

  /** Once the tariffs are found, only the rate can be in the way. */
  lemma AppliedErrors(s: State, c: Command)
    requires Inv(s) && c.ApplyContract? && NIL !in {c.rateId, c.contractId}
    requires c.rateId in s.rates && IsContracted(s, c.contractId) && TargetTariffs(s, c).Ok?
    ensures Exec(s, c).Ok? <==>
      s.rates[c.rateId].status == Draft || Selected(TargetTariffs(s, c).value, IdSet(c.itemFilter)) == []
    ensures Exec(s, c).Err? ==> Exec(s, c) == Err(AddEntryError(RateError.RateNotDraft))
  {
    var items := Selected(TargetTariffs(s, c).value, IdSet(c.itemFilter));
    var es := EntriesFrom(items, s.nextId, c.contractId, s.contracts[c.contractId].providerId);
    TargetsDescribe(s, c);
    forall e | e in es
      ensures EntryError(e).None?
    {
      var i :| 0 <= i < |es| && es[i] == e;
      assert items[i] in items;
      DescribedIsAccepted(s, c.contractId, items[i], s.nextId + i, s.contracts[c.contractId].providerId);
    }
    AddedAllSucceedsIff(s.rates[c.rateId], es);
  }

  /** An apply succeeds on a contracted contract and a draft rate, or on any rate if no item passes the filter. */
  lemma {:induction false} ApplySucceedsIff(s: State, c: Command)
    requires Inv(s) && c.ApplyContract?
    ensures Exec(s, c).Ok? <==>
      && c.rateId in s.rates && IsContracted(s, c.contractId) && HasTargets(s, c)
      && (s.rates[c.rateId].status == Draft || NothingPasses(s, c))
  {
    if c.rateId in s.rates && IsContracted(s, c.contractId) {
      HasTargetsIff(s, c);
      if TargetTariffs(s, c).Ok? {
        NothingSelectedIff(s, c);
        AppliedErrors(s, c);
      }
    }
  }
}
