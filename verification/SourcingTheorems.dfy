/** Consequences for version chains, active rates and simulations, and runs that show what can go wrong. */
module SourcingTheorems {
  import opened Permutations
  import opened Pricing
  import opened Rates
  import opened RateStore
  import opened Refinement
  import opened Shared
  import opened Simulation
  import SimulationTheorems
  import opened SourcingInvariants
  import opened SourcingLoads
  import opened SourcingModel
  import opened SourcingSafety
  import StrategyBuilder

  // ---------------------------------------------------------------- version chains

  /** The tariff reached by following base links `hops` times. */
  ghost function Ancestor(s: State, id: Id, hops: nat): (r: Option<Id>)
    ensures r.Some? ==> r.value in s.tariffs
    decreases hops
  {
    if id !in s.tariffs then None
    else if hops == 0 then Some(id)
    else if s.tariffs[id].base.None? then None
    else Ancestor(s, s.tariffs[id].base.value, hops - 1)
  }

  /** Every hop but the last lands on an existing, one version older tariff of the same contract and name. */
  lemma {:induction false} AncestorIsOlderVersion(s: State, id: Id, hops: nat)
    requires ChainsOk(s) && id in s.tariffs && hops < s.tariffs[id].version
    ensures Ancestor(s, id, hops).Some?
    ensures var t, a := s.tariffs[id], s.tariffs[Ancestor(s, id, hops).value];
      a.version == t.version - hops && a.contractId == t.contractId && a.name == t.name
    decreases hops
  {
    assert ChainOk(s, id);
    if hops > 0 {
      AncestorIsOlderVersion(s, s.tariffs[id].base.value, hops - 1);
    }
  }

  /** The chain of a version-v tariff ends at a version 1 after exactly v-1 hops, and nowhere else. */
  lemma ChainEndsAtFirstVersion(s: State, id: Id, hops: nat)
    requires ChainsOk(s) && id in s.tariffs
    ensures s.tariffs[id].version >= 1
    ensures Ancestor(s, id, hops).Some? <==> hops < s.tariffs[id].version
    ensures Ancestor(s, id, hops).Some? ==>
      (s.tariffs[Ancestor(s, id, hops).value].version == 1 <==> hops == s.tariffs[id].version - 1)
  {
    assert ChainOk(s, id);
    if hops < s.tariffs[id].version {
      AncestorIsOlderVersion(s, id, hops);
      assert ChainOk(s, Ancestor(s, id, hops).value);
    } else {
      ChainIsFinite(s, id, hops);
    }
  }

  lemma {:induction false} ChainIsFinite(s: State, id: Id, hops: nat)
    requires ChainsOk(s) && id in s.tariffs && hops >= s.tariffs[id].version
    ensures Ancestor(s, id, hops).None?
    decreases hops
  {
    assert ChainOk(s, id);
    if s.tariffs[id].base.Some? {
      ChainIsFinite(s, s.tariffs[id].base.value, hops - 1);
    }
  }

  // ---------------------------------------------------------------- active rates

  lemma ActiveRateIsUntouched(s: State, c: Command, id: Id)
    requires Inv(s) && id in s.rates && s.rates[id].status == Active
    ensures id in After(s, c).rates && After(s, c).rates[id] == s.rates[id]
  {
    if c.ApplyContract? && Exec(s, c).Ok? {
      ApplyAdds(s, c);
      assert c.rateId == id ==> s.rates[id].entries + AddedEntries(s, c) == s.rates[id].entries;
    }
  }

  lemma ActiveHasEntries(cs: seq<Command>, id: Id)
    requires id in Run(INITIAL, cs).rates && Run(INITIAL, cs).rates[id].status == Active
    ensures Run(INITIAL, cs).rates[id].entries != []
  {
    ReachableStatesAreSound(cs);
    assert RateOk(Run(INITIAL, cs), Run(INITIAL, cs).rates[id]);
  }

  lemma RunMore(s: State, cs: seq<Command>, c: Command)
    ensures Run(s, cs + [c]) == After(Run(s, cs), c)
  {
    assert (cs + [c])[..|cs|] == cs;
  }

  /** In every run whatsoever, a rate that is active has entries and never changes again. */
  lemma {:induction false} ActiveRatesAreFrozen(cs: seq<Command>, more: seq<Command>, id: Id)
    requires id in Run(INITIAL, cs).rates && Run(INITIAL, cs).rates[id].status == Active
    ensures Run(INITIAL, cs).rates[id].entries != []
    ensures id in Run(INITIAL, cs + more).rates && Run(INITIAL, cs + more).rates[id] == Run(INITIAL, cs).rates[id]
    decreases |more|
  {
    ActiveHasEntries(cs, id);
    if more == [] {
      assert cs + more == cs;
    } else {
      var front, last := more[..|more| - 1], more[|more| - 1];
      ActiveRatesAreFrozen(cs, front, id);
      ReachableStatesAreSound(cs + front);
      ActiveRateIsUntouched(Run(INITIAL, cs + front), last, id);
      RunMore(INITIAL, cs + front, last);
      assert cs + more == cs + front + [last];
    }
  }

  // ---------------------------------------------------------------- simulating a stored rate

  /** Negative weight or volume, or an applicable line item of the entry's tariff without a price. */
  ghost predicate NegativeOrUnpriced(s: State, e: RateEntry, job: Job, eng: Engine)
    requires e.tariffId in s.tariffs
  {
    job.weight < 0.0 || job.volume < 0.0 || AnyFails(s.tariffs[e.tariffId].items, ContextOf(job), eng)
  }

  ghost predicate LacksPrice(s: State, e: RateEntry, job: Job, eng: Engine) {
    e.tariffId !in s.tariffs || NegativeOrUnpriced(s, e, job, eng)
  }

  /** In a sound state, an entry has no price exactly when its tariff is gone or cannot be priced. */
  lemma WhyNoPrice(s: State, id: Id, e: RateEntry, job: Job, eng: Engine)
    requires Inv(s) && id in s.rates && e in s.rates[id].entries && job.tariffs == s.tariffs && job.quantity > 0.0
    ensures PriceOf(job, e, eng) == Err(MissingTariff) <==> e.tariffId !in s.tariffs
    ensures PriceOf(job, e, eng) == Err(InvalidCargo) <==>
      e.tariffId in s.tariffs && (job.weight < 0.0 || job.volume < 0.0)
    ensures PriceOf(job, e, eng) != Err(MissingLineItem)
    ensures PriceOf(job, e, eng).Err? <==> LacksPrice(s, e, job, eng)
  {
    assert RateOk(s, s.rates[id]) && EntryOk(s, e);
    if e.tariffId in s.tariffs {
      assert TariffOk(s, e.tariffId);
      PriceOfProjection(e, job, eng);
    }
  }

  /**
   In every sound state, a simulation fails exactly when an entry that matches a segment has lost
   its tariff, or the cargo is negative, or an applicable line item has no price.
   */
  lemma {:induction false} WhySimulationFails(
    s: State, id: Id, job: Job, eng: Engine, price: Pricer, r: Result<RouteResult, SimulationError>)
    requires Inv(s) && id in s.rates && job.tariffs == s.tariffs && job.quantity > 0.0
    requires Prices(price, job, eng) && IsSimulationOf(r, s.rates[id].entries, job.route, price)
    ensures r.Err? <==>
      exists e :: e in s.rates[id].entries && MatchesSome(e, job.route) && LacksPrice(s, e, job, eng)
  {
    var entries := s.rates[id].entries;
    assert RateOk(s, s.rates[id]);
    VisitedMembers(entries, job.route);
    SimulationTheorems.PricerPrices(entries, job, eng, price);
    forall e | e in entries
      ensures price(e).Err? <==> LacksPrice(s, e, job, eng)
    {
      WhyNoPrice(s, id, e, job, eng);
    }
  }

  /**
   If no entry of the rate can lose its tariff, a simulation fails only because the cargo is negative or
   because an applicable line item has no price, never because a tariff or line item is missing.
   */
  lemma {:induction false} SimulationNeverDangles(
    s: State, id: Id, job: Job, eng: Engine, price: Pricer, r: Result<RouteResult, SimulationError>)
    requires Inv(s) && id in s.rates && forall e :: e in s.rates[id].entries ==> Safe(s, e)
    requires job.tariffs == s.tariffs && job.quantity > 0.0
    requires Prices(price, job, eng) && IsSimulationOf(r, s.rates[id].entries, job.route, price)
    ensures AreProjections(s.rates[id].entries, s.tariffs) && DistinctEntries(s.rates[id].entries)
    ensures forall e :: e in s.rates[id].entries && price(e).Err? ==>
      price(e).error in {InvalidCargo, CalculationFailed}
    ensures forall e :: e in s.rates[id].entries ==> e.tariffId in s.tariffs
    ensures r.Err? <==>
      exists e :: e in s.rates[id].entries && MatchesSome(e, job.route) && NegativeOrUnpriced(s, e, job, eng)
  {
    var entries := s.rates[id].entries;
    WhySimulationFails(s, id, job, eng, price, r);
    SimulationTheorems.PricerPrices(entries, job, eng, price);
    assert RateOk(s, s.rates[id]);
    forall e | e in entries
      ensures e.tariffId in s.tariffs && IsProjection(e, s.tariffs)
      ensures price(e).Err? ==> price(e).error in {InvalidCargo, CalculationFailed}
    {
      assert Safe(s, e) && EntryOk(s, e) && TariffOk(s, e.tariffId);
      WhyNoPrice(s, id, e, job, eng);
    }
  }

  lemma SafeInAnyOrder(s: State, t: State)
    requires Alike(s, t) && AllSafe(s)
    ensures AllSafe(t)
  {
    forall r, e | r in t.rates && e in t.rates[r].entries
      ensures Safe(t, e)
    {
      SameMembers(s.rates[r].entries, t.rates[r].entries);
      assert Safe(s, e);
    }
  }

  /**
   Over whole runs from empty stores, with loads that reorder entries anywhere: if no replace names
   a draft contract, no simulation of any rate ever fails because a tariff or line item is missing.
   */
  lemma {:induction false} SimulationsNeverDangleOverRuns(
    ts: seq<State>, cs: seq<Command>, id: Id, job: Job, eng: Engine, price: Pricer,
    r: Result<RouteResult, SimulationError>)
    requires IsLoadedRun(ts, cs) && ReplacesNameNoDraft(INITIAL, cs) && id in ts[|cs|].rates
    requires job.tariffs == ts[|cs|].tariffs && job.quantity > 0.0
    requires Prices(price, job, eng) && IsSimulationOf(r, ts[|cs|].rates[id].entries, job.route, price)
    ensures var s, entries := ts[|cs|], ts[|cs|].rates[id].entries;
      && AreProjections(entries, s.tariffs) && DistinctEntries(entries)
      && (forall e :: e in entries && price(e).Err? ==> price(e).error in {InvalidCargo, CalculationFailed})
      && (forall e :: e in entries ==> e.tariffId in s.tariffs)
      && (r.Err? <==> exists e :: e in entries && MatchesSome(e, job.route) && NegativeOrUnpriced(s, e, job, eng))
  {
    var s := ts[|cs|];
    SafetyOverRuns(INITIAL, cs);
    RunsIgnoreOrder(ts, cs);
    SafeInAnyOrder(Run(INITIAL, cs), s);
    assert forall e :: e in s.rates[id].entries ==> Safe(s, e);
    SimulationNeverDangles(s, id, job, eng, price, r);
  }

  lemma ItemShowsItsPrice(s: State, id: Id, e: RateEntry)
    requires Inv(s) && id in s.rates && e in s.rates[id].entries && IsProjection(e, s.tariffs)
    ensures ShowsPriceOf(e, ItemOf(e, s.tariffs))
  {
    assert RateOk(s, s.rates[id]) && EntryOk(s, e);
    var items := s.tariffs[e.tariffId].items;
    var item :| item in items && Projects(e, e.tariffId, item) && ShowsPriceOf(e, item);
    var i :| 0 <= i < |items| && items[i] == item;
    var j :| 0 <= j < |items| && items[j] == ItemOf(e, s.tariffs);
  }

  /**
   In such a run, a flat item that applies to the route is charged what its entry shows times the
   quantity exactly when the item's price has four decimals.
   */
  lemma {:induction false} ShownPriceIsChargedOverRuns(
    ts: seq<State>, cs: seq<Command>, id: Id, e: RateEntry, job: Job, eng: Engine, price: Pricer, res: RouteResult)
    requires IsLoadedRun(ts, cs) && ReplacesNameNoDraft(INITIAL, cs) && id in ts[|cs|].rates
    requires job.tariffs == ts[|cs|].tariffs && job.quantity > 0.0
    requires Prices(price, job, eng) && IsSimulationOf(Ok(res), ts[|cs|].rates[id].entries, job.route, price)
    requires e in ts[|cs|].rates[id].entries
    ensures IsProjection(e, job.tariffs)
    ensures var item := ItemOf(e, job.tariffs);
      item.logic.Flat? && item.scope.IsApplicable(job.route) ==>
        (SimulationTheorems.ShownCharge(e, job) in res.applied <==> HasFourDecimals(item.logic.amount.amount))
  {
    var s := ts[|cs|];
    SimulationsNeverDangleOverRuns(ts, cs, id, job, eng, price, Ok(res));
    RunsIgnoreOrder(ts, cs);
    ItemShowsItsPrice(s, id, e);
    if ItemOf(e, job.tariffs).logic.Flat? && ItemOf(e, job.tariffs).scope.IsApplicable(job.route) {
      SimulationTheorems.ShownPriceIsChargedIff(res, e, s.rates[id].entries, job, eng, price);
    }
  }

  // ---------------------------------------------------------------- replacing across contracts

  const PORT: LocationId := seq(16, _ => 0)
  const FREIGHT := StrategyBuilder.DraftItem(
    "OFT", "FREIGHT", LocationService(PORT, "HANDLING"), Flat(Money(1.0, "USD")))

  /** A contract with one registered tariff; `n` is the next unused ID. */
  lemma DraftContractWithTariff(s: State, n: Id)
    requires s.nextId == n && n > NIL
    ensures var s' := After(After(s, CreateContract(9, 9, 9, 1, 2)), RegisterTariff(n, "T", 1, 2, [Ok(FREIGHT)]));
      s' == s.(
        contracts := s.contracts[n := Contract(9, 9, InDraft, 1, 2)],
        tariffs := s.tariffs[n + 1 := Tariff(n + 1, n, "T", 1, None, 1, 2, [FREIGHT.WithId(n + 2)])],
        nextId := n + 3)
  {
    var inputs: seq<ItemInput> := [Ok(FREIGHT)];
    assert inputs[..0] == [];
    assert ConvertedItems([], n + 2) == Ok([]);
    var none: seq<LineItem> := [];
    assert none + [FREIGHT.WithId(n + 2)] == [FREIGHT.WithId(n + 2)];
    assert ConvertedItems(inputs, n + 2) == Ok([FREIGHT.WithId(n + 2)]);
  }

  const FREIGHT_TARIFF := Tariff(2, 1, "T", 1, None, 1, 2, [FREIGHT.WithId(3)])

  lemma TargetsOneTariff(s: State, c: Command)
    requires c == ApplyContract(4, 1, [2], [], []) && 2 in s.tariffs && s.tariffs[2] == FREIGHT_TARIFF
    ensures TargetTariffs(s, c) == Ok([FREIGHT_TARIFF])
    ensures Selected([FREIGHT_TARIFF], IdSet(c.itemFilter)) == [RateableOf(2, FREIGHT.WithId(3))]
  {
    var t, item := FREIGHT_TARIFF, RateableOf(2, FREIGHT.WithId(3));
    var ids: seq<Id>, ts: seq<Tariff>, items: seq<RateableLineItem> := [2], [], [];
    assert ids[..0] == [] && NamedTariffs(s, 1, []) == Ok(ts) && ts + [t] == [t];
    assert IdSet([]) == {};
    assert [t][..0] == ts && Selected(ts, {}) == items && SelectedItems(t, 0, {}) == items;
    assert items + [item] == [item] && items + (items + [item]) == [item];
    assert SelectedItems(t, 1, {}) == [item];
  }

  lemma AddOneEntry(r: RateState, item: RateableLineItem, id: Id, contractId: Id, providerId: Id)
    requires r == RateState(Draft, []) && EntryError(EntryFrom(item, id, contractId, providerId)).None? && id != NIL
    ensures AddedAll(r, EntriesFrom([item], id, contractId, providerId))
      == Ok(RateState(Draft, [EntryFrom(item, id, contractId, providerId)]))
  {
    var e, es := EntryFrom(item, id, contractId, providerId), r.entries;
    var one := EntriesFrom([item], id, contractId, providerId);
    assert one == [e] && [e][..0] == es && AddedAll(r, es) == Ok(r);
    assert es + [e] == [e];
  }

  /** Applying the one tariff of contract 1 adds one entry. */
  lemma ApplyOneTariff(s: State)
    requires s.nextId == 5 && IsContracted(s, 1) && 2 in s.tariffs && s.tariffs[2] == FREIGHT_TARIFF
    requires 4 in s.rates && s.rates[4] == RateState(Draft, [])
    ensures var e := SavedEntry(EntryFrom(RateableOf(2, FREIGHT.WithId(3)), 5, 1, s.contracts[1].providerId));
      After(s, ApplyContract(4, 1, [2], [], [])) == s.(rates := s.rates[4 := RateState(Draft, [e])], nextId := 6)
  {
    var item, provider := RateableOf(2, FREIGHT.WithId(3)), s.contracts[1].providerId;
    TargetsOneTariff(s, ApplyContract(4, 1, [2], [], []));
    AddOneEntry(s.rates[4], item, 5, 1, provider);
    var e := EntryFrom(item, 5, 1, provider);
    assert SavedEntries([e]) == [SavedEntry(e)];
  }

  /** The entry of rate 4 is replaced by the line item of the draft contract 6, whose tariff is then removed. */
  lemma ReplaceActivateRemove(s: State, e: RateEntry)
    requires 4 in s.rates && s.rates[4] == RateState(Draft, [e]) && e.id == 5
    requires 6 in s.contracts && s.contracts[6].status == InDraft
    requires 7 in s.tariffs && s.tariffs[7] == Tariff(7, 6, "T", 1, None, 1, 2, [FREIGHT.WithId(8)])
    ensures var s' := After(After(After(s, ReplaceEntry(4, 5, 6, 7, 8)), ActivateRate(4)), RemoveTariff(6, 7));
      4 in s'.rates && s'.rates[4].status == Active && 7 !in s'.tariffs
      && |s'.rates[4].entries| == 1 && s'.rates[4].entries[0].tariffId == 7
  {
    var item := FREIGHT.WithId(8);
    assert [item][..0] == [] && FindItem([item], 8) == Some(item);
    assert IndexOf([e], 5) == Some(0);
  }

  const SETUP: seq<Command> := [
    CreateContract(9, 9, 9, 1, 2), RegisterTariff(1, "T", 1, 2, [Ok(FREIGHT)]), AwardContract(1),
    CreateRate(9, "R", 1, 2), ApplyContract(4, 1, [2], [], [])]

  const CROSS_REPLACEMENT: seq<Command> := [
    CreateContract(9, 9, 9, 1, 2), RegisterTariff(6, "T", 1, 2, [Ok(FREIGHT)]),
    ReplaceEntry(4, 5, 6, 7, 8), ActivateRate(4), RemoveTariff(6, 7)]

  lemma RunFive(s: State, a: Command, b: Command, c: Command, d: Command, e: Command)
    ensures Run(s, [a, b, c, d, e]) == After(After(After(After(After(s, a), b), c), d), e)
  {
    var none: seq<Command> := [];
    assert none + [a] == [a] && [a] + [b] == [a, b] && [a, b] + [c] == [a, b, c];
    assert [a, b, c] + [d] == [a, b, c, d] && [a, b, c, d] + [e] == [a, b, c, d, e];
    RunMore(s, none, a);
    RunMore(s, [a], b);
    RunMore(s, [a, b], c);
    RunMore(s, [a, b, c], d);
    RunMore(s, [a, b, c, d], e);
  }

  lemma SetupState()
    ensures var s := Run(INITIAL, SETUP);
      s.nextId == 6 && 4 in s.rates && s.rates[4].status == Draft
      && |s.rates[4].entries| == 1 && s.rates[4].entries[0].id == 5
  {
    RunFive(INITIAL, SETUP[0], SETUP[1], SETUP[2], SETUP[3], SETUP[4]);
    DraftContractWithTariff(INITIAL, 1);
    var s := After(After(INITIAL, SETUP[0]), SETUP[1]);
    assert s.tariffs[2].contractId == 1;
    assert HasTariff(s, 1);
    var s' := After(After(s, SETUP[2]), SETUP[3]);
    assert s'.rates[4] == RateState(Draft, []) && IsContracted(s', 1) && s'.tariffs[2] == FREIGHT_TARIFF;
    ApplyOneTariff(s');
  }

  /** A replace that names another, draft contract lets an active rate point at a tariff that no longer exists. */
  lemma CrossReplacementDangles()
    ensures var s := Run(Run(INITIAL, SETUP), CROSS_REPLACEMENT);
      4 in s.rates && s.rates[4].status == Active
      && exists e :: e in s.rates[4].entries && e.tariffId !in s.tariffs
  {
    SetupState();
    var s, cs := Run(INITIAL, SETUP), CROSS_REPLACEMENT;
    RunFive(s, cs[0], cs[1], cs[2], cs[3], cs[4]);
    DraftContractWithTariff(s, 6);
    var s' := After(After(s, cs[0]), cs[1]);
    assert s'.rates[4].entries == [s.rates[4].entries[0]];
    ReplaceActivateRemove(s', s.rates[4].entries[0]);
    var r := Run(s, cs);
    assert r.rates[4].entries[0] in r.rates[4].entries;
  }

  // ---------------------------------------------------------------- empty sheets

  const EMPTY_SHEET: Option<Sheet<ItemInput>> := Some(Sheet("T", 1, 2, []))

  /** Registering a file without lines stores a tariff without line items. */
  lemma EmptySheetIsStored()
    ensures var s := Run(INITIAL, [RegisterFile(true, None, 9, 9, Some((1, 2)), EMPTY_SHEET, true)]);
      2 in s.tariffs && s.tariffs[2].items == [] && s.tariffs[2].contractId == 1 && 1 in s.contracts
  {
    var none: seq<Command> := [];
    var c := RegisterFile(true, None, 9, 9, Some((1, 2)), EMPTY_SHEET, true);
    assert none + [c] == [c];
    RunMore(INITIAL, none, c);
    assert ConvertedItems([], 3) == Ok([]);
  }

  const VERSION_ON_DRAFT: seq<Command> := [
    CreateContract(9, 9, 9, 1, 2), RegisterTariff(1, "T", 1, 2, [Ok(FREIGHT)]), AddVersion(1, 2, EMPTY_SHEET),
    UpdatePeriod(1, 1, 2), RemoveTariff(1, 2)]

  /** A version added to a draft contract from an empty sheet loses its base when the base is removed. */
  lemma EmptyVersionDangles()
    ensures var s := Run(INITIAL, VERSION_ON_DRAFT);
      4 in s.tariffs && s.tariffs[4].base == Some(2) && 2 !in s.tariffs
  {
    var cs := VERSION_ON_DRAFT;
    RunFive(INITIAL, cs[0], cs[1], cs[2], cs[3], cs[4]);
    DraftContractWithTariff(INITIAL, 1);
    var s := After(After(INITIAL, cs[0]), cs[1]);
    assert s.tariffs[2] == FREIGHT_TARIFF && s.nextId == 4;
    var s' := After(s, cs[2]);
    assert s'.tariffs[4].base == Some(2) && s'.tariffs[2].contractId == 1;
  }
}
