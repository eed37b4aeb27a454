/**
 A load returns the entries of a rate in any order. States that differ only in the order of entries
 answer every use case alike, so the order plays no part in any run.
 */
module SourcingLoads {
  import opened Permutations
  import opened Pricing
  import opened Rates
  import opened RateStore
  import opened Refinement
  import opened Shared
  import SimulationTheorems
  import opened SourcingInvariants
  import opened SourcingModel

  // ---------------------------------------------------------------- states alike

  ghost predicate SameEntries(r: RateState, r': RateState) {
    r.status == r'.status && multiset(r.entries) == multiset(r'.entries)
  }

  /** The rates hold the same entries, in whatever order; all else is the same. */
  ghost predicate SameRates(rates: map<Id, RateState>, rates': map<Id, RateState>) {
    rates.Keys == rates'.Keys && forall r :: r in rates ==> SameEntries(rates[r], rates'[r])
  }

  ghost predicate Alike(s: State, t: State) {
    t == s.(rates := t.rates) && SameRates(s.rates, t.rates)
  }

  /** The same answer, and states alike. */
  ghost predicate AlikeResults(a: Result<State, UseCaseError>, b: Result<State, UseCaseError>) {
    match (a, b)
    case (Ok(s), Ok(t)) => Alike(s, t)
    case (Err(e), Err(f)) => e == f
    case _ => false
  }

  lemma AlikeIsTransitive(s: State, t: State, u: State)
    requires Alike(s, t) && Alike(t, u)
    ensures Alike(s, u)
  {
  }

  lemma RateStaysOk(s: State, t: State, r: RateState, r': RateState)
    requires Alike(s, t) && SameEntries(r, r') && RateOk(s, r)
    ensures RateOk(t, r')
  {
    SameMembers(r.entries, r'.entries);
    SimulationTheorems.DistinctPermutation(r.entries, r'.entries);
    assert r.entries != [] ==> r.entries[0] in r'.entries;
  }

  lemma AlikeIsSound(s: State, t: State)
    requires Inv(s) && Alike(s, t)
    ensures Inv(t)
  {
    forall id | id in t.rates
      ensures RateOk(t, t.rates[id]) && forall e :: e in t.rates[id].entries ==> e in s.rates[id].entries
    {
      assert RateOk(s, s.rates[id]);
      RateStaysOk(s, t, s.rates[id], t.rates[id]);
      SameMembers(s.rates[id].entries, t.rates[id].entries);
    }
    assert forall id :: id in t.tariffs ==> TariffOk(s, id) && TariffOk(t, id);
    forall c | IsContracted(t, c)
      ensures HasTariff(t, c)
    {
      assert IsContracted(s, c) && HasTariff(s, c);
    }
  }

  // ---------------------------------------------------------------- steps on contracts and tariffs

  /** Contract and tariff steps neither read nor change rates. */
  ghost predicate IgnoresRates(a: Result<State, UseCaseError>, b: Result<State, UseCaseError>, s: State, t: State) {
    match (a, b)
    case (Ok(s'), Ok(t')) => s'.rates == s.rates && t' == s'.(rates := t.rates)
    case (Err(e), Err(f)) => e == f
    case _ => false
  }

  lemma ContractStepIgnoresRates(s: State, t: State, c: Command)
    requires Alike(s, t) && (c.CreateContract? || c.UpdatePeriod? || c.AwardContract? || c.DeleteContract?)
    ensures IgnoresRates(Exec(s, c), Exec(t, c), s, t)
  {
    if c.AwardContract? {
      assert HasTariff(s, c.contractId) <==> HasTariff(t, c.contractId);
    }
  }

  lemma DirectStepIgnoresRates(s: State, t: State, c: Command)
    requires Alike(s, t) && (c.RegisterTariff? || c.AmendTariff? || c.RemoveTariff?)
    ensures IgnoresRates(Exec(s, c), Exec(t, c), s, t)
  {
  }

  lemma FileVersionAlike(s: State, t: State, contractId: Id, baseId: Id, sheet: Option<Sheet<ItemInput>>)
    requires Alike(s, t)
    ensures FileVersion(s, contractId, baseId, sheet) == FileVersion(t, contractId, baseId, sheet)
  {
  }

  lemma FileVersionIgnoresRates(s: State, t: State, c: Command)
    requires Alike(s, t) && (c.AmendFile? || c.AddVersion?)
    ensures IgnoresRates(Exec(s, c), Exec(t, c), s, t)
  {
    FileVersionAlike(s, t, c.contractId, c.baseId, c.sheet);
  }

  lemma FileContractAlike(s: State, t: State, c: Command)
    requires Alike(s, t) && c.RegisterFile?
    ensures match (FileContract(s, c), FileContract(t, c))
      case (Ok((s', id)), Ok((t', id'))) => id == id' && s'.rates == s.rates && t' == s'.(rates := t.rates)
      case (Err(e), Err(f)) => e == f
      case _ => false
  {
  }

  lemma SheetIgnoresRates(s: State, t: State, contractId: Id, sheet: Sheet<ItemInput>)
    requires t == s.(rates := t.rates)
    ensures IgnoresRates(SheetStored(s, contractId, sheet), SheetStored(t, contractId, sheet), s, t)
  {
  }

  lemma FileStepIgnoresRates(s: State, t: State, c: Command)
    requires Alike(s, t) && c.RegisterFile?
    ensures IgnoresRates(Exec(s, c), Exec(t, c), s, t)
  {
    FileContractAlike(s, t, c);
    if FileContract(s, c).Ok? && c.sheet.Some? {
      var (s', id) := FileContract(s, c).value;
      SheetIgnoresRates(s', FileContract(t, c).value.0, id, c.sheet.value);
    }
  }

  // ---------------------------------------------------------------- steps on rates

  lemma {:induction false} NamedAlike(s: State, t: State, contractId: Id, ids: seq<Id>)
    requires s.tariffs == t.tariffs
    ensures NamedTariffs(s, contractId, ids) == NamedTariffs(t, contractId, ids)
  {
    if ids != [] {
      NamedAlike(s, t, contractId, ids[..|ids| - 1]);
    }
  }

  lemma TargetsAlike(s: State, t: State, c: Command)
    requires Alike(s, t) && c.ApplyContract?
    ensures TargetTariffs(s, c) == TargetTariffs(t, c)
  {
    NamedAlike(s, t, c.contractId, c.tariffIds);
    NamedAlike(s, t, c.contractId, c.listing);
    assert IsListing(s, c.contractId, c.listing) <==> IsListing(t, c.contractId, c.listing);
  }

  lemma SavedAlike(a: seq<RateEntry>, b: seq<RateEntry>)
    requires multiset(a) == multiset(b)
    ensures multiset(SavedEntries(a)) == multiset(SavedEntries(b))
  {
    Relabel(a, b, SavedEntries(a), SavedEntries(b));
  }

  lemma {:induction false} AddedAllAlike(r: RateState, r': RateState, es: seq<RateEntry>)
    requires SameEntries(r, r')
    ensures match (AddedAll(r, es), AddedAll(r', es))
      case (Ok(q), Ok(q')) => SameEntries(q, q')
      case (Err(e), Err(f)) => e == f
      case _ => false
  {
    if es != [] {
      AddedAllAlike(r, r', es[..|es| - 1]);
    }
  }

  lemma RatePutAlike(s: State, t: State, id: Id, r: RateState, r': RateState, nextId: Id)
    requires Alike(s, t) && SameEntries(r, r')
    ensures Alike(s.(rates := s.rates[id := SavedRate(r)], nextId := nextId),
      t.(rates := t.rates[id := SavedRate(r')], nextId := nextId))
  {
    SavedAlike(r.entries, r'.entries);
  }

  lemma ApplyAlike(s: State, t: State, c: Command)
    requires Alike(s, t) && c.ApplyContract?
    ensures AlikeResults(Exec(s, c), Exec(t, c))
  {
    TargetsAlike(s, t, c);
    if c.rateId in s.rates && c.contractId in s.contracts && TargetTariffs(s, c).Ok? {
      var items := Selected(TargetTariffs(s, c).value, IdSet(c.itemFilter));
      var es := EntriesFrom(items, s.nextId, c.contractId, s.contracts[c.contractId].providerId);
      var r, r' := s.rates[c.rateId], t.rates[c.rateId];
      AddedAllAlike(r, r', es);
      if AddedAll(r, es).Ok? {
        RatePutAlike(s, t, c.rateId, AddedAll(r, es).value, AddedAll(r', es).value, s.nextId + |items|);
      }
    }
  }

  lemma UpdateCounts<T>(xs: seq<T>, i: nat, x: T)
    requires i < |xs|
    ensures multiset(xs[i := x]) == multiset(xs) - multiset{xs[i]} + multiset{x}
  {
  }

  /** With distinct IDs, an ID leads to the same entry in any order. */
  lemma SameEntryFound(a: seq<RateEntry>, b: seq<RateEntry>, id: Id)
    requires DistinctEntries(a) && multiset(a) == multiset(b)
    ensures IndexOf(a, id).Some? <==> IndexOf(b, id).Some?
    ensures IndexOf(a, id).Some? ==> a[IndexOf(a, id).value] == b[IndexOf(b, id).value]
  {
    SameMembers(a, b);
    var i, j := IndexOf(a, id), IndexOf(b, id);
    if i.Some? {
      assert a[i.value] in b;
    }
    if j.Some? {
      assert b[j.value] in a;
    }
    if i.Some? && j.Some? {
      SameIdSameEntry(a, a[i.value], b[j.value]);
    }
  }

  lemma ReplacedAlike(r: RateState, r': RateState, id: Id, with: Replacement)
    requires SameEntries(r, r') && DistinctEntries(r.entries)
    ensures match (Replaced(r, id, with), Replaced(r', id, with))
      case (Ok(q), Ok(q')) => SameEntries(q, q')
      case (Err(e), Err(f)) => e == f
      case _ => false
  {
    SameEntryFound(r.entries, r'.entries, id);
    var i, j := IndexOf(r.entries, id), IndexOf(r'.entries, id);
    if i.Some? {
      UpdateCounts(r.entries, i.value, ReplacedEntry(r.entries[i.value], with));
      UpdateCounts(r'.entries, j.value, ReplacedEntry(r'.entries[j.value], with));
    }
  }

  lemma ReplaceAlike(s: State, t: State, c: Command)
    requires Inv(s) && Alike(s, t) && c.ReplaceEntry?
    ensures AlikeResults(Exec(s, c), Exec(t, c))
  {
    if c.rateId in s.rates && c.tariffId in s.tariffs {
      var item := FindItem(s.tariffs[c.tariffId].items, c.lineItemId);
      if item.Some? {
        var r, r', with := s.rates[c.rateId], t.rates[c.rateId], ReplacementBy(RateableOf(c.tariffId, item.value));
        assert RateOk(s, r);
        ReplacedAlike(r, r', c.entryId, with);
        if Replaced(r, c.entryId, with).Ok? {
          RatePutAlike(
            s, t, c.rateId, Replaced(r, c.entryId, with).value, Replaced(r', c.entryId, with).value, s.nextId);
        }
      }
    }
  }

  lemma ActivateAlike(s: State, t: State, c: Command)
    requires Alike(s, t) && c.ActivateRate?
    ensures AlikeResults(Exec(s, c), Exec(t, c))
  {
    if c.rateId in s.rates {
      var r, r' := s.rates[c.rateId], t.rates[c.rateId];
      SameMembers(r.entries, r'.entries);
      assert r.entries == [] <==> r'.entries == [] by {
        assert r.entries != [] ==> r.entries[0] in r'.entries;
        assert r'.entries != [] ==> r'.entries[0] in r.entries;
      }
      RatePutAlike(s, t, c.rateId, r.(status := Active), r'.(status := Active), s.nextId);
    }
  }

  // ---------------------------------------------------------------- steps and runs

  /** Every use case gives the same answer in states alike, and leads to states alike. */
  lemma StepsAlike(s: State, t: State, c: Command)
    requires Inv(s) && Alike(s, t)
    ensures AlikeResults(Exec(s, c), Exec(t, c)) && Alike(After(s, c), After(t, c))
  {
    match c
    case ApplyContract(_, _, _, _, _) => ApplyAlike(s, t, c);
    case ReplaceEntry(_, _, _, _, _) => ReplaceAlike(s, t, c);
    case ActivateRate(_) => ActivateAlike(s, t, c);
    case CreateRate(_, _, _, _) =>
      RatePutAlike(s, t, s.nextId, RateState(Draft, []), RateState(Draft, []), s.nextId + 1);
    case RegisterFile(_, _, _, _, _, _, _) => FileStepIgnoresRates(s, t, c);
    case AmendFile(_, _, _, _) => FileVersionIgnoresRates(s, t, c);
    case AddVersion(_, _, _) => FileVersionIgnoresRates(s, t, c);
    case RegisterTariff(_, _, _, _, _) => DirectStepIgnoresRates(s, t, c);
    case AmendTariff(_, _, _, _, _) => DirectStepIgnoresRates(s, t, c);
    case RemoveTariff(_, _) => DirectStepIgnoresRates(s, t, c);
    case _ => ContractStepIgnoresRates(s, t, c);
  }

  /** `ts` are the states of a run in which entries may change their order between any two steps. */
  ghost predicate IsLoadedRun(ts: seq<State>, cs: seq<Command>) {
    && |ts| == |cs| + 1 && ts[0] == INITIAL
    && forall n :: 0 <= n < |cs| ==> Alike(After(ts[n], cs[n]), ts[n + 1])
  }

  /** Loads that reorder entries, anywhere in a run, change nothing but the order of entries. */
  lemma {:induction false} RunsIgnoreOrder(ts: seq<State>, cs: seq<Command>)
    requires IsLoadedRun(ts, cs)
    ensures Alike(Run(INITIAL, cs), ts[|cs|]) && Inv(ts[|cs|])
  {
    if cs != [] {
      var n := |cs| - 1;
      RunsIgnoreOrder(ts[..n + 1], cs[..n]);
      ReachableStatesAreSound(cs[..n]);
      StepsAlike(Run(INITIAL, cs[..n]), ts[n], cs[n]);
      AlikeIsTransitive(Run(INITIAL, cs), After(ts[n], cs[n]), ts[n + 1]);
    }
    ReachableStatesAreSound(cs);
    AlikeIsSound(Run(INITIAL, cs), ts[|cs|]);
  }
}
