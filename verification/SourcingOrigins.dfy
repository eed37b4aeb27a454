/** Where everything in the stores comes from: in every run, contracts, tariffs and entries are what commands said. */
module SourcingOrigins {
  import opened Pricing
  import opened Rates
  import opened Shared
  import opened SourcingAnswers
  import opened SourcingInvariants
  import opened SourcingModel
  import opened SourcingSafety

  // ---------------------------------------------------------------- contracts

  /** The step makes the contract, for these parties. */
  ghost predicate Makes(s: State, c: Command, id: Id, providerId: Id, shipperId: Id) {
    && Exec(s, c).Ok? && s.nextId == id
    && match c
       case CreateContract(_, provider, shipper, _, _) => provider == providerId && shipper == shipperId
       case RegisterFile(_, target, provider, shipper, _, _, _) =>
         target == None && provider == providerId && shipper == shipperId
       case _ => false
  }

  ghost function Making(id: Id, providerId: Id, shipperId: Id): (State, Command) -> bool {
    (s, c) => Makes(s, c, id, providerId, shipperId)
  }

  /** Contracts never disappear, and keep their parties. */
  lemma PartiesStay(s: State, c: Command, id: Id)
    requires Inv(s) && id in s.contracts
    ensures id in After(s, c).contracts
    ensures After(s, c).contracts[id].providerId == s.contracts[id].providerId
    ensures After(s, c).contracts[id].shipperId == s.contracts[id].shipperId
  {
    if c.RegisterFile? && Exec(s, c).Ok? {
      FileKeepsContracts(s, c);
    }
  }

  /** A file adds a draft contract with the parties of the input, or none. */
  lemma FileKeepsContracts(s: State, c: Command)
    requires Inv(s) && c.RegisterFile? && Exec(s, c).Ok?
    ensures match c.target
      case Some(_) => After(s, c).contracts == s.contracts
      case None =>
        var contract := Contract(c.providerId, c.shipperId, InDraft, c.period.value.0, c.period.value.1);
        s.nextId !in s.contracts && After(s, c).contracts == s.contracts[s.nextId := contract]
  {
    FileContractIsSound(s, c);
  }

  lemma NewContract(s: State, c: Command, id: Id)
    requires Inv(s) && id !in s.contracts && id in After(s, c).contracts
    ensures Makes(s, c, id, After(s, c).contracts[id].providerId, After(s, c).contracts[id].shipperId)
    ensures After(s, c).contracts[id].status == InDraft
  {
    if c.RegisterFile? && Exec(s, c).Ok? {
      FileKeepsContracts(s, c);
    }
  }

  /** In every run, a contract is between the parties that were named when it was made. */
  lemma {:induction false} ContractsHaveTheirParties(cs: seq<Command>, id: Id)
    requires id in Run(INITIAL, cs).contracts
    ensures var contract := Run(INITIAL, cs).contracts[id];
      Happened(cs, Making(id, contract.providerId, contract.shipperId))
  {
    var n := |cs| - 1;
    var front, contract := cs[..n], Run(INITIAL, cs).contracts[id];
    var s := Run(INITIAL, front);
    ReachableStatesAreSound(front);
    HappenedStep(cs, Making(id, contract.providerId, contract.shipperId));
    if id in s.contracts {
      PartiesStay(s, cs[n], id);
      ContractsHaveTheirParties(front, id);
    } else {
      NewContract(s, cs[n], id);
    }
  }

  /** The step gives the contract these dates. */
  ghost predicate Dates(s: State, c: Command, id: Id, from: int, to: int) {
    && Exec(s, c).Ok?
    && match c
       case CreateContract(_, _, _, validFrom, validTo) => s.nextId == id && (validFrom, validTo) == (from, to)
       case RegisterFile(_, target, _, _, period, _, _) =>
         s.nextId == id && target == None && period == Some((from, to))
       case UpdatePeriod(contract, validFrom, validTo) => contract == id && (validFrom, validTo) == (from, to)
       case _ => false
  }

  ghost function Dating(id: Id, from: int, to: int): (State, Command) -> bool {
    (s, c) => Dates(s, c, id, from, to)
  }

  lemma DatesStep(s: State, c: Command, id: Id)
    requires Inv(s) && id in After(s, c).contracts
    ensures var now := After(s, c).contracts[id];
      || Dates(s, c, id, now.validFrom, now.validTo)
      || (id in s.contracts && s.contracts[id].validFrom == now.validFrom && s.contracts[id].validTo == now.validTo)
  {
    if c.RegisterFile? && Exec(s, c).Ok? {
      FileKeepsContracts(s, c);
    }
  }

  /** In every run, the dates of a contract are those it was made with or those of an update. */
  lemma {:induction false} ContractsHaveTheirDates(cs: seq<Command>, id: Id)
    requires id in Run(INITIAL, cs).contracts
    ensures var contract := Run(INITIAL, cs).contracts[id];
      Happened(cs, Dating(id, contract.validFrom, contract.validTo))
  {
    var n := |cs| - 1;
    var s, contract := Run(INITIAL, cs[..n]), Run(INITIAL, cs).contracts[id];
    ReachableStatesAreSound(cs[..n]);
    HappenedStep(cs, Dating(id, contract.validFrom, contract.validTo));
    DatesStep(s, cs[n], id);
    if !Dates(s, cs[n], id, contract.validFrom, contract.validTo) {
      ContractsHaveTheirDates(cs[..n], id);
    }
  }

  /** An update of the dates that succeeds takes effect. */
  lemma UpdateTakesEffect(s: State, c: Command)
    requires c.UpdatePeriod? && Exec(s, c).Ok?
    ensures c.contractId in s.contracts
    ensures After(s, c) == s.(contracts := s.contracts[c.contractId :=
      s.contracts[c.contractId].(validFrom := c.validFrom, validTo := c.validTo)])
  {
  }

  // ---------------------------------------------------------------- the life of a contract

  ghost function Awarding(id: Id): (State, Command) -> bool {
    (s, c) => c == AwardContract(id) && Exec(s, c).Ok?
  }

  ghost function Deleting(id: Id): (State, Command) -> bool {
    (s, c) => c == DeleteContract(id) && Exec(s, c).Ok?
  }

  lemma StatusStep(s: State, c: Command, id: Id)
    requires Inv(s) && id in s.contracts
    ensures After(s, c).contracts.Keys >= s.contracts.Keys
    ensures var was, now := s.contracts[id].status, After(s, c).contracts[id].status;
      now == if Awarding(id)(s, c) then Contracted else if Deleting(id)(s, c) then Cancelled else was
    ensures Awarding(id)(s, c) || Deleting(id)(s, c) ==> s.contracts[id].status == InDraft
  {
    if c.RegisterFile? && Exec(s, c).Ok? {
      FileKeepsContracts(s, c);
    }
  }

  lemma AbsentStep(s: State, c: Command, id: Id)
    requires Inv(s) && id !in s.contracts
    ensures !Awarding(id)(s, c) && !Deleting(id)(s, c)
  {
  }

  /** In every run, a contract is contracted if it was awarded, cancelled if it was deleted, and else a draft. */
  lemma {:induction false} StatusIsHistory(cs: seq<Command>, id: Id)
    ensures id in Run(INITIAL, cs).contracts ==>
      Run(INITIAL, cs).contracts[id].status
        == if Happened(cs, Awarding(id)) then Contracted else if Happened(cs, Deleting(id)) then Cancelled else InDraft
    ensures id !in Run(INITIAL, cs).contracts ==> !Happened(cs, Awarding(id)) && !Happened(cs, Deleting(id))
    ensures !(Happened(cs, Awarding(id)) && Happened(cs, Deleting(id)))
  {
    if cs != [] {
      var n := |cs| - 1;
      var s := Run(INITIAL, cs[..n]);
      StatusIsHistory(cs[..n], id);
      ReachableStatesAreSound(cs[..n]);
      HappenedStep(cs, Awarding(id));
      HappenedStep(cs, Deleting(id));
      if id in s.contracts {
        StatusStep(s, cs[n], id);
      } else {
        AbsentStep(s, cs[n], id);
        if id in Run(INITIAL, cs).contracts {
          NewContract(s, cs[n], id);
        }
      }
    }
  }

  // ---------------------------------------------------------------- tariffs

  /** The tariff is a first version with the given data. */
  ghost predicate IsFirst(t: Tariff, contractId: Id, name: string, from: int, to: int) {
    t.contractId == contractId && t.name == name && t.version == 1 && t.base == None
    && t.effectiveFrom == from && t.effectiveTo == to
  }

  /** The tariff is the version after its base, of the same contract and name, with the given dates. */
  ghost predicate IsNext(s: State, t: Tariff, contractId: Id, baseId: Id, from: int, to: int) {
    && t.base == Some(baseId) && Holds(s, contractId, baseId)
    && t.contractId == contractId && t.name == s.tariffs[baseId].name && t.version == s.tariffs[baseId].version + 1
    && t.effectiveFrom == from && t.effectiveTo == to
  }

  /** The step stores the tariff: it is what the input describes. */
  ghost predicate Stores(s: State, c: Command, t: Tariff) {
    && Exec(s, c).Ok?
    && match c
       case RegisterTariff(id, name, from, to, inputs) =>
         t.id == s.nextId && IsFirst(t, id, name, from, to) && HasContentOf(t.items, inputs)
       case RegisterFile(_, target, _, _, _, sheet, _) =>
         && sheet.Some? && IsFirst(t, t.contractId, sheet.value.name, sheet.value.from, sheet.value.to)
         && HasContentOf(t.items, sheet.value.items)
         && t.contractId == (if target.Some? then target.value else s.nextId)
       case AmendTariff(id, base, from, to, inputs) =>
         t.id == s.nextId && IsNext(s, t, id, base, from, to) && HasContentOf(t.items, inputs)
       case AmendFile(_, id, base, sheet) =>
         t.id == s.nextId && sheet.Some? && IsNext(s, t, id, base, sheet.value.from, sheet.value.to) && t.items == []
       case AddVersion(id, base, sheet) =>
         t.id == s.nextId && sheet.Some? && IsNext(s, t, id, base, sheet.value.from, sheet.value.to) && t.items == []
       case _ => false
  }

  ghost function Storing(t: Tariff): (State, Command) -> bool {
    (s, c) => Stores(s, c, t)
  }

  lemma DirectStores(s: State, c: Command, t: Id)
    requires Inv(s) && (c.RegisterTariff? || c.AmendTariff?) && t !in s.tariffs && t in After(s, c).tariffs
    ensures Stores(s, c, After(s, c).tariffs[t])
  {
    ConversionSucceedsIff(c.items, s.nextId + 1);
    if c.AmendTariff? {
      assert TariffOk(s, c.baseId);
    }
  }

  lemma FileStores(s: State, c: Command, t: Id)
    requires Inv(s) && c.RegisterFile? && t !in s.tariffs && t in After(s, c).tariffs
    ensures Stores(s, c, After(s, c).tariffs[t])
  {
    FileContractIsSound(s, c);
    ConversionSucceedsIff(c.sheet.value.items, FileContract(s, c).value.0.nextId + 1);
  }

  lemma VersionStores(s: State, c: Command, t: Id)
    requires Inv(s) && (c.AmendFile? || c.AddVersion?) && t !in s.tariffs && t in After(s, c).tariffs
    ensures Stores(s, c, After(s, c).tariffs[t])
  {
    assert TariffOk(s, c.baseId);
  }

  lemma NewTariff(s: State, c: Command, t: Id)
    requires Inv(s) && t !in s.tariffs && t in After(s, c).tariffs
    ensures Stores(s, c, After(s, c).tariffs[t])
  {
    if LeavesTariffs(c) {
      TariffsLeft(s, c);
    } else if c.RegisterTariff? || c.AmendTariff? {
      DirectStores(s, c, t);
    } else if c.RegisterFile? {
      FileStores(s, c, t);
    } else if c.AmendFile? || c.AddVersion? {
      VersionStores(s, c, t);
    }
  }

  /** In every run, every stored tariff is what some command described, and has not changed since. */
  lemma {:induction false} TariffsAreAsDescribed(cs: seq<Command>, t: Id)
    requires t in Run(INITIAL, cs).tariffs
    ensures Happened(cs, Storing(Run(INITIAL, cs).tariffs[t]))
  {
    var n := |cs| - 1;
    var s := Run(INITIAL, cs[..n]);
    ReachableStatesAreSound(cs[..n]);
    HappenedStep(cs, Storing(Run(INITIAL, cs).tariffs[t]));
    if t in s.tariffs {
      StoredTariffStays(s, cs[n], t);
      TariffsAreAsDescribed(cs[..n], t);
    } else {
      NewTariff(s, cs[n], t);
    }
  }

  /** A tariff leaves its store exactly by a removal that names it, from a draft contract. */
  lemma TariffLeavesIff(s: State, c: Command, t: Id)
    requires Inv(s) && t in s.tariffs
    ensures t !in After(s, c).tariffs <==>
      c == RemoveTariff(s.tariffs[t].contractId, t) && IsDraft(s, s.tariffs[t].contractId)
  {
    if LeavesTariffs(c) {
      TariffsLeft(s, c);
    } else if c.RegisterFile? && Exec(s, c).Ok? {
      FileContractIsSound(s, c);
    }
  }

  // ---------------------------------------------------------------- rate entries

  /** The step adds the entry to the rate under the entry's contract. */
  ghost function Joining(r: Id, e: RateEntry): (State, Command) -> bool {
    (s, c: Command) => c.ApplyContract? && Exec(s, c).Ok? && c.rateId == r && c.contractId == e.contractId
  }

  /** The step chooses the line item that the entry shows: an apply that lets it pass, or a replace that names it. */
  ghost predicate Chooses(s: State, c: Command, r: Id, e: RateEntry) {
    && Exec(s, c).Ok?
    && match c
       case ApplyContract(rate, _, _, _, _) => rate == r && IsTarget(s, c, e.tariffId) && Passes(c, e.lineItemId)
       case ReplaceEntry(rate, entry, _, tariff, item) =>
         rate == r && entry == e.id && tariff == e.tariffId && item == e.lineItemId
       case _ => false
  }

  ghost function Choosing(r: Id, e: RateEntry): (State, Command) -> bool {
    (s, c) => Chooses(s, c, r, e)
  }

  lemma ReplacedEntryIsChosen(s: State, c: Command, r: Id, e: RateEntry)
    requires Inv(s) && c.ReplaceEntry? && Exec(s, c).Ok?
    requires r in After(s, c).rates && e in After(s, c).rates[r].entries
    requires !(r in s.rates && e in s.rates[r].entries)
    ensures Chooses(s, c, r, e)
    ensures r in s.rates && exists was :: was in s.rates[r].entries && was.id == e.id && was.contractId == e.contractId
  {
    var i := ReplaceChangesOneEntry(s, c);
    var was, now := s.rates[c.rateId].entries, After(s, c).rates[c.rateId].entries;
    var j :| 0 <= j < |After(s, c).rates[r].entries| && After(s, c).rates[r].entries[j] == e;
    assert was[i] in was;
  }

  /** An entry that was not there before the step is added or changed by it. */
  lemma NewEntry(s: State, c: Command, r: Id, e: RateEntry)
    requires Inv(s) && r in After(s, c).rates && e in After(s, c).rates[r].entries
    requires !(r in s.rates && e in s.rates[r].entries)
    ensures Chooses(s, c, r, e)
    ensures Joining(r, e)(s, c) ||
      (r in s.rates && exists was :: was in s.rates[r].entries && was.id == e.id && was.contractId == e.contractId)
  {
    if c.ApplyContract? && Exec(s, c).Ok? {
      AppliedEntry(s, c, r, e);
    } else if c.ReplaceEntry? && Exec(s, c).Ok? {
      ReplacedEntryIsChosen(s, c, r, e);
    } else if c.ActivateRate? && Exec(s, c).Ok? {
      ActivateOnlyActivates(s, c);
    }
  }

  lemma AppliedEntry(s: State, c: Command, r: Id, e: RateEntry)
    requires Inv(s) && c.ApplyContract? && Exec(s, c).Ok?
    requires r in After(s, c).rates && e in After(s, c).rates[r].entries
    requires !(r in s.rates && e in s.rates[r].entries)
    ensures Chooses(s, c, r, e) && Joining(r, e)(s, c)
  {
    ApplyTouchesOneRate(s, c);
    AddedAre(s, c);
    AddedEntriesPass(s, c, e);
  }

  /** In every run, an entry was added by an apply of its contract, and shows an item that some step chose for it. */
  lemma {:induction false} EntriesAreChosen(cs: seq<Command>, r: Id, e: RateEntry)
    requires r in Run(INITIAL, cs).rates && e in Run(INITIAL, cs).rates[r].entries
    ensures Happened(cs, Choosing(r, e)) && Happened(cs, Joining(r, e))
  {
    var n := |cs| - 1;
    var s := Run(INITIAL, cs[..n]);
    ReachableStatesAreSound(cs[..n]);
    HappenedStep(cs, Choosing(r, e));
    HappenedStep(cs, Joining(r, e));
    if r in s.rates && e in s.rates[r].entries {
      EntriesAreChosen(cs[..n], r, e);
    } else {
      NewEntry(s, cs[n], r, e);
      if !Joining(r, e)(s, cs[n]) {
        var was :| was in s.rates[r].entries && was.id == e.id && was.contractId == e.contractId;
        EntriesAreChosen(cs[..n], r, was);
        SameJoining(cs[..n], r, was, e);
      }
    }
  }

  lemma SameJoining(cs: seq<Command>, r: Id, a: RateEntry, b: RateEntry)
    requires a.contractId == b.contractId && Happened(cs, Joining(r, a))
    ensures Happened(cs, Joining(r, b))
  {
    var n :| 0 <= n < |cs| && Joining(r, a)(Run(INITIAL, cs[..n]), cs[n]);
    assert Joining(r, b)(Run(INITIAL, cs[..n]), cs[n]);
  }

  /** And its provider is the one that was named when its contract was made. */
  lemma {:induction false} EntriesHaveTheirProvider(cs: seq<Command>, r: Id, e: RateEntry) returns (shipperId: Id)
    requires r in Run(INITIAL, cs).rates && e in Run(INITIAL, cs).rates[r].entries
    ensures Happened(cs, Making(e.contractId, e.providerId, shipperId))
  {
    var s := Run(INITIAL, cs);
    ReachableStatesAreSound(cs);
    assert RateOk(s, s.rates[r]);
    shipperId := s.contracts[e.contractId].shipperId;
    ContractsHaveTheirParties(cs, e.contractId);
  }
}
