/**
 When nothing a rate points at can disappear, and when version chains do not dangle: for each
 property, exactly which steps keep it, the runs that therefore keep it, and a run that does not.
 */
module SourcingSafety {
  import opened Pricing
  import opened Rates
  import opened Shared
  import opened SourcingInvariants
  import opened SourcingModel

  // ---------------------------------------------------------------- what can no longer be removed

  /** A contract that has left DRAFT; it never goes back. */
  ghost predicate IsSettled(s: State, contractId: Id) {
    contractId in s.contracts && s.contracts[contractId].status != InDraft
  }

  /** The entry's tariff exists, in a contract that has left DRAFT. */
  ghost predicate Safe(s: State, e: RateEntry) {
    e.tariffId in s.tariffs && IsSettled(s, s.tariffs[e.tariffId].contractId)
  }

  ghost predicate AllSafe(s: State) {
    forall r, e :: r in s.rates && e in s.rates[r].entries ==> Safe(s, e)
  }

  ghost predicate NoneDangle(s: State) {
    forall r, e :: r in s.rates && e in s.rates[r].entries ==> e.tariffId in s.tariffs
  }

  lemma SafeEntriesDoNotDangle(s: State)
    requires AllSafe(s)
    ensures NoneDangle(s)
  {
    forall r, e | r in s.rates && e in s.rates[r].entries
      ensures e.tariffId in s.tariffs
    {
      assert Safe(s, e);
    }
  }

  lemma SettledStays(s: State, c: Command, contractId: Id)
    requires IdsInUse(s) && IsSettled(s, contractId)
    ensures IsSettled(After(s, c), contractId)
  {
    match c
    case RegisterFile(_, _, _, _, _, _, _) =>
    case _ =>
  }

  lemma SettledTariffStays(s: State, c: Command, t: Id)
    requires IdsInUse(s) && t in s.tariffs && IsSettled(s, s.tariffs[t].contractId)
    ensures t in After(s, c).tariffs && After(s, c).tariffs[t] == s.tariffs[t]
  {
    match c
    case RegisterFile(_, _, _, _, _, _, _) =>
    case _ =>
  }

  lemma SafeStays(s: State, c: Command, e: RateEntry)
    requires IdsInUse(s) && Safe(s, e)
    ensures Safe(After(s, c), e)
  {
    SettledTariffStays(s, c, e.tariffId);
    SettledStays(s, c, s.tariffs[e.tariffId].contractId);
  }

  lemma ContractedEntriesAreSafe(s: State, c: Command)
    requires Inv(s) && c.ApplyContract? && Exec(s, c).Ok?
    ensures forall e :: e in AddedEntries(s, c) ==> Safe(s, e)
  {
    TargetsDescribe(s, c);
    NewEntriesAreOk(s, c.contractId, Selected(TargetTariffs(s, c).value, IdSet(c.itemFilter)));
  }

  /** A step other than a replace adds safe entries only. */
  lemma NewEntriesAreSafe(s: State, c: Command, r: Id, e: RateEntry)
    requires Inv(s) && !c.ReplaceEntry? && r in After(s, c).rates && e in After(s, c).rates[r].entries
    requires !(r in s.rates && e in s.rates[r].entries)
    ensures Safe(s, e)
  {
    if c.ApplyContract? && Exec(s, c).Ok? {
      ContractedEntriesAreSafe(s, c);
      ApplyAdds(s, c);
    } else if c.ActivateRate? && Exec(s, c).Ok? {
      ActivateOnlyActivates(s, c);
    }
  }

  lemma OtherStepsKeepSafe(s: State, c: Command)
    requires Inv(s) && AllSafe(s) && !c.ReplaceEntry?
    ensures AllSafe(After(s, c))
  {
    var s' := After(s, c);
    forall r, e | r in s'.rates && e in s'.rates[r].entries
      ensures Safe(s', e)
    {
      if !(r in s.rates && e in s.rates[r].entries) {
        NewEntriesAreSafe(s, c, r, e);
      }
      SafeStays(s, c, e);
    }
  }

  /**
   From a state in which no entry can lose its tariff, a replace leads to such a state exactly when
   it fails or the contract it names is not a draft.
   */
  lemma ReplaceIsSafeIff(s: State, c: Command)
    requires Inv(s) && AllSafe(s) && c.ReplaceEntry?
    ensures AllSafe(After(s, c)) <==> Exec(s, c).Err? || IsSettled(s, c.contractId)
  {
    if Exec(s, c).Ok? {
      var i, e' := ReplacePuts(s, c);
      var s', was := After(s, c), s.rates[c.rateId].entries;
      assert s'.rates[c.rateId].entries[i] == e';
      assert Safe(s', e') <==> IsSettled(s, c.contractId);
      forall r, e | r in s'.rates && e in s'.rates[r].entries && e != e'
        ensures Safe(s', e)
      {
        assert r in s.rates && e in s.rates[r].entries;
        SafeStays(s, c, e);
      }
    }
  }

  /** No replace of the run names a contract that is a draft at that time. */
  ghost predicate ReplacesNameNoDraft(s: State, cs: seq<Command>) {
    forall n :: 0 <= n < |cs| && cs[n].ReplaceEntry? && cs[n].contractId in Run(s, cs[..n]).contracts ==>
      IsSettled(Run(s, cs[..n]), cs[n].contractId)
  }

  /** In a run whose replaces name no draft contract, nothing a rate points at ever disappears. */
  lemma {:induction false} SafetyOverRuns(s: State, cs: seq<Command>)
    requires Inv(s) && AllSafe(s) && ReplacesNameNoDraft(s, cs)
    ensures AllSafe(Run(s, cs)) && NoneDangle(Run(s, cs))
  {
    if cs != [] {
      var n := |cs| - 1;
      var front, now := cs[..n], Run(s, cs[..n]);
      assert forall k :: 0 <= k < n ==> front[..k] == cs[..k];
      SafetyOverRuns(s, front);
      EveryRunKeepsInvariant(s, front);
      if cs[n].ReplaceEntry? {
        ReplaceIsSafeIff(now, cs[n]);
      } else {
        OtherStepsKeepSafe(now, cs[n]);
      }
    }
    SafeEntriesDoNotDangle(Run(s, cs));
  }

  /** An entry whose tariff belongs to a draft contract is one removal away from dangling. */
  lemma DraftEntryCanDangle(s: State, r: Id, e: RateEntry)
    requires Inv(s) && r in s.rates && e in s.rates[r].entries
    requires e.tariffId in s.tariffs && !IsSettled(s, s.tariffs[e.tariffId].contractId)
    ensures var s' := After(s, RemoveTariff(s.tariffs[e.tariffId].contractId, e.tariffId));
      r in s'.rates && e in s'.rates[r].entries && e.tariffId !in s'.tariffs
  {
    assert TariffOk(s, e.tariffId);
  }

  ghost predicate NoReplaces(cs: seq<Command>) {
    forall c :: c in cs ==> !c.ReplaceEntry?
  }

  /** The state is safe exactly when no run without replaces can make an entry dangle. */
  lemma {:induction false} SafeIffNothingCanDisappear(s: State)
    requires Inv(s)
    ensures AllSafe(s) <==> forall cs :: NoReplaces(cs) ==> NoneDangle(Run(s, cs))
  {
    if AllSafe(s) {
      forall cs | NoReplaces(cs)
        ensures NoneDangle(Run(s, cs))
      {
        assert forall n :: 0 <= n < |cs| ==> cs[n] in cs;
        SafetyOverRuns(s, cs);
      }
    } else {
      var r, e :| r in s.rates && e in s.rates[r].entries && !Safe(s, e);
      if e.tariffId in s.tariffs {
        var cs := [RemoveTariff(s.tariffs[e.tariffId].contractId, e.tariffId)];
        DraftEntryCanDangle(s, r, e);
        assert cs[..0] == [] && Run(s, []) == s;
        assert NoReplaces(cs) && !NoneDangle(Run(s, cs));
      } else {
        assert Run(s, []) == s && NoReplaces([]);
      }
    }
  }

  // ---------------------------------------------------------------- tariffs of the entry's own contract

  ghost predicate Agrees(s: State, e: RateEntry) {
    e.tariffId in s.tariffs && s.tariffs[e.tariffId].contractId == e.contractId
  }

  /** Every entry points at a tariff of its own contract. */
  ghost predicate AllAgree(s: State) {
    forall r, e :: r in s.rates && e in s.rates[r].entries ==> Agrees(s, e)
  }

  /** Entries belong to contracted contracts, so agreement is more than safety. */
  lemma AgreeingIsSafe(s: State)
    requires Inv(s) && AllAgree(s)
    ensures AllSafe(s)
  {
    forall r, e | r in s.rates && e in s.rates[r].entries
      ensures Safe(s, e)
    {
      assert RateOk(s, s.rates[r]) && Agrees(s, e);
    }
  }

  lemma OtherStepsKeepAgreement(s: State, c: Command)
    requires Inv(s) && AllAgree(s) && !c.ReplaceEntry?
    ensures AllAgree(After(s, c))
  {
    var s' := After(s, c);
    AgreeingIsSafe(s);
    forall r, e | r in s'.rates && e in s'.rates[r].entries
      ensures Agrees(s', e)
    {
      if !(r in s.rates && e in s.rates[r].entries) {
        NewEntriesAreSafe(s, c, r, e);
        NewEntriesAgree(s, c, r, e);
      } else {
        assert Safe(s, e) && Agrees(s, e);
      }
      SettledTariffStays(s, c, e.tariffId);
    }
  }

  lemma NewEntriesAgree(s: State, c: Command, r: Id, e: RateEntry)
    requires Inv(s) && !c.ReplaceEntry? && r in After(s, c).rates && e in After(s, c).rates[r].entries
    requires !(r in s.rates && e in s.rates[r].entries)
    ensures Agrees(s, e)
  {
    if c.ApplyContract? && Exec(s, c).Ok? {
      TargetsDescribe(s, c);
      NewEntriesAreOk(s, c.contractId, Selected(TargetTariffs(s, c).value, IdSet(c.itemFilter)));
      ApplyAdds(s, c);
    } else if c.ActivateRate? && Exec(s, c).Ok? {
      ActivateOnlyActivates(s, c);
    }
  }

  /** The entry that a replace command would change, if there is one. */
  ghost function ReplaceTarget(s: State, c: Command): Option<RateEntry>
    requires c.ReplaceEntry?
  {
    if c.rateId !in s.rates then None
    else
      match IndexOf(s.rates[c.rateId].entries, c.entryId)
      case None => None
      case Some(i) => Some(s.rates[c.rateId].entries[i])
  }

  /** A replace command names the contract that the entry already belongs to. */
  ghost predicate Proper(s: State, c: Command) {
    c.ReplaceEntry? && ReplaceTarget(s, c).Some? ==> ReplaceTarget(s, c).value.contractId == c.contractId
  }

  /** A replace keeps every entry in its own contract exactly when it fails or names the entry's contract. */
  lemma ReplaceAgreesIff(s: State, c: Command)
    requires Inv(s) && AllAgree(s) && c.ReplaceEntry?
    ensures AllAgree(After(s, c)) <==> Exec(s, c).Err? || Proper(s, c)
  {
    if Exec(s, c).Ok? {
      var i, e' := ReplacePuts(s, c);
      var s' := After(s, c);
      assert s'.rates[c.rateId].entries[i] == e';
      assert Agrees(s', e') <==> Proper(s, c);
      forall r, e | r in s'.rates && e in s'.rates[r].entries && e != e'
        ensures Agrees(s', e)
      {
        assert r in s.rates && e in s.rates[r].entries && Agrees(s, e);
      }
    }
  }

  /** Every replace of the run names the contract of the entry it changes. */
  ghost predicate ProperRun(s: State, cs: seq<Command>) {
    forall n :: 0 <= n < |cs| ==> Proper(Run(s, cs[..n]), cs[n])
  }

  lemma {:induction false} AgreementOverRuns(s: State, cs: seq<Command>)
    requires Inv(s) && AllAgree(s) && ProperRun(s, cs)
    ensures AllAgree(Run(s, cs))
  {
    if cs != [] {
      var n := |cs| - 1;
      var front, now := cs[..n], Run(s, cs[..n]);
      assert forall k :: 0 <= k < n ==> front[..k] == cs[..k];
      AgreementOverRuns(s, front);
      EveryRunKeepsInvariant(s, front);
      if cs[n].ReplaceEntry? {
        ReplaceAgreesIff(now, cs[n]);
      } else {
        OtherStepsKeepAgreement(now, cs[n]);
      }
    }
  }

  // ---------------------------------------------------------------- version chains

  /** Version 1 has no base; any later version has one, a version lower, of the same contract and name. */
  ghost predicate ChainOk(s: State, id: Id)
    requires id in s.tariffs
  {
    var t := s.tariffs[id];
    match t.base
    case None => t.version == 1
    case Some(b) =>
      && b in s.tariffs && s.tariffs[b].contractId == t.contractId && s.tariffs[b].name == t.name
      && t.version == s.tariffs[b].version + 1 && t.version > 1
  }

  ghost predicate ChainsOk(s: State) {
    forall t :: t in s.tariffs ==> ChainOk(s, t)
  }

  lemma StoredKeepsChains(s: State, t: Tariff)
    requires IdsInUse(s) && TariffsOk(s) && ChainsOk(s) && t.id == s.nextId
    requires match t.base
      case None => t.version == 1
      case Some(b) => b in s.tariffs && t == NextVersion(t.id, s.tariffs[b], t.effectiveFrom, t.effectiveTo, t.items)
    ensures ChainsOk(Stored(s, t))
  {
    var s' := Stored(s, t);
    assert t.id !in s.tariffs;
    forall k | k in s'.tariffs
      ensures ChainOk(s', k)
    {
      if k != t.id {
        assert ChainOk(s, k);
      } else if t.base.Some? {
        assert ChainOk(s, t.base.value);
      }
    }
  }

  lemma BaseIsItself(s: State, b: Id)
    requires TariffsOk(s) && b in s.tariffs
    ensures s.tariffs[b].id == b
  {
    assert TariffOk(s, b);
  }

  /** The state in which a file's tariff is stored: a new contract may be there, and nothing else. */
  lemma FileContractIsSound(s: State, c: Command)
    requires Inv(s) && c.RegisterFile? && Exec(s, c).Ok?
    ensures var (s', id) := FileContract(s, c).value;
      Inv(s') && s'.tariffs == s.tariffs && After(s, c) == SheetStored(s', id, c.sheet.value).value
  {
    if c.target.None? {
      ContractAdded(s, Contract(c.providerId, c.shipperId, InDraft, c.period.value.0, c.period.value.1));
    }
  }

  lemma FileKeepsChains(s: State, c: Command)
    requires Inv(s) && ChainsOk(s) && c.RegisterFile? && Exec(s, c).Ok?
    ensures ChainsOk(After(s, c))
  {
    FileContractIsSound(s, c);
    var (s', id) := FileContract(s, c).value;
    var sheet := c.sheet.value;
    forall t | t in s'.tariffs
      ensures ChainOk(s', t)
    {
      assert ChainOk(s, t);
    }
    var items := ConvertedItems(sheet.items, s'.nextId + 1).value;
    StoredKeepsChains(s', Tariff(s'.nextId, id, sheet.name, 1, None, sheet.from, sheet.to, items));
  }

  lemma RegisterKeepsChains(s: State, c: Command)
    requires Inv(s) && ChainsOk(s) && c.RegisterTariff? && Exec(s, c).Ok?
    ensures ChainsOk(After(s, c))
  {
    var items := ConvertedItems(c.items, s.nextId + 1).value;
    StoredKeepsChains(s, Tariff(s.nextId, c.contractId, c.name, 1, None, c.from, c.to, items));
  }

  lemma AmendKeepsChains(s: State, c: Command)
    requires Inv(s) && ChainsOk(s) && c.AmendTariff? && Exec(s, c).Ok?
    ensures ChainsOk(After(s, c))
  {
    BaseIsItself(s, c.baseId);
    var items := ConvertedItems(c.items, s.nextId + 1).value;
    StoredKeepsChains(s, NextVersion(s.nextId, s.tariffs[c.baseId], c.from, c.to, items));
  }

  lemma FileVersionKeepsChains(s: State, contractId: Id, baseId: Id, sheet: Option<Sheet<ItemInput>>)
    requires Inv(s) && ChainsOk(s) && FileVersion(s, contractId, baseId, sheet).Ok?
    ensures ChainsOk(Stored(s, FileVersion(s, contractId, baseId, sheet).value))
  {
    BaseIsItself(s, baseId);
    StoredKeepsChains(s, FileVersion(s, contractId, baseId, sheet).value);
  }

  lemma SameTariffsKeepChains(s: State, s': State)
    requires ChainsOk(s) && s'.tariffs == s.tariffs
    ensures ChainsOk(s')
  {
    assert forall t :: t in s.tariffs ==> ChainOk(s, t);
  }

  /** Steps that neither store nor remove tariffs. */
  ghost predicate LeavesTariffs(c: Command) {
    IsRateStep(c) || c.CreateContract? || c.UpdatePeriod? || c.AwardContract? || c.DeleteContract?
  }

  lemma TariffsLeft(s: State, c: Command)
    requires LeavesTariffs(c)
    ensures After(s, c).tariffs == s.tariffs
  {
  }

  /** Only a removal can break a chain. */
  lemma OtherStepsKeepChains(s: State, c: Command)
    requires Inv(s) && ChainsOk(s) && !c.RemoveTariff?
    ensures ChainsOk(After(s, c))
  {
    if LeavesTariffs(c) {
      TariffsLeft(s, c);
      SameTariffsKeepChains(s, After(s, c));
    } else if Exec(s, c).Ok? {
      match c
      case RegisterTariff(_, _, _, _, _) => RegisterKeepsChains(s, c);
      case RegisterFile(_, _, _, _, _, _, _) => FileKeepsChains(s, c);
      case AmendTariff(_, _, _, _, _) => AmendKeepsChains(s, c);
      case AmendFile(_, contractId, baseId, sheet) => FileVersionKeepsChains(s, contractId, baseId, sheet);
      case AddVersion(contractId, baseId, sheet) => FileVersionKeepsChains(s, contractId, baseId, sheet);
    }
  }

  /** A removal keeps all chains exactly when it fails or no tariff is based on the removed one. */
  lemma RemoveKeepsChainsIff(s: State, c: Command)
    requires ChainsOk(s) && c.RemoveTariff?
    ensures ChainsOk(After(s, c)) <==>
      Exec(s, c).Err? || forall t :: t in s.tariffs ==> s.tariffs[t].base != Some(c.tariffId)
  {
    if Exec(s, c).Ok? {
      var s' := After(s, c);
      assert forall t :: t in s.tariffs ==> ChainOk(s, t);
      if t :| t in s.tariffs && s.tariffs[t].base == Some(c.tariffId) {
        assert t != c.tariffId;
        assert t in s'.tariffs && !ChainOk(s', t);
      }
    }
  }

  /** Later versions only in contracts that have left DRAFT. */
  ghost predicate VersionsAreSettled(s: State) {
    forall t :: t in s.tariffs && s.tariffs[t].base.Some? ==> IsSettled(s, s.tariffs[t].contractId)
  }

  lemma SettledVersionStays(s: State, c: Command, t: Id)
    requires Inv(s) && VersionsAreSettled(s) && t in s.tariffs && s.tariffs[t].base.Some?
    ensures t in After(s, c).tariffs && IsSettled(After(s, c), After(s, c).tariffs[t].contractId)
  {
    SettledStays(s, c, s.tariffs[t].contractId);
    SettledTariffStays(s, c, t);
  }

  /** Tariffs are stored by amendments, which the DRAFT guard keeps out, and by steps that start a chain. */
  lemma NewTariffIsSettled(s: State, c: Command, t: Id)
    requires Inv(s) && !c.AddVersion? && t in After(s, c).tariffs && t !in s.tariffs
    ensures After(s, c).tariffs[t].base.Some? ==> IsSettled(After(s, c), After(s, c).tariffs[t].contractId)
  {
    if LeavesTariffs(c) {
      TariffsLeft(s, c);
    } else if c.RegisterFile? {
      FileContractIsSound(s, c);
    }
  }

  lemma OtherStepsKeepVersionsSettled(s: State, c: Command)
    requires Inv(s) && VersionsAreSettled(s) && !c.AddVersion?
    ensures VersionsAreSettled(After(s, c))
  {
    var s' := After(s, c);
    forall t | t in s'.tariffs && s'.tariffs[t].base.Some?
      ensures IsSettled(s', s'.tariffs[t].contractId)
    {
      if t !in s.tariffs {
        NewTariffIsSettled(s, c, t);
      } else {
        StoredTariffStays(s, c, t);
        SettledVersionStays(s, c, t);
      }
    }
  }

  lemma StoredTariffStays(s: State, c: Command, t: Id)
    requires Inv(s) && t in s.tariffs && t in After(s, c).tariffs
    ensures After(s, c).tariffs[t] == s.tariffs[t]
  {
    if LeavesTariffs(c) {
      TariffsLeft(s, c);
    } else if c.RegisterFile? && Exec(s, c).Ok? {
      FileContractIsSound(s, c);
    }
  }

  /** It is the version of a draft contract that breaks this: exactly the successful use of AddTariffVersion. */
  lemma VersionsStaySettledIff(s: State, c: Command)
    requires Inv(s) && VersionsAreSettled(s)
    ensures VersionsAreSettled(After(s, c)) <==> Exec(s, c).Err? || !c.AddVersion?
  {
    if !c.AddVersion? {
      OtherStepsKeepVersionsSettled(s, c);
    } else if Exec(s, c).Ok? {
      var t := After(s, c).tariffs[s.nextId];
      assert t.base.Some? && t.contractId == c.contractId && !IsSettled(After(s, c), c.contractId);
    }
  }

  /** A version in a draft contract is one removal away from a dangling base. */
  lemma DraftVersionCanDangle(s: State, t: Id)
    requires Inv(s) && ChainsOk(s) && t in s.tariffs && s.tariffs[t].base.Some?
    requires !IsSettled(s, s.tariffs[t].contractId)
    ensures var s' := After(s, RemoveTariff(s.tariffs[t].contractId, s.tariffs[t].base.value));
      t in s'.tariffs && s'.tariffs[t] == s.tariffs[t] && s.tariffs[t].base.value !in s'.tariffs
  {
    assert ChainOk(s, t) && TariffOk(s, t);
  }

  /** No use of AddTariffVersion in the run succeeds. */
  ghost predicate AddsNoVersion(s: State, cs: seq<Command>) {
    forall n :: 0 <= n < |cs| && cs[n].AddVersion? ==> Exec(Run(s, cs[..n]), cs[n]).Err?
  }

  /** In a run that adds no version to a draft contract, no version chain dangles. */
  lemma {:induction false} ChainsHoldOverRuns(s: State, cs: seq<Command>)
    requires Inv(s) && ChainsOk(s) && VersionsAreSettled(s) && AddsNoVersion(s, cs)
    ensures ChainsOk(Run(s, cs)) && VersionsAreSettled(Run(s, cs))
  {
    if cs != [] {
      var n := |cs| - 1;
      var front, now := cs[..n], Run(s, cs[..n]);
      assert forall k :: 0 <= k < n ==> front[..k] == cs[..k];
      ChainsHoldOverRuns(s, front);
      EveryRunKeepsInvariant(s, front);
      VersionsStaySettledIff(now, cs[n]);
      SettledStepKeepsChains(now, cs[n]);
    }
  }

  lemma SettledStepKeepsChains(s: State, c: Command)
    requires Inv(s) && ChainsOk(s) && VersionsAreSettled(s)
    ensures ChainsOk(After(s, c))
  {
    if c.RemoveTariff? {
      if Exec(s, c).Ok? {
        RemovalSparesChains(s, c);
      }
      RemoveKeepsChainsIff(s, c);
    } else {
      OtherStepsKeepChains(s, c);
    }
  }

  lemma RemovalSparesChains(s: State, c: Command)
    requires ChainsOk(s) && VersionsAreSettled(s) && c.RemoveTariff? && Exec(s, c).Ok?
    ensures forall t :: t in s.tariffs ==> s.tariffs[t].base != Some(c.tariffId)
  {
    forall t | t in s.tariffs
      ensures s.tariffs[t].base != Some(c.tariffId)
    {
      assert ChainOk(s, t);
    }
  }

  ghost predicate NoVersions(cs: seq<Command>) {
    forall c :: c in cs ==> !c.AddVersion?
  }

  /** All versions are in contracts that have left DRAFT exactly when no run that adds none can break a chain. */
  lemma {:induction false} SettledIffChainsCannotBreak(s: State)
    requires Inv(s) && ChainsOk(s)
    ensures VersionsAreSettled(s) <==> forall cs :: NoVersions(cs) ==> ChainsOk(Run(s, cs))
  {
    if VersionsAreSettled(s) {
      forall cs | NoVersions(cs)
        ensures ChainsOk(Run(s, cs))
      {
        assert forall n :: 0 <= n < |cs| ==> cs[n] in cs;
        ChainsHoldOverRuns(s, cs);
      }
    } else {
      var t :| t in s.tariffs && s.tariffs[t].base.Some? && !IsSettled(s, s.tariffs[t].contractId);
      var cs := [RemoveTariff(s.tariffs[t].contractId, s.tariffs[t].base.value)];
      DraftVersionCanDangle(s, t);
      assert cs[..0] == [] && Run(s, []) == s;
      assert NoVersions(cs) && !ChainOk(Run(s, cs), t);
    }
  }

  /** No version is added from an empty sheet, the only kind of sheet that AddTariffVersion lets through. */
  ghost predicate NoEmptyVersions(cs: seq<Command>) {
    forall c :: c in cs && c.AddVersion? && c.sheet.Some? ==> c.sheet.value.items != []
  }

  /** Without versions from empty sheets, no version chain dangles in any run from empty stores. */
  lemma {:induction false} ChainsHoldFromStart(cs: seq<Command>)
    requires NoEmptyVersions(cs)
    ensures ChainsOk(Run(INITIAL, cs)) && VersionsAreSettled(Run(INITIAL, cs))
  {
    forall n | 0 <= n < |cs| && cs[n].AddVersion?
      ensures Exec(Run(INITIAL, cs[..n]), cs[n]).Err?
    {
      assert cs[n] in cs;
    }
    ChainsHoldOverRuns(INITIAL, cs);
  }

  // ---------------------------------------------------------------- tariffs without items

  ghost predicate AllHaveItems(s: State) {
    forall t :: t in s.tariffs ==> s.tariffs[t].items != []
  }

  ghost predicate FromEmptySheet(c: Command) {
    (c.RegisterFile? || c.AmendFile? || c.AddVersion?) && c.sheet.Some? && c.sheet.value.items == []
  }

  lemma StoredItems(s: State, t: Tariff)
    requires IdsInUse(s) && AllHaveItems(s) && t.id == s.nextId
    ensures AllHaveItems(Stored(s, t)) <==> t.items != []
  {
    assert t.id in Stored(s, t).tariffs && t.id !in s.tariffs;
  }

  lemma FileHasItemsIff(s: State, c: Command)
    requires Inv(s) && AllHaveItems(s) && c.RegisterFile? && Exec(s, c).Ok?
    ensures AllHaveItems(After(s, c)) <==> c.sheet.value.items != []
  {
    FileContractIsSound(s, c);
    var (s', id) := FileContract(s, c).value;
    var sheet := c.sheet.value;
    ConvertedItemsHaveIds(sheet.items, s'.nextId + 1);
    var items := ConvertedItems(sheet.items, s'.nextId + 1).value;
    StoredItems(s', Tariff(s'.nextId, id, sheet.name, 1, None, sheet.from, sheet.to, items));
  }

  lemma DirectHasItems(s: State, c: Command)
    requires Inv(s) && AllHaveItems(s) && (c.RegisterTariff? || c.AmendTariff?) && Exec(s, c).Ok?
    ensures AllHaveItems(After(s, c))
  {
    ConvertedItemsHaveIds(c.items, s.nextId + 1);
    var items := ConvertedItems(c.items, s.nextId + 1).value;
    StoredItems(s,
      if c.RegisterTariff? then Tariff(s.nextId, c.contractId, c.name, 1, None, c.from, c.to, items)
      else NextVersion(s.nextId, s.tariffs[c.baseId], c.from, c.to, items));
  }

  lemma VersionHasNoItems(s: State, c: Command)
    requires Inv(s) && AllHaveItems(s) && (c.AmendFile? || c.AddVersion?) && Exec(s, c).Ok?
    ensures !AllHaveItems(After(s, c)) && FromEmptySheet(c)
  {
    StoredItems(s, FileVersion(s, c.contractId, c.baseId, c.sheet).value);
  }

  /** A step stores a tariff without line items exactly when it succeeds on an empty sheet. */
  lemma StoredHasItemsIff(s: State, c: Command)
    requires Inv(s) && AllHaveItems(s)
    ensures AllHaveItems(After(s, c)) <==> Exec(s, c).Err? || !FromEmptySheet(c)
  {
    if Exec(s, c).Ok? {
      if c.RegisterTariff? || c.AmendTariff? {
        DirectHasItems(s, c);
      } else if c.AmendFile? || c.AddVersion? {
        VersionHasNoItems(s, c);
      } else if c.RegisterFile? {
        FileHasItemsIff(s, c);
      }
    }
  }

  /** A tariff without line items can only come from an empty sheet. */
  lemma {:induction false} ItemsOverRuns(cs: seq<Command>)
    requires forall c :: c in cs ==> !FromEmptySheet(c)
    ensures AllHaveItems(Run(INITIAL, cs))
  {
    if cs != [] {
      var n := |cs| - 1;
      assert cs[n] in cs;
      ItemsOverRuns(cs[..n]);
      ReachableStatesAreSound(cs[..n]);
      StoredHasItemsIff(Run(INITIAL, cs[..n]), cs[n]);
    }
  }
}
