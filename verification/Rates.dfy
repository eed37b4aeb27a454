/** Shipper rates: entries that project tariff line items, and the lifecycle of a rate. */
module Rates {
  import opened Pricing
  import opened Shared

  // ---------------------------------------------------------------- entries

  /** None means "any". */
  datatype RouteScope = RouteScope(
    origin: Option<LocationId>, destination: Option<LocationId>, mode: Option<string>)
  {
    predicate Matches(seg: Segment) {
      && (origin.Some? ==> origin.value == seg.origin)
      && (destination.Some? ==> destination.value == seg.dest)
      && (mode.Some? ==> mode.value == seg.mode)
    }
  }

  datatype RateEntry = RateEntry(
    id: Id, providerId: Id, contractId: Id, tariffId: Id, lineItemId: Id,
    scope: RouteScope, chargeCode: string, category: string, unitPrice: Money)

  /** What a tariff line item offers to rates: a route for transport, a unit price for flat pricing. */
  datatype RateableLineItem = RateableLineItem(
    lineItemId: Id, tariffId: Id, chargeCode: string, category: string,
    route: RouteScope, unitPrice: Option<Money>)

  const ANY_ROUTE := RouteScope(None, None, None)

  function RateableOf(tariffId: Id, item: LineItem): RateableLineItem {
    RateableLineItem(
      item.id, tariffId, item.chargeCode, item.category,
      match item.scope {
        case TransportationService(o, d, m) => RouteScope(Some(o), Some(d), Some(m))
        case LocationService(_, _) => ANY_ROUTE
      },
      if item.logic.Flat? then Some(item.logic.amount) else None)
  }

  /** ExtractRateableItems. */
  method ExtractRateableItems(t: Tariff) returns (items: seq<RateableLineItem>)
    ensures |items| == |t.items|
    ensures forall i :: 0 <= i < |items| ==> items[i] == RateableOf(t.id, t.items[i])
  {
    items := [];
    for i := 0 to |t.items|
      invariant |items| == i
      invariant forall j :: 0 <= j < i ==> items[j] == RateableOf(t.id, t.items[j])
    {
      var li := t.items[i];
      var route, price := ANY_ROUTE, None;
      if li.scope.TransportationService? {
        route := RouteScope(Some(li.scope.origin), Some(li.scope.destination), Some(li.scope.mode));
      }
      if li.logic.Flat? {
        price := Some(li.logic.amount);
      }
      items := items + [RateableLineItem(li.id, t.id, li.chargeCode, li.category, route, price)];
    }
  }

  /** The unit price shown for an entry; zero USD unless the item has flat pricing. */
  function ShownPrice(item: RateableLineItem): Money {
    if item.unitPrice.Some? then item.unitPrice.value else ZeroMoney("USD")
  }

  /** The fields of `e` that are copied from a line item are those of `item` in tariff `tariffId`, the price apart. */
  ghost predicate Projects(e: RateEntry, tariffId: Id, item: LineItem) {
    && e.tariffId == tariffId && e.lineItemId == item.id && e.scope == RateableOf(tariffId, item).route
    && e.chargeCode == item.chargeCode && e.category == item.category
  }

  // ---------------------------------------------------------------- lifecycle

  datatype RateStatus = Draft | Active | Expired

  datatype RateState = RateState(status: RateStatus, entries: seq<RateEntry>)

  datatype RateError =
    | RateNotDraft | RateNotActive | NoEntries | EntryNotFound
    | TariffIdRequired | LineItemIdRequired | ChargeCodeRequired

  datatype Replacement = Replacement(
    tariffId: Id, lineItemId: Id, scope: RouteScope, chargeCode: string, category: string, unitPrice: Money)

  /** The position of the first entry with the given ID. */
  function IndexOf(entries: seq<RateEntry>, id: Id): Option<nat> {
    FirstIndex(entries, (e: RateEntry) => e.id == id)
  }

  function EntryError(e: RateEntry): Option<RateError> {
    if e.tariffId == NIL then Some(TariffIdRequired)
    else if e.lineItemId == NIL then Some(LineItemIdRequired)
    else if e.chargeCode == "" then Some(ChargeCodeRequired)
    else None
  }

  /** An entry without an ID gets the fresh one. */
  function Added(s: RateState, e: RateEntry, freshId: Id): Result<RateState, RateError> {
    if !s.status.Draft? then Err(RateNotDraft)
    else if EntryError(e).Some? then Err(EntryError(e).value)
    else Ok(s.(entries := s.entries + [if e.id == NIL then e.(id := freshId) else e]))
  }

  function Removed(s: RateState, id: Id): Result<RateState, RateError> {
    if !s.status.Draft? then Err(RateNotDraft)
    else
      match IndexOf(s.entries, id)
      case None => Err(EntryNotFound)
      case Some(i) => Ok(s.(entries := s.entries[..i] + s.entries[i + 1..]))
  }

  function Activated(s: RateState): Result<RateState, RateError> {
    if !s.status.Draft? then Err(RateNotDraft)
    else if s.entries == [] then Err(NoEntries)
    else Ok(s.(status := Active))
  }

  function ReplacedEntry(e: RateEntry, r: Replacement): RateEntry {
    e.(tariffId := r.tariffId, lineItemId := r.lineItemId, scope := r.scope,
       chargeCode := r.chargeCode, category := r.category, unitPrice := r.unitPrice)
  }

  function Replaced(s: RateState, id: Id, r: Replacement): Result<RateState, RateError> {
    if !s.status.Draft? then Err(RateNotDraft)
    else if r.tariffId == NIL then Err(TariffIdRequired)
    else if r.lineItemId == NIL then Err(LineItemIdRequired)
    else
      match IndexOf(s.entries, id)
      case None => Err(EntryNotFound)
      case Some(i) => Ok(s.(entries := s.entries[i := ReplacedEntry(s.entries[i], r)]))
  }

  /** `now` and `error` are what a step that yields `expected` from `was` leaves behind. */
  ghost predicate Follows(
    was: RateState, now: RateState, error: Option<RateError>, expected: Result<RateState, RateError>)
  {
    match expected
    case Ok(s) => error.None? && now == s
    case Err(e) => error == Some(e) && now == was
  }

  class Rate {
    const id: Id
    var status: RateStatus
    var entries: seq<RateEntry>

    ghost function State(): RateState
      reads this
    {
      RateState(status, entries)
    }

    /** ReconstructRate: a rate as loaded from its store; a new rate is a draft without entries. */
    constructor (id: Id, state: RateState)
      ensures this.id == id && State() == state
    {
      this.id := id;
      status := state.status;
      entries := state.entries;
    }

    method AddEntry(e: RateEntry, freshId: Id) returns (error: Option<RateError>)
      modifies this
      ensures Follows(old(State()), State(), error, Added(old(State()), e, freshId))
    {
      if status != Draft {
        return Some(RateNotDraft);
      }
      error := EntryError(e);
      if error.None? {
        var added := e;
        if added.id == NIL {
          added := added.(id := freshId);
        }
        entries := entries + [added];
      }
    }

    method RemoveEntry(entryId: Id) returns (error: Option<RateError>)
      modifies this
      ensures Follows(old(State()), State(), error, Removed(old(State()), entryId))
    {
      if status != Draft {
        return Some(RateNotDraft);
      }
      for i := 0 to |entries|
        invariant State() == old(State())
        invariant forall j :: 0 <= j < i ==> entries[j].id != entryId
      {
        if entries[i].id == entryId {
          assert IndexOf(entries, entryId) == Some(i);
          entries := entries[..i] + entries[i + 1..];
          return None;
        }
      }
      return Some(EntryNotFound);
    }

    method Activate() returns (error: Option<RateError>)
      modifies this
      ensures Follows(old(State()), State(), error, Activated(old(State())))
    {
      if status != Draft {
        return Some(RateNotDraft);
      }
      if |entries| == 0 {
        return Some(NoEntries);
      }
      status := Active;
      return None;
    }

    method MarkAsExpired() returns (error: Option<RateError>)
      modifies this
      ensures entries == old(entries)
      ensures if old(status) == Active then error.None? && status == Expired
        else error == Some(RateNotActive) && status == old(status)
    {
      if status != Active {
        return Some(RateNotActive);
      }
      status := Expired;
      return None;
    }

    method ReplaceEntryLineItem(entryId: Id, r: Replacement) returns (error: Option<RateError>)
      modifies this
      ensures Follows(old(State()), State(), error, Replaced(old(State()), entryId, r))
    {
      if status != Draft {
        return Some(RateNotDraft);
      }
      if r.tariffId == NIL {
        return Some(TariffIdRequired);
      }
      if r.lineItemId == NIL {
        return Some(LineItemIdRequired);
      }
      for i := 0 to |entries|
        invariant State() == old(State())
        invariant forall j :: 0 <= j < i ==> entries[j].id != entryId
      {
        if entries[i].id == entryId {
          assert IndexOf(entries, entryId) == Some(i);
          entries := entries[i := ReplacedEntry(entries[i], r)];
          return None;
        }
      }
      return Some(EntryNotFound);
    }

    method FindEntriesForRoute(seg: Segment) returns (matched: seq<RateEntry>)
      ensures matched == Matching(entries, seg)
    {
      matched := [];
      for i := 0 to |entries|
        invariant matched == Matching(entries[..i], seg)
      {
        assert entries[..i + 1][..i] == entries[..i];
        if entries[i].scope.Matches(seg) {
          matched := matched + [entries[i]];
        }
      }
      assert entries[..|entries|] == entries;
    }
  }

  /** The entries whose scope matches a segment, in entry order. */
  ghost function Matching(entries: seq<RateEntry>, seg: Segment): seq<RateEntry> {
    if entries == [] then []
    else
      Matching(entries[..|entries| - 1], seg)
      + if entries[|entries| - 1].scope.Matches(seg) then [entries[|entries| - 1]] else []
  }

  /** An item that is not flat has no unit price and is shown with zero dollars; a flat one with its own price. */
  lemma ShownPriceIs(tariffId: Id, item: LineItem)
    ensures item.logic.Flat? ==> ShownPrice(RateableOf(tariffId, item)) == item.logic.amount
    ensures !item.logic.Flat? ==> ShownPrice(RateableOf(tariffId, item)) == Money(0.0, "USD")
  {
  }

  /** What each edit of a rate asks for: a draft, and what is missing otherwise is named in this order. */
  lemma EditsSucceedIff(s: RateState, e: RateEntry, freshId: Id, id: Id, r: Replacement)
    ensures Added(s, e, freshId).Ok? <==>
      s.status == Draft && e.tariffId != NIL && e.lineItemId != NIL && e.chargeCode != ""
    ensures Removed(s, id).Ok? <==> s.status == Draft && exists x :: x in s.entries && x.id == id
    ensures Replaced(s, id, r).Ok? <==>
      s.status == Draft && r.tariffId != NIL && r.lineItemId != NIL && exists x :: x in s.entries && x.id == id
    ensures Activated(s).Ok? <==> s.status == Draft && s.entries != []
  {
    var i := IndexOf(s.entries, id);
    if i.Some? {
      assert s.entries[i.value] in s.entries;
    }
  }

  /** Which refusal it is. */
  lemma EditRefusedIff(s: RateState, e: RateEntry, freshId: Id, id: Id, r: Replacement)
    ensures s.status != Draft <==> Added(s, e, freshId) == Err(RateNotDraft)
    ensures s.status != Draft <==> Removed(s, id) == Err(RateNotDraft)
    ensures s.status != Draft <==> Replaced(s, id, r) == Err(RateNotDraft)
    ensures s.status != Draft <==> Activated(s) == Err(RateNotDraft)
    ensures s.status == Draft && e.tariffId == NIL <==> Added(s, e, freshId) == Err(TariffIdRequired)
    ensures s.status == Draft && e.tariffId != NIL && e.lineItemId == NIL
      <==> Added(s, e, freshId) == Err(LineItemIdRequired)
    ensures s.status == Draft && e.tariffId != NIL && e.lineItemId != NIL && e.chargeCode == ""
      <==> Added(s, e, freshId) == Err(ChargeCodeRequired)
    ensures s.status == Draft && r.tariffId == NIL <==> Replaced(s, id, r) == Err(TariffIdRequired)
    ensures s.status == Draft && r.tariffId != NIL && r.lineItemId == NIL
      <==> Replaced(s, id, r) == Err(LineItemIdRequired)
  {
  }

  /** An added entry comes last, as it was given; it keeps an ID that it has, and else gets the fresh one. */
  lemma AddedIsLast(s: RateState, e: RateEntry, freshId: Id)
    requires Added(s, e, freshId).Ok?
    ensures var now := Added(s, e, freshId).value;
      && now.status == s.status && |now.entries| == |s.entries| + 1 && s.entries <= now.entries
      && var last := now.entries[|s.entries|];
      && last == e.(id := last.id) && (e.id != NIL ==> last.id == e.id) && (e.id == NIL ==> last.id == freshId)
  {
  }

  /** A removal takes out exactly the entry with the ID, if IDs are distinct, and keeps the order of the others. */
  lemma RemovedIsWithout(s: RateState, id: Id)
    requires Removed(s, id).Ok? && forall i, j :: 0 <= i < j < |s.entries| ==> s.entries[i].id != s.entries[j].id
    ensures exists front, e, back ::
      s.entries == front + [e] + back && e.id == id && Removed(s, id).value == s.(entries := front + back)
    ensures forall x :: x in Removed(s, id).value.entries <==> x in s.entries && x.id != id
  {
    var i := IndexOf(s.entries, id).value;
    var front, back := s.entries[..i], s.entries[i + 1..];
    assert s.entries == front + [s.entries[i]] + back;
  }
}
