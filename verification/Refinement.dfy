/**
 Simulating a rate whose entries project stored line items is the same as pricing those line
 items directly: the segment-wise form applies exactly the applicable items, once each.
 */
module Refinement {
  import opened Conservation
  import opened Permutations
  import opened Pricing
  import opened Rates
  import opened Shared
  import opened Simulation
  import opened Totals

  // ---------------------------------------------------------------- entries and their line items

  ghost predicate DistinctItems(items: seq<LineItem>) {
    forall i, j :: 0 <= i < j < |items| ==> items[i].id != items[j].id
  }

  ghost predicate DistinctEntries(entries: seq<RateEntry>) {
    forall i, j :: 0 <= i < j < |entries| ==> entries[i].id != entries[j].id
  }

  /** The entry points at a stored line item and copies its data; the price it shows plays no part. */
  ghost predicate IsProjection(e: RateEntry, tariffs: map<Id, Tariff>) {
    && e.tariffId in tariffs
    && DistinctItems(tariffs[e.tariffId].items)
    && exists item :: item in tariffs[e.tariffId].items && Projects(e, e.tariffId, item)
  }

  ghost function ItemOf(e: RateEntry, tariffs: map<Id, Tariff>): (item: LineItem)
    requires IsProjection(e, tariffs)
    ensures item in tariffs[e.tariffId].items && Projects(e, e.tariffId, item)
  {
    var item :| item in tariffs[e.tariffId].items && Projects(e, e.tariffId, item);
    item
  }

  ghost predicate AreProjections(entries: seq<RateEntry>, tariffs: map<Id, Tariff>) {
    forall e :: e in entries ==> IsProjection(e, tariffs)
  }

  ghost predicate MatchesSome(e: RateEntry, route: Route) {
    exists n :: 0 <= n < |route| && e.scope.Matches(route[n])
  }

  /**
   A transport entry matches some segment iff its item applies to the whole route; a location
   entry matches every segment, whether or not its item applies.
   */
  lemma MatchingIsApplicability(e: RateEntry, item: LineItem, route: Route)
    requires Projects(e, e.tariffId, item)
    ensures item.scope.TransportationService? ==> (MatchesSome(e, route) <==> item.scope.IsApplicable(route))
    ensures item.scope.LocationService? ==> forall n :: 0 <= n < |route| ==> e.scope.Matches(route[n])
    ensures item.scope.LocationService? ==> (MatchesSome(e, route) <==> route != [])
    ensures item.scope.IsApplicable(route) ==> MatchesSome(e, route)
  {
    if item.scope.TransportationService? {
      forall n | 0 <= n < |route|
        ensures e.scope.Matches(route[n]) <==>
          route[n] == Segment(item.scope.origin, item.scope.destination, item.scope.mode)
      {
      }
    } else if route != [] {
      assert e.scope.Matches(route[0]);
    }
  }

  // ---------------------------------------------------------------- picking one item's result

  lemma FindAppliedAppend(a: seq<AppliedItem>, x: AppliedItem, id: Id)
    ensures FindApplied(a + [x], id)
      == if FindApplied(a, id).Some? then FindApplied(a, id) else if x.lineItemId == id then Some(x) else None
  {
    assert (a + [x])[..|a|] == a;
  }

  lemma FindSkippedAppend(a: seq<SkippedItem>, x: SkippedItem, id: Id)
    ensures FindSkipped(a + [x], id)
      == if FindSkipped(a, id).Some? then FindSkipped(a, id) else if x.lineItemId == id then Some(x) else None
  {
    assert (a + [x])[..|a|] == a;
  }

  ghost predicate Applies(item: LineItem, ctx: ShipmentContext, eng: Engine) {
    item.scope.IsApplicable(ctx.route) && Evaluate(item.logic, ctx, eng).Ok?
  }

  ghost function AppliedFrom(item: LineItem, ctx: ShipmentContext, eng: Engine): AppliedItem
    requires Applies(item, ctx, eng)
  {
    AppliedItem(item.id, item.chargeCode, item.category, Evaluate(item.logic, ctx, eng).value)
  }

  lemma AppliedStep(items: seq<LineItem>, item: LineItem, ctx: ShipmentContext, eng: Engine)
    ensures Applied(items + [item], ctx, eng)
      == if Applies(item, ctx, eng) then Applied(items, ctx, eng) + [AppliedFrom(item, ctx, eng)]
         else Applied(items, ctx, eng)
    ensures Skipped(items + [item], ctx)
      == if item.scope.IsApplicable(ctx.route) then Skipped(items, ctx)
         else Skipped(items, ctx) + [SkippedItem(item.id, item.chargeCode, item.category)]
  {
    assert (items + [item])[..|items|] == items;
  }

  lemma {:induction false} AbsentItem(items: seq<LineItem>, id: Id, ctx: ShipmentContext, eng: Engine)
    requires forall i :: 0 <= i < |items| ==> items[i].id != id
    ensures FindApplied(Applied(items, ctx, eng), id).None? && FindSkipped(Skipped(items, ctx), id).None?
  {
    if items != [] {
      var front, last := items[..|items| - 1], items[|items| - 1];
      assert items == front + [last];
      AbsentItem(front, id, ctx, eng);
      AppliedStep(front, last, ctx, eng);
      FindOne(front, last, id, ctx, eng);
    }
  }

  lemma FindOne(front: seq<LineItem>, last: LineItem, id: Id, ctx: ShipmentContext, eng: Engine)
    ensures Applies(last, ctx, eng) ==>
      FindApplied(Applied(front, ctx, eng) + [AppliedFrom(last, ctx, eng)], id)
      == if FindApplied(Applied(front, ctx, eng), id).Some? then FindApplied(Applied(front, ctx, eng), id)
         else if last.id == id then Some(AppliedFrom(last, ctx, eng)) else None
    ensures FindSkipped(Skipped(front, ctx) + [SkippedItem(last.id, last.chargeCode, last.category)], id)
      == if FindSkipped(Skipped(front, ctx), id).Some? then FindSkipped(Skipped(front, ctx), id)
         else if last.id == id then Some(SkippedItem(last.id, last.chargeCode, last.category)) else None
  {
    if Applies(last, ctx, eng) {
      FindAppliedAppend(Applied(front, ctx, eng), AppliedFrom(last, ctx, eng), id);
    }
    FindSkippedAppend(Skipped(front, ctx), SkippedItem(last.id, last.chargeCode, last.category), id);
  }

  /** An item's ID leads to that item's own result. */
  ghost predicate LeadsToOwnResult(items: seq<LineItem>, item: LineItem, ctx: ShipmentContext, eng: Engine) {
    && FindApplied(Applied(items, ctx, eng), item.id)
       == (if Applies(item, ctx, eng) then Some(AppliedFrom(item, ctx, eng)) else None)
    && FindSkipped(Skipped(items, ctx), item.id)
       == if item.scope.IsApplicable(ctx.route) then None
          else Some(SkippedItem(item.id, item.chargeCode, item.category))
  }

  lemma LastItem(front: seq<LineItem>, item: LineItem, ctx: ShipmentContext, eng: Engine)
    requires (forall i :: 0 <= i < |front| ==> front[i].id != item.id) && !Fails(item, ctx, eng)
    ensures LeadsToOwnResult(front + [item], item, ctx, eng)
  {
    AbsentItem(front, item.id, ctx, eng);
    AppliedStep(front, item, ctx, eng);
    FindOne(front, item, item.id, ctx, eng);
  }

  lemma EarlierItem(front: seq<LineItem>, last: LineItem, item: LineItem, ctx: ShipmentContext, eng: Engine)
    requires LeadsToOwnResult(front, item, ctx, eng) && last.id != item.id
    ensures LeadsToOwnResult(front + [last], item, ctx, eng)
  {
    AppliedStep(front, last, ctx, eng);
    FindOne(front, last, item.id, ctx, eng);
  }

  /** In the result of a whole-tariff pass, an item's ID leads to that item's own result. */
  lemma {:induction false} PresentItem(items: seq<LineItem>, item: LineItem, ctx: ShipmentContext, eng: Engine)
    requires DistinctItems(items) && item in items && !Fails(item, ctx, eng)
    ensures LeadsToOwnResult(items, item, ctx, eng)
  {
    var n := |items| - 1;
    var k :| 0 <= k < |items| && items[k] == item;
    if k == n {
      LastItem(items[..n], item, ctx, eng);
    } else {
      assert items[..n][k] == item;
      PresentItem(items[..n], item, ctx, eng);
      EarlierItem(items[..n], items[n], item, ctx, eng);
    }
    assert items == items[..n] + [items[n]];
  }

  // ---------------------------------------------------------------- direct pricing

  /** The entry's tariff cannot be calculated for this job: bad cargo, or an applicable item without a price. */
  ghost predicate CannotPrice(e: RateEntry, job: Job, eng: Engine)
    requires e.tariffId in job.tariffs
  {
    !RequestOf(job).summary.Valid() || AnyFails(job.tariffs[e.tariffId].items, ContextOf(job), eng)
  }

  /** The charge that pricing the entry's line item directly gives, if it applies. */
  ghost function DirectCharge(e: RateEntry, job: Job, eng: Engine): seq<SimulatedCharge>
    requires IsProjection(e, job.tariffs)
  {
    var item := ItemOf(e, job.tariffs);
    if Applies(item, ContextOf(job), eng) then
      [SimulatedCharge(e.id, item.chargeCode, item.category, e.providerId,
         Evaluate(item.logic, ContextOf(job), eng).value)]
    else []
  }

  /** Only location items are ever reported as skipped. */
  ghost function DirectSkip(e: RateEntry, job: Job): seq<SimulatedSkipped>
    requires IsProjection(e, job.tariffs)
  {
    var item := ItemOf(e, job.tariffs);
    if item.scope.LocationService? && job.route != [] && !item.scope.IsApplicable(job.route) then
      [SimulatedSkipped(e.id, item.chargeCode, item.category)]
    else []
  }

  ghost function DirectCharges(es: seq<RateEntry>, job: Job, eng: Engine): seq<SimulatedCharge>
    requires AreProjections(es, job.tariffs)
  {
    if es == [] then []
    else DirectCharges(es[..|es| - 1], job, eng) + DirectCharge(es[|es| - 1], job, eng)
  }

  ghost function DirectSkips(es: seq<RateEntry>, job: Job): seq<SimulatedSkipped>
    requires AreProjections(es, job.tariffs)
  {
    if es == [] then []
    else DirectSkips(es[..|es| - 1], job) + DirectSkip(es[|es| - 1], job)
  }

  /** The calculator fails for a projected entry exactly when its tariff cannot be priced, never for a missing item. */
  lemma PriceOfProjection(e: RateEntry, job: Job, eng: Engine)
    requires IsProjection(e, job.tariffs)
    ensures PriceOf(job, e, eng).Err? <==> CannotPrice(e, job, eng)
    ensures PriceOf(job, e, eng).Err? ==> PriceOf(job, e, eng).error in {InvalidCargo, CalculationFailed}
    ensures PriceOf(job, e, eng).Ok? ==>
      var item, r := ItemOf(e, job.tariffs), PriceOf(job, e, eng).value;
      && r.chargeCode == item.chargeCode && r.category == item.category
      && (r.skipped <==> !item.scope.IsApplicable(job.route)) && (r.skipped ==> r.amount == Money(0.0, "USD"))
      && (!r.skipped ==> Evaluate(item.logic, ContextOf(job), eng) == Ok(r.amount))
  {
    var items, item := job.tariffs[e.tariffId].items, ItemOf(e, job.tariffs);
    if !CannotPrice(e, job, eng) {
      assert !Fails(item, ContextOf(job), eng);
      PresentItem(items, item, ContextOf(job), eng);
    }
  }

  // ---------------------------------------------------------------- which segment takes an entry

  /** Segment `n` is the first that the entry matches. */
  ghost predicate FirstMatches(e: RateEntry, route: Route, n: nat)
    requires n < |route|
  {
    e.scope.Matches(route[n]) && forall k :: 0 <= k < n ==> !e.scope.Matches(route[k])
  }

  ghost predicate MatchesBefore(e: RateEntry, route: Route, n: nat)
    requires n <= |route|
  {
    exists k :: 0 <= k < n && e.scope.Matches(route[k])
  }

  ghost function TakenBy(entries: seq<RateEntry>, route: Route, n: nat): seq<RateEntry>
    requires n < |route|
  {
    if entries == [] then []
    else
      var last := entries[|entries| - 1];
      TakenBy(entries[..|entries| - 1], route, n) + if FirstMatches(last, route, n) then [last] else []
  }

  ghost function TakenBefore(entries: seq<RateEntry>, route: Route, n: nat): seq<RateEntry>
    requires n <= |route|
  {
    if entries == [] then []
    else
      var last := entries[|entries| - 1];
      TakenBefore(entries[..|entries| - 1], route, n) + if MatchesBefore(last, route, n) then [last] else []
  }

  lemma {:induction false} MatchingMembers(entries: seq<RateEntry>, seg: Segment)
    ensures forall e :: e in Matching(entries, seg) <==> e in entries && e.scope.Matches(seg)
  {
    if entries != [] {
      MatchingMembers(entries[..|entries| - 1], seg);
      assert entries == entries[..|entries| - 1] + [entries[|entries| - 1]];
    }
  }

  lemma SameIdSameEntry(entries: seq<RateEntry>, a: RateEntry, b: RateEntry)
    requires DistinctEntries(entries) && a in entries && b in entries && a.id == b.id
    ensures a == b
  {
    var i :| 0 <= i < |entries| && entries[i] == a;
    var j :| 0 <= j < |entries| && entries[j] == b;
  }

  lemma IdInMatching(entries: seq<RateEntry>, e: RateEntry, seg: Segment)
    requires DistinctEntries(entries) && e in entries
    ensures e.id in Ids(Matching(entries, seg)) <==> e.scope.Matches(seg)
  {
    MatchingMembers(entries, seg);
    if e.id in Ids(Matching(entries, seg)) {
      var other :| other in Matching(entries, seg) && other.id == e.id;
      SameIdSameEntry(entries, e, other);
    }
  }

  /** The ID is borne by an entry that matches segment `k`. */
  ghost predicate SeenIn(entries: seq<RateEntry>, id: Id, route: Route, k: nat)
    requires k < |route|
  {
    id in Ids(Matching(entries, route[k]))
  }

  lemma SeenStep(entries: seq<RateEntry>, id: Id, route: Route, n: nat)
    requires n < |route|
    ensures id in SeenBefore(entries, route, n + 1) <==>
      id in SeenBefore(entries, route, n) || SeenIn(entries, id, route, n)
  {
  }

  lemma {:induction false} SeenEarlier(entries: seq<RateEntry>, id: Id, route: Route, n: nat) returns (k: nat)
    requires n <= |route| && id in SeenBefore(entries, route, n)
    ensures k < n && SeenIn(entries, id, route, k)
    decreases n
  {
    SeenStep(entries, id, route, n - 1);
    if SeenIn(entries, id, route, n - 1) {
      k := n - 1;
    } else {
      k := SeenEarlier(entries, id, route, n - 1);
    }
  }

  lemma {:induction false} SeenGrows(entries: seq<RateEntry>, route: Route, k: nat, n: nat)
    requires k <= n <= |route|
    ensures SeenBefore(entries, route, k) <= SeenBefore(entries, route, n)
    decreases n
  {
    if k < n {
      SeenGrows(entries, route, k, n - 1);
    }
  }

  /** With distinct IDs, an entry's ID has been seen iff the entry itself matched an earlier segment. */
  lemma {:induction false} SeenIffMatched(entries: seq<RateEntry>, e: RateEntry, route: Route, n: nat)
    requires DistinctEntries(entries) && e in entries && n <= |route|
    ensures e.id in SeenBefore(entries, route, n) <==> MatchesBefore(e, route, n)
  {
    if e.id in SeenBefore(entries, route, n) {
      var k := SeenEarlier(entries, e.id, route, n);
      IdInMatching(entries, e, route[k]);
    }
    if MatchesBefore(e, route, n) {
      var k :| 0 <= k < n && e.scope.Matches(route[k]);
      IdInMatching(entries, e, route[k]);
      SeenStep(entries, e.id, route, k);
      SeenGrows(entries, route, k + 1, n);
    }
  }

  lemma NotAmongEarlier(entries: seq<RateEntry>, m: nat, seg: Segment)
    requires DistinctEntries(entries) && m < |entries|
    ensures entries[m].id !in Ids(Matching(entries[..m], seg))
  {
    MatchingMembers(entries[..m], seg);
  }

  lemma UnseenOfMore(ms: seq<RateEntry>, last: RateEntry, seen: set<Id>)
    requires last.id !in Ids(ms)
    ensures Unseen(ms + [last], seen) == Unseen(ms, seen) + if last.id in seen then [] else [last]
  {
    assert (ms + [last])[..|ms|] == ms;
  }

  lemma {:induction false} UnseenIsTaken(entries: seq<RateEntry>, m: nat, route: Route, n: nat)
    requires DistinctEntries(entries) && m <= |entries| && n < |route|
    ensures Unseen(Matching(entries[..m], route[n]), SeenBefore(entries, route, n)) == TakenBy(entries[..m], route, n)
    decreases m
  {
    if m > 0 {
      var last := entries[m - 1];
      assert entries[..m][..m - 1] == entries[..m - 1];
      UnseenIsTaken(entries, m - 1, route, n);
      SeenIffMatched(entries, last, route, n);
      NotAmongEarlier(entries, m - 1, route[n]);
      var seen, ms := SeenBefore(entries, route, n), Matching(entries[..m - 1], route[n]);
      if last.scope.Matches(route[n]) {
        UnseenOfMore(ms, last, seen);
        assert Matching(entries[..m], route[n]) == ms + [last];
      } else {
        assert Matching(entries[..m], route[n]) == ms;
      }
    }
  }

  /** With distinct IDs, each segment processes exactly the entries that match it first, in entry order. */
  lemma ClaimedIsTaken(entries: seq<RateEntry>, route: Route, n: nat)
    requires DistinctEntries(entries) && n < |route|
    ensures Claimed(entries, route, n) == TakenBy(entries, route, n)
  {
    UnseenIsTaken(entries, |entries|, route, n);
    assert entries[..|entries|] == entries;
  }

  lemma {:induction false} TakenStep(entries: seq<RateEntry>, route: Route, n: nat)
    requires n < |route|
    ensures multiset(TakenBefore(entries, route, n + 1))
      == multiset(TakenBefore(entries, route, n)) + multiset(TakenBy(entries, route, n))
  {
    if entries != [] {
      TakenStep(entries[..|entries| - 1], route, n);
    }
  }

  lemma {:induction false} NothingTakenBeforeStart(entries: seq<RateEntry>, route: Route)
    ensures TakenBefore(entries, route, 0) == []
  {
    if entries != [] {
      NothingTakenBeforeStart(entries[..|entries| - 1], route);
    }
  }

  lemma VisitedMore(entries: seq<RateEntry>, route: Route, n: nat)
    requires DistinctEntries(entries) && n < |route|
    ensures Visited(entries, route, n + 1) == Visited(entries, route, n) + TakenBy(entries, route, n)
  {
    ClaimedIsTaken(entries, route, n);
  }

  /** Every entry that matches some segment is processed exactly once. */
  lemma {:induction false} VisitedOnce(entries: seq<RateEntry>, route: Route, n: nat)
    requires DistinctEntries(entries) && n <= |route|
    ensures multiset(Visited(entries, route, n)) == multiset(TakenBefore(entries, route, n))
    decreases n
  {
    if n == 0 {
      NothingTakenBeforeStart(entries, route);
    } else {
      var k := n - 1;
      VisitedOnce(entries, route, k);
      VisitedMore(entries, route, k);
      TakenStep(entries, route, k);
      PartsAddUp(
        Visited(entries, route, n), Visited(entries, route, k),
        TakenBefore(entries, route, n), TakenBefore(entries, route, k), TakenBy(entries, route, k));
    }
  }

  lemma {:induction false} TakenBeforeMembers(entries: seq<RateEntry>, route: Route, n: nat)
    requires n <= |route|
    ensures forall e :: e in TakenBefore(entries, route, n) <==> e in entries && MatchesBefore(e, route, n)
  {
    if entries != [] {
      TakenBeforeMembers(entries[..|entries| - 1], route, n);
      assert entries == entries[..|entries| - 1] + [entries[|entries| - 1]];
    }
  }

  lemma VisitedMembers(entries: seq<RateEntry>, route: Route)
    requires DistinctEntries(entries)
    ensures forall e :: e in Visited(entries, route, |route|) <==> e in entries && MatchesSome(e, route)
  {
    VisitedOnce(entries, route, |route|);
    TakenBeforeMembers(entries, route, |route|);
    var visited, taken := Visited(entries, route, |route|), TakenBefore(entries, route, |route|);
    assert forall e :: e in visited <==> e in multiset(visited);
    assert forall e :: e in taken <==> e in multiset(taken);
  }
}
