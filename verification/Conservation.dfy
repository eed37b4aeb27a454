/** Money is conserved at every level of a simulated route: provider, segment, route, charges. */
module Conservation {
  import opened Grouping
  import Permutations
  import opened Pricing
  import opened Rates
  import opened Shared
  import opened Simulation
  import opened Totals

  /** All money listed in the subtotals of a segment's providers. */
  ghost function SubtotalMoney(groups: seq<ProviderGroup>): seq<Money> {
    if groups == [] then []
    else SubtotalMoney(groups[..|groups| - 1]) + Listed(groups[|groups| - 1].subtotal)
  }

  /** All money listed in the totals of a route's segments. */
  ghost function SegmentMoney(segments: seq<SegmentResult>): seq<Money> {
    if segments == [] then []
    else SegmentMoney(segments[..|segments| - 1]) + Listed(segments[|segments| - 1].totals)
  }

  ghost function ChargesIn(groups: seq<ProviderGroup>): seq<SimulatedCharge> {
    if groups == [] then []
    else ChargesIn(groups[..|groups| - 1]) + groups[|groups| - 1].charges
  }

  lemma {:induction false} SubtotalsSum(groups: seq<ProviderGroup>, c: string)
    requires forall i :: 0 <= i < |groups| ==> ListsTotalsOf(groups[i].subtotal, Amounts(groups[i].charges))
    ensures SumIn(SubtotalMoney(groups), c) == SumIn(Amounts(ChargesIn(groups)), c)
  {
    if groups == [] {
      assert Amounts([]) == [];
    } else {
      var front, last := groups[..|groups| - 1], groups[|groups| - 1];
      SubtotalsSum(front, c);
      ListingConserves(last.subtotal, Amounts(last.charges), c);
      SumInAppend(SubtotalMoney(front), Listed(last.subtotal), c);
      AmountsAppend(ChargesIn(front), last.charges);
      SumInAppend(Amounts(ChargesIn(front)), Amounts(last.charges), c);
    }
  }

  lemma {:induction false} ChargesInAreGroups(groups: seq<ProviderGroup>, xss: seq<seq<SimulatedCharge>>)
    requires |groups| == |xss| && forall i :: 0 <= i < |xss| ==> groups[i].charges == xss[i]
    ensures ChargesIn(groups) == Concat(xss)
  {
    if groups != [] {
      ChargesInAreGroups(groups[..|groups| - 1], xss[..|xss| - 1]);
    }
  }

  /** The provider groups hold the segment's charges, each exactly once. */
  lemma BreakdownIsPermutation(groups: seq<ProviderGroup>, charges: seq<SimulatedCharge>)
    requires IsProviderBreakdown(groups, charges)
    ensures multiset(ChargesIn(groups)) == multiset(charges)
  {
    var ps := ByProvider(charges);
    GroupsPartition(ps);
    ChargesInAreGroups(groups, Groups(ps));
    assert Values(ps) == charges;
  }

  lemma {:induction false} WithKeyHolds<K, T>(ps: seq<(K, T)>, k: K)
    ensures forall x :: x in WithKey(ps, k) <==> (k, x) in ps
  {
    if ps != [] {
      WithKeyHolds(ps[..|ps| - 1], k);
      assert ps == ps[..|ps| - 1] + [ps[|ps| - 1]];
    }
  }

  /** Each provider has one group, which holds the segment's charges of that provider and no others. */
  lemma GroupsAreByProvider(groups: seq<ProviderGroup>, charges: seq<SimulatedCharge>, charge: SimulatedCharge)
    requires IsProviderBreakdown(groups, charges)
    ensures forall i, j :: 0 <= i < j < |groups| ==> groups[i].providerId != groups[j].providerId
    ensures forall g :: g in groups ==>
      g.charges != [] && (charge in g.charges <==> charge in charges && charge.providerId == g.providerId)
    ensures charge in charges ==> exists g :: g in groups && g.providerId == charge.providerId
  {
    var ps := ByProvider(charges);
    FirstKeysAreTheKeys(ps);
    forall i | 0 <= i < |groups|
      ensures groups[i].charges != []
      ensures charge in groups[i].charges <==> charge in charges && charge.providerId == groups[i].providerId
    {
      WithKeyHolds(ps, groups[i].providerId);
      assert groups[i].providerId in FirstKeys(ps);
      InByProvider(charges, groups[i].providerId, charge);
    }
    if charge in charges {
      InByProvider(charges, charge.providerId, charge);
      assert (charge.providerId, charge).0 in FirstKeys(ps);
      var i :| 0 <= i < |groups| && FirstKeys(ps)[i] == charge.providerId;
      assert groups[i] in groups;
    }
  }

  lemma InByProvider(charges: seq<SimulatedCharge>, provider: Id, charge: SimulatedCharge)
    ensures (provider, charge) in ByProvider(charges) <==> charge in charges && provider == charge.providerId
  {
    if charge in charges && provider == charge.providerId {
      var i :| 0 <= i < |charges| && charges[i] == charge;
      assert ByProvider(charges)[i] == (provider, charge);
    }
  }

  lemma ProvidersSum(groups: seq<ProviderGroup>, charges: seq<SimulatedCharge>, c: string)
    requires IsProviderBreakdown(groups, charges)
    ensures SumIn(SubtotalMoney(groups), c) == SumIn(Amounts(charges), c)
  {
    SubtotalsSum(groups, c);
    BreakdownIsPermutation(groups, charges);
    AmountsPermutation(ChargesIn(groups), charges);
    SumInPermutation(Amounts(ChargesIn(groups)), Amounts(charges), c);
  }

  lemma AmountsPermutation(a: seq<SimulatedCharge>, b: seq<SimulatedCharge>)
    requires multiset(a) == multiset(b)
    ensures multiset(Amounts(a)) == multiset(Amounts(b))
  {
    Permutations.Relabel(a, b, Amounts(a), Amounts(b));
  }

  /** In every currency, the provider subtotals of a segment add up to the segment's total. */
  lemma SegmentConserves(r: SegmentResult, charges: seq<SimulatedCharge>, c: string)
    requires IsProviderBreakdown(r.providers, charges) && ListsTotalsOf(r.totals, Amounts(charges))
    ensures SumIn(SubtotalMoney(r.providers), c) == SumIn(Listed(r.totals), c)
  {
    ProvidersSum(r.providers, charges, c);
    ListingConserves(r.totals, Amounts(charges), c);
  }

  lemma {:induction false} SegmentsSum(
    segments: seq<SegmentResult>, entries: seq<RateEntry>, route: Route, price: Pricer, c: string)
    requires |segments| <= |route| && AreSegmentsOf(segments, entries, route, price)
    requires AllPriced(Visited(entries, route, |segments|), price)
    ensures SumIn(SegmentMoney(segments), c)
      == SumIn(Amounts(ChargesOf(Visited(entries, route, |segments|), price)), c)
  {
    if segments == [] {
      assert Amounts([]) == [];
    } else {
      var n := |segments| - 1;
      var front, last := segments[..n], segments[n];
      var es := Claimed(entries, route, n);
      SegmentsSum(front, entries, route, price, c);
      VisitedIsPriced(Visited(entries, route, n), es, price);
      var a, b := ChargesOf(Visited(entries, route, n), price), ChargesOf(es, price);
      AmountsAppend(a, b);
      SumInAppend(Amounts(a), Amounts(b), c);
      assert IsSegmentOf(last, n, entries, route, price);
      ListingConserves(last.totals, Amounts(b), c);
      SumInAppend(SegmentMoney(front), Listed(last.totals), c);
    }
  }

  /** In every currency: provider subtotals, segment totals, the route total and the charges all agree. */
  lemma {:induction false} RouteConserves(
    res: RouteResult, entries: seq<RateEntry>, route: Route, price: Pricer, c: string)
    requires IsSimulationOf(Ok(res), entries, route, price)
    ensures SumIn(SegmentMoney(res.segments), c) == SumIn(Listed(res.totals), c)
    ensures SumIn(Listed(res.totals), c) == SumIn(Amounts(res.applied), c)
    ensures forall n :: 0 <= n < |res.segments| ==>
      SumIn(SubtotalMoney(res.segments[n].providers), c) == SumIn(Listed(res.segments[n].totals), c)
  {
    SegmentsSum(res.segments, entries, route, price, c);
    ListingConserves(res.totals, Amounts(res.applied), c);
    forall n | 0 <= n < |res.segments|
      ensures SumIn(SubtotalMoney(res.segments[n].providers), c) == SumIn(Listed(res.segments[n].totals), c)
    {
      assert IsSegmentOf(res.segments[n], n, entries, route, price);
      SegmentConserves(res.segments[n], ChargesOf(Claimed(entries, route, n), price), c);
    }
  }
}
