/**
 Per-currency totals. The tariff engine (groupByCurrency), the simulation's segment and
 provider subtotals (sumCharges) and its running route total all fold charges into a map
 from currency to money with `Accumulate`; the map is then listed in an unspecified order.
 */
module Totals {
  import opened Permutations
  import opened Shared

  datatype CurrencyTotal = CurrencyTotal(currency: string, amount: Money)

  /** The sum of the amounts of `ms` that are in currency `c`. */
  ghost function SumIn(ms: seq<Money>, c: string): real {
    if ms == [] then 0.0
    else SumIn(ms[..|ms| - 1], c) + (if ms[|ms| - 1].currency == c then ms[|ms| - 1].amount else 0.0)
  }

  ghost function Currencies(ms: seq<Money>): set<string> {
    set m | m in ms :: m.currency
  }

  /** The money listed in a slice of totals. */
  ghost function Listed(totals: seq<CurrencyTotal>): seq<Money> {
    seq(|totals|, i requires 0 <= i < |totals| => totals[i].amount)
  }

  ghost function ListedCurrencies(totals: seq<CurrencyTotal>): set<string> {
    set t | t in totals :: t.currency
  }

  /** `totals` maps exactly the currencies of `ms`, each to its sum. */
  ghost predicate IsTotalOf(totals: map<string, Money>, ms: seq<Money>) {
    && totals.Keys == Currencies(ms)
    && forall c :: c in totals ==> totals[c] == Money(SumIn(ms, c), c)
  }

  /** `totals` lists every currency of `ms` exactly once, and no other, with its sum. */
  ghost predicate ListsTotalsOf(totals: seq<CurrencyTotal>, ms: seq<Money>) {
    && (forall i, j :: 0 <= i < j < |totals| ==> totals[i].currency != totals[j].currency)
    && (forall i :: 0 <= i < |totals| ==>
          totals[i].amount == Money(SumIn(ms, totals[i].currency), totals[i].currency))
    && ListedCurrencies(totals) == Currencies(ms)
  }

  lemma {:induction false} SumInAppend(a: seq<Money>, b: seq<Money>, c: string)
    ensures SumIn(a + b, c) == SumIn(a, c) + SumIn(b, c)
  {
    if b == [] {
      assert a + b == a;
    } else {
      assert (a + b)[..|a + b| - 1] == a + b[..|b| - 1];
      SumInAppend(a, b[..|b| - 1], c);
    }
  }

  lemma SumInAround(l: seq<Money>, m: Money, r: seq<Money>, c: string)
    ensures SumIn(l + [m] + r, c) == SumIn(l + r, c) + SumIn([m], c)
  {
    SumInAppend(l + [m], r, c);
    SumInAppend(l, [m], c);
    SumInAppend(l, r, c);
  }

  /** Sums do not depend on the order of the charges. */
  lemma {:induction false} SumInPermutation(a: seq<Money>, b: seq<Money>, c: string)
    requires multiset(a) == multiset(b)
    ensures SumIn(a, c) == SumIn(b, c)
  {
    if a == [] {
      assert |multiset(b)| == 0;
    } else {
      var front, last := a[..|a| - 1], a[|a| - 1];
      assert a == front + [last];
      var l, r := Counterpart(front, last, b);
      SumInPermutation(front, l + r, c);
      SumInAround(l, last, r, c);
      SumInAppend(front, [last], c);
    }
  }

  lemma CurrenciesAppend(ms: seq<Money>, m: Money)
    ensures Currencies(ms + [m]) == Currencies(ms) + {m.currency}
  {
    assert forall x :: x in ms + [m] <==> x in ms || x == m;
    assert m in ms + [m];
  }

  lemma ListedCurrenciesAppend(totals: seq<CurrencyTotal>, t: CurrencyTotal)
    ensures ListedCurrencies(totals + [t]) == ListedCurrencies(totals) + {t.currency}
  {
    assert forall x :: x in totals + [t] <==> x in totals || x == t;
    assert t in totals + [t];
  }

  lemma {:induction false} AbsentCurrencySumsToZero(ms: seq<Money>, c: string)
    requires c !in Currencies(ms)
    ensures SumIn(ms, c) == 0.0
  {
    if ms != [] {
      var front, last := ms[..|ms| - 1], ms[|ms| - 1];
      assert last in ms;
      assert forall m :: m in front ==> m in ms;
      AbsentCurrencySumsToZero(front, c);
    }
  }

  /** One loop step: an `Add` that fails is silently dropped, as the source does. */
  function Accumulate(totals: map<string, Money>, m: Money): map<string, Money> {
    if m.currency in totals then
      match totals[m.currency].Add(m)
      case Ok(sum) => totals[m.currency := sum]
      case Err(_) => totals
    else
      totals[m.currency := m]
  }

  /** On a map of totals the swallowed error never happens, and nothing is lost. */
  lemma AccumulateKeepsTotals(totals: map<string, Money>, ms: seq<Money>, m: Money)
    requires IsTotalOf(totals, ms)
    ensures m.currency in totals ==> totals[m.currency].Add(m).Ok?
    ensures IsTotalOf(Accumulate(totals, m), ms + [m])
  {
    CurrenciesAppend(ms, m);
    if m.currency !in totals {
      AbsentCurrencySumsToZero(ms, m.currency);
    }
    assert (ms + [m])[..|ms + [m]| - 1] == ms;
  }

  /** Lists a map of totals, in whatever order the map is iterated. */
  method ListTotals(totals: map<string, Money>, ghost ms: seq<Money>) returns (list: seq<CurrencyTotal>)
    requires IsTotalOf(totals, ms)
    ensures ListsTotalsOf(list, ms)
  {
    list := [];
    var todo := totals.Keys;
    while todo != {}
      invariant todo <= totals.Keys
      invariant forall t :: t in list ==> t.currency in totals.Keys - todo && t.amount == totals[t.currency]
      invariant forall i, j :: 0 <= i < j < |list| ==> list[i].currency != list[j].currency
      invariant ListedCurrencies(list) == totals.Keys - todo
      decreases todo
    {
      var c :| c in todo;
      var t := CurrencyTotal(c, totals[c]);
      ListedCurrenciesAppend(list, t);
      list := list + [t];
      todo := todo - {c};
    }
  }

  method SumCharges(ms: seq<Money>) returns (list: seq<CurrencyTotal>)
    ensures ListsTotalsOf(list, ms)
  {
    var totals: map<string, Money> := map[];
    for i := 0 to |ms|
      invariant IsTotalOf(totals, ms[..i])
    {
      AccumulateKeepsTotals(totals, ms[..i], ms[i]);
      assert ms[..i + 1] == ms[..i] + [ms[i]];
      totals := Accumulate(totals, ms[i]);
    }
    assert ms[..|ms|] == ms;
    list := ListTotals(totals, ms);
  }

  lemma {:induction false} DistinctEntriesSum(totals: seq<CurrencyTotal>, c: string)
    requires forall i :: 0 <= i < |totals| ==> totals[i].amount.currency == totals[i].currency
    requires forall i, j :: 0 <= i < j < |totals| ==> totals[i].currency != totals[j].currency
    ensures forall i :: 0 <= i < |totals| && totals[i].currency == c ==>
      SumIn(Listed(totals), c) == totals[i].amount.amount
    ensures (forall i :: 0 <= i < |totals| ==> totals[i].currency != c) ==> SumIn(Listed(totals), c) == 0.0
  {
    if totals != [] {
      var front := totals[..|totals| - 1];
      DistinctEntriesSum(front, c);
      assert Listed(totals)[..|totals| - 1] == Listed(front);
      assert forall i :: 0 <= i < |front| ==> front[i] == totals[i];
    }
  }

  /** Adding up a listing of totals gives back the charges' own sum, in every currency. */
  lemma ListingConserves(totals: seq<CurrencyTotal>, ms: seq<Money>, c: string)
    requires ListsTotalsOf(totals, ms)
    ensures SumIn(Listed(totals), c) == SumIn(ms, c)
  {
    DistinctEntriesSum(totals, c);
    if c in Currencies(ms) {
      assert c in ListedCurrencies(totals);
    } else {
      AbsentCurrencySumsToZero(ms, c);
    }
  }
}
