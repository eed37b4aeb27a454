/**
 Saving rates: a unit price goes into a column with four decimals, so what is loaded again may
 show another price than the tariff, which keeps its decimals.
 */
module RateStore {
  import opened Pricing
  import opened Rates
  import opened Shared

  const SCALE := 10000.0

  /** What a NUMERIC(20,4) column makes of a number: halves are rounded away from zero. */
  function Rounded(x: real): real {
    if x < 0.0 then -((0.5 - x * SCALE).Floor as real / SCALE) else (x * SCALE + 0.5).Floor as real / SCALE
  }

  predicate HasFourDecimals(x: real) {
    (x * SCALE).Floor as real == x * SCALE
  }

  function Distance(x: real, y: real): real {
    if x < y then y - x else x - y
  }

  lemma RoundedUnits(x: real) returns (n: int)
    ensures Rounded(x) * SCALE == n as real
    ensures if x < 0.0 then x * SCALE - 0.5 <= n as real < x * SCALE + 0.5
      else x * SCALE - 0.5 < n as real <= x * SCALE + 0.5
  {
    n := if x < 0.0 then -(0.5 - x * SCALE).Floor else (x * SCALE + 0.5).Floor;
  }

  /** No number with four decimals is nearer, and of two that are equally near, the other is nearer to zero. */
  lemma RoundedIsNearest(x: real, y: real)
    requires HasFourDecimals(y)
    ensures HasFourDecimals(Rounded(x))
    ensures Distance(Rounded(x), x) <= Distance(y, x)
    ensures Distance(Rounded(x), x) == Distance(y, x) ==> Distance(y, 0.0) <= Distance(Rounded(x), 0.0)
  {
    var n := RoundedUnits(x);
    var m := (y * SCALE).Floor;
    assert (n as real).Floor == n;
    if m < n {
      assert m as real <= n as real - 1.0;
    } else if m > n {
      assert m as real >= n as real + 1.0;
    }
  }

  /** Exactly the numbers with four decimals are kept. */
  lemma RoundedIff(x: real)
    ensures Rounded(x) == x <==> HasFourDecimals(x)
  {
    RoundedIsNearest(x, 0.0);
    if HasFourDecimals(x) {
      RoundedIsNearest(x, x);
    }
  }

  // ---------------------------------------------------------------- entries

  function SavedPrice(m: Money): Money {
    Money(Rounded(m.amount), m.currency)
  }

  function SavedEntry(e: RateEntry): RateEntry {
    e.(unitPrice := SavedPrice(e.unitPrice))
  }

  function SavedEntries(entries: seq<RateEntry>): (rows: seq<RateEntry>)
    ensures |rows| == |entries|
  {
    seq(|entries|, i requires 0 <= i < |entries| => SavedEntry(entries[i]))
  }

  function SavedRate(r: RateState): RateState {
    r.(entries := SavedEntries(r.entries))
  }

  /** The entry came from the store, or could have. */
  ghost predicate IsStorable(e: RateEntry) {
    HasFourDecimals(e.unitPrice.amount)
  }

  lemma SavedIsStorable(e: RateEntry)
    ensures IsStorable(SavedEntry(e))
    ensures SavedEntry(e) == e <==> IsStorable(e)
  {
    RoundedIsNearest(e.unitPrice.amount, 0.0);
    RoundedIff(e.unitPrice.amount);
  }

  /** Saving what was loaded changes nothing. */
  lemma StorableStay(entries: seq<RateEntry>)
    requires forall e :: e in entries ==> IsStorable(e)
    ensures SavedEntries(entries) == entries
  {
    forall i | 0 <= i < |entries|
      ensures SavedEntries(entries)[i] == entries[i]
    {
      SavedIsStorable(entries[i]);
    }
  }

  lemma SavedAppend(entries: seq<RateEntry>, es: seq<RateEntry>)
    requires forall e :: e in entries ==> IsStorable(e)
    ensures SavedEntries(entries + es) == entries + SavedEntries(es)
  {
    StorableStay(entries);
    assert SavedEntries(entries + es) == SavedEntries(entries) + SavedEntries(es);
  }

  lemma SavedUpdate(entries: seq<RateEntry>, i: nat, e: RateEntry)
    requires i < |entries| && forall other :: other in entries ==> IsStorable(other)
    ensures SavedEntries(entries[i := e]) == entries[i := SavedEntry(e)]
  {
    StorableStay(entries);
    assert SavedEntries(entries[i := e]) == SavedEntries(entries)[i := SavedEntry(e)];
  }

  /** The INSERT loop of PostgresRateRepo.Save. */
  method InsertEntries(entries: seq<RateEntry>) returns (rows: seq<RateEntry>)
    ensures rows == SavedEntries(entries)
  {
    rows := [];
    for i := 0 to |entries|
      invariant rows == SavedEntries(entries[..i])
    {
      assert entries[..i + 1] == entries[..i] + [entries[i]];
      var entry := entries[i];
      rows := rows + [entry.(unitPrice := Money(Rounded(entry.unitPrice.amount), entry.unitPrice.currency))];
    }
    assert entries[..|entries|] == entries;
  }

  // ---------------------------------------------------------------- the price an entry shows

  /** The entry shows the item's unit price as the column keeps it; zero USD unless the item has flat pricing. */
  ghost predicate ShowsPriceOf(e: RateEntry, item: LineItem) {
    e.unitPrice == SavedPrice(ShownPrice(RateableOf(e.tariffId, item)))
  }

  /** It shows the price of a flat item itself exactly when that price has four decimals. */
  lemma ShownPriceIsExactIff(e: RateEntry, item: LineItem)
    requires ShowsPriceOf(e, item) && item.logic.Flat?
    ensures e.unitPrice == item.logic.amount <==> HasFourDecimals(item.logic.amount.amount)
  {
    RoundedIff(item.logic.amount.amount);
  }

  /** A price of a hundred-thousandth of a dollar is shown as zero. */
  lemma TinyPriceIsShownAsZero(e: RateEntry, item: LineItem)
    requires ShowsPriceOf(e, item) && item.logic == Flat(Money(0.00001, "USD"))
    ensures e.unitPrice == ZeroMoney("USD")
  {
    assert (0.00001 * SCALE + 0.5).Floor == 0;
  }
}
