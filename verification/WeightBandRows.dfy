/** Grouping the rows of a weight-band sheet into one compiled line item per charge code and scope. */
module WeightBandRows {
  import opened CellScopes
  import opened DecimalText
  import opened Grouping
  import opened Pricing
  import opened Shared
  import opened WeightBands

  /** A line item is identified by its charge code and its scope, which the code compares by their texts. */
  type Key = (string, CellScope)

  /**
   A sheet row after reading its columns: a blank row, a row whose scope cannot be resolved
   (`scope` is None), a row without a readable amount (`amount` is None), or a band.
   */
  datatype Row = Row(
    blank: bool, chargeCode: string, chargeName: string, category: string, scope: Option<CellScope>,
    amount: Option<Decimal>, weightMin: Decimal, weightMax: Decimal, currency: string)
  {
    ghost predicate Fails() {
      !blank && scope.None?
    }

    predicate IsBand() {
      !blank && scope.Some? && amount.Some?
    }

    function Key(): Key
      requires IsBand()
    {
      (chargeCode, scope.value)
    }

    function Band(): Band
      requires IsBand()
    {
      WeightBands.Band.Band(weightMin, weightMax, amount.value, currency)
    }
  }

  type BandRow = r: Row | r.IsBand()
    witness Row(
      false, "", "", "", Some(LocationCells(seq(16, _ => 0), None)), Some(Decimal(0, 0)),
      Decimal(0, 0), Decimal(0, 0), "")

  /** Two band rows are in the same group exactly when their charge codes and the texts of their scopes agree. */
  lemma SameGroupIff(a: BandRow, b: BandRow)
    ensures a.Key() == b.Key() <==>
      a.chargeCode == b.chargeCode && ScopeKey(a.scope.value) == ScopeKey(b.scope.value)
  {
    if ScopeKey(a.scope.value) == ScopeKey(b.scope.value) {
      ScopeKeyIsInjective(a.scope.value, b.scope.value);
    }
  }

  datatype Group = Group(chargeName: string, category: string, scope: CellScope, bands: seq<Band>)

  datatype BandItem = BandItem(
    key: Key, chargeName: string, category: string, scope: CellScope, formula: string, currency: string)

  /** The band rows, each with its key; all other rows are skipped. */
  ghost function Keyed(rows: seq<Row>): seq<(Key, BandRow)> {
    if rows == [] then []
    else
      var last := rows[|rows| - 1];
      Keyed(rows[..|rows| - 1]) + if last.IsBand() then [(last.Key(), last)] else []
  }

  function BandsOf(rows: seq<BandRow>): seq<Band> {
    seq(|rows|, i requires 0 <= i < |rows| => rows[i].Band())
  }

  /** A group takes its name, category and scope from its first row. */
  ghost predicate IsGroupOf(g: Group, rows: seq<BandRow>) {
    rows != [] && g == Group(rows[0].chargeName, rows[0].category, rows[0].scope.value, BandsOf(rows))
  }

  /** The line item of a group of rows: the formula of all its bands, in the first band's currency. */
  ghost predicate IsItemOf(item: BandItem, key: Key, rows: seq<BandRow>) {
    && rows != [] && item.key == key
    && item.chargeName == rows[0].chargeName && item.category == rows[0].category
    && item.scope == rows[0].scope.value && item.currency == rows[0].currency
    && item.formula == FormulaText(BandsOf(rows))
  }

  /** The rows of a sheet that have a given key, in sheet order. */
  ghost function RowsWith(rows: seq<Row>, key: Key): seq<BandRow> {
    WithKey(Keyed(rows), key)
  }

  ghost predicate HasKey(row: Row, key: Key) {
    !row.blank && row.amount.Some? && row.chargeCode == key.0 && row.scope == Some(key.1)
  }

  lemma HasKeyIff(row: Row, key: Key)
    ensures HasKey(row, key) <==> row.IsBand() && row.Key() == key
  {
  }

  /** Those are exactly the rows with an amount and with the key's charge code and scope. */
  lemma {:induction false} RowsWithAre(rows: seq<Row>, key: Key)
    ensures forall row: BandRow :: row in RowsWith(rows, key) <==> row in rows && HasKey(row, key)
  {
    if rows != [] {
      var front, last := rows[..|rows| - 1], rows[|rows| - 1];
      assert rows == front + [last];
      RowsWithAre(front, key);
      HasKeyIff(last, key);
      var before := RowsWith(front, key);
      if last.IsBand() {
        AddKeyed(Keyed(front), last.Key(), last);
        assert Keyed(rows) == Keyed(front) + [(last.Key(), last)];
        assert RowsWith(rows, key) == before + if last.Key() == key then [last] else [];
      } else {
        assert Keyed(rows) == Keyed(front);
      }
    }
  }

  /** One item for each key of the sheet, in order of first occurrence, made of all rows with that key. */
  ghost predicate IsConversionOf(items: seq<BandItem>, rows: seq<Row>) {
    var keys := FirstKeys(Keyed(rows));
    |items| == |keys| && AreItemsFor(items, keys, rows)
  }

  /** The items of the first keys. */
  ghost predicate AreItemsFor(items: seq<BandItem>, keys: seq<Key>, rows: seq<Row>) {
    |items| <= |keys| && forall i :: 0 <= i < |items| ==> IsItemOf(items[i], keys[i], RowsWith(rows, keys[i]))
  }

  lemma ItemsGrow(items: seq<BandItem>, item: BandItem, keys: seq<Key>, rows: seq<Row>)
    requires AreItemsFor(items, keys, rows) && |items| < |keys|
    requires IsItemOf(item, keys[|items|], RowsWith(rows, keys[|items|]))
    ensures AreItemsFor(items + [item], keys, rows)
  {
    forall i | 0 <= i <= |items|
      ensures IsItemOf((items + [item])[i], keys[i], RowsWith(rows, keys[i]))
    {
      assert (items + [item])[i] == if i < |items| then items[i] else item;
    }
  }

  /** `groups` and their `order` group the keyed rows `ps`. */
  ghost predicate AreGroupsOf(groups: map<Key, Group>, order: seq<Key>, ps: seq<(Key, BandRow)>) {
    && order == FirstKeys(ps)
    && (forall k :: k in groups <==> k in order)
    && forall k :: k in groups ==> IsGroupOf(groups[k], WithKey(ps, k))
  }

  function AddBand(groups: map<Key, Group>, key: Key, row: BandRow): map<Key, Group> {
    if key in groups then groups[key := groups[key].(bands := groups[key].bands + [row.Band()])]
    else groups[key := Group(row.chargeName, row.category, row.scope.value, [row.Band()])]
  }

  lemma GroupGrows(g: Group, rows: seq<BandRow>, row: BandRow)
    requires IsGroupOf(g, rows)
    ensures IsGroupOf(g.(bands := g.bands + [row.Band()]), rows + [row])
  {
    assert BandsOf(rows + [row]) == BandsOf(rows) + [row.Band()];
  }

  lemma GroupStarts(row: BandRow)
    ensures IsGroupOf(Group(row.chargeName, row.category, row.scope.value, [row.Band()]), [row])
  {
    assert BandsOf([row]) == [row.Band()];
  }

  lemma AddBandKeepsGroups(groups: map<Key, Group>, order: seq<Key>, ps: seq<(Key, BandRow)>, key: Key, row: BandRow)
    requires AreGroupsOf(groups, order, ps)
    ensures AreGroupsOf(
      AddBand(groups, key, row), if key in groups then order else order + [key], ps + [(key, row)])
  {
    FirstKeysAreTheKeys(ps);
    AddKeyed(ps, key, row);
    var now := AddBand(groups, key, row);
    forall k | k in now
      ensures IsGroupOf(now[k], WithKey(ps + [(key, row)], k))
    {
      if k != key {
        assert WithKey(ps + [(key, row)], k) == WithKey(ps, k);
      } else if key in groups {
        GroupGrows(groups[key], WithKey(ps, key), row);
      } else {
        GroupStarts(row);
        assert WithKey(ps, key) + [row] == [row];
      }
    }
  }

  lemma KeyedStep(rows: seq<Row>, i: nat)
    requires i < |rows|
    ensures Keyed(rows[..i + 1])
      == if rows[i].IsBand() then Keyed(rows[..i]) + [(rows[i].Key(), rows[i])] else Keyed(rows[..i])
  {
    assert rows[..i + 1][..i] == rows[..i];
  }

  method GroupRows(rows: seq<Row>) returns (failed: bool, groups: map<Key, Group>, order: seq<Key>)
    ensures failed <==> exists row :: row in rows && row.Fails()
    ensures !failed ==> AreGroupsOf(groups, order, Keyed(rows))
  {
    failed, groups, order := false, map[], [];
    for i := 0 to |rows|
      invariant forall row :: row in rows[..i] ==> !row.Fails()
      invariant AreGroupsOf(groups, order, Keyed(rows[..i]))
    {
      var row := rows[i];
      assert rows[..i + 1] == rows[..i] + [row];
      KeyedStep(rows, i);
      if row.blank {
        continue;
      }
      if row.scope.None? {
        assert row in rows;
        return true, groups, order;
      }
      if row.amount.None? {
        continue;
      }
      var key := row.Key();
      AddBandKeepsGroups(groups, order, Keyed(rows[..i]), key, row);
      order := if key in groups then order else order + [key];
      groups := AddBand(groups, key, row);
    }
    assert rows[..|rows|] == rows;
  }

  /** The item compiled from one group. */
  method ItemFrom(key: Key, g: Group, ghost rows: seq<BandRow>) returns (item: BandItem)
    requires IsGroupOf(g, rows)
    ensures IsItemOf(item, key, rows)
  {
    var formula := BuildWeightBandFormula(g.bands);
    var currency := if |g.bands| > 0 then g.bands[0].currency else "USD";
    item := BandItem(key, g.chargeName, g.category, g.scope, formula, currency);
  }

  /**
   convertWeightBandRows: one item per key in order of first occurrence, compiled from all the
   rows with that key in sheet order; an unresolvable scope fails the sheet, even on a row
   without an amount.
   */
  method ConvertWeightBandRows(rows: seq<Row>) returns (r: Option<seq<BandItem>>)
    ensures r.None? <==> exists row :: row in rows && row.Fails()
    ensures r.Some? ==> IsConversionOf(r.value, rows)
  {
    var failed, groups, order := GroupRows(rows);
    if failed {
      return None;
    }
    var items: seq<BandItem> := [];
    for i := 0 to |order|
      invariant |items| == i && AreItemsFor(items, order, rows)
    {
      assert order[i] in order;
      var item := ItemFrom(order[i], groups[order[i]], RowsWith(rows, order[i]));
      ItemsGrow(items, item, order, rows);
      items := items + [item];
    }
    r := Some(items);
  }

  /** The items' keys are pairwise distinct, and every band row is in exactly one group. */
  lemma RowsArePartitioned(rows: seq<Row>)
    ensures forall i, j :: 0 <= i < j < |FirstKeys(Keyed(rows))| ==>
      FirstKeys(Keyed(rows))[i] != FirstKeys(Keyed(rows))[j]
    ensures multiset(Concat(Groups(Keyed(rows)))) == multiset(Values(Keyed(rows)))
  {
    FirstKeysAreTheKeys(Keyed(rows));
    GroupsPartition(Keyed(rows));
  }
}
