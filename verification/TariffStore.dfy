/**
 Storing tariffs: scopes and pricing trees are marshalled to untagged JSON objects, and read
 back by looking at which keys are present. Line items come back in an unspecified order.
 */
module TariffStore {
  import opened Permutations
  import opened Shared
  import opened Totals
  import opened Pricing

  /** A decimal marshals to its own text form, which reads back exactly; `JDecimal` stands for that text. */
  datatype Json =
    | JNull
    | JString(text: string)
    | JDecimal(value: real)
    | JNumber(number: int)
    | JArray(items: seq<Json>)
    | JObject(fields: seq<(string, Json)>)

  // ---------------------------------------------------------------- marshalling

  function BytesJson(id: LocationId): Json {
    JArray(seq(|id|, i requires 0 <= i < |id| => JNumber(id[i] as int)))
  }

  function ScopeJson(s: Scope): Json {
    match s
    case LocationService(l, t) => JObject([("LocationID", BytesJson(l)), ("ServiceType", JString(t))])
    case TransportationService(o, d, m) =>
      JObject([("OriginID", BytesJson(o)), ("DestinationID", BytesJson(d)), ("Mode", JString(m))])
  }

  function LogicJson(s: Strategy): Json {
    match s
    case Flat(m) => JObject([("Amount", JObject([("Amount", JDecimal(m.amount)), ("Currency", JString(m.currency))]))])
    case Expression(f, c) => JObject([("Formula", JString(f)), ("Currency", JString(c))])
    case Composite(steps) =>
      JObject([("Steps", JArray(seq(|steps|, i requires 0 <= i < |steps| => LogicJson(steps[i]))))])
  }

  // ---------------------------------------------------------------- unmarshalling

  /** The position of the last field with the given key. */
  function FindKey(fields: seq<(string, Json)>, key: string): (r: Option<nat>)
    ensures r.Some? ==> r.value < |fields| && fields[r.value].0 == key
    ensures r.None? ==> forall i :: 0 <= i < |fields| ==> fields[i].0 != key
  {
    if fields == [] then None
    else if fields[|fields| - 1].0 == key then Some(|fields| - 1)
    else FindKey(fields[..|fields| - 1], key)
  }

  predicate HasKey(j: Json, key: string) {
    j.JObject? && FindKey(j.fields, key).Some?
  }

  /** The value under `key`, where an absent key reads like a null. */
  function Field(j: Json, key: string): Json {
    if HasKey(j, key) then j.fields[FindKey(j.fields, key).value].1 else JNull
  }

  function TextOf(j: Json): Option<string> {
    match j case JNull => Some("") case JString(t) => Some(t) case _ => None
  }

  function DecimalOf(j: Json): Option<real> {
    match j
    case JNull => Some(0.0)
    case JDecimal(v) => Some(v)
    case JNumber(n) => Some(n as real)
    case _ => None
  }

  predicate IsByte(j: Json) {
    j.JNull? || (j.JNumber? && 0 <= j.number < 256)
  }

  /** A 16-byte array: missing elements are zero, surplus ones are ignored. */
  function BytesOf(j: Json): Option<LocationId> {
    match j
    case JNull => Some(seq(16, _ => 0))
    case JArray(items) =>
      if forall i :: 0 <= i < |items| && i < 16 ==> IsByte(items[i]) then
        Some(seq(16, i requires 0 <= i < 16 =>
          if i < |items| && items[i].JNumber? && 0 <= items[i].number < 256 then items[i].number as byte else 0))
      else None
    case _ => None
  }

  /** deserializeScope. */
  function ScopeOf(j: Json): Option<Scope> {
    if HasKey(j, "OriginID") then
      match (BytesOf(Field(j, "OriginID")), BytesOf(Field(j, "DestinationID")), TextOf(Field(j, "Mode")))
      case (Some(o), Some(d), Some(m)) => Some(TransportationService(o, d, m))
      case _ => None
    else if HasKey(j, "LocationID") then
      match (BytesOf(Field(j, "LocationID")), TextOf(Field(j, "ServiceType")))
      case (Some(l), Some(t)) => Some(LocationService(l, t))
      case _ => None
    else None
  }

  function FlatOf(j: Json): Option<Strategy> {
    if !j.JNull? && !j.JObject? then None
    else
      match (DecimalOf(Field(j, "Amount")), TextOf(Field(j, "Currency")))
      case (Some(a), Some(c)) => Some(Flat(Money(a, c)))
      case _ => None
  }

  function ExpressionOf(j: Json): Option<Strategy> {
    match (TextOf(Field(j, "Formula")), TextOf(Field(j, "Currency")))
    case (Some(f), Some(c)) => Some(Expression(f, c))
    case _ => None
  }

  /** The tree that deserializeLogic reads from a document. */
  function LogicOf(j: Json): Option<Strategy>
    decreases j
  {
    if HasKey(j, "Amount") then FlatOf(Field(j, "Amount"))
    else if HasKey(j, "Formula") then ExpressionOf(j)
    else if HasKey(j, "Steps") then
      match Field(j, "Steps")
      case JNull => Some(Composite([]))
      case JArray(items) => Some(Composite(StepsOf(items)))
      case _ => None
    else None
  }

  /** Steps that cannot be read are left out. */
  function StepsOf(items: seq<Json>): seq<Strategy>
    decreases items
  {
    if items == [] then []
    else
      StepsOf(items[..|items| - 1])
      + match LogicOf(items[|items| - 1]) case Some(s) => [s] case None => []
  }

  method DeserializeLogic(j: Json) returns (r: Option<Strategy>)
    ensures r == LogicOf(j)
    decreases j
  {
    if HasKey(j, "Amount") {
      return FlatOf(Field(j, "Amount"));
    }
    if HasKey(j, "Formula") {
      return ExpressionOf(j);
    }
    if !HasKey(j, "Steps") {
      return None;
    }
    var raw := Field(j, "Steps");
    if !raw.JNull? && !raw.JArray? {
      return None;
    }
    var items := if raw.JArray? then raw.items else [];
    var steps: seq<Strategy> := [];
    for i := 0 to |items|
      invariant steps == StepsOf(items[..i])
    {
      assert items[..i + 1][..i] == items[..i];
      var step := DeserializeLogic(items[i]);
      if step.Some? {
        steps := steps + [step.value];
      }
    }
    assert items[..|items|] == items;
    r := Some(Composite(steps));
  }

  // ---------------------------------------------------------------- round trips

  lemma FieldAt(fields: seq<(string, Json)>, i: nat)
    requires i < |fields| && forall p, q :: 0 <= p < q < |fields| ==> fields[p].0 != fields[q].0
    ensures HasKey(JObject(fields), fields[i].0) && Field(JObject(fields), fields[i].0) == fields[i].1
  {
  }

  lemma FlatRoundTrip(m: Money)
    ensures LogicOf(LogicJson(Flat(m))) == Some(Flat(m))
  {
    var fields := LogicJson(Flat(m)).fields;
    var inner := fields[0].1;
    FieldAt(fields, 0);
    FieldAt(inner.fields, 0);
    FieldAt(inner.fields, 1);
  }

  lemma ExpressionRoundTrip(formula: string, currency: string)
    ensures LogicOf(LogicJson(Expression(formula, currency))) == Some(Expression(formula, currency))
  {
    var j := LogicJson(Expression(formula, currency));
    FieldAt(j.fields, 0);
    FieldAt(j.fields, 1);
    assert !HasKey(j, "Amount");
  }

  lemma {:induction false} StepsReadBack(items: seq<Json>, steps: seq<Strategy>)
    requires |items| == |steps| && forall i :: 0 <= i < |items| ==> LogicOf(items[i]) == Some(steps[i])
    ensures StepsOf(items) == steps
  {
    if items != [] {
      StepsReadBack(items[..|items| - 1], steps[..|steps| - 1]);
      assert steps == steps[..|steps| - 1] + [steps[|steps| - 1]];
    }
  }

  lemma CompositeRoundTrip(steps: seq<Strategy>)
    requires forall i :: 0 <= i < |steps| ==> LogicOf(LogicJson(steps[i])) == Some(steps[i])
    ensures LogicOf(LogicJson(Composite(steps))) == Some(Composite(steps))
  {
    var j := LogicJson(Composite(steps));
    FieldAt(j.fields, 0);
    assert !HasKey(j, "Amount") && !HasKey(j, "Formula");
    StepsReadBack(Field(j, "Steps").items, steps);
  }

  /** Every pricing tree, however nested, is read back as it was stored. */
  lemma {:induction false} LogicRoundTrip(s: Strategy)
    ensures LogicOf(LogicJson(s)) == Some(s)
    decreases s
  {
    match s
    case Flat(m) => FlatRoundTrip(m);
    case Expression(f, c) => ExpressionRoundTrip(f, c);
    case Composite(steps) =>
      forall i | 0 <= i < |steps|
        ensures LogicOf(LogicJson(steps[i])) == Some(steps[i])
      {
        LogicRoundTrip(steps[i]);
      }
      CompositeRoundTrip(steps);
  }

  lemma BytesRoundTrip(id: LocationId)
    ensures BytesOf(BytesJson(id)) == Some(id)
  {
    assert BytesOf(BytesJson(id)).value == id;
  }

  /** Every scope is read back as it was stored, and so accepts the same routes. */
  lemma ScopeRoundTrip(s: Scope)
    ensures ScopeOf(ScopeJson(s)) == Some(s)
  {
    var fields := ScopeJson(s).fields;
    FieldAt(fields, 0);
    FieldAt(fields, 1);
    match s
    case LocationService(l, t) =>
      BytesRoundTrip(l);
      assert !HasKey(ScopeJson(s), "OriginID");
    case TransportationService(o, d, m) =>
      FieldAt(fields, 2);
      BytesRoundTrip(o);
      BytesRoundTrip(d);
  }

  // ---------------------------------------------------------------- which documents are read

  ghost predicate Has(j: Json, key: string) {
    j.JObject? && exists i :: 0 <= i < |j.fields| && j.fields[i].0 == key
  }

  /** The first of the keys "Amount", "Formula" and "Steps" that is present decides what a document is read as. */
  lemma KeysDecide(j: Json)
    ensures LogicOf(j).Some? && LogicOf(j).value.Flat? ==> Has(j, "Amount")
    ensures LogicOf(j).Some? && LogicOf(j).value.Expression? ==> Has(j, "Formula") && !Has(j, "Amount")
    ensures LogicOf(j).Some? && LogicOf(j).value.Composite? ==>
      Has(j, "Steps") && !Has(j, "Amount") && !Has(j, "Formula")
    ensures !Has(j, "Amount") && !Has(j, "Formula") && !Has(j, "Steps") ==> LogicOf(j) == None
  {
  }

  /** For scopes it is "OriginID" before "LocationID". */
  lemma KeysDecideScope(j: Json)
    ensures ScopeOf(j).Some? && ScopeOf(j).value.TransportationService? ==> Has(j, "OriginID")
    ensures ScopeOf(j).Some? && ScopeOf(j).value.LocationService? ==> Has(j, "LocationID") && !Has(j, "OriginID")
    ensures !Has(j, "OriginID") && !Has(j, "LocationID") ==> ScopeOf(j) == None
  {
  }

  /** `v` is what a document holds under `key`: the last of several values, or a null where there is none. */
  ghost predicate Holds(j: Json, key: string, v: Json) {
    if Has(j, key) then
      exists i :: 0 <= i < |j.fields| && j.fields[i] == (key, v)
        && forall k :: i < k < |j.fields| ==> j.fields[k].0 != key
    else v == JNull
  }

  lemma {:induction false} LastOfKey(fields: seq<(string, Json)>, key: string)
    ensures var r := FindKey(fields, key);
      r.Some? ==> forall k :: r.value < k < |fields| ==> fields[k].0 != key
  {
    if fields != [] && fields[|fields| - 1].0 != key {
      LastOfKey(fields[..|fields| - 1], key);
      var r := FindKey(fields, key);
      if r.Some? {
        assert forall k :: r.value < k < |fields| - 1 ==> fields[..|fields| - 1][k].0 == fields[k].0;
      }
    }
  }

  lemma HoldsField(j: Json, key: string, v: Json)
    requires Holds(j, key, v)
    ensures v == Field(j, key)
    ensures HasKey(j, key) <==> Has(j, key)
  {
    if Has(j, key) {
      LastOfKey(j.fields, key);
    }
  }

  ghost predicate SpellsText(j: Json, t: string) {
    j == JString(t) || (j == JNull && t == "")
  }

  ghost predicate SpellsDecimal(j: Json, v: real) {
    j == JDecimal(v) || (j.JNumber? && v == j.number as real) || (j == JNull && v == 0.0)
  }

  ghost predicate SpellsByte(j: Json, b: byte) {
    j == JNumber(b as int) || (j == JNull && b == 0)
  }

  /** Sixteen bytes: a missing byte is zero, and what comes after the sixteenth is ignored. */
  ghost predicate SpellsLocation(j: Json, l: LocationId) {
    if j.JArray? then forall i :: 0 <= i < 16 ==> SpellsByte(if i < |j.items| then j.items[i] else JNull, l[i])
    else j == JNull && forall i :: 0 <= i < 16 ==> l[i] == 0
  }

  /** A flat price is read exactly from an amount and a currency, where null and absent mean zero and empty. */
  lemma FlatIsReadIff(j: Json, money: Json, amount: Json, currency: Json, m: Money)
    requires Has(j, "Amount") && Holds(j, "Amount", money)
    requires Holds(money, "Amount", amount) && Holds(money, "Currency", currency)
    ensures LogicOf(j) == Some(Flat(m))
      <==> (money.JNull? || money.JObject?) && SpellsDecimal(amount, m.amount) && SpellsText(currency, m.currency)
  {
    HoldsField(j, "Amount", money);
    HoldsField(money, "Amount", amount);
    HoldsField(money, "Currency", currency);
  }

  /** An expression is read exactly from two texts, where null and absent mean empty. */
  lemma ExpressionIsReadIff(j: Json, formula: Json, currency: Json, f: string, c: string)
    requires !Has(j, "Amount") && Has(j, "Formula")
    requires Holds(j, "Formula", formula) && Holds(j, "Currency", currency)
    ensures LogicOf(j) == Some(Expression(f, c)) <==> SpellsText(formula, f) && SpellsText(currency, c)
  {
    HoldsField(j, "Formula", formula);
    HoldsField(j, "Currency", currency);
  }

  /** A composite is read from any list, and a null is the empty list. */
  lemma CompositeIsReadIff(j: Json, list: Json, steps: seq<Strategy>)
    requires !Has(j, "Amount") && !Has(j, "Formula") && Has(j, "Steps") && Holds(j, "Steps", list)
    ensures LogicOf(j) == Some(Composite(steps))
      <==> if list.JArray? then steps == StepsOf(list.items) else list == JNull && steps == []
  {
    HoldsField(j, "Steps", list);
  }

  lemma BytesSpell(j: Json)
    requires BytesOf(j).Some?
    ensures SpellsLocation(j, BytesOf(j).value)
  {
    if j.JArray? {
      forall i | 0 <= i < 16
        ensures SpellsByte(if i < |j.items| then j.items[i] else JNull, BytesOf(j).value[i])
      {
        assert i < |j.items| ==> IsByte(j.items[i]);
      }
    }
  }

  lemma SpelledIsRead(j: Json, l: LocationId)
    requires SpellsLocation(j, l)
    ensures BytesOf(j) == Some(l)
  {
    if j.JArray? {
      forall i | 0 <= i < |j.items| && i < 16
        ensures IsByte(j.items[i])
      {
        assert SpellsByte(j.items[i], l[i]);
      }
    }
    assert BytesOf(j).value == l;
  }

  lemma BytesAre(j: Json, l: LocationId)
    ensures BytesOf(j) == Some(l) <==> SpellsLocation(j, l)
  {
    if BytesOf(j).Some? {
      BytesSpell(j);
    }
    if SpellsLocation(j, l) {
      SpelledIsRead(j, l);
    }
  }

  /** A location scope is read exactly from its bytes and its service type. */
  lemma LocationIsReadIff(j: Json, location: Json, service: Json, l: LocationId, t: string)
    requires !Has(j, "OriginID") && Has(j, "LocationID")
    requires Holds(j, "LocationID", location) && Holds(j, "ServiceType", service)
    ensures ScopeOf(j) == Some(LocationService(l, t)) <==> SpellsLocation(location, l) && SpellsText(service, t)
  {
    HoldsField(j, "LocationID", location);
    HoldsField(j, "ServiceType", service);
    BytesAre(location, l);
  }

  /** A transportation scope is read exactly from two locations, in their order, and its mode. */
  lemma TransportationIsReadIff(
    j: Json, origin: Json, dest: Json, mode: Json, o: LocationId, d: LocationId, m: string)
    requires Has(j, "OriginID") && Holds(j, "OriginID", origin)
    requires Holds(j, "DestinationID", dest) && Holds(j, "Mode", mode)
    ensures ScopeOf(j) == Some(TransportationService(o, d, m))
      <==> SpellsLocation(origin, o) && SpellsLocation(dest, d) && SpellsText(mode, m)
  {
    HoldsField(j, "OriginID", origin);
    HoldsField(j, "DestinationID", dest);
    HoldsField(j, "Mode", mode);
    BytesAre(origin, o);
    BytesAre(dest, d);
  }

  ghost function OneStep(j: Json): seq<Strategy> {
    match LogicOf(j) case Some(s) => [s] case None => []
  }

  lemma OneMoreStep(items: seq<Json>, j: Json)
    ensures StepsOf(items + [j]) == StepsOf(items) + OneStep(j)
  {
    assert (items + [j])[..|items|] == items;
  }

  /** A step that cannot be read is left out, and the other steps are read as they would be without it. */
  lemma {:induction false} UnreadableStepIsLeftOut(a: seq<Json>, bad: Json, b: seq<Json>)
    requires LogicOf(bad) == None
    ensures StepsOf(a + [bad] + b) == StepsOf(a) + StepsOf(b) == StepsOf(a + b)
  {
    StepsOfBoth(a + [bad], b);
    StepsOfBoth(a, b);
    OneMoreStep(a, bad);
  }

  lemma {:induction false} StepsOfBoth(a: seq<Json>, b: seq<Json>)
    ensures StepsOf(a + b) == StepsOf(a) + StepsOf(b)
  {
    if b == [] {
      assert a + b == a;
    } else {
      var front, last := b[..|b| - 1], b[|b| - 1];
      assert b == front + [last] && a + b == (a + front) + [last];
      StepsOfBoth(a, front);
      OneMoreStep(front, last);
      OneMoreStep(a + front, last);
      Regroup(StepsOf(a), StepsOf(front), OneStep(last));
    }
  }

  lemma Regroup(x: seq<Strategy>, y: seq<Strategy>, z: seq<Strategy>)
    ensures (x + y) + z == x + (y + z)
  {
  }

  // ---------------------------------------------------------------- field order

  /** The two documents have the same keys with the same documents under them, in whatever order of fields. */
  ghost predicate SameDocument(a: Json, b: Json)
    decreases b
  {
    match (a, b)
    case (JObject(_), JObject(_)) =>
      forall key :: (HasKey(a, key) <==> HasKey(b, key))
        && (HasKey(b, key) ==> SameDocument(Field(a, key), Field(b, key)))
    case (JArray(x), JArray(y)) => |x| == |y| && forall i :: 0 <= i < |y| ==> SameDocument(x[i], y[i])
    case _ => a == b
  }

  lemma {:induction false} SameAsItself(j: Json)
    ensures SameDocument(j, j)
    decreases j
  {
    match j
    case JObject(_) =>
      forall key | HasKey(j, key)
        ensures SameDocument(Field(j, key), Field(j, key))
      {
        SameAsItself(Field(j, key));
      }
    case JArray(items) =>
      forall i | 0 <= i < |items|
        ensures SameDocument(items[i], items[i])
      {
        SameAsItself(items[i]);
      }
    case _ =>
  }

  ghost predicate DistinctKeys(fields: seq<(string, Json)>) {
    forall p, q :: 0 <= p < q < |fields| ==> fields[p].0 != fields[q].0
  }

  lemma KeyIsKept(f: seq<(string, Json)>, g: seq<(string, Json)>, key: string)
    requires multiset(f) == multiset(g)
    ensures HasKey(JObject(f), key) ==> HasKey(JObject(g), key)
  {
    if FindKey(f, key).Some? {
      assert f[FindKey(f, key).value] in multiset(g);
    }
  }

  /** Reordering the fields of an object leaves the same document. */
  lemma {:induction false} ReorderedFieldsAreSame(f: seq<(string, Json)>, g: seq<(string, Json)>)
    requires multiset(f) == multiset(g) && DistinctKeys(f) && DistinctKeys(g)
    ensures SameDocument(JObject(f), JObject(g))
  {
    var a, b := JObject(f), JObject(g);
    forall key
      ensures HasKey(a, key) <==> HasKey(b, key)
      ensures HasKey(b, key) ==> SameDocument(Field(a, key), Field(b, key))
    {
      KeyIsKept(f, g, key);
      KeyIsKept(g, f, key);
      if HasKey(b, key) {
        var k := FindKey(g, key).value;
        assert g[k] in multiset(f);
        var i :| 0 <= i < |f| && f[i] == g[k];
        FieldAt(f, i);
        SameAsItself(g[k].1);
      }
    }
  }

  lemma SameFields(a: Json, b: Json, key: string)
    requires SameDocument(a, b)
    ensures HasKey(a, key) <==> HasKey(b, key)
    ensures SameDocument(Field(a, key), Field(b, key))
  {
  }

  lemma SameLeaves(a: Json, b: Json)
    requires SameDocument(a, b)
    ensures TextOf(a) == TextOf(b) && DecimalOf(a) == DecimalOf(b) && (a.JNull? <==> b.JNull?)
    ensures (a.JObject? <==> b.JObject?) && (a.JArray? <==> b.JArray?) && (IsByte(a) <==> IsByte(b))
    ensures a.JNumber? || b.JNumber? ==> a == b
  {
  }

  lemma SameBytes(a: Json, b: Json)
    requires SameDocument(a, b)
    ensures BytesOf(a) == BytesOf(b)
  {
    SameLeaves(a, b);
    if a.JArray? {
      forall i | 0 <= i < |a.items|
        ensures (IsByte(a.items[i]) <==> IsByte(b.items[i]))
        ensures a.items[i].JNumber? || b.items[i].JNumber? ==> a.items[i] == b.items[i]
      {
        SameLeaves(a.items[i], b.items[i]);
      }
      if BytesOf(a).Some? {
        assert BytesOf(a).value == BytesOf(b).value;
      }
    }
  }

  /** Decoding a scope does not depend on the order of fields. */
  lemma SameScope(a: Json, b: Json)
    requires SameDocument(a, b)
    ensures ScopeOf(a) == ScopeOf(b)
  {
    SameFields(a, b, "OriginID");
    SameFields(a, b, "DestinationID");
    SameFields(a, b, "Mode");
    SameFields(a, b, "LocationID");
    SameFields(a, b, "ServiceType");
    SameBytes(Field(a, "OriginID"), Field(b, "OriginID"));
    SameBytes(Field(a, "DestinationID"), Field(b, "DestinationID"));
    SameBytes(Field(a, "LocationID"), Field(b, "LocationID"));
    SameLeaves(Field(a, "Mode"), Field(b, "Mode"));
    SameLeaves(Field(a, "ServiceType"), Field(b, "ServiceType"));
  }

  lemma SameFlat(a: Json, b: Json)
    requires SameDocument(a, b)
    ensures FlatOf(a) == FlatOf(b)
  {
    SameFields(a, b, "Amount");
    SameFields(a, b, "Currency");
    SameLeaves(a, b);
    SameLeaves(Field(a, "Amount"), Field(b, "Amount"));
    SameLeaves(Field(a, "Currency"), Field(b, "Currency"));
  }

  lemma SameExpression(a: Json, b: Json)
    requires SameDocument(a, b)
    ensures ExpressionOf(a) == ExpressionOf(b)
  {
    SameFields(a, b, "Formula");
    SameFields(a, b, "Currency");
    SameLeaves(Field(a, "Formula"), Field(b, "Formula"));
    SameLeaves(Field(a, "Currency"), Field(b, "Currency"));
  }

  /** Decoding a pricing tree does not depend on the order of fields at any depth. */
  lemma {:induction false} SameLogic(a: Json, b: Json)
    requires SameDocument(a, b)
    ensures LogicOf(a) == LogicOf(b)
    decreases b
  {
    SameFields(a, b, "Amount");
    SameFields(a, b, "Formula");
    SameFields(a, b, "Steps");
    SameFlat(Field(a, "Amount"), Field(b, "Amount"));
    SameExpression(a, b);
    var x, y := Field(a, "Steps"), Field(b, "Steps");
    SameLeaves(x, y);
    if HasKey(b, "Steps") && y.JArray? {
      SameSteps(x.items, y.items);
    }
  }

  lemma {:induction false} SameSteps(x: seq<Json>, y: seq<Json>)
    requires |x| == |y| && forall i :: 0 <= i < |y| ==> SameDocument(x[i], y[i])
    ensures StepsOf(x) == StepsOf(y)
    decreases y
  {
    if y != [] {
      SameSteps(x[..|x| - 1], y[..|y| - 1]);
      SameLogic(x[|x| - 1], y[|y| - 1]);
    }
  }

  // ---------------------------------------------------------------- stored line items

  datatype ItemRow = ItemRow(id: Id, chargeCode: string, category: string, scope: Json, logic: Json)

  function RowOf(item: LineItem): ItemRow {
    ItemRow(item.id, item.chargeCode, item.category, ScopeJson(item.scope), LogicJson(item.logic))
  }

  function RowsOf(items: seq<LineItem>): seq<ItemRow> {
    seq(|items|, i requires 0 <= i < |items| => RowOf(items[i]))
  }

  /** The line item a row is loaded as; a scope or logic that cannot be read would be nil. */
  function ItemOf(row: ItemRow): Option<LineItem> {
    match (ScopeOf(row.scope), LogicOf(row.logic))
    case (Some(s), Some(l)) => Some(LineItem(row.id, row.chargeCode, row.category, s, l))
    case _ => None
  }

  /** The stored row `b`, as it may come back: its documents need not keep the order of their fields. */
  ghost predicate SameRow(a: ItemRow, b: ItemRow) {
    && a.id == b.id && a.chargeCode == b.chargeCode && a.category == b.category
    && SameDocument(a.scope, b.scope) && SameDocument(a.logic, b.logic)
  }

  ghost predicate AreSameRows(rows: seq<ItemRow>, stored: seq<ItemRow>) {
    |rows| == |stored| && forall i :: 0 <= i < |rows| ==> SameRow(rows[i], stored[i])
  }

  /** `rows` are the rows of the stored `items`, in whatever order the store returns rows and fields. */
  ghost predicate AreRowsOf(rows: seq<ItemRow>, items: seq<LineItem>) {
    exists stored :: multiset(stored) == multiset(RowsOf(items)) && AreSameRows(rows, stored)
  }

  ghost predicate AllReadable(rows: seq<ItemRow>) {
    forall row :: row in rows ==> ItemOf(row).Some?
  }

  /** The line items that a load of readable rows yields. */
  ghost function LoadedFrom(rows: seq<ItemRow>): seq<LineItem>
    requires AllReadable(rows)
  {
    seq(|rows|, i requires 0 <= i < |rows| => ItemOf(rows[i]).value)
  }

  lemma ItemRoundTrip(item: LineItem)
    ensures ItemOf(RowOf(item)) == Some(item)
  {
    ScopeRoundTrip(item.scope);
    LogicRoundTrip(item.logic);
  }

  lemma SameItem(a: ItemRow, b: ItemRow)
    requires SameRow(a, b)
    ensures ItemOf(a) == ItemOf(b)
  {
    SameScope(a.scope, b.scope);
    SameLogic(a.logic, b.logic);
  }

  lemma StoredRowIsReadable(row: ItemRow, stored: seq<ItemRow>, items: seq<LineItem>)
    requires multiset(stored) == multiset(RowsOf(items)) && row in stored
    ensures ItemOf(row).Some?
  {
    assert row in multiset(stored) && row in multiset(RowsOf(items));
    var i :| 0 <= i < |items| && RowsOf(items)[i] == row;
    ItemRoundTrip(items[i]);
  }

  lemma StoredRowsArePermutation(stored: seq<ItemRow>, items: seq<LineItem>)
    requires multiset(stored) == multiset(RowsOf(items))
    ensures AllReadable(stored) && multiset(LoadedFrom(stored)) == multiset(items)
  {
    forall row | row in stored
      ensures ItemOf(row).Some?
    {
      StoredRowIsReadable(row, stored, items);
    }
    forall i, j | 0 <= i < |stored| && 0 <= j < |items| && stored[i] == RowsOf(items)[j]
      ensures LoadedFrom(stored)[i] == items[j]
    {
      ItemRoundTrip(items[j]);
    }
    Relabel(stored, RowsOf(items), LoadedFrom(stored), items);
  }

  lemma SameRowsReadAlike(rows: seq<ItemRow>, stored: seq<ItemRow>)
    requires AreSameRows(rows, stored) && AllReadable(stored)
    ensures AllReadable(rows) && LoadedFrom(rows) == LoadedFrom(stored)
  {
    forall i | 0 <= i < |rows|
      ensures ItemOf(rows[i]) == ItemOf(stored[i]) && ItemOf(rows[i]).Some?
    {
      SameItem(rows[i], stored[i]);
      assert stored[i] in stored;
    }
  }

  /** A load can read every stored row, and yields the stored line items, each as often as it was stored. */
  lemma {:induction false} ReloadIsPermutation(rows: seq<ItemRow>, items: seq<LineItem>)
    requires AreRowsOf(rows, items)
    ensures AllReadable(rows) && multiset(LoadedFrom(rows)) == multiset(items)
  {
    var stored :| multiset(stored) == multiset(RowsOf(items)) && AreSameRows(rows, stored);
    StoredRowsArePermutation(stored, items);
    SameRowsReadAlike(rows, stored);
  }

  // ---------------------------------------------------------------- pricing does not depend on item order

  lemma {:induction false} AppliedCollects(items: seq<LineItem>, ctx: ShipmentContext, eng: Engine)
    ensures Applied(items, ctx, eng) == Collect(items, item => AppliedOne(item, ctx, eng))
  {
    if items != [] {
      AppliedCollects(items[..|items| - 1], ctx, eng);
    }
  }

  /** Reordering line items keeps every charge. */
  lemma AppliedPermutation(a: seq<LineItem>, b: seq<LineItem>, ctx: ShipmentContext, eng: Engine)
    requires multiset(a) == multiset(b)
    ensures multiset(Applied(a, ctx, eng)) == multiset(Applied(b, ctx, eng))
  {
    AppliedCollects(a, ctx, eng);
    AppliedCollects(b, ctx, eng);
    CollectPermutation(a, b, item => AppliedOne(item, ctx, eng));
  }

  lemma SamePricing(now: seq<LineItem>, was: seq<LineItem>, ctx: ShipmentContext, eng: Engine)
    requires multiset(now) == multiset(was)
    ensures AnyFails(now, ctx, eng) <==> AnyFails(was, ctx, eng)
    ensures multiset(Applied(now, ctx, eng)) == multiset(Applied(was, ctx, eng))
    ensures forall c ::
      SumIn(AppliedAmounts(Applied(now, ctx, eng)), c) == SumIn(AppliedAmounts(Applied(was, ctx, eng)), c)
  {
    assert forall x :: x in now <==> x in multiset(now);
    assert forall x :: x in was <==> x in multiset(was);
    AppliedPermutation(now, was, ctx, eng);
    var a, b := Applied(now, ctx, eng), Applied(was, ctx, eng);
    Relabel(a, b, AppliedAmounts(a), AppliedAmounts(b));
    forall c
      ensures SumIn(AppliedAmounts(a), c) == SumIn(AppliedAmounts(b), c)
    {
      SumInPermutation(AppliedAmounts(a), AppliedAmounts(b), c);
    }
  }

  /**
   A stored and reloaded tariff prices every request as it did before: it fails for the same
   requests, applies the same charges equally often, and has the same sum in every currency.
   */
  lemma {:induction false} ReloadedTariffPricesAlike(
    rows: seq<ItemRow>, items: seq<LineItem>, req: CalculationRequest, eng: Engine)
    requires AreRowsOf(rows, items)
    ensures AllReadable(rows)
    ensures var ctx := ToShipmentContext(req);
      var was, now := Applied(items, ctx, eng), Applied(LoadedFrom(rows), ctx, eng);
      && (AnyFails(LoadedFrom(rows), ctx, eng) <==> AnyFails(items, ctx, eng))
      && multiset(now) == multiset(was)
      && forall c :: SumIn(AppliedAmounts(now), c) == SumIn(AppliedAmounts(was), c)
  {
    ReloadIsPermutation(rows, items);
    SamePricing(LoadedFrom(rows), items, ToShipmentContext(req), eng);
  }
}
