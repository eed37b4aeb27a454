/** The scope that a sheet row names, and the text of it by which rows are grouped. */
module CellScopes {
  import opened Pricing
  import opened Shared
  import opened StrategyBuilder

  /** A scope as resolved from the cells of a row: locations are known, mode and service type may be absent. */
  datatype CellScope =
    | TransportCells(origin: LocationId, destination: LocationId, mode: Option<string>)
    | LocationCells(location: LocationId, serviceType: Option<string>)

  /** The scope attributes of a parsed line item; a printed UUID is read back as itself. */
  function ScopeAttrs(s: CellScope): ScopeInput {
    match s
    case TransportCells(o, d, m) => ScopeInput(TransportationScope, None, None, Some(Some(o)), Some(Some(d)), m)
    case LocationCells(l, t) => ScopeInput(LocationScope, Some(Some(l)), t, None, None, None)
  }

  // ---------------------------------------------------------------- the text of a scope

  const HEX_DIGITS := "0123456789abcdef"

  function HexText(bytes: seq<byte>): (s: string)
    ensures |s| == 2 * |bytes|
  {
    if bytes == [] then ""
    else
      var b := bytes[0] as int;
      [HEX_DIGITS[b / 16], HEX_DIGITS[b % 16]] + HexText(bytes[1..])
  }

  function UuidText(id: LocationId): (s: string)
    ensures |s| == 36
  {
    HexText(id[..4]) + "-" + (HexText(id[4..6]) + "-" + (HexText(id[6..8]) + "-" + (HexText(id[8..10]) + "-"
    + HexText(id[10..]))))
  }

  /** An attribute that is only printed if it is there. */
  function OptionalText(title: string, value: Option<string>): string {
    match value case None => "" case Some(v) => title + v
  }

  /** The scope type and its attributes, which are printed in the order of their names. */
  function ScopeKey(s: CellScope): string {
    match s
    case TransportCells(o, d, m) =>
      "TRANSPORTATION:map[DestinationID:"
      + (UuidText(d) + (OptionalText(" Mode:", m) + (" OriginID:" + (UuidText(o) + "]"))))
    case LocationCells(l, t) =>
      "LOCATION:map[LocationID:" + (UuidText(l) + (OptionalText(" ServiceType:", t) + "]"))
  }

  // ---------------------------------------------------------------- the text determines the scope

  lemma SameFront(a: string, x: string, b: string, y: string)
    requires a + x == b + y && |a| == |b|
    ensures a == b && x == y
  {
    assert a == (a + x)[..|a|] && b == (b + y)[..|b|];
    assert x == (a + x)[|a|..] && y == (b + y)[|b|..];
  }

  lemma SameBack(a: string, x: string, b: string, y: string)
    requires a + x == b + y && |x| == |y|
    ensures a == b && x == y
  {
    assert |a + x| == |b + y|;
    SameFront(a, x, b, y);
  }

  lemma SameByte(a: byte, b: byte)
    requires HEX_DIGITS[a as int / 16] == HEX_DIGITS[b as int / 16]
    requires HEX_DIGITS[a as int % 16] == HEX_DIGITS[b as int % 16]
    ensures a == b
  {
    assert forall i, j :: 0 <= i < j < 16 ==> HEX_DIGITS[i] != HEX_DIGITS[j];
  }

  lemma {:induction false} HexTextIsInjective(a: seq<byte>, b: seq<byte>)
    requires |a| == |b| && HexText(a) == HexText(b)
    ensures a == b
  {
    if a != [] {
      var x, y := a[0] as int, b[0] as int;
      SameFront([HEX_DIGITS[x / 16], HEX_DIGITS[x % 16]], HexText(a[1..]),
        [HEX_DIGITS[y / 16], HEX_DIGITS[y % 16]], HexText(b[1..]));
      SameByte(a[0], b[0]);
      HexTextIsInjective(a[1..], b[1..]);
      assert a == [a[0]] + a[1..] && b == [b[0]] + b[1..];
    }
  }

  /** One group of hexadecimal digits and the rest behind the dash. */
  lemma SameGroup(a: seq<byte>, x: string, b: seq<byte>, y: string)
    requires |a| == |b| && HexText(a) + "-" + x == HexText(b) + "-" + y
    ensures a == b && x == y
  {
    SameFront(HexText(a) + "-", x, HexText(b) + "-", y);
    SameFront(HexText(a), "-", HexText(b), "-");
    HexTextIsInjective(a, b);
  }

  lemma UuidTextIsInjective(a: LocationId, b: LocationId)
    requires UuidText(a) == UuidText(b)
    ensures a == b
  {
    var a4, b4 := HexText(a[8..10]) + "-" + HexText(a[10..]), HexText(b[8..10]) + "-" + HexText(b[10..]);
    var a3, b3 := HexText(a[6..8]) + "-" + a4, HexText(b[6..8]) + "-" + b4;
    var a2, b2 := HexText(a[4..6]) + "-" + a3, HexText(b[4..6]) + "-" + b3;
    SameGroup(a[..4], a2, b[..4], b2);
    SameGroup(a[4..6], a3, b[4..6], b3);
    SameGroup(a[6..8], a4, b[6..8], b4);
    SameGroup(a[8..10], HexText(a[10..]), b[8..10], HexText(b[10..]));
    HexTextIsInjective(a[10..], b[10..]);
    Pieces(a);
    Pieces(b);
  }

  lemma Pieces(a: LocationId)
    ensures a == a[..4] + a[4..6] + a[6..8] + a[8..10] + a[10..]
  {
  }

  lemma OptionalTextIsInjective(title: string, a: Option<string>, b: Option<string>)
    requires title != "" && OptionalText(title, a) == OptionalText(title, b)
    ensures a == b
  {
    if a.Some? && b.Some? {
      SameFront(title, a.value, title, b.value);
    }
  }

  lemma TransportKeyIsInjective(a: CellScope, b: CellScope)
    requires a.TransportCells? && b.TransportCells? && ScopeKey(a) == ScopeKey(b)
    ensures a == b
  {
    var front := "TRANSPORTATION:map[DestinationID:";
    var endA, endB := " OriginID:" + (UuidText(a.origin) + "]"), " OriginID:" + (UuidText(b.origin) + "]");
    var modeA, modeB := OptionalText(" Mode:", a.mode), OptionalText(" Mode:", b.mode);
    SameFront(front, UuidText(a.destination) + (modeA + endA), front, UuidText(b.destination) + (modeB + endB));
    SameFront(UuidText(a.destination), modeA + endA, UuidText(b.destination), modeB + endB);
    SameBack(modeA, endA, modeB, endB);
    SameFront(" OriginID:", UuidText(a.origin) + "]", " OriginID:", UuidText(b.origin) + "]");
    SameFront(UuidText(a.origin), "]", UuidText(b.origin), "]");
    UuidTextIsInjective(a.origin, b.origin);
    UuidTextIsInjective(a.destination, b.destination);
    OptionalTextIsInjective(" Mode:", a.mode, b.mode);
  }

  lemma LocationKeyIsInjective(a: CellScope, b: CellScope)
    requires a.LocationCells? && b.LocationCells? && ScopeKey(a) == ScopeKey(b)
    ensures a == b
  {
    var front := "LOCATION:map[LocationID:";
    var typeA, typeB := OptionalText(" ServiceType:", a.serviceType), OptionalText(" ServiceType:", b.serviceType);
    SameFront(front, UuidText(a.location) + (typeA + "]"), front, UuidText(b.location) + (typeB + "]"));
    SameFront(UuidText(a.location), typeA + "]", UuidText(b.location), typeB + "]");
    SameBack(typeA, "]", typeB, "]");
    UuidTextIsInjective(a.location, b.location);
    OptionalTextIsInjective(" ServiceType:", a.serviceType, b.serviceType);
  }

  /** Scopes with the same text are the same, so comparing texts is comparing scopes. */
  lemma {:induction false} ScopeKeyIsInjective(a: CellScope, b: CellScope)
    requires ScopeKey(a) == ScopeKey(b)
    ensures a == b
  {
    assert a.TransportCells? <==> ScopeKey(a)[0] == 'T';
    assert b.TransportCells? <==> ScopeKey(b)[0] == 'T';
    if a.TransportCells? {
      TransportKeyIsInjective(a, b);
    } else {
      LocationKeyIsInjective(a, b);
    }
  }
}
