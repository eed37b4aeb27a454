/**
 Weight-band rows are compiled into one conditional price formula. The formula's text parses
 to the intended chain of conditionals, and the chain prices a shipment by its band.
 */
module WeightBands {
  import opened DecimalText
  import opened FormulaLanguage
  import opened Pricing
  import opened Shared

  datatype Band = Band(weightMin: Decimal, weightMax: Decimal, amount: Decimal, currency: string)

  // ---------------------------------------------------------------- the text

  function PriceText(b: Band): string {
    "weight * " + DecimalString(b.amount)
  }

  function GuardedText(b: Band): string {
    "weight <= " + DecimalString(b.weightMax) + " ? " + PriceText(b)
  }

  function FormulaText(bands: seq<Band>): string {
    if bands == [] then "0"
    else if |bands| == 1 then PriceText(bands[0])
    else GuardedText(bands[0]) + " : " + FormulaText(bands[1..])
  }

  function Join(parts: seq<string>, separator: string): string {
    if parts == [] then ""
    else if |parts| == 1 then parts[0]
    else Join(parts[..|parts| - 1], separator) + separator + parts[|parts| - 1]
  }

  /** buildWeightBandFormula. */
  method BuildWeightBandFormula(bands: seq<Band>) returns (formula: string)
    ensures formula == FormulaText(bands)
  {
    if |bands| == 0 {
      return "0";
    }
    if |bands| == 1 {
      return PriceText(bands[0]);
    }
    var parts: seq<string> := [];
    for i := 0 to |bands|
      invariant |parts| == i
      invariant i == 0 || i == |bands| || Join(parts, " : ") + " : " + FormulaText(bands[i..]) == FormulaText(bands)
      invariant i == |bands| ==> Join(parts, " : ") == FormulaText(bands)
    {
      ghost var before := parts;
      if i == |bands| - 1 {
        parts := parts + [PriceText(bands[i])];
      } else {
        parts := parts + [GuardedText(bands[i])];
        assert bands[i..][1..] == bands[i + 1..];
      }
      assert parts[..i] == before;
      if i == 0 {
        assert bands[0..] == bands;
      } else {
        JoinTail(Join(before, " : "), parts[i], FormulaText(bands[i + 1..]), FormulaText(bands[i..]));
      }
    }
    formula := Join(parts, " : ");
  }

  /** One and two digits, as printed. */
  lemma PrintedDigits()
    ensures NatText(4) == "4" && NatText(6) == "6" && NatText(7) == "7" && NatText(8) == "8" && NatText(45) == "45"
    ensures PaddedText(85, 1) == "5" && PaddedText(72, 1) == "2"
  {
    assert NatText(45) == NatText(4) + "5";
    assert PaddedText(85, 1) == PaddedText(8, 0) + "5" && PaddedText(72, 1) == PaddedText(7, 0) + "2";
  }

  /** Decimals are printed without trailing zeros, and without a point if nothing follows it. */
  lemma PrintedDecimals()
    ensures DecimalString(Decimal(850, 2)) == "8.5" && DecimalString(Decimal(-720, 2)) == "-7.2"
    ensures DecimalString(Decimal(600, 2)) == "6" && DecimalString(Decimal(45, 0)) == "45"
  {
    PrintedDigits();
    assert Normal(Decimal(850, 2)) == Decimal(85, 1) && Normal(Decimal(-720, 2)) == Decimal(-72, 1);
    assert Normal(Decimal(600, 2)) == Normal(Decimal(60, 1)) == Decimal(6, 0);
    assert DropDigits(85, 1) == 8 && DropDigits(72, 1) == 7;
  }

  lemma PrintedParts(a: string, b: string, c: string)
    requires a == "45" && b == "8.5" && c == "6"
    ensures ("weight <= " + a + " ? " + ("weight * " + b)) + " : " + ("weight * " + c)
      == "weight <= 45 ? weight * 8.5 : weight * 6"
  {
  }

  /** Two bands of the source's own example, as text. */
  lemma DocumentedFormula(currency: string)
    ensures FormulaText([
      Band(Decimal(0, 0), Decimal(45, 0), Decimal(850, 2), currency),
      Band(Decimal(45, 0), Decimal(0, 0), Decimal(600, 2), currency)])
      == "weight <= 45 ? weight * 8.5 : weight * 6"
  {
    var a := Band(Decimal(0, 0), Decimal(45, 0), Decimal(850, 2), currency);
    var b := Band(Decimal(45, 0), Decimal(0, 0), Decimal(600, 2), currency);
    PrintedDecimals();
    TwoBands(a, b);
    PrintedParts(DecimalString(a.weightMax), DecimalString(a.amount), DecimalString(b.amount));
  }

  lemma TwoBands(a: Band, b: Band)
    ensures FormulaText([a, b])
      == ("weight <= " + DecimalString(a.weightMax) + " ? " + ("weight * " + DecimalString(a.amount)))
         + " : " + ("weight * " + DecimalString(b.amount))
  {
    assert [a, b][1..] == [b];
  }

  /** Moving one more part to the front of a joined text. */
  lemma JoinTail(front: string, part: string, tail: string, rest: string)
    ensures rest == part + " : " + tail ==>
      (front + " : " + part) + " : " + tail == front + " : " + rest
  {
  }

  // ---------------------------------------------------------------- the syntax tree

  ghost function PriceTree(b: Band): Expr {
    Mul(Name("weight"), Literal(b.amount))
  }

  /** The nested conditionals a formula is meant to be. */
  ghost function Tree(bands: seq<Band>): Expr {
    if bands == [] then Num(Decimal(0, 0))
    else if |bands| == 1 then PriceTree(bands[0])
    else Cond(AtMost(Name("weight"), Literal(bands[0].weightMax)), PriceTree(bands[0]), Tree(bands[1..]))
  }

  ghost function PriceTokens(b: Band): seq<Token> {
    [TName("weight"), TStar] + LiteralTokens(b.amount)
  }

  ghost function GuardTokens(b: Band): seq<Token> {
    [TName("weight"), TAtMost] + LiteralTokens(b.weightMax)
  }

  ghost function FormulaTokens(bands: seq<Band>): seq<Token>
    requires bands != []
  {
    if |bands| == 1 then PriceTokens(bands[0])
    else GuardTokens(bands[0]) + ([TQuestion] + (PriceTokens(bands[0]) + ([TColon] + FormulaTokens(bands[1..]))))
  }

  // ---------------------------------------------------------------- lexing the text

  lemma LexWeight(rest: string)
    requires rest != "" && !IsLetter(rest[0])
    ensures Lex("weight" + rest) == Cons(TName("weight"), Lex(rest))
  {
    var s := "weight" + rest;
    assert s[0] == 'w' && s[1] == 'e' && s[2] == 'i' && s[3] == 'g' && s[4] == 'h' && s[5] == 't' && s[6] == rest[0];
    assert LetterSpan(s) == 6;
    assert s[..6] == "weight";
    LexFirst("weight", TName("weight"), rest);
  }

  lemma LexSpace(rest: string)
    ensures Lex(" " + rest) == Lex(rest)
  {
    assert (" " + rest)[1..] == rest;
  }

  lemma LexSymbol(op: string, t: Token, rest: string)
    requires (op, t) in {("*", TStar), ("<=", TAtMost), ("?", TQuestion), (":", TColon)}
    ensures Lex(op + rest) == Cons(t, Lex(rest))
  {
    LexFirst(op, t, rest);
  }

  /** An operator between spaces is one token. */
  lemma LexOperator(op: string, t: Token, rest: string)
    requires (op, t) in {("*", TStar), ("<=", TAtMost), ("?", TQuestion), (":", TColon)}
    ensures Lex(" " + (op + (" " + rest))) == Cons(t, Lex(rest))
  {
    LexSpace(op + (" " + rest));
    LexSymbol(op, t, " " + rest);
    LexSpace(rest);
  }

  lemma PrependCons(t: Token, u: Token, ts: seq<Token>, more: Option<seq<Token>>)
    ensures Cons(t, Cons(u, Prepend(ts, more))) == Prepend([t, u] + ts, more)
  {
    if more.Some? {
      assert [t] + ([u] + (ts + more.value)) == [t, u] + ts + more.value;
    }
  }

  /** "weight", an operator and a decimal. */
  lemma LexTerm(op: string, t: Token, d: Decimal, rest: string)
    requires (op, t) in {("*", TStar), ("<=", TAtMost)}
    requires EndsLiteral(rest)
    ensures Lex("weight" + (" " + (op + (" " + (DecimalString(d) + rest)))))
      == Prepend([TName("weight"), t] + LiteralTokens(d), Lex(rest))
  {
    LexWeight(" " + (op + (" " + (DecimalString(d) + rest))));
    LexOperator(op, t, DecimalString(d) + rest);
    LexLiteral(d, rest);
    PrependCons(TName("weight"), t, LiteralTokens(d), Lex(rest));
  }

  lemma LexPrice(b: Band, rest: string)
    requires EndsLiteral(rest)
    ensures Lex(PriceText(b) + rest) == Prepend(PriceTokens(b), Lex(rest))
  {
    LexTerm("*", TStar, b.amount, rest);
    PriceShape(DecimalString(b.amount), rest);
  }

  lemma PriceShape(amount: string, rest: string)
    ensures "weight * " + amount + rest == "weight" + (" " + ("*" + (" " + (amount + rest))))
  {
    Spaced("*", amount + rest);
    assert "weight" + (" " + "*" + " ") == "weight * ";
    assert "weight" + ((" " + "*" + " ") + (amount + rest)) == "weight * " + (amount + rest);
  }

  lemma {:induction false} LexFormula(bands: seq<Band>)
    requires bands != []
    ensures Lex(FormulaText(bands)) == Some(FormulaTokens(bands))
    decreases |bands|
  {
    var b := bands[0];
    if |bands| == 1 {
      LexPrice(b, "");
      assert PriceText(b) + "" == PriceText(b);
      assert PriceTokens(b) + [] == PriceTokens(b);
    } else {
      var tail := FormulaText(bands[1..]);
      LexFormula(bands[1..]);
      var colon := " " + (":" + (" " + tail));
      LexOperator(":", TColon, tail);
      LexPrice(b, colon);
      var question := " " + ("?" + (" " + (PriceText(b) + colon)));
      LexOperator("?", TQuestion, PriceText(b) + colon);
      LexTerm("<=", TAtMost, b.weightMax, question);
      GuardedShape(b, tail);
    }
  }

  lemma Regroup(a: string, m: string, q: string, p: string, c: string, t: string)
    ensures ((a + m + q + p) + c) + t == a + (m + (q + (p + (c + t))))
  {
  }

  lemma Spaced(op: string, t: string)
    ensures " " + (op + (" " + t)) == (" " + op + " ") + t
  {
  }

  lemma GuardedShape(b: Band, tail: string)
    ensures GuardedText(b) + " : " + tail
      == "weight" + (" " + ("<=" + (" " + (DecimalString(b.weightMax)
         + (" " + ("?" + (" " + (PriceText(b) + (" " + (":" + (" " + tail)))))))))))
  {
    AssembledShape(DecimalString(b.weightMax), PriceText(b), tail);
  }

  lemma AssembledShape(m: string, p: string, tail: string)
    ensures "weight <= " + m + " ? " + p + " : " + tail
      == "weight" + (" " + ("<=" + (" " + (m + (" " + ("?" + (" " + (p + (" " + (":" + (" " + tail)))))))))))
  {
    Regroup("weight <= ", m, " ? ", p, " : ", tail);
    var colon := " : " + tail;
    var question := " ? " + (p + colon);
    Spaced(":", tail);
    Spaced("?", p + colon);
    Spaced("<=", m + question);
    AtMostPrefix(m + question);
  }

  lemma AtMostPrefix(t: string)
    ensures "weight <= " + t == "weight" + ((" " + "<=" + " ") + t)
  {
    assert "weight" + (" " + "<=" + " ") == "weight <= ";
  }

  // ---------------------------------------------------------------- parsing the tokens

  lemma ParseLiteral(d: Decimal, rest: seq<Token>)
    ensures ParseUnary(LiteralTokens(d) + rest) == Got(Literal(d), rest)
  {
    var ts := LiteralTokens(d) + rest;
    if Normal(d).coef < 0 {
      assert ts[1..][1..] == rest && ts[1..][0] == LiteralTokens(d)[1];
    } else {
      assert ts[1..] == rest;
    }
  }

  lemma ParsePrice(b: Band, rest: seq<Token>)
    requires rest != [] ==> rest[0] != TStar
    ensures ParseProduct(PriceTokens(b) + rest) == Got(PriceTree(b), rest)
  {
    var ts := PriceTokens(b) + rest;
    assert ts[1..][1..] == LiteralTokens(b.amount) + rest && ts[1..][0] == TStar;
    ParseLiteral(b.amount, rest);
    assert ParseUnary(ts) == Got(Name("weight"), ts[1..]);
    assert ParseFactors(PriceTree(b), rest) == Got(PriceTree(b), rest);
  }

  lemma ParsePriceExpr(b: Band, rest: seq<Token>)
    requires rest != [] ==> rest[0] == TColon
    ensures ParseExpr(PriceTokens(b) + rest) == Got(PriceTree(b), rest)
  {
    ParsePrice(b, rest);
  }

  lemma ParseGuard(b: Band, rest: seq<Token>)
    requires rest != [] && rest[0] == TQuestion
    ensures ParseComparison(GuardTokens(b) + rest) == Got(AtMost(Name("weight"), Literal(b.weightMax)), rest)
  {
    var ts := GuardTokens(b) + rest;
    assert ts[1..][0] == TAtMost && ts[1..][1..] == LiteralTokens(b.weightMax) + rest;
    assert ParseProduct(ts) == Got(Name("weight"), ts[1..]);
    ParseLiteral(b.weightMax, rest);
    assert ParseProduct(ts[1..][1..]) == Got(Literal(b.weightMax), rest);
  }

  lemma {:induction false} ParseFormula(bands: seq<Band>)
    requires bands != []
    ensures ParseExpr(FormulaTokens(bands)) == Got(Tree(bands), [])
    decreases |bands|
  {
    var b := bands[0];
    if |bands| == 1 {
      ParsePriceExpr(b, []);
      assert PriceTokens(b) + [] == PriceTokens(b);
    } else {
      var tail := FormulaTokens(bands[1..]);
      ParseFormula(bands[1..]);
      var colon := [TColon] + tail;
      ParsePriceExpr(b, colon);
      ParseGuard(b, [TQuestion] + (PriceTokens(b) + colon));
      assert ([TQuestion] + (PriceTokens(b) + colon))[1..] == PriceTokens(b) + colon;
      assert colon[1..] == tail;
    }
  }

  /** The generated text parses to the intended nesting of conditionals. */
  lemma {:induction false} FormulaParses(bands: seq<Band>)
    ensures Parse(FormulaText(bands)) == Some(Tree(bands))
  {
    if bands == [] {
      var zero := Decimal(0, 0);
      LexUnsigned(zero, "");
      assert UnsignedText(zero) + "" == "0";
      assert ParseUnary([TNumber(zero)]) == Got(Num(zero), []);
    } else {
      LexFormula(bands);
      ParseFormula(bands);
    }
  }

  lemma LiteralNamesNothing(d: Decimal)
    ensures Names(Literal(d)) == {}
  {
    var n := Normal(d);
    assert n.coef < 0 ==> Names(Num(Decimal(-n.coef, n.scale))) == {};
  }

  lemma PartsNameWeight(b: Band)
    ensures Names(PriceTree(b)) == {"weight"}
    ensures Names(AtMost(Name("weight"), Literal(b.weightMax))) == {"weight"}
  {
    LiteralNamesNothing(b.amount);
    LiteralNamesNothing(b.weightMax);
    assert Names(Name("weight")) == {"weight"};
  }

  /** The only name in a generated formula is "weight". */
  lemma {:induction false} OnlyWeightIsNamed(bands: seq<Band>)
    ensures Names(Tree(bands)) <= {"weight"}
    decreases |bands|
  {
    if bands != [] {
      PartsNameWeight(bands[0]);
      OnlyWeightIsNamed(bands[1..]);
    }
  }

  // ---------------------------------------------------------------- picking a band

  datatype Range = Range(min: real, max: real) {
    ghost predicate Contains(w: real) {
      min < w <= max
    }
  }

  ghost function RangeOf(b: Band): Range {
    Range(Value(b.weightMin), Value(b.weightMax))
  }

  ghost function Ranges(bands: seq<Band>): seq<Range> {
    seq(|bands|, i requires 0 <= i < |bands| => RangeOf(bands[i]))
  }

  /** The position of the range that is charged at weight `w`: only upper ends matter, and the last is a catch-all. */
  ghost function Pick(ranges: seq<Range>, w: real): (k: nat)
    requires ranges != []
    ensures k < |ranges|
    ensures forall j :: 0 <= j < k ==> w > ranges[j].max
    ensures k < |ranges| - 1 ==> w <= ranges[k].max
  {
    if |ranges| == 1 || w <= ranges[0].max then 0
    else
      var k := 1 + Pick(ranges[1..], w);
      assert forall j :: 0 < j < k ==> ranges[j] == ranges[1..][j - 1];
      k
  }

  /** Every non-empty range starts no lower than all earlier ones end. */
  ghost predicate Ascending(ranges: seq<Range>) {
    forall j, k :: 0 <= j < k < |ranges| && ranges[k].min < ranges[k].max ==> ranges[j].max <= ranges[k].min
  }

  lemma ContainedIsPicked(ranges: seq<Range>, k: nat, w: real)
    requires Ascending(ranges) && k < |ranges| && ranges[k].Contains(w)
    ensures Pick(ranges, w) == k
  {
  }

  lemma OverlapIsMispicked(ranges: seq<Range>, j: nat, k: nat) returns (w: real)
    requires j < k < |ranges| && ranges[k].min < ranges[k].max && ranges[j].max > ranges[k].min
    ensures ranges[k].Contains(w) && Pick(ranges, w) != k
  {
    w := if ranges[j].max < ranges[k].max then ranges[j].max else ranges[k].max;
  }

  /** Every weight is charged by the range that contains it iff the rows come in ascending order. */
  lemma {:induction false} PickedByContainmentIffAscending(ranges: seq<Range>)
    requires ranges != []
    ensures Ascending(ranges) <==>
      forall k, w :: 0 <= k < |ranges| && ranges[k].Contains(w) ==> Pick(ranges, w) == k
  {
    if Ascending(ranges) {
      forall k, w | 0 <= k < |ranges| && ranges[k].Contains(w)
        ensures Pick(ranges, w) == k
      {
        ContainedIsPicked(ranges, k, w);
      }
    } else {
      var j, k :| 0 <= j < k < |ranges| && ranges[k].min < ranges[k].max && ranges[j].max > ranges[k].min;
      var w := OverlapIsMispicked(ranges, j, k);
    }
  }

  /** Below the range the first band is charged, above it the last. */
  lemma OutsideTheRange(ranges: seq<Range>, w: real)
    requires ranges != []
    ensures w <= ranges[0].max ==> Pick(ranges, w) == 0
    ensures (forall k :: 0 <= k < |ranges| ==> w > ranges[k].max) ==> Pick(ranges, w) == |ranges| - 1
  {
  }

  // ---------------------------------------------------------------- the price

  ghost function PickedAmount(bands: seq<Band>, w: real): real
    requires bands != []
  {
    Value(bands[Pick(Ranges(bands), w)].amount)
  }

  lemma PriceValue(b: Band, w: real, env: Env)
    requires "weight" in env && env["weight"] == Number(w)
    ensures Eval(PriceTree(b), env) == Some(Real(Times(w, Value(b.amount))))
  {
    LiteralValue(b.amount, env);
  }

  lemma GuardValue(b: Band, w: real, env: Env)
    requires "weight" in env && env["weight"] == Number(w)
    ensures Eval(AtMost(Name("weight"), Literal(b.weightMax)), env) == Some(Bool(w <= RangeOf(b).max))
  {
    LiteralValue(b.weightMax, env);
  }

  lemma RangesTail(bands: seq<Band>)
    requires bands != []
    ensures Ranges(bands)[1..] == Ranges(bands[1..])
  {
    forall i | 0 <= i < |bands| - 1
      ensures Ranges(bands)[1..][i] == Ranges(bands[1..])[i]
    {
      assert bands[1..][i] == bands[i + 1];
    }
  }

  lemma {:induction false} TreeValue(bands: seq<Band>, w: real, env: Env)
    requires bands != [] && "weight" in env && env["weight"] == Number(w)
    ensures Eval(Tree(bands), env) == Some(Real(Times(w, PickedAmount(bands, w))))
    decreases |bands|
  {
    PriceValue(bands[0], w, env);
    if |bands| > 1 {
      GuardValue(bands[0], w, env);
      TreeValue(bands[1..], w, env);
      RangesTail(bands);
    }
  }

  lemma HonouredValue(eng: Engine, formula: string, env: Env, e: Expr, v: real)
    requires HonoursAt(eng, formula, env) && Parse(formula) == Some(e) && Eval(e, env) == Some(Real(v))
    ensures eng(formula, env) == Some(v)
  {
  }

  /**
   An expression line item compiled from bands charges the weight times the amount of the
   picked band, and zero where that is negative.
   */
  lemma {:induction false} CompiledBandsPrice(
    bands: seq<Band>, currency: string, ctx: ShipmentContext, eng: Engine, w: real)
    requires bands != [] && currency != "" && HonoursAt(eng, FormulaText(bands), ExpressionEnv(ctx))
    requires ExpressionEnv(ctx)["weight"] == Number(w)
    ensures var price := Times(w, PickedAmount(bands, w));
      EvaluateExpression(FormulaText(bands), currency, ctx, eng)
        == Ok(Money(if price < 0.0 then 0.0 else price, currency))
  {
    FormulaParses(bands);
    TreeValue(bands, w, ExpressionEnv(ctx));
    HonouredValue(eng, FormulaText(bands), ExpressionEnv(ctx), Tree(bands), Times(w, PickedAmount(bands, w)));
  }

  lemma WeightIsUnshadowed(ctx: ShipmentContext)
    requires "weight" !in ctx.attributes
    ensures ExpressionEnv(ctx)["weight"] == Number(ctx.weight)
  {
  }

  lemma TimesIsNonNegative(x: real, y: real)
    requires x >= 0.0 && y >= 0.0
    ensures Times(x, y) >= 0.0
  {
  }

  lemma NonNegativePrice(bands: seq<Band>, w: real)
    requires bands != [] && w >= 0.0
    requires forall b :: b in bands ==> Value(b.amount) >= 0.0
    ensures Times(w, PickedAmount(bands, w)) >= 0.0
  {
    assert bands[Pick(Ranges(bands), w)] in bands;
    TimesIsNonNegative(w, PickedAmount(bands, w));
  }

  /** The clamp at zero is inert for a non-negative weight and non-negative amounts. */
  lemma {:induction false} ClampIsInert(bands: seq<Band>, currency: string, ctx: ShipmentContext, eng: Engine)
    requires bands != [] && currency != "" && HonoursAt(eng, FormulaText(bands), ExpressionEnv(ctx))
    requires "weight" !in ctx.attributes && ctx.weight >= 0.0
    requires forall b :: b in bands ==> Value(b.amount) >= 0.0
    ensures EvaluateExpression(FormulaText(bands), currency, ctx, eng)
      == Ok(Money(Times(ctx.weight, PickedAmount(bands, ctx.weight)), currency))
  {
    WeightIsUnshadowed(ctx);
    CompiledBandsPrice(bands, currency, ctx, eng, ctx.weight);
    NonNegativePrice(bands, ctx.weight);
  }

  /** Range `k` contains `w`, or `w` is below all ranges and `k` the first, or above them and `k` the last. */
  ghost predicate ChargedBy(ranges: seq<Range>, k: nat, w: real) {
    && k < |ranges|
    && (|| ranges[k].Contains(w)
        || (k == 0 && w <= ranges[0].max)
        || (k == |ranges| - 1 && forall j :: 0 <= j < |ranges| ==> w > ranges[j].max))
  }

  lemma ChargedByIsPicked(ranges: seq<Range>, k: nat, w: real)
    requires Ascending(ranges) && ChargedBy(ranges, k, w)
    ensures Pick(ranges, w) == k
  {
    OutsideTheRange(ranges, w);
    if ranges[k].Contains(w) {
      ContainedIsPicked(ranges, k, w);
    }
  }

  /**
   Weight-band compilation: for rows in ascending order and non-negative amounts, the compiled
   line item charges the weight times the amount of the band that contains it; below the first
   band it charges by the first, above all bands by the last.
   */
  lemma {:induction false} AscendingBandsPrice(
    bands: seq<Band>, currency: string, ctx: ShipmentContext, eng: Engine, k: nat)
    requires bands != [] && currency != "" && HonoursAt(eng, FormulaText(bands), ExpressionEnv(ctx))
    requires Ascending(Ranges(bands))
    requires "weight" !in ctx.attributes && ctx.weight >= 0.0
    requires forall b :: b in bands ==> Value(b.amount) >= 0.0
    requires ChargedBy(Ranges(bands), k, ctx.weight)
    ensures EvaluateExpression(FormulaText(bands), currency, ctx, eng)
      == Ok(Money(Times(ctx.weight, Value(bands[k].amount)), currency))
  {
    ClampIsInert(bands, currency, ctx, eng);
    ChargedByIsPicked(Ranges(bands), k, ctx.weight);
  }
}
