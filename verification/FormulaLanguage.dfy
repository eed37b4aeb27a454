/**
 The fragment of the expression language that generated price formulas use: decimal literals,
 names, unary minus, multiplication, "<=", and the right-associative conditional.
 */
module FormulaLanguage {
  import opened DecimalText
  import opened Pricing
  import opened Shared

  // ---------------------------------------------------------------- tokens

  datatype Token = TNumber(d: Decimal) | TName(name: string) | TMinus | TStar | TAtMost | TQuestion | TColon

  predicate IsLetter(c: char) {
    'a' <= c <= 'z' || 'A' <= c <= 'Z' || c == '_'
  }

  /** The digits at the front of `s`. */
  function Digits(s: string): (w: string)
    ensures w <= s && AllDigits(w)
    ensures |w| < |s| ==> !IsDigit(s[|w|])
  {
    if s == "" || !IsDigit(s[0]) then "" else [s[0]] + Digits(s[1..])
  }

  function LetterSpan(s: string): (n: nat)
    ensures n <= |s|
    ensures n < |s| ==> !IsLetter(s[n])
    ensures forall i :: 0 <= i < n ==> IsLetter(s[i])
  {
    if s == "" || !IsLetter(s[0]) then 0 else 1 + LetterSpan(s[1..])
  }

  function ReadDecimal(w: string, f: string): Decimal
    requires AllDigits(w) && AllDigits(f)
  {
    assert AllDigits(w + f);
    Decimal(ReadNat(w + f), |f|)
  }

  predicate HasFraction(rest: string) {
    |rest| > 1 && rest[0] == '.' && IsDigit(rest[1])
  }

  /** The literal with whole digits `w` and its length, where `rest` follows the digits. */
  function LexAfter(w: string, rest: string): (r: (Decimal, nat))
    requires AllDigits(w)
    ensures |w| <= r.1 <= |w| + |rest|
  {
    if HasFraction(rest) then
      var f := Digits(rest[1..]);
      (ReadDecimal(w, f), |w| + 1 + |f|)
    else
      (ReadDecimal(w, ""), |w|)
  }

  /** The literal at the front of `s`, and its length. */
  function LexNumber(s: string): (r: (Decimal, nat))
    requires s != "" && IsDigit(s[0])
    ensures 0 < r.1 <= |s|
  {
    var w := Digits(s);
    LexAfter(w, s[|w|..])
  }

  function Cons(t: Token, ts: Option<seq<Token>>): Option<seq<Token>> {
    match ts case None => None case Some(rest) => Some([t] + rest)
  }

  datatype Scanned = Stuck | Token(t: Token, length: nat)

  /** The first token of `s`, which does not start with a space. */
  function Scan(s: string): (r: Scanned)
    requires s != ""
    ensures r.Token? ==> 0 < r.length <= |s|
  {
    if IsDigit(s[0]) then var (d, n) := LexNumber(s); Scanned.Token(TNumber(d), n)
    else if IsLetter(s[0]) then Scanned.Token(TName(s[..LetterSpan(s)]), LetterSpan(s))
    else if s[0] == '-' then Scanned.Token(TMinus, 1)
    else if s[0] == '*' then Scanned.Token(TStar, 1)
    else if s[0] == '?' then Scanned.Token(TQuestion, 1)
    else if s[0] == ':' then Scanned.Token(TColon, 1)
    else if |s| > 1 && s[0] == '<' && s[1] == '=' then Scanned.Token(TAtMost, 2)
    else Stuck
  }

  function Lex(s: string): Option<seq<Token>>
    decreases |s|
  {
    if s == "" then Some([])
    else if s[0] == ' ' then Lex(s[1..])
    else
      match Scan(s)
      case Stuck => None
      case Token(t, n) => Cons(t, Lex(s[n..]))
  }

  // ---------------------------------------------------------------- syntax trees

  datatype Expr =
    | Num(d: Decimal)
    | Name(name: string)
    | Neg(e: Expr)
    | Mul(l: Expr, r: Expr)
    | AtMost(l: Expr, r: Expr)
    | Cond(test: Expr, yes: Expr, no: Expr)

  datatype Parsed = Fail | Got(e: Expr, rest: seq<Token>)

  function ParseUnary(ts: seq<Token>): (r: Parsed)
    ensures r.Got? ==> |r.rest| < |ts|
    decreases |ts|
  {
    if ts == [] then Fail
    else
      match ts[0]
      case TNumber(d) => Got(Num(d), ts[1..])
      case TName(n) => Got(Name(n), ts[1..])
      case TMinus => (match ParseUnary(ts[1..]) case Fail => Fail case Got(e, rest) => Got(Neg(e), rest))
      case _ => Fail
  }

  /** Multiplies `left` by the factors that follow, from left to right. */
  function ParseFactors(left: Expr, ts: seq<Token>): (r: Parsed)
    ensures r.Got? ==> |r.rest| <= |ts|
    decreases |ts|
  {
    if ts == [] || ts[0] != TStar then Got(left, ts)
    else
      match ParseUnary(ts[1..])
      case Fail => Fail
      case Got(e, rest) => ParseFactors(Mul(left, e), rest)
  }

  function ParseProduct(ts: seq<Token>): (r: Parsed)
    ensures r.Got? ==> |r.rest| < |ts|
  {
    match ParseUnary(ts) case Fail => Fail case Got(e, rest) => ParseFactors(e, rest)
  }

  function ParseComparison(ts: seq<Token>): (r: Parsed)
    ensures r.Got? ==> |r.rest| < |ts|
  {
    match ParseProduct(ts)
    case Fail => Fail
    case Got(l, rest) =>
      if rest == [] || rest[0] != TAtMost then Got(l, rest)
      else
        match ParseProduct(rest[1..])
        case Fail => Fail
        case Got(r, rest') => Got(AtMost(l, r), rest')
  }

  function ParseExpr(ts: seq<Token>): (r: Parsed)
    ensures r.Got? ==> |r.rest| < |ts|
    decreases |ts|
  {
    match ParseComparison(ts)
    case Fail => Fail
    case Got(test, rest) =>
      if rest == [] || rest[0] != TQuestion then Got(test, rest)
      else
        match ParseExpr(rest[1..])
        case Fail => Fail
        case Got(yes, rest') =>
          if rest' == [] || rest'[0] != TColon then Fail
          else
            match ParseExpr(rest'[1..])
            case Fail => Fail
            case Got(no, rest'') => Got(Cond(test, yes, no), rest'')
  }

  /** A formula is the text of one whole expression. */
  function Parse(s: string): Option<Expr> {
    match Lex(s)
    case None => None
    case Some(ts) =>
      match ParseExpr(ts)
      case Fail => None
      case Got(e, rest) => if rest == [] then Some(e) else None
  }

  // ---------------------------------------------------------------- meaning

  datatype Val = Real(r: real) | Bool(b: bool)

  function Times(x: real, y: real): real {
    x * y
  }

  ghost predicate IsReal(v: Option<Val>) {
    v.Some? && v.value.Real?
  }

  ghost function Eval(e: Expr, env: Env): Option<Val> {
    match e
    case Num(d) => Some(Real(Value(d)))
    case Name(n) => if n in env && env[n].Number? then Some(Real(env[n].value)) else None
    case Neg(a) => (match Eval(a, env) case Some(Real(x)) => Some(Real(-x)) case _ => None)
    case Mul(a, b) =>
      var x, y := Eval(a, env), Eval(b, env);
      if IsReal(x) && IsReal(y) then Some(Real(Times(x.value.r, y.value.r))) else None
    case AtMost(a, b) =>
      var x, y := Eval(a, env), Eval(b, env);
      if IsReal(x) && IsReal(y) then Some(Bool(x.value.r <= y.value.r)) else None
    case Cond(t, a, b) =>
      match Eval(t, env)
      case Some(Bool(true)) => Eval(a, env)
      case Some(Bool(false)) => Eval(b, env)
      case _ => None
  }

  /** The names that an expression mentions. */
  ghost function Names(e: Expr): set<string> {
    match e
    case Num(_) => {}
    case Name(n) => {n}
    case Neg(a) => Names(a)
    case Mul(a, b) => Names(a) + Names(b)
    case AtMost(a, b) => Names(a) + Names(b)
    case Cond(t, a, b) => Names(t) + Names(a) + Names(b)
  }

  /** If the formula has a numeric value in this environment, the engine gives it that value there. */
  ghost predicate HonoursAt(eng: Engine, formula: string, env: Env) {
    Parse(formula).Some? && IsReal(Eval(Parse(formula).value, env)) ==>
      eng(formula, env) == Some(Eval(Parse(formula).value, env).value.r)
  }

  /** An engine that is undefined outside the fragment. */
  ghost function FragmentEngine(): Engine {
    (formula: string, env: Env) =>
      if Parse(formula).Some? && IsReal(Eval(Parse(formula).value, env)) then
        Some(Eval(Parse(formula).value, env).value.r)
      else None
  }

  /** An engine can be exact on all formulas and environments at once. */
  lemma FragmentEngineHonours()
    ensures forall formula, env :: HonoursAt(FragmentEngine(), formula, env)
  {
    forall formula, env
      ensures HonoursAt(FragmentEngine(), formula, env)
    {
    }
  }

  // ---------------------------------------------------------------- literals

  ghost function Literal(d: Decimal): Expr {
    var n := Normal(d);
    if n.coef < 0 then Neg(Num(Decimal(-n.coef, n.scale))) else Num(n)
  }

  ghost function LiteralTokens(d: Decimal): seq<Token> {
    var n := Normal(d);
    if n.coef < 0 then [TMinus, TNumber(Decimal(-n.coef, n.scale))] else [TNumber(n)]
  }

  lemma LiteralValue(d: Decimal, env: Env)
    ensures Eval(Literal(d), env) == Some(Real(Value(d)))
  {
    NormalKeepsValue(d);
    var n := Normal(d);
    NegatedValue(n);
  }

  /** Text that does not go on with a digit or a point. */
  predicate EndsLiteral(rest: string) {
    rest == "" || rest[0] == ' '
  }

  lemma DigitsInFront(w: string, rest: string)
    requires AllDigits(w) && (rest == "" || !IsDigit(rest[0]))
    ensures Digits(w + rest) == w
  {
    var s := w + rest;
    assert forall i :: 0 <= i < |w| ==> s[i] == w[i];
    assert rest != "" ==> s[|w|] == rest[0];
  }

  lemma LexWhole(w: string, rest: string)
    requires w != "" && AllDigits(w) && (rest == "" || !IsDigit(rest[0]))
    ensures IsDigit((w + rest)[0]) && LexNumber(w + rest) == LexAfter(w, rest)
  {
    DigitsInFront(w, rest);
    assert (w + rest)[|w|..] == rest && (w + rest)[0] == w[0];
  }

  lemma LexFraction(w: string, f: string, rest: string)
    requires AllDigits(w) && f != "" && AllDigits(f) && EndsLiteral(rest)
    ensures LexAfter(w, "." + (f + rest)) == (ReadDecimal(w, f), |w| + 1 + |f|)
  {
    var tail := "." + (f + rest);
    assert tail[1] == f[0] && tail[1..] == f + rest;
    DigitsInFront(f, rest);
  }

  /** `u` spells `d` as whole digits `w` and, if there are any, fraction digits `f`. */
  ghost predicate Spells(u: string, d: Decimal, w: string, f: string) {
    && w != "" && AllDigits(w) && AllDigits(f) && ReadDecimal(w, f) == d
    && u == if f == "" then w else w + ("." + f)
  }

  /** Reading goes on behind the first token. */
  lemma LexFirst(u: string, t: Token, rest: string)
    requires u != "" && u[0] != ' ' && Scan(u + rest) == Scanned.Token(t, |u|)
    ensures Lex(u + rest) == Cons(t, Lex(rest))
  {
    assert (u + rest)[|u|..] == rest && (u + rest)[0] == u[0];
  }

  lemma ScanNumber(u: string, d: Decimal, rest: string)
    requires u != "" && IsDigit(u[0]) && LexNumber(u + rest) == (d, |u|)
    ensures Scan(u + rest) == Scanned.Token(TNumber(d), |u|)
  {
  }

  lemma SpelledInteger(u: string, d: Decimal, w: string, rest: string)
    requires Spells(u, d, w, "") && EndsLiteral(rest)
    ensures u != "" && IsDigit(u[0]) && LexNumber(u + rest) == (d, |u|)
  {
    LexWhole(w, rest);
  }

  lemma TextWithFraction(w: string, f: string, rest: string)
    requires w != ""
    ensures var u := w + ("." + f);
      u + rest == w + ("." + (f + rest)) && u != "" && u[0] == w[0] && |u| == |w| + 1 + |f|
  {
  }

  lemma LexPointed(w: string, f: string, rest: string)
    requires w != "" && AllDigits(w) && f != "" && AllDigits(f) && EndsLiteral(rest)
    ensures var s := w + ("." + (f + rest));
      IsDigit(s[0]) && LexNumber(s) == (ReadDecimal(w, f), |w| + 1 + |f|)
  {
    LexWhole(w, "." + (f + rest));
    LexFraction(w, f, rest);
  }

  lemma SpelledFraction(w: string, f: string, rest: string)
    requires w != "" && AllDigits(w) && f != "" && AllDigits(f) && EndsLiteral(rest)
    ensures var u := w + ("." + f);
      u[0] == w[0] && LexNumber(u + rest) == (ReadDecimal(w, f), |u|)
  {
    TextWithFraction(w, f, rest);
    LexPointed(w, f, rest);
  }

  lemma SpelledNumber(u: string, d: Decimal, w: string, f: string, rest: string)
    requires Spells(u, d, w, f) && EndsLiteral(rest)
    ensures u != "" && IsDigit(u[0]) && LexNumber(u + rest) == (d, |u|)
  {
    if f == "" {
      SpelledInteger(u, d, w, rest);
    } else {
      SpelledFraction(w, f, rest);
    }
  }

  lemma LexSpelled(u: string, d: Decimal, w: string, f: string, rest: string)
    requires Spells(u, d, w, f) && EndsLiteral(rest)
    ensures Lex(u + rest) == Cons(TNumber(d), Lex(rest))
  {
    SpelledNumber(u, d, w, f, rest);
    ScanNumber(u, d, rest);
    LexFirst(u, TNumber(d), rest);
  }

  lemma UnsignedIsSpelled(d: Decimal)
    requires d.coef >= 0
    ensures Spells(UnsignedText(d), d, Whole(d), Fraction(d))
  {
    UnsignedDigits(d);
    var w, f := Whole(d), Fraction(d);
    assert w + "." + f == w + ("." + f);
  }

  /** A printed unsigned decimal is read back as one literal. */
  lemma LexUnsigned(d: Decimal, rest: string)
    requires d.coef >= 0 && EndsLiteral(rest)
    ensures Lex(UnsignedText(d) + rest) == Cons(TNumber(d), Lex(rest))
  {
    UnsignedIsSpelled(d);
    LexSpelled(UnsignedText(d), d, Whole(d), Fraction(d), rest);
  }

  lemma LexMinus(rest: string)
    ensures Lex("-" + rest) == Cons(TMinus, Lex(rest))
  {
    LexFirst("-", TMinus, rest);
  }

  function Prepend(ts: seq<Token>, more: Option<seq<Token>>): Option<seq<Token>> {
    match more case None => None case Some(rest) => Some(ts + rest)
  }

  lemma PrependTwice(t: Token, u: Token, ts: Option<seq<Token>>)
    ensures Cons(t, Cons(u, ts)) == Prepend([t, u], ts)
  {
    if ts.Some? {
      assert [t] + ([u] + ts.value) == [t, u] + ts.value;
    }
  }

  lemma LexNegated(u: string, d: Decimal, rest: string)
    requires Lex(u + rest) == Cons(TNumber(d), Lex(rest))
    ensures Lex("-" + u + rest) == Prepend([TMinus, TNumber(d)], Lex(rest))
  {
    assert "-" + u + rest == "-" + (u + rest);
    LexMinus(u + rest);
    PrependTwice(TMinus, TNumber(d), Lex(rest));
  }

  lemma LexSigned(n: Decimal, rest: string)
    requires EndsLiteral(rest)
    ensures var u, d := UnsignedText(Decimal(Abs(n.coef), n.scale)), Decimal(Abs(n.coef), n.scale);
      && Lex(u + rest) == Cons(TNumber(d), Lex(rest))
      && Lex("-" + u + rest) == Prepend([TMinus, TNumber(d)], Lex(rest))
  {
    var d := Decimal(Abs(n.coef), n.scale);
    LexUnsigned(d, rest);
    LexNegated(UnsignedText(d), d, rest);
  }

  /** A printed decimal is read back as the tokens of its literal. */
  lemma {:induction false} LexLiteral(d: Decimal, rest: string)
    requires EndsLiteral(rest)
    ensures Lex(DecimalString(d) + rest) == Prepend(LiteralTokens(d), Lex(rest))
  {
    var n := Normal(d);
    LexSigned(n, rest);
    if n.coef >= 0 {
      assert DecimalString(d) == UnsignedText(n);
    }
  }
}
