/**
 What a pricing tree means: a tree prices exactly when its leaves price in one common
 currency, and then it prices to their sum, so nesting is immaterial.
 */
module PricingTrees {
  import opened Shared
  import opened Totals
  import opened Pricing

  // ---------------------------------------------------------------- leaves

  /** The leaves from left to right. An empty composite has nothing below it, so it is a leaf too. */
  ghost function Leaves(s: Strategy): seq<Strategy>
    ensures Leaves(s) != []
    decreases s, 1
  {
    if s.Composite? && s.steps != [] then LeavesOf(s.steps) else [s]
  }

  ghost function LeavesOf(steps: seq<Strategy>): seq<Strategy>
    ensures steps != [] ==> LeavesOf(steps) != []
    decreases steps, 0
  {
    if steps == [] then [] else LeavesOf(steps[..|steps| - 1]) + Leaves(steps[|steps| - 1])
  }

  ghost function LeafAmounts(ls: seq<Strategy>, ctx: ShipmentContext, eng: Engine): seq<Money>
    requires forall l :: l in ls ==> Evaluate(l, ctx, eng).Ok?
  {
    seq(|ls|, i requires 0 <= i < |ls| => Evaluate(ls[i], ctx, eng).value)
  }

  /** Every leaf prices, and all of them in currency `c`. */
  ghost predicate AllPriceIn(ls: seq<Strategy>, c: string, ctx: ShipmentContext, eng: Engine) {
    forall l :: l in ls ==> Evaluate(l, ctx, eng).Ok? && Evaluate(l, ctx, eng).value.currency == c
  }

  /** `r` is the only answer that leaves `ls` allow. */
  ghost predicate IsSumOfLeaves(
    r: Result<Money, PricingError>, ls: seq<Strategy>, ctx: ShipmentContext, eng: Engine)
  {
    match r
    case Ok(m) =>
      AllPriceIn(ls, m.currency, ctx, eng) && m.amount == SumIn(LeafAmounts(ls, ctx, eng), m.currency)
    case Err(_) =>
      forall c :: !AllPriceIn(ls, c, ctx, eng)
  }

  /** A tree succeeds iff its leaves price in one currency, and then equals their sum. */
  lemma {:induction false} TreeIsSumOfLeaves(s: Strategy, ctx: ShipmentContext, eng: Engine)
    ensures IsSumOfLeaves(Evaluate(s, ctx, eng), Leaves(s), ctx, eng)
    decreases s, 1
  {
    if s.Composite? && s.steps != [] {
      FoldIsSumOfLeaves(s.steps, ctx, eng);
    } else {
      LeafIsItsOwnSum(s, ctx, eng);
    }
  }

  lemma LeafIsItsOwnSum(s: Strategy, ctx: ShipmentContext, eng: Engine)
    ensures IsSumOfLeaves(Evaluate(s, ctx, eng), [s], ctx, eng)
  {
    assert s in [s];
    var r := Evaluate(s, ctx, eng);
    if r.Ok? {
      assert LeafAmounts([s], ctx, eng) == [r.value];
      assert [r.value][..0] == [];
    }
  }

  lemma {:induction false} FoldIsSumOfLeaves(steps: seq<Strategy>, ctx: ShipmentContext, eng: Engine)
    requires steps != []
    ensures IsSumOfLeaves(FoldSteps(steps, ctx, eng), LeavesOf(steps), ctx, eng)
    decreases steps, 0
  {
    var front, last := steps[..|steps| - 1], steps[|steps| - 1];
    TreeIsSumOfLeaves(last, ctx, eng);
    if |steps| == 1 {
      assert LeavesOf(steps) == Leaves(last);
    } else {
      FoldIsSumOfLeaves(front, ctx, eng);
      JoinSums(FoldSteps(front, ctx, eng), LeavesOf(front), Evaluate(last, ctx, eng), Leaves(last), ctx, eng);
    }
  }

  /** Adding two sums of leaves fails exactly when the joined leaves have no common currency. */
  lemma JoinSums(
    a: Result<Money, PricingError>, la: seq<Strategy>,
    b: Result<Money, PricingError>, lb: seq<Strategy>, ctx: ShipmentContext, eng: Engine)
    requires IsSumOfLeaves(a, la, ctx, eng) && IsSumOfLeaves(b, lb, ctx, eng)
    requires la != [] && lb != []
    ensures a.Err? || b.Err? ==> forall c :: !AllPriceIn(la + lb, c, ctx, eng)
    ensures a.Ok? && b.Ok? && a.value.currency != b.value.currency ==>
      forall c :: !AllPriceIn(la + lb, c, ctx, eng)
    ensures a.Ok? && b.Ok? && a.value.currency == b.value.currency ==>
      IsSumOfLeaves(Ok(Money(a.value.amount + b.value.amount, a.value.currency)), la + lb, ctx, eng)
  {
    forall c | AllPriceIn(la + lb, c, ctx, eng)
      ensures AllPriceIn(la, c, ctx, eng) && AllPriceIn(lb, c, ctx, eng)
      ensures la[0] in la && lb[0] in lb
    {
    }
    if a.Ok? && b.Ok? && a.value.currency == b.value.currency {
      var x, y := LeafAmounts(la, ctx, eng), LeafAmounts(lb, ctx, eng);
      assert LeafAmounts(la + lb, ctx, eng) == x + y;
      SumInAppend(x, y, a.value.currency);
    }
  }

  // ---------------------------------------------------------------- failures

  lemma {:induction false} FoldInOneCurrency(steps: seq<Strategy>, c: string, ctx: ShipmentContext, eng: Engine)
    requires steps != [] && AllPriceIn(steps, c, ctx, eng)
    ensures FoldSteps(steps, ctx, eng).Ok? && FoldSteps(steps, ctx, eng).value.currency == c
  {
    var front, last := steps[..|steps| - 1], steps[|steps| - 1];
    assert last in steps;
    if front != [] {
      assert forall l :: l in front ==> l in steps;
      FoldInOneCurrency(front, c, ctx, eng);
    }
  }

  /** A composite reports its first step that has no price, or another currency than the steps before it. */
  lemma FirstBadStepDecides(steps: seq<Strategy>, n: nat, c: string, ctx: ShipmentContext, eng: Engine)
    requires n < |steps| && AllPriceIn(steps[..n], c, ctx, eng)
    requires var r := Evaluate(steps[n], ctx, eng); r.Ok? ==> n > 0 && r.value.currency != c
    ensures Evaluate(Composite(steps), ctx, eng) == Err(
      match Evaluate(steps[n], ctx, eng)
      case Err(e) => e
      case Ok(m) => MixedCurrencies(CurrencyMismatch(c, m.currency)))
  {
    var upTo := steps[..n + 1];
    assert upTo[..n] == steps[..n];
    if n > 0 {
      FoldInOneCurrency(steps[..n], c, ctx, eng);
    }
    FoldStopsAtError(steps, n + 1, ctx, eng);
  }

  // ---------------------------------------------------------------- flattening

  ghost function Flatten(s: Strategy): Strategy {
    Composite(Leaves(s))
  }

  ghost predicate SameOutcome(a: Result<Money, PricingError>, b: Result<Money, PricingError>) {
    if a.Ok? && b.Ok? then a == b else a.Err? && b.Err?
  }

  lemma {:induction false} LeavesAreLeaves(s: Strategy)
    ensures forall l :: l in Leaves(s) ==> Leaves(l) == [l]
    decreases s, 1
  {
    if s.Composite? && s.steps != [] {
      LeavesOfAreLeaves(s.steps);
    }
  }

  lemma {:induction false} LeavesOfAreLeaves(steps: seq<Strategy>)
    ensures forall l :: l in LeavesOf(steps) ==> Leaves(l) == [l]
    decreases steps, 0
  {
    if steps != [] {
      LeavesOfAreLeaves(steps[..|steps| - 1]);
      LeavesAreLeaves(steps[|steps| - 1]);
    }
  }

  lemma {:induction false} LeavesOfLeaves(ls: seq<Strategy>)
    requires forall l :: l in ls ==> Leaves(l) == [l]
    ensures LeavesOf(ls) == ls
  {
    if ls != [] {
      LeavesOfLeaves(ls[..|ls| - 1]);
      assert ls == ls[..|ls| - 1] + [ls[|ls| - 1]];
    }
  }

  /** Removing all nesting changes neither the value of a tree nor whether it fails. */
  lemma FlattenPreservesMeaning(s: Strategy, ctx: ShipmentContext, eng: Engine)
    ensures SameOutcome(Evaluate(Flatten(s), ctx, eng), Evaluate(s, ctx, eng))
  {
    LeavesAreLeaves(s);
    LeavesOfLeaves(Leaves(s));
    TreeIsSumOfLeaves(s, ctx, eng);
    TreeIsSumOfLeaves(Flatten(s), ctx, eng);
    var a, b := Evaluate(Flatten(s), ctx, eng), Evaluate(s, ctx, eng);
    assert Leaves(s)[0] in Leaves(s);
  }

  // ---------------------------------------------------------------- empty composites

  const EMPTY := Composite([])

  ghost function DropEmpties(ls: seq<Strategy>): seq<Strategy> {
    if ls == [] then []
    else DropEmpties(ls[..|ls| - 1]) + if ls[|ls| - 1] == EMPTY then [] else [ls[|ls| - 1]]
  }

  lemma {:induction false} DropEmptiesKeepsTheRest(ls: seq<Strategy>)
    ensures forall l :: l in DropEmpties(ls) <==> l in ls && l != EMPTY
  {
    if ls != [] {
      DropEmptiesKeepsTheRest(ls[..|ls| - 1]);
      assert ls == ls[..|ls| - 1] + [ls[|ls| - 1]];
    }
  }

  /** An empty composite adds nothing to a sum, but it is a zero in USD and so forces that currency. */
  lemma EmptiesForceDollars(ls: seq<Strategy>, c: string, ctx: ShipmentContext, eng: Engine)
    ensures AllPriceIn(ls, c, ctx, eng) <==>
      AllPriceIn(DropEmpties(ls), c, ctx, eng) && (EMPTY in ls ==> c == "USD")
    ensures AllPriceIn(ls, c, ctx, eng) ==>
      SumIn(LeafAmounts(ls, ctx, eng), c) == SumIn(LeafAmounts(DropEmpties(ls), ctx, eng), c)
  {
    DropEmptiesKeepsTheRest(ls);
    if AllPriceIn(ls, c, ctx, eng) {
      EmptiesAddNothing(ls, c, ctx, eng);
    }
  }

  lemma {:induction false} EmptiesAddNothing(ls: seq<Strategy>, c: string, ctx: ShipmentContext, eng: Engine)
    requires AllPriceIn(ls, c, ctx, eng) && AllPriceIn(DropEmpties(ls), c, ctx, eng)
    ensures SumIn(LeafAmounts(ls, ctx, eng), c) == SumIn(LeafAmounts(DropEmpties(ls), ctx, eng), c)
  {
    if ls != [] {
      var front, last := ls[..|ls| - 1], ls[|ls| - 1];
      DropEmptiesKeepsTheRest(front);
      EmptiesAddNothing(front, c, ctx, eng);
      var kept := DropEmpties(front);
      SumOfLast(front, last, c, ctx, eng);
      assert ls == front + [last];
      if last != EMPTY {
        SumOfLast(kept, last, c, ctx, eng);
      } else {
        assert DropEmpties(ls) == kept;
      }
    }
  }

  lemma SumOfLast(front: seq<Strategy>, last: Strategy, c: string, ctx: ShipmentContext, eng: Engine)
    requires AllPriceIn(front, c, ctx, eng) && AllPriceIn([last], c, ctx, eng)
    ensures AllPriceIn(front + [last], c, ctx, eng)
    ensures last in [last] && SumIn(LeafAmounts(front + [last], ctx, eng), c)
      == SumIn(LeafAmounts(front, ctx, eng), c) + Evaluate(last, ctx, eng).value.amount
  {
    assert last in [last];
    var a, m := LeafAmounts(front, ctx, eng), Evaluate(last, ctx, eng).value;
    assert LeafAmounts(front + [last], ctx, eng) == a + [m];
    assert (a + [m])[..|a|] == a;
  }

  /**
   The empty composites of a tree can be dropped exactly when the remaining leaves do not
   all price in one currency other than USD.
   */
  lemma DroppingEmptiesIsSafeIff(s: Strategy, ctx: ShipmentContext, eng: Engine)
    requires EMPTY in Leaves(s) && DropEmpties(Leaves(s)) != []
    ensures SameOutcome(Evaluate(Composite(DropEmpties(Leaves(s))), ctx, eng), Evaluate(s, ctx, eng))
      <==> forall c :: AllPriceIn(DropEmpties(Leaves(s)), c, ctx, eng) ==> c == "USD"
  {
    var kept := DropEmpties(Leaves(s));
    LeavesAreLeaves(s);
    DropEmptiesKeepsTheRest(Leaves(s));
    LeavesOfLeaves(kept);
    TreeIsSumOfLeaves(s, ctx, eng);
    TreeIsSumOfLeaves(Composite(kept), ctx, eng);
    CompareSums(Evaluate(Composite(kept), ctx, eng), kept, Evaluate(s, ctx, eng), Leaves(s), ctx, eng);
  }

  lemma CompareSums(
    v: Result<Money, PricingError>, kept: seq<Strategy>,
    u: Result<Money, PricingError>, ls: seq<Strategy>, ctx: ShipmentContext, eng: Engine)
    requires EMPTY in ls && kept == DropEmpties(ls) && kept != []
    requires IsSumOfLeaves(v, kept, ctx, eng) && IsSumOfLeaves(u, ls, ctx, eng)
    ensures SameOutcome(v, u) <==> forall c :: AllPriceIn(kept, c, ctx, eng) ==> c == "USD"
  {
    assert kept[0] in kept;
    if v.Ok? {
      EmptiesForceDollars(ls, v.value.currency, ctx, eng);
    }
    if u.Ok? {
      EmptiesForceDollars(ls, u.value.currency, ctx, eng);
    }
  }
}
