/** The shared kernel: identifiers, results, and money with a checked addition. */
module Shared {
  /** A UUID. `NIL` is the all-zero UUID that the use cases reject as "missing". */
  type Id = nat

  const NIL: Id := 0

  datatype Option<+T> = None | Some(value: T)

  datatype Result<+T, +E> = Ok(value: T) | Err(error: E)

  datatype CurrencyMismatch = CurrencyMismatch(left: string, right: string)

  /** An amount in one currency; decimals are exact, so amounts are reals. */
  datatype Money = Money(amount: real, currency: string) {
    function Add(other: Money): Result<Money, CurrencyMismatch> {
      if currency != other.currency then Err(CurrencyMismatch(currency, other.currency))
      else Ok(Money(amount + other.amount, currency))
    }

    function Multiply(factor: real): Money {
      Money(amount * factor, currency)
    }
  }

  function ZeroMoney(currency: string): Money {
    Money(0.0, currency)
  }

  /** The position of the first element with property `p`. */
  function FirstIndex<T>(xs: seq<T>, p: T -> bool): (r: Option<nat>)
    ensures r.Some? ==> r.value < |xs| && p(xs[r.value])
    ensures r.Some? ==> forall i :: 0 <= i < r.value ==> !p(xs[i])
    ensures r.None? ==> forall i :: 0 <= i < |xs| ==> !p(xs[i])
  {
    if xs == [] then None
    else
      match FirstIndex(xs[..|xs| - 1], p)
      case Some(i) => Some(i)
      case None => if p(xs[|xs| - 1]) then Some(|xs| - 1) else None
  }

  /** No value occurs at two positions. */
  ghost predicate Distinct<T>(xs: seq<T>) {
    forall i, j :: 0 <= i < j < |xs| ==> xs[i] != xs[j]
  }
}
