/** Amounts of money as int64 minor units, and their checked arithmetic. */
module Money {
  import opened Common

  datatype Money = Money(amount: int, currency: string)

  datatype Error = NegativeAmount | InvalidCurrency | CurrencyMismatch | ArithmeticOverflow | NegativeMultiplier

  datatype Result = Ok(money: Money) | Err(error: Error)

  ghost predicate InRange(m: Money) {
    FitsInt64(m.amount)
  }

  function New(amount: int, currency: string): Result {
    if amount < 0 then Err(NegativeAmount)
    else if |currency| != 3 || exists i :: 0 <= i < 3 && !('A' <= currency[i] <= 'Z') then Err(InvalidCurrency)
    else Ok(Money(amount, currency))
  }

  function Add(m: Money, other: Money): Result {
    if m.currency != other.currency then Err(CurrencyMismatch)
    else if other.amount > 0 && m.amount > MAX_INT64 - other.amount then Err(ArithmeticOverflow)
    else Ok(Money(Wrap64(m.amount + other.amount), m.currency))
  }

  function Sub(m: Money, other: Money): Result {
    if m.currency != other.currency then Err(CurrencyMismatch)
    else if m.amount < other.amount then Err(NegativeAmount)
    else Ok(Money(Wrap64(m.amount - other.amount), m.currency))
  }

  function Multiply(m: Money, quantity: int): Result {
    if quantity < 0 then Err(NegativeMultiplier)
    else if quantity == 0 || m.amount == 0 then Ok(Money(0, m.currency))
    else if m.amount > MAX_INT64 / quantity then Err(ArithmeticOverflow)
    else Ok(Money(Wrap64(m.amount * quantity), m.currency))
  }

  /** The guard of a checked multiplication says whether the product fits from above. */
  lemma {:induction false} ProductFits(a: int, q: int)
    requires q > 0
    ensures a > MAX_INT64 / q <==> a * q > MAX_INT64
  {
    var (d, r) := (MAX_INT64 / q, MAX_INT64 % q);
    assert MAX_INT64 == d * q + r;
    if a > d {
      Scale(d + 1, a, q);
    } else {
      Scale(a, d, q);
    }
  }

  lemma Scale(a: int, b: int, q: int)
    requires a <= b && q >= 0
    ensures a * q <= b * q
  {
  }

  /** Add overflows if and only if the sum is too large, and is otherwise right, except that a
      sum of two debts may wrap. */
  lemma AddIsExact(m: Money, other: Money)
    requires InRange(m) && InRange(other) && m.currency == other.currency
    ensures var (sum, r) := (m.amount + other.amount, Add(m, other));
            && (r == Err(ArithmeticOverflow) <==> sum > MAX_INT64)
            && (r == Ok(Money(sum, m.currency)) <==> FitsInt64(sum))
  {
  }

  /** Multiply the same way. */
  lemma {:induction false} MultiplyIsExact(m: Money, quantity: int)
    requires InRange(m) && 0 <= quantity <= MAX_INT64
    ensures var (product, r) := (m.amount * quantity, Multiply(m, quantity));
            && (r == Err(ArithmeticOverflow) <==> product > MAX_INT64)
            && (r == Ok(Money(product, m.currency)) <==> FitsInt64(product))
  {
    if quantity > 0 { ProductFits(m.amount, quantity); }
  }

  /** What Add put together Sub takes apart again. */
  lemma SubUndoesAdd(m: Money, other: Money)
    requires InRange(m) && InRange(other) && m.amount >= 0
    ensures Add(m, other).Ok? && FitsInt64(m.amount + other.amount) ==> Sub(Add(m, other).money, other) == Ok(m)
  {
  }

  /** What New lets through, and nothing else. */
  predicate Valid(m: Money) {
    0 <= m.amount <= MAX_INT64 && New(m.amount, m.currency) == Ok(m)
  }

  /** Whatever is computed from amounts that New let through is one that New lets through. */
  lemma ArithmeticStaysValid(m: Money, other: Money, quantity: int)
    requires Valid(m) && Valid(other) && quantity <= MAX_INT64
    ensures Add(m, other).Ok? ==> Valid(Add(m, other).money)
    ensures Sub(m, other).Ok? ==> Valid(Sub(m, other).money)
    ensures Multiply(m, quantity).Ok? ==> Valid(Multiply(m, quantity).money)
  {
    if m.currency == other.currency { AddIsExact(m, other); }
    if quantity >= 0 {
      MultiplyIsExact(m, quantity);
      Scale(0, m.amount, quantity);
    }
  }
}
