/** How long the outbox waits before it tries a message again. */
module Backoff {
  import opened Common

  /** Durations are nanoseconds in an int64. */
  datatype Policy = Policy(initial: int, max: int, maxRetries: int, jitter: bool)

  ghost predicate InRange(p: Policy) {
    FitsInt64(p.initial) && FitsInt64(p.max)
  }

  function Pow2(n: nat): (r: int)
    ensures r > 0
  {
    if n == 0 then 1 else 2 * Pow2(n - 1)
  }

  function Shift(retryCount: int): (n: nat)
    requires retryCount >= 1
    ensures 1 <= n <= 10
  {
    if retryCount > 10 then 10 else retryCount
  }

  /** The delay before jitter. */
  function Delay(p: Policy, retryCount: int): int
    requires retryCount >= 1
  {
    var d := Wrap64(p.initial * Pow2(Shift(retryCount)));
    if d > p.max then p.max else d
  }

  /** Calculate, with `draw` the number that crypto/rand returns for a bound, or None when it fails. */
  function Calculate(p: Policy, retryCount: int, draw: Option<nat>): int {
    if retryCount <= 0 then p.initial
    else
      var d := Delay(p, retryCount);
      if p.jitter && d > 0 && d / 4 > 0 && draw.Some? then Wrap64(d + draw.value % (d / 4)) else d
  }

  predicate IsMaxRetriesExceeded(p: Policy, retryCount: int) {
    retryCount >= p.maxRetries
  }

  /** No retry waits longer than the maximum interval and a quarter of it. */
  lemma WaitIsBounded(p: Policy, retryCount: int, draw: Option<nat>)
    requires InRange(p) && retryCount >= 1
    ensures Calculate(p, retryCount, draw) <= p.max + (if p.max >= 0 then p.max / 4 else 0)
  {
    var d := Delay(p, retryCount);
    if p.jitter && d > 0 && d / 4 > 0 && draw.Some? {
      var n := draw.value % (d / 4);
      assert d + n <= d + d / 4;
      assert Wrap64(d + n) <= d + n;
    }
  }

  /** What the draw adds: with jitter anything below a quarter of the delay, and every such wait
      comes of some draw; without jitter, or when the draw fails, nothing. */
  lemma {:induction false} JitterIsExact(p: Policy, retryCount: int, wait: int)
    requires InRange(p) && retryCount >= 1 && Delay(p, retryCount) + Delay(p, retryCount) / 4 <= MAX_INT64
    ensures var d := Delay(p, retryCount);
            && (!p.jitter ==> forall draw :: Calculate(p, retryCount, draw) == d)
            && Calculate(p, retryCount, None) == d
            && (p.jitter && d >= 4 ==>
                  ((exists draw: nat :: Calculate(p, retryCount, Some(draw)) == wait) <==> d <= wait < d + d / 4))
            && (d < 4 ==> forall draw :: Calculate(p, retryCount, draw) == d)
  {
    var d := Delay(p, retryCount);
    hide Delay;
    if p.jitter && d >= 4 {
      forall draw: nat ensures Calculate(p, retryCount, Some(draw)) == d + draw % (d / 4) {
        assert 0 <= draw % (d / 4) < d / 4;
      }
      if d <= wait < d + d / 4 {
        var draw: nat := wait - d;
        SmallRemainder(draw, d / 4);
        assert Calculate(p, retryCount, Some(draw)) == wait;
      }
    }
  }

  lemma SmallRemainder(x: int, n: int)
    requires 0 <= x < n
    ensures x % n == x
  {
  }

  lemma {:induction false} Pow2Monotonic(a: nat, b: nat)
    requires a <= b
    ensures Pow2(a) <= Pow2(b)
  {
    if a < b { Pow2Monotonic(a, b - 1); }
  }

  lemma {:induction false} ScaleGrows(initial: int, k: int, top: int)
    requires 0 <= initial && k <= top
    ensures initial * k <= initial * top
    decreases top - k
  {
    if k < top {
      ScaleGrows(initial, k, top - 1);
      assert initial * top == initial * (top - 1) + initial;
    }
  }

  /** The exponential delay, in unbounded integers. */
  function Exact(p: Policy, retryCount: int): int
    requires retryCount >= 1
  {
    p.initial * Pow2(Shift(retryCount))
  }

  lemma {:induction false} Pow2Sum(a: nat, b: nat)
    ensures Pow2(a) * Pow2(b) == Pow2(a + b)
  {
    if a > 0 {
      Pow2Sum(a - 1, b);
      assert Pow2(a) * Pow2(b) == 2 * (Pow2(a - 1) * Pow2(b));
    }
  }

  /** The two halves of the word: the unit of the shift and the interval that just overflows. */
  lemma Word(shift: nat)
    requires shift <= 63
    ensures Pow2(shift) * Pow2(63 - shift) == MAX_INT64 + 1
  {
    Pow2Sum(shift, 63 - shift);
    WordSize();
    hide Pow2;
  }

  lemma WordSize()
    ensures Pow2(63) == MAX_INT64 + 1
  {
    assert Pow2(7) == 128;
    hide Pow2;
    Pow2Sum(7, 7);
    Pow2Sum(7, 14);
    Pow2Sum(21, 21);
    Pow2Sum(21, 42);
  }

  /** The number nearest to zero that differs from `x` by a multiple of 2 * half. */
  function Residue(x: int, half: int): int
    requires half > 0
  {
    var r := x % (2 * half);
    if r < half then r else r - 2 * half
  }

  lemma ModIs(q: int, m: int, z: int)
    requires 0 <= z < m
    ensures (q * m + z) % m == z
  {
    var (k, y) := ((q * m + z) / m, (q * m + z) % m);
    assert (q - k) * m == y - z;
    if q - k >= 1 { ScaleGrows(m, 1, q - k); }
    if q - k <= -1 { ScaleGrows(m, 1, k - q); }
  }

  lemma ShiftedParts(q: int, r: int, unit: int, half: int)
    ensures (q * (2 * half) + r) * unit == q * (2 * (unit * half)) + unit * r
  {
    assert (q * (2 * half) + r) * unit == (q * (2 * half)) * unit + r * unit;
    assert (q * (2 * half)) * unit == q * (2 * (unit * half));
  }

  lemma WrapParts(q: int, y: int)
    requires 0 <= y < 2 * (MAX_INT64 + 1)
    ensures Wrap64(q * (2 * (MAX_INT64 + 1)) + y) == if y <= MAX_INT64 then y else y - 2 * (MAX_INT64 + 1)
  {
    if y <= MAX_INT64 {
      ModIs(q, 2 * (MAX_INT64 + 1), y + MAX_INT64 + 1);
    } else {
      ModIs(q + 1, 2 * (MAX_INT64 + 1), y - MAX_INT64 - 1);
    }
  }

  lemma ShiftInRange(r: int, unit: int, half: int)
    requires unit > 0 && half > 0 && unit * half == MAX_INT64 + 1 && 0 <= r < 2 * half
    ensures 0 <= unit * r < 2 * (MAX_INT64 + 1)
    ensures unit * r <= MAX_INT64 <==> r < half
    ensures unit * (r - 2 * half) == unit * r - 2 * (MAX_INT64 + 1)
  {
    ScaleGrows(unit, 0, r);
    ScaleGrows(unit, r, 2 * half - 1);
    if r < half { ScaleGrows(unit, r, half - 1); } else { ScaleGrows(unit, half, r); }
    assert unit * (r - 2 * half) == unit * r - 2 * (unit * half);
  }

  /** Wrapping a shifted number is shifting its residue. */
  lemma WrapOfShift(x: int, unit: int, half: int)
    requires unit > 0 && half > 0 && unit * half == MAX_INT64 + 1
    ensures Wrap64(x * unit) == unit * Residue(x, half)
  {
    var (q, r) := (x / (2 * half), x % (2 * half));
    hide Wrap64;
    ShiftedParts(q, r, unit, half);
    assert x == q * (2 * half) + r;
    ShiftInRange(r, unit, half);
    WrapParts(q, unit * r);
  }

  lemma FitsIff(x: int, unit: int, half: int)
    requires unit > 0 && half > 0 && unit * half == MAX_INT64 + 1
    ensures x * unit > MAX_INT64 <==> x >= half
    ensures FitsInt64(x * unit) <==> -half <= x < half
  {
    if x >= half { ScaleGrows(unit, half, x); } else { ScaleGrows(unit, x, half - 1); }
    if x >= -half { ScaleGrows(unit, -half, x); } else { ScaleGrows(unit, x, -half - 1); }
  }

  /** The delay is the exponential one, cut off at the maximum, exactly if the initial interval is
      below 2^(63 - shift), where the shift is min(retryCount, 10), or if its residue modulo
      2^(64 - shift), shifted, still reaches the maximum, so that the cut hides the overflow. */
  lemma DelayIsExponentialIff(p: Policy, retryCount: int)
    requires InRange(p) && retryCount >= 1
    ensures var exact := Exact(p, retryCount);
            var (unit, half) := (Pow2(Shift(retryCount)), Pow2(63 - Shift(retryCount)));
            && (FitsInt64(exact) <==> -half <= p.initial < half)
            && (Delay(p, retryCount) == (if exact > p.max then p.max else exact)
                <==> -half <= p.initial < half || (p.initial >= half && unit * Residue(p.initial, half) >= p.max))
  {
    var (unit, half) := (Pow2(Shift(retryCount)), Pow2(63 - Shift(retryCount)));
    Word(Shift(retryCount));
    FitsIff(p.initial, unit, half);
    WrapOfShift(p.initial, unit, half);
    var exact := Exact(p, retryCount);
    assert exact == p.initial * unit;
    assert Delay(p, retryCount) == if Wrap64(exact) > p.max then p.max else Wrap64(exact);
    hide Pow2, Shift, Exact, Wrap64, Residue, Delay;
  }
  /** Up to the last retry whose product fits, the delay never shrinks from one retry to a later
      one, and jitter adds less than a quarter. */
  lemma WaitIsExponential(p: Policy, retryCount: int, later: int, draw: Option<nat>)
    requires InRange(p) && 1 <= retryCount <= later && p.initial >= 0 && FitsInt64(Exact(p, later))
    ensures FitsInt64(Exact(p, retryCount)) && Delay(p, retryCount) <= Delay(p, later)
    ensures FitsInt64(p.max + p.max / 4) ==>
              var d := Delay(p, retryCount);
              d <= Calculate(p, retryCount, draw) && (d > 0 ==> Calculate(p, retryCount, draw) <= d + d / 4)
  {
    Pow2Monotonic(Shift(retryCount), Shift(later));
    ScaleGrows(p.initial, 0, Pow2(Shift(retryCount)));
    ScaleGrows(p.initial, Pow2(Shift(retryCount)), Pow2(Shift(later)));
    DelayIsExponentialIff(p, retryCount);
    DelayIsExponentialIff(p, later);
    hide Pow2, Exact, Delay, Wrap64;
    if FitsInt64(p.max + p.max / 4) { JitterIsSmall(p, retryCount, draw); }
  }

  lemma JitterIsSmall(p: Policy, retryCount: int, draw: Option<nat>)
    requires InRange(p) && retryCount >= 1 && FitsInt64(p.max + p.max / 4) && Delay(p, retryCount) <= p.max
    ensures var d := Delay(p, retryCount);
            d <= Calculate(p, retryCount, draw) && (d > 0 ==> Calculate(p, retryCount, draw) <= d + d / 4)
  {
    var d := Delay(p, retryCount);
    hide Delay;
    if p.jitter && d > 0 && d / 4 > 0 && draw.Some? {
      var n := draw.value % (d / 4);
      assert 0 <= n < d / 4;
      assert d + n <= d + d / 4 <= p.max + p.max / 4;
    }
  }

  const TWO_TO_54: int := 0x40_0000_0000_0000

  lemma TenthPower(n: int)
    requires n >= 10
    ensures Pow2(Shift(n)) == 1024
  {
    assert Pow2(10) == 1024 by { assert Pow2(5) == 32; }
  }

  lemma WrapsToNothingIff(x: int)
    ensures Wrap64(x * 1024) == 0 <==> x % TWO_TO_54 == 0
  {
    var (q, r) := (x / TWO_TO_54, x % TWO_TO_54);
    assert x * 1024 == q * (2 * (MAX_INT64 + 1)) + r * 1024;
  }

  /** Beyond that the product may wrap: from the tenth retry on the wait is nothing at all
      exactly for the multiples of 2^54 nanoseconds (208 days). */
  lemma WaitMayVanish(p: Policy, retryCount: int, draw: Option<nat>)
    requires InRange(p) && retryCount >= 10 && p.max > 0
    ensures Calculate(p, retryCount, draw) == 0 <==> p.initial % TWO_TO_54 == 0
  {
    TenthPower(retryCount);
    WrapsToNothingIff(p.initial);
    var d := Delay(p, retryCount);
    assert d == 0 <==> Wrap64(p.initial * 1024) == 0;
    if p.jitter && d > 0 && d / 4 > 0 && draw.Some? {
      var n := draw.value % (d / 4);
      assert 0 < d + n <= d + d / 4 < 2 * (MAX_INT64 + 1);
    }
  }
}
