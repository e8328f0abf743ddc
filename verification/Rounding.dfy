/** Half-even rounding as the database function and as Python's decimal module compute it. */
module Rounding {
  import opened Common
  import opened Sums
  import opened Ledger
  import opened Numbers

  // A rational is a numerator over a positive denominator; a rounded value counts units.

  /** The reference: the nearest integer to n/d, and the even one of two that are equally near. */
  predicate IsHalfEven(k: int, n: int, d: int) {
    2 * Abs(n - k * d) <= d && (2 * Abs(n - k * d) == d ==> k % 2 == 0)
  }

  /** The database function: floor, then compare the fraction with one half, then look at the parity of the floor. */
  function HalfEven(n: int, d: int): int
    requires d > 0
  {
    var lower, fraction := n / d, n % d;
    if 2 * fraction < d then lower
    else if 2 * fraction > d then lower + 1
    else if Abs(lower) % 2 == 0 then lower
    else lower + 1
  }

  /** `planit_round_half_even(n/d, scale)`, counted in units of ten to the minus `scale`. */
  function PlanitRoundHalfEven(n: int, d: int, scale: nat): int
    requires d > 0
  {
    HalfEven(n * Pow10(scale), d)
  }

  lemma HalfEvenMeetsReference(n: int, d: int)
    requires d > 0
    ensures IsHalfEven(HalfEven(n, d), n, d)
  {
    var lower := n / d;
    assert n == lower * d + n % d;
    assert (lower + 1) * d == lower * d + d;
  }

  /** There is only one half-even value, so the reference determines the result. */
  lemma HalfEvenUnique(j: int, k: int, n: int, d: int)
    requires d > 0 && IsHalfEven(j, n, d) && IsHalfEven(k, n, d)
    ensures j == k
  {
    assert (j - k) * d == j * d - k * d;
    if j > k {
      FarApart(j - k, d);
    } else if k > j {
      assert (k - j) * d == k * d - j * d;
      FarApart(k - j, d);
    }
  }

  lemma FarApart(gap: int, d: int)
    requires gap >= 1 && d > 0
    ensures gap * d >= d
    ensures gap >= 2 ==> gap * d >= 2 * d
  {
  }

  lemma HalfEvenIs(k: int, n: int, d: int)
    requires d > 0 && IsHalfEven(k, n, d)
    ensures HalfEven(n, d) == k
  {
    HalfEvenMeetsReference(n, d);
    HalfEvenUnique(HalfEven(n, d), k, n, d);
  }

  lemma HalfEvenOdd(n: int, d: int)
    requires d > 0
    ensures HalfEven(-n, d) == -HalfEven(n, d)
  {
    var k := HalfEven(n, d);
    HalfEvenMeetsReference(n, d);
    assert -n - (-k) * d == -(n - k * d);
    HalfEvenIs(-k, -n, d);
  }

  /** Whole units are left alone, so rounding twice is rounding once. */
  lemma HalfEvenIdempotent(n: int, d: int)
    requires d > 0
    ensures HalfEven(HalfEven(n, d) * d, d) == HalfEven(n, d)
  {
    HalfEvenIs(HalfEven(n, d), HalfEven(n, d) * d, d);
  }

  /** Rounding preserves the order of rationals, whatever their denominators. */
  lemma HalfEvenMonotone(n: int, d: int, n': int, d': int)
    requires d > 0 && d' > 0 && n * d' <= n' * d
    ensures HalfEven(n, d) <= HalfEven(n', d')
  {
    var k, k' := HalfEven(n, d), HalfEven(n', d');
    HalfEvenMeetsReference(n, d);
    HalfEvenMeetsReference(n', d');
    if k > k' {
      // k - 1/2 <= n/d <= n'/d' <= k' + 1/2, so both are ties on the same half
      assert 2 * n >= (2 * k - 1) * d by { assert (2 * k - 1) * d == 2 * (k * d) - d; }
      assert 2 * n' <= (2 * k' + 1) * d' by { assert (2 * k' + 1) * d' == 2 * (k' * d') + d'; }
      Crossing(n, d, n', d', 2 * k - 1, 2 * k' + 1);
    }
  }

  lemma Crossing(n: int, d: int, n': int, d': int, low: int, high: int)
    requires d > 0 && d' > 0 && n * d' <= n' * d
    requires 2 * n >= low * d && 2 * n' <= high * d' && low >= high
    ensures low == high && 2 * n == low * d && 2 * n' == high * d'
  {
  }

  lemma ProductSign(x: int, y: int)
    requires y > 0
    ensures x > 0 <==> x * y > 0
    ensures x < 0 <==> x * y < 0
  {
  }

  function Numerator(): int -> int { (n: int) => n }

  function Rounded(d: int): int -> int
    requires d > 0
  {
    (n: int) => HalfEven(n, d)
  }

  /** Rounding n values separately moves their sum by at most n/2 units. */
  lemma {:induction false} SumOfRounded(ns: seq<int>, d: int)
    requires d > 0
    ensures 2 * Abs(SumOf(ns, Numerator()) - SumOf(ns, Rounded(d)) * d) <= |ns| * d
  {
    if |ns| == 0 {
      assert SumOf(ns, Rounded(d)) == 0 && SumOf(ns, Numerator()) == 0;
    } else {
      var front, last := ns[..|ns| - 1], ns[|ns| - 1];
      SumOfRounded(front, d);
      OneMoreRounded(SumOf(front, Numerator()), SumOf(front, Rounded(d)), |front|, last, d);
    }
  }

  lemma {:induction false} OneMoreRounded(exact: int, rounded: int, count: nat, n: int, d: int)
    requires d > 0 && 2 * Abs(exact - rounded * d) <= count * d
    ensures 2 * Abs(exact + n - (rounded + HalfEven(n, d)) * d) <= (count + 1) * d
  {
    var k := HalfEven(n, d);
    HalfEvenMeetsReference(n, d);
    assert (rounded + k) * d == rounded * d + k * d;
    assert (count + 1) * d == count * d + d;
  }

  // ---- Python's decimal arithmetic ----

  /** Digit dropping on the magnitude, with the sign put back, as `quantize` does it. */
  function RoundDigits(coefficient: int, dropped: nat): int {
    var unit := Pow10(dropped);
    var kept, rest := Abs(coefficient) / unit, Abs(coefficient) % unit;
    var magnitude := if 2 * rest > unit || (2 * rest == unit && kept % 2 == 1) then kept + 1 else kept;
    if coefficient < 0 then -magnitude else magnitude
  }

  lemma MagnitudeIsHalfEven(magnitude: nat, unit: nat)
    requires unit > 0
    ensures var kept, rest := magnitude / unit, magnitude % unit;
            HalfEven(magnitude, unit)
            == if 2 * rest > unit || (2 * rest == unit && kept % 2 == 1) then kept + 1 else kept
  {
  }

  /** Sign-magnitude rounding and floor-and-parity rounding agree on every value. */
  lemma RoundDigitsIsHalfEven(coefficient: int, dropped: nat)
    ensures RoundDigits(coefficient, dropped) == HalfEven(coefficient, Pow10(dropped))
  {
    var unit, magnitude := Pow10(dropped), Abs(coefficient);
    MagnitudeIsHalfEven(magnitude, unit);
    HalfEvenOdd(magnitude, unit);
  }

  const PRECISION: nat := 28
  const FX_PRECISION: nat := 64

  function Digits(n: nat): nat {
    if n < 10 then 1 else 1 + Digits(n / 10)
  }

  /** How many digits an exact coefficient loses in a context of the given precision. */
  function Excess(coefficient: int, precision: nat): nat {
    var digits := Digits(Abs(coefficient));
    if digits <= precision then 0 else digits - precision
  }

  /** An amount times a factor with `scale` decimals: exact product, context rounding, then `quantize` to four
      places. */
  function Scaled(amount: int, factor: int, scale: nat, precision: nat): int {
    var product := amount * factor;
    var lost := Excess(product, precision);
    var held := RoundDigits(product, lost);
    if lost <= scale then RoundDigits(held, scale - lost) else held * Pow10(lost - scale)
  }

  /** `Money.multiply`: a product outside the storage range is refused. */
  function Multiply(amount: int, factor: int, scale: nat, precision: nat): Result<int> {
    var units := Scaled(amount, factor, scale, precision);
    if InRange(units) then Ok(units) else Err(AmountOutOfRange)
  }

  lemma {:induction false} DigitsBound(n: nat)
    ensures n < Pow10(Digits(n))
    ensures n >= 1 ==> n >= Pow10(Digits(n) - 1)
  {
    if n >= 10 {
      DigitsBound(n / 10);
    } else {
      assert Pow10(1) == 10 * Pow10(0);
    }
  }

  lemma {:induction false} PowersGrow(j: nat, k: nat)
    requires j <= k
    ensures Pow10(j) <= Pow10(k)
  {
    if j < k {
      PowersGrow(j, k - 1);
    }
  }

  lemma {:induction false} DigitsFit(n: nat, k: nat)
    requires n < Pow10(k) && k >= 1
    ensures Digits(n) <= k
  {
    DigitsBound(n);
    PowersGrow(Min(k, Digits(n) - 1), Digits(n) - 1);
  }

  lemma PowersMultiply(j: nat, k: nat)
    ensures Pow10(j) * Pow10(k) == Pow10(j + k)
  {
    PowerAdds(10, j, k);
  }

  lemma PowersEven(k: nat)
    requires k >= 1
    ensures Pow10(k) % 2 == 0
  {
    var rest := Power(10, k - 1);
    assert Pow10(k) == 10 * rest;
    TenfoldIsEven(rest);
  }

  lemma TenfoldIsEven(n: nat)
    ensures 10 * n % 2 == 0
  {
  }

  /** Whether the value that the context holds is exactly halfway between two amounts. */
  predicate HeldTie(held: int, unit: int)
    requires unit > 0
  {
    2 * (held % unit) == unit
  }

  /** When rounding first to p-unit steps and then to e-step amounts equals rounding once. */
  predicate RoundsOnceEnough(product: int, p: int, e: int)
    requires p > 0 && e > 0
  {
    var held := HalfEven(product, p);
    HeldTie(held, e) ==>
      && (product > held * p ==> (held / e) % 2 == 1)
      && (product < held * p ==> (held / e) % 2 == 0)
  }

  lemma SplitProduct(held: int, p: int, e: int)
    requires p > 0 && e > 0
    ensures held * p == (held / e) * (p * e) + (held % e) * p
  {
  }

  lemma DoubleRounding(product: int, p: int, e: int)
    requires p > 0 && e > 0 && (e == 1 || e % 2 == 0)
    ensures HalfEven(HalfEven(product, p), e) == HalfEven(product, p * e) <==> RoundsOnceEnough(product, p, e)
  {
    var held := HalfEven(product, p);
    HalfEvenMeetsReference(product, p);
    if e == 1 {
      assert p * e == p;
      HalfEvenIs(held, held, 1);
    } else {
      var q, r := held / e, held % e;
      var slack := product - held * p;
      SplitProduct(held, p, e);
      assert product - q * (p * e) == r * p + slack;
      if 2 * r < e {
        LowerHalf(product, p, e, q, r);
      } else if 2 * r > e {
        UpperHalf(product, p, e, q, r);
      } else {
        TieThenOnce(product, p, e, held);
      }
    }
  }

  lemma HalfEvenNear(k: int, n: int, d: int, kd: int)
    requires d > 0 && kd == k * d && 2 * Abs(n - kd) < d
    ensures HalfEven(n, d) == k
  {
    HalfEvenIs(k, n, d);
  }

  /** Products of the remainder with the unit, on either side of a tie. */
  lemma BelowTie(p: int, e: int, r: int)
    requires p > 0 && e % 2 == 0 && r >= 0 && 2 * r < e
    ensures 0 <= r * p && 2 * (r * p) <= p * e - 2 * p
  {
    ProductSign(r, p);
    ProductSign(e - 2 - 2 * r, p);
    assert (e - 2 - 2 * r) * p == p * e - 2 * p - 2 * (r * p);
  }

  lemma AboveTie(p: int, e: int, r: int)
    requires p > 0 && e % 2 == 0 && r < e && 2 * r > e
    ensures p * e + 2 * p <= 2 * (r * p) && r * p <= p * e - p
  {
    ProductSign(2 * r - e - 2, p);
    ProductSign(e - 1 - r, p);
    assert (2 * r - e - 2) * p == 2 * (r * p) - p * e - 2 * p;
    assert (e - 1 - r) * p == p * e - p - r * p;
  }

  lemma NextMultiple(q: int, d: int)
    ensures (q + 1) * d == q * d + d
  {
  }

  lemma LowerHalf(product: int, p: int, e: int, q: int, r: int)
    requires p > 0 && e % 2 == 0 && r >= 0 && 2 * r < e
    requires 2 * Abs(product - q * (p * e) - r * p) <= p
    ensures HalfEven(product, p * e) == q
  {
    BelowTie(p, e, r);
    HalfEvenNear(q, product, p * e, q * (p * e));
  }

  lemma UpperHalf(product: int, p: int, e: int, q: int, r: int)
    requires p > 0 && e % 2 == 0 && r < e && 2 * r > e
    requires 2 * Abs(product - q * (p * e) - r * p) <= p
    ensures HalfEven(product, p * e) == q + 1
  {
    AboveTie(p, e, r);
    NextMultiple(q, p * e);
    HalfEvenNear(q + 1, product, p * e, q * (p * e) + p * e);
  }

  lemma HalfEvenTie(k: int, n: int, d: int, kd: int)
    requires d > 0 && kd == k * d && 2 * Abs(n - kd) == d && k % 2 == 0
    ensures HalfEven(n, d) == k
  {
    HalfEvenIs(k, n, d);
  }

  /** What a tie at `held` means for a product that rounds to it. */
  lemma TieSplit(p: int, e: int, held: int)
    requires p > 0 && e >= 2 && 2 * (held % e) == e
    ensures var q, d := held / e, p * e;
            2 * (held * p - q * d) == d && (q + 1) * d == q * d + d && d >= 2 * p
  {
  }

  /** Near a tie between `q` and the next value, the exact product lies on one side or on the tie itself. */
  lemma NearTie(product: int, exact: int, p: int, d: int, q: int, qd: int)
    requires p > 0 && d >= 2 * p && qd == q * d && (q + 1) * d == qd + d
    requires 2 * (exact - qd) == d && 2 * Abs(product - exact) <= p
    ensures product > exact ==> HalfEven(product, d) == q + 1
    ensures product < exact ==> HalfEven(product, d) == q
    ensures product == exact ==> HalfEven(product, d) == if q % 2 == 0 then q else q + 1
  {
    if product > exact {
      HalfEvenNear(q + 1, product, d, qd + d);
    } else if product < exact {
      HalfEvenNear(q, product, d, qd);
    } else if q % 2 == 0 {
      HalfEvenTie(q, product, d, qd);
    } else {
      HalfEvenTie(q + 1, product, d, qd + d);
    }
  }

  lemma TieParity(held: int, e: int)
    requires e >= 2 && 2 * (held % e) == e
    ensures HalfEven(held, e) == if (held / e) % 2 == 0 then held / e else held / e + 1
  {
  }

  /** A held tie is resolved by parity, the exact product by the side it lies on. */
  lemma TieThenOnce(product: int, p: int, e: int, held: int)
    requires p > 0 && e >= 2 && 2 * (held % e) == e && 2 * Abs(product - held * p) <= p
    ensures product > held * p ==> HalfEven(product, p * e) == held / e + 1
    ensures product < held * p ==> HalfEven(product, p * e) == held / e
    ensures product == held * p ==> HalfEven(product, p * e) == HalfEven(held, e)
    ensures HalfEven(held, e) == if (held / e) % 2 == 0 then held / e else held / e + 1
  {
    TieParity(held, e);
    TieSplit(p, e, held);
    NearTie(product, held * p, p, p * e, held / e, (held / e) * (p * e));
  }

  /** Two roundings of a product that keeps a digit below the amount agree with one exactly when the first does not
      fall on the wrong side of a tie. */
  lemma ScaledAgreesIff(amount: int, factor: int, scale: nat)
    requires Excess(amount * factor, PRECISION) <= scale
    ensures var product := amount * factor;
            var lost := Excess(product, PRECISION);
            Scaled(amount, factor, scale, PRECISION) == HalfEven(product, Pow10(scale)) <==>
              RoundsOnceEnough(product, Pow10(lost), Pow10(scale - lost))
  {
    var product := amount * factor;
    var lost := Excess(product, PRECISION);
    RoundDigitsIsHalfEven(product, lost);
    RoundDigitsIsHalfEven(RoundDigits(product, lost), scale - lost);
    PowersMultiply(lost, scale - lost);
    PowerIsOneOrEven(scale - lost);
    DoubleRounding(product, Pow10(lost), Pow10(scale - lost));
  }

  lemma PowerIsOneOrEven(k: nat)
    ensures Pow10(k) == 1 || (Pow10(k) >= 10 && Pow10(k) % 2 == 0)
  {
    if k >= 1 {
      PowersEven(k);
    }
  }

  /** When the context keeps no digit below the amount, the product is far outside the storage range, however it is
      rounded. */
  lemma LongProductsAreRefused(amount: int, factor: int, scale: nat)
    requires Excess(amount * factor, PRECISION) > scale
    ensures !InRange(Scaled(amount, factor, scale, PRECISION))
    ensures !InRange(HalfEven(amount * factor, Pow10(scale)))
  {
    var product := amount * factor;
    var lost := Excess(product, PRECISION);
    assert Pow10(PRECISION - 1) > MAX_AMOUNT + 1 by {
      TwentyDigits();
      PowersGrow(20, PRECISION - 1);
    }
    HeldIsLong(product, PRECISION);
    Longer(RoundDigits(product, lost), Pow10(lost - scale));
    ExactIsLong(product, PRECISION, scale);
  }

  lemma ExactIsLong(product: int, precision: nat, scale: nat)
    requires precision >= 1 && Excess(product, precision) > scale
    ensures Abs(HalfEven(product, Pow10(scale))) >= Pow10(precision - 1)
  {
    var n, lost := Abs(product), Excess(product, precision);
    DigitsBound(n);
    PowersMultiply(precision - 1, scale);
    PowersGrow(precision - 1 + scale, Digits(n) - 1);
    QuotientAtLeast(n, Pow10(scale), Pow10(precision - 1));
    MagnitudeIsHalfEven(n, Pow10(scale));
    HalfEvenOdd(n, Pow10(scale));
  }

  /** The exact product, rounded once; outside the storage range it is no amount. */
  function MultiplyExactly(amount: int, factor: int, scale: nat): Result<int> {
    var units := HalfEven(amount * factor, Pow10(scale));
    if InRange(units) then Ok(units) else Err(AmountOutOfRange)
  }

  /** The lower neighbour of the value that the context holds. */
  function HeldFloor(product: int, scale: nat): int
    requires Excess(product, PRECISION) <= scale
  {
    var lost := Excess(product, PRECISION);
    HalfEven(product, Pow10(lost)) / Pow10(scale - lost)
  }

  /** On the wrong side of a tie the two results are the two neighbours of the tie. */
  lemma WrongSideNeighbours(amount: int, factor: int, scale: nat)
    requires Excess(amount * factor, PRECISION) <= scale
    requires Scaled(amount, factor, scale, PRECISION) != HalfEven(amount * factor, Pow10(scale))
    ensures var q := HeldFloor(amount * factor, scale);
            var scaled, exact := Scaled(amount, factor, scale, PRECISION), HalfEven(amount * factor, Pow10(scale));
            (scaled == q && exact == q + 1) || (scaled == q + 1 && exact == q)
  {
    var product := amount * factor;
    var lost := Excess(product, PRECISION);
    var p, e, held := Pow10(lost), Pow10(scale - lost), HalfEven(product, Pow10(lost));
    ScaledAgreesIff(amount, factor, scale);
    RoundDigitsIsHalfEven(product, lost);
    RoundDigitsIsHalfEven(held, scale - lost);
    PowersMultiply(lost, scale - lost);
    HalfEvenMeetsReference(product, p);
    PowerIsOneOrEven(scale - lost);
    TieThenOnce(product, p, e, held);
  }

  /** For every amount and factor: Python's product is the exact one if and only if the context is too short for both
      to be amounts, or its rounding does not fall on the wrong side of a tie, or that tie lies outside the storage
      range. */
  lemma MultiplyAgreesIff(amount: int, factor: int, scale: nat)
    ensures var product := amount * factor;
            var lost := Excess(product, PRECISION);
            Multiply(amount, factor, scale, PRECISION) == MultiplyExactly(amount, factor, scale) <==>
              || lost > scale
              || RoundsOnceEnough(product, Pow10(lost), Pow10(scale - lost))
              || !(-MAX_AMOUNT - 1 <= HeldFloor(product, scale) <= MAX_AMOUNT)
  {
    if Excess(amount * factor, PRECISION) > scale {
      LongProductsAreRefused(amount, factor, scale);
    } else {
      ScaledAgreesIff(amount, factor, scale);
      if Scaled(amount, factor, scale, PRECISION) != HalfEven(amount * factor, Pow10(scale)) {
        WrongSideNeighbours(amount, factor, scale);
      }
    }
  }

  lemma Longer(held: int, p: int)
    requires p >= 1
    ensures Abs(held * p) >= Abs(held)
  {
  }

  lemma TwentyDigits()
    ensures Pow10(20) == 100_000_000_000_000_000_000
  {
    assert Pow10(5) == 100_000;
    PowersMultiply(5, 5);
    PowersMultiply(10, 10);
  }

  /** A coefficient cut to the precision still has that many digits. */
  lemma HeldIsLong(product: int, precision: nat)
    requires precision >= 1 && Excess(product, precision) > 0
    ensures Abs(RoundDigits(product, Excess(product, precision))) >= Pow10(precision - 1)
  {
    var n, lost := Abs(product), Excess(product, precision);
    DigitsBound(n);
    PowersMultiply(precision - 1, lost);
    assert n >= Pow10(precision - 1) * Pow10(lost);
    QuotientAtLeast(n, Pow10(lost), Pow10(precision - 1));
  }

  lemma QuotientAtLeast(n: nat, unit: nat, bound: nat)
    requires unit > 0 && n >= bound * unit
    ensures n / unit >= bound
  {
    var q := n / unit;
    assert n == q * unit + n % unit;
    ProductSign(bound - q, unit);
    ProductSign(bound - q - 1, unit);
    assert (bound - q - 1) * unit == bound * unit - q * unit - unit;
  }

  /** A product that fits the context is rounded once, exactly as the database rounds it. */
  lemma ScaledWhenItFits(amount: int, factor: int, scale: nat, precision: nat)
    requires Excess(amount * factor, precision) == 0
    ensures Scaled(amount, factor, scale, precision) == HalfEven(amount * factor, Pow10(scale))
  {
    var product := amount * factor;
    RoundDigitsIsHalfEven(product, 0);
    HalfEvenIs(product, product, 1);
    RoundDigitsIsHalfEven(product, scale);
  }

  const LONG_FACTOR := 500_000_000_000_000_000_000_000_000_001

  lemma SomePowers()
    ensures Pow10(2) == 100 && Pow10(4) == 10_000
    ensures Pow10(28) == 10_000_000_000_000_000_000_000_000_000
    ensures Pow10(29) == 10 * Pow10(28) && Pow10(30) == 100 * Pow10(28)
  {
    TwentyDigits();
    assert Pow10(8) == 100_000_000 by { PowersMultiply(4, 4); }
    PowersMultiply(20, 8);
  }

  lemma LongFactorDigits()
    ensures Digits(LONG_FACTOR) == 30
  {
    SomePowers();
    DigitsFit(LONG_FACTOR, 30);
    DigitsBound(LONG_FACTOR);
    PowersGrow(Min(Digits(LONG_FACTOR), 29), 29);
  }

  /** 0.0001 times 0.500000000000000000000000000001 is 0.0000 in Python and 0.0001 in the database. */
  lemma MultiplyDisagrees()
    ensures Multiply(1, LONG_FACTOR, 30, PRECISION) == Ok(0)
    ensures PlanitRoundHalfEven(LONG_FACTOR, Pow10(34), 4) == 1
  {
    SomePowers();
    LongFactorDigits();
    var held := 5_000_000_000_000_000_000_000_000_000;
    assert RoundDigits(LONG_FACTOR, 2) == held;
    assert RoundDigits(held, 28) == 0;
    assert HalfEven(LONG_FACTOR * 10_000, Pow10(30) * 10_000) == 1;
  }

  const TOP_FACTOR := 999_999_999_999_999_999_949_999_999_999_999_999_999

  /** Eleven of the 39 digits are cut. */
  lemma TopFactorDigits()
    ensures Digits(TOP_FACTOR) == 39
  {
    SomePowers();
    PowersMultiply(28, 4);
    PowersMultiply(32, 4);
    PowersMultiply(36, 2);
    assert Pow10(39) == 10 * Pow10(38);
    DigitsFit(TOP_FACTOR, 39);
    DigitsBound(TOP_FACTOR);
    PowersGrow(Min(Digits(TOP_FACTOR), 38), 38);
  }

  /** Just below half a unit above the largest amount Python refuses a product that exact rounding accepts. */
  lemma MultiplyRefusesTheTop()
    ensures Multiply(1, TOP_FACTOR, 20, PRECISION) == Err(AmountOutOfRange)
    ensures MultiplyExactly(1, TOP_FACTOR, 20) == Ok(MAX_AMOUNT)
  {
    TopFactorDigits();
    TwentyDigits();
    var held := 9_999_999_999_999_999_999_500_000_000;
    assert Pow10(9) == 1_000_000_000 && Pow10(11) == 100_000_000_000 by {
      PowersMultiply(5, 4);
      PowersMultiply(9, 2);
      SomePowers();
    }
    assert RoundDigits(TOP_FACTOR, 11) == held;
    assert RoundDigits(held, 9) == MAX_AMOUNT + 1;
    assert HalfEven(TOP_FACTOR, 100_000_000_000_000_000_000) == MAX_AMOUNT;
  }

  // An exchange rate counts units of ten to the minus twelve.
  const FX_SCALE: nat := 12
  const MAX_FX_RATE := 999_999_999_999_999_999_999_999_999_999

  /** The destination amount that the transfer service expects, computed in 64 digits. */
  function FxExpected(amount: int, rate: int): int { Scaled(amount, rate, FX_SCALE, FX_PRECISION) }

  /** The destination amount that the transfer trigger demands. */
  function FxStored(amount: int, rate: int): int { HalfEven(amount * rate, Pow10(FX_SCALE)) }

  lemma FxProductFits(amount: int, rate: int)
    requires InRange(amount) && 0 <= rate <= MAX_FX_RATE
    ensures Excess(amount * rate, FX_PRECISION) == 0
  {
    assert Abs(amount) < Pow10(20) by { TwentyDigits(); }
    assert rate < Pow10(30) by { SomePowers(); }
    SmallerProduct(Abs(amount), rate, Pow10(20), Pow10(30));
    AbsProduct(amount, rate);
    assert Abs(amount * rate) < Pow10(64) by {
      PowersMultiply(20, 30);
      PowersGrow(50, 64);
    }
    DigitsFit(Abs(amount * rate), 64);
  }

  /** In 64 digits an amount times a rate always fits, so service and trigger agree on every transfer. */
  lemma FxAgrees(amount: int, rate: int)
    requires InRange(amount) && 0 <= rate <= MAX_FX_RATE
    ensures FxExpected(amount, rate) == FxStored(amount, rate)
  {
    FxProductFits(amount, rate);
    ScaledWhenItFits(amount, rate, FX_SCALE, FX_PRECISION);
  }

  lemma AbsProduct(x: int, y: nat)
    ensures Abs(x * y) == Abs(x) * y
  {
  }

  lemma SmallerProduct(x: nat, y: nat, x': nat, y': nat)
    requires x < x' && y < y'
    ensures x * y < x' * y'
  {
  }
}
