/** `get_bootstraped_percent` (orchestra/contrib/musician/utils.py): the
    width of a Bootstrap progress bar, a percentage rounded to a quarter. */
module BootstrapPercent {
  import opened Wrappers
  import opened PyValues

  function Abs(x: int): nat { if x < 0 then -x else x }

  /** `n` is a nearest integer to `q`, the even one on a tie: Python's
      `round`. */
  predicate NearestEven(q: Rat, n: int) {
    var d := n * q.den - q.num;
    2 * Abs(d) <= q.den && (2 * Abs(d) == q.den ==> n % 2 == 0)
  }

  /** Half-to-even rounding of an exact rational. */
  function RoundHalfEven(q: Rat): (n: int)
    ensures NearestEven(q, n)
  {
    var f := q.num / q.den;
    var rem := q.num % q.den;
    assert q.num == f * q.den + rem;
    if 2 * rem < q.den then f
    else if 2 * rem > q.den then f + 1
    else if f % 2 == 0 then f
    else f + 1
  }

  // Small facts about products, kept apart so that each proof below
  // stays linear in the named products it uses.

  lemma MulLe(x: int, y: int, c: int)
    requires c > 0 && x <= y
    ensures x * c <= y * c
  {
    assert y * c - x * c == (y - x) * c;
  }

  lemma MulCancelLe(x: int, y: int, c: int)
    requires c > 0 && x * c <= y * c
    ensures x <= y
  {
    if x > y {
      MulLe(y + 1, x, c);
    }
  }

  lemma MulCancelEq(x: int, y: int, c: int)
    requires c > 0 && x * c == y * c
    ensures x == y
  {
    MulCancelLe(x, y, c);
    MulCancelLe(y, x, c);
  }

  lemma MulSub(x: int, y: int, c: int)
    ensures x * c - y * c == (x - y) * c
  {
  }

  /** How far apart two multiples of `D` are when their factors differ by `k`. */
  lemma MulSteps(k: int, D: int)
    requires D > 0
    ensures k >= 2 ==> k * D >= 2 * D
    ensures k <= -2 ==> k * D <= -2 * D
    ensures k == 1 ==> k * D == D
    ensures k == -1 ==> k * D == -D
  {
    if k >= 2 {
      MulLe(2, k, D);
    } else if k <= -2 {
      MulLe(k, -2, D);
    }
  }

  /** There is only one nearest-even integer. */
  lemma NearestEvenUnique(q: Rat, m: int)
    requires NearestEven(q, m)
    ensures m == RoundHalfEven(q)
  {
    var n := RoundHalfEven(q);
    TwoNearest(q.num, q.den, m, n);
  }

  /** Two integers within half of `num / den` are equal, or differ by one
      and both sit exactly half away. */
  lemma TwoNearest(num: int, D: int, m: int, n: int)
    requires D > 0
    requires 2 * Abs(m * D - num) <= D && 2 * Abs(n * D - num) <= D
    requires 2 * Abs(m * D - num) == D ==> m % 2 == 0
    requires 2 * Abs(n * D - num) == D ==> n % 2 == 0
    ensures m == n
  {
    MulSub(m, n, D);
    MulSteps(m - n, D);
  }

  /** `value / total`: None when Python raises TypeError (a non-number) or
      ZeroDivisionError (a zero total). */
  function Divide(value: Value, total: Value): (r: Option<Rat>)
    ensures r.Some? <==> AsNumber(value).Some? && AsNumber(total).Some? && AsNumber(total).value.num != 0
    ensures r.Some? ==> r.value.num * AsNumber(value).value.den * AsNumber(total).value.num
                        == r.value.den * AsNumber(value).value.num * AsNumber(total).value.den
  {
    match (AsNumber(value), AsNumber(total))
    case (Some(v), Some(t)) =>
      if t.num == 0 then None
      else if v.den * t.num > 0 then Some(Rat(v.num * t.den, v.den * t.num))
      else Some(Rat(-(v.num * t.den), -(v.den * t.num)))
    case _ => None
  }

  function Clamp(x: int): (r: int)
    ensures 0 <= r <= 100
    ensures 0 <= x <= 100 ==> r == x
  {
    if x < 0 then 0 else if x > 100 then 100 else x
  }

  /** `round(percent * 4) * 100 // 4`, clamped to [0, 100]. */
  function Bar(p: Rat): (r: int)
    ensures r in {0, 25, 50, 75, 100}
  {
    var n := RoundHalfEven(Rat(4 * p.num, p.den));
    assert n * 100 / 4 == 25 * n;
    Clamp(n * 100 / 4)
  }

  /** `get_bootstraped_percent`: 0 when the division raises. */
  function GetBootstrapedPercent(value: Value, total: Value): (r: int)
    ensures r in {0, 25, 50, 75, 100}
    ensures Divide(value, total).None? ==> r == 0
  {
    match Divide(value, total)
    case None => 0
    case Some(p) => Bar(p)
  }

  /** A larger fraction never gets a narrower bar. */
  lemma BarMonotone(p: Rat, q: Rat)
    requires p.num * q.den <= q.num * p.den
    ensures Bar(p) <= Bar(q)
  {
    MulAssoc(4, p.num, q.den);
    MulAssoc(4, q.num, p.den);
    MulLe(p.num * q.den, q.num * p.den, 4);
    RoundMonotone(Rat(4 * p.num, p.den), Rat(4 * q.num, q.den));
  }

  /** For a fraction between 0 and 1 the bar is the nearest quarter: off by
      at most 12.5 percentage points, i.e. |r - 100 p| <= 100 / 8. */
  lemma NearestQuarter(value: Value, total: Value)
    requires Divide(value, total).Some?
    requires var p := Divide(value, total).value; 0 <= p.num <= p.den
    ensures var p := Divide(value, total).value;
      8 * Abs(GetBootstrapedPercent(value, total) * p.den - 100 * p.num) <= 100 * p.den
  {
    var p := Divide(value, total).value;
    var n := RoundHalfEven(Rat(4 * p.num, p.den));
    assert GetBootstrapedPercent(value, total) == Clamp(25 * n);
    QuarterWithin(n, p.num, p.den);
  }

  /** An integer `n` within half of `4 num / D`, for a fraction `num / D`
      between 0 and 1, gives a clamped `25 n` within 100/8 of `100 num / D`. */
  lemma QuarterWithin(n: int, num: int, D: int)
    requires D > 0 && 0 <= num <= D
    requires 2 * Abs(n * D - 4 * num) <= D
    ensures 8 * Abs(Clamp(25 * n) * D - 100 * num) <= 100 * D
  {
    var x := n * D;
    if n < 0 {
      MulLe(n, -1, D);
    } else if n > 4 {
      MulLe(5, n, D);
    }
    assert (25 * n) * D == 25 * x;
  }

  /** A rational within half of `m` lies at least at `m - 1/2` and at most
      at `m + 1/2`, written over the common denominator. */
  lemma HalfBounds(num: int, D: int, m: int)
    requires D > 0 && 2 * Abs(m * D - num) <= D
    ensures (2 * m - 1) * D <= 2 * num <= (2 * m + 1) * D
    ensures (2 * m - 1) * D == 2 * num ==> 2 * Abs(m * D - num) == D
    ensures (2 * m + 1) * D == 2 * num ==> 2 * Abs(m * D - num) == D
  {
    assert (2 * m - 1) * D == 2 * (m * D) - D;
    assert (2 * m + 1) * D == 2 * (m * D) + D;
  }

  lemma MulAssoc(x: int, y: int, z: int)
    ensures (x * y) * z == x * (y * z) && (x * y) * z == (x * z) * y
  {
  }

  /** The cross-multiplied chain behind monotonicity: if `m - 1/2 <= a <= b
      <= n + 1/2` then `m <= n + 1`, with equality only when both ends are
      tight. */
  lemma ChainBound(an: int, A: int, bn: int, B: int, m: int, n: int)
    requires A > 0 && B > 0
    requires an * B <= bn * A
    requires (2 * m - 1) * A <= 2 * an && 2 * bn <= (2 * n + 1) * B
    ensures 2 * m - 1 <= 2 * n + 1
    ensures 2 * m - 1 == 2 * n + 1 ==> (2 * m - 1) * A == 2 * an && 2 * bn == (2 * n + 1) * B
  {
    var AB := A * B;
    MulLe((2 * m - 1) * A, 2 * an, B);
    MulLe(2 * bn, (2 * n + 1) * B, A);
    MulAssoc(2 * m - 1, A, B);
    MulAssoc(2 * n + 1, B, A);
    MulAssoc(2, an, B);
    MulAssoc(2, bn, A);
    assert B * A == AB;
    MulCancelLe(2 * m - 1, 2 * n + 1, AB);
    if 2 * m - 1 == 2 * n + 1 {
      MulCancelEq((2 * m - 1) * A, 2 * an, B);
      MulCancelEq(2 * bn, (2 * n + 1) * B, A);
    }
  }

  /** A larger fraction never gets a narrower bar. */
  lemma RoundMonotone(a: Rat, b: Rat)
    requires a.num * b.den <= b.num * a.den
    ensures RoundHalfEven(a) <= RoundHalfEven(b)
  {
    var m := RoundHalfEven(a);
    var n := RoundHalfEven(b);
    HalfBounds(a.num, a.den, m);
    HalfBounds(b.num, b.den, n);
    ChainBound(a.num, a.den, b.num, b.den, m, n);
  }

  // The examples of the musician test suite, and the 75 the docstring omits.
  lemma ExactQuarter()
    ensures GetBootstrapedPercent(VNum(IntRat(25)), VNum(IntRat(100))) == 25
  {
    assert RoundHalfEven(Rat(4 * 25, 100)) == 1;
  }

  lemma RoundsDown()
    ensures GetBootstrapedPercent(VNum(IntRat(26)), VNum(IntRat(100))) == 25
  {
    assert RoundHalfEven(Rat(4 * 26, 100)) == 1;
  }

  lemma RoundsUp()
    ensures GetBootstrapedPercent(VNum(IntRat(48)), VNum(IntRat(100))) == 50
  {
    assert RoundHalfEven(Rat(4 * 48, 100)) == 2;
  }

  lemma ClampsHigh()
    ensures GetBootstrapedPercent(VNum(IntRat(200)), VNum(IntRat(100))) == 100
  {
    assert RoundHalfEven(Rat(4 * 200, 100)) == 8;
  }

  lemma ClampsLow()
    ensures GetBootstrapedPercent(VNum(IntRat(-10)), VNum(IntRat(100))) == 0
  {
    assert RoundHalfEven(Rat(4 * -10, 100)) == 0;
  }

  lemma ThreeQuarters()
    ensures GetBootstrapedPercent(VNum(IntRat(3)), VNum(IntRat(4))) == 75
  {
    assert RoundHalfEven(Rat(4 * 3, 4)) == 3;
  }

  lemma InvalidTotals(value: Value)
    ensures GetBootstrapedPercent(value, VNum(IntRat(0))) == 0
    ensures GetBootstrapedPercent(value, VNone) == 0
  {
  }
}
