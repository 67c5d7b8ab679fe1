/** Fixed-point arithmetic at scale 2, as `BigDecimal.setScale(2, RoundingMode.HALF_UP)`
    and `divide(divisor, 2, RoundingMode.HALF_UP)` perform it on the non-negative
    decimals of the ledger.

    A decimal is an `Amount`: an integer count of millionths, so 1.5 is 1_500_000 and
    every decimal with at most six fractional digits is represented exactly. A value
    at scale 2 is a whole number of cents. */
module Decimal {

  type Amount = int

  /** One whole unit, and one cent, in millionths. */
  const UNIT: int := 1_000_000
  const CENT: int := 10_000

  /** The decimal has at most two digits after the point. */
  predicate IsScale2(x: Amount) {
    x % CENT == 0
  }

  /** The integer nearest to n / d, a tie going up: HALF_UP for a non-negative quotient. */
  function HalfUpDiv(n: int, d: int): (q: int)
    requires n >= 0 && d > 0
    ensures q >= 0
    ensures 2 * q * d - d <= 2 * n < 2 * q * d + d
  {
    (2 * n + d) / (2 * d)
  }

  /** HALF_UP at scale 2: the nearest whole number of cents, a tie going up. */
  function Round2(x: Amount): (r: Amount)
    requires x >= 0
    ensures r >= 0 && IsScale2(r)
    ensures r - CENT / 2 <= x < r + CENT / 2
  {
    HalfUpDiv(x, CENT) * CENT
  }

  /** The exact product a x b, rounded HALF_UP at scale 2 (`new Money(a.multiply(b))`). */
  function Round2Product(a: Amount, b: Amount): (r: Amount)
    requires a >= 0 && b >= 0
    ensures r >= 0 && IsScale2(r)
    ensures (2 * r - CENT) * UNIT <= 2 * a * b < (2 * r + CENT) * UNIT
  {
    HalfUpDiv(a * b, UNIT * CENT) * CENT
  }

  /** The exact quotient a / d, rounded HALF_UP at scale 2 (`a.divide(d, 2, HALF_UP)`). */
  function Round2Quotient(a: Amount, d: Amount): (r: Amount)
    requires a >= 0 && d > 0
    ensures r >= 0 && IsScale2(r)
    ensures (2 * r - CENT) * d <= 2 * a * UNIT < (2 * r + CENT) * d
  {
    var q := HalfUpDiv(100 * a, d);
    assert 2 * q * d - d <= 2 * (100 * a) < 2 * q * d + d;
    q * CENT
  }

  /** `BigDecimal.compareTo`: -1, 0 or 1 as a is below, equal to or above b. */
  function Compare(a: Amount, b: Amount): (c: int)
    ensures c == -1 <==> a < b
    ensures c == 0 <==> a == b
    ensures c == 1 <==> a > b
  {
    if a < b then -1 else if a == b then 0 else 1
  }

  /** Round2 is determined by its contract: any whole number of cents within half a
      cent of x (the upper one on a tie) is Round2(x). */
  lemma Round2Unique(x: Amount, r: Amount)
    requires x >= 0 && IsScale2(r)
    requires r - CENT / 2 <= x < r + CENT / 2
    ensures Round2(x) == r
  {
    var s := Round2(x);
    assert s - CENT < r < s + CENT;
    assert (r - s) % CENT == 0;
  }

  /** A value already at scale 2 is left as it is. */
  lemma Round2OfScale2(x: Amount)
    requires x >= 0 && IsScale2(x)
    ensures Round2(x) == x
  {
    Round2Unique(x, x);
  }

  /** Rounding twice is rounding once. */
  lemma Round2Idempotent(x: Amount)
    requires x >= 0
    ensures Round2(Round2(x)) == Round2(x)
  {
    Round2OfScale2(Round2(x));
  }

  /** Rounding keeps order. */
  lemma Round2Monotone(x: Amount, y: Amount)
    requires 0 <= x <= y
    ensures Round2(x) <= Round2(y)
  {
    var a, b := Round2(x), Round2(y);
    assert a - CENT / 2 <= x <= y < b + CENT / 2;
  }

  /** The product of two scale-2 values rounds to their exact product when that is
      itself at scale 2 (a whole number of units times cents, for instance). */
  lemma Round2ProductExact(a: Amount, b: Amount, p: Amount)
    requires a >= 0 && b >= 0 && IsScale2(p)
    requires a * b == p * UNIT
    ensures Round2Product(a, b) == p
  {
    var r := Round2Product(a, b);
    assert (2 * r - CENT) * UNIT <= 2 * p * UNIT < (2 * r + CENT) * UNIT;
    assert 2 * r - CENT <= 2 * p < 2 * r + CENT;
    assert (r - p) % CENT == 0;
  }

  /** Sums and differences of scale-2 values are at scale 2. */
  lemma Scale2Closed(a: Amount, b: Amount)
    requires IsScale2(a) && IsScale2(b)
    ensures IsScale2(a + b) && IsScale2(a - b)
  {
  }
}
