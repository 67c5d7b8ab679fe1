/** The `Quantity` value object: an immutable non-negative amount of an asset, kept at
    scale 2. Every operation checks its argument and returns a fresh value. */
module QuantityValue {
  import opened Wrappers
  import opened Decimal

  datatype Quantity = Quantity(value: Amount) {

    /** What the constructor guarantees of every instance. */
    predicate Valid() {
      value >= 0 && IsScale2(value)
    }

    /** `new Quantity(value)`: rejects null and negative input, otherwise rounds HALF_UP
        to two places. */
    static function Of(v: Option<Amount>): (r: Result<Quantity>)
      ensures r.Ok? <==> v.Some? && v.value >= 0
      ensures r.Ok? ==> r.value.Valid() && r.value.value - CENT / 2 <= v.value < r.value.value + CENT / 2
      ensures v.None? ==> r == Err(IllegalArgument("Quantity value cannot be null"))
      ensures v.Some? && v.value < 0 ==> r == Err(IllegalArgument("Quantity cannot be negative"))
    {
      if v.None? then Err(IllegalArgument("Quantity value cannot be null"))
      else if v.value < 0 then Err(IllegalArgument("Quantity cannot be negative"))
      else Ok(Quantity(Round2(v.value)))
    }

    static function Zero(): (q: Quantity)
      ensures q.Valid() && q.value == 0
    {
      Round2OfScale2(0);
      Of(Some(0)).value
    }

    static function One(): (q: Quantity)
      ensures q.Valid() && q.value == UNIT
    {
      Round2OfScale2(UNIT);
      Of(Some(UNIT)).value
    }

    /** The sum is exact: both operands are at scale 2, so the rounding of the result
        changes nothing. */
    function Add(other: Option<Quantity>): (r: Result<Quantity>)
      requires Valid()
      requires other.Some? ==> other.value.Valid()
      ensures r.Ok? <==> other.Some?
      ensures r.Ok? ==> r.value.Valid() && r.value.value == value + other.value.value
      ensures other.None? ==> r == Err(IllegalArgument("Cannot add null quantity"))
    {
      if other.None? then Err(IllegalArgument("Cannot add null quantity"))
      else
        Scale2Closed(value, other.value.value);
        Round2OfScale2(value + other.value.value);
        Of(Some(value + other.value.value))
    }

    /** Fails with IllegalState when the other quantity is larger; otherwise the exact,
        non-negative difference. */
    function Subtract(other: Option<Quantity>): (r: Result<Quantity>)
      requires Valid()
      requires other.Some? ==> other.value.Valid()
      ensures other.None? ==> r == Err(IllegalArgument("Cannot subtract null quantity"))
      ensures other.Some? && value < other.value.value ==> r.Err? && r.error.IllegalState?
      ensures r.Ok? <==> other.Some? && other.value.value <= value
      ensures r.Ok? ==> r.value.Valid() && r.value.value == value - other.value.value
    {
      if other.None? then Err(IllegalArgument("Cannot subtract null quantity"))
      else if value < other.value.value then
        // the message goes on with the two toString() forms, which are not modelled
        Err(IllegalState("Insufficient quantity: cannot subtract "))
      else
        Scale2Closed(value, other.value.value);
        Round2OfScale2(value - other.value.value);
        Of(Some(value - other.value.value))
    }

    /** `multiply(BigDecimal)`: the exact product, rounded HALF_UP to two places by the
        constructor; the result is the whole number of cents nearest to it. */
    function Multiply(factor: Option<Amount>): (r: Result<Quantity>)
      requires Valid()
      ensures factor.None? ==> r == Err(IllegalArgument("Multiplication factor cannot be null"))
      ensures factor.Some? && factor.value < 0 ==>
                r == Err(IllegalArgument("Multiplication factor cannot be negative"))
      ensures r.Ok? <==> factor.Some? && factor.value >= 0
      ensures r.Ok? ==> r.value.Valid()
      ensures r.Ok? ==>
                (2 * r.value.value - CENT) * UNIT <= 2 * value * factor.value < (2 * r.value.value + CENT) * UNIT
    {
      if factor.None? then Err(IllegalArgument("Multiplication factor cannot be null"))
      else if factor.value < 0 then Err(IllegalArgument("Multiplication factor cannot be negative"))
      else Ok(Quantity(Round2Product(value, factor.value)))
    }

    /** `divide(BigDecimal)`: the quotient rounded HALF_UP to two places, then rounded
        again by the constructor, which changes nothing. */
    function Divide(divisor: Option<Amount>): (r: Result<Quantity>)
      requires Valid()
      ensures divisor.None? ==> r == Err(IllegalArgument("Divisor cannot be null"))
      ensures divisor.Some? && divisor.value <= 0 ==> r == Err(IllegalArgument("Divisor must be positive"))
      ensures r.Ok? <==> divisor.Some? && divisor.value > 0
      ensures r.Ok? ==> r.value.Valid()
      ensures r.Ok? ==>
                (2 * r.value.value - CENT) * divisor.value <= 2 * value * UNIT < (2 * r.value.value + CENT) * divisor.value
    {
      if divisor.None? then Err(IllegalArgument("Divisor cannot be null"))
      else if divisor.value <= 0 then Err(IllegalArgument("Divisor must be positive"))
      else
        var q := Round2Quotient(value, divisor.value);
        Round2OfScale2(q);
        Of(Some(q))
    }

    predicate IsZero() {
      value == 0
    }

    predicate IsPositive() {
      value > 0
    }

    /** The comparison predicates treat a null argument as the smallest value:
        "greater" answers true and "less" answers false. */
    predicate IsGreaterThan(other: Option<Quantity>) {
      other.None? || Compare(value, other.value.value) > 0
    }

    predicate IsLessThan(other: Option<Quantity>) {
      other.Some? && Compare(value, other.value.value) < 0
    }

    predicate IsGreaterThanOrEqual(other: Option<Quantity>) {
      other.None? || Compare(value, other.value.value) >= 0
    }

    predicate IsLessThanOrEqual(other: Option<Quantity>) {
      other.Some? && Compare(value, other.value.value) <= 0
    }

    /** A null requirement is always met. */
    predicate IsSufficient(required: Option<Quantity>) {
      required.None? || Compare(value, required.value.value) >= 0
    }

    /** `compareTo`: throws on null, otherwise the sign of the difference. */
    function CompareTo(other: Option<Quantity>): (r: Result<int>)
      ensures other.None? ==> r == Err(IllegalArgument("Cannot compare with null quantity"))
      ensures other.Some? ==> r.Ok? && r.value == Compare(value, other.value.value)
    {
      if other.None? then Err(IllegalArgument("Cannot compare with null quantity"))
      else Ok(Compare(value, other.value.value))
    }
  }

  /** The predicates answer what `compareTo` answers, and a null argument gets the fixed
      answers of the source. */
  lemma ComparisonsAgree(a: Quantity, b: Quantity)
    ensures a.IsGreaterThan(Some(b)) <==> a.CompareTo(Some(b)) == Ok(1)
    ensures a.IsLessThan(Some(b)) <==> a.CompareTo(Some(b)) == Ok(-1)
    ensures a.IsGreaterThanOrEqual(Some(b)) <==> !a.IsLessThan(Some(b))
    ensures a.IsLessThanOrEqual(Some(b)) <==> !a.IsGreaterThan(Some(b))
    ensures a.IsSufficient(Some(b)) <==> a.value >= b.value
    ensures a.CompareTo(Some(b)).value == -b.CompareTo(Some(a)).value
    ensures a.IsGreaterThan(None) && a.IsGreaterThanOrEqual(None) && a.IsSufficient(None)
    ensures !a.IsLessThan(None) && !a.IsLessThanOrEqual(None) && a.CompareTo(None).Err?
  {
  }

  /** Subtracting what was added gives back the original quantity. */
  lemma AddSubtractRoundTrip(a: Quantity, b: Quantity)
    requires a.Valid() && b.Valid()
    ensures a.Add(Some(b)).Ok?
    ensures a.Add(Some(b)).value.Subtract(Some(b)) == Ok(a)
  {
  }

  /** Examples the tests rely on: 10.123456 is stored as 10.12, 5.00 x 2.5 = 12.50 and
      10 / 3 = 3.33. */
  lemma Examples()
    ensures Quantity.Of(Some(10_123456)) == Ok(Quantity(10_120000))
    ensures Quantity(5_000000).Multiply(Some(2_500000)) == Ok(Quantity(12_500000))
    ensures Quantity(10_000000).Divide(Some(3_000000)) == Ok(Quantity(3_330000))
  {
    Round2Unique(10_123456, 10_120000);
    Round2ProductExact(5_000000, 2_500000, 12_500000);
    Round2OfScale2(3_330000);
  }
}
