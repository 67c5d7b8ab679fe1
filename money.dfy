/** The `Money` value object: an immutable non-negative amount of currency, kept at
    scale 2. Every operation checks its argument and returns a fresh value. */
module MoneyValue {
  import opened Wrappers
  import opened Decimal
  import opened QuantityValue

  datatype Money = Money(amount: Amount) {

    /** What the constructor guarantees of every instance. */
    predicate Valid() {
      amount >= 0 && IsScale2(amount)
    }

    /** `new Money(amount)`: rejects null and negative input, otherwise rounds HALF_UP
        to two places. */
    static function Of(v: Option<Amount>): (r: Result<Money>)
      ensures r.Ok? <==> v.Some? && v.value >= 0
      ensures r.Ok? ==> r.value.Valid() && r.value.amount - CENT / 2 <= v.value < r.value.amount + CENT / 2
      ensures v.None? ==> r == Err(IllegalArgument("Money amount cannot be null"))
      ensures v.Some? && v.value < 0 ==> r == Err(IllegalArgument("Money amount cannot be negative"))
    {
      if v.None? then Err(IllegalArgument("Money amount cannot be null"))
      else if v.value < 0 then Err(IllegalArgument("Money amount cannot be negative"))
      else Ok(Money(Round2(v.value)))
    }

    static function Zero(): (m: Money)
      ensures m.Valid() && m.amount == 0
    {
      Round2OfScale2(0);
      Of(Some(0)).value
    }

    /** The sum is exact, both operands being at scale 2. */
    function Add(other: Option<Money>): (r: Result<Money>)
      requires Valid()
      requires other.Some? ==> other.value.Valid()
      ensures other.None? ==> r == Err(IllegalArgument("Cannot add null money"))
      ensures r.Ok? <==> other.Some?
      ensures r.Ok? ==> r.value.Valid() && r.value.amount == amount + other.value.amount
    {
      if other.None? then Err(IllegalArgument("Cannot add null money"))
      else
        Scale2Closed(amount, other.value.amount);
        Round2OfScale2(amount + other.value.amount);
        Of(Some(amount + other.value.amount))
    }

    /** Fails with IllegalState when the other amount is larger; otherwise the exact,
        non-negative difference. */
    function Subtract(other: Option<Money>): (r: Result<Money>)
      requires Valid()
      requires other.Some? ==> other.value.Valid()
      ensures other.None? ==> r == Err(IllegalArgument("Cannot subtract null money"))
      ensures other.Some? && amount < other.value.amount ==> r.Err? && r.error.IllegalState?
      ensures r.Ok? <==> other.Some? && other.value.amount <= amount
      ensures r.Ok? ==> r.value.Valid() && r.value.amount == amount - other.value.amount
    {
      if other.None? then Err(IllegalArgument("Cannot subtract null money"))
      else if amount < other.value.amount then
        // the message goes on with the two toString() forms, which are not modelled
        Err(IllegalState("Insufficient money: cannot subtract "))
      else
        Scale2Closed(amount, other.value.amount);
        Round2OfScale2(amount - other.value.amount);
        Of(Some(amount - other.value.amount))
    }

    /** `multiply(BigDecimal)`: the exact product, rounded HALF_UP to two places by the
        constructor; the result is the whole number of cents nearest to it. */
    function Multiply(factor: Option<Amount>): (r: Result<Money>)
      requires Valid()
      ensures factor.None? ==> r == Err(IllegalArgument("Multiplication factor cannot be null"))
      ensures factor.Some? && factor.value < 0 ==>
                r == Err(IllegalArgument("Multiplication factor cannot be negative"))
      ensures r.Ok? <==> factor.Some? && factor.value >= 0
      ensures r.Ok? ==> r.value.Valid()
      ensures r.Ok? ==>
                (2 * r.value.amount - CENT) * UNIT <= 2 * amount * factor.value < (2 * r.value.amount + CENT) * UNIT
    {
      if factor.None? then Err(IllegalArgument("Multiplication factor cannot be null"))
      else if factor.value < 0 then Err(IllegalArgument("Multiplication factor cannot be negative"))
      else Ok(Money(Round2Product(amount, factor.value)))
    }

    /** `multiply(Quantity)`: rejects null, otherwise multiplies by the quantity's value. */
    function MultiplyQuantity(quantity: Option<Quantity>): (r: Result<Money>)
      requires Valid()
      requires quantity.Some? ==> quantity.value.Valid()
      ensures quantity.None? ==> r == Err(IllegalArgument("Quantity cannot be null"))
      ensures r.Ok? <==> quantity.Some?
      ensures r.Ok? ==> r.value.Valid()
      ensures r.Ok? ==>
                (2 * r.value.amount - CENT) * UNIT <= 2 * amount * quantity.value.value < (2 * r.value.amount + CENT) * UNIT
    {
      if quantity.None? then Err(IllegalArgument("Quantity cannot be null"))
      else Multiply(Some(quantity.value.value))
    }

    /** `divide(BigDecimal)`: the quotient rounded HALF_UP to two places. */
    function Divide(divisor: Option<Amount>): (r: Result<Money>)
      requires Valid()
      ensures divisor.None? ==> r == Err(IllegalArgument("Divisor cannot be null"))
      ensures divisor.Some? && divisor.value <= 0 ==> r == Err(IllegalArgument("Divisor must be positive"))
      ensures r.Ok? <==> divisor.Some? && divisor.value > 0
      ensures r.Ok? ==> r.value.Valid()
      ensures r.Ok? ==>
                (2 * r.value.amount - CENT) * divisor.value <= 2 * amount * UNIT < (2 * r.value.amount + CENT) * divisor.value
    {
      if divisor.None? then Err(IllegalArgument("Divisor cannot be null"))
      else if divisor.value <= 0 then Err(IllegalArgument("Divisor must be positive"))
      else
        var q := Round2Quotient(amount, divisor.value);
        Round2OfScale2(q);
        Of(Some(q))
    }

    predicate IsZero() {
      amount == 0
    }

    predicate IsPositive() {
      amount > 0
    }

    /** As for `Quantity`, a null argument counts as the smallest value. */
    predicate IsGreaterThan(other: Option<Money>) {
      other.None? || Compare(amount, other.value.amount) > 0
    }

    predicate IsLessThan(other: Option<Money>) {
      other.Some? && Compare(amount, other.value.amount) < 0
    }

    predicate IsGreaterThanOrEqual(other: Option<Money>) {
      other.None? || Compare(amount, other.value.amount) >= 0
    }

    predicate IsLessThanOrEqual(other: Option<Money>) {
      other.Some? && Compare(amount, other.value.amount) <= 0
    }

    /** `compareTo`: throws on null, otherwise the sign of the difference. */
    function CompareTo(other: Option<Money>): (r: Result<int>)
      ensures other.None? ==> r == Err(IllegalArgument("Cannot compare with null money"))
      ensures other.Some? ==> r.Ok? && r.value == Compare(amount, other.value.amount)
    {
      if other.None? then Err(IllegalArgument("Cannot compare with null money"))
      else Ok(Compare(amount, other.value.amount))
    }
  }

  /** The predicates answer what `compareTo` answers, and a null argument gets the fixed
      answers of the source. */
  lemma ComparisonsAgree(a: Money, b: Money)
    ensures a.IsGreaterThan(Some(b)) <==> a.CompareTo(Some(b)) == Ok(1)
    ensures a.IsLessThan(Some(b)) <==> a.CompareTo(Some(b)) == Ok(-1)
    ensures a.IsGreaterThanOrEqual(Some(b)) <==> !a.IsLessThan(Some(b))
    ensures a.IsLessThanOrEqual(Some(b)) <==> !a.IsGreaterThan(Some(b))
    ensures a.CompareTo(Some(b)).value == -b.CompareTo(Some(a)).value
    ensures a.IsGreaterThan(None) && a.IsGreaterThanOrEqual(None)
    ensures !a.IsLessThan(None) && !a.IsLessThanOrEqual(None) && a.CompareTo(None).Err?
  {
  }

  /** Subtracting what was added gives back the original amount. */
  lemma AddSubtractRoundTrip(a: Money, b: Money)
    requires a.Valid() && b.Valid()
    ensures a.Add(Some(b)).Ok?
    ensures a.Add(Some(b)).value.Subtract(Some(b)) == Ok(a)
  {
  }

  /** Examples the tests rely on: 123.45 x 15.5 = 1913.48 (from 1913.475),
      15.50 x 3 = 46.50 and 100 / 3 = 33.33. */
  lemma Examples()
    ensures Money(123_450000).Multiply(Some(15_500000)) == Ok(Money(1913_480000))
    ensures Money(15_500000).MultiplyQuantity(Some(Quantity(3_000000))) == Ok(Money(46_500000))
    ensures Money(100_000000).Divide(Some(3_000000)) == Ok(Money(33_330000))
  {
    Round2ProductExact(15_500000, 3_000000, 46_500000);
    Round2OfScale2(33_330000);
  }
}
