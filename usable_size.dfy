/** The `UsableSize` value object: the unreserved part of a ledger entry. Unlike
    `Quantity` it is only checked to be non-negative; its value is stored as given,
    without rescaling. */
module UsableSizeValue {
  import opened Wrappers
  import opened Decimal

  datatype UsableSize = UsableSize(value: Amount) {

    predicate Valid() {
      value >= 0
    }

    /** `new UsableSize(value)`: rejects null and negative input and keeps the value
        exactly. */
    static function Of(v: Option<Amount>): (r: Result<UsableSize>)
      ensures r.Ok? <==> v.Some? && v.value >= 0
      ensures r.Ok? ==> r.value.Valid() && r.value.value == v.value
      ensures v.None? ==> r == Err(IllegalArgument("Usable size value cannot be null"))
      ensures v.Some? && v.value < 0 ==> r == Err(IllegalArgument("Usable size cannot be negative"))
    {
      if v.None? then Err(IllegalArgument("Usable size value cannot be null"))
      else if v.value < 0 then Err(IllegalArgument("Usable size cannot be negative"))
      else Ok(UsableSize(v.value))
    }

    static function Zero(): (u: UsableSize)
      ensures u.Valid() && u.value == 0
    {
      Of(Some(0)).value
    }

    /** Takes `amount` out of the usable value: a null or negative amount is an illegal
        argument, an amount above the value an illegal state. */
    function Reserve(amount: Option<Amount>): (r: Result<UsableSize>)
      requires Valid()
      ensures amount.None? ==> r == Err(IllegalArgument("Reserve amount cannot be null"))
      ensures amount.Some? && amount.value < 0 ==> r == Err(IllegalArgument("Reserve amount cannot be negative"))
      ensures amount.Some? && 0 <= value < amount.value ==> r == Err(IllegalState("Insufficient usable size"))
      ensures r.Ok? <==> amount.Some? && 0 <= amount.value <= value
      ensures r.Ok? ==> r.value.Valid() && r.value.value + amount.value == value
    {
      if amount.None? then Err(IllegalArgument("Reserve amount cannot be null"))
      else if amount.value < 0 then Err(IllegalArgument("Reserve amount cannot be negative"))
      else if Compare(value, amount.value) < 0 then Err(IllegalState("Insufficient usable size"))
      else Of(Some(value - amount.value))
    }

    /** Gives `amount` back; there is no upper bound. */
    function Release(amount: Option<Amount>): (r: Result<UsableSize>)
      requires Valid()
      ensures amount.None? ==> r == Err(IllegalArgument("Release amount cannot be null"))
      ensures amount.Some? && amount.value < 0 ==> r == Err(IllegalArgument("Release amount cannot be negative"))
      ensures r.Ok? <==> amount.Some? && amount.value >= 0
      ensures r.Ok? ==> r.value.Valid() && r.value.value - amount.value == value
    {
      if amount.None? then Err(IllegalArgument("Release amount cannot be null"))
      else if amount.value < 0 then Err(IllegalArgument("Release amount cannot be negative"))
      else Of(Some(value + amount.value))
    }

    /** Adds newly owned `amount`; the same arithmetic as `Release`, with its own messages. */
    function Add(amount: Option<Amount>): (r: Result<UsableSize>)
      requires Valid()
      ensures amount.None? ==> r == Err(IllegalArgument("Add amount cannot be null"))
      ensures amount.Some? && amount.value < 0 ==> r == Err(IllegalArgument("Add amount cannot be negative"))
      ensures r.Ok? <==> amount.Some? && amount.value >= 0
      ensures r.Ok? ==> r.value.Valid() && r.value.value - amount.value == value
    {
      if amount.None? then Err(IllegalArgument("Add amount cannot be null"))
      else if amount.value < 0 then Err(IllegalArgument("Add amount cannot be negative"))
      else Of(Some(value + amount.value))
    }

    predicate CanReserve(amount: Option<Amount>) {
      amount.Some? && Compare(value, amount.value) >= 0
    }

    predicate IsZero() {
      value == 0
    }

    predicate IsGreaterThan(amount: Option<Amount>) {
      amount.None? || Compare(value, amount.value) > 0
    }

    predicate IsLessThan(amount: Option<Amount>) {
      amount.Some? && Compare(value, amount.value) < 0
    }

    function CompareTo(amount: Option<Amount>): (r: Result<int>)
      ensures amount.None? ==> r == Err(IllegalArgument("Comparison amount cannot be null"))
      ensures amount.Some? ==> r.Ok? && r.value == Compare(value, amount.value)
    {
      if amount.None? then Err(IllegalArgument("Comparison amount cannot be null"))
      else Ok(Compare(value, amount.value))
    }
  }

  /** Releasing what was reserved restores the value exactly. */
  lemma ReserveReleaseRoundTrip(u: UsableSize, x: Amount)
    requires u.Valid() && 0 <= x <= u.value
    ensures u.Reserve(Some(x)).Ok?
    ensures u.Reserve(Some(x)).value.Release(Some(x)) == Ok(u)
  {
  }

  /** Reserving the whole value succeeds and leaves zero; one millionth more fails. */
  lemma ReserveBoundary(u: UsableSize)
    requires u.Valid()
    ensures u.Reserve(Some(u.value)) == Ok(UsableSize.Zero())
    ensures u.Reserve(Some(u.value + 1)) == Err(IllegalState("Insufficient usable size"))
  {
  }

  /** For a non-negative amount, `canReserve` answers exactly whether `reserve` passes
      its sufficiency check; a null amount can never be reserved. */
  lemma CanReserveIffReserveSucceeds(u: UsableSize, amount: Option<Amount>)
    requires u.Valid()
    requires amount.Some? ==> amount.value >= 0
    ensures u.CanReserve(amount) <==> u.Reserve(amount).Ok?
  {
  }

  /** The comparisons agree with `compareTo`, and a null argument gets the fixed answers
      of the source. */
  lemma ComparisonsAgree(u: UsableSize, x: Amount)
    ensures u.IsGreaterThan(Some(x)) <==> u.CompareTo(Some(x)) == Ok(1)
    ensures u.IsLessThan(Some(x)) <==> u.CompareTo(Some(x)) == Ok(-1)
    ensures u.IsGreaterThan(None) && !u.IsLessThan(None) && u.CompareTo(None).Err?
  {
  }
}
