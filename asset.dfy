/** The `Asset` entity: one ledger entry per (customer, symbol), holding the total
    `size` owned and the `usableSize` not yet reserved by pending orders.

    `AssetRow` is the persisted value of an entry; its functions say what each entity
    method does to it. `Asset` is the managed entity loaded from a row, whose methods
    reassign its fields in place. */
module AssetEntity {
  import opened Wrappers
  import opened Decimal
  import opened QuantityValue
  import opened UsableSizeValue
  import opened AssetSymbolValue

  datatype AssetRow = AssetRow(customerId: int, assetSymbol: AssetSymbol, size: Quantity, usableSize: UsableSize) {

    /** Every field holds a value its constructor accepted. */
    predicate Valid() {
      assetSymbol.Valid() && size.Valid() && usableSize.Valid()
    }

    /** The unreserved part does not exceed the total. */
    predicate Consistent() {
      usableSize.value <= size.value
    }

    /** `reserveAmount`: takes `amount` out of the usable part; nothing else changes. */
    function ReserveAmount(amount: Option<Amount>): (r: Result<AssetRow>)
      requires Valid()
      ensures amount.None? || amount.value < 0 ==> r.Err? && r.error.IllegalArgument?
      ensures amount.Some? && 0 <= usableSize.value < amount.value ==>
                r == Err(IllegalState("Insufficient usable size"))
      ensures r.Ok? <==> amount.Some? && 0 <= amount.value <= usableSize.value
      ensures r.Ok? ==> r.value.Valid() && r.value == this.(usableSize := UsableSize(usableSize.value - amount.value))
    {
      var u :- usableSize.Reserve(amount);
      Ok(this.(usableSize := u))
    }

    /** `releaseAmount`: gives `amount` back to the usable part, with no upper bound. */
    function ReleaseAmount(amount: Option<Amount>): (r: Result<AssetRow>)
      requires Valid()
      ensures amount.None? || amount.value < 0 ==> r.Err? && r.error.IllegalArgument?
      ensures r.Ok? <==> amount.Some? && amount.value >= 0
      ensures r.Ok? ==> r.value.Valid() && r.value == this.(usableSize := UsableSize(usableSize.value + amount.value))
    {
      var u :- usableSize.Release(amount);
      Ok(this.(usableSize := u))
    }

    /** `addSize`: the quantity is added to the total and to the usable part. */
    function AddSize(amount: Option<Quantity>): (r: Result<AssetRow>)
      requires Valid()
      requires amount.Some? ==> amount.value.Valid()
      ensures amount.None? ==> r == Err(IllegalArgument("Cannot add null quantity"))
      ensures r.Ok? <==> amount.Some?
      ensures r.Ok? ==> r.value.Valid()
      ensures r.Ok? ==> r.value == this.(size := Quantity(size.value + amount.value.value),
                                         usableSize := UsableSize(usableSize.value + amount.value.value))
    {
      var s :- size.Add(amount);
      Ok(this.(size := s, usableSize := usableSize.Add(Some(amount.value.value)).value))
    }

    /** `subtractSize`: fails with "Insufficient total size" when the quantity exceeds the
        total; otherwise it lowers the total only and leaves the usable part alone. A null
        quantity passes the sufficiency check and is rejected by `subtract`. */
    function SubtractSize(amount: Option<Quantity>): (r: Result<AssetRow>)
      requires Valid()
      requires amount.Some? ==> amount.value.Valid()
      ensures amount.None? ==> r == Err(IllegalArgument("Cannot subtract null quantity"))
      ensures amount.Some? && size.value < amount.value.value ==>
                r == Err(IllegalState("Insufficient total size"))
      ensures r.Ok? <==> amount.Some? && amount.value.value <= size.value
      ensures r.Ok? ==> r.value.Valid() && r.value == this.(size := Quantity(size.value - amount.value.value))
    {
      if !size.IsSufficient(amount) then Err(IllegalState("Insufficient total size"))
      else
        var s :- size.Subtract(amount);
        Ok(this.(size := s))
    }
  }

  class Asset {
    var customerId: int
    var assetSymbol: AssetSymbol
    var size: Quantity
    var usableSize: UsableSize

    /** The row this entity is flushed to. */
    function Row(): AssetRow
      reads this
    {
      AssetRow(customerId, assetSymbol, size, usableSize)
    }

    /** `new Asset()` followed by the setters of the four fields. */
    constructor (customerId: int, assetSymbol: AssetSymbol, size: Quantity, usableSize: UsableSize)
      ensures Row() == AssetRow(customerId, assetSymbol, size, usableSize)
    {
      this.customerId := customerId;
      this.assetSymbol := assetSymbol;
      this.size := size;
      this.usableSize := usableSize;
    }

    /** The managed entity of a stored row. */
    constructor Load(row: AssetRow)
      ensures Row() == row
    {
      customerId := row.customerId;
      assetSymbol := row.assetSymbol;
      size := row.size;
      usableSize := row.usableSize;
    }

    method ReserveAmount(amount: Option<Amount>) returns (o: Outcome)
      requires Row().Valid()
      modifies this
      ensures old(Row()).ReserveAmount(amount).Ok? ==>
                o.Pass? && Row() == old(Row()).ReserveAmount(amount).value
      ensures old(Row()).ReserveAmount(amount).Err? ==>
                o == Fail(old(Row()).ReserveAmount(amount).error) && Row() == old(Row())
    {
      var u := usableSize.Reserve(amount);
      if u.Err? {
        return Fail(u.error);
      }
      usableSize := u.value;
      return Pass;
    }

    method ReleaseAmount(amount: Option<Amount>) returns (o: Outcome)
      requires Row().Valid()
      modifies this
      ensures old(Row()).ReleaseAmount(amount).Ok? ==>
                o.Pass? && Row() == old(Row()).ReleaseAmount(amount).value
      ensures old(Row()).ReleaseAmount(amount).Err? ==>
                o == Fail(old(Row()).ReleaseAmount(amount).error) && Row() == old(Row())
    {
      var u := usableSize.Release(amount);
      if u.Err? {
        return Fail(u.error);
      }
      usableSize := u.value;
      return Pass;
    }

    /** The total is assigned first, as in the source; the addition to the usable part
        cannot fail once that of the total has passed. */
    method AddSize(amount: Option<Quantity>) returns (o: Outcome)
      requires Row().Valid()
      requires amount.Some? ==> amount.value.Valid()
      modifies this
      ensures old(Row()).AddSize(amount).Ok? ==>
                o.Pass? && Row() == old(Row()).AddSize(amount).value
      ensures old(Row()).AddSize(amount).Err? ==>
                o == Fail(old(Row()).AddSize(amount).error) && Row() == old(Row())
    {
      var s := size.Add(amount);
      if s.Err? {
        return Fail(s.error);
      }
      size := s.value;
      var u := usableSize.Add(Some(amount.value.value));
      usableSize := u.value;
      return Pass;
    }

    method SubtractSize(amount: Option<Quantity>) returns (o: Outcome)
      requires Row().Valid()
      requires amount.Some? ==> amount.value.Valid()
      modifies this
      ensures old(Row()).SubtractSize(amount).Ok? ==>
                o.Pass? && Row() == old(Row()).SubtractSize(amount).value
      ensures old(Row()).SubtractSize(amount).Err? ==>
                o == Fail(old(Row()).SubtractSize(amount).error) && Row() == old(Row())
    {
      if !size.IsSufficient(amount) {
        return Fail(IllegalState("Insufficient total size"));
      }
      var s := size.Subtract(amount);
      if s.Err? {
        return Fail(s.error);
      }
      size := s.value;
      return Pass;
    }
  }

  /** Releasing what was reserved restores the entry exactly. */
  lemma ReserveReleaseRoundTrip(a: AssetRow, x: Amount)
    requires a.Valid() && 0 <= x <= a.usableSize.value
    ensures a.ReserveAmount(Some(x)).Ok?
    ensures a.ReserveAmount(Some(x)).value.ReleaseAmount(Some(x)) == Ok(a)
  {
  }

  /** A failed reservation reports IllegalState exactly when the amount is a valid one
      above the usable part. */
  lemma ReserveFailure(a: AssetRow, x: Amount)
    requires a.Valid() && x >= 0
    ensures a.ReserveAmount(Some(x)).Err? <==> x > a.usableSize.value
    ensures a.ReserveAmount(Some(x)).Err? ==> a.ReserveAmount(Some(x)).error.IllegalState?
  {
  }

  /** Subtracting what was added restores the total, and the usable part keeps the
      addition: `subtractSize` never touches it. */
  lemma AddSubtractSize(a: AssetRow, q: Quantity)
    requires a.Valid() && q.Valid()
    ensures a.AddSize(Some(q)).Ok?
    ensures a.AddSize(Some(q)).value.SubtractSize(Some(q)).Ok?
    ensures a.AddSize(Some(q)).value.SubtractSize(Some(q)).value
            == a.(usableSize := UsableSize(a.usableSize.value + q.value))
  {
  }

  /** The operations keep the usable part within the total: reserving, adding, and
      taking out or giving back no more than the reserved margin `size - usable`. */
  lemma ConsistencyPreserved(a: AssetRow, x: Amount, q: Quantity)
    requires a.Valid() && a.Consistent() && x >= 0 && q.Valid()
    ensures a.ReserveAmount(Some(x)).Ok? ==> a.ReserveAmount(Some(x)).value.Consistent()
    ensures a.AddSize(Some(q)).value.Consistent()
    ensures q.value <= a.size.value - a.usableSize.value ==> a.SubtractSize(Some(q)).value.Consistent()
    ensures x <= a.size.value - a.usableSize.value ==> a.ReleaseAmount(Some(x)).value.Consistent()
  {
  }
}
