/** The `Order` entity and its state machine: an order is created PENDING and is then
    either MATCHED or CANCELED, once.

    `OrderRow` is the persisted value of an order; `Order` is the managed entity whose
    `cancel` and `match` reassign its status in place. */
module OrderEntity {
  import opened Wrappers
  import opened Decimal
  import opened QuantityValue
  import opened MoneyValue
  import opened AssetSymbolValue

  datatype OrderSide = BUY | SELL

  datatype OrderStatus = PENDING | MATCHED | CANCELED

  datatype OrderRow = OrderRow(customerId: int, assetSymbol: AssetSymbol, orderSide: OrderSide,
                               size: Quantity, price: Money, status: OrderStatus) {

    predicate Valid() {
      assetSymbol.Valid() && size.Valid() && price.Valid()
    }

    /** `getTotalAmount`: price times size, at scale 2, the nearest whole number of cents
        (a tie going up). */
    function GetTotalAmount(): (m: Money)
      requires Valid()
      ensures m.Valid()
      ensures (2 * m.amount - CENT) * UNIT <= 2 * price.amount * size.value < (2 * m.amount + CENT) * UNIT
    {
      price.MultiplyQuantity(Some(size)).value
    }

    predicate CanBeCanceled() {
      status == PENDING
    }

    /** `cancel`: PENDING becomes CANCELED; any other status is an illegal state. */
    function Cancel(): (r: Result<OrderRow>)
      ensures r.Ok? <==> status == PENDING
      ensures r.Ok? ==> r.value == this.(status := CANCELED)
      ensures r.Err? ==> r.error == IllegalState("Order cannot be canceled")
    {
      if !CanBeCanceled() then Err(IllegalState("Order cannot be canceled"))
      else Ok(this.(status := CANCELED))
    }

    /** `match`: PENDING becomes MATCHED; any other status is an illegal state. */
    function Match(): (r: Result<OrderRow>)
      ensures r.Ok? <==> status == PENDING
      ensures r.Ok? ==> r.value == this.(status := MATCHED)
      ensures r.Err? ==> r.error == IllegalState("Only pending orders can be matched")
    {
      if status != PENDING then Err(IllegalState("Only pending orders can be matched"))
      else Ok(this.(status := MATCHED))
    }
  }

  class Order {
    var customerId: int
    var assetSymbol: AssetSymbol
    var orderSide: OrderSide
    var size: Quantity
    var price: Money
    var status: OrderStatus

    /** The row this entity is flushed to. */
    function Row(): OrderRow
      reads this
    {
      OrderRow(customerId, assetSymbol, orderSide, size, price, status)
    }

    /** The managed entity of a stored row. */
    constructor Load(row: OrderRow)
      ensures Row() == row
    {
      customerId := row.customerId;
      assetSymbol := row.assetSymbol;
      orderSide := row.orderSide;
      size := row.size;
      price := row.price;
      status := row.status;
    }

    method Cancel() returns (o: Outcome)
      modifies this
      ensures old(Row()).Cancel().Ok? ==> o.Pass? && Row() == old(Row()).Cancel().value
      ensures old(Row()).Cancel().Err? ==> o == Fail(old(Row()).Cancel().error) && Row() == old(Row())
    {
      if status != PENDING {
        return Fail(IllegalState("Order cannot be canceled"));
      }
      status := CANCELED;
      return Pass;
    }

    method Match() returns (o: Outcome)
      modifies this
      ensures old(Row()).Match().Ok? ==> o.Pass? && Row() == old(Row()).Match().value
      ensures old(Row()).Match().Err? ==> o == Fail(old(Row()).Match().error) && Row() == old(Row())
    {
      if status != PENDING {
        return Fail(IllegalState("Only pending orders can be matched"));
      }
      status := MATCHED;
      return Pass;
    }
  }

  /** A call of `cancel` or of `match` on an order. */
  datatype Transition = CancelCall | MatchCall

  /** One call: the new order on success, the order unchanged when the call throws. */
  function Apply(o: OrderRow, t: Transition): OrderRow {
    var r := if t.CancelCall? then o.Cancel() else o.Match();
    if r.Ok? then r.value else o
  }

  /** The calls made one after the other. */
  function Run(o: OrderRow, ts: seq<Transition>): OrderRow
    decreases |ts|
  {
    if ts == [] then o else Run(Apply(o, ts[0]), ts[1..])
  }

  /** MATCHED and CANCELED are terminal: no sequence of calls changes such an order. */
  lemma {:induction false} TerminalStatesAreFinal(o: OrderRow, ts: seq<Transition>)
    requires o.status != PENDING
    ensures Run(o, ts) == o
  {
    if ts != [] {
      TerminalStatesAreFinal(Apply(o, ts[0]), ts[1..]);
    }
  }

  /** Only the first call of any sequence has an effect; after it the order is terminal,
      and the status is all that ever changes. */
  lemma {:induction false} OnlyFirstCallCounts(o: OrderRow, ts: seq<Transition>)
    requires o.status == PENDING && ts != []
    ensures Run(o, ts) == o.(status := if ts[0].CancelCall? then CANCELED else MATCHED)
  {
    TerminalStatesAreFinal(Apply(o, ts[0]), ts[1..]);
  }

  /** The example of the tests: 150.00 times 10 is 1500.00. */
  lemma TotalAmountExample(o: OrderRow)
    requires o.Valid() && o.price == Money(150_000000) && o.size == Quantity(10_000000)
    ensures o.GetTotalAmount() == Money(1500_000000)
  {
    Round2ProductExact(150_000000, 10_000000, 1500_000000);
  }
}
