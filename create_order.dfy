/** `CreateOrderService`: validates an order request, reserves what the order needs on
    the customer's ledger and stores the new order as PENDING, all in one transaction. */
module OrderCreation {
  import opened Wrappers
  import opened Decimal
  import opened QuantityValue
  import opened MoneyValue
  import opened UsableSizeValue
  import opened AssetSymbolValue
  import opened AssetEntity
  import opened OrderEntity
  import opened Ledger
  import opened AssetManagement

  /** The request as it reaches the service; bean validation has already rejected null
      fields. */
  datatype CreateOrderRequest = CreateOrderRequest(customerId: int, assetName: string, orderSide: OrderSide,
                                                   size: Amount, price: Amount)

  /** `validateOrderRequest`: the size is checked before the price. */
  function ValidateOrderRequest(request: CreateOrderRequest): (o: Outcome)
    ensures o.Pass? <==> request.size > 0 && request.price > 0
    ensures request.size <= 0 ==> o == Fail(IllegalArgument("Order size must be positive"))
    ensures request.size > 0 && request.price <= 0 ==> o == Fail(IllegalArgument("Order price must be positive"))
  {
    if request.size <= 0 then Fail(IllegalArgument("Order size must be positive"))
    else if request.price <= 0 then Fail(IllegalArgument("Order price must be positive"))
    else Pass
  }

  /** The amount a BUY order reserves: the price and the size, each rounded to two
      places, multiplied and rounded again. */
  function TotalAmountOf(request: CreateOrderRequest): (m: Money)
    requires request.size >= 0 && request.price >= 0
    ensures m.Valid()
    ensures (2 * m.amount - CENT) * UNIT <= 2 * Round2(request.price) * Round2(request.size) < (2 * m.amount + CENT) * UNIT
  {
    Money.Of(Some(request.price)).value.MultiplyQuantity(Some(Quantity.Of(Some(request.size)).value)).value
  }

  /** `handleBuyOrder`: the customer's TRY entry must exist and have at least the total
      amount usable; that amount is reserved on it. */
  function ReserveForBuy(s: Store, request: CreateOrderRequest): (r: Result<Store>)
    requires WellFormed(s) && request.size >= 0 && request.price >= 0
    ensures AssetKey(request.customerId, "TRY") !in s.assets ==> r == Err(IllegalArgument("Asset not found"))
    ensures AssetKey(request.customerId, "TRY") in s.assets &&
            s.assets[AssetKey(request.customerId, "TRY")].usableSize.value < TotalAmountOf(request).amount ==>
              r == Err(IllegalState("Insufficient TRY balance"))
    ensures r.Ok? ==>
              var k := AssetKey(request.customerId, "TRY");
              && k in s.assets
              && r.value == s.(assets := s.assets[k := s.assets[k].(usableSize :=
                                 UsableSize(s.assets[k].usableSize.value - TotalAmountOf(request).amount))])
  {
    var tryAsset :- FindForUpdate(s, request.customerId, "TRY");
    var total := TotalAmountOf(request);
    if tryAsset.usableSize.CompareTo(Some(total.amount)).value < 0 then Err(IllegalState("Insufficient TRY balance"))
    else
      var reserved := tryAsset.ReserveAmount(Some(total.amount)).value;
      Ok(s.(assets := s.assets[KeyOf(reserved) := reserved]))
  }

  /** `handleSellOrder`: the entry stored under the raw asset name must exist and have
      the raw request size usable; that size, unrounded, is reserved on it. */
  function ReserveForSell(s: Store, request: CreateOrderRequest): (r: Result<Store>)
    requires WellFormed(s) && request.size >= 0
    ensures AssetKey(request.customerId, request.assetName) !in s.assets ==> r == Err(IllegalArgument("Asset not found"))
    ensures AssetKey(request.customerId, request.assetName) in s.assets &&
            s.assets[AssetKey(request.customerId, request.assetName)].usableSize.value < request.size ==>
              r == Err(IllegalState("Insufficient asset balance"))
    ensures r.Ok? ==>
              var k := AssetKey(request.customerId, request.assetName);
              && k in s.assets
              && r.value == s.(assets := s.assets[k := s.assets[k].(usableSize :=
                                 UsableSize(s.assets[k].usableSize.value - request.size))])
  {
    var asset :- FindForUpdate(s, request.customerId, request.assetName);
    if asset.usableSize.CompareTo(Some(request.size)).value < 0 then Err(IllegalState("Insufficient asset balance"))
    else
      var reserved := asset.ReserveAmount(Some(request.size)).value;
      Ok(s.(assets := s.assets[KeyOf(reserved) := reserved]))
  }

  /** `OrderMapper.toEntity`: the normalised symbol (which may be rejected), the size and
      price rounded to two places, and status PENDING. */
  function ToEntity(request: CreateOrderRequest): (r: Result<OrderRow>)
    requires request.size >= 0 && request.price >= 0
    ensures r.Ok? <==> AssetSymbol.Of(Some(request.assetName)).Ok?
    ensures r.Err? ==> r.error == AssetSymbol.Of(Some(request.assetName)).error
    ensures r.Ok? ==> r.value.Valid() && r.value.status == PENDING
    ensures r.Ok? ==> r.value == OrderRow(request.customerId, AssetSymbol(Normalize(request.assetName)), request.orderSide,
                                          Quantity(Round2(request.size)), Money(Round2(request.price)), PENDING)
  {
    var symbol :- AssetSymbol.Of(Some(request.assetName));
    Ok(OrderRow(request.customerId, symbol, request.orderSide,
                Quantity.Of(Some(request.size)).value, Money.Of(Some(request.price)).value, PENDING))
  }

  /** `createOrder`: validation, then the reservation, then the new order appended. The
      checks of the request reject it before the ledger is read. */
  function Create(s: Store, request: CreateOrderRequest): (r: Result<Store>)
    requires WellFormed(s)
    ensures request.size <= 0 ==> r == Err(IllegalArgument("Order size must be positive"))
    ensures request.size > 0 && request.price <= 0 ==> r == Err(IllegalArgument("Order price must be positive"))
    ensures r.Ok? ==> request.size > 0 && request.price > 0
    ensures r.Ok? ==> ToEntity(request).Ok? && r.value.orders == s.orders + [ToEntity(request).value]
    ensures ValidateOrderRequest(request).Pass? ==>
              var reserved := if request.orderSide == BUY then ReserveForBuy(s, request) else ReserveForSell(s, request);
              && (reserved.Err? ==> r == Err(reserved.error))
              && (reserved.Ok? && ToEntity(request).Err? ==> r == Err(ToEntity(request).error))
              && (r.Ok? ==> reserved.Ok? && r.value.assets == reserved.value.assets)
  {
    var v := ValidateOrderRequest(request);
    if v.Fail? then Err(v.error)
    else
      var reserved := if request.orderSide == BUY then ReserveForBuy(s, request) else ReserveForSell(s, request);
      if reserved.Err? then Err(reserved.error)
      else
        var order := ToEntity(request);
        if order.Err? then Err(order.error)
        else Ok(reserved.value.(orders := reserved.value.orders + [order.value]))
  }

  class CreateOrderService {
    const repos: Repositories
    const assetManagement: AssetManagementService

    /** Both services share one pair of repositories. */
    predicate Wired() {
      assetManagement.repos == repos
    }

    constructor (repos: Repositories, assetManagement: AssetManagementService)
      requires assetManagement.repos == repos
      ensures this.repos == repos && this.assetManagement == assetManagement && Wired()
    {
      this.repos := repos;
      this.assetManagement := assetManagement;
    }

    /** Returns the id of the stored order. A failure after the reservation (a symbol the
        mapper rejects) rolls the reservation back. */
    method CreateOrder(request: CreateOrderRequest) returns (r: Result<nat>)
      requires Wired() && WellFormed(repos.State())
      modifies repos
      ensures Create(old(repos.State()), request).Ok? ==>
                r == Ok(|old(repos.orders)|) && repos.State() == Create(old(repos.State()), request).value
      ensures Create(old(repos.State()), request).Err? ==>
                r == Err(Create(old(repos.State()), request).error) && repos.State() == old(repos.State())
    {
      var snapshot := repos.State();
      var valid := ValidateOrderRequest(request);
      if valid.Fail? {
        return Err(valid.error);
      }
      var handled: Outcome;
      if request.orderSide == BUY {
        handled := HandleBuyOrder(request);
      } else {
        handled := HandleSellOrder(request);
      }
      if handled.Fail? {
        return Err(handled.error);
      }
      var order := ToEntity(request);
      if order.Err? {
        repos.Restore(snapshot);
        return Err(order.error);
      }
      var id := repos.InsertOrder(order.value);
      return Ok(id);
    }

    method HandleBuyOrder(request: CreateOrderRequest) returns (o: Outcome)
      requires Wired() && WellFormed(repos.State()) && request.size >= 0 && request.price >= 0
      modifies repos
      ensures ReserveForBuy(old(repos.State()), request).Ok? ==>
                o.Pass? && repos.State() == ReserveForBuy(old(repos.State()), request).value
      ensures ReserveForBuy(old(repos.State()), request).Err? ==>
                o == Fail(ReserveForBuy(old(repos.State()), request).error) && repos.State() == old(repos.State())
    {
      var found := assetManagement.GetAssetForUpdate(request.customerId, "TRY");
      if found.Err? {
        return Fail(found.error);
      }
      var tryAsset := found.value;
      var total := TotalAmountOf(request);
      if tryAsset.usableSize.CompareTo(Some(total.amount)).value < 0 {
        return Fail(IllegalState("Insufficient TRY balance"));
      }
      var _ := tryAsset.ReserveAmount(Some(total.amount));
      repos.SaveAsset(tryAsset);
      return Pass;
    }

    method HandleSellOrder(request: CreateOrderRequest) returns (o: Outcome)
      requires Wired() && WellFormed(repos.State()) && request.size >= 0
      modifies repos
      ensures ReserveForSell(old(repos.State()), request).Ok? ==>
                o.Pass? && repos.State() == ReserveForSell(old(repos.State()), request).value
      ensures ReserveForSell(old(repos.State()), request).Err? ==>
                o == Fail(ReserveForSell(old(repos.State()), request).error) && repos.State() == old(repos.State())
    {
      var found := assetManagement.GetAssetForUpdate(request.customerId, request.assetName);
      if found.Err? {
        return Fail(found.error);
      }
      var asset := found.value;
      if asset.usableSize.CompareTo(Some(request.size)).value < 0 {
        return Fail(IllegalState("Insufficient asset balance"));
      }
      var _ := asset.ReserveAmount(Some(request.size));
      repos.SaveAsset(asset);
      return Pass;
    }
  }

  /** A BUY reservation takes from the TRY entry exactly what the new order holds. */
  lemma BuyReservation(s: Store, request: CreateOrderRequest)
    requires WellFormed(s) && request.size > 0 && request.price > 0 && request.orderSide == BUY
    requires ReserveForBuy(s, request).Ok? && ToEntity(request).Ok?
    ensures var order := ToEntity(request).value;
            && ReservationKey(order) in s.assets
            && Reservation(order) <= s.assets[ReservationKey(order)].usableSize.value
            && ReserveForBuy(s, request).value.assets == WithReservation(s, order).assets
  {
    var order := ToEntity(request).value;
    assert order.GetTotalAmount() == TotalAmountOf(request);
  }

  /** A SELL reservation takes from the entry of the sold symbol exactly what the new
      order holds, when the size has at most two decimals. */
  lemma SellReservation(s: Store, request: CreateOrderRequest)
    requires WellFormed(s) && request.size > 0 && request.price > 0 && request.orderSide == SELL
    requires IsScale2(request.size)
    requires ReserveForSell(s, request).Ok? && ToEntity(request).Ok?
    ensures var order := ToEntity(request).value;
            && ReservationKey(order) in s.assets
            && Reservation(order) <= s.assets[ReservationKey(order)].usableSize.value
            && ReserveForSell(s, request).value.assets == WithReservation(s, order).assets
  {
    FindNeedsNormalName(s, request.customerId, request.assetName);
    Round2OfScale2(request.size);
  }

  /** The entry a successful creation reserves on, and the amount, are exactly the key
      and the amount the new order holds. A SELL request's size must have at most two
      decimals for the amount to agree: the entry is charged the raw size while the order
      keeps it rounded. */
  lemma CreateReservesWhatOrderHolds(s: Store, request: CreateOrderRequest)
    requires WellFormed(s) && Create(s, request).Ok?
    requires request.orderSide == SELL ==> IsScale2(request.size)
    ensures var order := ToEntity(request).value;
            var k := ReservationKey(order);
            && k in s.assets
            && Reservation(order) <= s.assets[k].usableSize.value
            && Create(s, request).value == WithReservation(s, order)
  {
    if request.orderSide == BUY {
      BuyReservation(s, request);
    } else {
      SellReservation(s, request);
    }
  }

  /** Creation keeps the store well formed and balanced, for SELL sizes with at most two
      decimals. */
  lemma CreatePreservesInvariant(s: Store, request: CreateOrderRequest)
    requires Invariant(s) && Create(s, request).Ok?
    requires request.orderSide == SELL ==> IsScale2(request.size)
    ensures Invariant(Create(s, request).value)
  {
    CreateReservesWhatOrderHolds(s, request);
    NewReservationPreservesInvariant(s, ToEntity(request).value);
  }

  /** The example of the tests: buying 10 at 150.00 with 10000 TRY usable leaves 8500
      usable and the total of 10000 unchanged. */
  lemma BuyExample(s: Store, customerId: int)
    requires WellFormed(s)
    requires AssetKey(customerId, "TRY") in s.assets
    requires s.assets[AssetKey(customerId, "TRY")].size == Quantity(10000_000000)
    requires s.assets[AssetKey(customerId, "TRY")].usableSize == UsableSize(10000_000000)
    ensures var r := Create(s, CreateOrderRequest(customerId, "AAPL", BUY, 10_000000, 150_000000));
            && r.Ok?
            && r.value.assets[AssetKey(customerId, "TRY")].size == Quantity(10000_000000)
            && r.value.assets[AssetKey(customerId, "TRY")].usableSize == UsableSize(8500_000000)
  {
    var request := CreateOrderRequest(customerId, "AAPL", BUY, 10_000000, 150_000000);
    Round2OfScale2(10_000000);
    Round2OfScale2(150_000000);
    Round2ProductExact(150_000000, 10_000000, 1500_000000);
    assert TotalAmountOf(request) == Money(1500_000000);
    OfKeepsExactlyValid("AAPL");
    assert IsValidSymbol("AAPL");
  }

  /** The example of the tests: selling 5 of 20 usable leaves 15 usable. */
  lemma SellExample(s: Store, customerId: int)
    requires WellFormed(s)
    requires AssetKey(customerId, "AAPL") in s.assets
    requires s.assets[AssetKey(customerId, "AAPL")].usableSize == UsableSize(20_000000)
    ensures var r := Create(s, CreateOrderRequest(customerId, "AAPL", SELL, 5_000000, 180_000000));
            && r.Ok?
            && r.value.assets[AssetKey(customerId, "AAPL")].usableSize == UsableSize(15_000000)
  {
    OfKeepsExactlyValid("AAPL");
    assert IsValidSymbol("AAPL");
  }
}
