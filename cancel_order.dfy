/** `CancelOrderService`: a customer cancels one of their pending orders; what the order
    held is given back to the usable part of its entry and the order becomes CANCELED. */
module OrderCancellation {
  import opened Wrappers
  import opened Decimal
  import opened QuantityValue
  import opened MoneyValue
  import opened UsableSizeValue
  import opened AssetSymbolValue
  import opened AssetEntity
  import opened OrderEntity
  import opened Ledger
  import opened AssetManagement
  import opened OrderCreation

  /** `FetchOrderService.getOrderById`: the order stored under this id. */
  function FindOrder(s: Store, orderId: int): (r: Result<OrderRow>)
    ensures r.Ok? <==> 0 <= orderId < |s.orders|
    ensures r.Ok? ==> r.value == s.orders[orderId]
    ensures r.Err? ==> r.error == IllegalArgument("Order not found")
  {
    if 0 <= orderId < |s.orders| then Ok(s.orders[orderId]) else Err(IllegalArgument("Order not found"))
  }

  /** `cancelOrder`: the order must exist, belong to the customer and be PENDING. A BUY
      order gives its total amount back to the customer's TRY entry, a SELL order its
      size to the entry of its symbol; the entry must exist. */
  function Cancel(s: Store, orderId: int, customerId: int): (r: Result<Store>)
    requires WellFormed(s)
    ensures !(0 <= orderId < |s.orders|) ==> r == Err(IllegalArgument("Order not found"))
    ensures 0 <= orderId < |s.orders| && s.orders[orderId].customerId != customerId ==>
              r == Err(IllegalArgument("Order does not belong to customer"))
    ensures 0 <= orderId < |s.orders| && s.orders[orderId].customerId == customerId &&
            s.orders[orderId].status != PENDING ==>
              r == Err(IllegalState("Order cannot be canceled"))
    ensures 0 <= orderId < |s.orders| && s.orders[orderId].customerId == customerId &&
            s.orders[orderId].status == PENDING && ReservationKey(s.orders[orderId]) !in s.assets ==>
              r == Err(IllegalArgument("Asset not found"))
    ensures r.Ok? ==>
              && 0 <= orderId < |s.orders|
              && var o := s.orders[orderId];
                 var k := ReservationKey(o);
                 && o.customerId == customerId && o.status == PENDING && k in s.assets
                 && r.value.assets == s.assets[k := s.assets[k].(usableSize :=
                                        UsableSize(s.assets[k].usableSize.value + Reservation(o)))]
                 && r.value.orders == s.orders[orderId := o.(status := CANCELED)]
  {
    var order :- FindOrder(s, orderId);
    if order.customerId != customerId then Err(IllegalArgument("Order does not belong to customer"))
    else if !order.CanBeCanceled() then Err(IllegalState("Order cannot be canceled"))
    else
      var released :-
        if order.orderSide == BUY then
          var tryAsset :- FindForUpdate(s, customerId, "TRY");
          tryAsset.ReleaseAmount(Some(order.GetTotalAmount().amount))
        else
          var asset :- FindForUpdate(s, customerId, order.assetSymbol.symbol);
          asset.ReleaseAmount(Some(order.size.value));
      Ok(Store(s.assets[KeyOf(released) := released], s.orders[orderId := order.Cancel().value]))
  }

  class CancelOrderService {
    const repos: Repositories
    const assetManagement: AssetManagementService

    /** Both services share one pair of repositories. */
    predicate Wired() {
      assetManagement.repos == repos
    }

    constructor (repos: Repositories, assetManagement: AssetManagementService)
      requires assetManagement.repos == repos
      ensures this.repos == repos && this.assetManagement == assetManagement && Wired()
    {
      this.repos := repos;
      this.assetManagement := assetManagement;
    }

    /** The released entry and the canceled order are both flushed at commit. */
    method CancelOrder(orderId: int, customerId: int) returns (r: Outcome)
      requires Wired() && WellFormed(repos.State())
      modifies repos
      ensures Cancel(old(repos.State()), orderId, customerId).Ok? ==>
                r.Pass? && repos.State() == Cancel(old(repos.State()), orderId, customerId).value
      ensures Cancel(old(repos.State()), orderId, customerId).Err? ==>
                && r == Fail(Cancel(old(repos.State()), orderId, customerId).error)
                && repos.State() == old(repos.State())
    {
      if orderId < 0 || orderId >= |repos.orders| {
        return Fail(IllegalArgument("Order not found"));
      }
      var order := new Order.Load(repos.orders[orderId]);
      if order.customerId != customerId {
        return Fail(IllegalArgument("Order does not belong to customer"));
      }
      if !order.Row().CanBeCanceled() {
        return Fail(IllegalState("Order cannot be canceled"));
      }
      var found: Result<Asset>;
      if order.orderSide == BUY {
        found := assetManagement.GetAssetForUpdate(customerId, "TRY");
        if found.Err? {
          return Fail(found.error);
        }
        var _ := found.value.ReleaseAmount(Some(order.Row().GetTotalAmount().amount));
      } else {
        found := assetManagement.GetAssetForUpdate(customerId, order.assetSymbol.symbol);
        if found.Err? {
          return Fail(found.error);
        }
        var _ := found.value.ReleaseAmount(Some(order.size.value));
      }
      var _ := order.Cancel();
      repos.SaveAsset(found.value);
      repos.UpdateOrder(orderId, order);
      return Pass;
    }
  }

  /** Cancellation keeps the store well formed and balanced. */
  lemma CancelPreservesInvariant(s: Store, orderId: int, customerId: int)
    requires Invariant(s) && Cancel(s, orderId, customerId).Ok?
    ensures Invariant(Cancel(s, orderId, customerId).value)
  {
    var o := s.orders[orderId];
    var k := ReservationKey(o);
    ReleasedReservationPreservesInvariant(s, orderId);
    assert Cancel(s, orderId, customerId).value == Store(s.assets[k := s.assets[k].(usableSize :=
             UsableSize(s.assets[k].usableSize.value + Reservation(o)))], s.orders[orderId := o.(status := CANCELED)]);
  }

  /** In a balanced store the owner can always cancel a pending order: the entry it holds
      its reservation on exists. */
  lemma CancelSucceedsOnPending(s: Store, orderId: int)
    requires Invariant(s) && 0 <= orderId < |s.orders| && s.orders[orderId].status == PENDING
    ensures Cancel(s, orderId, s.orders[orderId].customerId).Ok?
  {
  }

  /** Cancellation changes no total and creates or drops no entry; no other order
      changes. */
  lemma CancelKeepsTotals(s: Store, orderId: int, customerId: int)
    requires WellFormed(s) && Cancel(s, orderId, customerId).Ok?
    ensures forall k :: k in Cancel(s, orderId, customerId).value.assets <==> k in s.assets
    ensures forall k :: k in s.assets ==> Cancel(s, orderId, customerId).value.assets[k].size == s.assets[k].size
    ensures |Cancel(s, orderId, customerId).value.orders| == |s.orders|
    ensures forall i :: 0 <= i < |s.orders| && i != orderId ==> Cancel(s, orderId, customerId).value.orders[i] == s.orders[i]
  {
  }

  /** Canceling an order just appended undoes its reservation. */
  lemma CancelUndoesReservation(s: Store, order: OrderRow)
    requires WellFormed(s) && order.Valid() && order.status == PENDING
    requires ReservationKey(order) in s.assets
    requires Reservation(order) <= s.assets[ReservationKey(order)].usableSize.value
    ensures WellFormed(WithReservation(s, order))
    ensures Cancel(WithReservation(s, order), |s.orders|, order.customerId)
              == Ok(Store(s.assets, s.orders + [order.(status := CANCELED)]))
  {
    var s2 := WithReservation(s, order);
    assert WellFormed(s2);
    var n := |s.orders|;
    assert s2.orders[n] == order;
    var c := Cancel(s2, n, order.customerId);
    assert c.Ok?;
    assert c.value.assets == s.assets;
    assert c.value.orders == s.orders + [order.(status := CANCELED)];
  }

  /** Creating an order and then canceling it gives the ledger back exactly as it was,
      and leaves the order in the table as CANCELED, when a SELL size has at most two
      decimals. */
  lemma CreateThenCancel(s: Store, request: CreateOrderRequest)
    requires WellFormed(s) && Create(s, request).Ok?
    requires request.orderSide == SELL ==> IsScale2(request.size)
    ensures WellFormed(Create(s, request).value)
    ensures Cancel(Create(s, request).value, |s.orders|, request.customerId)
              == Ok(Store(s.assets, s.orders + [ToEntity(request).value.(status := CANCELED)]))
  {
    CreateReservesWhatOrderHolds(s, request);
    CancelUndoesReservation(s, ToEntity(request).value);
  }

  /** The order of a request to sell 9.995 AAPL at 1, rounded to 10.00. */
  lemma UnscaledSellOrder(c: int)
    ensures ToEntity(CreateOrderRequest(c, "AAPL", SELL, 9_995000, 1_000000))
              == Ok(OrderRow(c, AssetSymbol("AAPL"), SELL, Quantity(10_000000), Money(1_000000), PENDING))
  {
    assert IsValidSymbol("AAPL");
    NormalizeOfValid("AAPL");
    OfNormalForm("AAPL", "AAPL");
    Round2Unique(9_995000, 10_000000);
    Round2Unique(1_000000, 1_000000);
  }

  /** Reserving the raw 9.995 on an entry of 10 AAPL leaves 0.005 usable. */
  lemma UnscaledSellReservation(c: int)
    ensures var s := Store(map[AssetKey(c, "AAPL") := AssetRow(c, AssetSymbol("AAPL"), Quantity(10_000000), UsableSize(10_000000))], []);
            ReserveForSell(s, CreateOrderRequest(c, "AAPL", SELL, 9_995000, 1_000000))
              == Ok(Store(map[AssetKey(c, "AAPL") := AssetRow(c, AssetSymbol("AAPL"), Quantity(10_000000), UsableSize(5000))], []))
  {
    var k := AssetKey(c, "AAPL");
    var s := Store(map[k := AssetRow(c, AssetSymbol("AAPL"), Quantity(10_000000), UsableSize(10_000000))], []);
    var reserved := map[k := AssetRow(c, AssetSymbol("AAPL"), Quantity(10_000000), UsableSize(5000))];
    assert FindForUpdate(s, c, "AAPL") == Ok(s.assets[k]);
    assert s.assets[k].usableSize.CompareTo(Some(9_995000)).value >= 0;
    assert s.assets[k].ReserveAmount(Some(9_995000)) == Ok(reserved[k]);
    assert s.assets[k := reserved[k]] == reserved;
  }

  /** As written, a SELL size with more than two decimals that rounds up leaves the entry
      charged less than the order holds: 10 AAPL owned, selling 9.995 reserves 9.995 while
      the order keeps 10.00, so the ledger is no longer balanced. */
  lemma CreateUnscaledSellUnbalances(c: int)
    ensures var s := Store(map[AssetKey(c, "AAPL") := AssetRow(c, AssetSymbol("AAPL"), Quantity(10_000000), UsableSize(10_000000))], []);
            var r := Create(s, CreateOrderRequest(c, "AAPL", SELL, 9_995000, 1_000000));
            r.Ok? && !Balanced(r.value)
  {
    var k := AssetKey(c, "AAPL");
    var s := Store(map[k := AssetRow(c, AssetSymbol("AAPL"), Quantity(10_000000), UsableSize(10_000000))], []);
    var request := CreateOrderRequest(c, "AAPL", SELL, 9_995000, 1_000000);
    var order := OrderRow(c, AssetSymbol("AAPL"), SELL, Quantity(10_000000), Money(1_000000), PENDING);
    var reserved := Store(map[k := AssetRow(c, AssetSymbol("AAPL"), Quantity(10_000000), UsableSize(5000))], []);
    UnscaledSellOrder(c);
    UnscaledSellReservation(c);
    assert ValidateOrderRequest(request) == Pass;
    assert reserved.orders + [order] == [order];
    assert Create(s, request) == Ok(reserved.(orders := [order]));
    assert Held(order, k) == 10_000000;
    assert Reserved([order], k) == 10_000000 by { ReservedAppend([], order, k); }
  }

  /** ... and canceling that order then gives back the rounded 10.00: 10.005 usable out of
      10 owned. */
  lemma CancelUnscaledSellOverReleases(c: int)
    ensures var s := Store(map[AssetKey(c, "AAPL") := AssetRow(c, AssetSymbol("AAPL"), Quantity(10_000000), UsableSize(5000))],
                           [OrderRow(c, AssetSymbol("AAPL"), SELL, Quantity(10_000000), Money(1_000000), PENDING)]);
            var r := Cancel(s, 0, c);
            && r.Ok?
            && r.value.assets[AssetKey(c, "AAPL")] == AssetRow(c, AssetSymbol("AAPL"), Quantity(10_000000), UsableSize(10_005000))
            && !r.value.assets[AssetKey(c, "AAPL")].Consistent()
  {
    OfKeepsExactlyValid("AAPL");
    assert IsValidSymbol("AAPL");
  }

  /** The example of the tests: canceling a BUY of 10 at 100.00 gives 1000 back to a TRY
      entry with 10000 usable. */
  lemma BuyCancelExample(s: Store, c: int)
    requires WellFormed(s) && |s.orders| == 1
    requires s.orders[0] == OrderRow(c, AssetSymbol("AAPL"), BUY, Quantity(10_000000), Money(100_000000), PENDING)
    requires AssetKey(c, "TRY") in s.assets && s.assets[AssetKey(c, "TRY")].usableSize == UsableSize(10000_000000)
    ensures Cancel(s, 0, c).Ok?
    ensures Cancel(s, 0, c).value.assets[AssetKey(c, "TRY")].usableSize == UsableSize(11000_000000)
    ensures Cancel(s, 0, c).value.orders[0].status == CANCELED
  {
    Round2ProductExact(100_000000, 10_000000, 1000_000000);
  }
}
