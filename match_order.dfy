/** `MatchOrderService`: an administrator matches a pending order. A BUY order credits
    the bought asset; a SELL order debits the sold asset's total and credits the
    proceeds to TRY. The order becomes MATCHED. */
module OrderMatching {
  import opened Wrappers
  import opened Decimal
  import opened QuantityValue
  import opened MoneyValue
  import opened UsableSizeValue
  import opened AssetSymbolValue
  import opened AssetEntity
  import opened OrderEntity
  import opened Ledger
  import opened AssetManagement
  import opened OrderCreation
  import opened OrderCancellation

  /** The row stored under (customer, name), or the zero row get-or-create would insert. */
  function EntryOrZero(s: Store, customerId: int, name: string): AssetRow {
    var k := AssetKey(customerId, name);
    if k in s.assets then s.assets[k] else AssetRow(customerId, AssetSymbol(name), Quantity(0), UsableSize(0))
  }

  /** What a SELL order brings in: its total amount, as a quantity of TRY. */
  function Proceeds(o: OrderRow): (q: Quantity)
    requires o.Valid()
    ensures q.Valid() && q.value == o.GetTotalAmount().amount
  {
    Round2OfScale2(o.GetTotalAmount().amount);
    Quantity.Of(Some(o.GetTotalAmount().amount)).value
  }

  /** The asset table after a BUY settlement: the bought entry `t` (the zero row when
      missing) gains the order's size in total and in usable part; every other entry,
      TRY included, is as it was. */
  function BoughtAssets(s: Store, o: OrderRow): map<AssetKey, AssetRow> {
    var t := AssetKey(o.customerId, o.assetSymbol.symbol);
    var row := EntryOrZero(s, o.customerId, o.assetSymbol.symbol);
    s.assets[t := row.(size := Quantity(row.size.value + o.size.value),
                       usableSize := UsableSize(row.usableSize.value + o.size.value))]
  }

  /** `handleBuyOrderMatching`: the bought asset's entry, created if missing, gains the
      order's size in total and in usable part. The TRY reserved at creation stays where
      it is: neither the TRY total nor its usable part changes. */
  function SettleBuy(s: Store, o: OrderRow): (r: Store)
    requires WellFormed(s) && o.Valid()
    ensures r.orders == s.orders && r.assets == BoughtAssets(s, o)
  {
    var symbol := o.assetSymbol.symbol;
    GetOrCreateValidSymbol(s, o.customerId, symbol);
    var (s1, target) := GetOrCreate(s, o.customerId, symbol).value;
    var added := target.AddSize(Some(o.size)).value;
    s1.(assets := s1.assets[KeyOf(added) := added])
  }

  /** The asset table after a SELL settlement that brings in `proceeds`: the sold entry
      `a` loses the order's size from its total, and the TRY entry `t` (the zero row
      when missing, and the entry just debited when the sold symbol is TRY itself) gains
      the proceeds in total and in usable part. */
  function SoldAssets(s: Store, o: OrderRow, proceeds: Amount): map<AssetKey, AssetRow>
    requires AssetKey(o.customerId, o.assetSymbol.symbol) in s.assets
  {
    var a := AssetKey(o.customerId, o.assetSymbol.symbol);
    var t := AssetKey(o.customerId, "TRY");
    var sold := s.assets[a].(size := Quantity(s.assets[a].size.value - o.size.value));
    var row := if a == t then sold else EntryOrZero(s, o.customerId, "TRY");
    s.assets[a := sold][t := row.(size := Quantity(row.size.value + proceeds),
                                  usableSize := UsableSize(row.usableSize.value + proceeds))]
  }

  /** `handleSellOrderMatching`: the entry of the sold symbol must exist and own at least
      the order's size; its total loses the size (its usable part was reserved at
      creation). The TRY entry, created if missing, gains the proceeds in total and in
      usable part. When the sold symbol is TRY itself both steps fall on the one entry. */
  function SettleSell(s: Store, o: OrderRow): (r: Result<Store>)
    requires WellFormed(s) && o.Valid()
    ensures AssetKey(o.customerId, o.assetSymbol.symbol) !in s.assets ==> r == Err(IllegalArgument("Asset not found"))
    ensures var a := AssetKey(o.customerId, o.assetSymbol.symbol);
            a in s.assets && s.assets[a].size.value < o.size.value ==> r == Err(IllegalState("Insufficient total size"))
    ensures r.Ok? <==> var a := AssetKey(o.customerId, o.assetSymbol.symbol);
                       a in s.assets && o.size.value <= s.assets[a].size.value
    ensures r.Ok? ==> r.value.orders == s.orders && r.value.assets == SoldAssets(s, o, Proceeds(o).value)
  {
    var asset :- FindForUpdate(s, o.customerId, o.assetSymbol.symbol);
    GetOrCreateValidSymbol(s, o.customerId, "TRY");
    var (s1, tryRow) := GetOrCreate(s, o.customerId, "TRY").value;
    var sold :- asset.SubtractSize(Some(o.size));
    // The persistence context hands out one entity per row: when the sold symbol is
    // TRY, the TRY entity is the one just debited.
    var credited := (if o.assetSymbol.symbol == "TRY" then sold else tryRow).AddSize(Some(Proceeds(o))).value;
    Ok(s1.(assets := s1.assets[KeyOf(sold) := sold][KeyOf(credited) := credited]))
  }

  /** `matchOrder`: the order must exist and be PENDING; no owner check is made. */
  function Match(s: Store, orderId: int): (r: Result<Store>)
    requires WellFormed(s)
    ensures !(0 <= orderId < |s.orders|) ==> r == Err(IllegalArgument("Order not found"))
    ensures 0 <= orderId < |s.orders| && s.orders[orderId].status != PENDING ==>
              r == Err(IllegalState("Only pending orders can be matched"))
    ensures 0 <= orderId < |s.orders| && s.orders[orderId].status == PENDING && s.orders[orderId].orderSide == BUY ==>
              r == Ok(SettleBuy(s, s.orders[orderId]).(orders := s.orders[orderId := s.orders[orderId].(status := MATCHED)]))
    ensures 0 <= orderId < |s.orders| && s.orders[orderId].status == PENDING && s.orders[orderId].orderSide == SELL ==>
              && (SettleSell(s, s.orders[orderId]).Err? ==> r == Err(SettleSell(s, s.orders[orderId]).error))
              && (SettleSell(s, s.orders[orderId]).Ok? ==>
                    r == Ok(SettleSell(s, s.orders[orderId]).value.(orders := s.orders[orderId := s.orders[orderId].(status := MATCHED)])))
  {
    var order :- FindOrder(s, orderId);
    if order.status != PENDING then Err(IllegalState("Only pending orders can be matched"))
    else
      var settled :- if order.orderSide == BUY then Ok(SettleBuy(s, order)) else SettleSell(s, order);
      Ok(settled.(orders := settled.orders[orderId := order.Match().value]))
  }

  class MatchOrderService {
    const repos: Repositories
    const assetManagement: AssetManagementService

    /** Both services share one pair of repositories. */
    predicate Wired() {
      assetManagement.repos == repos
    }

    constructor (repos: Repositories, assetManagement: AssetManagementService)
      requires assetManagement.repos == repos
      ensures this.repos == repos && this.assetManagement == assetManagement && Wired()
    {
      this.repos := repos;
      this.assetManagement := assetManagement;
    }

    /** A failure while settling (the sold entry missing or too small) rolls back the
        whole transaction, a TRY entry it created included. */
    method MatchOrder(orderId: int) returns (r: Outcome)
      requires Wired() && WellFormed(repos.State())
      modifies repos
      ensures Match(old(repos.State()), orderId).Ok? ==>
                r.Pass? && repos.State() == Match(old(repos.State()), orderId).value
      ensures Match(old(repos.State()), orderId).Err? ==>
                r == Fail(Match(old(repos.State()), orderId).error) && repos.State() == old(repos.State())
    {
      var snapshot := repos.State();
      if orderId < 0 || orderId >= |repos.orders| {
        return Fail(IllegalArgument("Order not found"));
      }
      var order := new Order.Load(repos.orders[orderId]);
      if order.status != PENDING {
        return Fail(IllegalState("Only pending orders can be matched"));
      }
      if order.orderSide == BUY {
        HandleBuyOrderMatching(order);
      } else {
        var handled := HandleSellOrderMatching(order);
        if handled.Fail? {
          repos.Restore(snapshot);
          return Fail(handled.error);
        }
      }
      var _ := order.Match();
      repos.UpdateOrder(orderId, order);
      return Pass;
    }

    method HandleBuyOrderMatching(order: Order)
      requires Wired() && WellFormed(repos.State()) && order.Row().Valid()
      modifies repos
      ensures repos.State() == SettleBuy(old(repos.State()), order.Row())
    {
      GetOrCreateValidSymbol(repos.State(), order.customerId, order.assetSymbol.symbol);
      var found := assetManagement.GetOrCreateAsset(order.customerId, order.assetSymbol.symbol);
      var targetAsset := found.value;
      var _ := targetAsset.AddSize(Some(order.size));
      repos.SaveAsset(targetAsset);
    }

    /** On failure the repositories may hold a TRY entry created on the way; the caller
        rolls it back. */
    method HandleSellOrderMatching(order: Order) returns (o: Outcome)
      requires Wired() && WellFormed(repos.State()) && order.Row().Valid()
      modifies repos
      ensures SettleSell(old(repos.State()), order.Row()).Ok? ==>
                o.Pass? && repos.State() == SettleSell(old(repos.State()), order.Row()).value
      ensures SettleSell(old(repos.State()), order.Row()).Err? ==>
                o == Fail(SettleSell(old(repos.State()), order.Row()).error)
    {
      ghost var s0, row := repos.State(), order.Row();
      var found := assetManagement.GetAssetForUpdate(order.customerId, order.assetSymbol.symbol);
      if found.Err? {
        return Fail(found.error);
      }
      var asset := found.value;
      GetOrCreateValidSymbol(s0, row.customerId, "TRY");
      ghost var (s1, tryRow) := GetOrCreate(s0, row.customerId, "TRY").value;
      var tryAsset: Asset;
      if order.assetSymbol.symbol == "TRY" {
        // get-or-create finds the row already loaded and returns its entity
        tryAsset := asset;
        assert s1 == s0;
      } else {
        var created := assetManagement.GetOrCreateAsset(order.customerId, "TRY");
        tryAsset := created.value;
      }
      assert repos.State() == s1 && tryAsset.Row() == (if row.assetSymbol.symbol == "TRY" then asset.Row() else tryRow);
      var subtracted := asset.SubtractSize(Some(order.size));
      if subtracted.Fail? {
        return Fail(subtracted.error);
      }
      ghost var sold := asset.Row();
      var _ := tryAsset.AddSize(Some(Proceeds(order.Row())));
      ghost var credited := tryAsset.Row();
      assert credited == (if row.assetSymbol.symbol == "TRY" then sold else tryRow).AddSize(Some(Proceeds(row))).value;
      assert KeyOf(sold) == KeyOf(asset.Row());
      assert asset.Row() == (if row.assetSymbol.symbol == "TRY" then credited else sold);
      repos.SaveAsset(asset);
      assert repos.assets == s1.assets[KeyOf(sold) := asset.Row()];
      repos.SaveAsset(tryAsset);
      assert repos.assets == s1.assets[KeyOf(sold) := sold][KeyOf(credited) := credited];
      return Pass;
    }
  }

  /** Settling a pending BUY order and marking it MATCHED keeps the store well formed
      and balanced: the order's TRY holding is dropped and the bought entry gains as
      much usable as total. */
  lemma BuyMatchPreservesInvariant(s: Store, i: int)
    requires Invariant(s) && 0 <= i < |s.orders| && s.orders[i].status == PENDING && s.orders[i].orderSide == BUY
    ensures Invariant(SettleBuy(s, s.orders[i]).(orders := s.orders[i := s.orders[i].(status := MATCHED)]))
  {
    var o := s.orders[i];
    var t := AssetKey(o.customerId, o.assetSymbol.symbol);
    var assets := BoughtAssets(s, o);
    assert AssetSymbol(o.assetSymbol.symbol) == o.assetSymbol;
    assert KeyOf(assets[t]) == t && assets[t].Valid();
    assert forall k :: k in assets ==> KeyOf(assets[k]) == k && assets[k].Valid();
    assert forall k :: k in assets && k in s.assets ==>
               assets[k].usableSize.value - s.assets[k].usableSize.value
               <= assets[k].size.value - s.assets[k].size.value + Held(o, k);
    assert forall k :: k in assets && k !in s.assets ==> assets[k].usableSize.value <= assets[k].size.value;
    SettledOrderPreservesInvariant(s, i, assets);
  }

  /** Settling a pending SELL order and marking it MATCHED keeps the store well formed
      and balanced: the sold entry's total falls by exactly what the order held on it. */
  lemma SellMatchPreservesInvariant(s: Store, i: int)
    requires Invariant(s) && 0 <= i < |s.orders| && s.orders[i].status == PENDING && s.orders[i].orderSide == SELL
    requires SettleSell(s, s.orders[i]).Ok?
    ensures Invariant(SettleSell(s, s.orders[i]).value.(orders := s.orders[i := s.orders[i].(status := MATCHED)]))
  {
    var o := s.orders[i];
    var proceeds := Proceeds(o).value;
    var assets := SoldAssets(s, o, proceeds);
    SellSettlementKeys(s, o, proceeds);
    SellSettlementSlack(s, o, proceeds);
    SettledOrderPreservesInvariant(s, i, assets);
  }

  /** A SELL settlement drops no entry and stores every row under its key. */
  lemma SellSettlementKeys(s: Store, o: OrderRow, proceeds: Amount)
    requires WellFormed(s) && o.Valid()
    requires Quantity(proceeds).Valid()
    requires var a := AssetKey(o.customerId, o.assetSymbol.symbol);
             a in s.assets && o.size.value <= s.assets[a].size.value
    ensures forall k :: k in s.assets ==> k in SoldAssets(s, o, proceeds)
    ensures forall k :: k in SoldAssets(s, o, proceeds) ==>
              KeyOf(SoldAssets(s, o, proceeds)[k]) == k && SoldAssets(s, o, proceeds)[k].Valid()
  {
    var a := AssetKey(o.customerId, o.assetSymbol.symbol);
    var t := AssetKey(o.customerId, "TRY");
    var assets := SoldAssets(s, o, proceeds);
    assert AssetSymbol("TRY").Valid();
    forall k | k in assets
      ensures KeyOf(assets[k]) == k && assets[k].Valid()
    {
      if k == t {
        assert KeyOf(EntryOrZero(s, o.customerId, "TRY")) == t;
        Scale2Closed(s.assets[a].size.value, o.size.value);
        Scale2Closed(EntryOrZero(s, o.customerId, "TRY").size.value, proceeds);
        Scale2Closed(s.assets[a].size.value - o.size.value, proceeds);
      } else if k == a {
        Scale2Closed(s.assets[a].size.value, o.size.value);
        assert assets[k] == s.assets[a].(size := Quantity(s.assets[a].size.value - o.size.value));
      } else {
        assert assets[k] == s.assets[k];
      }
    }
  }

  /** On every entry a SELL settlement adds no more usable than total, beyond what the
      order held there. */
  lemma SellSettlementSlack(s: Store, o: OrderRow, proceeds: Amount)
    requires WellFormed(s) && o.Valid() && o.status == PENDING && o.orderSide == SELL
    requires Quantity(proceeds).Valid()
    requires var a := AssetKey(o.customerId, o.assetSymbol.symbol);
             a in s.assets && o.size.value <= s.assets[a].size.value
    ensures forall k :: k in SoldAssets(s, o, proceeds) && k in s.assets ==>
              SoldAssets(s, o, proceeds)[k].usableSize.value - s.assets[k].usableSize.value
              <= SoldAssets(s, o, proceeds)[k].size.value - s.assets[k].size.value + Held(o, k)
    ensures forall k :: k in SoldAssets(s, o, proceeds) && k !in s.assets ==>
              SoldAssets(s, o, proceeds)[k].usableSize.value <= SoldAssets(s, o, proceeds)[k].size.value
  {
    assert Held(o, AssetKey(o.customerId, o.assetSymbol.symbol)) == o.size.value;
  }

  /** Matching keeps the store well formed and balanced. */
  lemma MatchPreservesInvariant(s: Store, orderId: int)
    requires Invariant(s) && Match(s, orderId).Ok?
    ensures Invariant(Match(s, orderId).value)
  {
    if s.orders[orderId].orderSide == BUY {
      BuyMatchPreservesInvariant(s, orderId);
    } else {
      SellMatchPreservesInvariant(s, orderId);
    }
  }

  /** In a balanced store every pending order can be matched: a SELL order's entry exists
      and owns at least what the order holds on it. */
  lemma MatchSucceedsOnPending(s: Store, orderId: int)
    requires Invariant(s) && 0 <= orderId < |s.orders| && s.orders[orderId].status == PENDING
    ensures Match(s, orderId).Ok?
  {
    var o := s.orders[orderId];
    if o.orderSide == SELL {
      HeldWithinReserved(s.orders, orderId, ReservationKey(o));
    }
  }

  /** As written, matching a BUY order never touches the TRY entry: the total amount
      reserved at creation leaves the usable part for good, and the TRY total is never
      debited. Created and then matched, a BUY order of a symbol other than TRY leaves the
      TRY total as it was and the TRY usable part lower by the order's total amount. */
  lemma BuyMatchNeverDebitsTry(s: Store, request: CreateOrderRequest)
    requires Invariant(s) && Create(s, request).Ok? && request.orderSide == BUY
    requires Normalize(request.assetName) != "TRY"
    ensures WellFormed(Create(s, request).value)
    ensures var t := AssetKey(request.customerId, "TRY");
            var m := Match(Create(s, request).value, |s.orders|);
            && t in s.assets
            && m.Ok? && t in m.value.assets
            && m.value.assets[t].size == s.assets[t].size
            && m.value.assets[t].usableSize.value == s.assets[t].usableSize.value - TotalAmountOf(request).amount
  {
    var s2 := Create(s, request).value;
    CreatePreservesInvariant(s, request);
    CreateReservesWhatOrderHolds(s, request);
    var order := ToEntity(request).value;
    assert s2.orders[|s.orders|] == order;
    assert order.GetTotalAmount() == TotalAmountOf(request);
    MatchSucceedsOnPending(s2, |s.orders|);
  }

  /** The example of the tests: matching a BUY of 10 credits an entry of 20 to 30. */
  lemma BuyMatchExample(s: Store, c: int)
    requires WellFormed(s) && |s.orders| == 1
    requires s.orders[0] == OrderRow(c, AssetSymbol("AAPL"), BUY, Quantity(10_000000), Money(100_000000), PENDING)
    requires AssetKey(c, "AAPL") in s.assets
    requires s.assets[AssetKey(c, "AAPL")].size == Quantity(20_000000)
    requires s.assets[AssetKey(c, "AAPL")].usableSize == UsableSize(20_000000)
    ensures Match(s, 0).Ok?
    ensures Match(s, 0).value.assets[AssetKey(c, "AAPL")].size == Quantity(30_000000)
    ensures Match(s, 0).value.orders[0].status == MATCHED
  {
  }

  /** The example of the tests: matching a SELL of 5 at 110.00 takes an entry of 20 to 15
      and a TRY entry of 10000 to 10550. */
  lemma SellMatchExample(s: Store, c: int)
    requires WellFormed(s) && |s.orders| == 1
    requires s.orders[0] == OrderRow(c, AssetSymbol("AAPL"), SELL, Quantity(5_000000), Money(110_000000), PENDING)
    requires AssetKey(c, "AAPL") in s.assets && s.assets[AssetKey(c, "AAPL")].size == Quantity(20_000000)
    requires AssetKey(c, "TRY") in s.assets && s.assets[AssetKey(c, "TRY")].size == Quantity(10000_000000)
    ensures Match(s, 0).Ok?
    ensures Match(s, 0).value.assets[AssetKey(c, "AAPL")].size == Quantity(15_000000)
    ensures Match(s, 0).value.assets[AssetKey(c, "TRY")].size == Quantity(10550_000000)
  {
    Round2ProductExact(110_000000, 5_000000, 550_000000);
  }
}
