/** The two stores the services work on, and the ledger invariant they keep.

    The asset table holds one row per (customer, asset name), the unique constraint of
    the `assets` table; the order table holds orders by id, an id being the position of
    the order in the table.

    A pending order holds a reservation: a BUY order on the customer's TRY entry, for
    its total amount; a SELL order on the customer's entry of the sold symbol, for its
    size. The ledger is balanced when, on every entry, the usable part plus what pending
    orders hold on it does not exceed the total. */
module Ledger {
  import opened Wrappers
  import opened Decimal
  import opened QuantityValue
  import opened MoneyValue
  import opened UsableSizeValue
  import opened AssetSymbolValue
  import opened AssetEntity
  import opened OrderEntity

  /** The unique key of the asset table. */
  datatype AssetKey = AssetKey(customerId: int, assetName: string)

  /** The contents of both tables. */
  datatype Store = Store(assets: map<AssetKey, AssetRow>, orders: seq<OrderRow>)

  /** The key a row is stored under. */
  function KeyOf(a: AssetRow): AssetKey {
    AssetKey(a.customerId, a.assetSymbol.symbol)
  }

  /** Every row sits under its own key and holds valid values; every order is valid. */
  predicate WellFormed(s: Store) {
    && (forall k :: k in s.assets ==> KeyOf(s.assets[k]) == k && s.assets[k].Valid())
    && (forall i :: 0 <= i < |s.orders| ==> s.orders[i].Valid())
  }

  /** The entry a pending order holds its reservation on. */
  function ReservationKey(o: OrderRow): AssetKey {
    AssetKey(o.customerId, if o.orderSide == BUY then "TRY" else o.assetSymbol.symbol)
  }

  /** How much a pending order holds: its total amount for BUY, its size for SELL. */
  function Reservation(o: OrderRow): (x: Amount)
    requires o.Valid()
    ensures x >= 0
  {
    if o.orderSide == BUY then o.GetTotalAmount().amount else o.size.value
  }

  /** What order `o` holds on entry `k`. */
  function Held(o: OrderRow, k: AssetKey): (x: Amount)
    ensures x >= 0
  {
    if o.Valid() && o.status == PENDING && ReservationKey(o) == k then Reservation(o) else 0
  }

  /** What the orders of `os` hold on entry `k` together. */
  function Reserved(os: seq<OrderRow>, k: AssetKey): (x: Amount)
    ensures x >= 0
  {
    if os == [] then 0 else Reserved(os[..|os| - 1], k) + Held(os[|os| - 1], k)
  }

  /** Every pending order's entry exists, and no entry has more usable plus held than
      its total. */
  predicate Balanced(s: Store) {
    && (forall i :: 0 <= i < |s.orders| && s.orders[i].status == PENDING ==> ReservationKey(s.orders[i]) in s.assets)
    && (forall k :: k in s.assets ==> s.assets[k].usableSize.value + Reserved(s.orders, k) <= s.assets[k].size.value)
  }

  predicate Invariant(s: Store) {
    WellFormed(s) && Balanced(s)
  }

  /** A new order adds what it holds. */
  lemma ReservedAppend(os: seq<OrderRow>, o: OrderRow, k: AssetKey)
    ensures Reserved(os + [o], k) == Reserved(os, k) + Held(o, k)
  {
    assert (os + [o])[..|os|] == os;
  }

  /** Replacing one order changes the total by the difference of what the two hold. */
  lemma {:induction false} ReservedUpdate(os: seq<OrderRow>, i: int, o: OrderRow, k: AssetKey)
    requires 0 <= i < |os|
    ensures Reserved(os[i := o], k) == Reserved(os, k) - Held(os[i], k) + Held(o, k)
  {
    var n := |os| - 1;
    if i == n {
      assert os[i := o][..n] == os[..n];
    } else {
      ReservedUpdate(os[..n], i, o, k);
      assert os[i := o][..n] == os[..n][i := o];
    }
  }

  /** The total is at least what any one order holds. */
  lemma {:induction false} HeldWithinReserved(os: seq<OrderRow>, i: int, k: AssetKey)
    requires 0 <= i < |os|
    ensures Held(os[i], k) <= Reserved(os, k)
  {
    var n := |os| - 1;
    if i < n {
      HeldWithinReserved(os[..n], i, k);
      assert os[..n][i] == os[i];
    }
  }

  /** Nothing is reserved on an entry no pending order refers to. */
  lemma {:induction false} ReservedNone(os: seq<OrderRow>, k: AssetKey)
    requires forall i :: 0 <= i < |os| && os[i].status == PENDING ==> ReservationKey(os[i]) != k
    ensures Reserved(os, k) == 0
  {
    if os != [] {
      var n := |os| - 1;
      assert forall i :: 0 <= i < n ==> os[..n][i] == os[i];
      ReservedNone(os[..n], k);
    }
  }

  /** In a balanced store nothing is reserved on a missing entry. */
  lemma ReservedOnMissing(s: Store, k: AssetKey)
    requires Balanced(s) && k !in s.assets
    ensures Reserved(s.orders, k) == 0
  {
    ReservedNone(s.orders, k);
  }

  /** The store once pending `order` is appended and its holding taken out of the usable
      part of its entry. */
  function WithReservation(s: Store, order: OrderRow): Store
    requires order.Valid() && ReservationKey(order) in s.assets
  {
    var k := ReservationKey(order);
    Store(s.assets[k := s.assets[k].(usableSize := UsableSize(s.assets[k].usableSize.value - Reservation(order)))],
          s.orders + [order])
  }

  /** A new pending order whose holding is taken out of the usable part of its entry
      keeps the store well formed and balanced. */
  lemma NewReservationPreservesInvariant(s: Store, order: OrderRow)
    requires Invariant(s) && order.Valid() && order.status == PENDING
    requires ReservationKey(order) in s.assets
    requires Reservation(order) <= s.assets[ReservationKey(order)].usableSize.value
    ensures Invariant(WithReservation(s, order))
  {
    var s2 := WithReservation(s, order);
    forall j | j in s2.assets
      ensures s2.assets[j].usableSize.value + Reserved(s2.orders, j) <= s2.assets[j].size.value
    {
      ReservedAppend(s.orders, order, j);
    }
    assert forall i :: 0 <= i < |s.orders| ==> s2.orders[i] == s.orders[i];
  }

  /** Giving a pending order's holding back to the usable part of its entry and marking
      the order CANCELED keeps the store well formed and balanced. */
  lemma ReleasedReservationPreservesInvariant(s: Store, i: int)
    requires Invariant(s) && 0 <= i < |s.orders| && s.orders[i].status == PENDING
    ensures ReservationKey(s.orders[i]) in s.assets
    ensures var o := s.orders[i];
            var k := ReservationKey(o);
            Invariant(Store(s.assets[k := s.assets[k].(usableSize :=
                              UsableSize(s.assets[k].usableSize.value + Reservation(o)))],
                            s.orders[i := o.(status := CANCELED)]))
  {
    var o := s.orders[i];
    var k := ReservationKey(o);
    var s2 := Store(s.assets[k := s.assets[k].(usableSize := UsableSize(s.assets[k].usableSize.value + Reservation(o)))],
                    s.orders[i := o.(status := CANCELED)]);
    forall j | j in s2.assets
      ensures s2.assets[j].usableSize.value + Reserved(s2.orders, j) <= s2.assets[j].size.value
    {
      ReservedUpdate(s.orders, i, o.(status := CANCELED), j);
    }
  }

  /** Marking a pending order MATCHED while rewriting the asset table keeps the store
      well formed and balanced when no entry disappears, every entry sits under its key,
      and on every entry the usable part grows by no more than the total does, plus what
      the order held there (a new entry counting from zero). */
  lemma SettledOrderPreservesInvariant(s: Store, i: int, assets: map<AssetKey, AssetRow>)
    requires Invariant(s) && 0 <= i < |s.orders| && s.orders[i].status == PENDING
    requires forall k :: k in s.assets ==> k in assets
    requires forall k :: k in assets ==> KeyOf(assets[k]) == k && assets[k].Valid()
    requires forall k :: k in assets && k in s.assets ==>
               assets[k].usableSize.value - s.assets[k].usableSize.value
               <= assets[k].size.value - s.assets[k].size.value + Held(s.orders[i], k)
    requires forall k :: k in assets && k !in s.assets ==> assets[k].usableSize.value <= assets[k].size.value
    ensures Invariant(Store(assets, s.orders[i := s.orders[i].(status := MATCHED)]))
  {
    var o := s.orders[i];
    var s2 := Store(assets, s.orders[i := o.(status := MATCHED)]);
    forall j | j in s2.assets
      ensures s2.assets[j].usableSize.value + Reserved(s2.orders, j) <= s2.assets[j].size.value
    {
      ReservedUpdate(s.orders, i, o.(status := MATCHED), j);
      if j !in s.assets {
        ReservedOnMissing(s, j);
      }
    }
  }

  /** The unique constraint: no two keys hold rows of the same customer and symbol. */
  lemma AtMostOneEntry(s: Store, k1: AssetKey, k2: AssetKey)
    requires WellFormed(s) && k1 in s.assets && k2 in s.assets
    requires s.assets[k1].customerId == s.assets[k2].customerId
    requires s.assets[k1].assetSymbol == s.assets[k2].assetSymbol
    ensures k1 == k2
  {
  }

  /** The asset and order repositories of one transaction. */
  class Repositories {
    var assets: map<AssetKey, AssetRow>
    var orders: seq<OrderRow>

    function State(): Store
      reads this
    {
      Store(assets, orders)
    }

    constructor ()
      ensures State() == Store(map[], [])
    {
      assets := map[];
      orders := [];
    }

    /** `save` of an asset entity: its row is written under its key. */
    method SaveAsset(a: Asset)
      modifies this
      ensures State() == old(State()).(assets := old(assets)[KeyOf(a.Row()) := a.Row()])
    {
      assets := assets[KeyOf(a.Row()) := a.Row()];
    }

    /** `save` of a new order: it gets the next id. */
    method InsertOrder(o: OrderRow) returns (id: nat)
      modifies this
      ensures id == |old(orders)|
      ensures State() == old(State()).(orders := old(orders) + [o])
    {
      id := |orders|;
      orders := orders + [o];
    }

    /** `save` of an existing order. */
    method UpdateOrder(id: nat, o: Order)
      requires id < |orders|
      modifies this
      ensures State() == old(State()).(orders := old(orders)[id := o.Row()])
    {
      orders := orders[id := o.Row()];
    }

    /** The rollback of a failed transaction. */
    method Restore(s: Store)
      modifies this
      ensures State() == s
    {
      assets := s.assets;
      orders := s.orders;
    }
  }
}
