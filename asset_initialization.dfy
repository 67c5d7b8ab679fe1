/** `AssetInitializationService`: seeds a customer's TRY entry. */
module AssetInitialization {
  import opened Wrappers
  import opened Decimal
  import opened QuantityValue
  import opened UsableSizeValue
  import opened AssetSymbolValue
  import opened AssetEntity
  import opened Ledger
  import opened AssetManagement

  /** `initializeCustomerWithTRY`: a TRY entry whose total is the amount rounded to two
      places and whose usable part is the amount exactly. A null or negative amount is
      rejected by `Quantity`; a second TRY entry for the customer by the unique
      constraint. */
  function Initialize(s: Store, customerId: int, initialAmount: Option<Amount>): (r: Result<Store>)
    ensures initialAmount.None? ==> r == Err(IllegalArgument("Quantity value cannot be null"))
    ensures initialAmount.Some? && initialAmount.value < 0 ==> r == Err(IllegalArgument("Quantity cannot be negative"))
    ensures initialAmount.Some? && initialAmount.value >= 0 && AssetKey(customerId, "TRY") in s.assets ==>
              r == Err(DuplicateEntry)
    ensures r.Ok? <==> initialAmount.Some? && initialAmount.value >= 0 && AssetKey(customerId, "TRY") !in s.assets
    ensures r.Ok? ==> r.value == s.(assets := s.assets[AssetKey(customerId, "TRY") :=
              AssetRow(customerId, AssetSymbol("TRY"), Quantity(Round2(initialAmount.value)), UsableSize(initialAmount.value))])
  {
    var size :- Quantity.Of(initialAmount);
    var row := AssetRow(customerId, AssetSymbol.TrySymbol(), size, UsableSize.Of(initialAmount).value);
    if KeyOf(row) in s.assets then Err(DuplicateEntry)
    else Ok(s.(assets := s.assets[KeyOf(row) := row]))
  }

  class AssetInitializationService {
    const repos: Repositories

    constructor (repos: Repositories)
      ensures this.repos == repos
    {
      this.repos := repos;
    }

    method InitializeCustomerWithTry(customerId: int, initialAmount: Option<Amount>) returns (o: Outcome)
      modifies repos
      ensures Initialize(old(repos.State()), customerId, initialAmount).Ok? ==>
                o.Pass? && repos.State() == Initialize(old(repos.State()), customerId, initialAmount).value
      ensures Initialize(old(repos.State()), customerId, initialAmount).Err? ==>
                && o == Fail(Initialize(old(repos.State()), customerId, initialAmount).error)
                && repos.State() == old(repos.State())
    {
      var size := Quantity.Of(initialAmount);
      if size.Err? {
        return Fail(size.error);
      }
      var usable := UsableSize.Of(initialAmount);
      var tryAsset := new Asset(customerId, AssetSymbol.TrySymbol(), size.value, usable.value);
      if KeyOf(tryAsset.Row()) in repos.assets {
        return Fail(DuplicateEntry);
      }
      repos.SaveAsset(tryAsset);
      return Pass;
    }
  }

  /** A zero amount makes a zero-balance entry. */
  lemma ZeroInitialAmount(s: Store, customerId: int)
    requires AssetKey(customerId, "TRY") !in s.assets
    ensures Initialize(s, customerId, Some(0)).Ok?
    ensures Initialize(s, customerId, Some(0)).value.assets[AssetKey(customerId, "TRY")]
            == AssetRow(customerId, AssetSymbol("TRY"), Quantity(0), UsableSize(0))
  {
    Round2OfScale2(0);
  }

  /** Seeding keeps the store well formed and balanced when the amount has at most two
      decimals. */
  lemma InitializePreservesInvariant(s: Store, customerId: int, initialAmount: Amount)
    requires Invariant(s) && IsScale2(initialAmount)
    requires Initialize(s, customerId, Some(initialAmount)).Ok?
    ensures Invariant(Initialize(s, customerId, Some(initialAmount)).value)
  {
    Round2OfScale2(initialAmount);
    ReservedOnMissing(s, AssetKey(customerId, "TRY"));
    assert AssetSymbol("TRY").Valid();
  }

  /** As written, an amount with more than two decimals that rounds down leaves more usable
      than owned: 1.004 TRY gives a total of 1.00 and a usable part of 1.004. */
  lemma InitializeUnscaledUnbalances(customerId: int)
    ensures Initialize(Store(map[], []), customerId, Some(1_004000)).Ok?
    ensures !Balanced(Initialize(Store(map[], []), customerId, Some(1_004000)).value)
  {
    Round2Unique(1_004000, 1_000000);
    var s := Initialize(Store(map[], []), customerId, Some(1_004000)).value;
    var k := AssetKey(customerId, "TRY");
    assert k in s.assets && Reserved(s.orders, k) == 0;
  }
}
