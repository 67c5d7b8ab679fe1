# Brokerage ledger and order lifecycle

This project models the core of a small brokerage back end in Dafny:
- value objects for amounts (`Quantity`, `Money`, `UsableSize`) and for asset symbols (`AssetSymbol`);
- the `Asset` ledger entry and the `Order` entity;
- the five transactional services that create, cancel and match orders and that create and seed ledger entries.

Each customer owns one ledger entry per asset, keyed by (customer, asset name). An entry has:
- a total `size`;
- a `usableSize`, the part not held by pending orders.

A BUY order holds its total amount on the customer's TRY entry. A SELL order holds its size on the entry of the sold asset. Canceling an order gives that amount back. Matching an order settles it:
- BUY credits the bought asset;
- SELL debits the sold asset's total and credits the proceeds to TRY.

**Amounts.** Amounts are `BigDecimal` in the source. Here they are exact integers in millionths (`Decimal.Amount`). Every value object keeps scale 2 with HALF_UP rounding, which is `Decimal.Round2`.

**Functions and classes.** Each operation has two forms:
- a function on values (`AssetRow`, `OrderRow`, `Store`), which is the specification;
- a class that updates state in place: the `Asset` and `Order` entities over their fields, and the services over a shared `Ledger.Repositories` holding both tables.

Each service method is proved to leave the repositories exactly as its function says. On an error it returns the function's error and leaves the state unchanged, which is the transaction rollback.

**The ledger invariant.** `Ledger.Invariant` says:
- every row is valid and stored under its own key;
- every pending order's entry exists;
- on every entry, the usable part plus what pending orders hold on it does not exceed the total.

Creation, cancellation, matching, get-or-create and seeding are proved to preserve it. Creation and seeding need one premise for this: SELL sizes and initial amounts with at most two decimals. The lemmas under "As written" below show why.

**As written.** Matching a BUY order never debits the buyer's TRY total: `MatchOrderService.handleBuyOrderMatching` (MatchOrderService.java:40-45) only credits the bought asset. The TRY reserved at creation leaves the usable part for good, and the TRY total never falls. `OrderMatching.BuyMatchNeverDebitsTry` states this.

Other as-written behaviours are exhibited as lemmas:
- `OrderCancellation.CreateUnscaledSellUnbalances` and `OrderCancellation.CancelUnscaledSellOverReleases`: a SELL order reserves the raw request size but releases the rounded one.
- `AssetInitialization.InitializeUnscaledUnbalances`: a TRY seed rounds the total but not the usable part.
- `AssetManagement.GetOrCreateRawNameCollides`: get-or-create looks up the raw name but inserts under the normalised symbol.

## Model

All source paths are under `src/main/java/com/brokage/` or `src/test/java/com/brokage/`.

| member | source | states |
|---|---|---|
| Decimal.Round2 | src/main/java/com/brokage/domain/valueobject/Quantity.java:31 | HALF_UP rounding to two places: the result is a whole number of cents within half a cent of the input (ties go up) |
| Decimal.Round2Product | src/main/java/com/brokage/domain/valueobject/Money.java:74 | the product of two amounts rounded HALF_UP to cents: within half a cent of the exact product |
| Decimal.Round2Quotient | src/main/java/com/brokage/domain/valueobject/Money.java:91 | the quotient rounded HALF_UP to cents: within half a cent of the exact quotient |
| Decimal.Compare | src/main/java/com/brokage/domain/valueobject/Quantity.java:138-143 | `BigDecimal.compareTo`: -1, 0 or 1 exactly when less, equal or greater |
| Decimal.Round2Unique | src/main/java/com/brokage/domain/valueobject/Quantity.java:31 | any cent value within half a cent of the input is its rounding |
| Decimal.Round2OfScale2 | src/main/java/com/brokage/domain/valueobject/Quantity.java:31 | rounding leaves an amount with at most two decimals unchanged |
| Decimal.Round2Idempotent | src/main/java/com/brokage/domain/valueobject/Quantity.java:31 | rounding twice is rounding once |
| Decimal.Round2Monotone | src/main/java/com/brokage/domain/valueobject/Quantity.java:31 | rounding preserves order |
| Decimal.Round2ProductExact | src/main/java/com/brokage/domain/valueobject/Money.java:74 | a product that is already a cent value is left as it is |
| Decimal.Scale2Closed | src/main/java/com/brokage/domain/valueobject/Quantity.java:58-73 | sums and differences of cent values are cent values |
| QuantityValue.Quantity.Of | src/main/java/com/brokage/domain/valueobject/Quantity.java:24-32 | null and negative input fail with their messages; otherwise a non-negative value at scale 2 within half a cent of the input |
| QuantityValue.Quantity.Zero | src/main/java/com/brokage/domain/valueobject/Quantity.java:50-52 | the valid quantity 0 |
| QuantityValue.Quantity.One | src/main/java/com/brokage/domain/valueobject/Quantity.java:54-56 | the valid quantity 1 |
| QuantityValue.Quantity.Add | src/main/java/com/brokage/domain/valueobject/Quantity.java:58-63 | null fails; otherwise the exact sum, still valid |
| QuantityValue.Quantity.Subtract | src/main/java/com/brokage/domain/valueobject/Quantity.java:65-73 | null fails with IllegalArgument, a larger operand with IllegalState; succeeds exactly when the operand is at most the value, giving the exact difference |
| QuantityValue.Quantity.Multiply | src/main/java/com/brokage/domain/valueobject/Quantity.java:75-83 | null and negative factors fail; otherwise a valid quantity within half a cent of the exact product |
| QuantityValue.Quantity.Divide | src/main/java/com/brokage/domain/valueobject/Quantity.java:85-93 | null fails, zero and negative divisors fail; otherwise a valid quantity within half a cent of the exact quotient |
| QuantityValue.Quantity.CompareTo | src/main/java/com/brokage/domain/valueobject/Quantity.java:138-143 | null fails; otherwise the sign of the difference |
| QuantityValue.ComparisonsAgree | src/main/java/com/brokage/domain/valueobject/Quantity.java:103-136 | the comparison predicates agree with `compareTo`, `>=` and `<=` negate `<` and `>`, `compareTo` is antisymmetric, and a null operand counts as smaller (or sufficient) |
| QuantityValue.AddSubtractRoundTrip | src/main/java/com/brokage/domain/valueobject/Quantity.java:58-73 | subtracting what was added gives the original quantity back |
| QuantityValue.Examples | src/test/java/com/brokage/domain/valueobject/QuantityTest.java:33-173 | 10.123456 rounds to 10.12; 5 × 2.5 = 12.50; 10 ÷ 3 = 3.33 |
| MoneyValue.Money.Of | src/main/java/com/brokage/domain/valueobject/Money.java:24-32 | null and negative input fail with their messages; otherwise a non-negative cent value within half a cent of the input |
| MoneyValue.Money.Zero | src/main/java/com/brokage/domain/valueobject/Money.java:46-48 | the valid amount 0 |
| MoneyValue.Money.Add | src/main/java/com/brokage/domain/valueobject/Money.java:50-55 | null fails; otherwise the exact sum |
| MoneyValue.Money.Subtract | src/main/java/com/brokage/domain/valueobject/Money.java:57-65 | null fails with IllegalArgument, a larger operand with IllegalState; succeeds exactly when the operand is at most the amount, giving the exact difference |
| MoneyValue.Money.Multiply | src/main/java/com/brokage/domain/valueobject/Money.java:67-75 | null and negative factors fail; otherwise a valid amount within half a cent of the exact product |
| MoneyValue.Money.MultiplyQuantity | src/main/java/com/brokage/domain/valueobject/Money.java:77-82 | a null quantity fails; otherwise price × size rounded to cents |
| MoneyValue.Money.Divide | src/main/java/com/brokage/domain/valueobject/Money.java:84-92 | null fails, zero and negative divisors fail; otherwise a valid amount within half a cent of the exact quotient |
| MoneyValue.Money.CompareTo | src/main/java/com/brokage/domain/valueobject/Money.java:130-135 | null fails; otherwise the sign of the difference |
| MoneyValue.ComparisonsAgree | src/main/java/com/brokage/domain/valueobject/Money.java:102-128 | the comparison predicates agree with `compareTo`, which is antisymmetric, and a null operand counts as smaller |
| MoneyValue.AddSubtractRoundTrip | src/main/java/com/brokage/domain/valueobject/Money.java:50-65 | subtracting what was added gives the original amount back |
| MoneyValue.Examples | src/test/java/com/brokage/domain/valueobject/MoneyTest.java:128-176 | 15.50 × 3 = 46.50; 100 ÷ 3 = 33.33; 123.45 × 15.5 = 1913.48 |
| UsableSizeValue.UsableSize.Of | src/main/java/com/brokage/domain/valueobject/UsableSize.java:23-35 | null and negative input fail; otherwise the value exactly, with no rounding |
| UsableSizeValue.UsableSize.Zero | src/main/java/com/brokage/domain/valueobject/UsableSize.java:37-39 | the valid usable size 0 |
| UsableSizeValue.UsableSize.Reserve | src/main/java/com/brokage/domain/valueobject/UsableSize.java:41-52 | null, negative and too-large amounts fail with their errors; succeeds exactly when 0 ≤ amount ≤ value, leaving value − amount |
| UsableSizeValue.UsableSize.Release | src/main/java/com/brokage/domain/valueobject/UsableSize.java:54-62 | null and negative amounts fail; otherwise value + amount, with no upper bound |
| UsableSizeValue.UsableSize.Add | src/main/java/com/brokage/domain/valueobject/UsableSize.java:64-72 | null and negative amounts fail; otherwise value + amount |
| UsableSizeValue.UsableSize.CompareTo | src/main/java/com/brokage/domain/valueobject/UsableSize.java:99-104 | null fails; otherwise the sign of the difference |
| UsableSizeValue.ReserveReleaseRoundTrip | src/main/java/com/brokage/domain/valueobject/UsableSize.java:41-62 | releasing what was reserved restores the usable size |
| UsableSizeValue.ReserveBoundary | src/main/java/com/brokage/domain/valueobject/UsableSize.java:48-50 | reserving all of it leaves zero; one millionth more is "Insufficient usable size" |
| UsableSizeValue.CanReserveIffReserveSucceeds | src/main/java/com/brokage/domain/valueobject/UsableSize.java:74-79 | `canReserve` holds exactly when `reserve` would succeed, null included |
| UsableSizeValue.ComparisonsAgree | src/main/java/com/brokage/domain/valueobject/UsableSize.java:85-104 | the comparison predicates agree with `compareTo`, and a null operand counts as smaller |
| AssetSymbolValue.Trim | src/main/java/com/brokage/domain/valueobject/AssetSymbol.java:28-32 | `String.trim`: the result is a slice of the text with only characters ≤ space cut off on either side, and it neither starts nor ends with one; it is empty exactly when every character is ≤ space, and text without such ends is left unchanged |
| AssetSymbolValue.UpperOf | src/main/java/com/brokage/domain/valueobject/AssetSymbol.java:32 | one character's upper-case form: a capital stays, a lower-case ASCII letter becomes its capital, only the sharp s and the ligatures grow, and the form is all capitals exactly for the letters, the dotless i, the long s, the sharp s and the ligatures U+FB00–U+FB06 |
| AssetSymbolValue.ToUpper | src/main/java/com/brokage/domain/valueobject/AssetSymbol.java:32 | upper-casing never shortens the text |
| AssetSymbolValue.ToUpperCapitals | src/main/java/com/brokage/domain/valueobject/AssetSymbol.java:32-34 | the upper-cased text is all capitals exactly when every character upper-cases to capitals |
| AssetSymbolValue.ToUpperOfAscii | src/main/java/com/brokage/domain/valueobject/AssetSymbol.java:32 | on ASCII text upper-casing keeps the length and changes only the lower-case letters, each to its capital |
| AssetSymbolValue.AssetSymbol.Of | src/main/java/com/brokage/domain/valueobject/AssetSymbol.java:27-43 | null or blank fails first; otherwise succeeds exactly when the trimmed upper-cased text is 2–10 capital letters, and that text is the symbol |
| AssetSymbolValue.AssetSymbol.TrySymbol | src/main/java/com/brokage/domain/valueobject/AssetSymbol.java:45-47 | the valid symbol TRY |
| AssetSymbolValue.ToUpperOfUpper | src/main/java/com/brokage/domain/valueobject/AssetSymbol.java:32 | upper-casing capital letters changes nothing |
| AssetSymbolValue.NormalizeOfValid | src/main/java/com/brokage/domain/valueobject/AssetSymbol.java:18-35 | a valid symbol is its own normal form |
| AssetSymbolValue.OfKeepsExactlyValid | src/main/java/com/brokage/domain/valueobject/AssetSymbol.java:27-39 | the constructor returns its input unchanged exactly when the input is already a valid symbol |
| AssetSymbolValue.OfIdempotent | src/main/java/com/brokage/domain/valueobject/AssetSymbol.java:27-39 | building a symbol from a symbol's text gives the same symbol |
| AssetSymbolValue.Classification | src/main/java/com/brokage/domain/valueobject/AssetSymbol.java:19-73 | among valid symbols only TRY is a currency; stock is its negation and the type agrees; the display name is "Turkish Lira" exactly for TRY and the symbol otherwise |
| AssetSymbolValue.TrimExample | src/test/java/com/brokage/domain/valueobject/AssetSymbolTest.java:28-34 | "  googl  " becomes GOOGL |
| AssetSymbolValue.CaseExample | src/test/java/com/brokage/domain/valueobject/AssetSymbolTest.java:19-25 | "aapl" and "AAPL" give the same symbol AAPL |
| AssetSymbolValue.SpecialCaseExample | src/main/java/com/brokage/domain/valueobject/AssetSymbol.java:32-38 | "bıst" makes BIST and "aß" makes ASS, as Java's special-case upper-casing gives |
| AssetSymbolValue.BlankExample | src/test/java/com/brokage/domain/valueobject/AssetSymbolTest.java:42-46 | empty and blank text fail with "Asset symbol cannot be null or empty" |
| AssetSymbolValue.LengthRejectedExample | src/test/java/com/brokage/domain/valueobject/AssetSymbolTest.java:48-55 | one letter and fourteen letters are rejected |
| AssetSymbolValue.ShortestAcceptedExample | src/test/java/com/brokage/domain/valueobject/AssetSymbolTest.java:183-187 | two letters are accepted |
| AssetSymbolValue.LongestAcceptedExample | src/test/java/com/brokage/domain/valueobject/AssetSymbolTest.java:190-194 | ten letters are accepted |
| AssetSymbolValue.CharacterExample | src/test/java/com/brokage/domain/valueobject/AssetSymbolTest.java:58-61 | digits and hyphens are rejected |
| AssetEntity.AssetRow.ReserveAmount | src/main/java/com/brokage/domain/entity/Asset.java:50-52 | succeeds exactly when 0 ≤ amount ≤ usable; only the usable part falls, by the amount; otherwise UsableSize's error |
| AssetEntity.AssetRow.ReleaseAmount | src/main/java/com/brokage/domain/entity/Asset.java:54-56 | succeeds exactly for a non-negative amount; only the usable part rises |
| AssetEntity.AssetRow.AddSize | src/main/java/com/brokage/domain/entity/Asset.java:58-61 | null fails; otherwise the total and the usable part both rise by the quantity |
| AssetEntity.AssetRow.SubtractSize | src/main/java/com/brokage/domain/entity/Asset.java:63-68 | "Insufficient total size" when the quantity exceeds the total; otherwise only the total falls, and the usable part is untouched |
| AssetEntity.Asset.ReserveAmount | src/main/java/com/brokage/domain/entity/Asset.java:50-52 | the entity's fields become the row `AssetRow.ReserveAmount` gives; on failure they are unchanged and its error is returned |
| AssetEntity.Asset.ReleaseAmount | src/main/java/com/brokage/domain/entity/Asset.java:54-56 | the same for `releaseAmount` |
| AssetEntity.Asset.AddSize | src/main/java/com/brokage/domain/entity/Asset.java:58-61 | the same for `addSize`: the total is assigned first |
| AssetEntity.Asset.SubtractSize | src/main/java/com/brokage/domain/entity/Asset.java:63-68 | the same for `subtractSize` |
| AssetEntity.ReserveReleaseRoundTrip | src/main/java/com/brokage/domain/entity/Asset.java:50-56 | releasing what was reserved restores the entry exactly |
| AssetEntity.ReserveFailure | src/main/java/com/brokage/domain/entity/Asset.java:50-52 | a reservation fails exactly when it exceeds the usable part, and then with IllegalState |
| AssetEntity.AddSubtractSize | src/main/java/com/brokage/domain/entity/Asset.java:58-68 | adding then subtracting a quantity restores the total but keeps the usable increase |
| AssetEntity.ConsistencyPreserved | src/main/java/com/brokage/domain/entity/Asset.java:50-68 | usable ≤ total survives a reservation, an addition, and a subtraction or release within the reserved margin |
| OrderEntity.OrderRow.GetTotalAmount | src/main/java/com/brokage/domain/entity/Order.java:61-63 | price × size rounded HALF_UP to cents |
| OrderEntity.OrderRow.Cancel | src/main/java/com/brokage/domain/entity/Order.java:65-74 | succeeds exactly on PENDING, giving CANCELED with nothing else changed; otherwise "Order cannot be canceled" |
| OrderEntity.OrderRow.Match | src/main/java/com/brokage/domain/entity/Order.java:76-81 | succeeds exactly on PENDING, giving MATCHED with nothing else changed; otherwise "Only pending orders can be matched" |
| OrderEntity.Order.Load | src/main/java/com/brokage/application/service/order/FetchOrderService.java:34-38 | the loaded entity holds the stored row |
| OrderEntity.Order.Cancel | src/main/java/com/brokage/domain/entity/Order.java:69-74 | the entity's status changes as `OrderRow.Cancel` says, or the error is returned and nothing changes |
| OrderEntity.Order.Match | src/main/java/com/brokage/domain/entity/Order.java:76-81 | the same for `match` |
| OrderEntity.TerminalStatesAreFinal | src/main/java/com/brokage/domain/entity/Order.java:65-81 | no sequence of cancel and match calls changes a MATCHED or CANCELED order |
| OrderEntity.OnlyFirstCallCounts | src/main/java/com/brokage/domain/entity/Order.java:65-81 | on a PENDING order, the first call decides the final status |
| OrderEntity.TotalAmountExample | src/test/java/com/brokage/domain/entity/OrderTest.java:31-34 | 10 at 150.00 totals 1500.00 |
| Ledger.ReservedUpdate | src/main/java/com/brokage/application/service/order/CancelOrderService.java:40-41 | replacing one order changes what is held on an entry by the difference of the two orders' holdings |
| Ledger.HeldWithinReserved | src/main/java/com/brokage/application/service/order/CreateOrderService.java:49-68 | what all orders hold on an entry is at least what any one of them holds |
| Ledger.ReservedNone | src/main/java/com/brokage/application/service/order/CreateOrderService.java:49-68 | nothing is held on an entry no pending order refers to |
| Ledger.NewReservationPreservesInvariant | src/main/java/com/brokage/application/service/order/CreateOrderService.java:26-38 | a pending order whose holding is taken from its entry's usable part keeps the ledger invariant |
| Ledger.ReleasedReservationPreservesInvariant | src/main/java/com/brokage/application/service/order/CancelOrderService.java:32-41 | giving a pending order's holding back and marking it CANCELED keeps the ledger invariant |
| Ledger.SettledOrderPreservesInvariant | src/main/java/com/brokage/application/service/order/MatchOrderService.java:22-38 | marking an order MATCHED while no entry's usable part grows by more than its total does, plus what that order held there, keeps the ledger invariant |
| Ledger.AtMostOneEntry | src/main/java/com/brokage/domain/entity/Asset.java:16-18 | the unique constraint: one entry per customer and symbol |
| Ledger.Repositories.SaveAsset | src/main/java/com/brokage/domain/entity/Asset.java:16-18 | the entity's row is written under its key; nothing else changes |
| Ledger.Repositories.InsertOrder | src/main/java/com/brokage/application/service/order/CreateOrderService.java:37 | the new order is appended and gets the next id |
| Ledger.Repositories.UpdateOrder | src/main/java/com/brokage/application/service/order/CancelOrderService.java:41 | the order under the id is replaced; nothing else changes |
| Ledger.Repositories.Restore | src/main/java/com/brokage/application/service/order/MatchOrderService.java:22 | the transaction's rollback: both tables become the snapshot |
| AssetManagement.FindForUpdate | src/main/java/com/brokage/application/service/asset/AssetManagementService.java:26-30 | the entry under exactly this name, or "Asset not found" exactly when there is none |
| AssetManagement.CreateAsset | src/main/java/com/brokage/application/service/asset/AssetManagementService.java:32-39 | succeeds exactly when the name is a valid symbol and its normalised key is free, inserting a zero entry there; otherwise the symbol error or the unique violation |
| AssetManagement.GetOrCreate | src/main/java/com/brokage/application/service/asset/AssetManagementService.java:20-24 | an existing entry under the raw name is returned with the store unchanged; otherwise `createAsset` |
| AssetManagement.AssetManagementService.GetOrCreateAsset | src/main/java/com/brokage/application/service/asset/AssetManagementService.java:20-24 | a fresh entity holding the row `GetOrCreate` gives, with the repositories as it leaves them; on failure the error and no change |
| AssetManagement.AssetManagementService.GetAssetForUpdate | src/main/java/com/brokage/application/service/asset/AssetManagementService.java:26-30 | a fresh entity holding the row `FindForUpdate` gives, or its error |
| AssetManagement.AssetManagementService.CreateAssetEntity | src/main/java/com/brokage/application/service/asset/AssetManagementService.java:32-39 | a fresh entity holding the row `CreateAsset` gives, with the repositories as it leaves them; on failure the error and no change |
| AssetManagement.FindNeedsNormalName | src/main/java/com/brokage/application/service/asset/AssetManagementService.java:26-30 | only a name already in normal form is ever found |
| AssetManagement.GetOrCreateValidSymbol | src/main/java/com/brokage/application/service/asset/AssetManagementService.java:20-39 | for a valid symbol, get-or-create always succeeds with the row stored under it afterwards, a zero row exactly when none existed |
| AssetManagement.GetOrCreateRawNameCollides | src/main/java/com/brokage/application/service/asset/AssetManagementService.java:20-39 | a name in a different case than an existing entry's fails on the unique constraint instead of returning that entry |
| AssetManagement.GetOrCreatePreservesInvariant | src/main/java/com/brokage/application/service/asset/AssetManagementService.java:20-39 | get-or-create keeps the ledger invariant |
| AssetInitialization.Initialize | src/main/java/com/brokage/application/service/asset/AssetInitializationService.java:20-28 | null and negative amounts fail first, then a second TRY entry; success exactly otherwise, adding TRY with the rounded total and the exact usable part |
| AssetInitialization.AssetInitializationService.InitializeCustomerWithTry | src/main/java/com/brokage/application/service/asset/AssetInitializationService.java:20-28 | the repositories become what `Initialize` gives; on failure its error and no change |
| AssetInitialization.ZeroInitialAmount | src/test/java/com/brokage/application/service/asset/AssetInitializationServiceTest.java:37-45 | a zero seed makes a zero entry |
| AssetInitialization.InitializePreservesInvariant | src/main/java/com/brokage/application/service/asset/AssetInitializationService.java:20-28 | a seed with at most two decimals keeps the ledger invariant |
| AssetInitialization.InitializeUnscaledUnbalances | src/main/java/com/brokage/application/service/asset/AssetInitializationService.java:23-25 | a seed of 1.004 gives total 1.00 and usable 1.004, which is unbalanced |
| OrderCreation.ValidateOrderRequest | src/main/java/com/brokage/application/service/order/CreateOrderService.java:40-47 | passes exactly when size and price are positive; the size is checked first |
| OrderCreation.TotalAmountOf | src/main/java/com/brokage/application/service/order/CreateOrderService.java:50 | price and size each rounded, then multiplied and rounded to cents |
| OrderCreation.ReserveForBuy | src/main/java/com/brokage/application/service/order/CreateOrderService.java:49-58 | a missing TRY entry is "Asset not found"; too little usable is "Insufficient TRY balance"; otherwise only the TRY usable part falls, by the total amount |
| OrderCreation.ReserveForSell | src/main/java/com/brokage/application/service/order/CreateOrderService.java:60-68 | a missing entry under the raw name is "Asset not found"; too little usable is "Insufficient asset balance"; otherwise only its usable part falls, by the raw size |
| OrderCreation.ToEntity | src/main/java/com/brokage/application/mapper/OrderMapper.java:19-58 | succeeds exactly when the name is a valid symbol: a valid PENDING order with the normalised symbol and the rounded size and price |
| OrderCreation.Create | src/main/java/com/brokage/application/service/order/CreateOrderService.java:26-68 | validation errors come first; then a failed reservation (missing entry, insufficient balance) or a rejected symbol is the result and no order is saved; on success the asset table is the one the side's reservation gives and the new order is appended |
| OrderCreation.CreateOrderService.CreateOrder | src/main/java/com/brokage/application/service/order/CreateOrderService.java:26-38 | returns the new id, and the repositories become what `Create` gives; on failure its error and no change, a mapper failure undoing the reservation |
| OrderCreation.CreateOrderService.HandleBuyOrder | src/main/java/com/brokage/application/service/order/CreateOrderService.java:49-58 | the repositories become what `ReserveForBuy` gives, or its error and no change |
| OrderCreation.CreateOrderService.HandleSellOrder | src/main/java/com/brokage/application/service/order/CreateOrderService.java:60-68 | the repositories become what `ReserveForSell` gives, or its error and no change |
| OrderCreation.BuyReservation | src/main/java/com/brokage/application/service/order/CreateOrderService.java:49-58 | a BUY reservation takes the new order's total amount from its TRY entry, which exists and has that much usable |
| OrderCreation.SellReservation | src/main/java/com/brokage/application/service/order/CreateOrderService.java:60-68 | for a scale-2 size, a SELL reservation takes the new order's size from the entry of its symbol, which exists and has that much usable |
| OrderCreation.CreateReservesWhatOrderHolds | src/main/java/com/brokage/application/service/order/CreateOrderService.java:26-68 | for scale-2 SELL sizes, creation takes from exactly the entry and exactly the amount the new order holds |
| OrderCreation.CreatePreservesInvariant | src/main/java/com/brokage/application/service/order/CreateOrderService.java:26-68 | creation keeps the ledger invariant for scale-2 SELL sizes |
| OrderCreation.BuyExample | src/test/java/com/brokage/application/service/order/CreateOrderServiceTest.java:90-120 | buying 10 at 150.00 out of 10000 leaves 8500 usable and the total at 10000 |
| OrderCreation.SellExample | src/test/java/com/brokage/application/service/order/CreateOrderServiceTest.java:140-169 | selling 5 out of 20 usable leaves 15 |
| OrderCancellation.FindOrder | src/main/java/com/brokage/application/service/order/FetchOrderService.java:34-38 | the order under the id, or "Order not found" exactly when there is none |
| OrderCancellation.Cancel | src/main/java/com/brokage/application/service/order/CancelOrderService.java:20-42 | errors in source order: missing order, another customer's order, not pending, missing entry; on success the holding is given back to the entry's usable part and the order becomes CANCELED, with nothing else changed |
| OrderCancellation.CancelOrderService.CancelOrder | src/main/java/com/brokage/application/service/order/CancelOrderService.java:20-42 | the repositories become what `Cancel` gives, or its error and no change |
| OrderCancellation.CancelPreservesInvariant | src/main/java/com/brokage/application/service/order/CancelOrderService.java:20-42 | cancellation keeps the ledger invariant |
| OrderCancellation.CancelSucceedsOnPending | src/main/java/com/brokage/application/service/order/CancelOrderService.java:20-42 | in a balanced ledger the owner can always cancel a pending order |
| OrderCancellation.CancelKeepsTotals | src/main/java/com/brokage/application/service/order/CancelOrderService.java:32-41 | cancellation adds or drops no entry, changes no total and touches no other order |
| OrderCancellation.CancelUndoesReservation | src/main/java/com/brokage/application/service/order/CancelOrderService.java:32-41 | canceling a just-appended order gives the asset table back exactly |
| OrderCancellation.CreateThenCancel | src/main/java/com/brokage/application/service/order/CancelOrderService.java:20-42 | create then cancel restores the asset table exactly and leaves the order CANCELED, for scale-2 SELL sizes |
| OrderCancellation.CreateUnscaledSellUnbalances | src/main/java/com/brokage/application/service/order/CreateOrderService.java:60-68 | selling 9.995 of 10 reserves 9.995 while the order holds 10.00, which is unbalanced |
| OrderCancellation.CancelUnscaledSellOverReleases | src/main/java/com/brokage/application/service/order/CancelOrderService.java:35-38 | canceling that order releases 10.00, leaving 10.005 usable out of 10 |
| OrderCancellation.BuyCancelExample | src/test/java/com/brokage/application/service/order/CancelOrderServiceTest.java:62-71 | canceling a BUY of 10 at 100.00 takes 10000 usable TRY to 11000 and the order becomes CANCELED |
| OrderMatching.Proceeds | src/main/java/com/brokage/application/service/order/MatchOrderService.java:51 | a SELL order's total amount as a valid quantity |
| OrderMatching.SettleBuy | src/main/java/com/brokage/application/service/order/MatchOrderService.java:40-45 | the bought entry, created at zero if missing, gains the size in total and usable part; no other entry, TRY included, changes |
| OrderMatching.SettleSell | src/main/java/com/brokage/application/service/order/MatchOrderService.java:47-54 | succeeds exactly when the sold entry exists and owns the size: its total loses the size, and the TRY entry (created if missing, the same one when TRY is sold) gains the proceeds in total and usable part |
| OrderMatching.Match | src/main/java/com/brokage/application/service/order/MatchOrderService.java:22-38 | a missing order, then a non-pending one, fail; otherwise the settlement with the order MATCHED, or the settlement's error; no owner check |
| OrderMatching.MatchOrderService.MatchOrder | src/main/java/com/brokage/application/service/order/MatchOrderService.java:22-38 | the repositories become what `Match` gives, or its error and no change (a TRY entry created before the failure included) |
| OrderMatching.MatchOrderService.HandleBuyOrderMatching | src/main/java/com/brokage/application/service/order/MatchOrderService.java:40-45 | the repositories become what `SettleBuy` gives |
| OrderMatching.MatchOrderService.HandleSellOrderMatching | src/main/java/com/brokage/application/service/order/MatchOrderService.java:47-54 | the repositories become what `SettleSell` gives, or its error is returned |
| OrderMatching.BuyMatchPreservesInvariant | src/main/java/com/brokage/application/service/order/MatchOrderService.java:40-45 | a BUY settlement keeps the ledger invariant |
| OrderMatching.SellMatchPreservesInvariant | src/main/java/com/brokage/application/service/order/MatchOrderService.java:47-54 | a SELL settlement keeps the ledger invariant |
| OrderMatching.SellSettlementKeys | src/main/java/com/brokage/application/service/order/MatchOrderService.java:47-54 | a SELL settlement drops no entry and keeps every row valid under its key |
| OrderMatching.SellSettlementSlack | src/main/java/com/brokage/application/service/order/MatchOrderService.java:47-54 | on every entry a SELL settlement adds no more usable than total, beyond what the order held there |
| OrderMatching.MatchPreservesInvariant | src/main/java/com/brokage/application/service/order/MatchOrderService.java:22-38 | matching keeps the ledger invariant |
| OrderMatching.MatchSucceedsOnPending | src/main/java/com/brokage/application/service/order/MatchOrderService.java:22-54 | in a balanced ledger every pending order can be matched |
| OrderMatching.BuyMatchNeverDebitsTry | src/main/java/com/brokage/application/service/order/MatchOrderService.java:40-45 | after a BUY is created and matched, the TRY total is as before and the TRY usable part is lower by the order's total amount |
| OrderMatching.BuyMatchExample | src/test/java/com/brokage/application/service/order/MatchOrderServiceTest.java:79-88 | matching a BUY of 10 takes an entry of 20 to 30 and the order becomes MATCHED |
| OrderMatching.SellMatchExample | src/test/java/com/brokage/application/service/order/MatchOrderServiceTest.java:91-102 | matching a SELL of 5 at 110.00 takes 20 to 15 and 10000 TRY to 10550 |

## Left out

- HTTP controllers, authentication, the customer-access aspect, DTO responses and `DataInitializer` are outside this model. So are `FetchAssetService` and the list queries of `FetchOrderService`. None of them changes the ledger.
- Bean validation of requests is left out: null request fields are rejected before the services run, so the request type has no null fields.
- Concurrency is not modelled. Each service call is one transaction taken in isolation, and the pessimistic locks of `getAssetForUpdate` have no effect here.
- The JPQL behind the repositories is not modelled. The asset table is a map keyed by the unique constraint; the order table is a sequence whose positions are the ids.
- JPA identity is modelled by sharing one `Asset` object when the sold asset is TRY. The dirty-checking flush at commit is modelled by explicit `SaveAsset` and `UpdateOrder` calls.
- Generated ids other than order positions, timestamps and the `Customer` entity are left out.
- `Quantity.of(double)`, `Money.of(double)` and the `of(String)`/`of(int)` factories are left out: they parse or convert binary floating point before reaching the constructor, which is modelled.
- Amounts are exact multiples of one millionth. Inputs with more than six decimals are not representable.
- `toString`, `toDisplayString`, `equals` and `hashCode` are left out. `BigDecimal.equals` is scale-sensitive; the model compares values.
- QuantityValue.Quantity.Subtract: the IllegalState message embeds `toString` of both operands, so only the error kind is stated.
- MoneyValue.Money.Subtract: the same as for `Quantity.subtract`.
- AssetEntity.AssetRow.ReserveAmount: a null or negative amount is stated only as an IllegalArgument. The message is the one `UsableSize.Reserve` states.
- AssetEntity.AssetRow.ReleaseAmount: the same, with the messages of `UsableSize.Release`.
- AssetSymbolValue.UpperOf: `toUpperCase()` uses the JVM's default locale; the model follows a locale without language-specific rules. Under Turkish or Azerbaijani, 'i' becomes 'İ', so Java rejects "isctr" while the model accepts it; Lithuanian rules on combining dots are likewise not modelled. Characters whose Java upper-case form holds anything outside A–Z are kept as they are: Java and the model reject them alike, with the same message, which quotes the raw input.
- AssetManagement.DuplicateEntry: the unique-violation message is the database's, so its text here is a stand-in.
- The database column scale of the usable part is not modelled: it is stored as computed.
- OrderCreation.CreatePreservesInvariant, OrderCancellation.CreateThenCancel and AssetInitialization.InitializePreservesInvariant assume SELL sizes and seed amounts with at most two decimals. Without that premise the source breaks the invariant, as `OrderCancellation.CreateUnscaledSellUnbalances` and `AssetInitialization.InitializeUnscaledUnbalances` show.
- OrderMatching.MatchOrderService.HandleSellOrderMatching: on failure only the error is stated, because the caller rolls back whatever the method left.
