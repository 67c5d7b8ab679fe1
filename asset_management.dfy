/** `AssetManagementService`: the locked look-up of a ledger entry, and get-or-create,
    both keyed by (customer, asset name). */
module AssetManagement {
  import opened Wrappers
  import opened Decimal
  import opened QuantityValue
  import opened UsableSizeValue
  import opened AssetSymbolValue
  import opened AssetEntity
  import opened Ledger

  /** The error the asset table's unique constraint raises on a duplicate insert. */
  const DuplicateEntry: Error := UniqueViolation("duplicate key (customer_id, asset_name)")

  /** `getAssetForUpdate`: the entry stored under exactly this name, or "Asset not found";
      the store is not changed either way. */
  function FindForUpdate(s: Store, customerId: int, assetName: string): (r: Result<AssetRow>)
    ensures r.Ok? <==> AssetKey(customerId, assetName) in s.assets
    ensures r.Ok? ==> r.value == s.assets[AssetKey(customerId, assetName)]
    ensures r.Err? ==> r.error == IllegalArgument("Asset not found")
  {
    var k := AssetKey(customerId, assetName);
    if k in s.assets then Ok(s.assets[k]) else Err(IllegalArgument("Asset not found"))
  }

  /** `createAsset`: a zero entry under the normalised symbol. The name must make a valid
      symbol, and the insert fails when that key is taken. */
  function CreateAsset(s: Store, customerId: int, assetName: string): (r: Result<(Store, AssetRow)>)
    ensures r.Ok? <==> AssetSymbol.Of(Some(assetName)).Ok? && AssetKey(customerId, Normalize(assetName)) !in s.assets
    ensures AssetSymbol.Of(Some(assetName)).Err? ==> r == Err(AssetSymbol.Of(Some(assetName)).error)
    ensures AssetSymbol.Of(Some(assetName)).Ok? && AssetKey(customerId, Normalize(assetName)) in s.assets ==>
              r == Err(DuplicateEntry)
    ensures r.Ok? ==> r.value.1 == AssetRow(customerId, AssetSymbol(Normalize(assetName)), Quantity(0), UsableSize(0))
    ensures r.Ok? ==> r.value.0 == s.(assets := s.assets[AssetKey(customerId, Normalize(assetName)) := r.value.1])
  {
    var symbol :- AssetSymbol.Of(Some(assetName));
    var row := AssetRow(customerId, symbol, Quantity.Zero(), UsableSize.Zero());
    if KeyOf(row) in s.assets then Err(DuplicateEntry)
    else Ok((s.(assets := s.assets[KeyOf(row) := row]), row))
  }

  /** `getOrCreateAsset`: the entry stored under exactly this name, unchanged and with no
      insert, or else `createAsset`. */
  function GetOrCreate(s: Store, customerId: int, assetName: string): (r: Result<(Store, AssetRow)>)
    ensures AssetKey(customerId, assetName) in s.assets ==>
              r == Ok((s, s.assets[AssetKey(customerId, assetName)]))
    ensures AssetKey(customerId, assetName) !in s.assets ==> r == CreateAsset(s, customerId, assetName)
  {
    var k := AssetKey(customerId, assetName);
    if k in s.assets then Ok((s, s.assets[k])) else CreateAsset(s, customerId, assetName)
  }

  class AssetManagementService {
    const repos: Repositories

    constructor (repos: Repositories)
      ensures this.repos == repos
    {
      this.repos := repos;
    }

    method GetOrCreateAsset(customerId: int, assetName: string) returns (r: Result<Asset>)
      modifies repos
      ensures GetOrCreate(old(repos.State()), customerId, assetName).Ok? ==>
                && r.Ok? && fresh(r.value)
                && r.value.Row() == GetOrCreate(old(repos.State()), customerId, assetName).value.1
                && repos.State() == GetOrCreate(old(repos.State()), customerId, assetName).value.0
      ensures GetOrCreate(old(repos.State()), customerId, assetName).Err? ==>
                && r == Err(GetOrCreate(old(repos.State()), customerId, assetName).error)
                && repos.State() == old(repos.State())
    {
      var k := AssetKey(customerId, assetName);
      if k in repos.assets {
        var a := new Asset.Load(repos.assets[k]);
        return Ok(a);
      }
      r := CreateAssetEntity(customerId, assetName);
    }

    method GetAssetForUpdate(customerId: int, assetName: string) returns (r: Result<Asset>)
      ensures FindForUpdate(repos.State(), customerId, assetName).Ok? ==>
                r.Ok? && fresh(r.value) && r.value.Row() == FindForUpdate(repos.State(), customerId, assetName).value
      ensures FindForUpdate(repos.State(), customerId, assetName).Err? ==>
                r == Err(FindForUpdate(repos.State(), customerId, assetName).error)
    {
      var k := AssetKey(customerId, assetName);
      if k !in repos.assets {
        return Err(IllegalArgument("Asset not found"));
      }
      var a := new Asset.Load(repos.assets[k]);
      return Ok(a);
    }

    /** `createAsset`: the entity is built through its setters and then inserted. */
    method CreateAssetEntity(customerId: int, assetName: string) returns (r: Result<Asset>)
      modifies repos
      ensures CreateAsset(old(repos.State()), customerId, assetName).Ok? ==>
                && r.Ok? && fresh(r.value)
                && r.value.Row() == CreateAsset(old(repos.State()), customerId, assetName).value.1
                && repos.State() == CreateAsset(old(repos.State()), customerId, assetName).value.0
      ensures CreateAsset(old(repos.State()), customerId, assetName).Err? ==>
                && r == Err(CreateAsset(old(repos.State()), customerId, assetName).error)
                && repos.State() == old(repos.State())
    {
      var symbol := AssetSymbol.Of(Some(assetName));
      if symbol.Err? {
        return Err(symbol.error);
      }
      var a := new Asset(customerId, symbol.value, Quantity.Zero(), UsableSize.Zero());
      if KeyOf(a.Row()) in repos.assets {
        return Err(DuplicateEntry);
      }
      repos.SaveAsset(a);
      return Ok(a);
    }
  }

  /** The look-up is exact: a name that is not in normal form is never found, since every
      stored row sits under its valid symbol. */
  lemma FindNeedsNormalName(s: Store, customerId: int, assetName: string)
    requires WellFormed(s)
    requires FindForUpdate(s, customerId, assetName).Ok?
    ensures IsValidSymbol(assetName) && Normalize(assetName) == assetName
  {
    NormalizeOfValid(assetName);
  }

  /** Get-or-create of a valid symbol always succeeds and yields the row stored under
      that symbol, which is new and zero exactly when there was none. */
  lemma GetOrCreateValidSymbol(s: Store, customerId: int, symbol: string)
    requires WellFormed(s) && IsValidSymbol(symbol)
    ensures GetOrCreate(s, customerId, symbol).Ok?
    ensures AssetKey(customerId, symbol) in GetOrCreate(s, customerId, symbol).value.0.assets
    ensures GetOrCreate(s, customerId, symbol).value.0.assets[AssetKey(customerId, symbol)]
            == GetOrCreate(s, customerId, symbol).value.1
    ensures KeyOf(GetOrCreate(s, customerId, symbol).value.1) == AssetKey(customerId, symbol)
    ensures AssetKey(customerId, symbol) !in s.assets ==>
              GetOrCreate(s, customerId, symbol).value.1 == AssetRow(customerId, AssetSymbol(symbol), Quantity(0), UsableSize(0))
  {
    NormalizeOfValid(symbol);
  }

  /** As written, get-or-create looks the raw name up but inserts under the normalised
      symbol, so a name in another case than an existing entry's fails on the unique
      constraint instead of returning that entry. */
  lemma GetOrCreateRawNameCollides(s: Store, customerId: int, assetName: string)
    requires WellFormed(s)
    requires AssetSymbol.Of(Some(assetName)).Ok? && Normalize(assetName) != assetName
    requires AssetKey(customerId, Normalize(assetName)) in s.assets
    ensures GetOrCreate(s, customerId, assetName) == Err(DuplicateEntry)
  {
    if AssetKey(customerId, assetName) in s.assets {
      FindNeedsNormalName(s, customerId, assetName);
    }
  }

  /** Get-or-create keeps the store well formed and balanced. */
  lemma GetOrCreatePreservesInvariant(s: Store, customerId: int, assetName: string)
    requires Invariant(s) && GetOrCreate(s, customerId, assetName).Ok?
    ensures Invariant(GetOrCreate(s, customerId, assetName).value.0)
  {
    var k := AssetKey(customerId, assetName);
    if k !in s.assets {
      var s', row := GetOrCreate(s, customerId, assetName).value.0, GetOrCreate(s, customerId, assetName).value.1;
      ReservedOnMissing(s, KeyOf(row));
      assert s'.orders == s.orders;
    }
  }
}
