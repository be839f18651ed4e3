/**
 * The in-memory reference caches: `pos_data` and `product_data` map a model
 * name to the list of its rows. They are filled once at start-up and kept in
 * step with every later create, update or soft delete.
 */
module CacheManager {
  import opened Wrappers
  import opened Documents
  import opened Tables

  /** A cached model row: its id, its `is_deleted` flag when the model has
      one, and the rest of its attributes. */
  datatype CachedRow = CachedRow(id: Id, hasIsDeleted: bool, isDeleted: bool, attributes: map<string, string>)

  predicate IsSoftDeleted(r: CachedRow)
  {
    r.hasIsDeleted && r.isDeleted
  }

  /** The position of the first row with this id. */
  function IndexOfId(rows: seq<CachedRow>, id: Id): (r: Option<nat>)
    ensures r.Some? ==> r.value < |rows| && rows[r.value].id == id && forall k :: 0 <= k < r.value ==> rows[k].id != id
    ensures r.None? ==> forall k :: 0 <= k < |rows| ==> rows[k].id != id
  {
    if |rows| == 0 then None
    else if rows[0].id == id then Some(0)
    else match IndexOfId(rows[1..], id)
      case None => None
      case Some(k) => Some(k + 1)
  }

  /** The list comprehension of a soft delete: every row whose id differs, in order. */
  function WithoutId(rows: seq<CachedRow>, id: Id): seq<CachedRow>
  {
    Select(rows, (x: CachedRow) => x.id != id)
  }

  /** What one model's list becomes when `instance` is reported: a soft
      delete drops every row with its id, otherwise the first row with its
      id is replaced, or the instance is appended. */
  function CacheUpdate(rows: seq<CachedRow>, instance: CachedRow): seq<CachedRow>
  {
    if IsSoftDeleted(instance) then WithoutId(rows, instance.id)
    else match IndexOfId(rows, instance.id)
      case Some(i) => rows[i := instance]
      case None => rows + [instance]
  }

  /** A soft delete removes exactly the rows with that id. */
  lemma DeleteRemovesId(rows: seq<CachedRow>, instance: CachedRow)
    requires IsSoftDeleted(instance)
    ensures forall x :: x in CacheUpdate(rows, instance) <==> x in rows && x.id != instance.id
  {
  }

  /** A known id is replaced in place: same length, same position, nothing else touched. */
  lemma UpdateReplacesInPlace(rows: seq<CachedRow>, instance: CachedRow, i: nat)
    requires !IsSoftDeleted(instance) && IndexOfId(rows, instance.id) == Some(i)
    ensures |CacheUpdate(rows, instance)| == |rows|
    ensures CacheUpdate(rows, instance)[i] == instance
    ensures forall k :: 0 <= k < |rows| && k != i ==> CacheUpdate(rows, instance)[k] == rows[k]
  {
  }

  /** A new id is appended at the end. */
  lemma UpdateAppendsNew(rows: seq<CachedRow>, instance: CachedRow)
    requires !IsSoftDeleted(instance) && forall x :: x in rows ==> x.id != instance.id
    ensures CacheUpdate(rows, instance) == rows + [instance]
  {
    assert forall k :: 0 <= k < |rows| ==> rows[k].id != instance.id by {
      forall k | 0 <= k < |rows| ensures rows[k].id != instance.id {
        assert rows[k] in rows;
      }
    }
  }

  /** After an update a lookup by id finds the instance just reported; after a delete it finds nothing. */
  lemma LookupAfterUpdate(rows: seq<CachedRow>, instance: CachedRow)
    ensures var r := CacheUpdate(rows, instance);
      var f := IndexOfId(r, instance.id);
      if IsSoftDeleted(instance) then f.None? else f.Some? && r[f.value] == instance
  {
    var r := CacheUpdate(rows, instance);
    if IsSoftDeleted(instance) {
      assert forall k :: 0 <= k < |r| ==> r[k].id != instance.id by {
        forall k | 0 <= k < |r| ensures r[k].id != instance.id {
          assert r[k] in r;
        }
      }
    } else {
      match IndexOfId(rows, instance.id)
      case Some(i) =>
        assert r[i].id == instance.id;
      case None =>
        assert r[|rows|].id == instance.id;
    }
  }

  /** The enumerate loop of the update methods: the first index holding this id. */
  method FindIndex(rows: seq<CachedRow>, id: Id) returns (index: Option<nat>)
    ensures index == IndexOfId(rows, id)
  {
    index := None;
    var i := 0;
    while i < |rows|
      invariant 0 <= i <= |rows|
      invariant forall k :: 0 <= k < i ==> rows[k].id != id
    {
      if rows[i].id == id {
        index := Some(i);
        break;
      }
      i := i + 1;
    }
  }

  /** The models `populate_pos_data` loads, in order. */
  const PosModels: seq<string> := [
    "Cashier", "CashierPerformanceMetrics", "CashierPerformanceTarget", "CashierTransactionMetrics",
    "CashierWorkBreak", "CashierWorkSession", "City", "Country", "CountryRegion", "District", "Form",
    "FormControl", "LabelValue", "PaymentType", "PosSettings", "PosVirtualKeyboard", "ReceiptFooter",
    "ReceiptHeader", "Store", "Table", "TransactionDiscountType", "TransactionDocumentType",
    "TransactionSequence"]

  /** The models `populate_product_data` loads, in order. */
  const ProductModels: seq<string> := [
    "Currency", "CurrencyTable", "DepartmentMainGroup", "DepartmentSubGroup", "Product",
    "ProductAttribute", "ProductBarcode", "ProductBarcodeMask", "ProductManufacturer", "ProductUnit",
    "ProductVariant", "Vat", "Warehouse", "WarehouseLocation", "WarehouseProductStock",
    "WarehouseStockAdjustment", "WarehouseStockMovement"]

  /** The cache after loading `models` in order; `loaded(m)` is None when
      `get_all()` raised for m, and that model then caches no rows.  Every
      model listed is cached, a failed one as an empty list, and nothing
      else changes. */
  function LoadAll(cache: map<string, seq<CachedRow>>, models: seq<string>,
                   loaded: string -> Option<seq<CachedRow>>): (r: map<string, seq<CachedRow>>)
    ensures forall m :: m in models ==> m in r && r[m] == loaded(m).GetOr([])
    ensures forall m :: m !in models && m in cache ==> m in r && r[m] == cache[m]
    ensures r.Keys == cache.Keys + set m | m in models
  {
    if |models| == 0 then cache
    else
      var m := models[|models| - 1];
      var init := models[..|models| - 1];
      assert forall x :: x in models ==> x in init || x == m;
      LoadAll(cache, init, loaded)[m := loaded(m).GetOr([])]
  }

  /** The first PosSettings row when that list is non-empty. */
  function FirstSettings(cache: map<string, seq<CachedRow>>, previous: Option<CachedRow>): Option<CachedRow>
  {
    if "PosSettings" in cache && |cache["PosSettings"]| > 0 then Some(cache["PosSettings"][0]) else previous
  }

  /** The settings row picked up while loading `models` in order. */
  function SettingsAfter(models: seq<string>, loaded: string -> Option<seq<CachedRow>>,
                         previous: Option<CachedRow>): Option<CachedRow>
  {
    if |models| == 0 then previous
    else
      var m := models[|models| - 1];
      var before := SettingsAfter(models[..|models| - 1], loaded, previous);
      if m == "PosSettings" && loaded(m).Some? && |loaded(m).value| > 0 then Some(loaded(m).value[0]) else before
  }

  /** Loading picks up the first PosSettings row when that model loads with rows, and keeps the old settings otherwise. */
  lemma {:induction false} SettingsAfterLoad(models: seq<string>, loaded: string -> Option<seq<CachedRow>>,
                                             previous: Option<CachedRow>)
    ensures SettingsAfter(models, loaded, previous) ==
      if "PosSettings" in models && loaded("PosSettings").Some? && |loaded("PosSettings").value| > 0
      then Some(loaded("PosSettings").value[0]) else previous
  {
    if |models| > 0 {
      SettingsAfterLoad(models[..|models| - 1], loaded, previous);
      assert forall m :: m in models ==> m in models[..|models| - 1] || m == models[|models| - 1];
    }
  }

  /** PosSettings is among the models loaded at start-up. */
  lemma PosModelsHoldSettings()
    ensures "PosSettings" in PosModels
  {
    assert PosModels[14] == "PosSettings";
  }

  class Cache {
    var posData: map<string, seq<CachedRow>>
    var productData: map<string, seq<CachedRow>>
    var posSettings: Option<CachedRow>

    constructor ()
      ensures posData == map[] && productData == map[] && posSettings == None
    {
      posData, productData, posSettings := map[], map[], None;
    }

    /** `populate_pos_data`: every model is loaded in turn; a model whose
        load fails is cached as an empty list and the loop goes on. */
    method PopulatePosData(loaded: string -> Option<seq<CachedRow>>)
      modifies this`posData, this`posSettings
      ensures posData == LoadAll(old(posData), PosModels, loaded)
      ensures posSettings == SettingsAfter(PosModels, loaded, old(posSettings))
    {
      LoadPosModels(PosModels, loaded);
    }

    /** The loop of `populate_pos_data`, over the models given. */
    method LoadPosModels(models: seq<string>, loaded: string -> Option<seq<CachedRow>>)
      modifies this`posData, this`posSettings
      ensures posData == LoadAll(old(posData), models, loaded)
      ensures posSettings == SettingsAfter(models, loaded, old(posSettings))
    {
      var i := 0;
      while i < |models|
        invariant 0 <= i <= |models|
        invariant posData == LoadAll(old(posData), models[..i], loaded)
        invariant posSettings == SettingsAfter(models[..i], loaded, old(posSettings))
      {
        var name := models[i];
        assert models[..i + 1][..i] == models[..i];
        match loaded(name) {
          case Some(rows) =>
            posData := posData[name := rows];
            if name == "PosSettings" && |rows| > 0 {
              posSettings := Some(rows[0]);
            }
          case None =>
            posData := posData[name := []];
        }
        i := i + 1;
      }
      assert models[..|models|] == models;
    }

    /** `populate_product_data`: the same per-model fallback for the product caches. */
    method PopulateProductData(loaded: string -> Option<seq<CachedRow>>)
      modifies this`productData
      ensures productData == LoadAll(old(productData), ProductModels, loaded)
    {
      var i := 0;
      while i < |ProductModels|
        invariant 0 <= i <= |ProductModels|
        invariant productData == LoadAll(old(productData), ProductModels[..i], loaded)
      {
        var name := ProductModels[i];
        assert ProductModels[..i + 1][..i] == ProductModels[..i];
        productData := productData[name := loaded(name).GetOr([])];
        i := i + 1;
      }
      assert ProductModels[..|ProductModels|] == ProductModels;
    }

    /** `update_pos_data_cache`: nothing for a missing instance or an uncached
        model; otherwise the model's list is updated, and after an update (not
        a delete) of PosSettings the settings are its first row. */
    method UpdatePosDataCache(model: string, instance: Option<CachedRow>)
      modifies this`posData, this`posSettings
      ensures instance.None? || model !in old(posData) ==> posData == old(posData) && posSettings == old(posSettings)
      ensures instance.Some? && model in old(posData) ==>
        posData == old(posData)[model := CacheUpdate(old(posData)[model], instance.value)]
      ensures instance.Some? && model in old(posData) ==>
        posSettings == (if model == "PosSettings" && !IsSoftDeleted(instance.value)
                        then FirstSettings(posData, old(posSettings)) else old(posSettings))
    {
      if instance.None? || model !in posData {
        return;
      }
      var row := instance.value;
      if IsSoftDeleted(row) {
        posData := posData[model := WithoutId(posData[model], row.id)];
        return;
      }
      var index := FindIndex(posData[model], row.id);
      if index.Some? {
        posData := posData[model := posData[model][index.value := row]];
      } else {
        posData := posData[model := posData[model] + [row]];
      }
      if model == "PosSettings" && |posData[model]| > 0 {
        posSettings := Some(posData[model][0]);
      }
    }

    /** `update_product_data_cache`: the same rules for the product caches. */
    method UpdateProductDataCache(model: string, instance: Option<CachedRow>)
      modifies this`productData
      ensures instance.None? || model !in old(productData) ==> productData == old(productData)
      ensures instance.Some? && model in old(productData) ==>
        productData == old(productData)[model := CacheUpdate(old(productData)[model], instance.value)]
    {
      if instance.None? || model !in productData {
        return;
      }
      var row := instance.value;
      if IsSoftDeleted(row) {
        productData := productData[model := WithoutId(productData[model], row.id)];
        return;
      }
      var index := FindIndex(productData[model], row.id);
      if index.Some? {
        productData := productData[model := productData[model][index.value := row]];
      } else {
        productData := productData[model := productData[model] + [row]];
      }
    }

    /** `refresh_pos_data_model`: the model's list is reloaded; a failed load keeps the old list. */
    method RefreshPosDataModel(model: string, loaded: Option<seq<CachedRow>>)
      modifies this`posData, this`posSettings
      ensures loaded.None? ==> posData == old(posData) && posSettings == old(posSettings)
      ensures loaded.Some? ==> posData == old(posData)[model := loaded.value]
      ensures loaded.Some? ==>
        posSettings == (if model == "PosSettings" then FirstSettings(posData, old(posSettings)) else old(posSettings))
    {
      if loaded.Some? {
        posData := posData[model := loaded.value];
        if model == "PosSettings" && |loaded.value| > 0 {
          posSettings := Some(loaded.value[0]);
        }
      }
    }

    /** `refresh_product_data_model`. */
    method RefreshProductDataModel(model: string, loaded: Option<seq<CachedRow>>)
      modifies this`productData
      ensures loaded.None? ==> productData == old(productData)
      ensures loaded.Some? ==> productData == old(productData)[model := loaded.value]
    {
      if loaded.Some? {
        productData := productData[model := loaded.value];
      }
    }
  }
}
