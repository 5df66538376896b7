/** The in-memory inventory store: an ordered list of records that the
    mutators change in place and the queries scan. Persistence (the CSV load
    and the save after each mutation) is not part of this model; the records
    a load produces are handed to the constructor. */
module InventoryManagement {
  import opened Wrappers
  import opened Seqs
  import opened Text
  import opened Records
  import opened Store
  import opened Dicts
  import opened Rollups

  class InventoryManager {
    var inventory: seq<Product>

    /** The store as loaded; an absent data file yields an empty list. */
    constructor (loaded: seq<Product>)
      ensures inventory == loaded
    {
      inventory := loaded;
    }

    /** Stamps the record with `today` and appends it; no checks are made here. */
    method AddProduct(p: Product, today: Date)
      modifies this
      ensures inventory == old(inventory) + [p.(lastUpdated := today)]
    {
      inventory := inventory + [p.(lastUpdated := today)];
    }

    /** The add command: refuses a record with an empty field, then one whose
        id is taken, and otherwise adds it. Keeps the ids pairwise distinct. */
    method AddValidated(p: Product, today: Date) returns (r: Option<AddError>)
      modifies this
      ensures r == AddGuard(old(inventory), p)
      ensures r.None? ==> inventory == Added(old(inventory), p, today)
      ensures r.Some? ==> inventory == old(inventory)
      ensures UniqueIds(old(inventory)) ==> UniqueIds(inventory)
    {
      if p.productId == "" || p.productName == "" || p.category == ""
         || p.supplier == "" || p.warehouseLocation == "" {
        return Some(InvalidRecord);
      }
      var existing := GetProduct(p.productId);
      if existing.Some? {
        return Some(DuplicateId);
      }
      ghost var before := inventory;
      AddProduct(p, today);
      r := None;
      if UniqueIds(before) {
        AddKeepsIdsUnique(before, p, today);
      }
    }

    /** The first record with the id, or `None` when no record has it. */
    method GetProduct(id: string) returns (r: Option<Product>)
      ensures r.None? <==> forall i :: 0 <= i < |inventory| ==> inventory[i].productId != id
      ensures r.Some? ==> exists k :: IsFirstMatch(inventory, id, k) && r.value == inventory[k]
    {
      for i := 0 to |inventory|
        invariant forall j :: 0 <= j < i ==> inventory[j].productId != id
      {
        if inventory[i].productId == id {
          assert IsFirstMatch(inventory, id, i);
          return Some(inventory[i]);
        }
      }
      return None;
    }

    /** Merges `u` into the first record with the id and restamps it; reports
        whether such a record exists. */
    method UpdateProduct(id: string, u: Updates, today: Date) returns (ok: bool)
      modifies this
      ensures ok <==> id in Ids(old(inventory))
      ensures inventory == Updated(old(inventory), id, u, today)
      ensures UniqueIds(old(inventory)) ==> UniqueIds(inventory)
    {
      if UniqueIds(inventory) {
        UpdatedKeepsIdsUnique(inventory, id, u, today);
      }
      var i := 0;
      while i < |inventory|
        invariant 0 <= i <= |inventory|
        invariant inventory == old(inventory)
        invariant forall j :: 0 <= j < i ==> inventory[j].productId != id
      {
        if inventory[i].productId == id {
          assert IsFirstMatch(inventory, id, i);
          assert Ids(inventory)[i] == id;
          inventory := inventory[i := ApplyUpdates(inventory[i], u, today)];
          return true;
        }
        i := i + 1;
      }
      assert forall j :: 0 <= j < |inventory| ==> Ids(inventory)[j] != id;
      return false;
    }

    /** Drops every record with the id; reports whether the store shrank. */
    method DeleteProduct(id: string) returns (ok: bool)
      modifies this
      ensures inventory == Deleted(old(inventory), id)
      ensures ok <==> |inventory| < |old(inventory)|
      ensures UniqueIds(old(inventory)) ==> UniqueIds(inventory)
    {
      if UniqueIds(inventory) {
        DeletedKeepsIdsUnique(inventory, id);
      }
      var initialLen := |inventory|;
      inventory := Filter(inventory, IdIsNot(id));
      ok := |inventory| < initialLen;
    }

    /** Adds `change` to the stock of the first record with the id. An unknown
        id, or a change that would leave less than nothing, is refused and
        nothing changes; otherwise the record is updated through
        `UpdateProduct`. */
    method UpdateQuantity(id: string, change: int, today: Date) returns (ok: bool)
      modifies this
      ensures ok <==> AdjustedQuantity(old(inventory), id, change).Some?
      ensures !ok ==> inventory == old(inventory)
      ensures ok ==> inventory == Updated(old(inventory), id,
                                          QuantityUpdate(AdjustedQuantity(old(inventory), id, change).value), today)
      ensures UniqueIds(old(inventory)) ==> UniqueIds(inventory)
    {
      var product := GetProduct(id);
      if product.None? {
        assert IndexOf(inventory, id).None? by {
          forall j | 0 <= j < |inventory| ensures Ids(inventory)[j] != id { }
        }
        return false;
      }
      ghost var k :| IsFirstMatch(inventory, id, k) && product.value == inventory[k];
      FirstMatchIsIndexOf(inventory, id, k);
      var currentQty := product.value.quantity;
      var newQty := currentQty + change;
      if newQty < 0 {
        return false;
      }
      var _ := UpdateProduct(id, QuantityUpdate(newQty), today);
      return true;
    }

    /** The records at or below their reorder level, in store order. */
    method GetLowStockItems() returns (lowStock: seq<Product>)
      ensures lowStock == LowStock(inventory)
    {
      lowStock := [];
      for i := 0 to |inventory|
        invariant lowStock == Filter(inventory[..i], IsLowStock)
      {
        FilterSnoc(inventory[..i], inventory[i], IsLowStock);
        assert inventory[..i + 1] == inventory[..i] + [inventory[i]];
        if inventory[i].quantity <= inventory[i].reorderLevel {
          lowStock := lowStock + [inventory[i]];
        }
      }
      assert inventory[..|inventory|] == inventory;
    }

    /** The records whose category equals the argument, ignoring case. */
    function GetInventoryByCategory(category: string): (r: seq<Product>)
      reads this
      ensures forall p :: p in r <==> p in inventory && Lower(p.category) == Lower(category)
      ensures multiset(r) <= multiset(inventory)
    {
      FilterSubMultiset(inventory, CategoryIs(category));
      ByCategory(inventory, category)
    }

    /** The records whose supplier contains the argument, ignoring case. */
    function GetInventoryBySupplier(supplier: string): (r: seq<Product>)
      reads this
      ensures forall p :: p in r <==> p in inventory && Contains(Lower(p.supplier), Lower(supplier))
      ensures multiset(r) <= multiset(inventory)
    {
      FilterSubMultiset(inventory, SupplierHas(supplier));
      BySupplier(inventory, supplier)
    }

    /** Sum of `quantity * unit_price` over the store, in cents. */
    method GetTotalInventoryValue() returns (total: nat)
      ensures total == TotalValue(inventory)
    {
      total := 0;
      for i := 0 to |inventory|
        invariant total == TotalValue(inventory[..i])
      {
        assert inventory[..i + 1][..i] == inventory[..i];
        total := total + inventory[i].quantity * inventory[i].unitPrice;
      }
      assert inventory[..|inventory|] == inventory;
    }

    /** Count, total quantity and total value per category, keyed by the
        category as stored, in order of first appearance. */
    method GetCategorySummary() returns (summary: seq<(string, CategoryStats)>)
      ensures summary == CategorySummary(inventory)
    {
      summary := [];
      for i := 0 to |inventory|
        invariant summary == CategorySummary(inventory[..i])
      {
        var p := inventory[i];
        assert inventory[..i + 1][..i] == inventory[..i];
        summary := Upsert(summary, p.category, NoCategoryStats, AddToCategory(p));
      }
      assert inventory[..|inventory|] == inventory;
    }

    /** The records whose name or category contains the keyword, ignoring
        case, each once and in store order. */
    method SearchProducts(keyword: string) returns (results: seq<Product>)
      ensures results == Search(inventory, keyword)
    {
      var keywordLower := Lower(keyword);
      results := [];
      for i := 0 to |inventory|
        invariant results == Filter(inventory[..i], Mentions(keyword))
      {
        var p := inventory[i];
        FilterSnoc(inventory[..i], p, Mentions(keyword));
        assert inventory[..i + 1] == inventory[..i] + [p];
        if Contains(Lower(p.productName), keywordLower) || Contains(Lower(p.category), keywordLower) {
          results := results + [p];
        }
      }
      assert inventory[..|inventory|] == inventory;
    }
  }
}
