/** What each operation of the inventory store does to, or reads from, the
    sequence of records, as functions of that sequence; the class in
    inventory_manager.dfy is proved to follow them. */
module Store {
  import opened Wrappers
  import opened Text
  import opened Seqs
  import opened Records

  datatype AddError = InvalidRecord | DuplicateId

  /** The checks made before a product is added: every text field is filled
      in, then the id is not taken yet. */
  function AddGuard(s: seq<Product>, p: Product): Option<AddError> {
    if p.productId == "" || p.productName == "" || p.category == ""
       || p.supplier == "" || p.warehouseLocation == ""
    then Some(InvalidRecord)
    else if IndexOf(s, p.productId).Some? then Some(DuplicateId)
    else None
  }

  /** The store after appending a new record stamped with `today`. */
  function Added(s: seq<Product>, p: Product, today: Date): seq<Product> {
    s + [p.(lastUpdated := today)]
  }

  /** The store after merging `u` into the first record with the id. */
  function Updated(s: seq<Product>, id: string, u: Updates, today: Date): seq<Product> {
    match IndexOf(s, id)
    case None => s
    case Some(k) => s[k := ApplyUpdates(s[k], u, today)]
  }

  /** The store after removing every record with the id. */
  function Deleted(s: seq<Product>, id: string): seq<Product> {
    Filter(s, IdIsNot(id))
  }

  /** The quantity a stock adjustment sets, or `None` when it is refused. */
  function AdjustedQuantity(s: seq<Product>, id: string, change: int): Option<nat> {
    match IndexOf(s, id)
    case None => None
    case Some(k) => if s[k].quantity + change < 0 then None else Some(s[k].quantity + change)
  }

  function LowStock(s: seq<Product>): seq<Product> {
    Filter(s, IsLowStock)
  }

  function ByCategory(s: seq<Product>, category: string): seq<Product> {
    Filter(s, CategoryIs(category))
  }

  function BySupplier(s: seq<Product>, supplier: string): seq<Product> {
    Filter(s, SupplierHas(supplier))
  }

  function Search(s: seq<Product>, keyword: string): seq<Product> {
    Filter(s, Mentions(keyword))
  }

  // ----- adding -----

  /** A record that passes the guard keeps the ids pairwise distinct, and the
      earlier records stay where they were. */
  lemma AddKeepsIdsUnique(s: seq<Product>, p: Product, today: Date)
    requires UniqueIds(s)
    requires AddGuard(s, p).None?
    ensures UniqueIds(Added(s, p, today))
    ensures Added(s, p, today)[..|s|] == s
    ensures Added(s, p, today)[|s|] == p.(lastUpdated := today)
  {
    var r := Added(s, p, today);
    forall i | 0 <= i < |s| ensures r[i].productId != r[|s|].productId {
      assert Ids(s)[i] == s[i].productId;
    }
  }

  /** The guard refuses exactly a complete record whose id is already taken,
      or an incomplete one. */
  lemma AddGuardRefusals(s: seq<Product>, p: Product)
    ensures AddGuard(s, p) == Some(DuplicateId)
        <==> p.productId != "" && p.productName != "" && p.category != ""
             && p.supplier != "" && p.warehouseLocation != ""
             && exists i :: 0 <= i < |s| && s[i].productId == p.productId
    ensures AddGuard(s, p).None? ==> forall i :: 0 <= i < |s| ==> s[i].productId != p.productId
  {
    if exists i :: 0 <= i < |s| && s[i].productId == p.productId {
      var i :| 0 <= i < |s| && s[i].productId == p.productId;
      assert Ids(s)[i] == p.productId;
    }
    forall i | 0 <= i < |s| && AddGuard(s, p).None? ensures s[i].productId != p.productId {
      assert Ids(s)[i] == s[i].productId;
    }
  }

  // ----- updating -----

  /** An update touches only the first record with the id, and there only the
      fields it names and the stamp; without such a record nothing changes. */
  lemma UpdatedEffect(s: seq<Product>, id: string, u: Updates, today: Date)
    ensures |Updated(s, id, u, today)| == |s|
    ensures Ids(Updated(s, id, u, today)) == Ids(s)
    ensures id !in Ids(s) ==> Updated(s, id, u, today) == s
    ensures forall k :: IsFirstMatch(s, id, k) ==>
              Updated(s, id, u, today)[k] == ApplyUpdates(s[k], u, today)
    ensures forall k, j :: IsFirstMatch(s, id, k) && 0 <= j < |s| && j != k ==>
              Updated(s, id, u, today)[j] == s[j]
  {
    var r := Updated(s, id, u, today);
    match IndexOf(s, id)
    case None =>
    case Some(k) =>
      assert Ids(r) == Ids(s) by {
        forall i | 0 <= i < |s| ensures Ids(r)[i] == Ids(s)[i] {
        }
      }
  }

  /** Updates never change an id, so they keep the ids pairwise distinct. */
  lemma UpdatedKeepsIdsUnique(s: seq<Product>, id: string, u: Updates, today: Date)
    requires UniqueIds(s)
    ensures UniqueIds(Updated(s, id, u, today))
  {
    UpdatedEffect(s, id, u, today);
    var r := Updated(s, id, u, today);
    forall i, j | 0 <= i < j < |r| ensures r[i].productId != r[j].productId {
      assert Ids(r)[i] == Ids(s)[i] && Ids(r)[j] == Ids(s)[j];
    }
  }

  // ----- deleting -----

  /** Deleting removes exactly the records with the id and keeps the others;
      the store shrinks exactly when the id was present. */
  lemma DeletedEffect(s: seq<Product>, id: string)
    ensures forall p :: p in Deleted(s, id) <==> p in s && p.productId != id
    ensures id !in Ids(Deleted(s, id))
    ensures |Deleted(s, id)| < |s| <==> id in Ids(s)
    ensures id !in Ids(s) ==> Deleted(s, id) == s
  {
    DeletedShrinks(s, id);
    if id !in Ids(s) {
      forall p | p in s ensures IdIsNot(id)(p) {
        var i :| 0 <= i < |s| && s[i] == p;
        assert Ids(s)[i] == p.productId;
      }
      FilterAll(s, IdIsNot(id));
    }
  }

  lemma {:induction false} DeletedShrinks(s: seq<Product>, id: string)
    ensures |Deleted(s, id)| < |s| <==> id in Ids(s)
  {
    if s != [] {
      DeletedShrinks(s[1..], id);
      assert Ids(s) == [s[0].productId] + Ids(s[1..]);
    }
  }

  /** Deleting distributes over concatenation, so the survivors keep their order. */
  lemma DeletedKeepsOrder(a: seq<Product>, b: seq<Product>, id: string)
    ensures Deleted(a + b, id) == Deleted(a, id) + Deleted(b, id)
  {
    FilterAppend(a, b, IdIsNot(id));
  }

  /** With distinct ids, deleting a present id removes exactly one record. */
  lemma {:induction false} DeletedRemovesOne(s: seq<Product>, id: string)
    requires UniqueIds(s)
    requires id in Ids(s)
    ensures |Deleted(s, id)| == |s| - 1
  {
    assert s != [];
    if s[0].productId == id {
      assert id !in Ids(s[1..]) by {
        forall i | 0 <= i < |s| - 1 ensures Ids(s[1..])[i] != id {
          assert s[1..][i] == s[i + 1];
        }
      }
      DeletedEffect(s[1..], id);
    } else {
      assert Ids(s) == [s[0].productId] + Ids(s[1..]);
      DeletedRemovesOne(s[1..], id);
    }
  }

  /** Deleting keeps the ids pairwise distinct. */
  lemma {:induction false} DeletedKeepsIdsUnique(s: seq<Product>, id: string)
    requires UniqueIds(s)
    ensures UniqueIds(Deleted(s, id))
  {
    if s != [] {
      DeletedKeepsIdsUnique(s[1..], id);
      var rest := Deleted(s[1..], id);
      if s[0].productId != id {
        forall q | q in rest ensures q.productId != s[0].productId {
          var j :| 0 <= j < |s[1..]| && s[1..][j] == q;
          assert s[j + 1] == q;
        }
        var r := [s[0]] + rest;
        forall i, j | 0 <= i < j < |r| ensures r[i].productId != r[j].productId {
          if i == 0 {
            assert r[j] in rest;
          } else {
            assert r[i] == rest[i - 1] && r[j] == rest[j - 1];
          }
        }
      }
    }
  }

  // ----- adjusting stock -----

  /** A stock adjustment is refused exactly for an unknown id or a change that
      would take the quantity below zero; otherwise it sets the current
      quantity plus the change on the first record with the id, restamped,
      and leaves everything else alone. */
  lemma AdjustedQuantityEffect(s: seq<Product>, id: string, change: int, today: Date)
    ensures AdjustedQuantity(s, id, change).None?
        <==> (forall k :: 0 <= k < |s| ==> s[k].productId != id)
             || exists k :: IsFirstMatch(s, id, k) && s[k].quantity + change < 0
    ensures forall k, q :: IsFirstMatch(s, id, k) && AdjustedQuantity(s, id, change) == Some(q) ==>
              q == s[k].quantity + change
              && Updated(s, id, QuantityUpdate(q), today)[k] == s[k].(quantity := q, lastUpdated := today)
  {
    match IndexOf(s, id)
    case None =>
      forall k | 0 <= k < |s| ensures s[k].productId != id {
        assert Ids(s)[k] == s[k].productId;
      }
    case Some(k) =>
      assert id in Ids(s);
  }

  // ----- queries -----

  /** A record sitting exactly at its reorder level counts as low stock. */
  lemma LowStockInclusive(s: seq<Product>, p: Product)
    requires p in s && p.quantity == p.reorderLevel
    ensures p in LowStock(s)
  {
  }

  /** The category filter does not care how the argument is capitalised. */
  lemma ByCategoryIgnoresCase(s: seq<Product>, category: string)
    ensures ByCategory(s, category) == ByCategory(s, Lower(category))
  {
    LowerIdempotent(category);
    FilterCongruent(s, CategoryIs(category), CategoryIs(Lower(category)));
  }

  /** The supplier filter does not care how the argument is capitalised, and
      an empty argument selects every record. */
  lemma BySupplierEdgeCases(s: seq<Product>, supplier: string)
    ensures BySupplier(s, supplier) == BySupplier(s, Lower(supplier))
    ensures BySupplier(s, "") == s
  {
    LowerIdempotent(supplier);
    FilterCongruent(s, SupplierHas(supplier), SupplierHas(Lower(supplier)));
    forall p | p in s ensures SupplierHas("")(p) {
      ContainsSelfAndEmpty(Lower(p.supplier));
    }
    FilterAll(s, SupplierHas(""));
  }

  lemma {:induction false} FilterAll(s: seq<Product>, f: Product -> bool)
    requires forall p :: p in s ==> f(p)
    ensures Filter(s, f) == s
  {
    if s != [] {
      FilterAll(s[1..], f);
    }
  }

  /** A search for a category name finds every record of that category, and
      the search returns each stored record at most as often as it is stored. */
  lemma SearchCoversCategory(s: seq<Product>, category: string)
    ensures forall p :: p in ByCategory(s, category) ==> p in Search(s, category)
    ensures multiset(Search(s, category)) <= multiset(s)
  {
    forall p | p in ByCategory(s, category) ensures p in Search(s, category) {
      ContainsSelfAndEmpty(Lower(p.category));
    }
    FilterSubMultiset(s, Mentions(category));
  }
}
