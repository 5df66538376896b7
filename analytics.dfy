/** The reports derived from the store: stock-level distribution, ranking by
    value, category analysis, supplier performance and reorder
    recommendations. Each is recomputed from the current records on every
    call; the printing around them is not part of this model. */
module Analytics {
  import opened Wrappers
  import opened Seqs
  import opened Dicts
  import opened Text
  import opened Records
  import opened Store
  import opened Rollups
  import opened InventoryManagement

  // ----- stock-level distribution -----

  datatype StockLevel = Critical | Low | Normal | High

  /** The bucket of one record. Out of stock, or at most a quarter of the
      reorder level (`qty <= reorder * 0.25`, exact here as `4 * qty <= reorder`),
      is critical; then at most the reorder level is low, at most twice it is
      normal, and anything above is high. */
  function Classify(p: Product): StockLevel {
    var qty, reorder := p.quantity, p.reorderLevel;
    if qty == 0 then Critical
    else if 4 * qty <= reorder then Critical
    else if qty <= reorder then Low
    else if qty <= 2 * reorder then Normal
    else High
  }

  function LevelIs(level: StockLevel): Product -> bool {
    (p: Product) => Classify(p) == level
  }

  function Bucket(s: seq<Product>, level: StockLevel): seq<Product> {
    Filter(s, LevelIs(level))
  }

  /** The classification in closed form; a zero reorder level puts every
      record in stock in the high bucket. */
  lemma ClassifyRules(p: Product)
    ensures Classify(p) == Critical <==> p.quantity == 0 || 4 * p.quantity <= p.reorderLevel
    ensures Classify(p) == Low <==> 4 * p.quantity > p.reorderLevel && p.quantity <= p.reorderLevel && p.quantity > 0
    ensures Classify(p) == Normal <==> p.reorderLevel < p.quantity <= 2 * p.reorderLevel
    ensures Classify(p) == High <==> p.quantity > 2 * p.reorderLevel && p.quantity > 0
    ensures p.reorderLevel == 0 ==> (Classify(p) == Critical <==> p.quantity == 0)
    ensures p.reorderLevel == 0 ==> (Classify(p) == High <==> p.quantity > 0)
    ensures Classify(p) in {Critical, Low} <==> IsLowStock(p)
  {
  }

  /** The four buckets partition the records: together they hold every record
      exactly as often as the store does. */
  lemma {:induction false} BucketsPartition(s: seq<Product>)
    ensures multiset(Bucket(s, Critical)) + multiset(Bucket(s, Low))
          + multiset(Bucket(s, Normal)) + multiset(Bucket(s, High)) == multiset(s)
    ensures |Bucket(s, Critical)| + |Bucket(s, Low)| + |Bucket(s, Normal)| + |Bucket(s, High)| == |s|
  {
    if s != [] {
      BucketsPartition(s[1..]);
      assert s == [s[0]] + s[1..];
    }
  }

  /** The critical and low buckets together hold exactly the low-stock records. */
  lemma {:induction false} CriticalAndLowAreLowStock(s: seq<Product>)
    ensures multiset(Bucket(s, Critical)) + multiset(Bucket(s, Low)) == multiset(LowStock(s))
  {
    if s != [] {
      CriticalAndLowAreLowStock(s[1..]);
    }
  }

  // ----- ranking by value -----

  /** A record paired with its inventory value. */
  function WithValues(s: seq<Product>): seq<(Product, int)> {
    seq(|s|, i requires 0 <= i < |s| => (s[i], Value(s[i]) as int))
  }

  function PairValue(e: (Product, int)): int { e.1 }

  /** The first `topN` records by descending value, ties in store order. */
  function TopByValue(s: seq<Product>, topN: int): seq<(Product, int)> {
    TakeFirst(SortDesc(WithValues(s), PairValue), topN)
  }

  /** The ranking is non-increasing in value, holds `min(topN, |s|)` records,
      each with its true value, and a longer ranking extends a shorter one. */
  lemma TopByValueShape(s: seq<Product>, topN: int)
    requires topN >= 0
    ensures |TopByValue(s, topN)| == if topN <= |s| then topN else |s|
    ensures NonIncreasing(TopByValue(s, topN), PairValue)
    ensures forall e :: e in TopByValue(s, topN) ==> e.0 in s && e.1 == Value(e.0)
    ensures TopByValue(s, topN) <= TopByValue(s, topN + 1)
  {
    var ranked := SortDesc(WithValues(s), PairValue);
    SortDescPermutes(WithValues(s), PairValue);
    SortDescSorted(WithValues(s), PairValue);
    forall e | e in TopByValue(s, topN) ensures e.0 in s && e.1 == Value(e.0) {
      assert e in multiset(WithValues(s));
      var i :| 0 <= i < |s| && WithValues(s)[i] == e;
    }
  }

  /** Ties keep store order: the records of any one value appear in the full
      ranking in the order they have in the store. */
  lemma TopByValueStable(s: seq<Product>, v: int)
    ensures Filter(TopByValue(s, |s|), KeyIs(PairValue, v)) == Filter(WithValues(s), KeyIs(PairValue, v))
  {
    var ranked := SortDesc(WithValues(s), PairValue);
    SortDescPermutes(WithValues(s), PairValue);
    assert TopByValue(s, |s|) == ranked[..|ranked|] == ranked;
    SortDescStable(WithValues(s), PairValue, v);
  }

  // ----- category analysis -----

  /** The category table, largest total value first, and the grand totals. */
  datatype CategoryAnalysis = CategoryAnalysis(
    rows: seq<(string, CategoryStats)>,
    totalProducts: nat,
    totalQuantity: nat,
    totalValue: nat)

  function CategoryRowValue(e: (string, CategoryStats)): int { e.1.totalValue }

  function AnalyzeCategories(s: seq<Product>): CategoryAnalysis {
    var summary := CategorySummary(s);
    CategoryAnalysis(SortDesc(summary, CategoryRowValue), |s|, TotalQuantity(s),
                     SumCategoryStats(summary).totalValue)
  }

  /** The rows are the category summary reordered by descending value, and the
      grand total, the sum of the per-category values, is the store's total
      value; the product and quantity totals agree with the rows too. */
  lemma AnalyzeCategoriesConsistent(s: seq<Product>)
    ensures multiset(AnalyzeCategories(s).rows) == multiset(CategorySummary(s))
    ensures NonIncreasing(AnalyzeCategories(s).rows, CategoryRowValue)
    ensures AnalyzeCategories(s).totalValue == TotalValue(s)
    ensures AnalyzeCategories(s).totalProducts == SumCategoryStats(CategorySummary(s)).count
    ensures AnalyzeCategories(s).totalQuantity == SumCategoryStats(CategorySummary(s)).totalQuantity
  {
    SortDescPermutes(CategorySummary(s), CategoryRowValue);
    SortDescSorted(CategorySummary(s), CategoryRowValue);
    CategorySummaryTotals(s);
  }

  // ----- supplier performance -----

  function SupplierRowValue(e: (string, SupplierStats)): int { e.1.totalValue }

  /** The supplier table, largest total value first. */
  function SupplierPerformance(s: seq<Product>): seq<(string, SupplierStats)> {
    SortDesc(SupplierSummary(s), SupplierRowValue)
  }

  /** The table is the supplier roll-up reordered by descending value. */
  lemma SupplierPerformanceOrdered(s: seq<Product>)
    ensures multiset(SupplierPerformance(s)) == multiset(SupplierSummary(s))
    ensures NonIncreasing(SupplierPerformance(s), SupplierRowValue)
  {
    SortDescPermutes(SupplierSummary(s), SupplierRowValue);
    SortDescSorted(SupplierSummary(s), SupplierRowValue);
  }

  // ----- reorder recommendations -----

  /** A low-stock record and how much to order to restock it to twice its
      reorder level. */
  datatype Recommendation = Recommendation(product: Product, orderQuantity: int)

  function Recommend(p: Product): Recommendation {
    Recommendation(p, 2 * p.reorderLevel - p.quantity)
  }

  function AppendTo(p: Product): seq<Product> -> seq<Product> {
    (ps: seq<Product>) => ps + [p]
  }

  /** `by_supplier[product['supplier']].append(product)` over the records. */
  function GroupBySupplier(s: seq<Product>): seq<(string, seq<Product>)> {
    KeyedFold(s, SupplierKey, [], AppendTo)
  }

  function RecommendAll(ps: seq<Product>): seq<Recommendation> {
    seq(|ps|, i requires 0 <= i < |ps| => Recommend(ps[i]))
  }

  function RecommendGroups(g: seq<(string, seq<Product>)>): seq<(string, seq<Recommendation>)> {
    seq(|g|, i requires 0 <= i < |g| => (g[i].0, RecommendAll(g[i].1)))
  }

  /** The low-stock records grouped by supplier, suppliers by ascending name. */
  function Recommendations(s: seq<Product>): seq<(string, seq<Recommendation>)> {
    RecommendGroups(SortByKey(GroupBySupplier(LowStock(s))))
  }

  lemma {:induction false} AccumulateAppend(s: seq<Product>)
    ensures Accumulate(s, [], AppendTo) == s
  {
    if s != [] {
      AccumulateAppend(s[..|s| - 1]);
    }
  }

  /** The recommendations name each supplier of a low-stock record once, in
      ascending order; a supplier's group lists exactly its low-stock records,
      in low-stock order; and every recommended amount is at least the
      reorder level. */
  lemma RecommendationsShape(s: seq<Product>)
    ensures StrictlyAscending(Recommendations(s))
    ensures forall x :: x in Keys(Recommendations(s)) <==> exists p :: p in LowStock(s) && p.supplier == x
    ensures forall i :: 0 <= i < |Recommendations(s)| ==>
              Recommendations(s)[i].1 == RecommendAll(Filter(LowStock(s), KeyMatches(SupplierKey, Recommendations(s)[i].0)))
    ensures forall i, j :: 0 <= i < |Recommendations(s)| && 0 <= j < |Recommendations(s)[i].1| ==>
              Recommendations(s)[i].1[j].orderQuantity >= Recommendations(s)[i].1[j].product.reorderLevel
  {
    RecommendationsKeys(s);
    RecommendationsGroups(s);
    RecommendationsAmounts(s);
  }

  /** The supplier keys of the recommendations: ascending, one per supplier
      of a low-stock record. */
  lemma RecommendationsKeys(s: seq<Product>)
    ensures StrictlyAscending(Recommendations(s))
    ensures forall x :: x in Keys(Recommendations(s)) <==> exists p :: p in LowStock(s) && p.supplier == x
  {
    var low := LowStock(s);
    var groups := GroupBySupplier(low);
    var sorted := SortByKey(groups);
    var r := Recommendations(s);
    assert Keys(r) == Keys(sorted);
    KeyedFoldKeys(low, SupplierKey, [], AppendTo);
    SortedGroupsShape(groups);
    forall i, j | 0 <= i < j < |r| ensures LexLess(r[i].0, r[j].0) {
      assert r[i].0 == Keys(sorted)[i] && r[j].0 == Keys(sorted)[j];
    }
  }

  /** Each supplier's group recommends exactly its low-stock records. */
  lemma RecommendationsGroups(s: seq<Product>)
    ensures forall i :: 0 <= i < |Recommendations(s)| ==>
              Recommendations(s)[i].1 == RecommendAll(Filter(LowStock(s), KeyMatches(SupplierKey, Recommendations(s)[i].0)))
  {
    var low := LowStock(s);
    var groups := GroupBySupplier(low);
    var sorted := SortByKey(groups);
    var r := Recommendations(s);
    KeyedFoldKeys(low, SupplierKey, [], AppendTo);
    SortByKeyPermutes(groups);
    forall i | 0 <= i < |r|
      ensures r[i].1 == RecommendAll(Filter(low, KeyMatches(SupplierKey, r[i].0)))
    {
      var e := sorted[i];
      assert r[i] == (e.0, RecommendAll(e.1));
      assert e in multiset(sorted);
      assert e in groups;
      LookupByMembership(groups, e.0, e.1);
      KeyedFoldEntry(low, SupplierKey, [], AppendTo, e.0);
      AccumulateAppend(Filter(low, KeyMatches(SupplierKey, e.0)));
    }
  }

  /** Every recommended amount is at least the record's reorder level. */
  lemma RecommendationsAmounts(s: seq<Product>)
    ensures forall i, j :: 0 <= i < |Recommendations(s)| && 0 <= j < |Recommendations(s)[i].1| ==>
              Recommendations(s)[i].1[j].orderQuantity >= Recommendations(s)[i].1[j].product.reorderLevel
  {
    var r := Recommendations(s);
    RecommendationsGroups(s);
    forall i, j | 0 <= i < |r| && 0 <= j < |r[i].1|
      ensures r[i].1[j].orderQuantity >= r[i].1[j].product.reorderLevel
    {
      var f := Filter(LowStock(s), KeyMatches(SupplierKey, r[i].0));
      assert r[i].1[j] == Recommend(f[j]);
      assert f[j] in f;
    }
  }

  /** Sorting the groups by supplier keeps exactly the groups and their keys. */
  lemma SortedGroupsShape(groups: seq<(string, seq<Product>)>)
    requires DistinctKeys(groups)
    ensures StrictlyAscending(SortByKey(groups))
    ensures forall x :: x in Keys(SortByKey(groups)) <==> x in Keys(groups)
  {
    SortByKeyPermutes(groups);
    SortByKeySorted(groups);
    KeysOfSubMultiset(SortByKey(groups), groups);
    KeysOfSubMultiset(groups, SortByKey(groups));
  }

  /** Every key of `a` is a key of `b` when `a`'s entries all occur in `b`. */
  lemma KeysOfSubMultiset(a: seq<(string, seq<Product>)>, b: seq<(string, seq<Product>)>)
    requires multiset(a) <= multiset(b)
    ensures forall x :: x in Keys(a) ==> x in Keys(b)
  {
    forall x | x in Keys(a) ensures x in Keys(b) {
      var i :| 0 <= i < |a| && Keys(a)[i] == x;
      assert a[i] in multiset(a);
      assert a[i] in b;
      var j :| 0 <= j < |b| && b[j] == a[i];
      assert Keys(b)[j] == x;
    }
  }

  // ----- the analytics object -----

  class InventoryAnalytics {
    const manager: InventoryManager

    constructor (manager: InventoryManager)
      ensures this.manager == manager
    {
      this.manager := manager;
    }

    /** Sorts every record into the four stock-level buckets, in store order. */
    method StockDistribution() returns (critical: seq<Product>, low: seq<Product>,
                                        normal: seq<Product>, high: seq<Product>)
      ensures critical == Bucket(manager.inventory, Critical)
      ensures low == Bucket(manager.inventory, Low)
      ensures normal == Bucket(manager.inventory, Normal)
      ensures high == Bucket(manager.inventory, High)
    {
      var s := manager.inventory;
      critical, low, normal, high := [], [], [], [];
      for i := 0 to |s|
        invariant critical == Bucket(s[..i], Critical)
        invariant low == Bucket(s[..i], Low)
        invariant normal == Bucket(s[..i], Normal)
        invariant high == Bucket(s[..i], High)
      {
        var p := s[i];
        var qty, reorder := p.quantity, p.reorderLevel;
        assert s[..i + 1] == s[..i] + [p];
        FilterSnoc(s[..i], p, LevelIs(Critical));
        FilterSnoc(s[..i], p, LevelIs(Low));
        FilterSnoc(s[..i], p, LevelIs(Normal));
        FilterSnoc(s[..i], p, LevelIs(High));
        if qty == 0 {
          critical := critical + [p];
        } else if 4 * qty <= reorder {
          critical := critical + [p];
        } else if qty <= reorder {
          low := low + [p];
        } else if qty <= 2 * reorder {
          normal := normal + [p];
        } else {
          high := high + [p];
        }
      }
      assert s[..|s|] == s;
    }

    /** The `topN` most valuable records with their values, as Python's stable
        `sort(reverse=True)` followed by the slice `[:topN]` gives them. */
    method TopProductsByValue(topN: int := 10) returns (top: seq<(Product, int)>)
      ensures top == TopByValue(manager.inventory, topN)
    {
      var s := manager.inventory;
      var productsWithValue: seq<(Product, int)> := [];
      for i := 0 to |s|
        invariant productsWithValue == WithValues(s[..i])
      {
        productsWithValue := productsWithValue + [(s[i], s[i].quantity * s[i].unitPrice)];
      }
      assert s[..|s|] == s;
      var ranked := SortDesc(productsWithValue, PairValue);
      top := TakeFirst(ranked, topN);
    }

    /** The category table by descending value with its grand totals. */
    method CategoryReport() returns (report: CategoryAnalysis)
      ensures report == AnalyzeCategories(manager.inventory)
    {
      var summary := manager.GetCategorySummary();
      var sortedCategories := SortDesc(summary, CategoryRowValue);
      var totalValue := SumCategoryStats(summary).totalValue;
      var totalQuantity := 0;
      for i := 0 to |manager.inventory|
        invariant totalQuantity == TotalQuantity(manager.inventory[..i])
      {
        assert manager.inventory[..i + 1][..i] == manager.inventory[..i];
        totalQuantity := totalQuantity + manager.inventory[i].quantity;
      }
      assert manager.inventory[..|manager.inventory|] == manager.inventory;
      report := CategoryAnalysis(sortedCategories, |manager.inventory|, totalQuantity, totalValue);
    }

    /** Per-supplier products, quantity, value and low-stock count, by
        descending value. */
    method SupplierReport() returns (rows: seq<(string, SupplierStats)>)
      ensures rows == SupplierPerformance(manager.inventory)
    {
      var s := manager.inventory;
      var supplierData: seq<(string, SupplierStats)> := [];
      for i := 0 to |s|
        invariant supplierData == SupplierSummary(s[..i])
      {
        var p := s[i];
        assert s[..i + 1][..i] == s[..i];
        supplierData := Upsert(supplierData, p.supplier, NoSupplierStats, AddToSupplier(p));
      }
      assert s[..|s|] == s;
      rows := SortDesc(supplierData, SupplierRowValue);
    }

    /** The low-stock records grouped by supplier, suppliers in ascending
        order, each with the amount to order. */
    method ReorderRecommendations() returns (groups: seq<(string, seq<Recommendation>)>)
      ensures groups == Recommendations(manager.inventory)
    {
      var lowStock := manager.GetLowStockItems();
      var bySupplier: seq<(string, seq<Product>)> := [];
      for i := 0 to |lowStock|
        invariant bySupplier == GroupBySupplier(lowStock[..i])
      {
        var p := lowStock[i];
        assert lowStock[..i + 1][..i] == lowStock[..i];
        bySupplier := Upsert(bySupplier, p.supplier, [], AppendTo(p));
      }
      assert lowStock[..|lowStock|] == lowStock;
      groups := RecommendGroups(SortByKey(bySupplier));
    }
  }
}

/** A small store worked through by hand: two records, one above and one at
    its reorder level. */
module Scenario {
  import opened Wrappers
  import opened Seqs
  import opened Records
  import opened Store
  import opened Analytics

  const Laptop := Product("P001", "Laptop", "Electronics", 10, 100, 5, "TechCorp", "A1", "2024-01-01")
  const Mouse := Product("P002", "Mouse", "Electronics", 5, 50, 5, "TechCorp", "A2", "2024-01-01")

  /** The total is 1000 + 250; only the record at its reorder level is low;
      taking 10 from a stock of 5 is refused, taking 10 from a stock of 10
      leaves 0, which is critical; adding an id that exists is refused. */
  lemma TwoRecordStore(today: Date)
    ensures TotalValue([Laptop, Mouse]) == 1250
    ensures LowStock([Laptop, Mouse]) == [Mouse]
    ensures AdjustedQuantity([Laptop, Mouse], "P002", -10) == None
    ensures AdjustedQuantity([Laptop, Mouse], "P001", -10) == Some(0)
    ensures Classify(Updated([Laptop, Mouse], "P001", QuantityUpdate(0), today)[0]) == Critical
    ensures AddGuard([Laptop, Mouse], Mouse) == Some(DuplicateId)
  {
    var s := [Laptop, Mouse];
    assert s[..1] == [Laptop] && s[..1][..0] == [];
    assert TotalValue(s[..1]) == 1000;
    assert s[1..] == [Mouse] && s[1..][1..] == [];
    assert Filter(s[1..], IsLowStock) == [Mouse];
    assert IndexOf(s, "P001") == Some(0);
    assert IndexOf(s[1..], "P002") == Some(0);
    assert IndexOf(s, "P002") == Some(1);
  }
}
