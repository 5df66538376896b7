/** Per-key roll-ups of the records: the category summary, the supplier
    performance table and the grouping of low-stock records by supplier all
    walk the records once and, for each, create the record's entry if it is
    missing and then fold the record into it. */
module Rollups {
  import opened Wrappers
  import opened Seqs
  import opened Dicts
  import opened Records
  import opened Store

  /** Folds `step` over the records, from the first to the last, starting at `zero`. */
  function Accumulate<V>(s: seq<Product>, zero: V, step: Product -> V -> V): V {
    if s == [] then zero else step(s[|s| - 1])(Accumulate(s[..|s| - 1], zero, step))
  }

  /** One entry per key, in order of first appearance, each holding the fold
      of the records with that key. */
  function KeyedFold<V>(s: seq<Product>, key: Product -> string, zero: V, step: Product -> V -> V)
    : seq<(string, V)>
  {
    if s == [] then []
    else Upsert(KeyedFold(s[..|s| - 1], key, zero, step), key(s[|s| - 1]), zero, step(s[|s| - 1]))
  }

  function KeyMatches(key: Product -> string, k: string): Product -> bool {
    (p: Product) => key(p) == k
  }

  /** The roll-up has one entry per key present in the records, and no other. */
  lemma {:induction false} KeyedFoldKeys<V>(s: seq<Product>, key: Product -> string, zero: V, step: Product -> V -> V)
    ensures DistinctKeys(KeyedFold(s, key, zero, step))
    ensures forall k :: k in Keys(KeyedFold(s, key, zero, step)) <==> exists p :: p in s && key(p) == k
  {
    if s != [] {
      var s', p := s[..|s| - 1], s[|s| - 1];
      assert s == s' + [p];
      KeyedFoldKeys(s', key, zero, step);
      UpsertKeys(KeyedFold(s', key, zero, step), key(p), zero, step(p));
      UpsertDistinct(KeyedFold(s', key, zero, step), key(p), zero, step(p));
      forall k ensures k in Keys(KeyedFold(s, key, zero, step)) <==> exists q :: q in s && key(q) == k {
        if exists q :: q in s && key(q) == k {
          var q :| q in s && key(q) == k;
          assert q in s' || q == p;
        }
      }
    }
  }

  /** The entry for `k` is the fold of exactly the records with key `k`, in
      store order. */
  lemma {:induction false} KeyedFoldEntry<V>(s: seq<Product>, key: Product -> string, zero: V,
                                             step: Product -> V -> V, k: string)
    ensures Lookup(KeyedFold(s, key, zero, step), k).GetOr(zero)
         == Accumulate(Filter(s, KeyMatches(key, k)), zero, step)
  {
    if s != [] {
      var s', p := s[..|s| - 1], s[|s| - 1];
      assert s == s' + [p];
      KeyedFoldEntry(s', key, zero, step, k);
      UpsertLookup(KeyedFold(s', key, zero, step), key(p), zero, step(p), k);
      FilterSnoc(s', p, KeyMatches(key, k));
      var t := Filter(s', KeyMatches(key, k));
      if key(p) == k {
        assert (t + [p])[..|t + [p]| - 1] == t;
      } else {
        assert Filter(s, KeyMatches(key, k)) == t;
      }
    }
  }

  // ----- category summary -----

  datatype CategoryStats = CategoryStats(count: nat, totalQuantity: nat, totalValue: nat) {
    function Plus(o: CategoryStats): CategoryStats {
      CategoryStats(count + o.count, totalQuantity + o.totalQuantity, totalValue + o.totalValue)
    }
  }

  const NoCategoryStats := CategoryStats(0, 0, 0)

  function CategoryKey(p: Product): string { p.category }

  /** `count += 1`, `total_quantity += quantity`, `total_value += quantity * unit_price`. */
  function AddToCategory(p: Product): CategoryStats -> CategoryStats {
    (c: CategoryStats) => c.Plus(CategoryStats(1, p.quantity, Value(p)))
  }

  /** The statistics of a set of records taken as one group. */
  function CategoryStatsOf(s: seq<Product>): CategoryStats {
    CategoryStats(|s|, TotalQuantity(s), TotalValue(s))
  }

  /** Summary keyed by the exact category string, in order of first appearance. */
  function CategorySummary(s: seq<Product>): seq<(string, CategoryStats)> {
    KeyedFold(s, CategoryKey, NoCategoryStats, AddToCategory)
  }

  function SumCategoryStats(d: seq<(string, CategoryStats)>): CategoryStats {
    if d == [] then NoCategoryStats else d[0].1.Plus(SumCategoryStats(d[1..]))
  }

  lemma {:induction false} AccumulateCategory(s: seq<Product>)
    ensures Accumulate(s, NoCategoryStats, AddToCategory) == CategoryStatsOf(s)
  {
    if s != [] {
      AccumulateCategory(s[..|s| - 1]);
    }
  }

  lemma {:induction false} UpsertCategorySum(d: seq<(string, CategoryStats)>, p: Product)
    ensures SumCategoryStats(Upsert(d, p.category, NoCategoryStats, AddToCategory(p)))
         == SumCategoryStats(d).Plus(CategoryStats(1, p.quantity, Value(p)))
  {
    if d != [] && d[0].0 != p.category {
      UpsertCategorySum(d[1..], p);
    } else if d != [] {
      assert Upsert(d, p.category, NoCategoryStats, AddToCategory(p))[1..] == d[1..];
    }
  }

  /** The summary has one entry per category present, and each entry counts
      exactly the records of its category: their number, their total quantity
      and their total value. */
  lemma CategorySummaryEntries(s: seq<Product>, c: string)
    ensures DistinctKeys(CategorySummary(s))
    ensures c in Keys(CategorySummary(s)) <==> exists p :: p in s && p.category == c
    ensures Lookup(CategorySummary(s), c).GetOr(NoCategoryStats)
         == CategoryStatsOf(Filter(s, KeyMatches(CategoryKey, c)))
  {
    KeyedFoldKeys(s, CategoryKey, NoCategoryStats, AddToCategory);
    KeyedFoldEntry(s, CategoryKey, NoCategoryStats, AddToCategory, c);
    AccumulateCategory(Filter(s, KeyMatches(CategoryKey, c)));
  }

  /** Across all categories the counts add up to the number of records, and
      the values to the total inventory value. */
  lemma {:induction false} CategorySummaryTotals(s: seq<Product>)
    ensures SumCategoryStats(CategorySummary(s)) == CategoryStatsOf(s)
  {
    if s != [] {
      var s', p := s[..|s| - 1], s[|s| - 1];
      CategorySummaryTotals(s');
      UpsertCategorySum(CategorySummary(s'), p);
    }
  }

  // ----- supplier performance -----

  datatype SupplierStats = SupplierStats(products: nat, totalQuantity: nat, totalValue: nat, lowStockItems: nat) {
    function Plus(o: SupplierStats): SupplierStats {
      SupplierStats(products + o.products, totalQuantity + o.totalQuantity,
                    totalValue + o.totalValue, lowStockItems + o.lowStockItems)
    }
  }

  const NoSupplierStats := SupplierStats(0, 0, 0, 0)

  function SupplierKey(p: Product): string { p.supplier }

  /** A record's share of its supplier's row; it counts as low stock when at
      or below its reorder level. */
  function AddToSupplier(p: Product): SupplierStats -> SupplierStats {
    (t: SupplierStats) => t.Plus(SupplierStats(1, p.quantity, Value(p), if IsLowStock(p) then 1 else 0))
  }

  function SupplierStatsOf(s: seq<Product>): SupplierStats {
    SupplierStats(|s|, TotalQuantity(s), TotalValue(s), |LowStock(s)|)
  }

  /** Roll-up keyed by the exact supplier string, in order of first appearance. */
  function SupplierSummary(s: seq<Product>): seq<(string, SupplierStats)> {
    KeyedFold(s, SupplierKey, NoSupplierStats, AddToSupplier)
  }

  function SumSupplierStats(d: seq<(string, SupplierStats)>): SupplierStats {
    if d == [] then NoSupplierStats else d[0].1.Plus(SumSupplierStats(d[1..]))
  }

  lemma {:induction false} AccumulateSupplier(s: seq<Product>)
    ensures Accumulate(s, NoSupplierStats, AddToSupplier) == SupplierStatsOf(s)
  {
    if s != [] {
      var s', p := s[..|s| - 1], s[|s| - 1];
      AccumulateSupplier(s');
      assert s == s' + [p];
      FilterSnoc(s', p, IsLowStock);
    }
  }

  lemma {:induction false} UpsertSupplierSum(d: seq<(string, SupplierStats)>, p: Product)
    ensures SumSupplierStats(Upsert(d, p.supplier, NoSupplierStats, AddToSupplier(p)))
         == SumSupplierStats(d).Plus(SupplierStats(1, p.quantity, Value(p), if IsLowStock(p) then 1 else 0))
  {
    if d != [] && d[0].0 != p.supplier {
      UpsertSupplierSum(d[1..], p);
    } else if d != [] {
      assert Upsert(d, p.supplier, NoSupplierStats, AddToSupplier(p))[1..] == d[1..];
    }
  }

  /** Each supplier's row counts exactly that supplier's records, and its
      low-stock count is the number of them at or below their reorder level. */
  lemma SupplierSummaryEntries(s: seq<Product>, x: string)
    ensures DistinctKeys(SupplierSummary(s))
    ensures x in Keys(SupplierSummary(s)) <==> exists p :: p in s && p.supplier == x
    ensures Lookup(SupplierSummary(s), x).GetOr(NoSupplierStats)
         == SupplierStatsOf(Filter(s, KeyMatches(SupplierKey, x)))
  {
    KeyedFoldKeys(s, SupplierKey, NoSupplierStats, AddToSupplier);
    KeyedFoldEntry(s, SupplierKey, NoSupplierStats, AddToSupplier, x);
    AccumulateSupplier(Filter(s, KeyMatches(SupplierKey, x)));
  }

  /** Across all suppliers the product counts add up to the number of records,
      the quantities to the total quantity, the values to the total value and
      the low-stock counts to the number of low-stock records. */
  lemma {:induction false} SupplierSummaryTotals(s: seq<Product>)
    ensures SumSupplierStats(SupplierSummary(s)) == SupplierStatsOf(s)
  {
    if s != [] {
      var s', p := s[..|s| - 1], s[|s| - 1];
      SupplierSummaryTotals(s');
      UpsertSupplierSum(SupplierSummary(s'), p);
      assert s == s' + [p];
      FilterSnoc(s', p, IsLowStock);
    }
  }
}
