# Warehouse inventory store, modelled in Dafny

This project models the core of a small warehouse inventory tool: the
in-memory record store kept by `InventoryManager` and the reports that
`InventoryAnalytics` derives from it.

The store is an ordered list of inventory records. Each record has an id,
name, category, quantity, unit price, reorder level, supplier, warehouse
location and a last-updated date. The operations are:

- add a record, refused when a field is empty or the id is taken;
- look a record up by id;
- merge an update into a record;
- delete by id;
- adjust a quantity, refused when it would go below zero;
- filter by low stock, by category (case-insensitive exact match) and by
  supplier (case-insensitive substring match);
- keyword search over name and category;
- total value and the per-category summary.

The analytics add:

- the four-bucket stock-level distribution;
- the ranking of records by value;
- the category analysis with its grand totals;
- the supplier performance table;
- reorder recommendations grouped by supplier.

Layout:

- `wrappers.dfy` (`Wrappers`): `Option` and `Result`.
- `seqs.dfy` (`Seqs`): order-preserving `Filter`, Python's `[:n]` slice
  (`TakeFirst`) and the stable descending sort (`SortDesc`). The sort comes
  with proofs that it is a permutation, is non-increasing and is stable.
- `text.dfy` (`Text`): `Lower` (ASCII `str.lower()`), `Contains` (Python's
  `needle in haystack`) and `LexLess` (Python's string `<`).
- `dicts.dfy` (`Dicts`): Python's insertion-ordered `dict` as an association
  list. `Upsert` is "create the entry if missing, then update it".
  `SortByKey` is `sorted(d.items())`.
- `records.dfy` (`Records`): the `Product` record, partial `Updates`,
  `IndexOf` (the first record with an id) and the per-record predicates.
- `store.dfy` (`Store`): each store operation as a function of the record
  list, with lemmas about it.
- `rollups.dfy` (`Rollups`): the keyed roll-ups. These are the category
  summary, the supplier performance data and the grouping of low-stock
  records by supplier.
- `inventory_manager.dfy` (`InventoryManagement`): the class
  `InventoryManager`. Its field `inventory: seq<Product>` is updated in place
  by the mutators. Its loops are proved against the `Store` and `Rollups`
  functions.
- `analytics.dfy` (`Analytics`, `Scenario`): the class `InventoryAnalytics`,
  the report functions and their lemmas, plus one worked two-record example.

Modelling choices:

- Records are typed. Quantities and reorder levels are `nat`.
- Unit prices and values are whole cents (`nat`). Python uses `float` here.
- The date that `datetime.now()` would produce is a parameter `today`.
- Dictionaries that the code builds and then iterates or sorts are
  association lists in insertion order. This is the order Python's `dict`
  keeps, and `sorted` breaks ties by it.

The model follows what the code does:

- `update_quantity`, `update_product` and `delete_product` return a boolean,
  not a typed error. `UpdateQuantity` therefore returns `false` both for an
  unknown id and for a change that would go negative.
- The add checks live in the command-line handler (cli.py:113-120), not in
  `add_product`. `AddProduct` is the unchecked append. `AddValidated` runs
  the handler's two checks in the handler's order, then appends.
- The add handler requires every field to be non-empty, including the
  warehouse location.
- Category summary and supplier keys are the exact stored strings. Only the
  category filter, the supplier filter and the keyword search ignore case.

## Model

| member | source | states |
|---|---|---|
| `InventoryManagement.InventoryManager.constructor` | inventory_manager.py:16-25 | the store starts as the list of loaded records (empty when no data file exists) |
| `InventoryManagement.InventoryManager.AddProduct` | inventory_manager.py:61-71 | the record, stamped with today's date, is appended after all earlier records, which stay unchanged |
| `InventoryManagement.InventoryManager.AddValidated` | cli.py:113-120 | an empty field gives InvalidRecord, then a taken id gives DuplicateId, both leaving the store unchanged; otherwise the stamped record is appended and ids stay pairwise distinct |
| `Store.AddKeepsIdsUnique` | cli.py:118-120 | a record passing the add checks keeps ids pairwise distinct; the earlier records are a prefix of the new store and the last record is the stamped new one |
| `Store.AddGuardRefusals` | cli.py:113-120 | DuplicateId is reported exactly for a complete record whose id some stored record already has; a record that passes has an id no stored record has |
| `InventoryManagement.InventoryManager.GetProduct` | inventory_manager.py:83-86 | returns the first record with the id, and None exactly when no record has it |
| `Records.IndexOf` | inventory_manager.py:83-86 | yields None exactly when the id is absent, otherwise the position of the first record with the id |
| `InventoryManagement.InventoryManager.UpdateProduct` | inventory_manager.py:96-104 | returns true exactly when the id is present; the new store is the old one with the update merged into the first match; distinct ids stay distinct |
| `Store.UpdatedEffect` | inventory_manager.py:96-104 | only the first record with the id changes, to the merged and restamped record; other records and the ids stay as they were; an unknown id changes nothing |
| `Store.UpdatedKeepsIdsUnique` | inventory_manager.py:96-99 | an update keeps ids pairwise distinct |
| `Records.ApplyUpdatesIdempotent` | inventory_manager.py:98-99 | merging the same update twice on the same day equals merging it once |
| `Records.ApplyUpdatesFrame` | inventory_manager.py:98-99 | a merge keeps the id and sets last_updated to today; an update naming no field only restamps |
| `InventoryManagement.InventoryManager.DeleteProduct` | inventory_manager.py:113-122 | the store becomes the records without the id; true is returned exactly when the store shrank; distinct ids stay distinct |
| `Store.DeletedEffect` | inventory_manager.py:113-122 | a record survives exactly when its id differs; no survivor has the id; the store shrinks exactly when the id was present; an absent id changes nothing |
| `Store.DeletedKeepsOrder` | inventory_manager.py:114 | deletion distributes over concatenation, so survivors keep their relative order |
| `Store.DeletedKeepsIdsUnique` | inventory_manager.py:114 | deleting keeps ids pairwise distinct |
| `Store.DeletedRemovesOne` | inventory_manager.py:113-116 | with distinct ids, deleting a present id removes exactly one record |
| `InventoryManagement.InventoryManager.UpdateQuantity` | inventory_manager.py:132-144 | refused (false, store unchanged) for an unknown id or when current + change < 0; otherwise the first match gets quantity current + change through the update path; distinct ids stay distinct |
| `Store.AdjustedQuantityEffect` | inventory_manager.py:132-141 | refusal happens exactly for an unknown id or a negative result; an accepted change sets current + change on the first match, restamped, other fields unchanged |
| `InventoryManagement.InventoryManager.GetLowStockItems` | inventory_manager.py:153-157 | returns exactly the records with quantity <= reorder level, in store order |
| `Store.LowStockInclusive` | inventory_manager.py:155 | a record exactly at its reorder level is low stock |
| `InventoryManagement.InventoryManager.GetInventoryByCategory` | inventory_manager.py:169 | returns exactly the stored records whose lower-cased category equals the lower-cased argument, none more often than stored |
| `Store.ByCategoryIgnoresCase` | inventory_manager.py:169 | the category filter gives the same list for an argument and its lower-cased form |
| `InventoryManagement.InventoryManager.GetInventoryBySupplier` | inventory_manager.py:181 | returns exactly the stored records whose lower-cased supplier contains the lower-cased argument, none more often than stored |
| `Store.BySupplierEdgeCases` | inventory_manager.py:181 | the supplier filter ignores the argument's case, and an empty argument returns the whole store |
| `InventoryManagement.InventoryManager.SearchProducts` | inventory_manager.py:230-236 | returns the records whose lower-cased name or category contains the lower-cased keyword, in store order |
| `Store.SearchCoversCategory` | inventory_manager.py:230-236 | searching for a category name finds every record of that category; each record appears at most as often as it is stored |
| `InventoryManagement.InventoryManager.GetTotalInventoryValue` | inventory_manager.py:190-195 | returns the sum of quantity * unit price over the store |
| `InventoryManagement.InventoryManager.GetCategorySummary` | inventory_manager.py:204-218 | returns the category roll-up of the current records |
| `Rollups.CategorySummaryEntries` | inventory_manager.py:204-216 | one entry per category present and none other; each entry's count, total quantity and total value are those of exactly that category's records |
| `Rollups.CategorySummaryTotals` | inventory_manager.py:204-218 | the counts sum to the number of records, the quantities to the total quantity, and the values to the total inventory value |
| `Rollups.KeyedFoldKeys` | analytics.py:129-146 | a roll-up has distinct keys, exactly the keys present in the records |
| `Rollups.KeyedFoldEntry` | analytics.py:136-146 | each key's entry is the fold of exactly the records with that key, in store order |
| `Analytics.InventoryAnalytics.StockDistribution` | analytics.py:36-49 | returns the critical, low, normal and high buckets of the current records, each in store order |
| `Analytics.ClassifyRules` | analytics.py:40-49 | critical iff qty = 0 or 4*qty <= reorder; low iff neither and qty <= reorder; normal iff reorder < qty <= 2*reorder; high otherwise; with reorder 0 only qty 0 is critical and every qty > 0 is high; critical or low iff low stock |
| `Analytics.BucketsPartition` | analytics.py:36-49 | the four buckets together hold every record exactly as often as the store does |
| `Analytics.CriticalAndLowAreLowStock` | analytics.py:40-45 | critical plus low is exactly the low-stock list as a multiset |
| `Analytics.InventoryAnalytics.TopProductsByValue` | analytics.py:63-88 | returns the store's records paired with their values, stably sorted by descending value and cut to the first top_n, which defaults to 10 |
| `Analytics.TopByValueShape` | analytics.py:75-88 | for top_n >= 0 the ranking has min(top_n, n) entries, is non-increasing in value, pairs stored records with their true values, and is a prefix of the top_n + 1 ranking |
| `Analytics.TopByValueStable` | analytics.py:83 | records of equal value keep their store order in the ranking |
| `Seqs.SortDescPermutes` | analytics.py:83 | the stable descending sort rearranges the elements without adding or dropping any |
| `Seqs.SortDescSorted` | analytics.py:83 | the sort's result is non-increasing in the key |
| `Seqs.SortDescStable` | analytics.py:83 | elements with equal keys keep their input order |
| `Seqs.TakeFirst` | analytics.py:88 | Python's [:n]: min(n, length) elements for n >= 0, length + n clamped at 0 for negative n, always a prefix |
| `Seqs.Filter` | inventory_manager.py:169 | a list comprehension keeps exactly the elements satisfying the condition, never more of them than the input |
| `Seqs.FilterAppend` | inventory_manager.py:114 | filtering distributes over concatenation, so relative order is preserved |
| `Seqs.FilterSubMultiset` | inventory_manager.py:230-236 | a filter yields each element at most as often as the input holds it |
| `Analytics.InventoryAnalytics.CategoryReport` | analytics.py:100-120 | returns the category rows sorted by descending total value, with the record count, total quantity and grand total value |
| `Analytics.AnalyzeCategoriesConsistent` | analytics.py:100-120 | the rows are the category summary, reordered non-increasingly by value; the grand total (sum of the per-category values) equals the store's total value; product and quantity totals equal the rows' sums |
| `Analytics.InventoryAnalytics.SupplierReport` | analytics.py:129-151 | returns the supplier roll-up of the current records sorted by descending total value |
| `Rollups.SupplierSummaryEntries` | analytics.py:136-146 | one row per supplier present; each row's products, quantity and value are those of that supplier's records, and its low-stock count is how many of them are at or below reorder level |
| `Rollups.SupplierSummaryTotals` | analytics.py:136-146 | products sum to the record count, quantities to the total quantity, values to the total value, low-stock counts to the number of low-stock records |
| `Analytics.SupplierPerformanceOrdered` | analytics.py:149-151 | the table is the supplier roll-up reordered non-increasingly by total value |
| `Analytics.InventoryAnalytics.ReorderRecommendations` | analytics.py:168-192 | returns the low-stock records grouped by supplier, suppliers sorted by name, each with 2*reorder - qty to order |
| `Analytics.RecommendationsShape` | analytics.py:168-192 | suppliers are strictly ascending and are exactly the suppliers of low-stock records; each group is that supplier's low-stock records in low-stock order; every recommended amount is at least the reorder level |
| `Dicts.UpsertKeys` | analytics.py:141-146 | updating a defaultdict keeps the key order and appends a key only when it is new |
| `Dicts.UpsertLookup` | analytics.py:141-146 | updating a defaultdict entry applies the change to that key's value (or the default) and leaves other keys alone |
| `Dicts.SortByKeySorted` | analytics.py:182 | sorted(d.items()) over distinct string keys is strictly ascending by key |
| `Dicts.SortByKeyPermutes` | analytics.py:182 | sorted(d.items()) keeps exactly the dictionary's entries |
| `Text.Lower` | inventory_manager.py:169 | the result has the input's length, contains no upper-case ASCII letter, and keeps every other character unchanged |
| `Text.LowerIdempotent` | inventory_manager.py:169 | lower-casing twice equals lower-casing once |
| `Text.ContainsAtOffset` | inventory_manager.py:181 | the substring test holds exactly when the needle occurs at some offset of the haystack |
| `Text.ContainsSelfAndEmpty` | inventory_manager.py:233-234 | every string contains itself and the empty string |
| `Text.LexLessTransitive` | analytics.py:182 | Python's string order is transitive |
| `Text.LexLessTotal` | analytics.py:182 | two different strings are ordered one way or the other |
| `Text.LexLessIrreflexive` | analytics.py:182 | no string is less than itself |
| `Scenario.TwoRecordStore` | inventory_manager.py:124-157 | on a two-record store the total is 1250, only the record at its reorder level is low, a change to below zero is refused, a change to exactly zero is accepted and classed critical, and a taken id is refused |

## Left out

- CSV load and save (inventory_manager.py:27-59) and the save after each
  mutation are file I/O. The constructor receives the loaded records. Save
  skips an empty store (inventory_manager.py:44-46). That affects only the
  file, so the model does not show it.
- `display_product`, `display_summary` and all printing and formatting in the
  `show_*` reports are console output. So is the percentage column of the
  category analysis, which is float division (analytics.py:113).
- The export functions (analytics.py:196-256) write files and read the clock.
- `datetime.now()` (inventory_manager.py:68, 99) is the caller-supplied
  `today` parameter.
- Prices are whole cents and values are exact integers. Python uses `float`
  and can round. The test `qty <= reorder * 0.25` is the exact `4 * qty <=
  reorder`.
- The source keeps every field as a string and parses it with `int()` or
  `float()` on each use. The model's fields are typed, so a malformed number
  cannot be stored. The source raises `ValueError` later for one.
- Negative numbers cannot be stored in the model: `quantity`,
  `reorderLevel` and `unitPrice` are `nat`. In the source, only
  `update_quantity` refuses a negative quantity. The add handler only checks
  that fields are non-empty (cli.py:113), and the update form copies any
  string into quantity, unit price and reorder level (cli.py:142-148).
- `Analytics.CriticalAndLowAreLowStock` and the "critical or low exactly
  when low stock" part of `Analytics.ClassifyRules` rely on `reorderLevel`
  being a `nat`. With a reorder level of -1 the source puts a record with
  quantity 0 in the critical bucket but not in the low-stock list, and
  every record with stock in the high bucket.
- `Updates` covers the seven fields the update form offers (cli.py:142-148).
  `product.update` accepts arbitrary keys, including `product_id`. An update
  that renames a record or adds unknown keys is not modelled.
- Python returns the stored dictionaries themselves, so a caller that mutates
  a returned record mutates the store. `add_product` likewise stores the
  caller's own dictionary. Records here are values, so this aliasing is not
  captured.
- `Text.Lower` lower-cases ASCII letters only. Python's `str.lower()`
  follows Unicode.
- The interactive menu and dispatch (cli.py) and the demo script are not part
  of this model. Only the add checks (cli.py:113-120) are.
