/** The inventory record and the per-record facts every view is built from. */
module Records {
  import opened Wrappers
  import opened Text

  /** The `%Y-%m-%d` stamp the caller supplies in place of `datetime.now()`. */
  type Date = string

  /** One row of the warehouse inventory. Prices are whole cents. */
  datatype Product = Product(
    productId: string,
    productName: string,
    category: string,
    quantity: nat,
    unitPrice: nat,
    reorderLevel: nat,
    supplier: string,
    warehouseLocation: string,
    lastUpdated: Date)

  /** The fields an update may replace; `None` leaves a field as it is. */
  datatype Updates = Updates(
    productName: Option<string>,
    category: Option<string>,
    quantity: Option<nat>,
    unitPrice: Option<nat>,
    reorderLevel: Option<nat>,
    supplier: Option<string>,
    warehouseLocation: Option<string>)

  const NoUpdates := Updates(None, None, None, None, None, None, None)

  /** The update that only sets the quantity, as a stock adjustment issues it. */
  function QuantityUpdate(q: nat): Updates {
    NoUpdates.(quantity := Some(q))
  }

  /** `product.update(updates)` followed by restamping `last_updated`. */
  function ApplyUpdates(p: Product, u: Updates, today: Date): Product {
    p.(productName := u.productName.GetOr(p.productName),
       category := u.category.GetOr(p.category),
       quantity := u.quantity.GetOr(p.quantity),
       unitPrice := u.unitPrice.GetOr(p.unitPrice),
       reorderLevel := u.reorderLevel.GetOr(p.reorderLevel),
       supplier := u.supplier.GetOr(p.supplier),
       warehouseLocation := u.warehouseLocation.GetOr(p.warehouseLocation),
       lastUpdated := today)
  }

  /** Applying the same update twice on the same day is applying it once. */
  lemma ApplyUpdatesIdempotent(p: Product, u: Updates, today: Date)
    ensures ApplyUpdates(ApplyUpdates(p, u, today), u, today) == ApplyUpdates(p, u, today)
  {
  }

  /** An update never changes the id, and an update naming no field only restamps. */
  lemma ApplyUpdatesFrame(p: Product, u: Updates, today: Date)
    ensures ApplyUpdates(p, u, today).productId == p.productId
    ensures ApplyUpdates(p, u, today).lastUpdated == today
    ensures ApplyUpdates(p, NoUpdates, today) == p.(lastUpdated := today)
  {
  }

  /** Inventory value of one record, `quantity * unit_price`, in cents. */
  function Value(p: Product): nat {
    p.quantity * p.unitPrice
  }

  /** At or below the reorder level: the threshold is inclusive. */
  predicate IsLowStock(p: Product) {
    p.quantity <= p.reorderLevel
  }

  /** The ids of the records, in store order. */
  function Ids(s: seq<Product>): (r: seq<string>)
    ensures |r| == |s|
    ensures forall i :: 0 <= i < |s| ==> r[i] == s[i].productId
  {
    if s == [] then [] else [s[0].productId] + Ids(s[1..])
  }

  predicate UniqueIds(s: seq<Product>) {
    forall i, j :: 0 <= i < j < |s| ==> s[i].productId != s[j].productId
  }

  /** Position `k` holds the first record with the given id. */
  predicate IsFirstMatch(s: seq<Product>, id: string, k: int) {
    0 <= k < |s| && s[k].productId == id && forall j :: 0 <= j < k ==> s[j].productId != id
  }

  /** Position of the first record with the given id. */
  function IndexOf(s: seq<Product>, id: string): (r: Option<nat>)
    ensures r.None? <==> id !in Ids(s)
    ensures r.Some? ==> IsFirstMatch(s, id, r.value)
  {
    if s == [] then None
    else if s[0].productId == id then Some(0)
    else match IndexOf(s[1..], id)
      case None => None
      case Some(k) => Some(k + 1)
  }

  /** The first match is the one `IndexOf` finds. */
  lemma FirstMatchIsIndexOf(s: seq<Product>, id: string, k: int)
    requires IsFirstMatch(s, id, k)
    ensures IndexOf(s, id) == Some(k)
  {
    assert Ids(s)[k] == id;
  }

  /** Case-insensitive exact match on the category. */
  function CategoryIs(category: string): Product -> bool {
    (p: Product) => Lower(p.category) == Lower(category)
  }

  /** Case-insensitive substring match on the supplier. */
  function SupplierHas(supplier: string): Product -> bool {
    (p: Product) => Contains(Lower(p.supplier), Lower(supplier))
  }

  /** Case-insensitive substring match on the name or the category. */
  function Mentions(keyword: string): Product -> bool {
    (p: Product) => Contains(Lower(p.productName), Lower(keyword)) || Contains(Lower(p.category), Lower(keyword))
  }

  function IdIsNot(id: string): Product -> bool {
    (p: Product) => p.productId != id
  }

  /** Sum of `quantity * unit_price` over the records, in order. */
  function TotalValue(s: seq<Product>): nat {
    if s == [] then 0 else TotalValue(s[..|s| - 1]) + Value(s[|s| - 1])
  }

  function TotalQuantity(s: seq<Product>): nat {
    if s == [] then 0 else TotalQuantity(s[..|s| - 1]) + s[|s| - 1].quantity
  }
}
