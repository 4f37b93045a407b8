/**
 * The stock screens (the inventory page, and the inventory management
 * component that repeats its logic): stock classification, summary counts,
 * the name/sku filter, ten-per-page pagination and the stock-adjustment
 * dialog's validation.
 */
module Inventory {
  import opened Wrappers
  import opened Entities
  import opened Text
  import Seqs

  // ------------------------------------------------------------------ stock status

  /** `product.inventory?.[0]?.quantity || 0`. */
  function Stock(p: Product): int {
    if |p.inventory| > 0 && p.inventory[0].quantity.Some? then p.inventory[0].quantity.value else 0
  }

  /** `stock <= product.min_stock_level`; an undefined level compares false. */
  predicate AtOrBelowMin(stock: int, minLevel: Option<int>) {
    minLevel.Some? && stock <= minLevel.value
  }

  datatype StockStatus = OutOfStock | LowStock | InStock

  function Label(s: StockStatus): string {
    match s
    case OutOfStock => "Out of Stock"
    case LowStock => "Low Stock"
    case InStock => "In Stock"
  }

  /** `getStockStatus(product)`: zero first, then the minimum level. */
  function GetStockStatus(p: Product): (r: StockStatus)
    ensures r == OutOfStock <==> Stock(p) == 0
    ensures r == LowStock <==> Stock(p) != 0 && AtOrBelowMin(Stock(p), p.minStockLevel)
    ensures r == InStock <==> Stock(p) != 0 && !AtOrBelowMin(Stock(p), p.minStockLevel)
  {
    var stock := Stock(p);
    if stock == 0 then OutOfStock
    else if AtOrBelowMin(stock, p.minStockLevel) then LowStock
    else InStock
  }

  datatype Summary = Summary(total: nat, lowStock: nat, outOfStock: nat)

  predicate CountedLow(p: Product) { Stock(p) > 0 && AtOrBelowMin(Stock(p), p.minStockLevel) }
  predicate CountedOut(p: Product) { Stock(p) == 0 }

  /** `summaryStats`. */
  function SummaryStats(products: seq<Product>): Summary {
    Summary(|products|, Seqs.Count(products, CountedLow), Seqs.Count(products, CountedOut))
  }

  predicate HasStatus(s: StockStatus, p: Product) { GetStockStatus(p) == s }

  /**
   * With no negative stock, the summary's low-stock and out-of-stock counts
   * are the numbers of rows labelled 'Low Stock' and 'Out of Stock'.
   */
  lemma SummaryAgreesWithStatus(products: seq<Product>)
    requires forall i :: 0 <= i < |products| ==> Stock(products[i]) >= 0
    ensures SummaryStats(products).lowStock == Seqs.Count(products, (p: Product) => HasStatus(LowStock, p))
    ensures SummaryStats(products).outOfStock == Seqs.Count(products, (p: Product) => HasStatus(OutOfStock, p))
  {
    Seqs.FilterCongruent(products, CountedLow, (p: Product) => HasStatus(LowStock, p));
    Seqs.FilterCongruent(products, CountedOut, (p: Product) => HasStatus(OutOfStock, p));
  }

  /** A negative stock is labelled 'Low Stock' (given a level) but is not counted as low. */
  lemma NegativeStockNotCounted(p: Product)
    requires Stock(p) < 0 && p.minStockLevel.Some? && p.minStockLevel.value >= 0
    ensures GetStockStatus(p) == LowStock && !CountedLow(p) && !CountedOut(p)
  {
  }

  // ------------------------------------------------------------------ filter

  predicate NameOrSkuMatch(query: string, p: Product) {
    Includes(ToLower(p.name), ToLower(query)) || Includes(ToLower(p.sku), ToLower(query))
  }

  datatype Listing = Listing(filtered: seq<Product>, page: int)

  /** `applyFilters()`: an empty query keeps everything; the page always returns to 1. */
  function ApplyFilters(products: seq<Product>, query: string): Listing {
    var filtered := if query != "" then Seqs.Filter(products, (p: Product) => NameOrSkuMatch(query, p)) else products;
    Listing(filtered, 1)
  }

  /** The listing holds exactly the products whose name or sku contains the query, ignoring case, on page 1. */
  lemma ApplyFiltersSpec(products: seq<Product>, query: string, p: Product)
    ensures ApplyFilters(products, query).page == 1
    ensures p in ApplyFilters(products, query).filtered <==> p in products && (query == "" || NameOrSkuMatch(query, p))
    ensures |ApplyFilters(products, query).filtered| <= |products|
  {
    if query != "" {
      Seqs.FilterMembership(products, (p: Product) => NameOrSkuMatch(query, p), p);
      Seqs.FilterSpec(products, (p: Product) => NameOrSkuMatch(query, p));
    }
  }

  // ------------------------------------------------------------------ pagination

  const ItemsPerPage: nat := 10

  /** `Math.ceil(n / itemsPerPage)`. */
  function TotalPages(n: nat): (r: nat)
    ensures (r - 1) * ItemsPerPage < n <= r * ItemsPerPage || (n == 0 && r == 0)
  {
    (n + ItemsPerPage - 1) / ItemsPerPage
  }

  /** `filteredProducts.slice(startIndex, endIndex)` for the current page. */
  function CurrentItems(filtered: seq<Product>, page: int): seq<Product> {
    var start := (page - 1) * ItemsPerPage;
    Seqs.Slice(filtered, start, start + ItemsPerPage)
  }

  /**
   * Page `p` shows the filtered items at indices [(p-1)*10, p*10), cut at the
   * end of the list; a page within range shows at least one item.
   */
  lemma CurrentItemsSpec(filtered: seq<Product>, page: int)
    requires page >= 1
    ensures var start := (page - 1) * ItemsPerPage;
      var r := CurrentItems(filtered, page);
      && |r| <= ItemsPerPage
      && (start < |filtered| ==> r == filtered[start..if start + ItemsPerPage < |filtered| then start + ItemsPerPage else |filtered|])
      && (start >= |filtered| ==> r == [])
      && (page <= TotalPages(|filtered|) ==> |r| > 0)
  {
  }

  /** Every filtered item appears on page `i / 10 + 1`, at position `i % 10`. */
  lemma ItemOnItsPage(filtered: seq<Product>, i: int)
    requires 0 <= i < |filtered|
    ensures var r := CurrentItems(filtered, i / ItemsPerPage + 1);
      i % ItemsPerPage < |r| && r[i % ItemsPerPage] == filtered[i]
  {
    var page := i / ItemsPerPage + 1;
    CurrentItemsSpec(filtered, page);
  }

  /** The previous-page button: `Math.max(1, p - 1)`. */
  function PrevPage(page: int): int {
    if page - 1 > 1 then page - 1 else 1
  }

  /** The next-page button: `Math.min(totalPages, p + 1)`. */
  function NextPage(page: int, totalPages: nat): int {
    if totalPages < page + 1 then totalPages else page + 1
  }

  /**
   * The pager is rendered only while the current page lists an item, and
   * every filter change goes back to page 1, so the page is one of the
   * pages; from there both buttons keep it within [1, totalPages], moving it
   * by one except at the first (previous) or last (next) page.
   */
  lemma PagingStaysInRange(filtered: seq<Product>, page: int)
    requires page >= 1 && CurrentItems(filtered, page) != []
    ensures var n := TotalPages(|filtered|);
      && 1 <= page <= n
      && 1 <= PrevPage(page) <= page && (page > 1 ==> PrevPage(page) == page - 1)
      && page <= NextPage(page, n) <= n && (page < n ==> NextPage(page, n) == page + 1)
  {
    CurrentItemsSpec(filtered, page);
    var start := (page - 1) * ItemsPerPage;
    assert start < |filtered|;
  }

  // ------------------------------------------------------------------ stock adjustment

  datatype AdjustKind = Add | Remove

  datatype AdjustResult = Adjust(amount: int) | InvalidQuantity | NotEnoughStock(requested: int, available: int)

  /** `StockAdjustmentModal.handleSave`: `quantity` is the text typed into the dialog. */
  function ValidateAdjustment(kind: AdjustKind, quantity: string, currentStock: int): AdjustResult {
    var qty := ParseInt(quantity);
    if qty.None? || qty.value <= 0 then InvalidQuantity
    else if kind == Remove && qty.value > currentStock then NotEnoughStock(qty.value, currentStock)
    else Adjust(if kind == Add then qty.value else -qty.value)
  }

  /**
   * A quantity that does not parse to a positive integer is refused; removing
   * more than the current stock is refused; otherwise the adjustment is +qty
   * or -qty, and from a non-negative stock it never goes below zero.
   */
  lemma ValidateAdjustmentSpec(kind: AdjustKind, quantity: string, currentStock: int)
    ensures var r := ValidateAdjustment(kind, quantity, currentStock);
      var qty := ParseInt(quantity);
      && (r == InvalidQuantity <==> qty.None? || qty.value <= 0)
      && (r.NotEnoughStock? <==> qty.Some? && qty.value > 0 && kind == Remove && qty.value > currentStock)
      && (r.Adjust? ==> qty.Some? && (if kind == Add then r.amount == qty.value else r.amount == -qty.value))
      && (r.Adjust? && kind == Add ==> r.amount > 0)
      && (r.Adjust? && kind == Remove ==> r.amount < 0 && currentStock + r.amount >= 0)
      && (r.Adjust? && currentStock >= 0 ==> currentStock + r.amount >= 0)
  {
  }

  /** `adjustment > 0 ? 'adjustment_in' : 'adjustment_out'`. */
  function MovementType(adjustment: int): string {
    if adjustment > 0 then "adjustment_in" else "adjustment_out"
  }

  /** An accepted adjustment is recorded as a movement in exactly when it adds stock. */
  lemma MovementFollowsKind(kind: AdjustKind, quantity: string, currentStock: int)
    requires ValidateAdjustment(kind, quantity, currentStock).Adjust?
    ensures MovementType(ValidateAdjustment(kind, quantity, currentStock).amount) == "adjustment_in" <==> kind == Add
  {
  }

  /** The dialog's `newStock` preview: `parseInt(quantity || 0)`, `None` standing for `NaN`. */
  function NewStockPreview(kind: AdjustKind, quantity: string, currentStock: int): Option<int> {
    var qty := if quantity == "" then Some(0) else ParseInt(quantity);
    match qty
    case None => None
    case Some(q) => Some(if kind == Add then currentStock + q else currentStock - q)
  }

  /** The preview shows the stock level an accepted adjustment leads to. */
  lemma PreviewMatchesAdjustment(kind: AdjustKind, quantity: string, currentStock: int)
    requires ValidateAdjustment(kind, quantity, currentStock).Adjust?
    ensures NewStockPreview(kind, quantity, currentStock) == Some(currentStock + ValidateAdjustment(kind, quantity, currentStock).amount)
  {
    assert quantity != "";
  }

  /** The body `saveStockAdjustment` posts to `/inventory/adjust`. */
  datatype AdjustmentBody = AdjustmentBody(productId: Id, quantity: int, movementType: string, notes: string)

  function AdjustmentRequest(productId: Id, adjustment: int): AdjustmentBody {
    AdjustmentBody(productId, adjustment, MovementType(adjustment), "Manual stock adjustment")
  }
}
