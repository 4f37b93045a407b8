/**
 * The wholesale billing screen: bill numbers derived from the last order,
 * the product search dropdown and its keyboard selection, line items with a
 * percentage discount, the three order totals and the save guard.
 */
module Wholesale {
  import opened Wrappers
  import opened Entities
  import opened Text
  import Seqs

  // ------------------------------------------------------------------ bill numbers

  /** `WS-` followed by `String(n)` padded to six digits with zeros. */
  function WsNumber(n: int): string {
    "WS-" + PadStart(IntToString(n), 6, '0')
  }

  /** `parseInt((order_number || 'WS-000000').split('-')[1]) || 0`. */
  function LastNumber(orderNumber: Option<string>): int {
    var text := if orderNumber.Some? && orderNumber.value != "" then orderNumber.value else "WS-000000";
    match SecondSegment(text, '-')
    case None => 0
    case Some(segment) => ParseInt(segment).GetOr(0)
  }

  datatype BillNumbers = BillNumbers(bill: string, ref: string)

  /**
   * `generateBillNumbers()`: `orders` holds the `order_number` of each order
   * returned by `GET /orders`, newest first, or is `None` when the request
   * failed.
   */
  function GenerateBillNumbers(orders: Option<seq<Option<string>>>): BillNumbers {
    if orders.Some? && |orders.value| > 0 then NumbersAfter(LastNumber(orders.value[0]))
    else
      BillNumbers("WS-000001", "WS-000000")
  }

  /** The bill that follows order number `n`, and `n` itself as the reference. */
  function NumbersAfter(n: int): BillNumbers {
    BillNumbers(WsNumber(n + 1), WsNumber(n))
  }

  /** Zero-padded digits hold no '-'. */
  lemma PaddedHasNoDash(n: nat)
    ensures '-' !in PadStart(NatToString(n), 6, '0')
  {
    var d := NatToString(n);
    var padded := PadStart(d, 6, '0');
    var k := |padded| - |d|;
    forall i | 0 <= i < |padded|
      ensures padded[i] != '-'
    {
      if i >= k {
        assert padded[i] == padded[k..][i - k];
      }
    }
  }

  /** The number in `WS-pad6(n)` reads back as `n`. */
  lemma LastNumberOfWs(n: nat)
    ensures LastNumber(Some(WsNumber(n))) == n
  {
    var padded := PadStart(NatToString(n), 6, '0');
    PaddedHasNoDash(n);
    assert WsNumber(n) == "WS" + ['-'] + padded;
    SegmentAfterPrefix("WS", padded, '-');
    ParsePadded(n, 6);
  }

  lemma FirstNumbers()
    ensures WsNumber(0) == "WS-000000" && WsNumber(1) == "WS-000001"
  {
    assert NatToString(0) == "0" && NatToString(1) == "1";
    assert Repeat('0', 5) == "00000";
  }

  /** After the order `WS-pad6(n)` the bill is `WS-pad6(n + 1)` and the reference `WS-pad6(n)`. */
  lemma BillFollowsLastOrder(orders: seq<Option<string>>, n: nat)
    requires |orders| > 0 && orders[0] == Some(WsNumber(n))
    ensures GenerateBillNumbers(Some(orders)) == BillNumbers(WsNumber(n + 1), WsNumber(n))
  {
    LastNumberOfWs(n);
    BillAfter(orders, n);
  }

  /** With no orders, a failed request, or a last order without a number, numbering starts at 1 after 0. */
  lemma BillDefaults(orders: Option<seq<Option<string>>>)
    requires orders.None? || orders.value == [] || orders.value[0] == None || orders.value[0] == Some("")
    ensures GenerateBillNumbers(orders) == BillNumbers(WsNumber(1), WsNumber(0))
  {
    if orders.Some? && orders.value != [] {
      LastNumberDefault(orders.value[0]);
      BillAfter(orders.value, 0);
    } else {
      NoOrdersBill(orders);
    }
  }

  lemma NoOrdersBill(orders: Option<seq<Option<string>>>)
    requires orders.None? || orders.value == []
    ensures GenerateBillNumbers(orders) == BillNumbers(WsNumber(1), WsNumber(0))
  {
    FirstNumbers();
  }

  lemma BillAfter(orders: seq<Option<string>>, n: int)
    requires |orders| > 0 && LastNumber(orders[0]) == n
    ensures GenerateBillNumbers(Some(orders)) == BillNumbers(WsNumber(n + 1), WsNumber(n))
  {
  }

  /** A missing or empty order number reads as `WS-000000`, that is 0. */
  lemma LastNumberDefault(o: Option<string>)
    requires o.None? || o == Some("")
    ensures LastNumber(o) == 0
  {
    FirstNumbers();
    LastNumberOfWs(0);
    assert LastNumber(o) == LastNumber(Some("WS-000000"));
  }

  // ------------------------------------------------------------------ search

  /** The dropdown's test: name, sku or barcode contains the lower-cased term. */
  predicate DropdownMatch(lowerTerm: string, p: Product) {
    Includes(ToLower(p.name), lowerTerm) || Includes(ToLower(p.sku), lowerTerm)
    || (p.barcode.Some? && Includes(ToLower(p.barcode.value), lowerTerm))
  }

  /** `handleSearchChange(value)`: the first ten matches, or nothing for a blank term. */
  function DropdownResults(products: seq<Product>, value: string): seq<Product> {
    if Trim(value) == "" then []
    else Seqs.Take(Seqs.Filter(products, (p: Product) => DropdownMatch(ToLower(value), p)), 10)
  }

  /**
   * At most ten results, each a matching product, taken in catalogue order:
   * all matches when there are fewer than ten. A blank term yields none.
   */
  lemma DropdownResultsSpec(products: seq<Product>, value: string)
    ensures var r := DropdownResults(products, value);
      var all := Seqs.Filter(products, (p: Product) => DropdownMatch(ToLower(value), p));
      && |r| <= 10
      && (Trim(value) == "" ==> r == [])
      && (Trim(value) != "" ==> r == all[..|r|] && (|all| <= 10 ==> r == all))
      && forall i :: 0 <= i < |r| ==> r[i] in products && DropdownMatch(ToLower(value), r[i])
  {
    var f := (p: Product) => DropdownMatch(ToLower(value), p);
    var all := Seqs.Filter(products, f);
    Seqs.FilterSpec(products, f);
    var r := DropdownResults(products, value);
    forall i | 0 <= i < |r|
      ensures r[i] in products && DropdownMatch(ToLower(value), r[i])
    {
      assert r[i] == all[i];
      Seqs.FilterMembership(products, f, all[i]);
    }
  }

  /** `ArrowDown`: one row further, stopping at the last. */
  function ArrowDown(index: int, count: nat): (r: int)
    ensures -1 <= index < count ==> -1 <= r < count
    ensures r == index || (r == index + 1 && r < count)
  {
    if index < count - 1 then index + 1 else index
  }

  /** `ArrowUp`: one row back; from the first row (or none) back to no selection. */
  function ArrowUp(index: int): (r: int)
    ensures r == -1 || r == index - 1
    ensures index > 0 ==> r == index - 1
    ensures -1 <= r
  {
    if index > 0 then index - 1 else -1
  }

  /** Enter with the dropdown open: the highlighted row, or the first one if none is highlighted. */
  function EnterChoice(index: int, results: seq<Product>): (r: Option<Product>)
    ensures r.Some? <==> results != []
    ensures r.Some? ==> r.value in results
    ensures 0 <= index < |results| ==> r == Some(results[index])
    ensures !(0 <= index < |results|) && |results| > 0 ==> r == Some(results[0])
  {
    if 0 <= index < |results| then Some(results[index])
    else if |results| > 0 then Some(results[0])
    else None
  }

  /** Enter with the dropdown closed: a product whose sku or barcode equals the term, ignoring case. */
  function ExactMatch(products: seq<Product>, term: string): Option<Product> {
    if Trim(term) == "" then None
    else Seqs.Find(products, (p: Product) =>
      ToLower(p.sku) == ToLower(term) || (p.barcode.Some? && ToLower(p.barcode.value) == ToLower(term)))
  }

  // ------------------------------------------------------------------ line items

  /** An order line: `{product_id, code, name, batch_no, quantity, unit_price, discount_percentage, discount_value, line_total}`. */
  datatype Line = Line(productId: Id, code: string, name: string, batchNo: string, quantity: int,
                       unitPrice: real, discountPercentage: real, discountValue: real, lineTotal: real)

  function Gross(l: Line): real {
    l.quantity as real * l.unitPrice
  }

  /** The relation `updateItem` establishes between a line's fields. */
  predicate Priced(l: Line) {
    l.discountValue == Gross(l) * l.discountPercentage / 100.0 && l.lineTotal == Gross(l) - l.discountValue
  }

  predicate AllPriced(items: seq<Line>) {
    forall i :: 0 <= i < |items| ==> Priced(items[i])
  }

  predicate UniqueProducts(items: seq<Line>) {
    forall i, j :: 0 <= i < j < |items| ==> items[i].productId != items[j].productId
  }

  /** Discount value and line total recomputed from quantity, price and percentage. */
  function Reprice(l: Line): (r: Line)
    ensures Priced(r)
  {
    var gross := Gross(l);
    var discount := gross * l.discountPercentage / 100.0;
    l.(discountValue := discount, lineTotal := gross - discount)
  }

  /** `parseFloat(product.selling_price || 0)`. */
  function SellingPrice(p: Product): real {
    if p.sellingPrice.Some? && p.sellingPrice.value != 0.0 then p.sellingPrice.value else 0.0
  }

  function NewLine(p: Product): Line {
    Line(p.id, p.sku, p.name, "", 1, SellingPrice(p), 0.0, 0.0, SellingPrice(p))
  }

  function LineOf(id: Id): Line -> bool {
    (l: Line) => l.productId == id
  }

  /**
   * `addItemToCart(product)` as written: an existing line gains one unit and
   * its `line_total` becomes `quantity * unit_price`, ignoring the line's
   * discount, whose `discount_value` keeps the old quantity's figure.
   */
  function AddItemAsWritten(items: seq<Line>, p: Product): seq<Line> {
    var i := Seqs.FindIndex(items, LineOf(p.id));
    if i >= 0 then
      var q := items[i].quantity + 1;
      items[i := items[i].(quantity := q, lineTotal := q as real * items[i].unitPrice)]
    else items + [NewLine(p)]
  }

  /**
   * As written, a product already on a line raises that line by one unit and
   * sets its total to the gross, keeping the old discount value; a new
   * product is appended with one unit at its selling price and no discount.
   * No other line changes and no product gets two lines.
   */
  lemma AddItemAsWrittenSpec(items: seq<Line>, p: Product)
    requires UniqueProducts(items)
    ensures var r := AddItemAsWritten(items, p);
      && UniqueProducts(r)
      && ((exists i :: 0 <= i < |items| && items[i].productId == p.id) ==>
            |r| == |items|
            && forall i :: 0 <= i < |items| ==>
                 if items[i].productId == p.id then
                   r[i] == items[i].(quantity := items[i].quantity + 1, lineTotal := Gross(r[i]))
                 else r[i] == items[i])
      && ((forall i :: 0 <= i < |items| ==> items[i].productId != p.id) ==> r == items + [NewLine(p)])
  {
    var k := Seqs.FindIndex(items, LineOf(p.id));
    if k >= 0 {
      assert items[k].productId == p.id;
    }
  }

  /**
   * On a priced line, the increment as written agrees with the repriced one
   * exactly when the line carries no discount (a zero price or percentage);
   * otherwise the line total ignores the discount and the discount value
   * keeps the previous quantity's figure.
   */
  lemma AddItemAsWrittenDropsDiscount(items: seq<Line>, p: Product, i: int)
    requires UniqueProducts(items) && 0 <= i < |items| && items[i].productId == p.id && Priced(items[i])
    ensures var l := items[i];
      && AddItemAsWritten(items, p)[i].lineTotal == (l.quantity + 1) as real * l.unitPrice
      && AddItemAsWritten(items, p)[i].discountValue == l.discountValue
      && (AddItemAsWritten(items, p)[i] == AddItem(items, p)[i] <==> l.unitPrice * l.discountPercentage == 0.0)
  {
    AddItemAsWrittenSpec(items, p);
    AddItemSpec(items, p);
    var l := items[i];
    var q := (l.quantity + 1) as real;
    var ud := l.unitPrice * l.discountPercentage;
    assert Gross(l) * l.discountPercentage == l.quantity as real * ud;
    assert Gross(l.(quantity := l.quantity + 1)) * l.discountPercentage == q * ud;
    assert q == l.quantity as real + 1.0;
  }

  /** `addItemToCart(product)` with the increment repriced as `updateItem` would. */
  function AddItem(items: seq<Line>, p: Product): seq<Line> {
    var i := Seqs.FindIndex(items, LineOf(p.id));
    if i >= 0 then items[i := Reprice(items[i].(quantity := items[i].quantity + 1))]
    else items + [NewLine(p)]
  }

  /**
   * A product already on a line raises that line by one unit; a new product is
   * appended with one unit at its selling price and no discount. No other line
   * changes, no product gets two lines, and every line stays priced.
   */
  lemma AddItemSpec(items: seq<Line>, p: Product)
    requires UniqueProducts(items)
    ensures var r := AddItem(items, p);
      && UniqueProducts(r)
      && (AllPriced(items) ==> AllPriced(r))
      && ((exists i :: 0 <= i < |items| && items[i].productId == p.id) ==>
            |r| == |items|
            && forall i :: 0 <= i < |items| ==>
                 if items[i].productId == p.id then r[i].quantity == items[i].quantity + 1 && Priced(r[i])
                 else r[i] == items[i])
      && ((forall i :: 0 <= i < |items| ==> items[i].productId != p.id) ==>
            r == items + [Line(p.id, p.sku, p.name, "", 1, SellingPrice(p), 0.0, 0.0, SellingPrice(p))])
  {
    var k := Seqs.FindIndex(items, LineOf(p.id));
    if k >= 0 {
      assert items[k].productId == p.id;
    }
  }

  /** The fields the line editor touches, each with the value already parsed. */
  datatype Edit = BatchNo(text: string) | Quantity(qty: int) | UnitPrice(price: real) | DiscountPercentage(percent: real)

  /** `updateItem(index, field, value)`. */
  function UpdateItem(items: seq<Line>, index: int, e: Edit): seq<Line>
    requires 0 <= index < |items|
  {
    var l := items[index];
    var edited := match e
      case BatchNo(t) => l.(batchNo := t)
      case Quantity(q) => Reprice(l.(quantity := q))
      case UnitPrice(x) => Reprice(l.(unitPrice := x))
      case DiscountPercentage(d) => Reprice(l.(discountPercentage := d));
    items[index := edited]
  }

  /**
   * Only line `index` changes; it takes the edited value, and a numeric edit
   * leaves it priced: `discount_value = qty * price * disc / 100` and
   * `line_total = qty * price - discount_value`.
   */
  lemma UpdateItemSpec(items: seq<Line>, index: int, e: Edit)
    requires 0 <= index < |items|
    ensures var r := UpdateItem(items, index, e);
      && |r| == |items|
      && (forall j :: 0 <= j < |items| && j != index ==> r[j] == items[j])
      && r[index].productId == items[index].productId
      && (!e.BatchNo? ==> Priced(r[index]))
      && (e.BatchNo? ==> r[index] == items[index].(batchNo := e.text))
      && (e.Quantity? ==> r[index].quantity == e.qty)
      && (e.UnitPrice? ==> r[index].unitPrice == e.price)
      && (e.DiscountPercentage? ==> r[index].discountPercentage == e.percent)
  {
  }

  // ------------------------------------------------------------------ totals and save

  datatype Totals = Totals(subtotal: real, totalDiscount: real, netTotal: real)

  function DiscountOf(l: Line): real { l.discountValue }
  function TotalOf(l: Line): real { l.lineTotal }

  /** `calculateTotals()`. */
  function CalculateTotals(items: seq<Line>): Totals {
    var subtotal := Seqs.Sum(items, Gross);
    var discount := Seqs.Sum(items, DiscountOf);
    Totals(subtotal, discount, subtotal - discount)
  }

  /** When every line is priced, the net total is the sum of the line totals shown in the grid. */
  lemma {:induction false} NetTotalIsSumOfLines(items: seq<Line>)
    requires AllPriced(items)
    ensures CalculateTotals(items).netTotal == Seqs.Sum(items, TotalOf)
  {
    if items != [] {
      assert AllPriced(items[1..]);
      NetTotalIsSumOfLines(items[1..]);
    }
  }

  /** Removing line `i` takes its gross, its discount and (when priced) its total out of the totals. */
  lemma RemoveItemTotals(items: seq<Line>, i: int)
    requires 0 <= i < |items|
    ensures var r := Seqs.RemoveAt(items, i);
      && CalculateTotals(r).subtotal == CalculateTotals(items).subtotal - Gross(items[i])
      && CalculateTotals(r).totalDiscount == CalculateTotals(items).totalDiscount - items[i].discountValue
  {
    Seqs.SumRemoveAt(items, i, Gross);
    Seqs.SumRemoveAt(items, i, DiscountOf);
  }

  /** A posted line: `{product_id, sku, name, quantity, unit_price, discount_percentage, discount_amount}`. */
  datatype PostedLine = PostedLine(productId: Id, sku: string, name: string, quantity: int, unitPrice: real,
                                   discountPercentage: real, discountAmount: real)

  /** The lines as `handleSave` maps them: the code goes out as `sku`, the discount value as `discount_amount`, the batch is dropped. */
  function PostedLines(items: seq<Line>): (r: seq<PostedLine>)
    ensures |r| == |items|
    ensures forall i :: 0 <= i < |items| ==>
      && r[i].productId == items[i].productId && r[i].sku == items[i].code && r[i].name == items[i].name
      && r[i].quantity == items[i].quantity && r[i].unitPrice == items[i].unitPrice
      && r[i].discountPercentage == items[i].discountPercentage && r[i].discountAmount == items[i].discountValue
  {
    if items == [] then []
    else
      var l := items[0];
      [PostedLine(l.productId, l.code, l.name, l.quantity, l.unitPrice, l.discountPercentage, l.discountValue)] + PostedLines(items[1..])
  }

  /** The body of `POST /orders` that `handleSave` sends. */
  datatype OrderData = OrderData(customerId: Option<Id>, staffId: Option<Id>, items: seq<PostedLine>,
                                 subtotal: real, discountAmount: real, totalAmount: real,
                                 paymentMethod: string, paymentStatus: string, notes: string)

  /** `x?.id || fallback`: a missing id and the id 0 both give the fallback. */
  function IdOr(x: Option<Id>, fallback: Option<Id>): Option<Id> {
    if x.Some? && x.value != 0 then x else fallback
  }

  /**
   * `handleSave()` with the selected customer's and staff member's ids and the
   * stored user's id: `None` stands for the refusal of an empty order, made
   * before any request.
   */
  function SaveRequest(items: seq<Line>, customerId: Option<Id>, staffId: Option<Id>, userId: Option<Id>, description: string)
    : (r: Option<OrderData>)
    ensures r.None? <==> items == []
    ensures r.Some? ==>
      && r.value.items == PostedLines(items)
      && r.value.subtotal == CalculateTotals(items).subtotal && r.value.discountAmount == CalculateTotals(items).totalDiscount
      && r.value.totalAmount == r.value.subtotal - r.value.discountAmount
      && r.value.paymentMethod == "cash" && r.value.paymentStatus == "paid"
      && r.value.notes == (if description == "" then "Wholesale Sale" else description)
      && (r.value.customerId.Some? <==> customerId.Some? && customerId.value != 0)
      && (r.value.customerId.Some? ==> r.value.customerId == customerId)
      && r.value.staffId == (if staffId.Some? && staffId.value != 0 then staffId else userId)
  {
    if items == [] then None
    else
      var totals := CalculateTotals(items);
      Some(OrderData(IdOr(customerId, None), IdOr(staffId, userId), PostedLines(items),
                     totals.subtotal, totals.totalDiscount, totals.netTotal, "cash", "paid",
                     if description != "" then description else "Wholesale Sale"))
  }

  /**
   * When every line is priced the posted total is the sum of the line totals
   * in the grid, and the posted discount the sum of the posted lines' amounts.
   */
  lemma SaveRequestTotals(items: seq<Line>, customerId: Option<Id>, staffId: Option<Id>, userId: Option<Id>, description: string)
    requires items != [] && AllPriced(items)
    ensures var r := SaveRequest(items, customerId, staffId, userId, description).value;
      && r.totalAmount == Seqs.Sum(items, TotalOf)
      && r.discountAmount == Seqs.Sum(items, DiscountOf)
  {
    NetTotalIsSumOfLines(items);
  }

  // ------------------------------------------------------------------ the screen

  datatype Key = ArrowDownKey | ArrowUpKey | EnterKey | EscapeKey | OtherKey

  /** The order and the search box as the keyboard handler sees and changes them. */
  datatype Screen = Screen(orderItems: seq<Line>, selectedRow: Option<int>, searchTerm: string, filtered: seq<Product>,
                           showDropdown: bool, selectedIndex: int)

  /** `selectProduct(p)`: the product added as written, a new line selected, and the search reset. */
  function Selected(v: Screen, p: Product): Screen {
    Screen(AddItemAsWritten(v.orderItems, p),
           if Seqs.FindIndex(v.orderItems, LineOf(p.id)) == -1 then Some(|v.orderItems|) else v.selectedRow,
           "", [], false, -1)
  }

  /**
   * Picking a product not yet on the order appends its line and selects that
   * line; picking one already there selects nothing new. Either way the
   * search is reset and no product gets two lines.
   */
  lemma SelectedSpec(v: Screen, p: Product)
    requires UniqueProducts(v.orderItems)
    ensures var w := Selected(v, p);
      && UniqueProducts(w.orderItems) && w.searchTerm == "" && w.filtered == [] && !w.showDropdown && w.selectedIndex == -1
      && ((forall i :: 0 <= i < |v.orderItems| ==> v.orderItems[i].productId != p.id) ==>
            w.selectedRow == Some(|v.orderItems|) && |w.orderItems| == |v.orderItems| + 1
            && w.orderItems[|v.orderItems|].productId == p.id)
      && ((exists i :: 0 <= i < |v.orderItems| && v.orderItems[i].productId == p.id) ==> w.selectedRow == v.selectedRow)
  {
    AddItemAsWrittenSpec(v.orderItems, p);
    var k := Seqs.FindIndex(v.orderItems, LineOf(p.id));
    if k >= 0 {
      assert v.orderItems[k].productId == p.id;
    }
  }

  /** The screen's search and line-item state. */
  class WholesalePage {
    var products: seq<Product>
    var orderItems: seq<Line>
    var selectedRow: Option<int>
    var searchTerm: string
    var filtered: seq<Product>
    var showDropdown: bool
    var selectedIndex: int

    function Current(): Screen
      reads this
    {
      Screen(orderItems, selectedRow, searchTerm, filtered, showDropdown, selectedIndex)
    }

    /** The highlighted row, when there is one, is a row of the dropdown. */
    ghost predicate Valid()
      reads this
    {
      (selectedIndex == -1 || 0 <= selectedIndex < |filtered|) && UniqueProducts(orderItems)
    }

    constructor (products: seq<Product>)
      ensures Valid() && this.products == products && orderItems == [] && selectedRow.None?
      ensures searchTerm == "" && filtered == [] && !showDropdown && selectedIndex == -1
    {
      this.products := products;
      orderItems := [];
      selectedRow := None;
      searchTerm := "";
      filtered := [];
      showDropdown := false;
      selectedIndex := -1;
    }

    /** `handleSearchChange`: new results, no highlighted row, and the dropdown open iff there are results. */
    method HandleSearchChange(value: string)
      requires Valid()
      modifies this`searchTerm, this`filtered, this`showDropdown, this`selectedIndex
      ensures Valid()
      ensures searchTerm == value && selectedIndex == -1
      ensures filtered == DropdownResults(products, value) && showDropdown == (|filtered| > 0)
    {
      searchTerm := value;
      selectedIndex := -1;
      filtered := DropdownResults(products, value);
      showDropdown := |filtered| > 0;
    }

    /** `selectProduct`: the product goes into the order, and the search is reset. */
    method SelectProduct(p: Product)
      requires Valid()
      modifies this`orderItems, this`selectedRow, this`searchTerm, this`filtered, this`showDropdown, this`selectedIndex
      ensures Valid()
      ensures orderItems == AddItemAsWritten(old(orderItems), p)
      ensures Seqs.FindIndex(old(orderItems), LineOf(p.id)) == -1 ==> selectedRow == Some(|old(orderItems)|)
      ensures Seqs.FindIndex(old(orderItems), LineOf(p.id)) != -1 ==> selectedRow == old(selectedRow)
      ensures searchTerm == "" && filtered == [] && !showDropdown && selectedIndex == -1
      ensures Current() == Selected(old(Current()), p)
    {
      AddItemAsWrittenSpec(orderItems, p);
      if Seqs.FindIndex(orderItems, LineOf(p.id)) == -1 {
        selectedRow := Some(|orderItems|);
      }
      orderItems := AddItemAsWritten(orderItems, p);
      searchTerm, filtered, showDropdown, selectedIndex := "", [], false, -1;
    }

    /**
     * `handleKeyDown` in the search box. With the dropdown closed only Enter
     * acts, adding the exact sku or barcode match. With it open the arrows
     * move the highlight within the rows, Enter adds the highlighted (or
     * first) row and Escape closes the dropdown and clears the term.
     */
    method HandleKeyDown(key: Key)
      requires Valid()
      modifies this`orderItems, this`selectedRow, this`searchTerm, this`filtered, this`showDropdown, this`selectedIndex
      ensures Valid()
      ensures !old(showDropdown) ==>
        Current() == if key == EnterKey && ExactMatch(products, old(searchTerm)).Some?
                     then Selected(old(Current()), ExactMatch(products, old(searchTerm)).value)
                     else old(Current())
      ensures old(showDropdown) && key == ArrowDownKey ==>
        Current() == old(Current()).(selectedIndex := ArrowDown(old(selectedIndex), |old(filtered)|))
      ensures old(showDropdown) && key == ArrowUpKey ==>
        Current() == old(Current()).(selectedIndex := ArrowUp(old(selectedIndex)))
      ensures old(showDropdown) && key == EnterKey ==>
        Current() == if EnterChoice(old(selectedIndex), old(filtered)).Some?
                     then Selected(old(Current()), EnterChoice(old(selectedIndex), old(filtered)).value)
                     else old(Current())
      ensures old(showDropdown) && key == EscapeKey ==>
        Current() == old(Current()).(showDropdown := false, searchTerm := "", selectedIndex := -1)
      ensures key == OtherKey ==> Current() == old(Current())
    {
      if !showDropdown {
        if key == EnterKey {
          var m := ExactMatch(products, searchTerm);
          if m.Some? {
            SelectProduct(m.value);
          }
        }
      } else {
        KeyInDropdown(key);
      }
    }

    /** The keys the open dropdown reacts to. */
    method KeyInDropdown(key: Key)
      requires Valid()
      modifies this`orderItems, this`selectedRow, this`searchTerm, this`filtered, this`showDropdown, this`selectedIndex
      ensures Valid()
      ensures key == ArrowDownKey ==> Current() == old(Current()).(selectedIndex := ArrowDown(old(selectedIndex), |old(filtered)|))
      ensures key == ArrowUpKey ==> Current() == old(Current()).(selectedIndex := ArrowUp(old(selectedIndex)))
      ensures key == EnterKey ==>
        Current() == if EnterChoice(old(selectedIndex), old(filtered)).Some?
                     then Selected(old(Current()), EnterChoice(old(selectedIndex), old(filtered)).value)
                     else old(Current())
      ensures key == EscapeKey ==> Current() == old(Current()).(showDropdown := false, searchTerm := "", selectedIndex := -1)
      ensures key == OtherKey ==> Current() == old(Current())
    {
      match key
      case ArrowDownKey =>
        selectedIndex := ArrowDown(selectedIndex, |filtered|);
      case ArrowUpKey =>
        selectedIndex := ArrowUp(selectedIndex);
      case EnterKey =>
        var choice := EnterChoice(selectedIndex, filtered);
        if choice.Some? {
          SelectProduct(choice.value);
        }
      case EscapeKey =>
        showDropdown, searchTerm, selectedIndex := false, "", -1;
      case OtherKey =>
    }
  }
}
