/**
 * The point-of-sale screen that keeps selling without a connection: the cart
 * (bounded by the stock each product reports), the totals with 8.75 % tax,
 * the cash check and change, and checkout, which posts the sale when online
 * and otherwise, or after a failed post, keeps it as a pending order.
 */
module OfflinePos {
  import opened Wrappers
  import opened Entities
  import opened Text
  import Seqs
  import OfflineStorage
  import Api

  // ------------------------------------------------------------------ the cart

  /** A cart line: the product spread with `quantity` and `unit_price`. */
  datatype CartLine = CartLine(product: Product, quantity: int, unitPrice: real)

  /** `product.inventory?.[0]?.quantity_available || product.stock || 0`: zero and missing both fall through. */
  function AvailableStock(p: Product): int {
    var first := if |p.inventory| > 0 then p.inventory[0].quantityAvailable else None;
    if first.Some? && first.value != 0 then first.value
    else if p.stock.Some? && p.stock.value != 0 then p.stock.value
    else 0
  }

  /** `product.selling_price || product.price || 0`. */
  function UnitPrice(p: Product): real {
    if p.sellingPrice.Some? && p.sellingPrice.value != 0.0 then p.sellingPrice.value
    else if p.price.Some? && p.price.value != 0.0 then p.price.value
    else 0.0
  }

  function NewLine(p: Product): CartLine {
    CartLine(p, 1, UnitPrice(p))
  }

  predicate HasId(id: Id, l: CartLine) { l.product.id == id }

  /** No product appears on two lines. */
  predicate UniqueIds(cart: seq<CartLine>) {
    forall i, j :: 0 <= i < j < |cart| ==> cart[i].product.id != cart[j].product.id
  }

  /** `cart.map(item => item.id === id ? {...item, quantity: item.quantity + 1} : item)`. */
  function Increment(cart: seq<CartLine>, id: Id): seq<CartLine> {
    seq(|cart|, i requires 0 <= i < |cart| =>
      if cart[i].product.id == id then cart[i].(quantity := cart[i].quantity + 1) else cart[i])
  }

  /**
   * `addToCart(product)`: a new product gets a line of one; a product already in
   * the cart gains one unit while the stock the product reports allows it, and
   * otherwise the cart stays as it is.
   */
  function AddToCart(cart: seq<CartLine>, p: Product): seq<CartLine> {
    match Seqs.Find(cart, (l: CartLine) => HasId(p.id, l))
    case None => cart + [NewLine(p)]
    case Some(existing) => if existing.quantity < AvailableStock(p) then Increment(cart, p.id) else cart
  }

  /** A product not yet in the cart is appended as one unit at its selling price (or price, or 0). */
  lemma AddToCartNew(cart: seq<CartLine>, p: Product)
    requires forall i :: 0 <= i < |cart| ==> cart[i].product.id != p.id
    ensures AddToCart(cart, p) == cart + [CartLine(p, 1, UnitPrice(p))]
  {
  }

  /**
   * A product already on line `i` raises that line by exactly one when its
   * quantity is below the available stock; the other lines never change, and
   * at the stock limit nothing changes.
   */
  lemma AddToCartExisting(cart: seq<CartLine>, p: Product, i: int)
    requires UniqueIds(cart)
    requires 0 <= i < |cart| && cart[i].product.id == p.id
    ensures var r := AddToCart(cart, p);
      && |r| == |cart|
      && (cart[i].quantity < AvailableStock(p) ==> r[i] == cart[i].(quantity := cart[i].quantity + 1))
      && (cart[i].quantity >= AvailableStock(p) ==> r == cart)
      && forall j :: 0 <= j < |cart| && j != i ==> r[j] == cart[j]
  {
    Seqs.FindAt(cart, (l: CartLine) => HasId(p.id, l), i);
  }

  /** `addToCart` never creates a second line for a product. */
  lemma AddToCartKeepsUnique(cart: seq<CartLine>, p: Product)
    requires UniqueIds(cart)
    ensures UniqueIds(AddToCart(cart, p))
  {
  }

  /** The line after `updateQuantity`: unchanged unless the new quantity lies in [1, stock]. */
  function Adjusted(l: CartLine, change: int): CartLine {
    var newQty := l.quantity + change;
    if newQty < 1 || newQty > AvailableStock(l.product) then l else l.(quantity := newQty)
  }

  /** `updateQuantity(itemId, change)`. */
  function UpdateQuantity(cart: seq<CartLine>, itemId: Id, change: int): seq<CartLine> {
    seq(|cart|, i requires 0 <= i < |cart| => if cart[i].product.id == itemId then Adjusted(cart[i], change) else cart[i])
  }

  /**
   * Lines of other products are untouched; a line of `itemId` takes the new
   * quantity exactly when it lies in [1, the line's stock], and otherwise keeps
   * its old one. Product and price never change.
   */
  lemma UpdateQuantitySpec(cart: seq<CartLine>, itemId: Id, change: int)
    ensures var r := UpdateQuantity(cart, itemId, change);
      && |r| == |cart|
      && (forall i :: 0 <= i < |cart| ==> r[i].product == cart[i].product && r[i].unitPrice == cart[i].unitPrice)
      && (forall i :: 0 <= i < |cart| && cart[i].product.id != itemId ==> r[i] == cart[i])
      && (forall i :: 0 <= i < |cart| && cart[i].product.id == itemId ==>
            var q := cart[i].quantity + change;
            (1 <= q <= AvailableStock(cart[i].product) ==> r[i].quantity == q)
            && (!(1 <= q <= AvailableStock(cart[i].product)) ==> r[i] == cart[i]))
  {
  }

  /** Every line's quantity within [1, its stock]. */
  predicate WithinStock(cart: seq<CartLine>) {
    forall i :: 0 <= i < |cart| ==> 1 <= cart[i].quantity <= AvailableStock(cart[i].product)
  }

  /** `updateQuantity` keeps every quantity within [1, stock]. */
  lemma UpdateQuantityWithinStock(cart: seq<CartLine>, itemId: Id, change: int)
    requires WithinStock(cart)
    ensures WithinStock(UpdateQuantity(cart, itemId, change))
  {
  }

  /** `removeFromCart(itemId)`. */
  function RemoveFromCart(cart: seq<CartLine>, itemId: Id): seq<CartLine> {
    Seqs.Filter(cart, (l: CartLine) => !HasId(itemId, l))
  }

  /** Afterwards no line carries `itemId`, and exactly the other lines remain. */
  lemma RemoveFromCartSpec(cart: seq<CartLine>, itemId: Id, l: CartLine)
    ensures l in RemoveFromCart(cart, itemId) <==> l in cart && l.product.id != itemId
    ensures forall j :: 0 <= j < |RemoveFromCart(cart, itemId)| ==> RemoveFromCart(cart, itemId)[j].product.id != itemId
  {
    Seqs.FilterMembership(cart, (l: CartLine) => !HasId(itemId, l), l);
    Seqs.FilterSpec(cart, (l: CartLine) => !HasId(itemId, l));
  }

  /** Removal keeps the order: removing from a concatenation removes from each part. */
  lemma RemoveFromCartInOrder(a: seq<CartLine>, b: seq<CartLine>, itemId: Id)
    ensures RemoveFromCart(a + b, itemId) == RemoveFromCart(a, itemId) + RemoveFromCart(b, itemId)
  {
    Seqs.FilterAppend(a, b, (l: CartLine) => !HasId(itemId, l));
  }

  // ------------------------------------------------------------------ totals and cash

  const TaxRate: real := 0.0875

  datatype Totals = Totals(subtotal: real, tax: real, total: real)

  function LineAmount(l: CartLine): real {
    l.unitPrice * l.quantity as real
  }

  /** `calculateTotal()`. */
  function CalculateTotal(cart: seq<CartLine>): Totals {
    var subtotal := Seqs.Sum(cart, LineAmount);
    Totals(subtotal, subtotal * TaxRate, subtotal + subtotal * TaxRate)
  }

  /** A new line adds its price to the subtotal, and the tax and total follow. */
  lemma TotalsOfAppend(cart: seq<CartLine>, l: CartLine)
    ensures CalculateTotal(cart + [l]).subtotal == CalculateTotal(cart).subtotal + l.unitPrice * l.quantity as real
    ensures CalculateTotal(cart + [l]).total == CalculateTotal(cart + [l]).subtotal * 1.0875
  {
    Seqs.SumAppend(cart, [l], LineAmount);
    assert Seqs.Sum([l], LineAmount) == LineAmount(l) + Seqs.Sum([l][1..], LineAmount);
  }

  /** Removing the only line of a product takes exactly its amount out of the subtotal. */
  lemma TotalsOfRemove(cart: seq<CartLine>, i: int)
    requires UniqueIds(cart) && 0 <= i < |cart|
    ensures CalculateTotal(RemoveFromCart(cart, cart[i].product.id)).subtotal ==
      CalculateTotal(cart).subtotal - LineAmount(cart[i])
  {
    var id := cart[i].product.id;
    var front, back := cart[..i], cart[i + 1..];
    assert cart == front + [cart[i]] + back;
    RemoveFromCartInOrder(front + [cart[i]], back, id);
    RemoveFromCartInOrder(front, [cart[i]], id);
    NoMatchKept(front, id);
    NoMatchKept(back, id);
    OwnLineDropped(cart[i]);
    assert RemoveFromCart(cart, id) == front + back;
    Seqs.SumRemoveAt(cart, i, LineAmount);
    assert Seqs.RemoveAt(cart, i) == front + back;
  }

  lemma OwnLineDropped(l: CartLine)
    ensures RemoveFromCart([l], l.product.id) == []
  {
    var p := (x: CartLine) => !HasId(l.product.id, x);
    assert [l][1..] == [];
    assert Seqs.Filter([l], p) == [] + Seqs.Filter([l][1..], p);
  }

  lemma {:induction false} NoMatchKept(s: seq<CartLine>, id: Id)
    requires forall j :: 0 <= j < |s| ==> s[j].product.id != id
    ensures RemoveFromCart(s, id) == s
  {
    if s != [] {
      NoMatchKept(s[1..], id);
      assert s == [s[0]] + s[1..];
    }
  }

  /** With non-negative prices and quantities, tax and total are non-negative and the total never undercuts the subtotal. */
  lemma {:induction false} TotalsNonNegative(cart: seq<CartLine>)
    requires forall i :: 0 <= i < |cart| ==> cart[i].unitPrice >= 0.0 && cart[i].quantity >= 0
    ensures 0.0 <= CalculateTotal(cart).subtotal
    ensures 0.0 <= CalculateTotal(cart).tax <= CalculateTotal(cart).total
    ensures CalculateTotal(cart).subtotal <= CalculateTotal(cart).total
  {
    if cart != [] {
      TotalsNonNegative(cart[1..]);
      assert LineAmount(cart[0]) >= 0.0;
    }
  }

  /** The cash check made before completing a cash sale. */
  predicate CashAccepted(received: real, total: real) {
    !(received < total)
  }

  /** `change >= 0 ? change : 0` with `change = received - total`. */
  function ChangeDue(received: real, total: real): (change: real)
    ensures change >= 0.0
    ensures CashAccepted(received, total) ==> received == total + change
    ensures !CashAccepted(received, total) ==> change == 0.0
  {
    var change := received - total;
    if change >= 0.0 then change else 0.0
  }

  /**
   * `parseFloat(cashReceived) || 0`: the amount the typed cash text stands
   * for, where `NaN` falls back to 0 (a parsed 0 is 0 either way).
   */
  function CashAmount(text: string): (r: real)
    ensures ParseFloat(text).Some? ==> r == ParseFloat(text).value
    ensures ParseFloat(text).None? ==> r == 0.0
  {
    match ParseFloat(text)
    case Some(v) => v
    case None => 0.0
  }

  /** Text that is not a number counts as no cash, so it never covers a positive total. */
  lemma UnreadableCashRefused(text: string, total: real)
    requires ParseFloat(text).None? && total > 0.0
    ensures !CashAccepted(CashAmount(text), total)
    ensures ChangeDue(CashAmount(text), total) == 0.0
  {
  }

  /** A typed run of digits is read as the whole number it denotes. */
  lemma CashOfTypedDigits(p: string)
    requires p != [] && forall i :: 0 <= i < |p| ==> IsDigit(p[i])
    ensures CashAmount(p) == DigitsValue(p) as real
  {
    ParseFloatOfDigits(p);
  }

  /**
   * A quick-amount button (1000, 2000, 5000 or 10000) writes `amount.toString()` into the cash field,
   * which reads back as that amount: it covers exactly the totals up to it,
   * leaving the difference as change.
   */
  lemma {:induction false} QuickAmountReadsBack(n: nat, total: real)
    ensures CashAmount(NatToString(n)) == n as real
    ensures CashAccepted(CashAmount(NatToString(n)), total) <==> total <= n as real
    ensures total <= n as real ==> ChangeDue(CashAmount(NatToString(n)), total) == n as real - total
  {
    CashOfTypedDigits(NatToString(n));
    DigitsOfNatToString(n);
  }

  // ------------------------------------------------------------------ checkout

  /** `customer?.id || null`: no customer, or customer id 0, means none. */
  function CustomerId(c: Option<Customer>): Option<Id> {
    if c.Some? && c.value.id != 0 then Some(c.value.id) else None
  }

  function PostedItem(l: CartLine): OrderItem {
    OrderItem(l.product.id, l.product.sku, l.product.name, l.quantity, l.unitPrice)
  }

  /** The order `completeTransaction` builds; `stamp` is the locale time in the notes. */
  function SaleOrder(cart: seq<CartLine>, customer: Option<Customer>, paymentMethod: string, stamp: string): Order {
    Order(CustomerId(customer), seq(|cart|, i requires 0 <= i < |cart| => PostedItem(cart[i])), paymentMethod, "POS Sale - " + stamp)
  }

  /** Every cart line becomes one order item, in order, with its product, quantity and price. */
  lemma SaleOrderItems(cart: seq<CartLine>, customer: Option<Customer>, paymentMethod: string, stamp: string)
    ensures var o := SaleOrder(cart, customer, paymentMethod, stamp);
      && |o.items| == |cart|
      && (forall i :: 0 <= i < |cart| ==>
            o.items[i].productId == cart[i].product.id && o.items[i].quantity == cart[i].quantity
            && o.items[i].unitPrice == cart[i].unitPrice)
      && o.paymentMethod == paymentMethod
      && (o.customerId.Some? <==> customer.Some? && customer.value.id != 0)
  {
  }

  function SaleRequest(o: Order): Api.Request {
    Api.Request(Api.Post, "/pos/complete-sale", None, OrderBody(o), None)
  }

  /** `paidAmount || total`. */
  function ActualPaid(paidAmount: Option<real>, total: real): real {
    if paidAmount.Some? && paidAmount.value != 0.0 then paidAmount.value else total
  }

  /** What the receipt shows; the printing itself is not modelled. */
  datatype Receipt = Receipt(order: Order, orderNumber: string, totals: Totals, paid: real, change: real, offline: bool)

  datatype Checkout = EmptyCart | OnlineSale(receipt: Receipt) | OfflineSale(receipt: Receipt) | FallbackSale(receipt: Receipt) | Failed

  /** Whether the post counts as a completed online sale: it resolved with `order.order_number`. */
  predicate Confirmed(result: Api.ApiResult) {
    result.Resolved? && result.body.orderNumber.Some?
  }

  /** The `{queued: true}` answer the interceptor gives offline has no order, so the POS treats it as a failed post. */
  lemma QueuedIsNotConfirmed()
    ensures !Confirmed(Api.Resolved(Api.QueuedBody))
  {
  }

  /**
   * Online, a sale post that fails with `Network Error` is deferred by the
   * interceptor under `post_/pos/complete-sale`, and the `{queued: true}` it
   * resolves with is no confirmed sale, so the error path also keeps the sale
   * as a pending order: the one sale is recorded in both stores.
   */
  lemma NetworkErrorRecordsSaleTwice(e: Api.HttpError, o: Order, products: map<Id, Product>, customers: map<Id, Customer>)
    requires e.message == Api.NetworkError
    ensures Api.Enqueues(Api.Fail(e), true, SaleRequest(o))
    ensures Api.OfflineFallback(SaleRequest(o).verb, SaleRequest(o).url).tag == "post_/pos/complete-sale"
    ensures !Confirmed(Api.Respond(Api.Fail(e), true, SaleRequest(o), true, products, customers))
  {
  }

  function OfflineReceipt(o: Order, now: nat, t: Totals, paidAmount: Option<real>, change: real): Receipt {
    Receipt(o, "OFFLINE-" + NatToString(now), t, ActualPaid(paidAmount, t.total), change, true)
  }

  /** The screen's state that checkout reads and resets. */
  class PosTerminal {
    var cart: seq<CartLine>
    var customer: Option<Customer>
    var searchQuery: string
    var searchResults: seq<Product>
    var cashReceived: string
    var changeAmount: real
    var pendingCount: int

    constructor ()
      ensures cart == [] && customer == None && searchQuery == "" && searchResults == []
      ensures cashReceived == "" && changeAmount == 0.0 && pendingCount == 0
    {
      cart := [];
      customer := None;
      searchQuery := "";
      searchResults := [];
      cashReceived := "";
      changeAmount := 0.0;
      pendingCount := 0;
    }

    /** The effect that recomputes the change from the cash field whenever it or the cart changes. */
    method RefreshChange()
      modifies this`changeAmount
      ensures cart != [] ==> changeAmount == ChangeDue(CashAmount(cashReceived), CalculateTotal(cart).total)
      ensures cart == [] ==> changeAmount == old(changeAmount)
    {
      if cart != [] {
        var received := CashAmount(cashReceived);
        changeAmount := ChangeDue(received, CalculateTotal(cart).total);
      }
    }

    /** The cash field's `onChange`, or a quick-amount button: the text is stored and the change recomputed. */
    method EnterCash(text: string)
      modifies this`cashReceived, this`changeAmount
      ensures cashReceived == text
      ensures cart != [] ==> changeAmount == ChangeDue(CashAmount(text), CalculateTotal(cart).total)
      ensures cart == [] ==> changeAmount == old(changeAmount)
    {
      cashReceived := text;
      RefreshChange();
    }

    /**
     * `completeTransaction(paymentMethod, paidAmount, change)`. An empty cart
     * does nothing. Online, the sale is posted; a post that does not come back
     * with an order number falls through to the error path. Offline the sale
     * is saved as a pending order; if that save fails the error path tries once
     * more. The cart is cleared after every recorded sale and kept only when
     * no sale could be recorded.
     */
    method CompleteTransaction(backend: Api.Backend, store: OfflineStorage.Store, online: bool, token: Option<string>,
                               now: nat, stamp: string, paymentMethod: string, paidAmount: Option<real>, change: real)
      returns (outcome: Checkout)
      requires store.Valid()
      modifies this`cart, this`customer, this`searchQuery, this`searchResults, this`cashReceived, this`changeAmount, this`pendingCount
      modifies backend`sent, store`syncQueue, store`nextQueueId, store`pendingOrders, store`nextOrderId
      ensures store.Valid()
      ensures old(cart) == [] ==>
        (outcome == EmptyCart && cart == old(cart) && backend.sent == old(backend.sent)
         && store.pendingOrders == old(store.pendingOrders) && store.syncQueue == old(store.syncQueue))
      ensures var o := SaleOrder(old(cart), old(customer), paymentMethod, stamp);
        var t := CalculateTotal(old(cart));
        old(cart) != [] ==>
          && backend.sent == old(backend.sent) + (if online then [Api.Authorize(SaleRequest(o), token)] else [])
          && (outcome.OnlineSale? || outcome.OfflineSale? || outcome.FallbackSale? || outcome.Failed?)
          && (outcome.OfflineSale? <==> !online && store.isOpen)
          && (outcome.Failed? <==> !outcome.OnlineSale? && !store.isOpen)
          && (outcome.OnlineSale? ==>
                (online && store.pendingOrders == old(store.pendingOrders)
                 && outcome.receipt.order == o && !outcome.receipt.offline && outcome.receipt.totals == t
                 && outcome.receipt.paid == ActualPaid(paidAmount, t.total) && outcome.receipt.change == change))
          && (outcome.OfflineSale? || outcome.FallbackSale? ==>
                (store.pendingOrders == old(store.pendingOrders)[old(store.nextOrderId) :=
                   OfflineStorage.NewPending(old(store.nextOrderId), o, now)]
                 && pendingCount == old(pendingCount) + 1
                 && outcome.receipt == OfflineReceipt(o, now, t, paidAmount, change)))
          && (outcome.Failed? ==>
                (cart == old(cart) && customer == old(customer)
                 && store.pendingOrders == old(store.pendingOrders) && pendingCount == old(pendingCount)))
          && (!outcome.Failed? ==> cart == [] && customer == None && cashReceived == "" && changeAmount == 0.0)
          && (outcome.OnlineSale? || outcome.OfflineSale? ==> searchQuery == "" && searchResults == [])
          && (outcome.FallbackSale? ==> searchQuery == old(searchQuery) && searchResults == old(searchResults))
      ensures var r := SaleRequest(SaleOrder(old(cart), old(customer), paymentMethod, stamp));
        old(cart) != [] && online ==>
          && store.syncQueue == Api.QueueAfter(old(store.syncQueue), old(store.nextQueueId),
                                               backend.respond(Api.Authorize(r, token)), true, r, store.isOpen, now)
          && store.nextQueueId == Api.NextAfter(old(store.nextQueueId), backend.respond(Api.Authorize(r, token)), true, r, store.isOpen)
      ensures !(old(cart) != [] && online) ==> store.syncQueue == old(store.syncQueue) && store.nextQueueId == old(store.nextQueueId)
      ensures var r := SaleRequest(SaleOrder(old(cart), old(customer), paymentMethod, stamp));
        var res := Api.Respond(backend.respond(Api.Authorize(r, token)), true, r, store.isOpen, store.products, store.customers);
        old(cart) != [] && online ==>
          && (outcome.OnlineSale? <==> Confirmed(res))
          && (outcome.OnlineSale? ==> outcome.receipt.orderNumber == res.body.orderNumber.value)
    {
      if cart == [] {
        return EmptyCart;
      }
      var totals := CalculateTotal(cart);
      var order := SaleOrder(cart, customer, paymentMethod, stamp);
      if online {
        outcome := CheckoutOnline(backend, store, token, now, order, totals, paidAmount, change);
      } else {
        outcome := CheckoutOffline(store, now, order, totals, paidAmount, change);
      }
    }

    /** The online branch: post the sale, and on anything but a confirmed order take the error path. */
    method CheckoutOnline(backend: Api.Backend, store: OfflineStorage.Store, token: Option<string>, now: nat,
                          o: Order, t: Totals, paidAmount: Option<real>, change: real)
      returns (outcome: Checkout)
      requires store.Valid()
      modifies this`cart, this`customer, this`searchQuery, this`searchResults, this`cashReceived, this`changeAmount, this`pendingCount
      modifies backend`sent, store`syncQueue, store`nextQueueId, store`pendingOrders, store`nextOrderId
      ensures store.Valid()
      ensures backend.sent == old(backend.sent) + [Api.Authorize(SaleRequest(o), token)]
      ensures store.syncQueue == Api.QueueAfter(old(store.syncQueue), old(store.nextQueueId),
                                                backend.respond(Api.Authorize(SaleRequest(o), token)), true, SaleRequest(o), store.isOpen, now)
      ensures store.nextQueueId ==
        Api.NextAfter(old(store.nextQueueId), backend.respond(Api.Authorize(SaleRequest(o), token)), true, SaleRequest(o), store.isOpen)
      ensures outcome.OnlineSale? || outcome.FallbackSale? || outcome.Failed?
      ensures var res := Api.Respond(backend.respond(Api.Authorize(SaleRequest(o), token)), true, SaleRequest(o),
                                     store.isOpen, store.products, store.customers);
        && (outcome.OnlineSale? <==> Confirmed(res))
        && (outcome.OnlineSale? ==> outcome.receipt.orderNumber == res.body.orderNumber.value)
      ensures outcome.OnlineSale? ==>
        && store.pendingOrders == old(store.pendingOrders)
        && outcome.receipt.order == o && !outcome.receipt.offline && outcome.receipt.totals == t
        && outcome.receipt.paid == ActualPaid(paidAmount, t.total) && outcome.receipt.change == change
        && cart == [] && customer == None && searchQuery == "" && searchResults == []
        && cashReceived == "" && changeAmount == 0.0
      ensures !outcome.OnlineSale? ==> outcome == (if store.isOpen then FallbackSale(OfflineReceipt(o, now, t, paidAmount, change)) else Failed)
      ensures !outcome.OnlineSale? && store.isOpen ==>
        && store.pendingOrders == old(store.pendingOrders)[old(store.nextOrderId) := OfflineStorage.NewPending(old(store.nextOrderId), o, now)]
        && pendingCount == old(pendingCount) + 1
        && cart == [] && customer == None && cashReceived == "" && changeAmount == 0.0
        && searchQuery == old(searchQuery) && searchResults == old(searchResults)
      ensures !outcome.OnlineSale? && !store.isOpen ==>
        && store.pendingOrders == old(store.pendingOrders) && pendingCount == old(pendingCount)
        && cart == old(cart) && customer == old(customer)
    {
      var result := Api.Send(backend, store, true, token, now, SaleRequest(o));
      if Confirmed(result) {
        outcome := OnlineSale(Receipt(o, result.body.orderNumber.value, t, ActualPaid(paidAmount, t.total), change, false));
        ClearSale();
      } else {
        outcome := RecordFallback(store, now, o, t, paidAmount, change);
      }
    }

    /** The offline branch: save the sale locally; a failed save takes the error path, which retries once. */
    method CheckoutOffline(store: OfflineStorage.Store, now: nat, o: Order, t: Totals, paidAmount: Option<real>, change: real)
      returns (outcome: Checkout)
      requires store.Valid()
      modifies this`cart, this`customer, this`searchQuery, this`searchResults, this`cashReceived, this`changeAmount, this`pendingCount
      modifies store`pendingOrders, store`nextOrderId
      ensures store.Valid()
      ensures outcome == (if store.isOpen then OfflineSale(OfflineReceipt(o, now, t, paidAmount, change)) else Failed)
      ensures store.isOpen ==>
        && store.pendingOrders == old(store.pendingOrders)[old(store.nextOrderId) := OfflineStorage.NewPending(old(store.nextOrderId), o, now)]
        && pendingCount == old(pendingCount) + 1
        && cart == [] && customer == None && searchQuery == "" && searchResults == []
        && cashReceived == "" && changeAmount == 0.0
      ensures !store.isOpen ==>
        && store.pendingOrders == old(store.pendingOrders) && pendingCount == old(pendingCount)
        && cart == old(cart) && customer == old(customer)
    {
      var saved := store.SavePendingOrder(o, now);
      if saved.Ok? {
        pendingCount := pendingCount + 1;
        outcome := OfflineSale(OfflineReceipt(o, now, t, paidAmount, change));
        ClearSale();
      } else {
        outcome := RecordFallback(store, now, o, t, paidAmount, change);
      }
    }

    /**
     * The error path: save the sale as a pending order and clear the cart (the
     * search stays); when that save fails too, nothing changes.
     */
    method RecordFallback(store: OfflineStorage.Store, now: nat, o: Order, t: Totals, paidAmount: Option<real>, change: real)
      returns (outcome: Checkout)
      requires store.Valid()
      modifies this`cart, this`customer, this`cashReceived, this`changeAmount, this`pendingCount
      modifies store`pendingOrders, store`nextOrderId
      ensures store.Valid()
      ensures outcome == (if store.isOpen then FallbackSale(OfflineReceipt(o, now, t, paidAmount, change)) else Failed)
      ensures store.isOpen ==>
        && store.pendingOrders == old(store.pendingOrders)[old(store.nextOrderId) := OfflineStorage.NewPending(old(store.nextOrderId), o, now)]
        && pendingCount == old(pendingCount) + 1
        && cart == [] && customer == None && cashReceived == "" && changeAmount == 0.0
      ensures !store.isOpen ==>
        && store.pendingOrders == old(store.pendingOrders) && pendingCount == old(pendingCount)
        && cart == old(cart) && customer == old(customer)
    {
      var saved := store.SavePendingOrder(o, now);
      if saved.StorageError? {
        return Failed;
      }
      pendingCount := pendingCount + 1;
      outcome := FallbackSale(OfflineReceipt(o, now, t, paidAmount, change));
      cart, customer, cashReceived, changeAmount := [], None, "", 0.0;
    }

    /** The reset after a completed sale, search included. */
    method ClearSale()
      modifies this`cart, this`customer, this`searchQuery, this`searchResults, this`cashReceived, this`changeAmount
      ensures cart == [] && customer == None && searchQuery == "" && searchResults == []
      ensures cashReceived == "" && changeAmount == 0.0
    {
      cart, customer, searchQuery, searchResults, cashReceived, changeAmount := [], None, "", [], "", 0.0;
    }

    /**
     * `completeCashTransaction()`: the cash is read from the cash field as
     * `CashAmount`; the sale is refused, with nothing sent or saved, when that
     * amount is below the total; otherwise checkout runs with it as the
     * amount paid and the change on screen.
     */
    method CompleteCashTransaction(backend: Api.Backend, store: OfflineStorage.Store, online: bool, token: Option<string>,
                                   now: nat, stamp: string)
      returns (outcome: Option<Checkout>)
      requires store.Valid()
      modifies this`cart, this`customer, this`searchQuery, this`searchResults, this`cashReceived, this`changeAmount, this`pendingCount
      modifies backend`sent, store`syncQueue, store`nextQueueId, store`pendingOrders, store`nextOrderId
      ensures store.Valid()
      ensures outcome.None? <==> !CashAccepted(CashAmount(old(cashReceived)), CalculateTotal(old(cart)).total)
      ensures outcome.None? ==>
        (cart == old(cart) && cashReceived == old(cashReceived) && backend.sent == old(backend.sent)
         && store.pendingOrders == old(store.pendingOrders) && store.syncQueue == old(store.syncQueue))
      ensures outcome.Some? && outcome.value != EmptyCart && outcome.value != Failed ==>
        && outcome.value.receipt.order.paymentMethod == "cash"
        && outcome.value.receipt.paid == ActualPaid(Some(CashAmount(old(cashReceived))), CalculateTotal(old(cart)).total)
        && outcome.value.receipt.change == old(changeAmount)
    {
      var total := CalculateTotal(cart).total;
      var received := CashAmount(cashReceived);
      if received < total {
        return None;
      }
      var checkout := CompleteTransaction(backend, store, online, token, now, stamp, "cash", Some(received), changeAmount);
      outcome := Some(checkout);
    }
  }
}
