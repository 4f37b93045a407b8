/**
 * The returns page: loading an order's items for a return, editing the
 * quantity to return per item, choosing the items a return submits and the
 * refund shown for it.
 */
module Returns {
  import opened Wrappers
  import opened Entities
  import opened Text
  import Seqs

  /** An item of the original order, as `/orders/:id` sends it. */
  datatype OrderLine = OrderLine(productId: Id, productName: string, quantity: int, unitPrice: Option<real>)

  /** An order item with its `return_quantity`; `None` is the `NaN` that `parseInt` gives for a non-number. */
  datatype ReturnItem = ReturnItem(line: OrderLine, returnQuantity: Option<int>)

  /** The form: the original order, its customer, the reason and condition, the items and the notes. */
  datatype Form = Form(originalOrderId: Option<Id>, customerId: Option<Id>, reason: string, condition: string,
                       items: seq<ReturnItem>, notes: string)

  const EmptyForm: Form := Form(None, None, "", "good", [], "")

  /** One submitted line: `{product_id, quantity, unit_price}`. */
  datatype ReturnLine = ReturnLine(productId: Id, quantity: int, unitPrice: Option<real>)

  /** The body posted to `/returns`. */
  datatype ReturnRequest = ReturnRequest(originalOrderId: Option<Id>, customerId: Option<Id>, staffId: Id,
                                         reason: string, condition: string, items: seq<ReturnLine>, notes: string)

  // ------------------------------------------------------------------ loading and editing

  function Fresh(l: OrderLine): ReturnItem {
    ReturnItem(l, Some(0))
  }

  /** `loadOrderDetails`: the order's items, each with `return_quantity: 0`; the reason, condition and notes stay. */
  function LoadOrderDetails(form: Form, orderId: Id, customerId: Option<Id>, lines: seq<OrderLine>): Form {
    form.(originalOrderId := Some(orderId), customerId := customerId,
          items := seq(|lines|, i requires 0 <= i < |lines| => Fresh(lines[i])))
  }

  /** `updateReturnQuantity(index, quantity)`: the one item's `return_quantity` becomes `parseInt(quantity)`. */
  function UpdateReturnQuantity(form: Form, index: int, quantity: string): Form
    requires 0 <= index < |form.items|
  {
    form.(items := form.items[index := form.items[index].(returnQuantity := ParseInt(quantity))])
  }

  /**
   * Loading keeps the order's items in order and sets every return quantity
   * to 0, so nothing is selected yet, the refund is 0 and the submit button is
   * disabled.
   */
  lemma LoadOrderDetailsSpec(form: Form, orderId: Id, customerId: Option<Id>, lines: seq<OrderLine>)
    ensures var f := LoadOrderDetails(form, orderId, customerId, lines);
      && |f.items| == |lines|
      && (forall i :: 0 <= i < |lines| ==> f.items[i].line == lines[i] && f.items[i].returnQuantity == Some(0))
      && f.reason == form.reason && f.condition == form.condition && f.notes == form.notes
      && Submitted(f.items) == []
      && Refund(f.items) == 0.0
      && !SubmitEnabled(true, f.items)
  {
    var f := LoadOrderDetails(form, orderId, customerId, lines);
    NoneChosen(f.items);
    assert Refund(f.items) == Seqs.Sum(Submitted(f.items), LineRefund);
  }

  /** Editing one item changes only that item's return quantity; the other items and fields stay. */
  lemma UpdateReturnQuantitySpec(form: Form, index: int, quantity: string)
    requires 0 <= index < |form.items|
    ensures var f := UpdateReturnQuantity(form, index, quantity);
      && |f.items| == |form.items|
      && f.items[index].returnQuantity == ParseInt(quantity)
      && f.items[index].line == form.items[index].line
      && (forall j :: 0 <= j < |f.items| && j != index ==> f.items[j] == form.items[j])
      && f.(items := form.items) == form
  {
  }

  // ------------------------------------------------------------------ submission

  /** `item.return_quantity > 0`; a `NaN` is not greater than 0. */
  predicate Chosen(item: ReturnItem) {
    item.returnQuantity.Some? && item.returnQuantity.value > 0
  }

  function ToLine(item: ReturnItem): ReturnLine {
    ReturnLine(item.line.productId, item.returnQuantity.GetOr(0), item.line.unitPrice)
  }

  /** The items a return submits: the chosen ones, in their order, as return lines. */
  function Submitted(items: seq<ReturnItem>): seq<ReturnLine> {
    var kept := Seqs.Filter(items, Chosen);
    seq(|kept|, k requires 0 <= k < |kept| => ToLine(kept[k]))
  }

  lemma SubmittedAppend(a: seq<ReturnItem>, b: seq<ReturnItem>)
    ensures Submitted(a + b) == Submitted(a) + Submitted(b)
  {
    Seqs.FilterAppend(a, b, Chosen);
  }

  /**
   * The submitted lines are exactly the items with a positive return
   * quantity, in their original order: one item gives its own line or none,
   * and a concatenation submits the concatenation. Every submitted quantity
   * is positive.
   */
  lemma SubmittedSpec(items: seq<ReturnItem>, x: ReturnItem, a: seq<ReturnItem>, b: seq<ReturnItem>)
    ensures Submitted([]) == []
    ensures Submitted([x]) == if Chosen(x) then [ToLine(x)] else []
    ensures Submitted(a + b) == Submitted(a) + Submitted(b)
    ensures forall k :: 0 <= k < |Submitted(items)| ==> Submitted(items)[k].quantity > 0
  {
    assert [x][1..] == [];
    SubmittedAppend(a, b);
    Seqs.FilterSpec(items, Chosen);
  }

  lemma {:induction false} NoneChosen(items: seq<ReturnItem>)
    requires forall i :: 0 <= i < |items| ==> !Chosen(items[i])
    ensures Seqs.Filter(items, Chosen) == []
  {
    if items != [] {
      NoneChosen(items[1..]);
    }
  }

  /** `handleSubmit`: the post, or `None` (an alert and no request) when no item is chosen. */
  function HandleSubmit(form: Form, staffId: Id): Option<ReturnRequest> {
    var lines := Submitted(form.items);
    if |lines| == 0 then None
    else Some(ReturnRequest(form.originalOrderId, form.customerId, staffId, form.reason, form.condition, lines, form.notes))
  }

  /** A return is posted exactly when some item has a positive quantity, and it carries the submitted lines and the form's fields. */
  lemma HandleSubmitSpec(form: Form, staffId: Id)
    ensures HandleSubmit(form, staffId).None? <==> forall i :: 0 <= i < |form.items| ==> !Chosen(form.items[i])
    ensures HandleSubmit(form, staffId).Some? ==>
      HandleSubmit(form, staffId).value == ReturnRequest(form.originalOrderId, form.customerId, staffId,
        form.reason, form.condition, Submitted(form.items), form.notes)
  {
    if forall i :: 0 <= i < |form.items| ==> !Chosen(form.items[i]) {
      NoneChosen(form.items);
    } else {
      var i :| 0 <= i < |form.items| && Chosen(form.items[i]);
      Seqs.FilterMembership(form.items, Chosen, form.items[i]);
    }
  }

  /** The submit button: disabled without an order or while every return quantity is exactly 0. */
  predicate SubmitEnabled(orderSelected: bool, items: seq<ReturnItem>) {
    orderSelected && !(forall i :: 0 <= i < |items| ==> items[i].returnQuantity == Some(0))
  }

  /** The button can be enabled while the submission is still refused: a cleared quantity is `NaN`, not 0. */
  lemma EnabledButRefused(l: OrderLine)
    ensures SubmitEnabled(true, [ReturnItem(l, None)])
    ensures HandleSubmit(Form(None, None, "", "good", [ReturnItem(l, None)], ""), 0).None?
  {
    assert Seqs.Filter([ReturnItem(l, None)], Chosen) == [];
  }

  // ------------------------------------------------------------------ refund

  /** `parseFloat(item.unit_price || 0) * parseInt(item.return_quantity || 0)`. */
  function ItemAmount(item: ReturnItem): real {
    item.line.unitPrice.GetOr(0.0) * item.returnQuantity.GetOr(0) as real
  }

  /** `calculateRefundAmount` as written: the sum over every item, whatever its quantity. */
  function RefundAsWritten(items: seq<ReturnItem>): real {
    Seqs.Sum(items, ItemAmount)
  }

  /**
   * The displayed refund counts a negative quantity that is never submitted:
   * with quantities 2 and -1 at 10 the screen shows 10 while 20 is refunded.
   * The field's `min="0"` makes the browser refuse such a form, so only a
   * submit that bypasses that validation reaches this state.
   */
  lemma RefundAsWrittenCountsNegatives()
    ensures var a := ReturnItem(OrderLine(1, "a", 2, Some(10.0)), Some(2));
      var b := ReturnItem(OrderLine(2, "b", 2, Some(10.0)), Some(-1));
      && Submitted([a, b]) == [ReturnLine(1, 2, Some(10.0))]
      && RefundAsWritten([a, b]) == 10.0
      && Refund([a, b]) == 20.0
  {
    var a := ReturnItem(OrderLine(1, "a", 2, Some(10.0)), Some(2));
    var b := ReturnItem(OrderLine(2, "b", 2, Some(10.0)), Some(-1));
    assert [a, b][1..] == [b];
    assert Seqs.Filter([b], Chosen) == [];
    assert Seqs.Filter([a, b], Chosen) == [a];
  }

  function LineRefund(l: ReturnLine): real {
    l.unitPrice.GetOr(0.0) * l.quantity as real
  }

  /** The refund of what is submitted: the sum of unit price times quantity over the submitted lines. */
  function Refund(items: seq<ReturnItem>): real {
    Seqs.Sum(Submitted(items), LineRefund)
  }

  function ChosenAmount(item: ReturnItem): real {
    if Chosen(item) then ItemAmount(item) else 0.0
  }

  lemma {:induction false} RefundByItem(items: seq<ReturnItem>)
    ensures Refund(items) == Seqs.Sum(items, ChosenAmount)
  {
    if items != [] {
      RefundByItem(items[1..]);
      assert items == [items[0]] + items[1..];
      SubmittedAppend([items[0]], items[1..]);
      assert [items[0]][1..] == [];
      Seqs.SumAppend(Submitted([items[0]]), Submitted(items[1..]), LineRefund);
    }
  }

  lemma {:induction false} RefundsAgree(items: seq<ReturnItem>)
    requires forall i :: 0 <= i < |items| ==> items[i].returnQuantity.GetOr(0) >= 0
    ensures Seqs.Sum(items, ChosenAmount) == RefundAsWritten(items)
  {
    if items != [] {
      RefundsAgree(items[1..]);
    }
  }

  lemma {:induction false} ChosenSumNonNegative(items: seq<ReturnItem>)
    requires forall i :: 0 <= i < |items| ==> items[i].line.unitPrice.GetOr(0.0) >= 0.0
    ensures Seqs.Sum(items, ChosenAmount) >= 0.0
  {
    if items != [] {
      ChosenSumNonNegative(items[1..]);
    }
  }

  /**
   * The refund is the sum of unit price times return quantity over the items
   * with a positive quantity; it agrees with the sum over every item whenever
   * no quantity is negative, and it is never negative for non-negative prices.
   */
  lemma RefundSpec(items: seq<ReturnItem>)
    ensures Refund(items) == Seqs.Sum(items, ChosenAmount)
    ensures (forall i :: 0 <= i < |items| ==> items[i].returnQuantity.GetOr(0) >= 0) ==>
      Refund(items) == RefundAsWritten(items)
    ensures (forall i :: 0 <= i < |items| ==> items[i].line.unitPrice.GetOr(0.0) >= 0.0) ==> Refund(items) >= 0.0
  {
    RefundByItem(items);
    if forall i :: 0 <= i < |items| ==> items[i].returnQuantity.GetOr(0) >= 0 {
      RefundsAgree(items);
    }
    if forall i :: 0 <= i < |items| ==> items[i].line.unitPrice.GetOr(0.0) >= 0.0 {
      ChosenSumNonNegative(items);
    }
  }
}
