/**
 * The purchase-order page: the editable item rows of a new order, their
 * total, the submit, and the status counts and Receive action of the list.
 */
module PurchaseOrders {
  import opened Wrappers
  import opened Text
  import ItemLists
  import Seqs

  /** A numeric field: the number it starts with, or the text typed into it since. */
  datatype Cell = Num(n: int) | Typed(s: string)

  /** One row `{product_id, quantity_ordered, unit_cost}`. */
  datatype PoLine = PoLine(productId: string, quantityOrdered: Cell, unitCost: Cell)

  /** `addItemToForm`'s new row. */
  const NewLine: PoLine := PoLine("", Num(1), Num(0))

  datatype Field = ProductId | QuantityOrdered | UnitCost

  /** `addItemToForm`. */
  function AddItemToForm(items: seq<PoLine>): seq<PoLine> {
    items + [NewLine]
  }

  /** `updateItem(index, field, value)`: the typed `value` replaces that one field of that one row. */
  function UpdateItem(items: seq<PoLine>, index: int, field: Field, value: string): seq<PoLine>
    requires 0 <= index < |items|
  {
    var l := items[index];
    items[index := match field
      case ProductId => l.(productId := value)
      case QuantityOrdered => l.(quantityOrdered := Typed(value))
      case UnitCost => l.(unitCost := Typed(value))]
  }

  /** `removeItem(index)`. */
  function RemoveItem(items: seq<PoLine>, index: int): seq<PoLine> {
    Seqs.RemoveAt(items, index)
  }

  /** `parseFloat(c || 0)`; `None` is `NaN`. */
  function CostOf(c: Cell): Option<real> {
    match c
    case Num(n) => Some(n as real)
    case Typed(s) => if s == "" then Some(0.0) else ParseFloat(s)
  }

  /** `parseInt(c || 0)`; `None` is `NaN`. */
  function QuantityOf(c: Cell): Option<int> {
    match c
    case Num(n) => Some(n)
    case Typed(s) => if s == "" then Some(0) else ParseInt(s)
  }

  function Amount(l: PoLine): Option<real> {
    var q := QuantityOf(l.quantityOrdered);
    ItemLists.Times(CostOf(l.unitCost), if q.Some? then Some(q.value as real) else None)
  }

  /** `calculateTotal`: the sum of unit cost times quantity over the rows. */
  function CalculateTotal(items: seq<PoLine>): Option<real> {
    if items == [] then Some(0.0) else ItemLists.Plus(Amount(items[0]), CalculateTotal(items[1..]))
  }

  function AmountValue(l: PoLine): real {
    Amount(l).GetOr(0.0)
  }

  predicate AllNumeric(items: seq<PoLine>) {
    forall i :: 0 <= i < |items| ==> Amount(items[i]).Some?
  }

  lemma {:induction false} CalculateTotalSpec(items: seq<PoLine>)
    ensures CalculateTotal(items).Some? <==> AllNumeric(items)
    ensures AllNumeric(items) ==> CalculateTotal(items).value == Seqs.Sum(items, AmountValue)
  {
    if items != [] {
      CalculateTotalSpec(items[1..]);
      assert AllNumeric(items) ==> AllNumeric(items[1..]);
      if AllNumeric(items[1..]) && Amount(items[0]).Some? {
        forall i | 0 <= i < |items|
          ensures Amount(items[i]).Some?
        {
          if i > 0 {
            assert items[i] == items[1..][i - 1];
          }
        }
      }
    }
  }

  lemma {:induction false} TotalAppend(items: seq<PoLine>, l: PoLine)
    ensures CalculateTotal(items + [l]) == ItemLists.Plus(CalculateTotal(items), Amount(l))
  {
    if items == [] {
      assert items + [l] == [l];
      assert [l][1..] == [];
    } else {
      assert (items + [l])[1..] == items[1..] + [l];
      TotalAppend(items[1..], l);
    }
  }

  /** A new row is `{product_id: '', quantity_ordered: 1, unit_cost: 0}` at the end, and it adds nothing to the total. */
  lemma AddItemToFormSpec(items: seq<PoLine>)
    ensures AddItemToForm(items) == items + [PoLine("", Num(1), Num(0))]
    ensures CalculateTotal(AddItemToForm(items)) == CalculateTotal(items)
  {
    TotalAppend(items, NewLine);
    assert Amount(NewLine) == Some(0.0);
  }

  /** An edit changes the named field of row `index` and nothing else. */
  lemma UpdateItemSpec(items: seq<PoLine>, index: int, field: Field, value: string)
    requires 0 <= index < |items|
    ensures var r := UpdateItem(items, index, field, value);
      && |r| == |items|
      && (forall j :: 0 <= j < |r| && j != index ==> r[j] == items[j])
      && (r[index].productId == if field == ProductId then value else items[index].productId)
      && (r[index].quantityOrdered == if field == QuantityOrdered then Typed(value) else items[index].quantityOrdered)
      && (r[index].unitCost == if field == UnitCost then Typed(value) else items[index].unitCost)
  {
  }

  /** Removing row `i` drops only that row and, with numeric rows, exactly its amount from the total. */
  lemma RemoveItemSpec(items: seq<PoLine>, i: int)
    requires 0 <= i < |items|
    ensures RemoveItem(items, i) == items[..i] + items[i + 1..]
    ensures AllNumeric(items) ==> CalculateTotal(RemoveItem(items, i)) == Some(Seqs.Sum(items, AmountValue) - AmountValue(items[i]))
  {
    var r := RemoveItem(items, i);
    if AllNumeric(items) {
      assert AllNumeric(r) by {
        forall j | 0 <= j < |r|
          ensures Amount(r[j]).Some?
        {
          if j < i { assert r[j] == items[j]; } else { assert r[j] == items[j + 1]; }
        }
      }
      CalculateTotalSpec(r);
      Seqs.SumRemoveAt(items, i, AmountValue);
    }
  }

  /** An empty field, typed or initial, counts as 0 whatever the other field holds. */
  lemma EmptyCountsZero(l: PoLine)
    requires l.unitCost == Typed("") || l.unitCost == Num(0)
    requires QuantityOf(l.quantityOrdered).Some?
    ensures Amount(l) == Some(0.0)
  {
  }

  /** Typed whole numbers are read as those numbers by both `parseInt` and `parseFloat`. */
  lemma TypedWholeNumbers(q: string, c: string)
    requires q != [] && forall i :: 0 <= i < |q| ==> IsDigit(q[i])
    requires c != [] && forall i :: 0 <= i < |c| ==> IsDigit(c[i])
    ensures QuantityOf(Typed(q)) == Some(DigitsValue(q))
    ensures CostOf(Typed(c)) == Some(DigitsValue(c) as real)
  {
    ParseFloatOfDigits(c);
    ParseDigits(q);
  }

  // ------------------------------------------------------------------ submit and the list

  datatype Header = Header(supplierId: string, expectedDate: string, notes: string)

  const Url: string := "/purchase-orders"

  /** The body's fields besides the rows: the form's header and the signed-in user's id as `staff_id`. */
  datatype PoHeader = PoHeader(form: Header, staffId: string)

  /** `handleSubmit`: the form is posted as it is; this page has no empty-list guard. */
  function HandleSubmit(header: Header, items: seq<PoLine>, staffId: string): ItemLists.Submission<PoHeader, PoLine> {
    ItemLists.Posted(Url, PoHeader(header, staffId), items)
  }

  /**
   * Every form is posted to `/purchase-orders` with all its rows and the
   * user's id. Compared with the guard the other editors share, the two agree
   * on every non-empty list, and only this page posts an empty one.
   */
  lemma HandleSubmitSpec(header: Header, items: seq<PoLine>, staffId: string)
    ensures var r := HandleSubmit(header, items, staffId);
      && r.Posted? && r.url == "/purchase-orders" && r.items == items
      && r.header.form == header && r.header.staffId == staffId
    ensures var guarded := ItemLists.SubmitNonEmpty(Url, PoHeader(header, staffId), items);
      && (items != [] ==> HandleSubmit(header, items, staffId) == guarded)
      && (items == [] ==> guarded.Refused? && HandleSubmit(header, items, staffId).Posted?)
  {
  }

  datatype PurchaseOrder = PurchaseOrder(poNumber: string, status: string)

  function IsPending(po: PurchaseOrder): bool { po.status == "pending" }

  function IsReceived(po: PurchaseOrder): bool { po.status == "received" }

  /** The Receive button is shown on a row exactly when its order is pending. */
  predicate ReceiveOffered(po: PurchaseOrder) {
    po.status == "pending"
  }

  lemma {:induction false} CountsDisjoint(pos: seq<PurchaseOrder>)
    ensures Seqs.Count(pos, IsPending) + Seqs.Count(pos, IsReceived) <= |pos|
  {
    if pos != [] {
      CountsDisjoint(pos[1..]);
    }
  }

  /**
   * The Pending and Received cards count disjoint sets of orders, so together
   * they never exceed the list; the Pending card counts exactly the rows that
   * offer Receive.
   */
  lemma StatusCountsSpec(pos: seq<PurchaseOrder>, po: PurchaseOrder)
    ensures Seqs.Count(pos, IsPending) + Seqs.Count(pos, IsReceived) <= |pos|
    ensures ReceiveOffered(po) <==> IsPending(po)
    ensures forall k :: 0 <= k < Seqs.Count(pos, IsPending) ==> ReceiveOffered(Seqs.Filter(pos, IsPending)[k])
    ensures forall x :: x in pos && ReceiveOffered(x) ==> x in Seqs.Filter(pos, IsPending)
  {
    CountsDisjoint(pos);
    Seqs.FilterSpec(pos, IsPending);
    forall x | x in pos && ReceiveOffered(x)
      ensures x in Seqs.Filter(pos, IsPending)
    {
      Seqs.FilterMembership(pos, IsPending, x);
    }
  }
}
