/**
 * The item-list editors of the purchasing and stock pages. Each page keeps an
 * entry row (`currentItem`) and a list of added lines (`formData.items`); an
 * add is refused while a required entry field is empty, a remove drops one
 * index, and a submit is refused while the list is empty. Quotation, GRN and
 * purchase-return lines carry a price and a line total; dispatch and
 * stock-adjustment lines carry the product's name and sku.
 */
module ItemLists {
  import opened Wrappers
  import opened Text
  import Seqs

  /** A product of the catalogue the entry row picks from. */
  datatype CatalogProduct = CatalogProduct(id: string, name: string, sku: string)

  function HasId(id: string): CatalogProduct -> bool {
    (p: CatalogProduct) => p.id == id
  }

  /** `products.find(p => p.id === id)`. */
  function FindProduct(products: seq<CatalogProduct>, id: string): Option<CatalogProduct> {
    Seqs.Find(products, HasId(id))
  }

  /** `product?.name`. */
  function NameOf(p: Option<CatalogProduct>): Option<string> {
    if p.Some? then Some(p.value.name) else None
  }

  /** `product?.sku`. */
  function SkuOf(p: Option<CatalogProduct>): Option<string> {
    if p.Some? then Some(p.value.sku) else None
  }

  /** The entry row and the lines added so far. */
  datatype Editor<L, E> = Editor(items: seq<L>, current: E)

  /** `items.filter((_, i) => i !== index)`. */
  function RemoveItem<L, E>(ed: Editor<L, E>, index: int): Editor<L, E> {
    ed.(items := Seqs.RemoveAt(ed.items, index))
  }

  /** Removing drops exactly index `index` (if it exists), keeps the other lines in order and leaves the entry row. */
  lemma RemoveItemSpec<L, E>(ed: Editor<L, E>, index: int)
    ensures RemoveItem(ed, index).current == ed.current
    ensures 0 <= index < |ed.items| ==> RemoveItem(ed, index).items == ed.items[..index] + ed.items[index + 1..]
    ensures !(0 <= index < |ed.items|) ==> RemoveItem(ed, index).items == ed.items
  {
  }

  // ------------------------------------------------------------------ NaN-aware arithmetic

  /** `a * b`, `None` standing for `NaN`. */
  function Times(a: Option<real>, b: Option<real>): Option<real> {
    if a.Some? && b.Some? then Some(a.value * b.value) else None
  }

  /** `a + b`, `None` standing for `NaN`. */
  function Plus(a: Option<real>, b: Option<real>): Option<real> {
    if a.Some? && b.Some? then Some(a.value + b.value) else None
  }

  // ------------------------------------------------------------------ priced lines

  /** The entry row `{product_id, quantity, unit_price | rate}` as typed. */
  datatype PricedEntry = PricedEntry(productId: string, quantity: string, rate: string)

  const BlankPriced: PricedEntry := PricedEntry("", "", "")

  /** An added line: the entry, `product_name` and `line_total`. */
  datatype PricedLine = PricedLine(entry: PricedEntry, productName: Option<string>, lineTotal: Option<real>)

  /** `!(!product_id || !quantity || !price)`. */
  predicate PricedFilled(e: PricedEntry) {
    e.productId != "" && e.quantity != "" && e.rate != ""
  }

  /** `parseFloat(quantity) * parseFloat(price)`. */
  function LineTotal(e: PricedEntry): Option<real> {
    Times(ParseFloat(e.quantity), ParseFloat(e.rate))
  }

  function PricedLineOf(e: PricedEntry, products: seq<CatalogProduct>): PricedLine {
    PricedLine(e, NameOf(FindProduct(products, e.productId)), LineTotal(e))
  }

  /** `addItem` on a priced list: refused (nothing changes) unless all three fields are filled. */
  function AddPriced(ed: Editor<PricedLine, PricedEntry>, products: seq<CatalogProduct>): Editor<PricedLine, PricedEntry> {
    if !PricedFilled(ed.current) then ed
    else Editor(ed.items + [PricedLineOf(ed.current, products)], BlankPriced)
  }

  /** `items.reduce((sum, item) => sum + item.line_total, 0)`. */
  function PricedTotal(items: seq<PricedLine>): Option<real> {
    if items == [] then Some(0.0) else Plus(items[0].lineTotal, PricedTotal(items[1..]))
  }

  function LineValue(l: PricedLine): real {
    l.lineTotal.GetOr(0.0)
  }

  predicate AllNumeric(items: seq<PricedLine>) {
    forall i :: 0 <= i < |items| ==> items[i].lineTotal.Some?
  }

  /** The total is a number exactly when every line total is, and it is then their sum. */
  lemma {:induction false} PricedTotalSpec(items: seq<PricedLine>)
    ensures PricedTotal(items).Some? <==> AllNumeric(items)
    ensures AllNumeric(items) ==> PricedTotal(items).value == Seqs.Sum(items, LineValue)
  {
    if items != [] {
      PricedTotalSpec(items[1..]);
      assert AllNumeric(items) ==> AllNumeric(items[1..]);
      if AllNumeric(items[1..]) && items[0].lineTotal.Some? {
        forall i | 0 <= i < |items|
          ensures items[i].lineTotal.Some?
        {
          if i > 0 {
            assert items[i] == items[1..][i - 1];
          }
        }
      }
    }
  }

  lemma {:induction false} PricedTotalAppend(items: seq<PricedLine>, l: PricedLine)
    ensures PricedTotal(items + [l]) == Plus(PricedTotal(items), l.lineTotal)
  {
    if items == [] {
      assert items + [l] == [l];
      assert [l][1..] == [];
    } else {
      assert (items + [l])[1..] == items[1..] + [l];
      PricedTotalAppend(items[1..], l);
    }
  }

  /**
   * An add with an empty field is refused and changes nothing. Otherwise it
   * appends one line whose total is quantity times price and whose name is the
   * picked product's, resets the entry row, and adds that line total to the
   * list total.
   */
  lemma AddPricedSpec(ed: Editor<PricedLine, PricedEntry>, products: seq<CatalogProduct>)
    ensures !PricedFilled(ed.current) ==> AddPriced(ed, products) == ed
    ensures PricedFilled(ed.current) ==>
      var r := AddPriced(ed, products);
      && r.items == ed.items + [PricedLine(ed.current, NameOf(FindProduct(products, ed.current.productId)), LineTotal(ed.current))]
      && r.current == BlankPriced
      && PricedTotal(r.items) == Plus(PricedTotal(ed.items), LineTotal(ed.current))
    ensures var q := ParseFloat(ed.current.quantity);
      var rate := ParseFloat(ed.current.rate);
      PricedFilled(ed.current) && PricedTotal(ed.items).Some? && q.Some? && rate.Some? ==>
        PricedTotal(AddPriced(ed, products).items) == Some(PricedTotal(ed.items).value + q.value * rate.value)
  {
    PricedTotalAppend(ed.items, PricedLineOf(ed.current, products));
  }

  /** With numeric lines, removing index `i` takes exactly that line's total out of the total. */
  lemma RemovePricedTotal(ed: Editor<PricedLine, PricedEntry>, i: int)
    requires 0 <= i < |ed.items|
    requires AllNumeric(ed.items)
    ensures PricedTotal(ed.items).Some?
    ensures PricedTotal(RemoveItem(ed, i).items) == Some(PricedTotal(ed.items).value - ed.items[i].lineTotal.value)
  {
    var r := RemoveItem(ed, i).items;
    PricedTotalSpec(ed.items);
    assert AllNumeric(r) by {
      forall j | 0 <= j < |r|
        ensures r[j].lineTotal.Some?
      {
        if j < i { assert r[j] == ed.items[j]; } else { assert r[j] == ed.items[j + 1]; }
      }
    }
    PricedTotalSpec(r);
    Seqs.SumRemoveAt(ed.items, i, LineValue);
  }

  // ------------------------------------------------------------------ counted lines

  /** The entry row `{product_id, quantity[, notes]}` as typed; `notes` is absent on the dispatch page. */
  datatype CountedEntry = CountedEntry(productId: string, quantity: string, notes: Option<string>)

  /** An added line: the entry with `product_name` and `sku` copied from the picked product. */
  datatype CountedLine = CountedLine(entry: CountedEntry, productName: Option<string>, sku: Option<string>)

  predicate CountedFilled(e: CountedEntry) {
    e.productId != "" && e.quantity != ""
  }

  /** `addItem` on a counted list; `blank` is the page's empty entry row. */
  function AddCounted(ed: Editor<CountedLine, CountedEntry>, products: seq<CatalogProduct>, blank: CountedEntry)
    : Editor<CountedLine, CountedEntry>
  {
    if !CountedFilled(ed.current) then ed
    else
      var p := FindProduct(products, ed.current.productId);
      Editor(ed.items + [CountedLine(ed.current, NameOf(p), SkuOf(p))], blank)
  }

  /**
   * An add with an empty product or quantity is refused and changes nothing.
   * Otherwise it appends one line that copies the name and sku of the product
   * with that id (none when no product has it) and resets the entry row.
   */
  lemma AddCountedSpec(ed: Editor<CountedLine, CountedEntry>, products: seq<CatalogProduct>, blank: CountedEntry)
    ensures !CountedFilled(ed.current) ==> AddCounted(ed, products, blank) == ed
    ensures CountedFilled(ed.current) ==>
      var r := AddCounted(ed, products, blank);
      && |r.items| == |ed.items| + 1
      && r.items[..|ed.items|] == ed.items
      && r.items[|ed.items|].entry == ed.current
      && r.current == blank
      && ((exists k :: 0 <= k < |products| && products[k].id == ed.current.productId) <==> r.items[|ed.items|].productName.Some?)
      && (forall k :: (0 <= k < |products| && products[k].id == ed.current.productId &&
                      (forall j :: 0 <= j < k ==> products[j].id != ed.current.productId)) ==>
          r.items[|ed.items|].productName == Some(products[k].name) && r.items[|ed.items|].sku == Some(products[k].sku))
  {
    if CountedFilled(ed.current) {
      var r := AddCounted(ed, products, blank);
      assert r.items[..|ed.items|] == ed.items;
      var p := FindProduct(products, ed.current.productId);
      forall k | 0 <= k < |products| && products[k].id == ed.current.productId &&
                 (forall j :: 0 <= j < k ==> products[j].id != ed.current.productId)
        ensures p == Some(products[k])
      {
        Seqs.FindAt(products, HasId(ed.current.productId), k);
      }
    }
  }

  // ------------------------------------------------------------------ submission

  const NoItemsMessage: string := "Please add at least one item"

  /** A submit: the post to `url` of the form's header and lines, or the alert that refused it. */
  datatype Submission<H, L> = Posted(url: string, header: H, items: seq<L>) | Refused(message: string)

  /** The guard every editor applies: an empty list is refused before any request. */
  function SubmitNonEmpty<H, L>(url: string, header: H, items: seq<L>): Submission<H, L> {
    if |items| == 0 then Refused(NoItemsMessage) else Posted(url, header, items)
  }
}
