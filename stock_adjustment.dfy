/** The stock-adjustment page's item editor, submit guard and type badge. */
module StockAdjustment {
  import opened Wrappers
  import opened ItemLists

  /** The fields of `formData` besides `items`; `adjustmentType` starts as 'increase'. */
  datatype Header = Header(storeId: string, adjustmentDate: string, adjustmentType: string, reason: string, notes: string)

  const Url: string := "/stock-adjustment"

  /** The entry row this page resets to: `{product_id: '', quantity: '', notes: ''}`. */
  const BlankEntry: CountedEntry := CountedEntry("", "", Some(""))

  function AddItem(ed: Editor<CountedLine, CountedEntry>, products: seq<CatalogProduct>): Editor<CountedLine, CountedEntry> {
    AddCounted(ed, products, BlankEntry)
  }

  /** `handleSubmit`: an empty adjustment is refused; otherwise the form is posted. */
  function HandleSubmit(header: Header, items: seq<CountedLine>): Submission<Header, CountedLine> {
    SubmitNonEmpty(Url, header, items)
  }

  lemma HandleSubmitSpec(header: Header, items: seq<CountedLine>)
    ensures HandleSubmit(header, items) == Refused(NoItemsMessage) <==> items == []
    ensures items != [] ==> HandleSubmit(header, items) == Posted("/stock-adjustment", header, items)
  {
  }

  /**
   * An add needs product and quantity, keeps the entry's notes, copies the
   * picked product's name and sku, and resets the entry row (notes included);
   * removing index `i` drops only that line.
   */
  lemma EditingSpec(ed: Editor<CountedLine, CountedEntry>, products: seq<CatalogProduct>, i: int)
    ensures !CountedFilled(ed.current) ==> AddItem(ed, products) == ed
    ensures CountedFilled(ed.current) ==>
      && |AddItem(ed, products).items| == |ed.items| + 1
      && AddItem(ed, products).items[..|ed.items|] == ed.items
      && AddItem(ed, products).items[|ed.items|].entry.notes == ed.current.notes
      && AddItem(ed, products).items[|ed.items|].sku == SkuOf(FindProduct(products, ed.current.productId))
      && AddItem(ed, products).current == CountedEntry("", "", Some(""))
    ensures 0 <= i < |ed.items| ==> RemoveItem(ed, i).items == ed.items[..i] + ed.items[i + 1..]
  {
    AddCountedSpec(ed, products, BlankEntry);
    RemoveItemSpec(ed, i);
  }

  datatype Color = Green | Red | Orange | Blue | Gray

  /** The badge class for an adjustment type, `getTypeColor`. */
  function TypeColor(adjustmentType: string): Color {
    if adjustmentType == "increase" then Green
    else if adjustmentType == "decrease" then Red
    else if adjustmentType == "damage" then Orange
    else if adjustmentType == "loss" then Red
    else if adjustmentType == "found" then Blue
    else Gray
  }

  /** The class names behind each badge colour. */
  function ClassName(c: Color): string {
    match c
    case Green => "bg-green-100 text-green-700"
    case Red => "bg-red-100 text-red-700"
    case Orange => "bg-orange-100 text-orange-700"
    case Blue => "bg-blue-100 text-blue-700"
    case Gray => "bg-gray-100 text-gray-700"
  }

  /**
   * Red is exactly 'decrease' and 'loss'; green, orange and blue are exactly
   * 'increase', 'damage' and 'found'; every other type gets the default grey;
   * distinct colours have distinct classes.
   */
  lemma TypeColorSpec(t: string, c: Color, d: Color)
    ensures TypeColor(t) == Red <==> t == "decrease" || t == "loss"
    ensures TypeColor(t) == Green <==> t == "increase"
    ensures TypeColor(t) == Orange <==> t == "damage"
    ensures TypeColor(t) == Blue <==> t == "found"
    ensures TypeColor(t) == Gray <==> t !in {"increase", "decrease", "damage", "loss", "found"}
    ensures c != d ==> ClassName(c) != ClassName(d)
  {
  }
}
