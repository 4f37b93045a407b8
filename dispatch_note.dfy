/** The dispatch-note (stock transfer) page's item editor and submit guards. */
module DispatchNote {
  import opened Wrappers
  import opened ItemLists

  /** The fields of `formData` besides `items`. */
  datatype Header = Header(fromStoreId: string, toStoreId: string, transferDate: string, referenceNo: string, notes: string)

  const Url: string := "/stock-transfer"

  /** The entry row this page resets to: `{product_id: '', quantity: ''}`. */
  const BlankEntry: CountedEntry := CountedEntry("", "", None)

  function AddItem(ed: Editor<CountedLine, CountedEntry>, products: seq<CatalogProduct>): Editor<CountedLine, CountedEntry> {
    AddCounted(ed, products, BlankEntry)
  }

  const SameStoreMessage: string := "Source and destination stores must be different"

  /** `handleSubmit`: an empty transfer is refused, then a transfer into its own store; otherwise it is posted. */
  function HandleSubmit(header: Header, items: seq<CountedLine>): Submission<Header, CountedLine> {
    if |items| == 0 then Refused(NoItemsMessage)
    else if header.fromStoreId == header.toStoreId then Refused(SameStoreMessage)
    else Posted(Url, header, items)
  }

  /**
   * A transfer is posted exactly when it has items and two different stores;
   * the empty-list alert wins over the same-store one.
   */
  lemma HandleSubmitSpec(header: Header, items: seq<CountedLine>)
    ensures HandleSubmit(header, items).Posted? <==> items != [] && header.fromStoreId != header.toStoreId
    ensures items == [] ==> HandleSubmit(header, items) == Refused("Please add at least one item")
    ensures items != [] && header.fromStoreId == header.toStoreId ==>
      HandleSubmit(header, items) == Refused("Source and destination stores must be different")
    ensures HandleSubmit(header, items).Posted? ==> HandleSubmit(header, items) == Posted("/stock-transfer", header, items)
  {
  }

  /**
   * An add needs product and quantity, copies the picked product's name and
   * sku, and resets the entry row to `{product_id: '', quantity: ''}`;
   * removing index `i` drops only that line.
   */
  lemma EditingSpec(ed: Editor<CountedLine, CountedEntry>, products: seq<CatalogProduct>, i: int)
    ensures !CountedFilled(ed.current) ==> AddItem(ed, products) == ed
    ensures CountedFilled(ed.current) ==>
      && AddItem(ed, products).items == ed.items + [CountedLine(ed.current,
           NameOf(FindProduct(products, ed.current.productId)), SkuOf(FindProduct(products, ed.current.productId)))]
      && AddItem(ed, products).current == CountedEntry("", "", None)
    ensures 0 <= i < |ed.items| ==> RemoveItem(ed, i).items == ed.items[..i] + ed.items[i + 1..]
    ensures !(0 <= i < |ed.items|) ==> RemoveItem(ed, i) == ed
  {
    AddCountedSpec(ed, products, BlankEntry);
    RemoveItemSpec(ed, i);
  }
}
