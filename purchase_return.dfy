/** The purchase-return page's item editor and submit guard. */
module PurchaseReturn {
  import opened Wrappers
  import opened Text
  import opened ItemLists
  import Seqs

  /** The fields of `formData` besides `items`. */
  datatype Header = Header(supplierId: string, grnId: string, storeId: string, returnDate: string, reason: string, notes: string)

  const Url: string := "/purchase-returns"

  /** `handleSubmit`: an empty return is refused; otherwise the form is posted. */
  function HandleSubmit(header: Header, items: seq<PricedLine>): Submission<Header, PricedLine> {
    SubmitNonEmpty(Url, header, items)
  }

  lemma HandleSubmitSpec(header: Header, items: seq<PricedLine>)
    ensures HandleSubmit(header, items) == Refused(NoItemsMessage) <==> items == []
    ensures items != [] ==> HandleSubmit(header, items) == Posted("/purchase-returns", header, items)
  {
  }

  /**
   * On this page an add needs product, quantity and rate; the line total is
   * quantity times rate and the entry row resets; removing index `i` drops
   * only that line and takes its total out of the return total, which is the
   * sum of the line totals.
   */
  lemma EditingSpec(ed: Editor<PricedLine, PricedEntry>, products: seq<CatalogProduct>, i: int)
    ensures !PricedFilled(ed.current) ==> AddPriced(ed, products) == ed
    ensures PricedFilled(ed.current) ==>
      && AddPriced(ed, products).items == ed.items + [PricedLineOf(ed.current, products)]
      && AddPriced(ed, products).items[|ed.items|].lineTotal == Times(ParseFloat(ed.current.quantity), ParseFloat(ed.current.rate))
      && AddPriced(ed, products).current == PricedEntry("", "", "")
    ensures 0 <= i < |ed.items| ==> RemoveItem(ed, i).items == ed.items[..i] + ed.items[i + 1..]
    ensures AllNumeric(ed.items) ==> PricedTotal(ed.items) == Some(Seqs.Sum(ed.items, LineValue))
    ensures 0 <= i < |ed.items| && AllNumeric(ed.items) ==>
      PricedTotal(RemoveItem(ed, i).items) == Some(Seqs.Sum(ed.items, LineValue) - ed.items[i].lineTotal.value)
  {
    AddPricedSpec(ed, products);
    RemoveItemSpec(ed, i);
    PricedTotalSpec(ed.items);
    if 0 <= i < |ed.items| && AllNumeric(ed.items) {
      RemovePricedTotal(ed, i);
    }
  }
}
