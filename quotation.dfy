/** The quotation page's item editor and submit guard. */
module Quotation {
  import opened Wrappers
  import opened Text
  import opened ItemLists
  import Seqs

  /** The fields of `formData` besides `items`. */
  datatype Header = Header(customerId: string, quotationDate: string, validUntil: string, notes: string, terms: string)

  const Url: string := "/quotations"

  /** `handleSubmit`: an empty quotation is refused; otherwise the form is posted. */
  function HandleSubmit(header: Header, items: seq<PricedLine>): Submission<Header, PricedLine> {
    SubmitNonEmpty(Url, header, items)
  }

  lemma HandleSubmitSpec(header: Header, items: seq<PricedLine>)
    ensures HandleSubmit(header, items) == Refused(NoItemsMessage) <==> items == []
    ensures items != [] ==> HandleSubmit(header, items) == Posted("/quotations", header, items)
  {
  }

  /**
   * On this page an add needs product, quantity and unit price; the line
   * total is quantity times unit price; removing index `i` drops only that
   * line; and the total is the sum of the line totals.
   */
  lemma EditingSpec(ed: Editor<PricedLine, PricedEntry>, products: seq<CatalogProduct>, i: int)
    ensures (ed.current.productId == "" || ed.current.quantity == "" || ed.current.rate == "") ==>
      AddPriced(ed, products) == ed
    ensures PricedFilled(ed.current) ==>
      && AddPriced(ed, products).items == ed.items + [PricedLineOf(ed.current, products)]
      && AddPriced(ed, products).items[|ed.items|].lineTotal == Times(ParseFloat(ed.current.quantity), ParseFloat(ed.current.rate))
      && AddPriced(ed, products).current == PricedEntry("", "", "")
    ensures 0 <= i < |ed.items| ==> RemoveItem(ed, i).items == ed.items[..i] + ed.items[i + 1..]
    ensures AllNumeric(ed.items) ==> PricedTotal(ed.items) == Some(Seqs.Sum(ed.items, LineValue))
  {
    AddPricedSpec(ed, products);
    RemoveItemSpec(ed, i);
    PricedTotalSpec(ed.items);
  }
}
