/**
 * The records that travel between the backend, the local store and the
 * point-of-sale screens. Identifiers are the backend's numeric ids; money is
 * a `real` (the source uses JavaScript numbers).
 */
module Entities {
  import opened Wrappers

  type Id = nat

  /** One element of a product's `inventory` array, as the API returns it. */
  datatype StockEntry = StockEntry(quantity: Option<int>, quantityAvailable: Option<int>)

  datatype Product = Product(
    id: Id,
    sku: string,
    name: string,
    barcode: Option<string>,
    sellingPrice: Option<real>,
    price: Option<real>,
    stock: Option<int>,
    minStockLevel: Option<int>,
    inventory: seq<StockEntry>)

  datatype Customer = Customer(id: Id, name: string, phone: string, email: string)

  /** One line of a sale as it is posted: `{product_id, sku, name, quantity, unit_price}`. */
  datatype OrderItem = OrderItem(productId: Id, sku: string, name: string, quantity: int, unitPrice: real)

  /** A sale as the POS builds it: `{customer_id, items, payment_method, notes}`. */
  datatype Order = Order(customerId: Option<Id>, items: seq<OrderItem>, paymentMethod: string, notes: string)

  /**
   * A sale kept locally: the order spread with `timestamp` and `synced`, keyed
   * by the auto-assigned `localId`; `serverId` and `syncedAt` appear once synced.
   */
  datatype PendingOrder = PendingOrder(
    localId: Id,
    order: Order,
    timestamp: int,
    synced: bool,
    serverId: Option<Id>,
    syncedAt: Option<int>)

  /** The body a request carries; `Record` is the `{id, productId, ...}` shape the queue replays. */
  datatype Payload =
    | NoBody
    | OrderBody(order: Order)
    | PendingOrderBody(record: PendingOrder)
    | Credentials(email: string, password: string)
    | Record(id: Option<Id>, productId: Option<Id>)

  /** `data.id` of a payload (`undefined` unless the payload has one). */
  function IdField(p: Payload): Option<Id> {
    if p.Record? then p.id else None
  }

  /** `data.productId` of a payload. */
  function ProductIdField(p: Payload): Option<Id> {
    if p.Record? then p.productId else None
  }

  /** A deferred write: `{id, type, data, timestamp, retryCount}`. */
  datatype QueueItem = QueueItem(id: Id, tag: string, data: Payload, timestamp: int, retryCount: nat)

  /** A stock snapshot: `{product_id, quantity_on_hand, last_updated}`. */
  datatype InventoryRecord = InventoryRecord(productId: Id, quantityOnHand: int, lastUpdated: int)

  /** A bookkeeping entry: `{key, value, timestamp}`. */
  datatype MetaEntry = MetaEntry(key: string, value: int, timestamp: int)
}
