/**
 * The local persistent store of the POS terminal: six collections held as
 * maps (products, customers, pendingOrders, inventory, syncQueue, metadata)
 * with the key generators of the two auto-increment collections. Every
 * operation fails while the database has not been isOpen (the `db` field is
 * still null, so the transaction cannot be created).
 */
module OfflineStorage {
  import opened Wrappers
  import opened Entities
  import opened Text
  import KeyOrder
  import Seqs

  const LastProductSync: string := "lastProductSync"
  const LastCustomerSync: string := "lastCustomerSync"

  /** The result of a read or an insert that reports a value. */
  datatype Outcome<T> = Ok(value: T) | StorageError

  datatype Collection = Products | Customers | PendingOrders | Inventory | SyncQueue | Metadata

  function ProductKey(p: Product): Id { p.id }
  function CustomerKey(c: Customer): Id { c.id }

  // ------------------------------------------------------------------ put by key

  /** Writing `xs` one after another with `put`: later records replace earlier ones with the same key. */
  function PutAll<T>(m: map<Id, T>, xs: seq<T>, key: T -> Id): map<Id, T>
    decreases |xs|
  {
    if xs == [] then m
    else PutAll(m, xs[..|xs| - 1], key)[key(xs[|xs| - 1]) := xs[|xs| - 1]]
  }

  /** The last record of `xs` with key `k`. */
  function Latest<T>(xs: seq<T>, k: Id, key: T -> Id): (r: Option<T>)
    ensures r.Some? ==> key(r.value) == k
    decreases |xs|
  {
    if xs == [] then None
    else if key(xs[|xs| - 1]) == k then Some(xs[|xs| - 1])
    else Latest(xs[..|xs| - 1], k, key)
  }

  /** What a key holds after `PutAll`: the last record written under it, else what it held before. */
  lemma {:induction false} PutAllAt<T>(m: map<Id, T>, xs: seq<T>, key: T -> Id, k: Id)
    ensures k in PutAll(m, xs, key) <==> k in m || Latest(xs, k, key).Some?
    ensures k in PutAll(m, xs, key) ==>
      PutAll(m, xs, key)[k] == (if Latest(xs, k, key).Some? then Latest(xs, k, key).value else m[k])
    decreases |xs|
  {
    if xs != [] {
      PutAllAt(m, xs[..|xs| - 1], key, k);
    }
  }

  lemma {:induction false} LatestFindsLast<T>(xs: seq<T>, key: T -> Id, i: int)
    requires 0 <= i < |xs|
    requires forall j :: i < j < |xs| ==> key(xs[j]) != key(xs[i])
    ensures Latest(xs, key(xs[i]), key) == Some(xs[i])
    decreases |xs|
  {
    if i < |xs| - 1 {
      LatestFindsLast(xs[..|xs| - 1], key, i);
    }
  }

  lemma {:induction false} LatestAbsent<T>(xs: seq<T>, key: T -> Id, k: Id)
    requires forall j :: 0 <= j < |xs| ==> key(xs[j]) != k
    ensures Latest(xs, k, key) == None
    decreases |xs|
  {
    if xs != [] {
      LatestAbsent(xs[..|xs| - 1], key, k);
    }
  }

  /** A record that no later record of the batch replaces is retrievable by its key. */
  lemma PutAllStores<T>(m: map<Id, T>, xs: seq<T>, key: T -> Id, i: int)
    requires 0 <= i < |xs|
    requires forall j :: i < j < |xs| ==> key(xs[j]) != key(xs[i])
    ensures key(xs[i]) in PutAll(m, xs, key) && PutAll(m, xs, key)[key(xs[i])] == xs[i]
  {
    LatestFindsLast(xs, key, i);
    PutAllAt(m, xs, key, key(xs[i]));
  }

  /** Keys that the batch does not mention keep their records. */
  lemma PutAllUntouched<T>(m: map<Id, T>, xs: seq<T>, key: T -> Id, k: Id)
    requires forall j :: 0 <= j < |xs| ==> key(xs[j]) != k
    ensures k in PutAll(m, xs, key) <==> k in m
    ensures k in m ==> PutAll(m, xs, key)[k] == m[k]
  {
    LatestAbsent(xs, key, k);
    PutAllAt(m, xs, key, k);
  }

  /** Saving the same batch twice leaves the collection as saving it once: the idempotent pull. */
  lemma PutAllIdempotent<T>(m: map<Id, T>, xs: seq<T>, key: T -> Id)
    ensures PutAll(PutAll(m, xs, key), xs, key) == PutAll(m, xs, key)
  {
    var once := PutAll(m, xs, key);
    var twice := PutAll(once, xs, key);
    forall k | true
      ensures k in twice <==> k in once
      ensures k in twice ==> twice[k] == once[k]
    {
      PutAllAt(m, xs, key, k);
      PutAllAt(once, xs, key, k);
    }
  }

  /** The key of the j-th listed record is the j-th smallest key. */
  lemma ListingKeys<T>(m: map<Id, T>, key: T -> Id, j: int)
    requires forall k :: k in m ==> key(m[k]) == k
    requires 0 <= j < |m|
    ensures |KeyOrder.ValuesByKey(m)| == |m| && |KeyOrder.SortedKeys(m.Keys)| == |m|
    ensures key(KeyOrder.ValuesByKey(m)[j]) == KeyOrder.SortedKeys(m.Keys)[j]
  {
    KeyOrder.ValuesByKeySpec(m);
    assert KeyOrder.SortedKeys(m.Keys)[j] in m;
  }

  lemma OwnListingAt<T>(m: map<Id, T>, key: T -> Id, k: Id)
    requires forall k :: k in m ==> key(m[k]) == k
    ensures k in PutAll(m, KeyOrder.ValuesByKey(m), key) <==> k in m
    ensures k in m ==> PutAll(m, KeyOrder.ValuesByKey(m), key)[k] == m[k]
  {
    var keys := KeyOrder.SortedKeys(m.Keys);
    var all := KeyOrder.ValuesByKey(m);
    PutAllAt(m, all, key, k);
    if k in m {
      KeyOrder.ValuesByKeySpec(m);
      var i :| 0 <= i < |keys| && keys[i] == k;
      assert all[i] == m[k];
      forall j | i < j < |all|
        ensures key(all[j]) != key(all[i])
      {
        ListingKeys(m, key, j);
        ListingKeys(m, key, i);
      }
      LatestFindsLast(all, key, i);
    } else {
      KeyOrder.ValuesByKeySpec(m);
      forall j | 0 <= j < |all|
        ensures key(all[j]) != k
      {
        ListingKeys(m, key, j);
      }
      LatestAbsent(all, key, k);
    }
  }

  /** Saving a collection's own listing back into it changes nothing. */
  lemma PutAllOwnListing<T>(m: map<Id, T>, key: T -> Id)
    requires forall k :: k in m ==> key(m[k]) == k
    ensures PutAll(m, KeyOrder.ValuesByKey(m), key) == m
  {
    var r := PutAll(m, KeyOrder.ValuesByKey(m), key);
    forall k | true
      ensures k in r <==> k in m
      ensures k in r ==> r[k] == m[k]
    {
      OwnListingAt(m, key, k);
    }
  }

  // ------------------------------------------------------------------ pending orders

  predicate IsUnsynced(o: PendingOrder) { !o.synced }

  /** `getPendingOrders()`: the stored orders whose `synced` is false, in key order. */
  function PendingOf(m: map<Id, PendingOrder>): seq<PendingOrder> {
    Seqs.Filter(KeyOrder.ValuesByKey(m), IsUnsynced)
  }

  /** The record `savePendingOrder` stores: the order, its timestamp and `synced = false`. */
  function NewPending(localId: Id, order: Order, now: int): (p: PendingOrder)
    ensures p.localId == localId && p.order == order && p.timestamp == now
    ensures !p.synced && p.serverId == None && p.syncedAt == None
  {
    PendingOrder(localId, order, now, false, None, None)
  }

  /** `markOrderAsSynced`: flags one record synced with its server id; an unknown id changes nothing. */
  function MarkSynced(m: map<Id, PendingOrder>, localId: Id, serverId: Option<Id>, now: int): map<Id, PendingOrder> {
    if localId in m then m[localId := m[localId].(synced := true, serverId := serverId, syncedAt := Some(now))]
    else m
  }

  /**
   * Marking changes that one record only, and only its `synced`, `serverId`
   * and `syncedAt`; an unknown id leaves the collection as it was.
   */
  lemma MarkSyncedSpec(m: map<Id, PendingOrder>, localId: Id, serverId: Option<Id>, now: int)
    ensures localId !in m ==> MarkSynced(m, localId, serverId, now) == m
    ensures MarkSynced(m, localId, serverId, now).Keys == m.Keys
    ensures localId in m ==>
      MarkSynced(m, localId, serverId, now)[localId] == m[localId].(synced := true, serverId := serverId, syncedAt := Some(now))
    ensures forall k :: k in m && k != localId ==> MarkSynced(m, localId, serverId, now)[k] == m[k]
  {
  }

  /** An order is listed as pending exactly when it is stored and not synced. */
  lemma PendingOfExactly(m: map<Id, PendingOrder>, o: PendingOrder)
    ensures o in PendingOf(m) <==> (!o.synced && exists k :: k in m && m[k] == o)
  {
    var all := KeyOrder.ValuesByKey(m);
    Seqs.FilterMembership(all, IsUnsynced, o);
    if o in all {
      var i :| 0 <= i < |all| && all[i] == o;
      KeyOrder.ValuesByKeySound(m, i);
    }
    if exists k :: k in m && m[k] == o {
      var k :| k in m && m[k] == o;
      KeyOrder.ValuesByKeyComplete(m, k);
    }
  }

  /** After `markOrderAsSynced(id, ...)` no listed pending order has that id, and every other pending order stays listed. */
  lemma MarkSyncedLeavesPending(m: map<Id, PendingOrder>, localId: Id, serverId: Option<Id>, now: int)
    requires forall k :: k in m ==> m[k].localId == k
    ensures forall o :: o in PendingOf(MarkSynced(m, localId, serverId, now)) ==> o.localId != localId
    ensures forall k :: k in m && k != localId && !m[k].synced ==> m[k] in PendingOf(MarkSynced(m, localId, serverId, now))
  {
    var r := MarkSynced(m, localId, serverId, now);
    MarkSyncedSpec(m, localId, serverId, now);
    forall o | o in PendingOf(r)
      ensures o.localId != localId
    {
      PendingOfExactly(r, o);
      var k :| k in r && r[k] == o;
      assert r[k].localId == k;
    }
    forall k | k in m && k != localId && !m[k].synced
      ensures m[k] in PendingOf(r)
    {
      assert r[k] == m[k];
      PendingOfExactly(r, m[k]);
    }
  }

  /** The pending list is in increasing `localId` order, so no order appears twice. */
  lemma PendingIdsIncreasing(m: map<Id, PendingOrder>)
    requires forall k :: k in m ==> m[k].localId == k
    ensures Seqs.IncreasingBy(PendingOf(m), (o: PendingOrder) => o.localId)
  {
    var keys := KeyOrder.SortedKeys(m.Keys);
    var all := KeyOrder.ValuesByKey(m);
    KeyOrder.ValuesByKeySpec(m);
    forall i, j | 0 <= i < j < |all|
      ensures all[i].localId < all[j].localId
    {
      assert all[i] == m[keys[i]] && all[j] == m[keys[j]];
    }
    Seqs.FilterIncreasing(all, IsUnsynced, (o: PendingOrder) => o.localId);
  }

  /** A freshly saved order is listed as pending. */
  lemma NewPendingListed(m: map<Id, PendingOrder>, localId: Id, order: Order, now: int)
    ensures NewPending(localId, order, now) in PendingOf(m[localId := NewPending(localId, order, now)])
  {
    var m' := m[localId := NewPending(localId, order, now)];
    assert m'[localId] == NewPending(localId, order, now);
    PendingOfExactly(m', NewPending(localId, order, now));
  }

  // ------------------------------------------------------------------ search and lookups

  /** One product matches a lower-cased query on name, sku or a non-empty barcode. */
  predicate MatchesQuery(p: Product, lowerQuery: string) {
    Includes(ToLower(p.name), lowerQuery)
    || Includes(ToLower(p.sku), lowerQuery)
    || (p.barcode.Some? && p.barcode.value != "" && Includes(ToLower(p.barcode.value), lowerQuery))
  }

  /** `searchProducts(query)`. */
  function SearchResults(products: map<Id, Product>, query: string): seq<Product> {
    Seqs.Filter(KeyOrder.ValuesByKey(products), (p: Product) => MatchesQuery(p, ToLower(query)))
  }

  /** The search returns exactly the cached products that match the query. */
  lemma SearchExactly(products: map<Id, Product>, query: string, p: Product)
    ensures p in SearchResults(products, query) <==>
      (MatchesQuery(p, ToLower(query)) && exists k :: k in products && products[k] == p)
  {
    var all := KeyOrder.ValuesByKey(products);
    Seqs.FilterMembership(all, (p: Product) => MatchesQuery(p, ToLower(query)), p);
    if p in all {
      var i :| 0 <= i < |all| && all[i] == p;
      KeyOrder.ValuesByKeySound(products, i);
    }
    if exists k :: k in products && products[k] == p {
      var k :| k in products && products[k] == p;
      KeyOrder.ValuesByKeyComplete(products, k);
    }
  }

  /** `index('barcode').get(b)`: the product with the lowest id among those with that barcode. */
  function ByBarcode(products: map<Id, Product>, barcode: string): Option<Product> {
    Seqs.Find(KeyOrder.ValuesByKey(products), (p: Product) => p.barcode == Some(barcode))
  }

  /** `index('phone').get(phone)`. */
  function ByPhone(customers: map<Id, Customer>, phone: string): Option<Customer> {
    Seqs.Find(KeyOrder.ValuesByKey(customers), (c: Customer) => c.phone == phone)
  }

  // ------------------------------------------------------------------ inventory and metadata

  /** `updateInventory`: the stored snapshot (or a new one) with quantity and time replaced. */
  function WithQuantity(inventory: map<Id, InventoryRecord>, productId: Id, quantity: int, now: int): (r: map<Id, InventoryRecord>)
    ensures r.Keys == inventory.Keys + {productId}
    ensures r[productId].productId == (if productId in inventory then inventory[productId].productId else productId)
    ensures r[productId].quantityOnHand == quantity && r[productId].lastUpdated == now
    ensures forall k :: k in inventory && k != productId ==> r[k] == inventory[k]
  {
    var existing := if productId in inventory then inventory[productId] else InventoryRecord(productId, 0, 0);
    inventory[productId := existing.(quantityOnHand := quantity, lastUpdated := now)]
  }

  function SetMeta(metadata: map<string, MetaEntry>, key: string, value: int, now: int): map<string, MetaEntry> {
    metadata[key := MetaEntry(key, value, now)]
  }

  /** `getMetadata(key)`: the stored value, or null for a missing key. */
  function GetMeta(metadata: map<string, MetaEntry>, key: string): (r: Option<int>)
    ensures key !in metadata ==> r == None
  {
    if key in metadata then Some(metadata[key].value) else None
  }

  /** Reading a key back after writing it yields the value written; other keys are unaffected. */
  lemma MetaRoundTrip(metadata: map<string, MetaEntry>, key: string, other: string, value: int, now: int)
    ensures GetMeta(SetMeta(metadata, key, value, now), key) == Some(value)
    ensures other != key ==> GetMeta(SetMeta(metadata, key, value, now), other) == GetMeta(metadata, other)
  {
  }

  // ------------------------------------------------------------------ the store

  class Store {
    /** `db` has been set by a successful `init`. */
    var isOpen: bool
    var products: map<Id, Product>
    var customers: map<Id, Customer>
    var pendingOrders: map<Id, PendingOrder>
    var inventory: map<Id, InventoryRecord>
    var syncQueue: map<Id, QueueItem>
    var metadata: map<string, MetaEntry>
    /** The key generators of `pendingOrders` and `syncQueue`. */
    var nextOrderId: Id
    var nextQueueId: Id

    /** Every record sits under its own key; generated keys are never reused. */
    ghost predicate Valid()
      reads this
    {
      && 1 <= nextOrderId && 1 <= nextQueueId
      && (forall k :: k in products ==> products[k].id == k)
      && (forall k :: k in customers ==> customers[k].id == k)
      && (forall k :: k in pendingOrders ==> k < nextOrderId && pendingOrders[k].localId == k)
      && (forall k :: k in inventory ==> inventory[k].productId == k)
      && (forall k :: k in syncQueue ==> k < nextQueueId && syncQueue[k].id == k)
      && (forall k :: k in metadata ==> metadata[k].key == k)
    }

    constructor ()
      ensures Valid() && !isOpen
      ensures products == map[] && customers == map[] && pendingOrders == map[]
      ensures inventory == map[] && syncQueue == map[] && metadata == map[]
      ensures nextOrderId == 1 && nextQueueId == 1
    {
      isOpen := false;
      products, customers, pendingOrders := map[], map[], map[];
      inventory, syncQueue, metadata := map[], map[], map[];
      nextOrderId, nextQueueId := 1, 1;
    }

    /**
     * `init()`: opens the database; the upgrade step only creates collections
     * that are missing, so calling it again keeps every record.
     */
    method Init(platformAvailable: bool) returns (ok: bool)
      requires Valid()
      modifies this`isOpen
      ensures Valid()
      ensures ok == platformAvailable
      ensures isOpen == (old(isOpen) || platformAvailable)
    {
      ok := platformAvailable;
      if platformAvailable {
        isOpen := true;
      }
    }

    method GetAllProducts() returns (r: Outcome<seq<Product>>)
      ensures r == if isOpen then Ok(KeyOrder.ValuesByKey(products)) else StorageError
    {
      r := if isOpen then Ok(KeyOrder.ValuesByKey(products)) else StorageError;
    }

    method GetAllCustomers() returns (r: Outcome<seq<Customer>>)
      ensures r == if isOpen then Ok(KeyOrder.ValuesByKey(customers)) else StorageError
    {
      r := if isOpen then Ok(KeyOrder.ValuesByKey(customers)) else StorageError;
    }

    /** `saveProducts(ps)`: `put` each product in turn, then stamp `lastProductSync`. */
    method SaveProducts(ps: seq<Product>, now: int) returns (ok: bool)
      requires Valid()
      modifies this`products, this`metadata
      ensures Valid()
      ensures ok == isOpen
      ensures ok ==> products == PutAll(old(products), ps, ProductKey)
      ensures ok ==> metadata == SetMeta(old(metadata), LastProductSync, now, now)
      ensures !ok ==> products == old(products) && metadata == old(metadata)
    {
      if !isOpen {
        return false;
      }
      var i := 0;
      while i < |ps|
        invariant 0 <= i <= |ps|
        invariant products == PutAll(old(products), ps[..i], ProductKey)
        invariant forall k :: k in products ==> products[k].id == k
        invariant metadata == old(metadata)
      {
        assert ps[..i + 1][..i] == ps[..i];
        products := products[ps[i].id := ps[i]];
        i := i + 1;
      }
      assert ps[..|ps|] == ps;
      metadata := SetMeta(metadata, LastProductSync, now, now);
      ok := true;
    }

    /** `saveCustomers(cs)`: `put` each customer in turn, then stamp `lastCustomerSync`. */
    method SaveCustomers(cs: seq<Customer>, now: int) returns (ok: bool)
      requires Valid()
      modifies this`customers, this`metadata
      ensures Valid()
      ensures ok == isOpen
      ensures ok ==> customers == PutAll(old(customers), cs, CustomerKey)
      ensures ok ==> metadata == SetMeta(old(metadata), LastCustomerSync, now, now)
      ensures !ok ==> customers == old(customers) && metadata == old(metadata)
    {
      if !isOpen {
        return false;
      }
      var i := 0;
      while i < |cs|
        invariant 0 <= i <= |cs|
        invariant customers == PutAll(old(customers), cs[..i], CustomerKey)
        invariant forall k :: k in customers ==> customers[k].id == k
        invariant metadata == old(metadata)
      {
        assert cs[..i + 1][..i] == cs[..i];
        customers := customers[cs[i].id := cs[i]];
        i := i + 1;
      }
      assert cs[..|cs|] == cs;
      metadata := SetMeta(metadata, LastCustomerSync, now, now);
      ok := true;
    }

    method SearchProducts(query: string) returns (r: Outcome<seq<Product>>)
      ensures r == if isOpen then Ok(SearchResults(products, query)) else StorageError
    {
      r := if isOpen then Ok(SearchResults(products, query)) else StorageError;
    }

    method GetProductByBarcode(barcode: string) returns (r: Outcome<Option<Product>>)
      ensures r == if isOpen then Ok(ByBarcode(products, barcode)) else StorageError
    {
      r := if isOpen then Ok(ByBarcode(products, barcode)) else StorageError;
    }

    method FindCustomerByPhone(phone: string) returns (r: Outcome<Option<Customer>>)
      ensures r == if isOpen then Ok(ByPhone(customers, phone)) else StorageError
    {
      r := if isOpen then Ok(ByPhone(customers, phone)) else StorageError;
    }

    /** `savePendingOrder(order)`: `add` under a fresh generated key; an existing record is never replaced. */
    method SavePendingOrder(order: Order, now: int) returns (r: Outcome<Id>)
      requires Valid()
      modifies this`pendingOrders, this`nextOrderId
      ensures Valid()
      ensures old(nextOrderId) !in old(pendingOrders)
      ensures isOpen ==> r == Ok(old(nextOrderId)) && nextOrderId == old(nextOrderId) + 1
      ensures isOpen ==> pendingOrders == old(pendingOrders)[old(nextOrderId) := NewPending(old(nextOrderId), order, now)]
      ensures !isOpen ==> r == StorageError && pendingOrders == old(pendingOrders) && nextOrderId == old(nextOrderId)
    {
      if !isOpen {
        return StorageError;
      }
      var id := nextOrderId;
      pendingOrders := pendingOrders[id := NewPending(id, order, now)];
      nextOrderId := id + 1;
      r := Ok(id);
    }

    method GetPendingOrders() returns (r: Outcome<seq<PendingOrder>>)
      ensures r == if isOpen then Ok(PendingOf(pendingOrders)) else StorageError
    {
      r := if isOpen then Ok(PendingOf(pendingOrders)) else StorageError;
    }

    /** `markOrderAsSynced(localId, serverId)`: an unknown `localId` is silently ignored. */
    method MarkOrderAsSynced(localId: Id, serverId: Option<Id>, now: int) returns (ok: bool)
      requires Valid()
      modifies this`pendingOrders
      ensures Valid()
      ensures ok == isOpen
      ensures pendingOrders == if isOpen then MarkSynced(old(pendingOrders), localId, serverId, now) else old(pendingOrders)
    {
      ok := isOpen;
      if isOpen {
        pendingOrders := MarkSynced(pendingOrders, localId, serverId, now);
      }
    }

    /** `updateInventory(productId, quantity)`: creates the snapshot if absent. */
    method UpdateInventory(productId: Id, quantity: int, now: int) returns (ok: bool)
      requires Valid()
      modifies this`inventory
      ensures Valid()
      ensures ok == isOpen
      ensures inventory == if isOpen then WithQuantity(old(inventory), productId, quantity, now) else old(inventory)
    {
      ok := isOpen;
      if isOpen {
        inventory := WithQuantity(inventory, productId, quantity, now);
      }
    }

    method GetInventory(productId: Id) returns (r: Outcome<Option<InventoryRecord>>)
      ensures r == if !isOpen then StorageError
                   else if productId in inventory then Ok(Some(inventory[productId])) else Ok(None)
    {
      r := if !isOpen then StorageError
           else if productId in inventory then Ok(Some(inventory[productId])) else Ok(None);
    }

    /** `addToSyncQueue(type, data)`: a new item with `retryCount` 0 under a fresh key. */
    method AddToSyncQueue(tag: string, data: Payload, now: int) returns (r: Outcome<Id>)
      requires Valid()
      modifies this`syncQueue, this`nextQueueId
      ensures Valid()
      ensures old(nextQueueId) !in old(syncQueue)
      ensures isOpen ==> r == Ok(old(nextQueueId)) && nextQueueId == old(nextQueueId) + 1
      ensures isOpen ==> syncQueue == old(syncQueue)[old(nextQueueId) := QueueItem(old(nextQueueId), tag, data, now, 0)]
      ensures !isOpen ==> r == StorageError && syncQueue == old(syncQueue) && nextQueueId == old(nextQueueId)
    {
      if !isOpen {
        return StorageError;
      }
      var id := nextQueueId;
      syncQueue := syncQueue[id := QueueItem(id, tag, data, now, 0)];
      nextQueueId := id + 1;
      r := Ok(id);
    }

    method GetSyncQueue() returns (r: Outcome<seq<QueueItem>>)
      ensures r == if isOpen then Ok(KeyOrder.ValuesByKey(syncQueue)) else StorageError
    {
      r := if isOpen then Ok(KeyOrder.ValuesByKey(syncQueue)) else StorageError;
    }

    /** `put('syncQueue', item)`: replaces the item stored under its id; an explicit key advances the generator past it. */
    method PutQueueItem(item: QueueItem) returns (ok: bool)
      requires Valid()
      modifies this`syncQueue, this`nextQueueId
      ensures Valid()
      ensures ok == isOpen
      ensures isOpen ==> syncQueue == old(syncQueue)[item.id := item]
      ensures isOpen ==> nextQueueId == if item.id < old(nextQueueId) then old(nextQueueId) else item.id + 1
      ensures !isOpen ==> syncQueue == old(syncQueue) && nextQueueId == old(nextQueueId)
    {
      ok := isOpen;
      if isOpen {
        syncQueue := syncQueue[item.id := item];
        if nextQueueId <= item.id {
          nextQueueId := item.id + 1;
        }
      }
    }

    /** `removeSyncItem(id)`: deletes that one item. */
    method RemoveSyncItem(id: Id) returns (ok: bool)
      requires Valid()
      modifies this`syncQueue
      ensures Valid()
      ensures ok == isOpen
      ensures syncQueue == if isOpen then old(syncQueue) - {id} else old(syncQueue)
    {
      ok := isOpen;
      if isOpen {
        syncQueue := syncQueue - {id};
      }
    }

    method SetMetadata(key: string, value: int, now: int) returns (ok: bool)
      requires Valid()
      modifies this`metadata
      ensures Valid()
      ensures ok == isOpen
      ensures metadata == if isOpen then SetMeta(old(metadata), key, value, now) else old(metadata)
    {
      ok := isOpen;
      if isOpen {
        metadata := SetMeta(metadata, key, value, now);
      }
    }

    method GetMetadata(key: string) returns (r: Outcome<Option<int>>)
      ensures r == if isOpen then Ok(GetMeta(metadata, key)) else StorageError
    {
      r := if isOpen then Ok(GetMeta(metadata, key)) else StorageError;
    }

    /** `clear(name)`: empties one collection; key generators keep counting. */
    method Clear(c: Collection) returns (ok: bool)
      requires Valid()
      modifies this`products, this`customers, this`pendingOrders, this`inventory, this`syncQueue, this`metadata
      ensures Valid()
      ensures ok == isOpen
      ensures products == if isOpen && c == Products then map[] else old(products)
      ensures customers == if isOpen && c == Customers then map[] else old(customers)
      ensures pendingOrders == if isOpen && c == PendingOrders then map[] else old(pendingOrders)
      ensures inventory == if isOpen && c == Inventory then map[] else old(inventory)
      ensures syncQueue == if isOpen && c == SyncQueue then map[] else old(syncQueue)
      ensures metadata == if isOpen && c == Metadata then map[] else old(metadata)
    {
      ok := isOpen;
      if isOpen {
        match c
        case Products => products := map[];
        case Customers => customers := map[];
        case PendingOrders => pendingOrders := map[];
        case Inventory => inventory := map[];
        case SyncQueue => syncQueue := map[];
        case Metadata => metadata := map[];
      }
    }
  }
}
