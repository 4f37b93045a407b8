/**
 * The reconciliation pass: upload pending orders, pull products and
 * customers, replay the deferred-write queue. Each phase goes through the
 * shared HTTP client, so offline the interceptor's fallbacks apply to the
 * pass itself.
 */
module SyncManager {
  import opened Wrappers
  import opened Entities
  import opened Text
  import KeyOrder
  import Seqs
  import OfflineStorage
  import opened Api

  datatype Event = WentOnline | WentOffline | SyncStart | SyncComplete | SyncError

  /** One call of a registered callback: which listener, with which event. */
  datatype Notice = Notice(listener: nat, event: Event)

  /** `notifyListeners(event)`: every listener is called once, in registration order. */
  function Broadcast(listeners: seq<nat>, e: Event): seq<Notice> {
    if listeners == [] then [] else [Notice(listeners[0], e)] + Broadcast(listeners[1..], e)
  }

  /** Each listener hears the event once, in registration order. */
  lemma {:induction false} BroadcastSpec(listeners: seq<nat>, e: Event)
    ensures |Broadcast(listeners, e)| == |listeners|
    ensures forall i :: 0 <= i < |listeners| ==> Broadcast(listeners, e)[i] == Notice(listeners[i], e)
  {
    if listeners != [] {
      BroadcastSpec(listeners[1..], e);
    }
  }

  // ------------------------------------------------------------------ phase 1: pending orders

  /** `api.post('/orders', order)`. */
  function OrderPost(o: PendingOrder): Request {
    Request(Post, "/orders", None, PendingOrderBody(o), None)
  }

  /**
   * The server id `markOrderAsSynced` is called with when the post resolves:
   * the response's id, or none for the interceptor's `{queued: true}`.
   * `None` means the post was rejected.
   */
  function Confirmation(reply: Reply, online: bool): Option<Option<Id>> {
    if reply.Answer? then Some(reply.body.id)
    else if IsConnectivityFailure(online, reply.error) then Some(None)
    else None
  }

  /** The order post resolves exactly when `Confirmation` says so, and carries the id it names. */
  lemma ConfirmationMatchesClient(reply: Reply, online: bool, o: PendingOrder,
                                  products: map<Id, Product>, customers: map<Id, Customer>)
    ensures Respond(reply, online, OrderPost(o), true, products, customers).Resolved? <==> Confirmation(reply, online).Some?
    ensures Confirmation(reply, online).Some? ==>
      Respond(reply, online, OrderPost(o), true, products, customers).body.id == Confirmation(reply, online).value
  {
  }

  /** While offline every upload "succeeds": the order is marked synced with no server id. */
  lemma OfflineOrderConfirmed(reply: Reply)
    ensures Confirmation(reply, false).Some?
    ensures reply.Fail? ==> Confirmation(reply, false) == Some(None)
  {
  }

  function Confirm(respond: Request -> Reply, online: bool, token: Option<string>, o: PendingOrder): Option<Option<Id>> {
    Confirmation(respond(Authorize(OrderPost(o), token)), online)
  }

  /** The pending orders after uploading `os` in turn. */
  function MarkConfirmed(m: map<Id, PendingOrder>, os: seq<PendingOrder>, respond: Request -> Reply,
                         online: bool, token: Option<string>, now: int): map<Id, PendingOrder>
    decreases |os|
  {
    if os == [] then m
    else
      var before := MarkConfirmed(m, os[..|os| - 1], respond, online, token, now);
      var o := os[|os| - 1];
      match Confirm(respond, online, token, o)
      case Some(serverId) => OfflineStorage.MarkSynced(before, o.localId, serverId, now)
      case None => before
  }

  /** The requests phase 1 sends for `os`. */
  function OrderRequests(os: seq<PendingOrder>, token: Option<string>): seq<Request>
    decreases |os|
  {
    if os == [] then [] else OrderRequests(os[..|os| - 1], token) + [Authorize(OrderPost(os[|os| - 1]), token)]
  }

  lemma {:induction false} MarkConfirmedUntouched(m: map<Id, PendingOrder>, os: seq<PendingOrder>, respond: Request -> Reply,
                                                  online: bool, token: Option<string>, now: int, k: Id)
    requires forall i :: 0 <= i < |os| ==> os[i].localId != k
    ensures k in MarkConfirmed(m, os, respond, online, token, now) <==> k in m
    ensures k in m ==> MarkConfirmed(m, os, respond, online, token, now)[k] == m[k]
    decreases |os|
  {
    if os != [] {
      MarkConfirmedUntouched(m, os[..|os| - 1], respond, online, token, now, k);
    }
  }

  /**
   * In a list without repeated ids, an order whose upload resolves is marked
   * synced with the id the response carries; one whose upload is rejected
   * stays as it was, and the later orders are still uploaded.
   */
  lemma {:induction false} MarkConfirmedAt(m: map<Id, PendingOrder>, os: seq<PendingOrder>, respond: Request -> Reply,
                                           online: bool, token: Option<string>, now: int, i: int)
    requires Seqs.IncreasingBy(os, (o: PendingOrder) => o.localId)
    requires 0 <= i < |os|
    ensures os[i].localId in MarkConfirmed(m, os, respond, online, token, now) <==> os[i].localId in m
    ensures os[i].localId in m ==>
      MarkConfirmed(m, os, respond, online, token, now)[os[i].localId] ==
        match Confirm(respond, online, token, os[i])
        case Some(serverId) => OfflineStorage.MarkSynced(m, os[i].localId, serverId, now)[os[i].localId]
        case None => m[os[i].localId]
    decreases |os|
  {
    var init := os[..|os| - 1];
    assert Seqs.IncreasingBy(init, (o: PendingOrder) => o.localId);
    if i == |os| - 1 {
      forall j | 0 <= j < |init|
        ensures init[j].localId != os[i].localId
      {
        assert os[j].localId < os[i].localId;
      }
      MarkConfirmedUntouched(m, init, respond, online, token, now, os[i].localId);
    } else {
      MarkConfirmedAt(m, init, respond, online, token, now, i);
      assert os[i].localId < os[|os| - 1].localId;
    }
  }

  /** Phase 1 applied to the stored pending list: the effect on each listed order. */
  lemma OrdersPhaseEffect(m: map<Id, PendingOrder>, respond: Request -> Reply,
                          online: bool, token: Option<string>, now: int, i: int)
    requires forall k :: k in m ==> m[k].localId == k
    requires 0 <= i < |OfflineStorage.PendingOf(m)|
    ensures var o := OfflineStorage.PendingOf(m)[i];
      var r := MarkConfirmed(m, OfflineStorage.PendingOf(m), respond, online, token, now);
      o.localId in m && o.localId in r &&
      match Confirm(respond, online, token, o)
      case Some(serverId) => r[o.localId].synced && r[o.localId].serverId == serverId && r[o.localId].syncedAt == Some(now)
      case None => r[o.localId] == m[o.localId] && !r[o.localId].synced
  {
    var os := OfflineStorage.PendingOf(m);
    OfflineStorage.PendingIdsIncreasing(m);
    OfflineStorage.PendingOfExactly(m, os[i]);
    var k :| k in m && m[k] == os[i];
    MarkConfirmedAt(m, os, respond, online, token, now, i);
  }

  // ------------------------------------------------------------------ the queue as the client changes it

  /** The sync queue's records and its key generator. */
  datatype QueueState = QueueState(items: map<Id, QueueItem>, next: Id)

  predicate QueueValid(s: QueueState) {
    1 <= s.next && forall k :: k in s.items ==> k < s.next && s.items[k].id == k
  }

  /** The queue after one request through the client: the interceptor may append one item. */
  function AfterSend(s: QueueState, r: Request, respond: Request -> Reply, online: bool,
                     token: Option<string>, now: int): QueueState {
    if Enqueues(respond(Authorize(r, token)), online, r) then
      QueueState(s.items[s.next := QueueItem(s.next, OfflineFallback(r.verb, r.url).tag, r.data, now, 0)], s.next + 1)
    else s
  }

  /** The queue after phase 1 has uploaded `os`. */
  function AfterOrders(s: QueueState, os: seq<PendingOrder>, respond: Request -> Reply, online: bool,
                       token: Option<string>, now: int): QueueState
    decreases |os|
  {
    if os == [] then s
    else AfterSend(AfterOrders(s, os[..|os| - 1], respond, online, token, now), OrderPost(os[|os| - 1]), respond, online, token, now)
  }

  // ------------------------------------------------------------------ phases 2 and 3: pulls

  /** `lastSync ? { updatedAfter: lastSync } : {}`. */
  function UpdatedAfter(lastSync: Option<int>): Option<int> {
    if lastSync.Some? && lastSync.value != 0 then lastSync else None
  }

  /** A pull carries `updatedAfter` exactly when a non-zero watermark is stored, and then carries that watermark. */
  lemma PullWatermark(url: string, lastSync: Option<int>)
    ensures PullRequest(url, lastSync).updatedAfter.Some? <==> lastSync.Some? && lastSync.value != 0
    ensures PullRequest(url, lastSync).updatedAfter.Some? ==> PullRequest(url, lastSync).updatedAfter == lastSync
    ensures PullRequest(url, lastSync).verb == Get && PullRequest(url, lastSync).url == url
  {
  }

  function PullRequest(url: string, lastSync: Option<int>): Request {
    Request(Get, url, UpdatedAfter(lastSync), NoBody, None)
  }

  /** The cached catalogue the two pulls read and write: products, customers and the watermarks. */
  datatype Cache = Cache(products: map<Id, Product>, customers: map<Id, Customer>, metadata: map<string, MetaEntry>)

  /** The product list the product pull resolves with, if any. */
  function ProductsFetched(c: Cache, url: string, respond: Request -> Reply, online: bool, token: Option<string>)
    : Option<seq<Product>>
  {
    var r := PullRequest(url, OfflineStorage.GetMeta(c.metadata, OfflineStorage.LastProductSync));
    var res := Respond(respond(Authorize(r, token)), online, r, true, c.products, c.customers);
    if res.Resolved? then res.body.products else None
  }

  /** The customer list the customer pull resolves with, if any. */
  function CustomersFetched(c: Cache, url: string, respond: Request -> Reply, online: bool, token: Option<string>)
    : Option<seq<Customer>>
  {
    var r := PullRequest(url, OfflineStorage.GetMeta(c.metadata, OfflineStorage.LastCustomerSync));
    var res := Respond(respond(Authorize(r, token)), online, r, true, c.products, c.customers);
    if res.Resolved? then res.body.customers else None
  }

  /** Phase 2: a fetched list is saved by id and `lastProductSync` stamped. */
  function AfterProductPull(c: Cache, url: string, respond: Request -> Reply, online: bool, token: Option<string>, now: int): Cache {
    var f := ProductsFetched(c, url, respond, online, token);
    if f.Some? then
      c.(products := OfflineStorage.PutAll(c.products, f.value, OfflineStorage.ProductKey),
         metadata := OfflineStorage.SetMeta(c.metadata, OfflineStorage.LastProductSync, now, now))
    else c
  }

  /** Phase 3: the same for customers and `lastCustomerSync`. */
  function AfterCustomerPull(c: Cache, url: string, respond: Request -> Reply, online: bool, token: Option<string>, now: int): Cache {
    var f := CustomersFetched(c, url, respond, online, token);
    if f.Some? then
      c.(customers := OfflineStorage.PutAll(c.customers, f.value, OfflineStorage.CustomerKey),
         metadata := OfflineStorage.SetMeta(c.metadata, OfflineStorage.LastCustomerSync, now, now))
    else c
  }

  /** Phases 2 and 3 in order. */
  function AfterPulls(c: Cache, productsUrl: string, customersUrl: string, respond: Request -> Reply, online: bool,
                      token: Option<string>, now: int): Cache {
    AfterCustomerPull(AfterProductPull(c, productsUrl, respond, online, token, now), customersUrl, respond, online, token, now)
  }

  /**
   * After both pulls each list is the old one with the fetched records put by
   * id, and each watermark reads `now` exactly when its list was fetched
   * (otherwise it is unchanged). The customer pull asks with the customer
   * watermark as it stood before the pass.
   */
  lemma PullsSpec(c: Cache, productsUrl: string, customersUrl: string, respond: Request -> Reply, online: bool,
                  token: Option<string>, now: int)
    ensures var c1 := AfterProductPull(c, productsUrl, respond, online, token, now);
      var fp := ProductsFetched(c, productsUrl, respond, online, token);
      var fc := CustomersFetched(c1, customersUrl, respond, online, token);
      var r := AfterPulls(c, productsUrl, customersUrl, respond, online, token, now);
      && OfflineStorage.GetMeta(c1.metadata, OfflineStorage.LastCustomerSync) == OfflineStorage.GetMeta(c.metadata, OfflineStorage.LastCustomerSync)
      && r.products == (if fp.Some? then OfflineStorage.PutAll(c.products, fp.value, OfflineStorage.ProductKey) else c.products)
      && r.customers == (if fc.Some? then OfflineStorage.PutAll(c.customers, fc.value, OfflineStorage.CustomerKey) else c.customers)
      && OfflineStorage.GetMeta(r.metadata, OfflineStorage.LastProductSync) ==
           (if fp.Some? then Some(now) else OfflineStorage.GetMeta(c.metadata, OfflineStorage.LastProductSync))
      && OfflineStorage.GetMeta(r.metadata, OfflineStorage.LastCustomerSync) ==
           (if fc.Some? then Some(now) else OfflineStorage.GetMeta(c.metadata, OfflineStorage.LastCustomerSync))
  {
    var c1 := AfterProductPull(c, productsUrl, respond, online, token, now);
    OfflineStorage.MetaRoundTrip(c.metadata, OfflineStorage.LastProductSync, OfflineStorage.LastCustomerSync, now, now);
    OfflineStorage.MetaRoundTrip(c1.metadata, OfflineStorage.LastCustomerSync, OfflineStorage.LastProductSync, now, now);
  }

  /**
   * A product pull that fails with `Network Error` while the browser reports
   * online is answered from the cache, leaves the products as they were, and
   * still stamps `lastProductSync` with `now`, although nothing came from the
   * server.
   */
  lemma NetworkErrorPullStampsWatermark(c: Cache, e: HttpError, respond: Request -> Reply, token: Option<string>, now: int)
    requires forall k :: k in c.products ==> c.products[k].id == k
    requires e.message == NetworkError
    requires respond(Authorize(PullRequest("/products", OfflineStorage.GetMeta(c.metadata, OfflineStorage.LastProductSync)), token)) == Fail(e)
    ensures AfterProductPull(c, "/products", respond, true, token, now).products == c.products
    ensures OfflineStorage.GetMeta(AfterProductPull(c, "/products", respond, true, token, now).metadata, OfflineStorage.LastProductSync) == Some(now)
  {
    assert Includes("/products", "/products") by {
      assert OccursAt("/products", "/products", 0);
      IncludesAt("/products", "/products");
    }
    OfflineStorage.PutAllOwnListing(c.products, OfflineStorage.ProductKey);
    OfflineStorage.MetaRoundTrip(c.metadata, OfflineStorage.LastProductSync, OfflineStorage.LastCustomerSync, now, now);
  }

  /** An offline pull is answered from the cache; saving that answer back keeps the cache as it was. */
  lemma OfflinePullKeepsCache(products: map<Id, Product>, customers: map<Id, Customer>, e: HttpError, lastSync: Option<int>)
    requires forall k :: k in products ==> products[k].id == k
    requires IsConnectivityFailure(false, e)
    ensures var res := Respond(Fail(e), false, PullRequest("/products", lastSync), true, products, customers);
      res.Resolved? && res.body.products.Some? &&
      OfflineStorage.PutAll(products, res.body.products.value, OfflineStorage.ProductKey) == products
  {
    assert Includes("/products", "/products") by {
      assert OccursAt("/products", "/products", 0);
      IncludesAt("/products", "/products");
    }
    OfflineStorage.PutAllOwnListing(products, OfflineStorage.ProductKey);
  }

  // ------------------------------------------------------------------ phase 4: queue replay

  datatype Target = Target(verb: Method, url: string)

  /** `String(x)` of an id field: digits, or `undefined` when the payload has none. */
  function IdText(id: Option<Id>): string {
    if id.Some? then NatToString(id.value) else "undefined"
  }

  /** `executeQueueItem`: the call each known type is replayed as; any other type throws. */
  function ReplayTarget(tag: string, data: Payload): Option<Target> {
    if tag == "createProduct" then Some(Target(Post, "/products"))
    else if tag == "updateProduct" then Some(Target(Put, "/products/" + IdText(IdField(data))))
    else if tag == "updateInventory" then Some(Target(Put, "/inventory/" + IdText(ProductIdField(data))))
    else if tag == "createCustomer" then Some(Target(Post, "/customers"))
    else None
  }

  /** The four known types map to their endpoints; every other type is refused. */
  lemma ReplayTargetSpec(tag: string, data: Payload)
    ensures ReplayTarget(tag, data).Some? <==>
      tag == "createProduct" || tag == "updateProduct" || tag == "updateInventory" || tag == "createCustomer"
    ensures tag == "createProduct" ==> ReplayTarget(tag, data) == Some(Target(Post, "/products"))
    ensures tag == "updateProduct" ==> ReplayTarget(tag, data) == Some(Target(Put, "/products/" + IdText(IdField(data))))
    ensures tag == "updateInventory" ==> ReplayTarget(tag, data) == Some(Target(Put, "/inventory/" + IdText(ProductIdField(data))))
    ensures tag == "createCustomer" ==> ReplayTarget(tag, data) == Some(Target(Post, "/customers"))
  {
  }

  /** An item the interceptor queued (typed `method_url`) can never be replayed. */
  lemma InterceptorItemsNeverReplay(m: Method, url: string, data: Payload)
    requires OfflineFallback(m, url).Enqueue?
    ensures ReplayTarget(OfflineFallback(m, url).tag, data) == None
  {
    var tag := OfflineFallback(m, url).tag;
    assert tag[0] == 'p';
  }

  function ReplayRequest(item: QueueItem, t: Target): Request {
    Request(t.verb, t.url, None, item.data, None)
  }

  /** Whether a write through the client resolves: a server answer, or the offline `{queued: true}`. */
  predicate Delivered(reply: Reply, online: bool) {
    reply.Answer? || IsConnectivityFailure(online, reply.error)
  }

  /** Every replay call is a write, so it resolves exactly when it is delivered. */
  lemma ReplayResolvesIffDelivered(reply: Reply, online: bool, item: QueueItem, t: Target,
                                   products: map<Id, Product>, customers: map<Id, Customer>)
    requires ReplayTarget(item.tag, item.data) == Some(t)
    ensures Respond(reply, online, ReplayRequest(item, t), true, products, customers).Resolved? <==> Delivered(reply, online)
  {
  }

  /** The retry bookkeeping after a failed replay: `retryCount++` and `put` only while below 3. */
  function Bump(s: QueueState, item: QueueItem): QueueState {
    if item.retryCount < 3 then
      QueueState(s.items[item.id := item.(retryCount := item.retryCount + 1)], if item.id < s.next then s.next else item.id + 1)
    else s
  }

  /** The queue after replaying one snapshot item. */
  function ReplayStep(s: QueueState, item: QueueItem, respond: Request -> Reply, online: bool,
                      token: Option<string>, now: int): QueueState {
    match ReplayTarget(item.tag, item.data)
    case None => Bump(s, item)
    case Some(t) =>
      var r := ReplayRequest(item, t);
      var s' := AfterSend(s, r, respond, online, token, now);
      if Delivered(respond(Authorize(r, token)), online) then QueueState(s'.items - {item.id}, s'.next)
      else Bump(s', item)
  }

  function Replay(s: QueueState, items: seq<QueueItem>, respond: Request -> Reply, online: bool,
                  token: Option<string>, now: int): QueueState
    decreases |items|
  {
    if items == [] then s
    else ReplayStep(Replay(s, items[..|items| - 1], respond, online, token, now), items[|items| - 1], respond, online, token, now)
  }

  /** The request replaying one item sends: none for an unknown type. */
  function ReplaySent(item: QueueItem, token: Option<string>): seq<Request> {
    match ReplayTarget(item.tag, item.data)
    case Some(t) => [Authorize(ReplayRequest(item, t), token)]
    case None => []
  }

  /** The requests phase 4 sends: one per item of a known type. */
  function ReplayRequests(items: seq<QueueItem>, token: Option<string>): seq<Request>
    decreases |items|
  {
    if items == [] then []
    else ReplayRequests(items[..|items| - 1], token) + ReplaySent(items[|items| - 1], token)
  }

  /** A replayed item that is delivered is removed. */
  lemma ReplayDeliveredRemoves(s: QueueState, item: QueueItem, respond: Request -> Reply, online: bool,
                               token: Option<string>, now: int)
    requires item.id < s.next
    requires ReplayTarget(item.tag, item.data).Some?
    requires Delivered(respond(Authorize(ReplayRequest(item, ReplayTarget(item.tag, item.data).value), token)), online)
    ensures item.id !in ReplayStep(s, item, respond, online, token, now).items
  {
  }

  /**
   * A failed item is never removed: its retry count goes up by one while
   * below 3, and once at 3 it stays as it is (and is replayed again on every
   * later pass).
   */
  lemma ReplayFailureKeeps(s: QueueState, item: QueueItem, respond: Request -> Reply, online: bool,
                           token: Option<string>, now: int)
    requires item.id in s.items && item.id < s.next
    requires ReplayTarget(item.tag, item.data).None? ||
      !Delivered(respond(Authorize(ReplayRequest(item, ReplayTarget(item.tag, item.data).value), token)), online)
    ensures item.id in ReplayStep(s, item, respond, online, token, now).items
    ensures item.retryCount < 3 ==>
      ReplayStep(s, item, respond, online, token, now).items[item.id] == item.(retryCount := item.retryCount + 1)
    ensures item.retryCount >= 3 ==>
      ReplayStep(s, item, respond, online, token, now).items[item.id] == s.items[item.id]
  {
  }

  predicate RetriesBounded(s: QueueState) {
    forall k :: k in s.items ==> s.items[k].retryCount <= 3
  }

  lemma ReplayStepBounded(s: QueueState, item: QueueItem, respond: Request -> Reply, online: bool,
                          token: Option<string>, now: int)
    requires RetriesBounded(s) && item.retryCount <= 3
    ensures RetriesBounded(ReplayStep(s, item, respond, online, token, now))
  {
  }

  /** Replay never lets a retry count exceed 3. */
  lemma {:induction false} ReplayBounded(s: QueueState, items: seq<QueueItem>, respond: Request -> Reply, online: bool,
                                         token: Option<string>, now: int)
    requires RetriesBounded(s)
    requires forall i :: 0 <= i < |items| ==> items[i].retryCount <= 3
    ensures RetriesBounded(Replay(s, items, respond, online, token, now))
    decreases |items|
  {
    if items != [] {
      ReplayBounded(s, items[..|items| - 1], respond, online, token, now);
      ReplayStepBounded(Replay(s, items[..|items| - 1], respond, online, token, now), items[|items| - 1], respond, online, token, now);
    }
  }

  lemma AfterSendBounded(s: QueueState, r: Request, respond: Request -> Reply, online: bool, token: Option<string>, now: int)
    requires RetriesBounded(s)
    ensures RetriesBounded(AfterSend(s, r, respond, online, token, now))
  {
  }

  /** Uploading orders only ever adds fresh items, so the bound holds after phase 1 too. */
  lemma {:induction false} AfterOrdersBounded(s: QueueState, os: seq<PendingOrder>, respond: Request -> Reply, online: bool,
                                              token: Option<string>, now: int)
    requires RetriesBounded(s)
    ensures RetriesBounded(AfterOrders(s, os, respond, online, token, now))
    decreases |os|
  {
    if os != [] {
      AfterOrdersBounded(s, os[..|os| - 1], respond, online, token, now);
      AfterSendBounded(AfterOrders(s, os[..|os| - 1], respond, online, token, now), OrderPost(os[|os| - 1]), respond, online, token, now);
    }
  }

  // ------------------------------------------------------------------ one more element

  lemma OrdersStep(m: map<Id, PendingOrder>, q: QueueState, os: seq<PendingOrder>, i: int, respond: Request -> Reply,
                   online: bool, token: Option<string>, now: int)
    requires 0 <= i < |os|
    ensures MarkConfirmed(m, os[..i + 1], respond, online, token, now) ==
      match Confirm(respond, online, token, os[i])
      case Some(serverId) => OfflineStorage.MarkSynced(MarkConfirmed(m, os[..i], respond, online, token, now), os[i].localId, serverId, now)
      case None => MarkConfirmed(m, os[..i], respond, online, token, now)
    ensures AfterOrders(q, os[..i + 1], respond, online, token, now) ==
      AfterSend(AfterOrders(q, os[..i], respond, online, token, now), OrderPost(os[i]), respond, online, token, now)
    ensures OrderRequests(os[..i + 1], token) == OrderRequests(os[..i], token) + [Authorize(OrderPost(os[i]), token)]
  {
    assert os[..i + 1][..i] == os[..i];
  }

  lemma ReplayStepAt(q: QueueState, items: seq<QueueItem>, i: int, respond: Request -> Reply,
                     online: bool, token: Option<string>, now: int)
    requires 0 <= i < |items|
    ensures Replay(q, items[..i + 1], respond, online, token, now) ==
      ReplayStep(Replay(q, items[..i], respond, online, token, now), items[i], respond, online, token, now)
    ensures ReplayRequests(items[..i + 1], token) == ReplayRequests(items[..i], token) + ReplaySent(items[i], token)
  {
    assert items[..i + 1][..i] == items[..i];
  }

  // ------------------------------------------------------------------ status

  datatype SyncStatus = SyncStatus(isOnline: bool, pendingOrders: nat, queuedItems: nat,
                                   lastProducts: Option<int>, lastCustomers: Option<int>)

  // ------------------------------------------------------------------ the manager

  class Manager {
    var syncInProgress: bool
    /** The registered callbacks, by number. */
    var listeners: seq<nat>
    /** Every listener call made so far. */
    var delivered: seq<Notice>
    /** The two pull endpoints, `/products` and `/customers`. */
    const productsUrl: string
    const customersUrl: string

    constructor ()
      ensures !syncInProgress && listeners == [] && delivered == []
      ensures productsUrl == "/products" && customersUrl == "/customers"
    {
      productsUrl := "/products";
      customersUrl := "/customers";
      syncInProgress := false;
      listeners := [];
      delivered := [];
    }

    method OnSync(callback: nat)
      modifies this`listeners
      ensures listeners == old(listeners) + [callback]
    {
      listeners := listeners + [callback];
    }

    method NotifyListeners(e: Event)
      modifies this`delivered
      ensures delivered == old(delivered) + Broadcast(listeners, e)
    {
      var i := 0;
      while i < |listeners|
        invariant 0 <= i <= |listeners|
        invariant delivered == old(delivered) + Broadcast(listeners[..i], e)
      {
        BroadcastSnoc(listeners[..i + 1], e);
        assert listeners[..i + 1][..i] == listeners[..i];
        delivered := delivered + [Notice(listeners[i], e)];
        i := i + 1;
      }
      assert listeners[..i] == listeners;
    }

    /** One iteration of phase 1: post the order, and mark it synced when the post resolves. */
    method UploadOrder(backend: Backend, store: OfflineStorage.Store, online: bool, token: Option<string>, now: int,
                       o: PendingOrder)
      requires store.Valid() && store.isOpen
      modifies backend`sent, store`pendingOrders, store`syncQueue, store`nextQueueId
      ensures store.Valid()
      ensures backend.sent == old(backend.sent) + [Authorize(OrderPost(o), token)]
      ensures store.pendingOrders == match Confirm(backend.respond, online, token, o)
        case Some(serverId) => OfflineStorage.MarkSynced(old(store.pendingOrders), o.localId, serverId, now)
        case None => old(store.pendingOrders)
      ensures QueueState(store.syncQueue, store.nextQueueId) ==
        AfterSend(QueueState(old(store.syncQueue), old(store.nextQueueId)), OrderPost(o), backend.respond, online, token, now)
    {
      var result := Send(backend, store, online, token, now, OrderPost(o));
      ConfirmationMatchesClient(backend.respond(Authorize(OrderPost(o), token)), online, o, store.products, store.customers);
      if result.Resolved? {
        var _ := store.MarkOrderAsSynced(o.localId, result.body.id, now);
      }
    }

    /** Step `i` of the loop of phase 1: the store so far is that of the first `i` orders uploaded from `m0` and `q0`. */
    method UploadNext(backend: Backend, store: OfflineStorage.Store, online: bool, token: Option<string>, now: int,
                      os: seq<PendingOrder>, i: int, ghost m0: map<Id, PendingOrder>, ghost q0: QueueState)
      requires 0 <= i < |os|
      requires store.Valid() && store.isOpen
      requires store.pendingOrders == MarkConfirmed(m0, os[..i], backend.respond, online, token, now)
      requires QueueState(store.syncQueue, store.nextQueueId) == AfterOrders(q0, os[..i], backend.respond, online, token, now)
      modifies backend`sent, store`pendingOrders, store`syncQueue, store`nextQueueId
      ensures store.Valid()
      ensures backend.sent == old(backend.sent) + [Authorize(OrderPost(os[i]), token)]
      ensures store.pendingOrders == MarkConfirmed(m0, os[..i + 1], backend.respond, online, token, now)
      ensures QueueState(store.syncQueue, store.nextQueueId) == AfterOrders(q0, os[..i + 1], backend.respond, online, token, now)
    {
      OrdersStep(m0, q0, os, i, backend.respond, online, token, now);
      UploadOrder(backend, store, online, token, now, os[i]);
    }

    /** The loop of phase 1 over a snapshot `os`. */
    method UploadAll(backend: Backend, store: OfflineStorage.Store, online: bool, token: Option<string>, now: int,
                     os: seq<PendingOrder>)
      requires store.Valid() && store.isOpen
      modifies backend`sent, store`pendingOrders, store`syncQueue, store`nextQueueId
      ensures store.Valid()
      ensures backend.sent == old(backend.sent) + OrderRequests(os, token)
      ensures store.pendingOrders == MarkConfirmed(old(store.pendingOrders), os, backend.respond, online, token, now)
      ensures QueueState(store.syncQueue, store.nextQueueId) ==
        AfterOrders(QueueState(old(store.syncQueue), old(store.nextQueueId)), os, backend.respond, online, token, now)
    {
      ghost var m0, q0 := store.pendingOrders, QueueState(store.syncQueue, store.nextQueueId);
      var i := 0;
      while i < |os|
        invariant 0 <= i <= |os|
        invariant store.Valid() && store.isOpen
        invariant backend.sent == old(backend.sent) + OrderRequests(os[..i], token)
        invariant store.pendingOrders == MarkConfirmed(m0, os[..i], backend.respond, online, token, now)
        invariant QueueState(store.syncQueue, store.nextQueueId) == AfterOrders(q0, os[..i], backend.respond, online, token, now)
      {
        OrdersStep(m0, q0, os, i, backend.respond, online, token, now);
        UploadNext(backend, store, online, token, now, os, i, m0, q0);
        i := i + 1;
      }
      assert os[..|os|] == os;
    }

    /** Phase 1: upload each pending order (snapshot taken first); a rejected upload is skipped. */
    method SyncPendingOrders(backend: Backend, store: OfflineStorage.Store, online: bool, token: Option<string>, now: int)
      returns (ok: bool)
      requires store.Valid()
      modifies backend`sent, store`pendingOrders, store`syncQueue, store`nextQueueId
      ensures store.Valid()
      ensures ok == store.isOpen
      ensures ok ==>
        var os := OfflineStorage.PendingOf(old(store.pendingOrders));
        && backend.sent == old(backend.sent) + OrderRequests(os, token)
        && store.pendingOrders == MarkConfirmed(old(store.pendingOrders), os, backend.respond, online, token, now)
        && QueueState(store.syncQueue, store.nextQueueId) ==
             AfterOrders(QueueState(old(store.syncQueue), old(store.nextQueueId)), os, backend.respond, online, token, now)
      ensures !ok ==>
        && backend.sent == old(backend.sent) && store.pendingOrders == old(store.pendingOrders)
        && store.syncQueue == old(store.syncQueue) && store.nextQueueId == old(store.nextQueueId)
    {
      var pending := store.GetPendingOrders();
      if pending.StorageError? {
        return false;
      }
      UploadAll(backend, store, online, token, now, pending.value);
      ok := true;
    }

    /** Phases 2 and 3: one GET with the watermark, and a save only when the answer carries the list. */
    method PullProducts(backend: Backend, store: OfflineStorage.Store, online: bool, token: Option<string>, now: int)
      returns (ok: bool)
      requires store.Valid()
      modifies backend`sent, store`products, store`metadata, store`syncQueue, store`nextQueueId
      ensures store.Valid()
      ensures ok == store.isOpen
      ensures store.syncQueue == old(store.syncQueue) && store.nextQueueId == old(store.nextQueueId)
      ensures var r := PullRequest(productsUrl, OfflineStorage.GetMeta(old(store.metadata), OfflineStorage.LastProductSync));
        var res := Respond(backend.respond(Authorize(r, token)), online, r, true, old(store.products), store.customers);
        var fetched := if res.Resolved? then res.body.products else None;
        if ok then
          && backend.sent == old(backend.sent) + [Authorize(r, token)]
          && store.products == (if fetched.Some? then OfflineStorage.PutAll(old(store.products), fetched.value, OfflineStorage.ProductKey) else old(store.products))
          && store.metadata == (if fetched.Some? then OfflineStorage.SetMeta(old(store.metadata), OfflineStorage.LastProductSync, now, now) else old(store.metadata))
          && Cache(store.products, store.customers, store.metadata) ==
               AfterProductPull(Cache(old(store.products), old(store.customers), old(store.metadata)), productsUrl, backend.respond, online, token, now)
        else
          backend.sent == old(backend.sent) && store.products == old(store.products) && store.metadata == old(store.metadata)
    {
      var lastSync := store.GetMetadata(OfflineStorage.LastProductSync);
      if lastSync.StorageError? {
        return false;
      }
      var r := PullRequest(productsUrl, lastSync.value);
      var result := Send(backend, store, online, token, now, r);
      if result.Resolved? && result.body.products.Some? {
        var _ := store.SaveProducts(result.body.products.value, now);
      }
      ok := true;
    }

    method PullCustomers(backend: Backend, store: OfflineStorage.Store, online: bool, token: Option<string>, now: int)
      returns (ok: bool)
      requires store.Valid()
      modifies backend`sent, store`customers, store`metadata, store`syncQueue, store`nextQueueId
      ensures store.Valid()
      ensures ok == store.isOpen
      ensures store.syncQueue == old(store.syncQueue) && store.nextQueueId == old(store.nextQueueId)
      ensures var r := PullRequest(customersUrl, OfflineStorage.GetMeta(old(store.metadata), OfflineStorage.LastCustomerSync));
        var res := Respond(backend.respond(Authorize(r, token)), online, r, true, store.products, old(store.customers));
        var fetched := if res.Resolved? then res.body.customers else None;
        if ok then
          && backend.sent == old(backend.sent) + [Authorize(r, token)]
          && store.customers == (if fetched.Some? then OfflineStorage.PutAll(old(store.customers), fetched.value, OfflineStorage.CustomerKey) else old(store.customers))
          && store.metadata == (if fetched.Some? then OfflineStorage.SetMeta(old(store.metadata), OfflineStorage.LastCustomerSync, now, now) else old(store.metadata))
          && Cache(store.products, store.customers, store.metadata) ==
               AfterCustomerPull(Cache(old(store.products), old(store.customers), old(store.metadata)), customersUrl, backend.respond, online, token, now)
        else
          backend.sent == old(backend.sent) && store.customers == old(store.customers) && store.metadata == old(store.metadata)
    {
      var lastSync := store.GetMetadata(OfflineStorage.LastCustomerSync);
      if lastSync.StorageError? {
        return false;
      }
      var r := PullRequest(customersUrl, lastSync.value);
      var result := Send(backend, store, online, token, now, r);
      if result.Resolved? && result.body.customers.Some? {
        var _ := store.SaveCustomers(result.body.customers.value, now);
      }
      ok := true;
    }

    /** `executeQueueItem(item)`: the call for a known type, or the `Unknown queue item type` error. */
    method ExecuteQueueItem(backend: Backend, store: OfflineStorage.Store, online: bool, token: Option<string>, now: int,
                            item: QueueItem) returns (delivered: bool)
      requires store.Valid() && store.isOpen
      modifies backend`sent, store`syncQueue, store`nextQueueId
      ensures store.Valid()
      ensures backend.sent == old(backend.sent) + ReplaySent(item, token)
      ensures match ReplayTarget(item.tag, item.data)
        case None =>
          !delivered && store.syncQueue == old(store.syncQueue) && store.nextQueueId == old(store.nextQueueId)
        case Some(t) =>
          && delivered == Delivered(backend.respond(Authorize(ReplayRequest(item, t), token)), online)
          && QueueState(store.syncQueue, store.nextQueueId) ==
               AfterSend(QueueState(old(store.syncQueue), old(store.nextQueueId)), ReplayRequest(item, t), backend.respond, online, token, now)
    {
      var target := ReplayTarget(item.tag, item.data);
      if target.None? {
        return false;
      }
      var r := ReplayRequest(item, target.value);
      var result := Send(backend, store, online, token, now, r);
      ReplayResolvesIffDelivered(backend.respond(Authorize(r, token)), online, item, target.value, store.products, store.customers);
      delivered := result.Resolved?;
    }

    /** One iteration of phase 4: replay, then remove the item or bump its retry count. */
    method ReplayItem(backend: Backend, store: OfflineStorage.Store, online: bool, token: Option<string>, now: int,
                      item: QueueItem)
      requires store.Valid() && store.isOpen
      modifies backend`sent, store`syncQueue, store`nextQueueId
      ensures store.Valid()
      ensures backend.sent == old(backend.sent) + ReplaySent(item, token)
      ensures QueueState(store.syncQueue, store.nextQueueId) ==
        ReplayStep(QueueState(old(store.syncQueue), old(store.nextQueueId)), item, backend.respond, online, token, now)
    {
      var delivered := ExecuteQueueItem(backend, store, online, token, now, item);
      if delivered {
        var _ := store.RemoveSyncItem(item.id);
      } else if item.retryCount < 3 {
        var _ := store.PutQueueItem(item.(retryCount := item.retryCount + 1));
      }
    }

    /** Step `i` of the loop of phase 4: the queue so far is that of the first `i` items replayed from `q0`. */
    method ReplayNext(backend: Backend, store: OfflineStorage.Store, online: bool, token: Option<string>, now: int,
                      items: seq<QueueItem>, i: int, ghost q0: QueueState)
      requires 0 <= i < |items|
      requires store.Valid() && store.isOpen
      requires QueueState(store.syncQueue, store.nextQueueId) == Replay(q0, items[..i], backend.respond, online, token, now)
      modifies backend`sent, store`syncQueue, store`nextQueueId
      ensures store.Valid()
      ensures backend.sent == old(backend.sent) + ReplaySent(items[i], token)
      ensures QueueState(store.syncQueue, store.nextQueueId) == Replay(q0, items[..i + 1], backend.respond, online, token, now)
    {
      ReplayStepAt(q0, items, i, backend.respond, online, token, now);
      ReplayItem(backend, store, online, token, now, items[i]);
    }

    /** The loop of phase 4 over a snapshot `items`. */
    method ReplayAll(backend: Backend, store: OfflineStorage.Store, online: bool, token: Option<string>, now: int,
                     items: seq<QueueItem>)
      requires store.Valid() && store.isOpen
      modifies backend`sent, store`syncQueue, store`nextQueueId
      ensures store.Valid()
      ensures backend.sent == old(backend.sent) + ReplayRequests(items, token)
      ensures QueueState(store.syncQueue, store.nextQueueId) ==
        Replay(QueueState(old(store.syncQueue), old(store.nextQueueId)), items, backend.respond, online, token, now)
    {
      ghost var q0 := QueueState(store.syncQueue, store.nextQueueId);
      var i := 0;
      while i < |items|
        invariant 0 <= i <= |items|
        invariant store.Valid() && store.isOpen
        invariant backend.sent == old(backend.sent) + ReplayRequests(items[..i], token)
        invariant QueueState(store.syncQueue, store.nextQueueId) == Replay(q0, items[..i], backend.respond, online, token, now)
      {
        ReplayStepAt(q0, items, i, backend.respond, online, token, now);
        ReplayNext(backend, store, online, token, now, items, i, q0);
        i := i + 1;
      }
      assert items[..|items|] == items;
    }

    /** Phase 4: replay a snapshot of the queue; success removes an item, failure bumps its retry count. */
    method ProcessSyncQueue(backend: Backend, store: OfflineStorage.Store, online: bool, token: Option<string>, now: int)
      returns (ok: bool)
      requires store.Valid()
      modifies backend`sent, store`syncQueue, store`nextQueueId
      ensures store.Valid()
      ensures ok == store.isOpen
      ensures ok ==>
        var items := KeyOrder.ValuesByKey(old(store.syncQueue));
        && backend.sent == old(backend.sent) + ReplayRequests(items, token)
        && QueueState(store.syncQueue, store.nextQueueId) ==
             Replay(QueueState(old(store.syncQueue), old(store.nextQueueId)), items, backend.respond, online, token, now)
      ensures !ok ==>
        backend.sent == old(backend.sent) && store.syncQueue == old(store.syncQueue) && store.nextQueueId == old(store.nextQueueId)
    {
      var queue := store.GetSyncQueue();
      if queue.StorageError? {
        return false;
      }
      ReplayAll(backend, store, online, token, now, queue.value);
      ok := true;
    }

    /** Phases 2 and 3; the watermark of customers is not touched by the product pull. */
    method PullAll(backend: Backend, store: OfflineStorage.Store, online: bool, token: Option<string>, now: int)
      requires store.Valid() && store.isOpen
      modifies backend`sent, store`products, store`customers, store`metadata, store`syncQueue, store`nextQueueId
      ensures store.Valid()
      ensures store.syncQueue == old(store.syncQueue) && store.nextQueueId == old(store.nextQueueId)
      ensures Cache(store.products, store.customers, store.metadata) ==
        AfterPulls(Cache(old(store.products), old(store.customers), old(store.metadata)), productsUrl, customersUrl, backend.respond, online, token, now)
      ensures backend.sent == old(backend.sent)
        + [Authorize(PullRequest(productsUrl, OfflineStorage.GetMeta(old(store.metadata), OfflineStorage.LastProductSync)), token)]
        + [Authorize(PullRequest(customersUrl, OfflineStorage.GetMeta(old(store.metadata), OfflineStorage.LastCustomerSync)), token)]
    {
      ghost var meta0 := store.metadata;
      var _ := PullProducts(backend, store, online, token, now);
      OfflineStorage.MetaRoundTrip(meta0, OfflineStorage.LastProductSync, OfflineStorage.LastCustomerSync, now, now);
      assert OfflineStorage.GetMeta(store.metadata, OfflineStorage.LastCustomerSync) == OfflineStorage.GetMeta(meta0, OfflineStorage.LastCustomerSync);
      var _ := PullCustomers(backend, store, online, token, now);
    }

    /** Phases 2 to 4, once the pending orders are uploaded. */
    method LaterPhases(backend: Backend, store: OfflineStorage.Store, online: bool, token: Option<string>, now: int)
      requires store.Valid() && store.isOpen
      modifies backend`sent, store`products, store`customers, store`metadata, store`syncQueue, store`nextQueueId
      ensures store.Valid()
      ensures Cache(store.products, store.customers, store.metadata) ==
        AfterPulls(Cache(old(store.products), old(store.customers), old(store.metadata)), productsUrl, customersUrl, backend.respond, online, token, now)
      ensures var q := QueueState(old(store.syncQueue), old(store.nextQueueId));
        && QueueState(store.syncQueue, store.nextQueueId) == Replay(q, KeyOrder.ValuesByKey(q.items), backend.respond, online, token, now)
        && backend.sent == old(backend.sent)
             + [Authorize(PullRequest(productsUrl, OfflineStorage.GetMeta(old(store.metadata), OfflineStorage.LastProductSync)), token)]
             + [Authorize(PullRequest(customersUrl, OfflineStorage.GetMeta(old(store.metadata), OfflineStorage.LastCustomerSync)), token)]
             + ReplayRequests(KeyOrder.ValuesByKey(q.items), token)
    {
      PullAll(backend, store, online, token, now);
      var _ := ProcessSyncQueue(backend, store, online, token, now);
    }

    /** The four phases of one pass, in order; a storage failure ends the pass at the first phase. */
    method RunPhases(backend: Backend, store: OfflineStorage.Store, online: bool, token: Option<string>, now: int)
      returns (ok: bool)
      requires store.Valid()
      modifies backend`sent
      modifies store`pendingOrders, store`products, store`customers, store`metadata, store`syncQueue, store`nextQueueId
      ensures store.Valid()
      ensures ok == store.isOpen
      ensures !ok ==> Untouched(backend, store)
      ensures ok ==> PassRan(this, backend, store, online, token, now)
    {
      ok := SyncPendingOrders(backend, store, online, token, now);
      if ok {
        LaterPhases(backend, store, online, token, now);
      }
    }

    /**
     * `syncAll()`: a no-op while a pass is in progress; otherwise the phases
     * between `syncStart` and `syncComplete` (or `syncError` when the store
     * cannot be read), with the flag cleared afterwards.
     */
    method SyncAll(backend: Backend, store: OfflineStorage.Store, online: bool, token: Option<string>, now: int)
      returns (ran: bool)
      requires store.Valid()
      modifies this`syncInProgress, this`delivered, backend`sent
      modifies store`pendingOrders, store`products, store`customers, store`metadata, store`syncQueue, store`nextQueueId
      ensures store.Valid()
      ensures ran == !old(syncInProgress)
      ensures !ran ==>
        && syncInProgress && delivered == old(delivered) && backend.sent == old(backend.sent)
        && store.pendingOrders == old(store.pendingOrders) && store.products == old(store.products)
        && store.customers == old(store.customers) && store.metadata == old(store.metadata)
        && store.syncQueue == old(store.syncQueue) && store.nextQueueId == old(store.nextQueueId)
      ensures ran ==> !syncInProgress
      ensures ran ==> delivered == old(delivered) + Broadcast(listeners, SyncStart)
                                  + Broadcast(listeners, if store.isOpen then SyncComplete else SyncError)
      ensures ran && store.isOpen ==> PassRan(this, backend, store, online, token, now)
      ensures !(ran && store.isOpen) ==> Untouched(backend, store)
    {
      if syncInProgress {
        return false;
      }
      ran := true;
      syncInProgress := true;
      NotifyListeners(SyncStart);
      var ok := RunPhases(backend, store, online, token, now);
      NotifyListeners(if ok then SyncComplete else SyncError);
      syncInProgress := false;
    }

    /** `handleOnline()`: announce, then start a pass. */
    method HandleOnline(backend: Backend, store: OfflineStorage.Store, token: Option<string>, now: int) returns (ran: bool)
      requires store.Valid()
      modifies this`syncInProgress, this`delivered, backend`sent
      modifies store`pendingOrders, store`products, store`customers, store`metadata, store`syncQueue, store`nextQueueId
      ensures store.Valid()
      ensures ran == !old(syncInProgress)
      ensures ran ==>
        && !syncInProgress
        && delivered == old(delivered) + Broadcast(listeners, WentOnline) + Broadcast(listeners, SyncStart)
                          + Broadcast(listeners, if store.isOpen then SyncComplete else SyncError)
      ensures !ran ==> syncInProgress && delivered == old(delivered) + Broadcast(listeners, WentOnline)
      ensures ran && store.isOpen ==> PassRan(this, backend, store, true, token, now)
      ensures !(ran && store.isOpen) ==> Untouched(backend, store)
    {
      NotifyListeners(WentOnline);
      ran := SyncAll(backend, store, true, token, now);
    }

    method HandleOffline()
      modifies this`delivered
      ensures delivered == old(delivered) + Broadcast(listeners, WentOffline)
    {
      NotifyListeners(WentOffline);
    }

    /** `init()`: open the store; when that succeeds and the browser is online, run a pass. */
    method Init(backend: Backend, store: OfflineStorage.Store, platformAvailable: bool, online: bool,
                token: Option<string>, now: int) returns (ok: bool)
      requires store.Valid()
      modifies this`syncInProgress, this`delivered, backend`sent, store`isOpen
      modifies store`pendingOrders, store`products, store`customers, store`metadata, store`syncQueue, store`nextQueueId
      ensures store.Valid()
      ensures ok == platformAvailable && store.isOpen == (old(store.isOpen) || platformAvailable)
      ensures ok && online && !old(syncInProgress) ==>
        && !syncInProgress && PassRan(this, backend, store, online, token, now)
        && delivered == old(delivered) + Broadcast(listeners, SyncStart) + Broadcast(listeners, SyncComplete)
      ensures !(ok && online && !old(syncInProgress)) ==>
        syncInProgress == old(syncInProgress) && delivered == old(delivered) && Untouched(backend, store)
    {
      ok := store.Init(platformAvailable);
      if ok && online {
        var _ := SyncAll(backend, store, online, token, now);
      }
    }

    /** `getSyncStatus()`: counts of pending orders and queued items, and both watermarks. */
    method GetSyncStatus(store: OfflineStorage.Store, online: bool) returns (r: OfflineStorage.Outcome<SyncStatus>)
      ensures store.isOpen ==> r == OfflineStorage.Ok(SyncStatus(
        online, |OfflineStorage.PendingOf(store.pendingOrders)|, |store.syncQueue|,
        OfflineStorage.GetMeta(store.metadata, OfflineStorage.LastProductSync),
        OfflineStorage.GetMeta(store.metadata, OfflineStorage.LastCustomerSync)))
      ensures !store.isOpen ==> r == OfflineStorage.StorageError
    {
      var pending := store.GetPendingOrders();
      var queue := store.GetSyncQueue();
      var products := store.GetMetadata(OfflineStorage.LastProductSync);
      var customers := store.GetMetadata(OfflineStorage.LastCustomerSync);
      if pending.StorageError? || queue.StorageError? || products.StorageError? || customers.StorageError? {
        return OfflineStorage.StorageError;
      }
      KeyOrder.ValuesByKeySpec(store.syncQueue);
      r := OfflineStorage.Ok(SyncStatus(online, |pending.value|, |queue.value|, products.value, customers.value));
    }
  }

  /** Nothing a pass writes has changed. */
  twostate predicate Untouched(backend: Backend, store: OfflineStorage.Store)
    reads backend, store
  {
    && backend.sent == old(backend.sent)
    && store.pendingOrders == old(store.pendingOrders) && store.products == old(store.products)
    && store.customers == old(store.customers) && store.metadata == old(store.metadata)
    && store.syncQueue == old(store.syncQueue) && store.nextQueueId == old(store.nextQueueId)
  }

  /**
   * The effect of the four phases of one pass: the unsynced orders are
   * posted and the confirmed ones marked synced, both pulls are sent with the
   * stored watermarks and their answers cached as `AfterPulls` says, and the
   * queue as phase 1 left it is replayed in key order.
   */
  twostate predicate PassRan(m: Manager, backend: Backend, store: OfflineStorage.Store, online: bool, token: Option<string>, now: int)
    reads backend, store
  {
    var os := OfflineStorage.PendingOf(old(store.pendingOrders));
    var q1 := AfterOrders(QueueState(old(store.syncQueue), old(store.nextQueueId)), os, backend.respond, online, token, now);
    && store.pendingOrders == MarkConfirmed(old(store.pendingOrders), os, backend.respond, online, token, now)
    && Cache(store.products, store.customers, store.metadata) ==
         AfterPulls(Cache(old(store.products), old(store.customers), old(store.metadata)), m.productsUrl, m.customersUrl,
                    backend.respond, online, token, now)
    && QueueState(store.syncQueue, store.nextQueueId) == Replay(q1, KeyOrder.ValuesByKey(q1.items), backend.respond, online, token, now)
    && backend.sent == old(backend.sent) + OrderRequests(os, token)
         + [Authorize(PullRequest(m.productsUrl, OfflineStorage.GetMeta(old(store.metadata), OfflineStorage.LastProductSync)), token)]
         + [Authorize(PullRequest(m.customersUrl, OfflineStorage.GetMeta(old(store.metadata), OfflineStorage.LastCustomerSync)), token)]
         + ReplayRequests(KeyOrder.ValuesByKey(q1.items), token)
  }

  lemma BroadcastSnoc(listeners: seq<nat>, e: Event)
    requires listeners != []
    ensures Broadcast(listeners, e) == Broadcast(listeners[..|listeners| - 1], e) + [Notice(listeners[|listeners| - 1], e)]
  {
    var front := listeners[..|listeners| - 1];
    BroadcastSpec(listeners, e);
    BroadcastSpec(front, e);
    assert forall i :: 0 <= i < |front| ==> front[i] == listeners[i];
  }
}
