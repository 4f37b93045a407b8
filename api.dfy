/**
 * The HTTP client the pages share: a request interceptor that adds the bearer
 * header and a response interceptor that, when the browser is offline or the
 * request never reached the server, answers from the local store or defers
 * writes to the sync queue. The server itself is an oracle.
 */
module Api {
  import opened Wrappers
  import opened Entities
  import opened Text
  import KeyOrder
  import OfflineStorage

  datatype Method = Get | Post | Put | Patch | Delete

  /** The lower-case name axios stores in `config.method`. */
  function MethodName(m: Method): string {
    match m
    case Get => "get"
    case Post => "post"
    case Put => "put"
    case Patch => "patch"
    case Delete => "delete"
  }

  /**
   * A request configuration: method, url (without query string), the one
   * query parameter the sync layer uses (`updatedAfter`), the JSON body and
   * the `Authorization` header.
   */
  datatype Request = Request(verb: Method, url: string, updatedAfter: Option<int>, data: Payload, authorization: Option<string>)

  /** The fields of `response.data` that the callers read. */
  datatype Body = Body(
    id: Option<Id>,
    products: Option<seq<Product>>,
    customers: Option<seq<Customer>>,
    queued: bool,
    orderNumber: Option<string>,
    token: Option<string>,
    user: Option<string>)

  const EmptyBody: Body := Body(None, None, None, false, None, None, None)

  /** `{queued: true, message: 'Request queued for sync'}`. */
  const QueuedBody: Body := EmptyBody.(queued := true)

  /** An axios error: `message`, `code`, `response.status` and `response.data.error`. */
  datatype HttpError = HttpError(message: string, code: Option<string>, status: Option<int>, serverError: Option<string>)

  const NetworkError: string := "Network Error"

  /** What the server (or the transport) does with one request. */
  datatype Reply = Answer(body: Body) | Fail(error: HttpError)

  /** What the caller's `await api...` sees: a resolved response, the rejection, or the store's own failure. */
  datatype ApiResult = Resolved(body: Body) | Rejected(error: HttpError) | StoreFailed

  // ------------------------------------------------------------------ request interceptor

  /** The header value the request interceptor adds for a stored token. */
  function AuthHeader(token: Option<string>): Option<string> {
    if token.Some? && token.value != "" then Some("Bearer " + token.value) else None
  }

  /** The request interceptor. */
  function Authorize(r: Request, token: Option<string>): Request {
    var h := AuthHeader(token);
    if h.Some? then r.(authorization := h) else r
  }

  /**
   * A non-empty stored token is sent as `Bearer <token>`; an absent or empty
   * one adds no header. Nothing else about the request changes.
   */
  lemma AuthorizeSpec(r: Request, token: Option<string>)
    ensures Authorize(r, token).verb == r.verb && Authorize(r, token).url == r.url
    ensures Authorize(r, token).updatedAfter == r.updatedAfter && Authorize(r, token).data == r.data
    ensures token.Some? && token.value != "" ==> Authorize(r, token).authorization == Some("Bearer " + token.value)
    ensures !(token.Some? && token.value != "") ==> Authorize(r, token).authorization == r.authorization
  {
  }

  // ------------------------------------------------------------------ response interceptor

  /** The test the error handler applies before falling back to local data. */
  predicate IsConnectivityFailure(online: bool, e: HttpError) {
    !online || e.message == NetworkError
  }

  datatype Fallback = ServeProducts | ServeCustomers | Enqueue(tag: string) | Reject

  /** What the error handler does with a request that failed for lack of connectivity. */
  function OfflineFallback(m: Method, url: string): Fallback {
    if m == Get && Includes(url, "/products") then ServeProducts
    else if m == Get && Includes(url, "/customers") then ServeCustomers
    else if m == Post || m == Put || m == Patch then Enqueue(MethodName(m) + "_" + url)
    else Reject
  }

  /**
   * The fallback table: GETs of products (checked first) and customers are
   * served from the cache, writes are queued under `method_url`, and
   * everything else is rejected.
   */
  lemma OfflineFallbackSpec(m: Method, url: string)
    ensures OfflineFallback(m, url) == ServeProducts <==> m == Get && Includes(url, "/products")
    ensures OfflineFallback(m, url) == ServeCustomers <==> m == Get && !Includes(url, "/products") && Includes(url, "/customers")
    ensures OfflineFallback(m, url).Enqueue? <==> m == Post || m == Put || m == Patch
    ensures OfflineFallback(m, url).Enqueue? ==> OfflineFallback(m, url).tag == MethodName(m) + "_" + url
    ensures OfflineFallback(m, url) == Reject <==>
      m == Delete || (m == Get && !Includes(url, "/products") && !Includes(url, "/customers"))
  {
  }

  /** Whether handling `reply` appends an item to the sync queue. */
  predicate Enqueues(reply: Reply, online: bool, r: Request) {
    reply.Fail? && IsConnectivityFailure(online, reply.error) && OfflineFallback(r.verb, r.url).Enqueue?
  }

  /**
   * The sync queue after the response interceptor handled `reply` to `r`: a
   * deferred write is added under the next key when the store is open.
   */
  function QueueAfter(queue: map<Id, QueueItem>, next: Id, reply: Reply, online: bool, r: Request, storeOpen: bool, now: int)
    : (q: map<Id, QueueItem>)
    ensures Enqueues(reply, online, r) && storeOpen ==>
      next in q && q[next].tag == MethodName(r.verb) + "_" + r.url && q[next].data == r.data && q[next].retryCount == 0
    ensures forall k :: k in queue && k != next ==> k in q && q[k] == queue[k]
    ensures !(Enqueues(reply, online, r) && storeOpen) ==> q == queue
  {
    OfflineFallbackSpec(r.verb, r.url);
    if Enqueues(reply, online, r) && storeOpen then queue[next := QueueItem(next, OfflineFallback(r.verb, r.url).tag, r.data, now, 0)]
    else queue
  }

  /** The queue's key generator after the same call. */
  function NextAfter(next: Id, reply: Reply, online: bool, r: Request, storeOpen: bool): (n: Id)
    ensures n == next + 1 <==> Enqueues(reply, online, r) && storeOpen
    ensures n == next || n == next + 1
  {
    if Enqueues(reply, online, r) && storeOpen then next + 1 else next
  }

  /** The response interceptor's outcome, given the store's state. */
  function Respond(reply: Reply, online: bool, r: Request, storeOpen: bool,
                   products: map<Id, Product>, customers: map<Id, Customer>): ApiResult
  {
    if reply.Answer? then Resolved(reply.body)
    else if !IsConnectivityFailure(online, reply.error) then Rejected(reply.error)
    else match OfflineFallback(r.verb, r.url)
      case ServeProducts =>
        if storeOpen then Resolved(EmptyBody.(products := Some(KeyOrder.ValuesByKey(products)))) else StoreFailed
      case ServeCustomers =>
        if storeOpen then Resolved(EmptyBody.(customers := Some(KeyOrder.ValuesByKey(customers)))) else StoreFailed
      case Enqueue(_) =>
        if storeOpen then Resolved(QueuedBody) else StoreFailed
      case Reject => Rejected(reply.error)
  }

  /** A successful response passes through unchanged, whatever the connectivity. */
  lemma SuccessPassesThrough(body: Body, online: bool, r: Request, storeOpen: bool,
                             products: map<Id, Product>, customers: map<Id, Customer>)
    ensures Respond(Answer(body), online, r, storeOpen, products, customers) == Resolved(body)
    ensures !Enqueues(Answer(body), online, r)
  {
  }

  /** Online, an error other than `Network Error` is rejected as is and nothing is queued. */
  lemma OnlineErrorRejected(e: HttpError, r: Request, storeOpen: bool,
                            products: map<Id, Product>, customers: map<Id, Customer>)
    requires e.message != NetworkError
    ensures Respond(Fail(e), true, r, storeOpen, products, customers) == Rejected(e)
    ensures !Enqueues(Fail(e), true, r)
  {
  }

  /** An offline GET on a products url is answered with every cached product; products win over customers. */
  lemma OfflineProductsServed(e: HttpError, online: bool, r: Request,
                              products: map<Id, Product>, customers: map<Id, Customer>)
    requires IsConnectivityFailure(online, e)
    requires r.verb == Get && Includes(r.url, "/products")
    ensures Respond(Fail(e), online, r, true, products, customers).Resolved?
    ensures Respond(Fail(e), online, r, true, products, customers).body.products == Some(KeyOrder.ValuesByKey(products))
    ensures Respond(Fail(e), online, r, true, products, customers).body.customers == None
  {
  }

  /** An offline GET on a customers url (and not a products one) is answered with every cached customer. */
  lemma OfflineCustomersServed(e: HttpError, online: bool, r: Request,
                               products: map<Id, Product>, customers: map<Id, Customer>)
    requires IsConnectivityFailure(online, e)
    requires r.verb == Get && !Includes(r.url, "/products") && Includes(r.url, "/customers")
    ensures Respond(Fail(e), online, r, true, products, customers).Resolved?
    ensures Respond(Fail(e), online, r, true, products, customers).body.customers == Some(KeyOrder.ValuesByKey(customers))
    ensures Respond(Fail(e), online, r, true, products, customers).body.products == None
  {
  }

  /** An offline write resolves `{queued: true}` and is the only kind of request that is queued. */
  lemma OfflineWriteQueued(e: HttpError, online: bool, r: Request,
                           products: map<Id, Product>, customers: map<Id, Customer>)
    requires IsConnectivityFailure(online, e)
    ensures Enqueues(Fail(e), online, r) <==> (r.verb == Post || r.verb == Put || r.verb == Patch)
    ensures Enqueues(Fail(e), online, r) ==> Respond(Fail(e), online, r, true, products, customers) == Resolved(QueuedBody)
  {
  }

  /** Offline DELETE, and an offline GET of another resource, are rejected with the original error. */
  lemma OfflineOtherRejected(e: HttpError, online: bool, r: Request, storeOpen: bool,
                             products: map<Id, Product>, customers: map<Id, Customer>)
    requires IsConnectivityFailure(online, e)
    requires r.verb == Delete || (r.verb == Get && !Includes(r.url, "/products") && !Includes(r.url, "/customers"))
    ensures Respond(Fail(e), online, r, storeOpen, products, customers) == Rejected(e)
    ensures !Enqueues(Fail(e), online, r)
  {
  }

  // ------------------------------------------------------------------ the server

  /** The backend: a fixed answer for each request, and the log of what was sent. */
  class Backend {
    const respond: Request -> Reply
    var sent: seq<Request>

    constructor (respond: Request -> Reply)
      ensures this.respond == respond && sent == []
    {
      this.respond := respond;
      sent := [];
    }

    method Call(r: Request) returns (reply: Reply)
      modifies this`sent
      ensures reply == respond(r)
      ensures sent == old(sent) + [r]
    {
      reply := respond(r);
      sent := sent + [r];
    }
  }

  /**
   * One call through the client: the request interceptor, the server, then
   * the response interceptor with its reads of and writes to the store.
   */
  method Send(backend: Backend, store: OfflineStorage.Store, online: bool, token: Option<string>, now: int, r: Request)
    returns (result: ApiResult)
    requires store.Valid()
    modifies backend`sent, store`syncQueue, store`nextQueueId
    ensures store.Valid()
    ensures backend.sent == old(backend.sent) + [Authorize(r, token)]
    ensures result == Respond(backend.respond(Authorize(r, token)), online, r, store.isOpen, store.products, store.customers)
    ensures Enqueues(backend.respond(Authorize(r, token)), online, r) && store.isOpen ==>
      store.syncQueue == old(store.syncQueue)[old(store.nextQueueId) :=
        QueueItem(old(store.nextQueueId), OfflineFallback(r.verb, r.url).tag, r.data, now, 0)]
      && store.nextQueueId == old(store.nextQueueId) + 1
    ensures !(Enqueues(backend.respond(Authorize(r, token)), online, r) && store.isOpen) ==>
      store.syncQueue == old(store.syncQueue) && store.nextQueueId == old(store.nextQueueId)
    ensures store.syncQueue ==
      QueueAfter(old(store.syncQueue), old(store.nextQueueId), backend.respond(Authorize(r, token)), online, r, store.isOpen, now)
    ensures store.nextQueueId == NextAfter(old(store.nextQueueId), backend.respond(Authorize(r, token)), online, r, store.isOpen)
  {
    var sentRequest := Authorize(r, token);
    var reply := backend.Call(sentRequest);
    if reply.Answer? || !IsConnectivityFailure(online, reply.error) {
      result := Respond(reply, online, r, store.isOpen, store.products, store.customers);
      return;
    }
    var fallback := OfflineFallback(r.verb, r.url);
    match fallback
    case Enqueue(tag) =>
      var added := store.AddToSyncQueue(tag, r.data, now);
      result := if added.Ok? then Resolved(QueuedBody) else StoreFailed;
    case _ =>
      result := Respond(reply, online, r, store.isOpen, store.products, store.customers);
  }
}
