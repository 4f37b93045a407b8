/**
 * The login page: the two-second resubmission throttle, the login request
 * through the shared HTTP client, the token branch and the choice of error
 * message. `localStorage` is the page's `token` and `user` fields; the clock
 * is a parameter.
 */
module Login {
  import opened Wrappers
  import opened Text
  import opened Entities
  import Api
  import OfflineStorage

  const ThrottleMs: int := 2000

  const WaitMessage: string := "Please wait a moment before trying again"
  const RateLimitedMessage: string := "Too many login attempts. Please wait 30 seconds and try again."
  const InvalidMessage: string := "Invalid email or password"
  const TimeoutMessage: string := "Connection timeout. Please check your internet and try again."
  const GenericMessage: string := "Login failed. Please try again."

  /** Whether an attempt at `now` gets past the throttle. */
  predicate Accepts(now: int, lastSubmit: int) {
    now - lastSubmit >= ThrottleMs
  }

  /** `api.post(url, {email: email.trim(), password})` before the interceptor; the page posts to `/auth/login`. */
  function LoginRequest(url: string, email: string, password: string): Api.Request {
    Api.Request(Api.Post, url, None, Credentials(Trim(email), password), None)
  }

  /** What reaches the `catch`: an axios error, the `No token received` error, or the store's own failure. */
  datatype Failure = HttpFailure(error: Api.HttpError) | NoToken | StoreFailure

  /** The catch block's choice of message: 429, then 401, then a timeout, then the server's text or the generic one. */
  function ErrorMessage(f: Failure): string {
    if f.HttpFailure? && f.error.status == Some(429) then RateLimitedMessage
    else if f.HttpFailure? && f.error.status == Some(401) then InvalidMessage
    else if f.HttpFailure? && f.error.code == Some("ECONNABORTED") then TimeoutMessage
    else if f.HttpFailure? && f.error.serverError.Some? && f.error.serverError.value != "" then f.error.serverError.value
    else GenericMessage
  }

  /**
   * A 429 always gives the rate-limit message and a 401 the credentials
   * message; a timeout is reported only without either status; the server's
   * text is shown only when none of the three applies; anything thrown
   * without a response gives the generic message.
   */
  lemma ErrorMessageSpec(e: Api.HttpError)
    ensures e.status == Some(429) ==> ErrorMessage(HttpFailure(e)) == RateLimitedMessage
    ensures e.status == Some(401) ==> ErrorMessage(HttpFailure(e)) == InvalidMessage
    ensures e.status != Some(429) && e.status != Some(401) && e.code == Some("ECONNABORTED") ==>
      ErrorMessage(HttpFailure(e)) == TimeoutMessage
    ensures e.status != Some(429) && e.status != Some(401) && e.code != Some("ECONNABORTED") ==>
      ErrorMessage(HttpFailure(e)) == (if e.serverError.Some? && e.serverError.value != "" then e.serverError.value else GenericMessage)
    ensures ErrorMessage(NoToken) == GenericMessage && ErrorMessage(StoreFailure) == GenericMessage
  {
  }

  /** The failure behind a result that did not log in. */
  function FailureOf(r: Api.ApiResult): Failure {
    match r
    case Resolved(_) => NoToken
    case Rejected(e) => HttpFailure(e)
    case StoreFailed => StoreFailure
  }

  /** `if (response.data.token)`: a resolved response with a non-empty token. */
  predicate HasToken(r: Api.ApiResult) {
    r.Resolved? && r.body.token.Some? && r.body.token.value != ""
  }

  /** `JSON.stringify(user)` as `localStorage` keeps it: a missing user is stored as the text `undefined`. */
  function StoredUser(user: Option<string>): string {
    user.GetOr("undefined")
  }

  /**
   * Offline, or when the request never reached the server, the login post is
   * a write like any other: its credentials go to the sync queue and the page
   * sees `{queued: true}`, which has no token.
   */
  lemma OfflineLoginIsQueued(e: Api.HttpError, online: bool, url: string, email: string, password: string)
    requires Api.IsConnectivityFailure(online, e)
    ensures Api.Enqueues(Api.Fail(e), online, LoginRequest(url, email, password))
    ensures Api.OfflineFallback(Api.Post, url).tag == "post_" + url
    ensures LoginRequest(url, email, password).data == Credentials(Trim(email), password)
    ensures !HasToken(Api.Resolved(Api.QueuedBody))
    ensures ErrorMessage(FailureOf(Api.Resolved(Api.QueuedBody))) == GenericMessage
  {
  }

  datatype Outcome = Throttled | LoggedIn | Failed(message: string)

  class LoginPage {
    var email: string
    var password: string
    var error: string
    var loading: bool
    var lastSubmit: int
    /** `localStorage.token` and `localStorage.user`. */
    var token: Option<string>
    var user: Option<string>
    /** Whether the page has sent the browser to `/dashboard`. */
    var redirected: bool
    /** The login endpoint, `/auth/login`. */
    const loginUrl: string

    /** The page opens with a stored session (if any); a stored token sends it straight on to the dashboard. */
    constructor (token: Option<string>, user: Option<string>)
      ensures this.token == token && this.user == user
      ensures email == "" && password == "" && error == "" && !loading && lastSubmit == 0
      ensures redirected <==> token.Some? && token.value != ""
      ensures loginUrl == "/auth/login"
    {
      loginUrl := "/auth/login";
      this.token := token;
      this.user := user;
      email, password, error, loading, lastSubmit := "", "", "", false, 0;
      redirected := token.Some? && token.value != "";
    }

    /**
     * `handleSubmit` at time `now`. An attempt within two seconds of the last
     * accepted one only sets the wait message. Otherwise the attempt is
     * recorded, the trimmed email and the password are posted, and a token in
     * the response is stored with the user; any other result sets the
     * classified message and leaves the stored session as it was.
     */
    method HandleSubmit(now: int, backend: Api.Backend, store: OfflineStorage.Store, online: bool)
      returns (outcome: Outcome)
      requires store.Valid()
      modifies this`lastSubmit, this`token, this`user, this`redirected, this`error, this`loading
      modifies backend`sent, store`syncQueue, store`nextQueueId
      ensures store.Valid()
      ensures !Accepts(now, old(lastSubmit)) ==>
        && outcome == Throttled && error == WaitMessage && loading == old(loading)
        && lastSubmit == old(lastSubmit) && token == old(token) && user == old(user) && redirected == old(redirected)
        && backend.sent == old(backend.sent)
        && store.syncQueue == old(store.syncQueue) && store.nextQueueId == old(store.nextQueueId)
      ensures Accepts(now, old(lastSubmit)) ==>
        var sent := Api.Authorize(LoginRequest(loginUrl, old(email), old(password)), old(token));
        var result := Api.Respond(backend.respond(sent), online, LoginRequest(loginUrl, old(email), old(password)),
                                  store.isOpen, store.products, store.customers);
        && lastSubmit == now && !loading
        && backend.sent == old(backend.sent) + [sent]
        && store.syncQueue == Api.QueueAfter(old(store.syncQueue), old(store.nextQueueId), backend.respond(sent), online,
                                             LoginRequest(loginUrl, old(email), old(password)), store.isOpen, now)
        && store.nextQueueId == Api.NextAfter(old(store.nextQueueId), backend.respond(sent), online,
                                              LoginRequest(loginUrl, old(email), old(password)), store.isOpen)
        && (HasToken(result) ==>
              outcome == LoggedIn && error == "" && token == result.body.token
              && user == Some(StoredUser(result.body.user)) && redirected)
        && (!HasToken(result) ==>
              outcome == Failed(ErrorMessage(FailureOf(result))) && error == ErrorMessage(FailureOf(result))
              && token == old(token) && user == old(user) && redirected == old(redirected))
    {
      if now - lastSubmit < ThrottleMs {
        error := WaitMessage;
        outcome := Throttled;
        return;
      }
      lastSubmit := now;
      error := "";
      loading := true;
      outcome := Attempt(backend, store, online, now, LoginRequest(loginUrl, email, password));
    }

    /** The `try` block for request `r`: send it, then store the token or classify the failure. */
    method Attempt(backend: Api.Backend, store: OfflineStorage.Store, online: bool, now: int, r: Api.Request)
      returns (outcome: Outcome)
      requires store.Valid()
      modifies this`token, this`user, this`redirected, this`error, this`loading
      modifies backend`sent, store`syncQueue, store`nextQueueId
      ensures store.Valid() && !loading
      ensures var result := Api.Respond(backend.respond(Api.Authorize(r, old(token))), online, r,
                                        store.isOpen, store.products, store.customers);
        && backend.sent == old(backend.sent) + [Api.Authorize(r, old(token))]
        && store.syncQueue == Api.QueueAfter(old(store.syncQueue), old(store.nextQueueId),
                                             backend.respond(Api.Authorize(r, old(token))), online, r, store.isOpen, now)
        && store.nextQueueId == Api.NextAfter(old(store.nextQueueId), backend.respond(Api.Authorize(r, old(token))), online, r, store.isOpen)
        && (HasToken(result) ==>
              outcome == LoggedIn && error == old(error) && token == result.body.token
              && user == Some(StoredUser(result.body.user)) && redirected)
        && (!HasToken(result) ==>
              outcome == Failed(ErrorMessage(FailureOf(result))) && error == ErrorMessage(FailureOf(result))
              && token == old(token) && user == old(user) && redirected == old(redirected))
    {
      var result := Api.Send(backend, store, online, token, now, r);
      if HasToken(result) {
        token := result.body.token;
        user := Some(StoredUser(result.body.user));
        redirected := true;
        outcome := LoggedIn;
      } else {
        error := ErrorMessage(FailureOf(result));
        outcome := Failed(error);
      }
      loading := false;
    }
  }
}
