/** The shared HTTP client's two interceptors (src/lib/axios.ts): the request
    side attaches the stored bearer token; the response side gives every error a
    user-facing message, ends the session on a 401 outside the public pages,
    notes a 429, and always re-rejects. */
module Http {
  import opened Types
  import opened Json
  import opened Platform

  /** A string in a JavaScript truth test: present and non-empty. */
  predicate Truthy(o: Option<string>) {
    o.Some? && o.value != ""
  }

  // ---- request interceptor ----

  /** The `Authorization` header the request interceptor adds, if any. */
  function BearerHeader(storage: map<string, Json>): (r: Option<string>)
    ensures r.Some? <==> StoredToken(storage).Some?
    ensures r.Some? ==> r.value == "Bearer " + StoredToken(storage).value
  {
    match StoredToken(storage)
    case Some(t) => Some("Bearer " + t)
    case None => None
  }

  datatype RequestConfig = RequestConfig(verb: string, path: string, headers: map<string, string>)

  /** The request interceptor: sets `Authorization` exactly when a token is stored
      and leaves everything else about the request as it was. */
  function InterceptRequest(config: RequestConfig, storage: map<string, Json>): (r: RequestConfig)
    ensures r.verb == config.verb && r.path == config.path
    ensures StoredToken(storage).Some? ==>
      r.headers == config.headers["Authorization" := "Bearer " + StoredToken(storage).value]
    ensures StoredToken(storage).None? ==> r.headers == config.headers
  {
    match BearerHeader(storage)
    case Some(h) => config.(headers := config.headers["Authorization" := h])
    case None => config
  }

  // ---- response interceptor ----

  /** The error object axios hands to the response interceptor. */
  datatype AxiosError = AxiosError(
    status: Option<int>,
    dataMessage: Option<string>,
    dataError: Option<string>,
    message: Option<string>,
    userMessage: Option<string>)

  function ErrorOf<T>(o: ApiOutcome<T>): AxiosError
    requires !o.Ok?
  {
    match o
    case HttpErr(status, body, message) =>
      AxiosError(Some(status), body.message, body.error, Some(message), None)
    case NetErr(message) => AxiosError(None, None, None, Some(message), None)
  }

  /** `error.response?.data?.message || fallback`: the text a form toasts when its
      request fails. */
  function MessageOr<T>(o: ApiOutcome<T>, fallback: string): (r: string)
    requires !o.Ok?
    ensures fallback != "" ==> r != ""
    ensures o.HttpErr? && Truthy(o.body.message) ==> r == o.body.message.value
    ensures !(o.HttpErr? && Truthy(o.body.message)) ==> r == fallback
  {
    if o.HttpErr? && Truthy(o.body.message) then o.body.message.value else fallback
  }

  const DefaultErrorMessage: string := "An unexpected error occurred"

  /** The first truthy of `data.message`, `data.error`, `error.message`, else the default. */
  function UserMessage(e: AxiosError): (r: string)
    ensures r != ""
    ensures Truthy(e.dataMessage) ==> r == e.dataMessage.value
    ensures !Truthy(e.dataMessage) && Truthy(e.dataError) ==> r == e.dataError.value
    ensures !Truthy(e.dataMessage) && !Truthy(e.dataError) && Truthy(e.message) ==> r == e.message.value
    ensures !Truthy(e.dataMessage) && !Truthy(e.dataError) && !Truthy(e.message) ==> r == DefaultErrorMessage
  {
    if Truthy(e.dataMessage) then e.dataMessage.value
    else if Truthy(e.dataError) then e.dataError.value
    else if Truthy(e.message) then e.message.value
    else DefaultErrorMessage
  }

  const PublicPaths: seq<string> := ["/login", "/register", "/"]

  const SessionExpiredHref: string := "/login?message=Session expired. Please login again."

  const RateLimitWarning: string := "Rate limited. Please slow down."

  /** A 401 ends the session only away from the public pages. */
  predicate EndsSession(status: Option<int>, pathname: string) {
    status == Some(401) && pathname !in PublicPaths
  }

  /** Storage after the response interceptor has seen an error. */
  function StorageAfterError(storage: map<string, Json>, status: Option<int>, pathname: string): (st: map<string, Json>)
    ensures EndsSession(status, pathname) ==> TokenKey !in st && UserKey !in st
    ensures CartKey in storage ==> CartKey in st && st[CartKey] == storage[CartKey]
  {
    if EndsSession(status, pathname) then storage - {TokenKey, UserKey} else storage
  }

  /** Effects logged by the response interceptor. */
  function ErrorEvents(status: Option<int>, pathname: string): (ev: seq<Event>)
    ensures |ev| <= 2
    ensures ev == [] <==> !EndsSession(status, pathname) && status != Some(429)
  {
    (if EndsSession(status, pathname) then [SetLocation(SessionExpiredHref)] else [])
    + (if status == Some(429) then [Console(RateLimitWarning)] else [])
  }

  /** The response interceptor's error handler; the result is the object re-rejected. */
  method OnResponseError(b: Browser, e: AxiosError) returns (rejected: AxiosError)
    modifies b
    ensures rejected == e.(userMessage := Some(UserMessage(e)))
    ensures b.storage == StorageAfterError(old(b.storage), e.status, old(b.pathname))
    ensures b.events == old(b.events) + ErrorEvents(e.status, old(b.pathname))
    ensures b.pathname == old(b.pathname)
  {
    rejected := e.(userMessage := Some(UserMessage(e)));
    if e.status == Some(401) {
      var isPublicPath := b.pathname in PublicPaths;
      if !isPublicPath {
        b.RemoveItem(TokenKey);
        b.RemoveItem(UserKey);
        b.Emit(SetLocation(SessionExpiredHref));
      }
    }
    if e.status == Some(429) {
      b.Emit(Console(RateLimitWarning));
    }
  }

  /** Storage once a call's outcome has passed the response interceptor. */
  function SettledStorage<T>(storage: map<string, Json>, pathname: string, outcome: ApiOutcome<T>): map<string, Json> {
    if outcome.Ok? then storage else StorageAfterError(storage, ErrorOf(outcome).status, pathname)
  }

  /** Effects the response interceptor logs for a call's outcome. */
  function SettledEvents<T>(pathname: string, outcome: ApiOutcome<T>): seq<Event> {
    if outcome.Ok? then [] else ErrorEvents(ErrorOf(outcome).status, pathname)
  }

  /** Issuing a request: the request interceptor reads the token at this moment. */
  method Send(b: Browser, verb: string, path: string)
    modifies b
    ensures b.events == old(b.events) + [Request(verb, path, BearerHeader(old(b.storage)))]
    ensures b.storage == old(b.storage) && b.pathname == old(b.pathname)
  {
    b.Emit(Request(verb, path, BearerHeader(b.storage)));
  }

  /** A response arriving: a success passes through untouched, a failure goes
      through the error handler before the caller sees it. */
  method Settle<T>(b: Browser, outcome: ApiOutcome<T>)
    modifies b
    ensures b.storage == SettledStorage(old(b.storage), old(b.pathname), outcome)
    ensures b.events == old(b.events) + SettledEvents(old(b.pathname), outcome)
    ensures b.pathname == old(b.pathname)
  {
    if !outcome.Ok? {
      var _ := OnResponseError(b, ErrorOf(outcome));
    }
  }

  /** One awaited API call through both interceptors. */
  method Call<T>(b: Browser, verb: string, path: string, outcome: ApiOutcome<T>)
    modifies b
    ensures outcome.Ok? ==> b.storage == old(b.storage)
    ensures !outcome.Ok? ==>
      b.storage == StorageAfterError(old(b.storage), ErrorOf(outcome).status, old(b.pathname))
    ensures b.events == old(b.events) + [Request(verb, path, BearerHeader(old(b.storage)))]
      + (if outcome.Ok? then [] else ErrorEvents(ErrorOf(outcome).status, old(b.pathname)))
    ensures b.pathname == old(b.pathname)
  {
    Send(b, verb, path);
    Settle(b, outcome);
  }

  // ---- what the interceptor promises ----

  /** A 401 away from the public pages removes both session keys and nothing else. */
  lemma UnauthorizedEndsSession(storage: map<string, Json>, pathname: string)
    requires pathname !in PublicPaths
    ensures StorageAfterError(storage, Some(401), pathname) == storage - {TokenKey, UserKey}
    ensures TokenKey !in StorageAfterError(storage, Some(401), pathname)
    ensures UserKey !in StorageAfterError(storage, Some(401), pathname)
    ensures ErrorEvents(Some(401), pathname) == [SetLocation(SessionExpiredHref)]
  {
  }

  /** On a public page a 401 changes neither storage nor location. */
  lemma UnauthorizedOnPublicPage(storage: map<string, Json>, pathname: string)
    requires pathname == "/login" || pathname == "/register" || pathname == "/"
    ensures StorageAfterError(storage, Some(401), pathname) == storage
    ensures ErrorEvents(Some(401), pathname) == []
  {
  }

  /** Any other status, 403 and 429 included, changes no storage and sets no location;
      a 429 only writes a console warning. */
  lemma OtherStatusesKeepSession(storage: map<string, Json>, status: Option<int>, pathname: string)
    requires status != Some(401)
    ensures StorageAfterError(storage, status, pathname) == storage
    ensures ErrorEvents(status, pathname) == (if status == Some(429) then [Console(RateLimitWarning)] else [])
  {
  }

  /** The interceptor never touches the stored cart. */
  lemma CartUntouched(storage: map<string, Json>, status: Option<int>, pathname: string)
    ensures CartKey in StorageAfterError(storage, status, pathname) <==> CartKey in storage
    ensures CartKey in storage ==> StorageAfterError(storage, status, pathname)[CartKey] == storage[CartKey]
  {
  }

  /** After the session keys are gone, no request carries a bearer token. */
  lemma NoStaleToken(storage: map<string, Json>, pathname: string)
    requires pathname !in PublicPaths
    ensures BearerHeader(StorageAfterError(storage, Some(401), pathname)).None?
  {
  }
}
