/** `api.ts`: response validation, the error-to-message table, the retry
    rule of the response interceptor with its exponential backoff, and the
    two fetch services with their cache-or-throw fallback. The HTTP exchange
    is a parameter: each attempt's reply comes from an oracle, the clock is a
    number and the date formatter of `formatLastUpdate` is a function value. */
module Api {
  import opened Wrappers
  import opened Strings
  import opened ClientTypes
  import opened Storage

  const MaxRetries: nat := 3
  const RetryDelay: nat := 2000

  function Pow2(n: nat): (p: nat)
    ensures p >= 1
  {
    if n == 0 then 1 else 2 * Pow2(n - 1)
  }

  lemma {:induction false} Pow2Monotone(i: nat, j: nat)
    requires i <= j
    ensures Pow2(i) <= Pow2(j)
    decreases j
  {
    if i < j {
      Pow2Monotone(i, j - 1);
    }
  }

  // ---------------------------------------------------------------- errors

  /** A thrown error: one raised by axios (`code` is its error code, `status`
      the response status, `None` when no response arrived), or any other. */
  datatype Failure =
    | AxiosFailure(code: Option<string>, status: Option<int>)
    | PlainFailure(message: string)

  const CachedConnection: string := "Showing locally stored data due to connection issues."
  const CachedServer: string := "Showing locally stored data due to server issues."
  const NoConnection: string := "No server connection."
  const CachedNotFound: string := "Client not found in locally stored data."
  const NotFound: string := "No records found for this client."
  const NoPermission: string := "You do not have permission to access this information."
  const ServerError: string := "Server error. Please try again in a few minutes."
  const RetrievalError: string := "Error retrieving data. Please try again."
  const UnknownError: string := "Unknown error. Please try again."
  const InvalidClient: string := "Please select a valid client."

  /** A message that tells the user local data is being shown. */
  predicate ClaimsCachedData(message: string) {
    message == CachedConnection || message == CachedServer || message == CachedNotFound
  }

  predicate IsConnectionFailure(e: Failure) {
    e.AxiosFailure? && (e.code == Some("ECONNABORTED") || e.status.None?)
  }

  /** `getErrorMessage`. */
  function ErrorMessage(e: Failure, useCache: bool): (m: string)
    ensures IsConnectionFailure(e) ==> m == (if useCache then CachedConnection else NoConnection)
    ensures e.AxiosFailure? && !IsConnectionFailure(e) && e.status.value in {401, 403} ==> m == NoPermission
    ensures e.AxiosFailure? && !IsConnectionFailure(e) && e.status.value == 404 ==>
      m == (if useCache then CachedNotFound else NotFound)
    ensures e.AxiosFailure? && !IsConnectionFailure(e) && e.status.value == 500 ==>
      m == (if useCache then CachedServer else ServerError)
    ensures e.AxiosFailure? && !IsConnectionFailure(e) && e.status.value !in {401, 403, 404, 500} ==>
      m == (if useCache then CachedConnection else RetrievalError)
    ensures e.PlainFailure? ==> m == (if useCache then CachedConnection else UnknownError)
  {
    match e
    case PlainFailure(_) => if useCache then CachedConnection else UnknownError
    case AxiosFailure(code, status) =>
      if code == Some("ECONNABORTED") || status.None? then
        if useCache then CachedConnection else NoConnection
      else if status.value == 404 then
        if useCache then CachedNotFound else NotFound
      else if status.value == 403 || status.value == 401 then
        NoPermission
      else if status.value == 500 then
        if useCache then CachedServer else ServerError
      else if useCache then CachedConnection else RetrievalError
  }

  /** The cache flag selects between two messages except for a permission
      failure, whose message is the same either way; with the flag off no
      message ever claims local data is shown. */
  lemma ErrorMessageCacheFlag(e: Failure)
    ensures ErrorMessage(e, true) == ErrorMessage(e, false)
      <==> e.AxiosFailure? && !IsConnectionFailure(e) && e.status.value in {401, 403}
    ensures !ClaimsCachedData(ErrorMessage(e, false))
  {
  }

  // ------------------------------------------------------------ validation

  /** `validateResponse` on a list payload; `None` is a falsy body. */
  function ValidateResponse<T>(body: Option<seq<T>>, endpoint: string): (r: Result<seq<T>>)
    ensures r.Ok? <==> body.Some? && body.value != []
    ensures r.Ok? ==> r.value == body.value
    ensures body.None? ==> r.message == "Empty response from server (" + endpoint + ")"
    ensures body == Some([]) ==> r.message == "No records found."
  {
    match body
    case None => Err("Empty response from server (" + endpoint + ")")
    case Some(items) => if items == [] then Err("No records found.") else Ok(items)
  }

  // ---------------------------------------------------------------- retries

  /** What one HTTP attempt gives: a body, or an axios failure. */
  datatype Reply<T> = Replied(body: Option<seq<T>>) | NetFailed(code: Option<string>, status: Option<int>)

  /** The interceptor's retry test on an axios failure. */
  predicate IsTransient(code: Option<string>, status: Option<int>) {
    code == Some("ECONNABORTED") || code == Some("ETIMEDOUT") || code == Some("ECONNRESET")
    || status.None? || status.value >= 500
  }

  predicate ShouldRetry(code: Option<string>, status: Option<int>, retryCount: nat) {
    IsTransient(code, status) && retryCount < MaxRetries
  }

  /** The wait before retry number `n` (1 to 3), without its random jitter,
      which adds a further amount in [0, 1000) ms. */
  function Backoff(n: nat): (d: nat)
    requires 1 <= n <= MaxRetries
    ensures d == 2000 || d == 4000 || d == 8000
    ensures n > 1 ==> d == 2 * Backoff(n - 1)
  {
    RetryDelay * Pow2(n - 1)
  }

  /** The sum of the waits before the first `n` retries. */
  function TotalBackoff(n: nat): nat
    requires n <= MaxRetries
  {
    if n == 0 then 0 else TotalBackoff(n - 1) + Backoff(n)
  }

  datatype Settled<T> = Settled(reply: Reply<T>, retries: nat)

  /** A request through the interceptor, starting at `retryCount`: attempt
      number `i` gives `attempt(i)`, and a failure is retried while the rule
      allows. */
  function Send<T>(attempt: nat -> Reply<T>, retryCount: nat): (r: Settled<T>)
    requires retryCount <= MaxRetries
    ensures retryCount <= r.retries <= MaxRetries
    ensures r.reply == attempt(r.retries)
    ensures r.reply.NetFailed? ==> !ShouldRetry(r.reply.code, r.reply.status, r.retries)
    ensures forall i :: retryCount <= i < r.retries ==>
      attempt(i).NetFailed? && IsTransient(attempt(i).code, attempt(i).status)
    decreases MaxRetries - retryCount
  {
    match attempt(retryCount)
    case Replied(body) => Settled(Replied(body), retryCount)
    case NetFailed(code, status) =>
      if ShouldRetry(code, status, retryCount) then Send(attempt, retryCount + 1)
      else Settled(NetFailed(code, status), retryCount)
  }

  /** A request makes at most four attempts, the first reply or permanent
      failure ends it, and the waits add up to at most 14 seconds plus jitter. */
  lemma {:induction false} SendBounds<T>(attempt: nat -> Reply<T>)
    ensures Send(attempt, 0).retries <= 3
    ensures attempt(0).Replied? ==> Send(attempt, 0) == Settled(attempt(0), 0)
    ensures TotalBackoff(Send(attempt, 0).retries) <= 14000
  {
    var n := Send(attempt, 0).retries;
    assert TotalBackoff(1) == 2000 && TotalBackoff(2) == 6000 && TotalBackoff(3) == 14000;
    assert n == 0 || n == 1 || n == 2 || n == 3;
  }

  /** A failure that is never transient is not retried. */
  lemma PermanentFailureNotRetried<T>(attempt: nat -> Reply<T>, status: int)
    requires 0 <= status < 500
    requires attempt(0) == NetFailed(None, Some(status))
    ensures Send(attempt, 0) == Settled(NetFailed(None, Some(status)), 0)
  {
  }

  // ------------------------------------------------------------ fetching

  datatype Fetch<T> = Fetch(result: Result<ApiResponse<seq<T>>>, store: Store)

  /** The message `JSON.parse` throws on a corrupt cache entry; its wording
      belongs to the JavaScript engine and is kept abstract. */
  const CorruptCacheMessage: string := "SyntaxError: JSON.parse"

  /** The catch block common to both services: a fresh cached entry is
      served; otherwise the error is rethrown as a message whose cache
      variant is chosen by whether any entry exists, fresh or stale. */
  function Fallback<T>(cached: CacheRead<seq<T>>, e: Failure, now: int, formatLastUpdate: int -> string, store: Store): (r: Fetch<T>)
    ensures r.store == store
    ensures r.result.Ok? <==> cached.Entry? && IsCacheValid(now, cached.timestamp)
    ensures r.result.Ok? ==>
      r.result.value == ApiResponse(cached.data, true, Some(formatLastUpdate(cached.timestamp)))
    ensures cached.Unreadable? ==> r.result == Err(CorruptCacheMessage)
    ensures cached.Absent? ==> r.result == Err(ErrorMessage(e, false))
    ensures cached.Entry? && !IsCacheValid(now, cached.timestamp) ==> r.result == Err(ErrorMessage(e, true))
  {
    match cached
    case Unreadable => Fetch(Err(CorruptCacheMessage), store)
    case Absent => Fetch(Err(ErrorMessage(e, false)), store)
    case Entry(data, timestamp) =>
      if IsCacheValid(now, timestamp) then
        Fetch(Ok(ApiResponse(data, true, Some(formatLastUpdate(timestamp)))), store)
      else Fetch(Err(ErrorMessage(e, true)), store)
  }

  /** A reply the try block accepts: a body that `validateResponse` passes. */
  predicate Usable<T>(reply: Reply<T>) {
    reply.Replied? && reply.body.Some? && reply.body.value != []
  }

  /** The error the catch block receives for any other reply: the axios
      failure, or the plain error `validateResponse` throws. */
  function FailureOf<T>(reply: Reply<T>, endpoint: string): (e: Failure)
    requires !Usable(reply)
    ensures e.PlainFailure? <==> reply.Replied?
  {
    match reply
    case NetFailed(code, status) => AxiosFailure(code, status)
    case Replied(body) => PlainFailure(ValidateResponse(body, endpoint).message)
  }

  /** The error `localStorage.setItem` throws when the origin's storage is
      full. It is not an axios error, so it reaches the catch block like any
      other plain error. */
  const QuotaExceeded: Failure := PlainFailure("QuotaExceededError")

  /** `fetchClientes`: `reply` is the settled reply of `GET /Consulta`, and
      `fits` says whether the browser's storage accepts the cache write. The
      save sits inside the try block, so a write that throws discards the
      reply and runs the catch block, leaving the store as it was. */
  function FetchClientes(store: Store, reply: Reply<ApiCliente>, fits: bool, now: int, formatLastUpdate: int -> string)
    : (r: Fetch<ApiCliente>)
    ensures Usable(reply) && fits ==>
      r == Fetch(Ok(ApiResponse(reply.body.value, false, None)), SaveClientes(store, reply.body.value, now))
    ensures Usable(reply) && !fits ==>
      r == Fallback(GetClientes(store), QuotaExceeded, now, formatLastUpdate, store)
    ensures !Usable(reply) ==>
      r == Fallback(GetClientes(store), FailureOf(reply, "/Consulta"), now, formatLastUpdate, store)
  {
    if !Usable(reply) then
      Fallback(GetClientes(store), FailureOf(reply, "/Consulta"), now, formatLastUpdate, store)
    else if !fits then
      Fallback(GetClientes(store), QuotaExceeded, now, formatLastUpdate, store)
    else
      Fetch(Ok(ApiResponse(reply.body.value, false, None)), SaveClientes(store, reply.body.value, now))
  }

  /** `fetchClientData`: `server` gives the settled reply of
      `GET /movimientos` for the id sent, and `fits` whether the cache write
      is accepted, as for the directory. A blank id fails before any request;
      the request carries the trimmed id, the cache the id as given. */
  function FetchClientData(store: Store, clienteId: string, server: string -> Reply<ApiMovement>, fits: bool, now: int,
                           formatLastUpdate: int -> string): (r: Fetch<ApiMovement>)
    ensures Trim(clienteId) == "" ==> r == Fetch(Err(InvalidClient), store)
    ensures Trim(clienteId) != "" && Usable(server(Trim(clienteId))) && fits ==>
      var data := server(Trim(clienteId)).body.value;
      r == Fetch(Ok(ApiResponse(data, false, None)), SaveMovimientos(store, clienteId, data, now))
    ensures Trim(clienteId) != "" && Usable(server(Trim(clienteId))) && !fits ==>
      r == Fallback(GetMovimientos(store, clienteId), QuotaExceeded, now, formatLastUpdate, store)
    ensures Trim(clienteId) != "" && !Usable(server(Trim(clienteId))) ==>
      r == Fallback(GetMovimientos(store, clienteId), FailureOf(server(Trim(clienteId)), "/movimientos"),
                    now, formatLastUpdate, store)
  {
    if Trim(clienteId) == "" then Fetch(Err(InvalidClient), store)
    else
      var reply := server(Trim(clienteId));
      if !Usable(reply) then
        Fallback(GetMovimientos(store, clienteId), FailureOf(reply, "/movimientos"), now, formatLastUpdate, store)
      else if !fits then
        Fallback(GetMovimientos(store, clienteId), QuotaExceeded, now, formatLastUpdate, store)
      else
        Fetch(Ok(ApiResponse(reply.body.value, false, None)), SaveMovimientos(store, clienteId, reply.body.value, now))
  }

  /** A full storage turns a good reply into a failure or into older data:
      the store is untouched, nothing fresh is returned, and the message is
      the one for an unknown error, in its cache variant when any entry
      exists. Data is served only from a fresh cache entry. */
  lemma QuotaDiscardsReply(store: Store, clienteId: string, server: string -> Reply<ApiMovement>, now: int,
                           formatLastUpdate: int -> string)
    requires Trim(clienteId) != "" && Usable(server(Trim(clienteId)))
    ensures var r := FetchClientData(store, clienteId, server, false, now, formatLastUpdate);
      && r.store == store
      && (r.result.Ok? <==> GetMovimientos(store, clienteId).Entry? && IsCacheValid(now, GetMovimientos(store, clienteId).timestamp))
      && (r.result.Ok? ==> r.result.value.fromCache)
      && (GetMovimientos(store, clienteId).Absent? ==> r.result == Err(UnknownError))
      && (GetMovimientos(store, clienteId).Entry? && !IsCacheValid(now, GetMovimientos(store, clienteId).timestamp) ==>
            r.result == Err(CachedConnection))
  {
  }

  /** The request is made with the trimmed id: two ids that trim alike get
      the same answer from the server, but their caches live under the
      untrimmed ids. */
  lemma TrimmedRequestRawCache(store: Store, a: string, b: string, server: string -> Reply<ApiMovement>, fits: bool, now: int,
                               formatLastUpdate: int -> string)
    requires Trim(a) == Trim(b) != "" && a != b
    requires server(Trim(a)).Replied? && server(Trim(a)).body.Some? && server(Trim(a)).body.value != []
    requires fits
    ensures FetchClientData(store, a, server, fits, now, formatLastUpdate).result
         == FetchClientData(store, b, server, fits, now, formatLastUpdate).result
    ensures GetMovimientos(FetchClientData(store, a, server, fits, now, formatLastUpdate).store, b) == GetMovimientos(store, b)
  {
    SaveMovimientosIsolated(store, a, b, server(Trim(a)).body.value, now);
  }

  /** A successful fetch is what a later failed fetch within a day serves,
      flagged as cached. */
  lemma FetchThenFallback(store: Store, clienteId: string, server: string -> Reply<ApiMovement>, offline: string -> Reply<ApiMovement>,
                          fits: bool, now: int, later: int, formatLastUpdate: int -> string)
    requires Trim(clienteId) != ""
    requires server(Trim(clienteId)).Replied? && server(Trim(clienteId)).body.Some? && server(Trim(clienteId)).body.value != []
    requires offline(Trim(clienteId)).NetFailed?
    requires now <= later < now + CacheDuration
    ensures var first := FetchClientData(store, clienteId, server, true, now, formatLastUpdate);
      FetchClientData(first.store, clienteId, offline, fits, later, formatLastUpdate).result
        == Ok(ApiResponse(server(Trim(clienteId)).body.value, true, Some(formatLastUpdate(now))))
  {
  }

  // ---------------------------------------------------- stale-cache finding

  /** A stale entry and a timed-out request: the service fails, yet its
      message says locally stored data is being shown. */
  lemma StaleCacheClaimsCachedData(store: Store, clienteId: string, server: string -> Reply<ApiMovement>, fits: bool, now: int,
                                   formatLastUpdate: int -> string)
    requires Trim(clienteId) != ""
    requires server(Trim(clienteId)) == NetFailed(Some("ECONNABORTED"), None)
    requires GetMovimientos(store, clienteId).Entry? && !IsCacheValid(now, GetMovimientos(store, clienteId).timestamp)
    ensures FetchClientData(store, clienteId, server, fits, now, formatLastUpdate).result == Err(CachedConnection)
    ensures ClaimsCachedData(CachedConnection)
  {
  }

  /** The catch block with the message chosen by whether cached data is
      actually being served, which at the throw is never the case. */
  function FallbackCorrected<T>(cached: CacheRead<seq<T>>, e: Failure, now: int, formatLastUpdate: int -> string, store: Store): (r: Fetch<T>)
    ensures r.store == store
    ensures r.result.Ok? <==> cached.Entry? && IsCacheValid(now, cached.timestamp)
    ensures r.result.Ok? ==>
      r.result.value == ApiResponse(cached.data, true, Some(formatLastUpdate(cached.timestamp)))
    ensures r.result.Err? && !cached.Unreadable? ==> !ClaimsCachedData(r.result.message)
    ensures r.result.Err? && !cached.Unreadable? ==> r.result.message == ErrorMessage(e, false)
  {
    ErrorMessageCacheFlag(e);
    match cached
    case Unreadable => Fetch(Err(CorruptCacheMessage), store)
    case Absent => Fetch(Err(ErrorMessage(e, false)), store)
    case Entry(data, timestamp) =>
      if IsCacheValid(now, timestamp) then
        Fetch(Ok(ApiResponse(data, true, Some(formatLastUpdate(timestamp)))), store)
      else Fetch(Err(ErrorMessage(e, false)), store)
  }

  /** `fetchClientData` with the corrected catch block. */
  function FetchClientDataCorrected(store: Store, clienteId: string, server: string -> Reply<ApiMovement>, fits: bool, now: int,
                                    formatLastUpdate: int -> string): (r: Fetch<ApiMovement>)
    ensures r.result.Err? && r.result.message != CorruptCacheMessage ==> !ClaimsCachedData(r.result.message)
    ensures r.result.Ok? && r.result.value.fromCache ==>
      GetMovimientos(store, clienteId).Entry? && IsCacheValid(now, GetMovimientos(store, clienteId).timestamp)
    ensures r.result.Ok? ==> r == FetchClientData(store, clienteId, server, fits, now, formatLastUpdate)
    ensures FetchClientData(store, clienteId, server, fits, now, formatLastUpdate).result.Ok? ==>
      r == FetchClientData(store, clienteId, server, fits, now, formatLastUpdate)
  {
    if Trim(clienteId) == "" then Fetch(Err(InvalidClient), store)
    else
      var reply := server(Trim(clienteId));
      if !Usable(reply) then
        FallbackCorrected(GetMovimientos(store, clienteId), FailureOf(reply, "/movimientos"), now, formatLastUpdate, store)
      else if !fits then
        FallbackCorrected(GetMovimientos(store, clienteId), QuotaExceeded, now, formatLastUpdate, store)
      else
        Fetch(Ok(ApiResponse(reply.body.value, false, None)), SaveMovimientos(store, clienteId, reply.body.value, now))
  }

  /** With the correction, the same stale entry yields the plain connection message. */
  lemma StaleCacheCorrected(store: Store, clienteId: string, server: string -> Reply<ApiMovement>, fits: bool, now: int,
                            formatLastUpdate: int -> string)
    requires Trim(clienteId) != ""
    requires server(Trim(clienteId)) == NetFailed(Some("ECONNABORTED"), None)
    requires GetMovimientos(store, clienteId).Entry? && !IsCacheValid(now, GetMovimientos(store, clienteId).timestamp)
    ensures FetchClientDataCorrected(store, clienteId, server, fits, now, formatLastUpdate).result == Err(NoConnection)
  {
  }
}
