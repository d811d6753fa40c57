/** The authenticated transport of `src/api/axios.js`: the request stage that
    attaches the bearer token and the response stage that tears the stored
    session down on a 401 and sends the user to the login page. */
module Transport {
  import opened Js
  import opened Http
  import opened BrowserStorage
  import opened Routes

  type Headers = map<string, string>

  const AuthorizationHeader: string := "Authorization"

  /** The headers a request leaves with: `Authorization: Bearer <token>` when a
      non-empty token is stored, and nothing else touched. */
  function WithBearer(headers: Headers, items: Items): (r: Headers)
    ensures HasToken(items) ==> AuthorizationHeader in r && r[AuthorizationHeader] == "Bearer " + items[TokenKey]
    ensures !HasToken(items) ==> r == headers
    ensures forall k :: k != AuthorizationHeader ==> (k in r <==> k in headers)
    ensures forall k :: k != AuthorizationHeader && k in headers ==> r[k] == headers[k]
  {
    var token := Lookup(items, TokenKey);
    if Truthy(token) then headers[AuthorizationHeader := "Bearer " + token.value] else headers
  }

  /** The request config the interceptor receives, updates in place and returns. */
  class RequestConfig {
    var headers: Headers

    constructor (headers: Headers)
      ensures this.headers == headers
    {
      this.headers := headers;
    }
  }

  /** The axios instance with its interceptors. The response stage is only in
      place once `UseRouter` (`setupAxiosInterceptors`) has run; before that a
      response or error passes through untouched. */
  class ApiClient {
    const storage: LocalStorage
    var router: Router?

    constructor (storage: LocalStorage)
      ensures this.storage == storage && router == null
    {
      this.storage := storage;
      router := null;
    }

    /** `setupAxiosInterceptors(router)`. */
    method UseRouter(router: Router)
      modifies this
      ensures this.router == router
    {
      this.router := router;
    }

    /** The request interceptor: reads the token from storage and writes the header in place. */
    method OnRequest(config: RequestConfig) returns (r: RequestConfig)
      modifies config
      ensures r == config
      ensures config.headers == WithBearer(old(config.headers), storage.items)
    {
      var token := storage.GetItem(TokenKey);
      if Truthy(token) {
        config.headers := config.headers[AuthorizationHeader := "Bearer " + token.value];
      }
      r := config;
    }

    /** The request interceptor's error handler: the error is rejected as it is. */
    method OnRequestError<T>(e: HttpError) returns (r: Outcome<T>)
      ensures r == Err(e)
    {
      r := Err(e);
    }

    /** The response interceptor: an answer passes through unchanged; a 401
        removes the stored session and pushes the login route with the current
        path as `redirect`; every error is still rejected as it came. */
    method OnResponse<T>(result: Outcome<T>) returns (r: Outcome<T>)
      modifies storage, router
      ensures r == result
      ensures router != null && result.Err? && IsUnauthorized(result.error) ==>
        && storage.items == ClearSession(old(storage.items))
        && router.pushed == old(router.pushed) + [Location(Login, Some(old(router.currentFullPath)))]
      ensures !(router != null && result.Err? && IsUnauthorized(result.error)) ==>
        && storage.items == old(storage.items)
        && (router != null ==> router.pushed == old(router.pushed))
      ensures router != null ==> router.currentFullPath == old(router.currentFullPath)
    {
      if router != null && result.Err? && IsUnauthorized(result.error) {
        storage.RemoveItem(TokenKey);
        storage.RemoveItem(UserKey);
        router.Push(Location(Login, Some(router.currentFullPath)));
      }
      r := result;
    }
  }
}
