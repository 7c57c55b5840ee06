/**
 * The HTTP gateway of lib/api.ts: its base URL, the request hook that
 * attaches the bearer credential (section 2.1 of RFC 6750) and the response
 * hook that reacts to 401 Unauthorized (section 15.5.2 of RFC 9110).
 * The network itself is not modelled: each call's outcome is a parameter.
 */
module Api {
  import opened Wrappers
  import opened Auth

  const DefaultApiUrl := "http://localhost:3001/api"
  const AuthorizationHeader := "Authorization"
  const BearerPrefix := "Bearer "
  const Unauthorized := 401
  const LoginPath := "/auth/login"

  /** A failed call: the HTTP status when a response arrived (`None` for a
      network failure) and the `error` text of the response body, if any. */
  datatype ApiError = ApiError(status: Option<int>, serverError: Option<string>)

  predicate IsUnauthorized(e: ApiError) {
    e.status == Some(Unauthorized)
  }

  /** `process.env.NEXT_PUBLIC_API_URL || default`: an unset or empty
      setting falls back to the local default. */
  function ApiUrl(env: Option<string>): (url: string)
    ensures Truthy(env) ==> url == env.value
    ensures !Truthy(env) ==> url == DefaultApiUrl
    ensures url != ""
  {
    if Truthy(env) then env.value else DefaultApiUrl
  }

  /** The headers after the request hook, given the stored token. */
  function WithAuthorization(headers: map<string, string>, token: Option<string>): (r: map<string, string>)
    ensures Truthy(token) ==> AuthorizationHeader in r && r[AuthorizationHeader] == BearerPrefix + token.value
    ensures !Truthy(token) ==> r == headers
    ensures forall k :: k != AuthorizationHeader ==> (k in r <==> k in headers)
    ensures forall k :: k != AuthorizationHeader && k in r ==> r[k] == headers[k]
  {
    if Truthy(token) then headers[AuthorizationHeader := BearerPrefix + token.value] else headers
  }

  /** The value a request carries for header `name`, if any. */
  function HeaderValue(headers: map<string, string>, name: string): (value: Option<string>) {
    if name in headers then Some(headers[name]) else None
  }

  /** What the response hook leaves in storage after `response`. */
  function StorageAfter<T>(items: map<string, string>, response: Result<T, ApiError>): (r: map<string, string>)
    ensures response.Err? && IsUnauthorized(response.error) ==> r == Cleared(items)
    ensures response.Err? && IsUnauthorized(response.error) ==> StoredToken(r) == None && StoredUser(r) == Ok(None)
    ensures !(response.Err? && IsUnauthorized(response.error)) ==> r == items
  {
    if response.Err? && IsUnauthorized(response.error) then Cleared(items) else items
  }

  /** Where the browser is sent after `response`. */
  function HrefAfter<T>(href: string, response: Result<T, ApiError>): (r: string)
    ensures response.Err? && IsUnauthorized(response.error) ==> r == LoginPath
    ensures !(response.Err? && IsUnauthorized(response.error)) ==> r == href
  {
    if response.Err? && IsUnauthorized(response.error) then LoginPath else href
  }

  /** `window.location` (or a router): the navigation target. */
  class Location {
    var href: string

    constructor (href: string)
      ensures this.href == href
    {
      this.href := href;
    }
  }

  /** The configuration object of one outgoing request. */
  class RequestConfig {
    var url: string
    var headers: map<string, string>

    constructor (url: string, headers: map<string, string>)
      ensures this.url == url && this.headers == headers
    {
      this.url := url;
      this.headers := headers;
    }
  }

  /** The configured client: its base URL, the storage its hooks read and
      clear, and the location its 401 hook assigns. */
  class ApiClient {
    const baseUrl: string
    const store: CredentialStore
    const location: Location

    constructor (env: Option<string>, store: CredentialStore, location: Location)
      ensures baseUrl == ApiUrl(env) && this.store == store && this.location == location
    {
      baseUrl := ApiUrl(env);
      this.store := store;
      this.location := location;
    }

    /** The request hook: attaches `Authorization: Bearer <token>` when the
        stored token is truthy and changes nothing else. */
    method InterceptRequest(config: RequestConfig)
      modifies config
      ensures config.url == old(config.url)
      ensures config.headers == WithAuthorization(old(config.headers), StoredToken(store.items))
    {
      var token := store.GetToken();
      if token.Some? && token.value != "" {
        config.headers := config.headers[AuthorizationHeader := BearerPrefix + token.value];
      }
    }

    /** The response hook: a success passes through; every error is passed on
        as a rejection, and a 401 first removes both credential keys and
        sends the browser to the login page. */
    method OnResponse<T>(response: Result<T, ApiError>) returns (r: Result<T, ApiError>)
      modifies store, location
      ensures r == response
      ensures store.items == StorageAfter(old(store.items), response)
      ensures location.href == HrefAfter(old(location.href), response)
    {
      if response.Err? && IsUnauthorized(response.error) {
        store.RemoveItem(TokenKey);
        store.RemoveItem(UserKey);
        location.href := LoginPath;
      }
      r := response;
    }
  }
}
