/** The shared HTTP client of infra/http.ts and its two interceptors. The
    network itself is a parameter: `reply` is what the backend (or the
    network layer, for a timeout) produced for the request. */
module Http {
  import opened Common
  import opened AuthToken

  /** `API_CONFIG.BASE_URL` and `API_CONFIG.TIMEOUT` (constants/api.ts). */
  const BaseUrl: string := "http://192.168.1.100:3000/api"
  const TimeoutMs: nat := 30000

  /** The configuration `axios.create` receives: one base address, one
      timeout for every request, and the default JSON content type. */
  datatype ClientConfig = ClientConfig(baseUrl: string, timeout: nat, headers: map<string, string>)

  const Api: ClientConfig :=
    ClientConfig(BaseUrl, TimeoutMs, map["Content-Type" := "application/json"])

  const AuthorizationHeader: string := "Authorization"

  function BearerOf(token: string): string
  {
    "Bearer " + token
  }

  /** A rejected call as the caller sees it: a message and, when the server
      answered, `error.response.status`. */
  datatype ApiError = ApiError(message: string, status: Option<int>)

  /** `new Error("SESSION_EXPIRED")`: no `response` field. */
  const SessionExpired: ApiError := ApiError("SESSION_EXPIRED", None)

  /** The error a throwing token-store call rejects with; what matters is
      that it carries no HTTP response. */
  const StorageFailureError: ApiError := ApiError(StorageFailureMessage, None)

  /** The request config axios hands to the interceptor, updated in place. */
  class RequestConfig {
    var url: string
    var headers: Option<map<string, string>>
    var body: map<string, string>

    constructor (url: string, headers: Option<map<string, string>>, body: map<string, string>)
      ensures this.url == url && this.headers == headers && this.body == body
    {
      this.url := url;
      this.headers := headers;
      this.body := body;
    }
  }

  /** The request interceptor: reads the stored token and, when it is truthy
      and the config has headers, sets `Authorization: Bearer <token>`. */
  method AttachToken(store: TokenStorage, config: RequestConfig, fails: set<StorageCall>)
    returns (r: RequestConfig)
    modifies config
    ensures r == config
    ensures config.url == old(config.url) && config.body == old(config.body)
    ensures Truthy(store.Read(fails)) && old(config.headers).Some? ==>
              config.headers == Some(old(config.headers).value[AuthorizationHeader := BearerOf(store.Read(fails).value)])
    ensures !Truthy(store.Read(fails)) || old(config.headers).None? ==> config.headers == old(config.headers)
    ensures config.headers.Some? <==> old(config.headers).Some?
    ensures config.headers.Some? ==>
              forall h :: h != AuthorizationHeader ==>
                (h in config.headers.value <==> h in old(config.headers).value) &&
                (h in config.headers.value ==> config.headers.value[h] == old(config.headers).value[h])
  {
    var token := store.Get(fails);
    if Truthy(token) && config.headers.Some? {
      config.headers := Some(config.headers.value[AuthorizationHeader := BearerOf(token.value)]);
    }
    return config;
  }

  /** The response interceptor: a success passes unchanged; an error whose
      response has status 401 first removes the stored token and then
      rejects with `SESSION_EXPIRED` (or with the store's own error when the
      removal itself rejects); every other error passes unchanged. */
  method ScreenResponse<T>(store: TokenStorage, reply: Result<T, ApiError>, fails: set<StorageCall>)
    returns (r: Result<T, ApiError>)
    modifies store
    ensures reply.Ok? ==> r == reply && unchanged(store)
    ensures reply.Err? && reply.error.status != Some(401) ==> r == reply && unchanged(store)
    ensures reply.Err? && reply.error.status == Some(401) ==>
              store.Removed(fails) &&
              r == Err(if RemoveOutcome(store.web, fails).Pass? then SessionExpired else StorageFailureError)
    ensures r.Err? ==> r.error.status != Some(401)
  {
    if reply.Err? && reply.error.status == Some(401) {
      var removed := store.Remove(fails);
      if removed.Fail? {
        return Err(StorageFailureError);
      }
      return Err(SessionExpired);
    }
    return reply;
  }

  /** One call through the client: request interceptor, network, response
      interceptor. The request carries the bearer header of the token stored
      when it was sent. */
  method Send<T>(store: TokenStorage, config: RequestConfig, reply: Result<T, ApiError>, fails: set<StorageCall>)
    returns (r: Result<T, ApiError>)
    modifies store, config
    ensures reply.Ok? ==> r == reply
    ensures reply.Err? && reply.error.status != Some(401) ==> r == reply
    ensures reply.Err? && reply.error.status == Some(401) ==>
              store.Removed(fails) &&
              r == Err(if RemoveOutcome(store.web, fails).Pass? then SessionExpired else StorageFailureError)
    ensures (reply.Err? && reply.error.status == Some(401) && RemoveOutcome(store.web, fails).Pass? &&
             (store.web || SecureDelete !in fails)) ==> store.Current() == None
    ensures (reply.Ok? || reply.error.status != Some(401)) ==>
              store.secure == old(store.secure) && store.plain == old(store.plain)
    ensures config.url == old(config.url) && config.body == old(config.body)
    ensures Truthy(old(store.Read(fails))) && old(config.headers).Some? ==>
              config.headers == Some(old(config.headers).value[AuthorizationHeader := BearerOf(old(store.Read(fails)).value)])
    ensures !Truthy(old(store.Read(fails))) || old(config.headers).None? ==> config.headers == old(config.headers)
  {
    var _ := AttachToken(store, config, fails);
    r := ScreenResponse(store, reply, fails);
  }
}
