/** `AuthService.login` of services/authService.ts: posts the credentials
    through the shared client and maps the outcome to the response data or
    to one of two error messages. */
module AuthService {
  import opened Common
  import opened AuthToken
  import opened Http

  datatype User = User(id: string, email: string, name: string)

  /** The body of a successful login reply. */
  datatype LoginResponse = LoginResponse(token: string, user: User)

  /** The invalid-credentials message exactly as the source spells it: its
      "á" was saved through a wrong encoding and reads "√°". */
  const InvalidCredentials: string := "Credenciais inv\U{221A}\U{00B0}lidas"
  const LoginFailed: string := "Erro ao realizar login"

  /** `ENDPOINTS.LOGIN`, which constants/api.ts does not define: the post goes
      to the base address itself. */
  const LoginPath: string := ""

  /** The mapping `login` applies, as written: the data on success; the
      invalid-credentials message for an error whose response has status
      401; the generic message for every other error. */
  function LoginResult(call: Result<LoginResponse, ApiError>): (r: Result<LoginResponse, string>)
    ensures call.Ok? ==> r == Ok(call.value)
    ensures call.Err? ==> r.Err? && (r.error == InvalidCredentials || r.error == LoginFailed)
    ensures call.Err? ==> (r.error == InvalidCredentials <==> call.error.status == Some(401))
  {
    match call
    case Ok(data) => Ok(data)
    case Err(e) => if e.status == Some(401) then Err(InvalidCredentials) else Err(LoginFailed)
  }

  /** The mapping with the case the client makes necessary: a rejection the
      response interceptor turned into `SESSION_EXPIRED` is a 401 as well. */
  function LoginResultCorrected(call: Result<LoginResponse, ApiError>): (r: Result<LoginResponse, string>)
    ensures call.Ok? ==> r == Ok(call.value)
    ensures call.Err? ==> r.Err? && (r.error == InvalidCredentials || r.error == LoginFailed)
    ensures call.Err? ==>
              (r.error == InvalidCredentials <==> call.error.status == Some(401) || call.error == SessionExpired)
  {
    match call
    case Ok(data) => Ok(data)
    case Err(e) =>
      if e.status == Some(401) || e == SessionExpired then Err(InvalidCredentials) else Err(LoginFailed)
  }

  /** `login` as written, wired through the client. A rejected password
      (status 401) reaches the mapping as `SESSION_EXPIRED`, which has no
      `response`, so it is reported with the generic message and never as
      invalid credentials; the stored token is removed on the way. */
  method LoginAsWritten(store: TokenStorage, email: string, password: string,
                        reply: Result<LoginResponse, ApiError>, fails: set<StorageCall>)
    returns (r: Result<LoginResponse, string>)
    modifies store
    ensures reply.Ok? ==> r == Ok(reply.value)
    ensures reply.Err? ==> r == Err(LoginFailed)
    ensures reply.Err? && reply.error.status == Some(401) ==> store.Removed(fails)
    ensures (reply.Ok? || reply.error.status != Some(401)) ==>
              store.secure == old(store.secure) && store.plain == old(store.plain)
  {
    var config := new RequestConfig(LoginPath, Some(Api.headers), map["email" := email, "password" := password]);
    var call := Send(store, config, reply, fails);
    r := LoginResult(call);
  }

  /** `login` with the corrected mapping: a rejected password is reported as
      invalid credentials whenever the interceptor's token removal resolves. */
  method LoginCorrected(store: TokenStorage, email: string, password: string,
               reply: Result<LoginResponse, ApiError>, fails: set<StorageCall>)
    returns (r: Result<LoginResponse, string>)
    modifies store
    ensures reply.Ok? ==> r == Ok(reply.value)
    ensures reply.Err? ==> r.Err? && (r.error == InvalidCredentials || r.error == LoginFailed)
    ensures reply.Err? && reply.error.status == Some(401) ==>
              store.Removed(fails) &&
              r == Err(if RemoveOutcome(store.web, fails).Pass? then InvalidCredentials else LoginFailed)
    ensures reply.Err? && reply.error.status != Some(401) ==> r == LoginResultCorrected(reply)
    ensures (reply.Ok? || reply.error.status != Some(401)) ==>
              store.secure == old(store.secure) && store.plain == old(store.plain)
  {
    var config := new RequestConfig(LoginPath, Some(Api.headers), map["email" := email, "password" := password]);
    var call := Send(store, config, reply, fails);
    r := LoginResultCorrected(call);
  }
}
