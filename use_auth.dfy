/** The session controller of hooks/useAuth.tsx: the `AuthProvider` state
    cells `user`, `token` and `isLoading`, its three operations and the
    derived `isAuthenticated`. Each asynchronous operation is one atomic
    step; the storage faults and the backend's reply are parameters. */
module UseAuth {
  import opened Common
  import opened AuthToken
  import opened Http
  import opened AuthService

  const OutsideProvider: string := "useAuth deve ser usado dentro de AuthProvider"

  class AuthProvider {
    const store: TokenStorage
    var user: Option<User>
    var token: Option<string>
    var isLoading: bool

    /** The provider as first rendered: no user, no token, loading. */
    constructor (store: TokenStorage)
      ensures this.store == store
      ensures user == None && token == None && isLoading
      ensures !IsAuthenticated()
    {
      this.store := store;
      user := None;
      token := None;
      isLoading := true;
    }

    /** `isAuthenticated: !!token`. */
    function IsAuthenticated(): (b: bool)
      reads this
      ensures b <==> token.Some? && token.value != ""
    {
      Truthy(token)
    }

    /** `initialize`: reads the stored token, caches it when it is truthy,
        and leaves loading whatever the read gave; `user` is never set. */
    method Initialize(fails: set<StorageCall>)
      modifies this
      ensures !isLoading
      ensures user == old(user)
      ensures token == if Truthy(store.Read(fails)) then store.Read(fails) else old(token)
      ensures old(token) == None ==> (IsAuthenticated() <==> Truthy(store.Read(fails)))
    {
      var storedToken := store.Get(fails);
      if Truthy(storedToken) {
        token := storedToken;
      }
      isLoading := false;
    }

    /** The second half of `signIn`, once `login` answered: persists the
        token, and only then sets `token` and `user`. A rejected write leaves
        both cells as they were. */
    method Persist(data: LoginResponse, fails: set<StorageCall>) returns (out: Outcome<string>)
      modifies this, store
      ensures isLoading == old(isLoading)
      ensures store.Stored(data.token, fails)
      ensures out.Pass? <==> SetOutcome(store.web, fails).Pass?
      ensures out.Pass? ==>
                token == Some(data.token) && user == Some(data.user) && Lookup(store.plain) == Some(data.token)
      ensures out.Pass? && (store.web || SecureWrite !in fails) ==> store.Current() == Some(data.token)
      ensures out.Fail? ==> out.error == StorageFailureMessage && token == old(token) && user == old(user)
    {
      var written := store.Set(data.token, fails);
      if written.Fail? {
        return Fail(StorageFailureMessage);
      }
      token := Some(data.token);
      user := Some(data.user);
      return Pass;
    }

    /** `signIn`: logs in through the client with `login` as written, then
        persists the token and sets the cells. Every rejected login reaches
        the caller as the generic message, since the response interceptor
        has turned a 401 into `SESSION_EXPIRED`; that 401 has also had the
        stored token removed. */
    method SignIn(email: string, password: string,
                  reply: Result<LoginResponse, ApiError>, fails: set<StorageCall>)
      returns (out: Outcome<string>)
      modifies this, store
      ensures isLoading == old(isLoading)
      ensures out.Pass? <==> reply.Ok? && SetOutcome(store.web, fails).Pass?
      ensures out.Pass? ==>
                token == Some(reply.value.token) && user == Some(reply.value.user) &&
                Lookup(store.plain) == Some(reply.value.token)
      ensures out.Pass? && (store.web || SecureWrite !in fails) ==> store.Current() == Some(reply.value.token)
      ensures out.Fail? ==> token == old(token) && user == old(user)
      ensures reply.Ok? ==> store.Stored(reply.value.token, fails)
      ensures reply.Ok? && out.Fail? ==> out.error == StorageFailureMessage
      ensures reply.Err? ==> out == Fail(LoginFailed)
      ensures reply.Err? && reply.error.status == Some(401) ==> store.Removed(fails)
      ensures reply.Err? && reply.error.status != Some(401) ==>
                store.secure == old(store.secure) && store.plain == old(store.plain)
    {
      var response := LoginAsWritten(store, email, password, reply, fails);
      if response.Err? {
        return Fail(response.error);
      }
      out := Persist(response.value, fails);
    }

    /** `signIn` over the corrected `login`: a rejected password is reported
        as invalid credentials whenever the interceptor's token removal
        resolves. */
    method SignInCorrected(email: string, password: string,
                           reply: Result<LoginResponse, ApiError>, fails: set<StorageCall>)
      returns (out: Outcome<string>)
      modifies this, store
      ensures isLoading == old(isLoading)
      ensures out.Pass? <==> reply.Ok? && SetOutcome(store.web, fails).Pass?
      ensures out.Pass? ==> token == Some(reply.value.token) && user == Some(reply.value.user)
      ensures out.Fail? ==> token == old(token) && user == old(user)
      ensures reply.Ok? ==> store.Stored(reply.value.token, fails)
      ensures reply.Err? && reply.error.status == Some(401) ==>
                store.Removed(fails) &&
                out == Fail(if RemoveOutcome(store.web, fails).Pass? then InvalidCredentials else LoginFailed)
      ensures reply.Err? && reply.error.status != Some(401) ==>
                out == Fail(LoginResultCorrected(reply).error) &&
                store.secure == old(store.secure) && store.plain == old(store.plain)
    {
      var response := LoginCorrected(store, email, password, reply, fails);
      if response.Err? {
        return Fail(response.error);
      }
      out := Persist(response.value, fails);
    }

    /** `signOut`: removes the stored token, then clears both cells. */
    method SignOut(fails: set<StorageCall>) returns (out: Outcome<string>)
      modifies this, store
      ensures isLoading == old(isLoading)
      ensures store.Removed(fails)
      ensures out.Pass? <==> RemoveOutcome(store.web, fails).Pass?
      ensures out.Pass? ==> token == None && user == None && !IsAuthenticated()
      ensures out.Fail? ==> token == old(token) && user == old(user)
    {
      var removed := store.Remove(fails);
      if removed.Fail? {
        return Fail(StorageFailureMessage);
      }
      token := None;
      user := None;
      return Pass;
    }
  }

  /** `useAuth`: the provider's value, or the error thrown outside one. */
  function UseAuthContext(ctx: Option<AuthProvider>): (r: Result<AuthProvider, string>)
    ensures r.Ok? <==> ctx.Some?
    ensures ctx.Some? ==> r == Ok(ctx.value)
    ensures ctx.None? ==> r == Err(OutsideProvider)
  {
    match ctx
    case Some(p) => Ok(p)
    case None => Err(OutsideProvider)
  }

  /** A successful sign-in persists a token that a fresh provider over the
      same store picks up on initialization, as after a process restart. */
  method SignInSurvivesRestart(store: TokenStorage, email: string, password: string, data: LoginResponse)
    returns (before: bool, after: bool, restarted: AuthProvider)
    requires data.token != ""
    modifies store
    ensures !before && after
    ensures restarted.IsAuthenticated() && restarted.token == Some(data.token) && !restarted.isLoading
  {
    var p := new AuthProvider(store);
    before := p.IsAuthenticated();
    var _ := p.SignIn(email, password, Ok(data), {});
    after := p.IsAuthenticated();
    restarted := new AuthProvider(store);
    restarted.Initialize({});
  }

  /** A sign-in the backend rejects leaves the provider signed out, writes
      no token and reports the generic message whatever the status; after a
      401 the interceptor's removal has emptied the store. */
  method RejectedSignIn(store: TokenStorage, email: string, password: string, status: int)
    returns (p: AuthProvider, out: Outcome<string>)
    modifies store
    ensures out.Fail? && !p.IsAuthenticated() && p.user == None
    ensures out == Fail(LoginFailed)
    ensures status == 401 ==> store.Current() == None
    ensures status != 401 ==> store.secure == old(store.secure) && store.plain == old(store.plain)
  {
    p := new AuthProvider(store);
    out := p.SignIn(email, password, Err(ApiError("Request failed", Some(status))), {});
  }

  /** Signing out twice leaves the same state as signing out once. */
  method SignOutTwice(p: AuthProvider)
    returns (once: (Option<string>, Option<User>, map<string, string>, map<string, string>),
             twice: (Option<string>, Option<User>, map<string, string>, map<string, string>))
    modifies p, p.store
    ensures once == twice
    ensures twice.0 == None && twice.1 == None && p.store.Current() == None
  {
    var _ := p.SignOut({});
    once := (p.token, p.user, p.store.secure, p.store.plain);
    var _ := p.SignOut({});
    twice := (p.token, p.user, p.store.secure, p.store.plain);
    assert TokenKey !in once.3 && once.3 - {TokenKey} == once.3;
    assert !p.store.web ==> TokenKey !in once.2 && once.2 - {TokenKey} == once.2;
  }

  /** The provider does not observe an expiry: after a request is answered
      with 401 the store no longer holds a token, yet the cached `token`
      still makes the provider report a signed-in session. `initialize`
      does not clear it either, since it only ever sets a truthy token, so
      the session lasts until sign-out or a fresh provider. */
  method ExpiryIsNotObserved(p: AuthProvider, config: RequestConfig, reply: Result<string, ApiError>)
    returns (r: Result<string, ApiError>)
    requires reply.Err? && reply.error.status == Some(401)
    modifies p.store, config
    ensures r == Err(SessionExpired)
    ensures p.store.Current() == None
    ensures p.IsAuthenticated() == old(p.IsAuthenticated())
  {
    r := Send(p.store, config, reply, {});
  }

  /** The same expiry followed by a fresh `initialize` over the emptied
      store: the read gives no truthy token, so the cached one stays and the
      provider still reports a signed-in session. */
  method ExpirySurvivesInitialize(p: AuthProvider, config: RequestConfig, reply: Result<string, ApiError>)
    returns (r: Result<string, ApiError>)
    requires reply.Err? && reply.error.status == Some(401)
    requires p.IsAuthenticated()
    modifies p, p.store, config
    ensures r == Err(SessionExpired)
    ensures p.store.Current() == None && p.store.Read({}) == None
    ensures p.IsAuthenticated() && !p.isLoading
  {
    r := Send(p.store, config, reply, {});
    p.Initialize({});
  }
}
