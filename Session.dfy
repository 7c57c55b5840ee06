/**
 * The session context of contexts/AuthContext.tsx: the in-memory user and
 * loading flag, kept beside the credential store, and the transitions that
 * change them.  Each backend call is a parameter holding its outcome; the
 * outcome passes through the client's response hook exactly as the real
 * call would.
 */
module Session {
  import opened Wrappers
  import opened Users
  import opened Auth
  import opened Api

  /** The body of a successful `/auth/login` or `/auth/register` call. */
  datatype AuthResponse = AuthResponse(user: User, token: string, message: string)

  const ProviderMissing := "useAuth must be used within an AuthProvider"

  /** The in-memory user is backed by the store: a token is stored and the
      stored user is this user's encoding. */
  predicate Mirrors(user: Option<User>, items: map<string, string>) {
    user.Some? ==> TokenKey in items && UserKey in items && items[UserKey] == EncodeUser(user.value)
  }

  /** Whether `initAuth` asks the server: the token is truthy and a user is saved. */
  predicate ShouldValidate(items: map<string, string>) {
    Truthy(StoredToken(items)) && StoredUser(items).Ok? && StoredUser(items).value.Some?
  }

  /** `useAuth()`: the context, or the error thrown outside a provider. */
  function UseAuth<C>(context: Option<C>): (r: Result<C, string>)
    ensures context.Some? ==> r == Ok(context.value)
    ensures context.None? ==> r == Err(ProviderMissing)
  {
    match context
    case Some(c) => Ok(c)
    case None => Err(ProviderMissing)
  }

  class AuthProvider {
    var user: Option<User>
    var loading: bool
    const api: ApiClient

    /** A freshly mounted provider: no user, still loading. */
    constructor (api: ApiClient)
      ensures user == None && loading && this.api == api
    {
      user := None;
      loading := true;
      this.api := api;
    }

    predicate Consistent()
      reads this, api.store
    {
      Mirrors(user, api.store.items)
    }

    /** The mount effect: reads the stored pair and, when both are present,
        revalidates it with `/auth/profile`.  A non-empty stored user that
        does not parse makes `getUser()` throw before the `try`, so the
        effect rejects and `loading` stays true. */
    method InitAuth(profile: Result<User, ApiError>) returns (r: Result<(), ParseError>)
      modifies this, api.store, api.location
      ensures old(StoredUser(api.store.items)).Err? ==>
        r.Err? && user == old(user) && loading == old(loading)
        && api.store.items == old(api.store.items) && api.location.href == old(api.location.href)
      ensures old(StoredUser(api.store.items)).Ok? ==> r.Ok? && !loading
      ensures old(StoredUser(api.store.items)).Ok? && !old(ShouldValidate(api.store.items)) ==>
        user == old(user) && api.store.items == old(api.store.items) && api.location.href == old(api.location.href)
      ensures old(ShouldValidate(api.store.items)) && profile.Ok? ==>
        user == Some(profile.value) && api.store.items == old(api.store.items)[UserKey := EncodeUser(profile.value)]
        && api.location.href == old(api.location.href) && Consistent()
      ensures old(ShouldValidate(api.store.items)) && profile.Err? ==>
        user == None && api.store.items == Cleared(old(api.store.items))
        && api.location.href == HrefAfter(old(api.location.href), profile) && Consistent()
    {
      var token := api.store.GetToken();
      var savedUser := api.store.GetUser();
      if savedUser.Err? {
        return Err(savedUser.error);
      }
      if token.Some? && token.value != "" && savedUser.value.Some? {
        var current := api.OnResponse(profile);
        match current
        case Ok(u) =>
          user := Some(u);
          api.store.SetUser(u);
        case Err(_) =>
          api.store.Logout();
          user := None;
      }
      loading := false;
      r := Ok(());
    }

    /** Stores the token, then the user, then sets the in-memory user.  A
        failed call is rethrown with nothing of the session changed, apart
        from what the response hook does on a 401. */
    method Login(response: Result<AuthResponse, ApiError>) returns (r: Result<(), ApiError>)
      modifies this, api.store, api.location
      ensures loading == old(loading)
      ensures response.Ok? ==>
        r.Ok? && user == Some(response.value.user)
        && api.store.items == old(api.store.items)[TokenKey := response.value.token][UserKey := EncodeUser(response.value.user)]
        && api.location.href == old(api.location.href) && Consistent()
      ensures response.Err? ==>
        r == Err(response.error) && user == old(user)
        && api.store.items == StorageAfter(old(api.store.items), response)
        && api.location.href == HrefAfter(old(api.location.href), response)
    {
      var answer := api.OnResponse(response);
      if answer.Err? {
        return Err(answer.error);
      }
      api.store.SetToken(answer.value.token);
      api.store.SetUser(answer.value.user);
      user := Some(answer.value.user);
      r := Ok(());
    }

    /** The same sequence as `Login`, on the `/auth/register` outcome. */
    method Register(response: Result<AuthResponse, ApiError>) returns (r: Result<(), ApiError>)
      modifies this, api.store, api.location
      ensures loading == old(loading)
      ensures response.Ok? ==>
        r.Ok? && user == Some(response.value.user)
        && api.store.items == old(api.store.items)[TokenKey := response.value.token][UserKey := EncodeUser(response.value.user)]
        && api.location.href == old(api.location.href) && Consistent()
      ensures response.Err? ==>
        r == Err(response.error) && user == old(user)
        && api.store.items == StorageAfter(old(api.store.items), response)
        && api.location.href == HrefAfter(old(api.location.href), response)
    {
      var answer := api.OnResponse(response);
      if answer.Err? {
        return Err(answer.error);
      }
      api.store.SetToken(answer.value.token);
      api.store.SetUser(answer.value.user);
      user := Some(answer.value.user);
      r := Ok(());
    }

    /** Clears the store and the in-memory user; no network call. */
    method Logout()
      modifies this, api.store
      ensures user == None && loading == old(loading)
      ensures api.store.items == Cleared(old(api.store.items))
      ensures Consistent()
    {
      api.store.Logout();
      user := None;
    }

    /** Replaces the in-memory and the stored user; the token is untouched. */
    method UpdateUser(updated: User)
      modifies this, api.store
      ensures user == Some(updated) && loading == old(loading)
      ensures api.store.items == old(api.store.items)[UserKey := EncodeUser(updated)]
      ensures StoredToken(api.store.items) == old(StoredToken(api.store.items))
      ensures StoredUser(api.store.items) == Ok(Some(updated))
      ensures old(TokenKey in api.store.items) ==> Consistent()
    {
      user := Some(updated);
      api.store.SetUser(updated);
    }
  }

  /** The response hook clears the store behind the context's back: a user
      that was mirrored by the store no longer is after a 401. */
  lemma UnauthorizedDesynchronises<T>(user: User, items: map<string, string>, response: Result<T, ApiError>)
    requires Mirrors(Some(user), items)
    requires response.Err? && IsUnauthorized(response.error)
    ensures !Mirrors(Some(user), StorageAfter(items, response))
  {
  }

  /** After a login that returned token "T1", outgoing requests carry
      `Authorization: Bearer T1`; after logout they carry no credential. */
  method BearerUntilLogout(user: User) returns (whileLoggedIn: Option<string>, afterLogout: Option<string>)
    ensures whileLoggedIn == Some("Bearer T1")
    ensures afterLogout == None
  {
    var store := new CredentialStore(map[]);
    var location := new Location("/");
    var api := new ApiClient(None, store, location);
    var session := new AuthProvider(api);
    var _ := session.Login(Ok(AuthResponse(user, "T1", "Login realizado com sucesso")));
    assert StoredToken(store.items) == Some("T1");
    assert BearerPrefix + "T1" == "Bearer T1";
    var first := new RequestConfig("/courses", map[]);
    api.InterceptRequest(first);
    whileLoggedIn := HeaderValue(first.headers, AuthorizationHeader);
    session.Logout();
    var second := new RequestConfig("/courses", map[]);
    api.InterceptRequest(second);
    afterLogout := HeaderValue(second.headers, AuthorizationHeader);
  }

  /** A startup whose stored token the server rejects with 401 ends anonymous,
      with an empty store and the browser sent to the login page. */
  method StartupWithRejectedToken(saved: User) returns (user: Option<User>, loading: bool, token: Option<string>, href: string)
    ensures user == None && !loading && token == None && href == LoginPath
  {
    var store := new CredentialStore(map[TokenKey := "stale", UserKey := EncodeUser(saved)]);
    var location := new Location("/dashboard");
    var api := new ApiClient(None, store, location);
    var session := new AuthProvider(api);
    DecodeEncode(saved);
    var _ := session.InitAuth(Err(ApiError(Some(Unauthorized), Some("Token inválido"))));
    user, loading := session.user, session.loading;
    token := store.GetToken();
    href := location.href;
  }
}
