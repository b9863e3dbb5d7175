/**
 * `authService`: the token operations over the store and the account
 * endpoints. Every network call goes through the `api` client of module
 * `Api`, so a 401 answer can refresh or clear the stored tokens before the
 * service sees the outcome; the server's and the refresh endpoint's answers
 * are inputs.
 */
module AuthService {
  import opened Wrappers
  import opened Storage
  import opened Http
  import opened Api

  const RegisterPath: string := "/accounts/auth/register/"
  const LoginPath: string := "/accounts/auth/login/"
  const ProfilePath: string := "/accounts/profile/"

  datatype Credentials = Credentials(email: string, password: string)

  datatype AuthTokens = AuthTokens(access: string, refresh: string)

  /**
   * The account as the profile endpoint returns it. Only `id`, `username` and
   * `email` are declared by the service; the other fields may be absent
   * (`None`), as they are for the test fixture user.
   */
  datatype UserProfile = UserProfile(id: int, username: string, email: string, full_name: Option<string>,
                                     first_name: Option<string>, last_name: Option<string>,
                                     phone_number: Option<string>, bio: Option<string>,
                                     job_title: Option<string>, department: Option<string>, role: string)

  function CredentialsJson(c: Credentials): (body: JsonObject)
    ensures body.Keys == {"email", "password"}
    ensures body["email"] == JStr(c.email) && body["password"] == JStr(c.password)
  {
    map["email" := JStr(c.email), "password" := JStr(c.password)]
  }

  /** The store after a successful login: both tokens written, nothing else touched. */
  function AfterLogin(items: map<string, string>, tokens: AuthTokens): (after: map<string, string>)
    ensures after.Keys == items.Keys + {AccessTokenKey, RefreshTokenKey}
    ensures after[AccessTokenKey] == tokens.access && after[RefreshTokenKey] == tokens.refresh
    ensures forall k :: k in items && k != AccessTokenKey && k != RefreshTokenKey ==> after[k] == items[k]
  {
    items[AccessTokenKey := tokens.access][RefreshTokenKey := tokens.refresh]
  }

  /** The store after `logout`: both tokens removed, nothing else touched. */
  function AfterLogout(items: map<string, string>): (after: map<string, string>)
    ensures after.Keys == items.Keys - {AccessTokenKey, RefreshTokenKey}
    ensures forall k :: k in after ==> after[k] == items[k]
  {
    items - {AccessTokenKey, RefreshTokenKey}
  }

  /** `isAuthenticated()` over a snapshot of the store. */
  predicate Authenticated(items: map<string, string>) {
    Lookup(items, AccessTokenKey).Some?
  }

  /** `isAuthenticated()`: a non-empty access token is stored; the refresh token plays no part. */
  function IsAuthenticated(store: LocalStorage): (b: bool)
    reads store
    ensures b <==> AccessTokenKey in store.items && store.items[AccessTokenKey] != ""
  {
    Authenticated(store.items)
  }

  /** Logging out twice is logging out once, and leaves no session behind. */
  lemma LogoutIdempotent(items: map<string, string>)
    ensures AfterLogout(AfterLogout(items)) == AfterLogout(items)
    ensures !Authenticated(AfterLogout(items)) && Lookup(AfterLogout(items), RefreshTokenKey).None?
  {
  }

  /** After a login the session is authenticated exactly when the access token received is non-empty. */
  lemma LoginAuthenticates(items: map<string, string>, tokens: AuthTokens)
    ensures Authenticated(AfterLogin(items, tokens)) <==> tokens.access != ""
    ensures Lookup(AfterLogin(items, tokens), RefreshTokenKey) == (if tokens.refresh == "" then None else Some(tokens.refresh))
  {
  }

  /** Logging out after logging in restores the store as it was, less any tokens it held. */
  lemma LogoutUndoesLogin(items: map<string, string>, tokens: AuthTokens)
    ensures AfterLogout(AfterLogin(items, tokens)) == AfterLogout(items)
  {
  }

  /** `authService.register(userData)`: posts the data as given; the answer's body is not used. */
  method Register(client: ApiClient, userData: JsonObject,
                  server: (nat, Sent) -> Result<JsonObject, Failure>,
                  refresher: Option<string> -> Result<string, Failure>)
    returns (r: Result<(), Failure>)
    modifies client, client.store
    ensures var o := Exchange(old(client.store.items), POST, RegisterPath, JsonBody(userData), server, refresher, |old(client.wire)|);
            client.wire == old(client.wire) + o.sent && client.refreshes == old(client.refreshes) + o.refreshes
            && client.store.items == o.items
            && (r.Success? <==> o.result.Success?) && (o.result.Failure? ==> r == Failure(o.result.error))
  {
    var config := new RequestConfig(POST, RegisterPath, JsonBody(userData), map[]);
    var reply := client.Request(config, server, refresher);
    match reply {
      case Success(_) => r := Success(());
      case Failure(e) => r := Failure(e);
    }
  }

  /**
   * `authService.login(credentials)`: when the post succeeds, both tokens
   * received are stored and returned; when it fails, the store is as the
   * client's response interceptor left it.
   */
  method Login(client: ApiClient, credentials: Credentials,
               server: (nat, Sent) -> Result<AuthTokens, Failure>,
               refresher: Option<string> -> Result<string, Failure>)
    returns (r: Result<AuthTokens, Failure>)
    modifies client, client.store
    ensures var o := Exchange(old(client.store.items), POST, LoginPath, JsonBody(CredentialsJson(credentials)),
                              server, refresher, |old(client.wire)|);
            r == o.result
            && client.wire == old(client.wire) + o.sent && client.refreshes == old(client.refreshes) + o.refreshes
            && client.store.items == (if r.Success? then AfterLogin(o.items, r.value) else o.items)
  {
    var config := new RequestConfig(POST, LoginPath, JsonBody(CredentialsJson(credentials)), map[]);
    r := client.Request(config, server, refresher);
    if r.Success? {
      client.store.SetItem(AccessTokenKey, r.value.access);
      client.store.SetItem(RefreshTokenKey, r.value.refresh);
    }
  }

  /**
   * A rejected login writes no key but the two tokens, and leaves the refresh
   * token either as it was or removed together with the access token.
   */
  lemma RejectedLoginStore(items: map<string, string>, credentials: Credentials,
                           server: (nat, Sent) -> Result<AuthTokens, Failure>,
                           refresher: Option<string> -> Result<string, Failure>, n: nat)
    requires Exchange(items, POST, LoginPath, JsonBody(CredentialsJson(credentials)), server, refresher, n).result.Failure?
    ensures var after := Exchange(items, POST, LoginPath, JsonBody(CredentialsJson(credentials)), server, refresher, n).items;
            (forall k :: k != AccessTokenKey && k != RefreshTokenKey ==>
               (k in after <==> k in items) && (k in after ==> after[k] == items[k]))
            && (Lookup(after, RefreshTokenKey) == Lookup(items, RefreshTokenKey) || after == AfterLogout(items))
  {
    StoreEffect(items, POST, LoginPath, JsonBody(CredentialsJson(credentials)), server, refresher, n);
  }

  /** `authService.logout()`: removes both tokens; no request is made. */
  method Logout(store: LocalStorage)
    modifies store
    ensures store.items == AfterLogout(old(store.items))
  {
    store.RemoveItem(AccessTokenKey);
    store.RemoveItem(RefreshTokenKey);
  }

  /** `authService.getCurrentUser()`: the profile as the client delivered it. */
  method GetCurrentUser(client: ApiClient,
                        server: (nat, Sent) -> Result<UserProfile, Failure>,
                        refresher: Option<string> -> Result<string, Failure>)
    returns (r: Result<UserProfile, Failure>)
    modifies client, client.store
    ensures var o := Exchange(old(client.store.items), GET, ProfilePath, NoBody, server, refresher, |old(client.wire)|);
            r == o.result && client.store.items == o.items
            && client.wire == old(client.wire) + o.sent && client.refreshes == old(client.refreshes) + o.refreshes
  {
    var config := new RequestConfig(GET, ProfilePath, NoBody, map[]);
    r := client.Request(config, server, refresher);
  }

  /** `authService.updateProfile(userData)`: patches the profile and returns what the client delivered. */
  method UpdateProfile(client: ApiClient, userData: JsonObject,
                       server: (nat, Sent) -> Result<UserProfile, Failure>,
                       refresher: Option<string> -> Result<string, Failure>)
    returns (r: Result<UserProfile, Failure>)
    modifies client, client.store
    ensures var o := Exchange(old(client.store.items), PATCH, ProfilePath, JsonBody(userData), server, refresher, |old(client.wire)|);
            r == o.result && client.store.items == o.items
            && client.wire == old(client.wire) + o.sent && client.refreshes == old(client.refreshes) + o.refreshes
  {
    var config := new RequestConfig(PATCH, ProfilePath, JsonBody(userData), map[]);
    r := client.Request(config, server, refresher);
  }
}
