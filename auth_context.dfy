/**
 * `AuthProvider`: the session controller. Its state is the signed-in `user`
 * and the `loading` flag, beside the token store of the `api` client its
 * requests go through. `initializeAuth` runs once when the provider mounts;
 * `login`, `logout` and `register` are what it offers to the components.
 * The answers of the endpoints it calls, and of the refresh endpoint, are
 * inputs.
 */
module AuthContext {
  import opened Wrappers
  import opened Storage
  import opened Http
  import AuthService
  import opened Api

  /** The three situations the rest of the application distinguishes. */
  datatype Phase = Bootstrapping | SignedOut | SignedIn(user: AuthService.UserProfile)

  function PhaseOf(loading: bool, user: Option<AuthService.UserProfile>): (p: Phase)
    ensures p.Bootstrapping? <==> loading
    ensures p.SignedIn? <==> !loading && user.Some?
    ensures p.SignedIn? ==> p.user == user.value
  {
    if loading then Bootstrapping else if user.None? then SignedOut else SignedIn(user.value)
  }

  class AuthProvider {
    const client: ApiClient
    var user: Option<AuthService.UserProfile>
    var loading: bool

    constructor (client: ApiClient)
      ensures this.client == client
      ensures user.None? && loading
    {
      this.client := client;
      user := None;
      loading := true;
    }

    function Phase(): Phase
      reads this
    {
      PhaseOf(loading, user)
    }

    /**
     * `initializeAuth`: without a stored access token, stop loading and stay
     * signed out; with one, fetch the profile, and on failure log out.
     */
    method InitializeAuth(server: (nat, Sent) -> Result<AuthService.UserProfile, Failure>,
                          refresher: Option<string> -> Result<string, Failure>)
      modifies this, client, client.store
      ensures !loading
      ensures !AuthService.Authenticated(old(client.store.items))
              ==> user == old(user) && client.store.items == old(client.store.items)
                  && client.wire == old(client.wire) && client.refreshes == old(client.refreshes)
      ensures AuthService.Authenticated(old(client.store.items))
              ==> var o := Exchange(old(client.store.items), GET, AuthService.ProfilePath, NoBody,
                                    server, refresher, |old(client.wire)|);
                  client.wire == old(client.wire) + o.sent && client.refreshes == old(client.refreshes) + o.refreshes
                  && (o.result.Success? ==> user == Some(o.result.value) && client.store.items == o.items)
                  && (o.result.Failure? ==> user == old(user) && client.store.items == AuthService.AfterLogout(o.items))
    {
      if AuthService.IsAuthenticated(client.store) {
        var userData := AuthService.GetCurrentUser(client, server, refresher);
        if userData.Success? {
          user := Some(userData.value);
        } else {
          AuthService.Logout(client.store);
        }
        loading := false;
      } else {
        loading := false;
      }
    }

    /**
     * `login(email, password)`: log in, then fetch the profile. A failed
     * login stops there; a failed profile fetch leaves the stored tokens as
     * the client left them. Either failure is passed on and leaves `user` as
     * it was.
     */
    method Login(email: string, password: string,
                 loginServer: (nat, Sent) -> Result<AuthService.AuthTokens, Failure>,
                 profileServer: (nat, Sent) -> Result<AuthService.UserProfile, Failure>,
                 refresher: Option<string> -> Result<string, Failure>)
      returns (r: Result<(), Failure>)
      modifies this, client, client.store
      ensures loading == old(loading)
      ensures var o := Exchange(old(client.store.items), POST, AuthService.LoginPath,
                                JsonBody(AuthService.CredentialsJson(AuthService.Credentials(email, password))),
                                loginServer, refresher, |old(client.wire)|);
              o.result.Failure? ==>
                r == Failure(o.result.error) && user == old(user) && client.store.items == o.items
                && client.wire == old(client.wire) + o.sent && client.refreshes == old(client.refreshes) + o.refreshes
      ensures var o := Exchange(old(client.store.items), POST, AuthService.LoginPath,
                                JsonBody(AuthService.CredentialsJson(AuthService.Credentials(email, password))),
                                loginServer, refresher, |old(client.wire)|);
              o.result.Success? ==>
                var p := Exchange(AuthService.AfterLogin(o.items, o.result.value), GET, AuthService.ProfilePath, NoBody,
                                  profileServer, refresher, |old(client.wire)| + |o.sent|);
                client.store.items == p.items
                && client.wire == old(client.wire) + o.sent + p.sent
                && client.refreshes == old(client.refreshes) + o.refreshes + p.refreshes
                && (p.result.Success? ==> r == Success(()) && user == Some(p.result.value))
                && (p.result.Failure? ==> r == Failure(p.result.error) && user == old(user))
    {
      var t := AuthService.Login(client, AuthService.Credentials(email, password), loginServer, refresher);
      if t.Failure? {
        return Failure(t.error);
      }
      var userData := AuthService.GetCurrentUser(client, profileServer, refresher);
      if userData.Failure? {
        return Failure(userData.error);
      }
      user := Some(userData.value);
      r := Success(());
    }

    /** `logout()`: remove both tokens and forget the user, with no request. */
    method Logout()
      modifies this, client.store
      ensures user.None? && loading == old(loading)
      ensures client.store.items == AuthService.AfterLogout(old(client.store.items))
    {
      AuthService.Logout(client.store);
      user := None;
    }

    /** `register(userData)`: only forwards to the service. */
    method Register(userData: JsonObject, server: (nat, Sent) -> Result<JsonObject, Failure>,
                    refresher: Option<string> -> Result<string, Failure>)
      returns (r: Result<(), Failure>)
      modifies client, client.store
      ensures var o := Exchange(old(client.store.items), POST, AuthService.RegisterPath, JsonBody(userData),
                                server, refresher, |old(client.wire)|);
              client.wire == old(client.wire) + o.sent && client.refreshes == old(client.refreshes) + o.refreshes
              && client.store.items == o.items
              && (r.Success? <==> o.result.Success?) && (o.result.Failure? ==> r == Failure(o.result.error))
    {
      r := AuthService.Register(client, userData, server, refresher);
    }
  }
}
