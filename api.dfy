/**
 * The shared axios instance `api` and its two interceptors.
 *
 * The request interceptor attaches the stored access token as a bearer
 * credential (section 2.1 of RFC 6750). The response interceptor passes
 * successes through; on a 401 Unauthorized answer (section 15.5.2 of
 * RFC 9110) to a request not yet marked `_retry`, it marks the request,
 * posts the stored refresh token to the refresh endpoint with plain axios
 * (outside the interceptors), and then either stores the new access token
 * and sends the same request object again through `api` (both interceptors
 * included), or, when the refresh fails, removes both tokens and rejects with
 * the refresh error. Every other failure is rejected unchanged.
 *
 * The server is a parameter: `server(n, sent)` is its answer to the `n`-th
 * request that left the client, and `refresher(token)` is the refresh
 * endpoint's answer (the new access token or a failure) to a refresh post
 * carrying `token` (`None` being the `null` that `getItem` returns). `B` is
 * the type of the body the endpoint answers with.
 */
module Api {
  import opened Wrappers
  import opened Storage
  import opened Http

  const AuthorizationHeader: string := "Authorization"
  const RefreshPath: string := "/accounts/auth/refresh/"

  /** The value of an `Authorization` header carrying `token` as a bearer credential. */
  function BearerCredential(token: string): (v: string)
    ensures |v| == 7 + |token| && v[..7] == "Bearer " && v[7..] == token
  {
    "Bearer " + token
  }

  /** A credential names exactly one token. */
  lemma BearerCredentialInjective(a: string, b: string)
    requires BearerCredential(a) == BearerCredential(b)
    ensures a == b
  {
    assert a == BearerCredential(a)[7..];
  }

  /** The headers after the request interceptor, given what `getItem('accessToken')` answered. */
  function Authorize(headers: map<string, string>, token: Option<string>): (h: map<string, string>)
    ensures token.Some? ==> AuthorizationHeader in h && h[AuthorizationHeader] == BearerCredential(token.value)
    ensures token.None? ==> h == headers
    ensures forall k :: k in headers && k != AuthorizationHeader ==> k in h && h[k] == headers[k]
    ensures h.Keys == headers.Keys + (if token.Some? then {AuthorizationHeader} else {})
  {
    if token.Some? then headers[AuthorizationHeader := BearerCredential(token.value)] else headers
  }

  /** A request as it left the client. */
  datatype Sent = Sent(verb: Verb, url: string, headers: map<string, string>, payload: Payload)

  /** The axios request config: the object the interceptors mutate in place. */
  class RequestConfig {
    const verb: Verb
    const url: string
    const payload: Payload
    var headers: map<string, string>
    /** The `_retry` marker; initially unset. */
    var retry: bool

    constructor (verb: Verb, url: string, payload: Payload, headers: map<string, string>)
      ensures this.verb == verb && this.url == url && this.payload == payload
      ensures this.headers == headers && !retry
    {
      this.verb := verb;
      this.url := url;
      this.payload := payload;
      this.headers := headers;
      retry := false;
    }

    function Snapshot(): Sent
      reads this
    {
      Sent(verb, url, headers, payload)
    }
  }

  /** The 401 answer the response interceptor reacts to. */
  predicate IsUnauthorized<B>(reply: Result<B, Failure>) {
    reply.Failure? && reply.error.HttpError? && reply.error.status == 401
  }

  /**
   * Everything one pass through the client produces: what the caller
   * receives, the stored items afterwards, the requests sent, the refresh
   * posts made (by the refresh token each carried), and the config's final
   * headers and `_retry` marker.
   */
  datatype Outcome<B> = Outcome(result: Result<B, Failure>, items: map<string, string>,
                             sent: seq<Sent>, refreshes: seq<Option<string>>,
                             headers: map<string, string>, retry: bool)

  /** The request as the request interceptor lets it go, over a store holding `items`. */
  function FirstSent(items: map<string, string>, verb: Verb, url: string, payload: Payload,
                     headers: map<string, string>): Sent
  {
    Sent(verb, url, Authorize(headers, Lookup(items, AccessTokenKey)), payload)
  }

  /**
   * `api(config)` over a store holding `items`, the `n`-th request leaving the
   * client being the first one this call sends.
   */
  function RequestSpec<B>(items: map<string, string>, verb: Verb, url: string, payload: Payload,
                       headers: map<string, string>, retry: bool,
                       server: (nat, Sent) -> Result<B, Failure>,
                       refresher: Option<string> -> Result<string, Failure>, n: nat): Outcome<B>
    decreases if retry then 0 else 1, 1
  {
    var sent := FirstSent(items, verb, url, payload, headers);
    var o := ResponseSpec(items, verb, url, payload, sent.headers, retry, server(n, sent), server, refresher, n + 1);
    o.(sent := [sent] + o.sent)
  }

  /** The response interceptor applied to `reply`, the answer to a config in the given state. */
  function ResponseSpec<B>(items: map<string, string>, verb: Verb, url: string, payload: Payload,
                        headers: map<string, string>, retry: bool, reply: Result<B, Failure>,
                        server: (nat, Sent) -> Result<B, Failure>,
                        refresher: Option<string> -> Result<string, Failure>, n: nat): Outcome<B>
    decreases if retry then 0 else 1, 0
  {
    if IsUnauthorized(reply) && !retry then
      var refreshToken := Lookup(items, RefreshTokenKey);
      match refresher(refreshToken)
      case Success(access) =>
        var o := RequestSpec(items[AccessTokenKey := access], verb, url, payload,
                             headers[AuthorizationHeader := BearerCredential(access)], true,
                             server, refresher, n);
        o.(refreshes := [refreshToken] + o.refreshes)
      case Failure(refreshError) =>
        Outcome(Failure(refreshError), items - {AccessTokenKey, RefreshTokenKey}, [], [refreshToken], headers, true)
    else
      Outcome(reply, items, [], [], headers, retry)
  }

  /**
   * The first request carries the stored access token as a bearer
   * credential when one is present, and the caller's headers untouched
   * otherwise.
   */
  lemma FirstRequestCredential<B>(items: map<string, string>, verb: Verb, url: string, payload: Payload,
                               headers: map<string, string>, retry: bool,
                               server: (nat, Sent) -> Result<B, Failure>,
                               refresher: Option<string> -> Result<string, Failure>, n: nat)
    ensures var o := RequestSpec(items, verb, url, payload, headers, retry, server, refresher, n);
            |o.sent| >= 1 && o.sent[0].verb == verb && o.sent[0].url == url && o.sent[0].payload == payload
            && (Lookup(items, AccessTokenKey).Some?
                ==> AuthorizationHeader in o.sent[0].headers
                    && o.sent[0].headers[AuthorizationHeader] == BearerCredential(Lookup(items, AccessTokenKey).value))
            && (Lookup(items, AccessTokenKey).None? ==> o.sent[0].headers == headers)
  {
  }

  /**
   * A request triggers at most one refresh post, none at all when it is
   * already marked, and is sent at most twice; it ends up marked exactly
   * when it was marked before or its first answer was a 401.
   */
  lemma AtMostOneRefresh<B>(items: map<string, string>, verb: Verb, url: string, payload: Payload,
                         headers: map<string, string>, retry: bool,
                         server: (nat, Sent) -> Result<B, Failure>,
                         refresher: Option<string> -> Result<string, Failure>, n: nat)
    ensures var o := RequestSpec(items, verb, url, payload, headers, retry, server, refresher, n);
            |o.refreshes| <= (if retry then 0 else 1) && 1 <= |o.sent| <= 2 && |o.sent| <= |o.refreshes| + 1
            && o.retry == (retry || IsUnauthorized(server(n, o.sent[0])))
  {
    var first := FirstSent(items, verb, url, payload, headers);
    var refreshToken := Lookup(items, RefreshTokenKey);
    if !retry && IsUnauthorized(server(n, first)) && refresher(refreshToken).Success? {
      // The resent request is marked, so its own answer passes through.
      var access := refresher(refreshToken).value;
      PassThrough(items[AccessTokenKey := access], verb, url, payload,
                  first.headers[AuthorizationHeader := BearerCredential(access)], true, server, refresher, n + 1);
    }
  }

  /**
   * A success, an error other than 401, a failure without a response, and a
   * 401 to a request already marked all reach the caller unchanged, with no
   * refresh and the store untouched.
   */
  lemma PassThrough<B>(items: map<string, string>, verb: Verb, url: string, payload: Payload,
                    headers: map<string, string>, retry: bool,
                    server: (nat, Sent) -> Result<B, Failure>,
                    refresher: Option<string> -> Result<string, Failure>, n: nat)
    requires retry || !IsUnauthorized(server(n, FirstSent(items, verb, url, payload, headers)))
    ensures var o := RequestSpec(items, verb, url, payload, headers, retry, server, refresher, n);
            o.result == server(n, FirstSent(items, verb, url, payload, headers))
            && o.items == items && o.refreshes == [] && o.sent == [FirstSent(items, verb, url, payload, headers)]
  {
  }

  /**
   * A 401 to an unmarked request whose refresh fails removes both tokens and
   * rejects with the refresh error, not the 401; the request is not resent.
   */
  lemma RefreshFailureLogsOut<B>(items: map<string, string>, verb: Verb, url: string, payload: Payload,
                              headers: map<string, string>,
                              server: (nat, Sent) -> Result<B, Failure>,
                              refresher: Option<string> -> Result<string, Failure>, n: nat)
    requires IsUnauthorized(server(n, FirstSent(items, verb, url, payload, headers)))
    requires refresher(Lookup(items, RefreshTokenKey)).Failure?
    ensures var o := RequestSpec(items, verb, url, payload, headers, false, server, refresher, n);
            o.result == Failure(refresher(Lookup(items, RefreshTokenKey)).error)
            && o.items == items - {AccessTokenKey, RefreshTokenKey}
            && Lookup(o.items, AccessTokenKey).None? && Lookup(o.items, RefreshTokenKey).None?
            && o.refreshes == [Lookup(items, RefreshTokenKey)] && |o.sent| == 1
  {
  }

  /**
   * A 401 to an unmarked request whose refresh succeeds stores the new access
   * token, leaves the refresh token as it was, and sends the request once
   * more with the new bearer credential; whatever answers the resent request,
   * a second 401 included, is what the caller receives.
   */
  lemma RefreshSuccessResends<B>(items: map<string, string>, verb: Verb, url: string, payload: Payload,
                              headers: map<string, string>,
                              server: (nat, Sent) -> Result<B, Failure>,
                              refresher: Option<string> -> Result<string, Failure>, n: nat)
    requires IsUnauthorized(server(n, FirstSent(items, verb, url, payload, headers)))
    requires refresher(Lookup(items, RefreshTokenKey)).Success?
    ensures var access := refresher(Lookup(items, RefreshTokenKey)).value;
            var o := RequestSpec(items, verb, url, payload, headers, false, server, refresher, n);
            o.items == items[AccessTokenKey := access]
            && Lookup(o.items, RefreshTokenKey) == Lookup(items, RefreshTokenKey)
            && o.refreshes == [Lookup(items, RefreshTokenKey)] && |o.sent| == 2
            && o.sent[1].verb == verb && o.sent[1].url == url && o.sent[1].payload == payload
            && AuthorizationHeader in o.sent[1].headers
            && o.sent[1].headers[AuthorizationHeader] == BearerCredential(access)
            && o.result == server(n + 1, o.sent[1]) && o.retry
  {
  }

  /**
   * `api.get/post/patch(url, payload)`: a new config carrying no headers of
   * its own and no `_retry` marker, sent over a store holding `items`.
   */
  function Exchange<B>(items: map<string, string>, verb: Verb, url: string, payload: Payload,
                       server: (nat, Sent) -> Result<B, Failure>,
                       refresher: Option<string> -> Result<string, Failure>, n: nat): Outcome<B>
  {
    RequestSpec(items, verb, url, payload, map[], false, server, refresher, n)
  }

  /**
   * What one exchange does to the store: nothing when no refresh was
   * needed; otherwise the refreshed access token is stored, or both tokens
   * are removed when the refresh failed. No other key is ever written.
   */
  lemma StoreEffect<B>(items: map<string, string>, verb: Verb, url: string, payload: Payload,
                       server: (nat, Sent) -> Result<B, Failure>,
                       refresher: Option<string> -> Result<string, Failure>, n: nat)
    ensures var o := Exchange(items, verb, url, payload, server, refresher, n);
            var refreshed := refresher(Lookup(items, RefreshTokenKey));
            o.items == (if o.refreshes == [] then items
                        else if refreshed.Success? then items[AccessTokenKey := refreshed.value]
                        else items - {AccessTokenKey, RefreshTokenKey})
            && (o.refreshes == [] <==> !IsUnauthorized(server(n, FirstSent(items, verb, url, payload, map[]))))
            && (o.refreshes != [] && refreshed.Failure? ==> o.result == Failure(refreshed.error))
  {
    var first := FirstSent(items, verb, url, payload, map[]);
    if !IsUnauthorized(server(n, first)) {
      PassThrough(items, verb, url, payload, map[], false, server, refresher, n);
    } else if refresher(Lookup(items, RefreshTokenKey)).Success? {
      RefreshSuccessResends(items, verb, url, payload, map[], server, refresher, n);
    } else {
      RefreshFailureLogsOut(items, verb, url, payload, map[], server, refresher, n);
    }
  }

  class ApiClient {
    const store: LocalStorage
    /** The requests that left through `api`, oldest first. */
    var wire: seq<Sent>
    /** The refresh posts made, each by the refresh token its body carried. */
    var refreshes: seq<Option<string>>

    constructor (store: LocalStorage)
      ensures this.store == store && wire == [] && refreshes == []
    {
      this.store := store;
      wire := [];
      refreshes := [];
    }

    /** The request interceptor. */
    method InterceptRequest(config: RequestConfig)
      modifies config
      ensures config.headers == Authorize(old(config.headers), store.GetItem(AccessTokenKey))
      ensures config.retry == old(config.retry)
    {
      var token := store.GetItem(AccessTokenKey);
      if token.Some? {
        config.headers := config.headers[AuthorizationHeader := BearerCredential(token.value)];
      }
    }

    /**
     * `api(config)`: the request interceptor, the exchange with the server,
     * then the response interceptor.
     */
    method Request<B>(config: RequestConfig,
                   server: (nat, Sent) -> Result<B, Failure>,
                   refresher: Option<string> -> Result<string, Failure>)
      returns (r: Result<B, Failure>)
      modifies this, config, store
      decreases if config.retry then 0 else 1, 1
      ensures var o := RequestSpec(old(store.items), config.verb, config.url, config.payload,
                                   old(config.headers), old(config.retry), server, refresher, |old(wire)|);
              r == o.result && store.items == o.items && wire == old(wire) + o.sent
              && refreshes == old(refreshes) + o.refreshes
              && config.headers == o.headers && config.retry == o.retry
    {
      InterceptRequest(config);
      var sent := config.Snapshot();
      var reply := server(|wire|, sent);
      wire := wire + [sent];
      r := InterceptResponse(config, reply, server, refresher);
    }

    /** The response interceptor, applied to the server's answer to `config`. */
    method InterceptResponse<B>(config: RequestConfig, reply: Result<B, Failure>,
                             server: (nat, Sent) -> Result<B, Failure>,
                             refresher: Option<string> -> Result<string, Failure>)
      returns (r: Result<B, Failure>)
      modifies this, config, store
      decreases if config.retry then 0 else 1, 0
      ensures var o := ResponseSpec(old(store.items), config.verb, config.url, config.payload,
                                    old(config.headers), old(config.retry), reply, server, refresher, |old(wire)|);
              r == o.result && store.items == o.items && wire == old(wire) + o.sent
              && refreshes == old(refreshes) + o.refreshes
              && config.headers == o.headers && config.retry == o.retry
    {
      if IsUnauthorized(reply) && !config.retry {
        config.retry := true;
        var refreshToken := store.GetItem(RefreshTokenKey);
        refreshes := refreshes + [refreshToken];
        var outcome := refresher(refreshToken);
        match outcome {
          case Success(access) =>
            store.SetItem(AccessTokenKey, access);
            config.headers := config.headers[AuthorizationHeader := BearerCredential(access)];
            r := Request(config, server, refresher);
          case Failure(refreshError) =>
            store.RemoveItem(AccessTokenKey);
            store.RemoveItem(RefreshTokenKey);
            r := Failure(refreshError);
        }
      } else {
        r := reply;
      }
    }
  }
}
