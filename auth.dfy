/**
 * AuthService.Login: exchange a username and password for a token and, on
 * success, install a JWTAuthTransport carrying it on the client's
 * http.Client, unwrapping at most one previous auth layer.
 */
module Auth {
  import opened Wrappers
  import opened Text
  import opened Http
  import opened Transport
  import opened Client

  /** BasicAuth: the login request body. */
  datatype BasicAuth = BasicAuth(username: string, password: string)

  /** JWTAuth: the login response body. */
  datatype JwtAuth = JwtAuth(token: string)

  /** The login endpoint: a POST with a body and an output. */
  function LoginCall(): (c: Call)
    ensures c.verb == "POST" && c.hasIn && c.hasOut && RelativeDir(c.path)
  {
    Call("POST", "v2/users/login/", true, true)
  }

  /** The token in the output after Do: the decoded one, or the zero JWTAuth's "" if nothing was decoded. */
  function TokenOf(out: Option<JwtAuth>): string
  {
    if out.Some? then out.value.token else ""
  }

  /**
   * The transport Login installs over `current`: a new JWTAuthTransport whose
   * base is `current` with one auth layer, if it has one, taken off.
   */
  function Install(current: Transport, token: string): (t: Transport)
    ensures t.Jwt? && t.auth.token == token
    ensures Innermost(t) == Innermost(current)
    ensures Layers(t) == if current.Jwt? then Layers(current) else 1
    ensures Layers(current) <= 1 ==> Layers(t) == 1 && t.auth.Base() == Innermost(current)
  {
    var base := if current.Jwt? then current.auth.Base() else current;
    Jwt(JwtAuthTransport(base, token))
  }

  /** The transport after a run of successful logins, one token each, starting from `t`. */
  function AfterLogins(t: Transport, tokens: seq<string>): Transport
    decreases |tokens|
  {
    if tokens == [] then t else AfterLogins(Install(t, tokens[0]), tokens[1..])
  }

  /**
   * Logging in any number of times never stacks auth layers: from a transport
   * with at most one layer, the result has exactly one, holding the last
   * token, around the original non-auth transport.
   */
  lemma {:induction false} RepeatedLoginsNeverNest(t: Transport, tokens: seq<string>)
    requires Layers(t) <= 1 && |tokens| > 0
    ensures var r := AfterLogins(t, tokens);
      Layers(r) == 1 && r.Jwt? && r.auth.token == tokens[|tokens| - 1] && r.auth.Base() == Innermost(t)
    decreases |tokens|
  {
    var t' := Install(t, tokens[0]);
    if |tokens| > 1 {
      RepeatedLoginsNeverNest(t', tokens[1..]);
    }
  }

  /**
   * Once a token is installed, every request the client sends carries
   * "Authorization: JWT <token>", whatever transport was there before.
   */
  lemma AuthenticatedRequestsCarryToken<T>(current: Transport, token: string, dumpHook: bool, call: Call, env: Env<T>)
    requires !FailsBeforeSending(call, env)
    ensures var o := Execute(dumpHook, Install(current, token), call, env);
      o.wire.Some? && Get(o.wire.value.req.header, Authorization) == "JWT " + token
  {
  }

  /**
   * The login scenario: a 200 reply carrying the token "abc123" succeeds, and
   * a later call made through the installed transport carries
   * "Authorization: JWT abc123".
   */
  lemma LoginThenCallCarriesToken<T>(dumpHook: bool, current: Transport, env: Env<JwtAuth>, call: Call, later: Env<T>)
    requires !FailsBeforeSending(LoginCall(), env) && env.sent.Received? && env.sent.reply.dumpFailure.None?
    requires env.sent.reply.head.statusCode == 200 && env.sent.reply.body == Ok(JwtAuth("abc123"))
    requires !FailsBeforeSending(call, later)
    ensures var o := Execute(dumpHook, current, LoginCall(), env);
      o.err.None? && TokenOf(o.out) == "abc123" &&
      Get(Execute(dumpHook, Install(current, TokenOf(o.out)), call, later).wire.value.req.header, Authorization) == "JWT abc123"
  {
    AuthenticatedRequestsCarryToken(current, "abc123", dumpHook, call, later);
  }

  /** A 2xx login response with an empty body succeeds and installs the empty token. */
  lemma EmptyLoginReplyInstallsEmptyToken(dumpHook: bool, transport: Transport, env: Env<JwtAuth>)
    requires !FailsBeforeSending(LoginCall(), env) && env.sent.Received?
    requires IsSuccess(env.sent.reply.head.statusCode) && env.sent.reply.body.Eof?
    requires !dumpHook || env.sent.reply.dumpFailure.None?
    ensures var o := Execute(dumpHook, transport, LoginCall(), env);
      o.err.None? && TokenOf(o.out) == ""
  {
  }

  /**
   * Login. On an error from Do it returns Do's envelope and error and leaves
   * the client's http.Client and its Transport as they were; on success it
   * creates an http.Client if there was none and installs Install(previous,
   * token) as its Transport.
   */
  method Login(s: Service, credentials: BasicAuth, env: Env<JwtAuth>) returns (res: Response?, err: Option<DoError>)
    modifies s.client`http, s.client.http
    ensures var o := Execute(old(s.client.dumpHook), old(s.client.TransportOf()), LoginCall(), env);
      Reports(o, res, err) &&
      (err.Some? ==> s.client.http == old(s.client.http) && s.client.TransportOf() == old(s.client.TransportOf())) &&
      (err.None? ==>
        s.client.http != null && (old(s.client.http) != null ==> s.client.http == old(s.client.http)) &&
        s.client.TransportOf() == Install(old(s.client.TransportOf()), TokenOf(o.out)))
    ensures s.client.http != old(s.client.http) ==> fresh(s.client.http)
    ensures res != null ==> fresh(res)
  {
    var out: Option<JwtAuth>;
    res, err, out := s.client.Do(LoginCall(), env);
    if err.Some? {
      return;
    }
    if s.client.http == null {
      s.client.http := new HttpClient();
    }
    var base := s.client.http.transport;
    if base.Jwt? {
      base := base.auth.Base();
    }
    s.client.http.transport := Jwt(JwtAuthTransport(base, TokenOf(out)));
  }
}
