/**
 * http.RoundTripper values as the client sees them, and the bearer-token
 * decorator JWTAuthTransport with its RoundTrip and Base methods.
 */
module Transport {
  import opened Wrappers
  import opened Http

  /**
   * A RoundTripper: the nil interface, http.DefaultTransport, a transport the
   * caller installed (told apart by an id), or a JWTAuthTransport.
   */
  datatype Transport =
    | Nil
    | Default
    | Opaque(id: nat)
    | Jwt(auth: JwtAuthTransport)

  /** JWTAuthTransport: the wrapped transport and the embedded JWTAuth's token. */
  datatype JwtAuthTransport = JwtAuthTransport(base: Transport, token: string)
  {
    /** Base exposes the wrapped transport: unwrapping removes exactly one auth layer. */
    function Base(): (t: Transport)
      ensures Layers(t) + 1 == Layers(Jwt(this))
    {
      base
    }

    /** The Authorization value the transport injects. */
    function Credential(): string
    {
      "JWT " + token
    }

    /**
     * RoundTrip: a request that already carries an Authorization header is
     * forwarded as it is; otherwise a copy whose header map is a clone with
     * Authorization set to "JWT <token>" is forwarded. Either way a nil base
     * falls back to the default transport.
     */
    function RoundTrip(req: Request): (f: Forward)
      ensures base != Nil ==> f.next == base
      ensures base == Nil ==> f.next == Default
      ensures Layers(f.next) < Layers(Jwt(this))
      ensures Get(req.header, Authorization) != "" ==> f.req == req
      ensures Get(req.header, Authorization) == "" ==>
        Authorization in f.req.header && f.req.header[Authorization] == [Credential()]
      ensures f.req.header - {Authorization} == req.header - {Authorization}
      ensures f.req.(header := req.header) == req
    {
      var next := if base == Nil then Default else base;
      if Get(req.header, Authorization) != "" then Forward(next, req)
      else Forward(next, req.(header := Set(req.header, Authorization, Credential())))
    }

    /**
     * RoundTrip as auth.go writes it: the pass-through branch calls
     * Base().RoundTrip without the nil fallback, so a nil base with a
     * caller-supplied Authorization header is a nil-interface call (None).
     */
    function RoundTripAsWritten(req: Request): (f: Option<Forward>)
      ensures f.None? <==> Get(req.header, Authorization) != "" && base == Nil
      ensures f.Some? ==> f.value == RoundTrip(req)
    {
      if Get(req.header, Authorization) != "" then
        if base == Nil then None else Some(Forward(base, req))
      else Some(RoundTrip(req))
    }
  }

  /** One hop of a round trip: the transport the request goes to next, and the request it gets. */
  datatype Forward = Forward(next: Transport, req: Request)

  /** The number of auth layers stacked on top of a non-auth transport. */
  function Layers(t: Transport): nat
  {
    if t.Jwt? then 1 + Layers(t.auth.base) else 0
  }

  /** The non-auth transport under all auth layers. */
  function Innermost(t: Transport): (b: Transport)
    ensures !b.Jwt?
    ensures Layers(t) == 0 ==> b == t
  {
    if t.Jwt? then Innermost(t.auth.base) else t
  }

  /**
   * What sending `req` through `t` puts on the wire: the non-auth transport
   * that finally sends it, and the request it sends. A nil transport stands
   * for an http.Client with no Transport, which uses the default one. Each
   * auth layer is passed with the corrected RoundTrip, so a nil base under
   * an auth layer also means the default transport.
   */
  function Deliver(t: Transport, req: Request): (d: Forward)
    ensures d.next == (if Innermost(t) == Nil then Default else Innermost(t))
    ensures d.next.Default? || d.next.Opaque?
    ensures Get(req.header, Authorization) != "" ==> d.req == req
    ensures t.Jwt? && Get(req.header, Authorization) == "" ==>
      Authorization in d.req.header && d.req.header[Authorization] == [t.auth.Credential()]
    ensures !t.Jwt? ==> d.req == req
    ensures d.req.header - {Authorization} == req.header - {Authorization}
    ensures d.req.(header := req.header) == req
    decreases Layers(t)
  {
    match t
    case Nil => Forward(Default, req)
    case Default => Forward(t, req)
    case Opaque(_) => Forward(t, req)
    case Jwt(j) =>
      var f := j.RoundTrip(req);
      Deliver(f.next, f.req)
  }

  /**
   * A JWTAuthTransport with no base (the one Login installs on a client that
   * had no http.Client) fails on any request that already carries its own
   * Authorization header.
   */
  lemma PassThroughWithoutBaseFails(token: string, req: Request)
    requires Get(req.header, Authorization) != ""
    ensures JwtAuthTransport(Nil, token).RoundTripAsWritten(req).None?
    ensures JwtAuthTransport(Nil, token).RoundTrip(req) == Forward(Default, req)
  {
  }
}
