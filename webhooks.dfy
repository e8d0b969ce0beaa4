/**
 * WebhookService: each method builds a relative path from the repository
 * name and decimal ids, and calls Do with a fixed method and a nil or
 * non-nil body and output.
 */
module Webhooks {
  import opened Wrappers
  import opened Text
  import opened Decimal
  import opened Transport
  import opened Client

  /** Hook, without its time fields. */
  datatype Hook = Hook(id: int, creator: string, lastUpdater: string, hookUrl: string)

  const ZeroHook: Hook := Hook(0, "", "", "")

  /** Webhook, without its time field. */
  datatype Webhook = Webhook(id: int, name: string, active: bool, expectFinalCallback: bool,
                             creator: string, lastUpdater: string, hooks: seq<Hook>)

  const ZeroWebhook: Webhook := Webhook(0, "", false, false, "", "", [])

  datatype WebhookInput = WebhookInput(name: string)

  datatype HookInput = HookInput(hookUrl: string)

  /** The output of a list call: the page fields and the results array. */
  datatype Listing<T> = Listing(page: Page, results: seq<T>)

  /** The list output after Do: what was decoded, or the zero value (zero page, nil slice). */
  function ListingOf<T>(out: Option<Listing<T>>): Listing<T>
  {
    out.GetOr(Listing(ZeroPage, []))
  }

  /** A relative directory path under the repository's webhooks collection. */
  predicate UnderWebhooks(repo: string, p: string)
  {
    StartsWith(p, "v2/repositories/" + repo + "/webhooks/") && RelativeDir(p)
  }

  function FindCall(repo: string, id: int): (c: Call)
    ensures c.verb == "GET" && !c.hasIn && c.hasOut && UnderWebhooks(repo, c.path)
  {
    Call("GET", "v2/repositories/" + repo + "/webhooks/" + (Dec(id) + "/"), false, true)
  }

  function FindHookCall(repo: string, id: int, hook: int): (c: Call)
    ensures c.verb == "GET" && !c.hasIn && c.hasOut && UnderWebhooks(repo, c.path)
  {
    Call("GET", "v2/repositories/" + repo + "/webhooks/" + (Dec(id) + "/hooks/" + Dec(hook) + "/"), false, true)
  }

  function ListCall(repo: string): (c: Call)
    ensures c.verb == "GET" && !c.hasIn && c.hasOut && UnderWebhooks(repo, c.path)
  {
    Call("GET", "v2/repositories/" + repo + "/webhooks/", false, true)
  }

  function ListHooksCall(repo: string, id: int): (c: Call)
    ensures c.verb == "GET" && !c.hasIn && c.hasOut && UnderWebhooks(repo, c.path)
  {
    Call("GET", "v2/repositories/" + repo + "/webhooks/" + (Dec(id) + "/hooks/"), false, true)
  }

  function CreateCall(repo: string): (c: Call)
    ensures c.verb == "POST" && c.hasIn && c.hasOut && UnderWebhooks(repo, c.path)
  {
    Call("POST", "v2/repositories/" + repo + "/webhooks/", true, true)
  }

  function CreateHookCall(repo: string, id: int): (c: Call)
    ensures c.verb == "POST" && c.hasIn && c.hasOut && UnderWebhooks(repo, c.path)
  {
    Call("POST", "v2/repositories/" + repo + "/webhooks/" + (Dec(id) + "/hooks/"), true, true)
  }

  function UpdateCall(repo: string, id: int): (c: Call)
    ensures c.verb == "PATCH" && c.hasIn && c.hasOut && UnderWebhooks(repo, c.path)
  {
    Call("PATCH", "v2/repositories/" + repo + "/webhooks/" + (Dec(id) + "/"), true, true)
  }

  function UpdateHookCall(repo: string, id: int, hook: int): (c: Call)
    ensures c.verb == "PATCH" && c.hasIn && c.hasOut && UnderWebhooks(repo, c.path)
  {
    Call("PATCH", "v2/repositories/" + repo + "/webhooks/" + (Dec(id) + "/hooks/" + Dec(hook) + "/"), true, true)
  }

  function DeleteCall(repo: string, id: int): (c: Call)
    ensures c.verb == "DELETE" && !c.hasIn && !c.hasOut && UnderWebhooks(repo, c.path)
  {
    Call("DELETE", "v2/repositories/" + repo + "/webhooks/" + (Dec(id) + "/"), false, false)
  }

  function DeleteHookCall(repo: string, id: int, hook: int): (c: Call)
    ensures c.verb == "DELETE" && !c.hasIn && !c.hasOut && UnderWebhooks(repo, c.path)
  {
    Call("DELETE", "v2/repositories/" + repo + "/webhooks/" + (Dec(id) + "/hooks/" + Dec(hook) + "/"), false, false)
  }

  /** Which operations share a resource path. */
  lemma SharedPaths(repo: string, id: int, hook: int)
    ensures FindCall(repo, id).path == UpdateCall(repo, id).path == DeleteCall(repo, id).path
    ensures ListCall(repo).path == CreateCall(repo).path
    ensures ListHooksCall(repo, id).path == CreateHookCall(repo, id).path
    ensures FindHookCall(repo, id, hook).path == UpdateHookCall(repo, id, hook).path == DeleteHookCall(repo, id, hook).path
  {
  }

  /**
   * How the paths nest: a webhook is the collection path plus its id, its
   * hooks collection is the webhook path plus "hooks/", and a hook is that
   * plus the hook id.
   */
  lemma NestedPaths(repo: string, id: int, hook: int)
    ensures FindCall(repo, id).path == ListCall(repo).path + (Dec(id) + "/")
    ensures ListHooksCall(repo, id).path == FindCall(repo, id).path + "hooks/"
    ensures FindHookCall(repo, id, hook).path == ListHooksCall(repo, id).path + (Dec(hook) + "/")
  {
    var collection, i, h := ListCall(repo).path, Dec(id), Dec(hook);
    assert collection + (i + "/hooks/") == collection + (i + "/") + "hooks/";
    assert collection + (i + "/hooks/" + h + "/") == collection + (i + "/hooks/") + (h + "/");
  }

  /** Equal strings with a common prefix agree after it. */
  lemma DropPrefix(p: string, u: string, v: string)
    requires p + u == p + v
    ensures u == v
  {
    assert u == (p + u)[|p|..];
    assert v == (p + v)[|p|..];
  }

  /** Two slash-free segments, each followed by a '/' and anything, agree when the strings agree. */
  lemma SplitAtSlash(a: string, b: string, r: string, q: string)
    requires '/' !in a && '/' !in b
    requires |r| > 0 && r[0] == '/' && |q| > 0 && q[0] == '/'
    requires a + r == b + q
    ensures a == b && r == q
  {
    SlashEndsSegment(a, r);
    SlashEndsSegment(b, q);
    assert a == (a + r)[..|a|] == (b + q)[..|b|] == b;
    assert r == (a + r)[|a|..] == (b + q)[|b|..] == q;
  }

  /** Within one repository a webhook's path determines its id. */
  lemma WebhookPathDeterminesId(repo: string, a: int, b: int)
    requires FindCall(repo, a).path == FindCall(repo, b).path
    ensures a == b
  {
    var prefix := "v2/repositories/" + repo + "/webhooks/";
    assert FindCall(repo, a).path == prefix + (Dec(a) + "/");
    assert FindCall(repo, b).path == prefix + (Dec(b) + "/");
    DropPrefix(prefix, Dec(a) + "/", Dec(b) + "/");
    SplitAtSlash(Dec(a), Dec(b), "/", "/");
    DecInjective(a, b);
  }

  /** A hook path, regrouped as the collection path followed by the webhook id segment and the rest. */
  lemma HookPathParts(repo: string, id: int, hook: int)
    ensures FindHookCall(repo, id, hook).path == "v2/repositories/" + repo + "/webhooks/" + (Dec(id) + ("/hooks/" + (Dec(hook) + "/")))
  {
  }

  /** Within one repository a hook's path determines both the webhook id and the hook id. */
  lemma HookPathDeterminesIds(repo: string, a: int, h: int, b: int, k: int)
    requires FindHookCall(repo, a, h).path == FindHookCall(repo, b, k).path
    ensures a == b && h == k
  {
    var ta, tb := Dec(h) + "/", Dec(k) + "/";
    var ra, rb := "/hooks/" + ta, "/hooks/" + tb;
    HookPathParts(repo, a, h);
    HookPathParts(repo, b, k);
    DropPrefix("v2/repositories/" + repo + "/webhooks/", Dec(a) + ra, Dec(b) + rb);
    SplitAtSlash(Dec(a), Dec(b), ra, rb);
    DecInjective(a, b);
    DropPrefix("/hooks/", ta, tb);
    SplitAtSlash(Dec(h), Dec(k), "/", "/");
    DecInjective(h, k);
  }

  /** A delete succeeds on any 2xx response whatever its body, since it has no output. */
  lemma DeleteIgnoresBody<T>(dumpHook: bool, transport: Transport, repo: string, id: int, hook: int, env: Env<T>)
    requires !FailsBeforeSending(DeleteCall(repo, id), env) && env.sent.Received?
    requires IsSuccess(env.sent.reply.head.statusCode)
    requires !dumpHook || env.sent.reply.dumpFailure.None?
    ensures Execute(dumpHook, transport, DeleteCall(repo, id), env).err.None?
    ensures Execute(dumpHook, transport, DeleteHookCall(repo, id, hook), env).err.None?
  {
  }

  /** The end of List and ListHooks as written: Panic is the nil dereference of `res.Page`. */
  datatype ListTail<T> = Panic | Returned(results: seq<T>, page: Page, err: Option<DoError>)

  /**
   * The end of List and ListHooks after Do, as webhook.go writes it: the
   * output's page is stored into the envelope with no check that there is one.
   */
  function ListTailAsWritten<T>(o: Outcome<Listing<T>>): (r: ListTail<T>)
    ensures r.Panic? <==> o.envelope.NoEnvelope?
    ensures r.Returned? ==> r.err == o.err && r.page == ListingOf(o.out).page && r.results == ListingOf(o.out).results
  {
    if o.envelope.NoEnvelope? then Panic
    else Returned(ListingOf(o.out).results, ListingOf(o.out).page, o.err)
  }

  /**
   * A repository name whose path does not parse (for instance one holding an
   * invalid percent-escape such as "a%zz") makes Do return a nil *Response,
   * and List as written then dereferences it.
   */
  lemma ListPanicsWhenPathDoesNotParse<T>(dumpHook: bool, transport: Transport, repo: string, id: int, env: Env<Listing<T>>)
    requires env.resolved.Failure?
    ensures ListTailAsWritten(Execute(dumpHook, transport, ListCall(repo), env)).Panic?
    ensures ListTailAsWritten(Execute(dumpHook, transport, ListHooksCall(repo, id), env)).Panic?
  {
  }

  /** The list scenario: a 2xx reply listing two webhooks yields two results and a page count of 2. */
  lemma TwoWebhooksListed(dumpHook: bool, transport: Transport, repo: string, env: Env<Listing<Webhook>>, w1: Webhook, w2: Webhook)
    requires !FailsBeforeSending(ListCall(repo), env) && env.sent.Received? && !dumpHook
    requires env.sent.reply.head.statusCode == 200
    requires env.sent.reply.body == Ok(Listing(Page(2, None, None), [w1, w2]))
    ensures var o := Execute(dumpHook, transport, ListCall(repo), env);
      o.err.None? && |ListingOf(o.out).results| == 2 && ListingOf(o.out).page.count == 2
  {
  }

  method Find(s: Service, repo: string, id: int, env: Env<Webhook>) returns (out: Webhook, res: Response?, err: Option<DoError>)
    ensures var o := Execute(s.client.dumpHook, s.client.TransportOf(), FindCall(repo, id), env);
      Reports(o, res, err) && out == o.out.GetOr(ZeroWebhook)
    ensures res != null ==> fresh(res) && res.page == ZeroPage
  {
    var decoded;
    res, err, decoded := s.client.Do(FindCall(repo, id), env);
    out := decoded.GetOr(ZeroWebhook);
  }

  method FindHook(s: Service, repo: string, id: int, hook: int, env: Env<Hook>) returns (out: Hook, res: Response?, err: Option<DoError>)
    ensures var o := Execute(s.client.dumpHook, s.client.TransportOf(), FindHookCall(repo, id, hook), env);
      Reports(o, res, err) && out == o.out.GetOr(ZeroHook)
    ensures res != null ==> fresh(res) && res.page == ZeroPage
  {
    var decoded;
    res, err, decoded := s.client.Do(FindHookCall(repo, id, hook), env);
    out := decoded.GetOr(ZeroHook);
  }

  /**
   * List, with the nil check the as-written tail lacks: the page of the
   * decoded output (or the zero page) goes into the envelope when there is
   * one, and the results and Do's error are returned unchanged, error or not.
   */
  method List(s: Service, repo: string, env: Env<Listing<Webhook>>) returns (results: seq<Webhook>, res: Response?, err: Option<DoError>)
    ensures var o := Execute(s.client.dumpHook, s.client.TransportOf(), ListCall(repo), env);
      Reports(o, res, err) && results == ListingOf(o.out).results &&
      (res != null ==> fresh(res) && res.page == ListingOf(o.out).page)
  {
    var decoded;
    res, err, decoded := s.client.Do(ListCall(repo), env);
    var listing := ListingOf(decoded);
    if res != null {
      res.page := listing.page;
    }
    results := listing.results;
  }

  /** ListHooks, with the same nil check as List. */
  method ListHooks(s: Service, repo: string, id: int, env: Env<Listing<Hook>>) returns (results: seq<Hook>, res: Response?, err: Option<DoError>)
    ensures var o := Execute(s.client.dumpHook, s.client.TransportOf(), ListHooksCall(repo, id), env);
      Reports(o, res, err) && results == ListingOf(o.out).results &&
      (res != null ==> fresh(res) && res.page == ListingOf(o.out).page)
  {
    var decoded;
    res, err, decoded := s.client.Do(ListHooksCall(repo, id), env);
    var listing := ListingOf(decoded);
    if res != null {
      res.page := listing.page;
    }
    results := listing.results;
  }

  /**
   * Create. `input` is a pointer: even a nil one reaches Do as a non-nil
   * interface, so the call always has a body; `env.encoded` is what the
   * encoder made of it.
   */
  method Create(s: Service, repo: string, input: Option<WebhookInput>, env: Env<Webhook>) returns (out: Webhook, res: Response?, err: Option<DoError>)
    ensures var o := Execute(s.client.dumpHook, s.client.TransportOf(), CreateCall(repo), env);
      Reports(o, res, err) && out == o.out.GetOr(ZeroWebhook)
    ensures res != null ==> fresh(res) && res.page == ZeroPage
  {
    var decoded;
    res, err, decoded := s.client.Do(CreateCall(repo), env);
    out := decoded.GetOr(ZeroWebhook);
  }

  method CreateHook(s: Service, repo: string, id: int, input: Option<HookInput>, env: Env<Hook>) returns (out: Hook, res: Response?, err: Option<DoError>)
    ensures var o := Execute(s.client.dumpHook, s.client.TransportOf(), CreateHookCall(repo, id), env);
      Reports(o, res, err) && out == o.out.GetOr(ZeroHook)
    ensures res != null ==> fresh(res) && res.page == ZeroPage
  {
    var decoded;
    res, err, decoded := s.client.Do(CreateHookCall(repo, id), env);
    out := decoded.GetOr(ZeroHook);
  }

  method Update(s: Service, repo: string, id: int, input: Option<WebhookInput>, env: Env<Webhook>) returns (out: Webhook, res: Response?, err: Option<DoError>)
    ensures var o := Execute(s.client.dumpHook, s.client.TransportOf(), UpdateCall(repo, id), env);
      Reports(o, res, err) && out == o.out.GetOr(ZeroWebhook)
    ensures res != null ==> fresh(res) && res.page == ZeroPage
  {
    var decoded;
    res, err, decoded := s.client.Do(UpdateCall(repo, id), env);
    out := decoded.GetOr(ZeroWebhook);
  }

  method UpdateHook(s: Service, repo: string, id: int, hook: int, input: Option<HookInput>, env: Env<Hook>) returns (out: Hook, res: Response?, err: Option<DoError>)
    ensures var o := Execute(s.client.dumpHook, s.client.TransportOf(), UpdateHookCall(repo, id, hook), env);
      Reports(o, res, err) && out == o.out.GetOr(ZeroHook)
    ensures res != null ==> fresh(res) && res.page == ZeroPage
  {
    var decoded;
    res, err, decoded := s.client.Do(UpdateHookCall(repo, id, hook), env);
    out := decoded.GetOr(ZeroHook);
  }

  /** Delete: no body and no output; its Env's decode outcome is never consulted. */
  method Delete<T>(s: Service, repo: string, id: int, env: Env<T>) returns (res: Response?, err: Option<DoError>)
    ensures Reports(Execute(s.client.dumpHook, s.client.TransportOf(), DeleteCall(repo, id), env), res, err)
    ensures res != null ==> fresh(res) && res.page == ZeroPage
  {
    var ignored;
    res, err, ignored := s.client.Do(DeleteCall(repo, id), env);
  }

  method DeleteHook<T>(s: Service, repo: string, id: int, hook: int, env: Env<T>) returns (res: Response?, err: Option<DoError>)
    ensures Reports(Execute(s.client.dumpHook, s.client.TransportOf(), DeleteHookCall(repo, id, hook), env), res, err)
    ensures res != null ==> fresh(res) && res.page == ZeroPage
  {
    var ignored;
    res, err, ignored := s.client.Do(DeleteHookCall(repo, id, hook), env);
  }
}
