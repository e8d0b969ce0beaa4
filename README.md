# go-dockerhub request pipeline, modelled in Dafny

This project models the core of a Go client for the Docker Hub REST API:

- **the request executor** `Client.Do`: parse the path, encode the body, build the request, send it, run the dump hook, classify the status, decode the body;
- **`NewClient`**: normalises the base URL's path so that it ends in `/`;
- **the bearer-token transport** `JWTAuthTransport`: `RoundTrip` and `Base`;
- **`AuthService.Login`**: installs the token transport on the client's `http.Client`;
- **the path builders** of `WebhookService` and `RepositoryService`.

The collaborators Do relies on are not modelled. These are `url.Parse`, the JSON encoder and decoder, the HTTP send and the optional `DumpResponse` hook. Their outcome for one call is an input record, `Client.Env`:
- the resolved URL or a parse error;
- the encoded body or an encode error;
- a request-creation error, if any;
- the send outcome: a failure, or a reply.

A reply holds:
- the status line;
- an optional dump failure;
- the body decoded as a raw JSON value (used for API errors);
- the body decoded into the caller's output, as Ok, Eof or Malformed.

`Client.Execute` is the decision procedure over these outcomes. `Client.Client.Do` is the staged, early-return method, proved equal to it.

A transport is a datatype:
- `Nil`: the nil interface;
- `Default`: `http.DefaultTransport`;
- `Opaque(id)`: a transport the caller installed;
- `Jwt(JwtAuthTransport(base, token))`.

`Transport.Deliver` follows a request through a chain of transports to the non-auth transport that sends it. `Execute` records the request as it leaves that chain. This is how the model states that a call made after a login carries `Authorization: JWT <token>`.

The client (`Client.Client`), its `http.Client` (`Client.HttpClient`), the shared service (`Client.Service`) and the returned `*Response` (`Client.Response`) are classes. `Login` and `List` update their fields in place.

Files:
- `wrappers.dfy`: Option and Result.
- `text.dfy`: prefix and suffix helpers.
- `decimal.dfy`: `%d` and its inverse.
- `urls.dfy`: base-path normalisation and relative resolution.
- `http.dfy`: headers and requests.
- `transport.dfy`: `auth.go`'s transport.
- `client.dfy`: `client.go`.
- `auth.dfy`: `Login`.
- `webhooks.dfy` and `repositories.dfy`: `webhook.go` and `repo.go`.

Two behaviours of the code worth noting:
- A failed dump hook is its own error, `dumping response: …`. It is not reported as a decode error.
- A failure before sending (path parse, body encode, request creation) returns a nil `*Response`, with no envelope.

## Model

| member | source | states |
|---|---|---|
| Decimal.Digits | dockerhub/webhook.go:40 | The digits of a natural number: non-empty, all decimal digits, a leading zero only for 0, a single digit exactly below 10. |
| Decimal.Dec | dockerhub/webhook.go:40 | `%d` of an int is non-empty and contains no `/`. It is all digits exactly when the number is non-negative. |
| Decimal.ParseDigitsOfDigits | dockerhub/webhook.go:40 | Reading back the digits of n gives n. |
| Decimal.DecRoundTrip | dockerhub/webhook.go:40 | Parse inverts `%d` on every int. |
| Decimal.DecInjective | dockerhub/webhook.go:47 | Distinct ids are written as distinct strings. |
| Urls.Normalize | dockerhub/client.go:53-55 | The normalised base path ends with `/`, extends the parsed path by at most one character, and is unchanged if it already ended with `/`. |
| Urls.NormalizeIdempotent | dockerhub/client.go:53-55 | Normalising twice is normalising once. |
| Urls.Directory | dockerhub/client.go:71 | The part of a base path that a relative reference is appended to: a prefix of it, ending in `/` or empty, with no `/` after it (section 5.2.3 of RFC 3986). |
| Urls.ResolveUnderNormalizedBase | dockerhub/client.go:53-55 | After normalisation, resolving any relative path yields the base path followed by that path. |
| Urls.ResolvePath | dockerhub/client.go:71 | The path part of `BaseURL.Parse(path)` for a path-only reference (sections 5.2.2 and 5.2.3 of RFC 3986). An empty reference keeps the base path. An absolute one replaces it. A relative one ends the result, after the longest prefix of the base path that ends in `/` (or after `/` when the base path is empty). |
| Urls.UnnormalizedBaseLosesSegment | dockerhub/client.go:71 | Without the trailing `/`, a non-empty relative path is appended to a directory strictly shorter than the base path. The last segment of the base path is lost. |
| Http.Get | dockerhub/auth.go:28 | `Header.Get` is the first value stored under the key, or `""` when the key is missing or has no values. A non-empty result is one of the key's values. |
| Http.Set | dockerhub/auth.go:35 | `Header.Set` makes the key's values exactly `[value]` and leaves every other key as it was. |
| Transport.JwtAuthTransport.Base | dockerhub/auth.go:43-45 | `Base` exposes the wrapped transport, which has exactly one auth layer fewer. |
| Transport.JwtAuthTransport.RoundTrip | dockerhub/auth.go:27-41 | A request with an Authorization header is forwarded unchanged. Otherwise the forwarded copy has Authorization exactly `[JWT <token>]`, the same other headers, and the same method, URL and body. The next hop is the base, and `http.DefaultTransport` when the base is nil. (This is the corrected pass-through branch; see Findings.) |
| Transport.JwtAuthTransport.RoundTripAsWritten | dockerhub/auth.go:27-41 | As written, a round trip fails exactly when the request already carries Authorization and the base is nil. In every other case it agrees with `RoundTrip`. |
| Transport.PassThroughWithoutBaseFails | dockerhub/auth.go:28-30 | A JWTAuthTransport with a nil base fails on a request that carries its own Authorization header. The corrected version sends it to the default transport instead. |
| Transport.Innermost | dockerhub/auth.go:62-65 | The transport under all auth layers is not an auth transport. |
| Transport.Deliver | dockerhub/client.go:95-100 | A request sent through a transport chain reaches the chain's innermost non-auth transport, so a caller's own transport is kept. That is the default transport when the innermost one is nil. A caller-supplied Authorization header survives unchanged. Otherwise the outermost auth layer's `JWT <token>` is the only Authorization value that arrives. Every other header and the method, URL and body arrive unchanged. Without an auth layer the request arrives as built. Each auth layer is passed with the corrected `RoundTrip`. As written, a layer with a nil base panics on a request that already carries Authorization (see Findings). |
| Client.Message | dockerhub/client.go:72-120 | Each error text is its stage's prefix immediately followed by its cause, with nothing in between: `parsing "<path>": `, `encoding request body: `, `creating request: `, `sending request: `, `dumping response: ` and `decoding response body: `. An API error reads `<Status>: <raw body>`. |
| Client.NewRequest | dockerhub/client.go:86-92 | The built request has the given method, URL and body. Its header holds exactly `Content-Type: application/json` when there is a body, and no header at all otherwise, so in particular no Authorization. |
| Client.Execute | dockerhub/client.go:70-125 | Failures before the send return a nil Response, an error and nothing sent. A send failure returns an envelope with the client's partial response and a `sending request` error. A received response is always in the envelope. A failed dump hook takes precedence over the status. A status outside [200,299] is always an API error whose `Error()` text is the raw body (or empty), reading `<Status>: <raw body>` once wrapped. The error is nil exactly for a 2xx reply that passed the dump hook and whose body was not malformed for a non-nil `out`, so an empty body is not an error. The stages before the send are checked in order: a path parse failure gives `parsing` with the call's path and the parser's cause; otherwise an encode failure, consulted only when there is an `in`, gives `encoding request body` with its cause; otherwise a request-creation failure gives `creating request` with its cause. The error is an API error exactly for a non-2xx reply that passed the dump hook. It is a `decoding response body` error, carrying the decoder's cause, exactly for a 2xx reply that passed the dump hook and whose body is malformed (not EOF) for a non-nil `out`. The output is written exactly on success with a decoded value. The request on the wire has the call's method, the resolved URL and the encoded body, with Content-Type JSON exactly when there is a body. |
| Client.NotFoundCarriesBody | dockerhub/client.go:112-116 | A 404 with body `{"detail":"not found"}` returns the 404 envelope and an API error whose text ends with that body. |
| Client.Client.Do | dockerhub/client.go:70-125 | The staged method returns the envelope, error and output `Execute` describes. A returned Response is fresh, with a zero Page. |
| Client.NewClient | dockerhub/client.go:48-63 | A parse failure gives no client and `parsing "<uri>": <cause>`. Otherwise the client is fresh, its base URL is the parsed one with a normalised path, it has no `http.Client`, and Auth and Webhooks are one fresh service whose client is the new client. |
| Client.WithTrailingSlash | dockerhub/client.go:53-55 | Appending `/` to the base path unless it already ends with one yields the normalised path. Scheme and host are untouched. |
| Client.NewDefaultClient | dockerhub/client.go:65-68 | The default client targets `https://hub.docker.com/`, whose path `/` needs no change. |
| Auth.LoginCall | dockerhub/auth.go:53-55 | Login posts a body to the relative directory path `v2/users/login/` and decodes an output. |
| Auth.Install | dockerhub/auth.go:62-69 | The installed transport is a JWTAuthTransport holding the new token. It has the same innermost transport. It stacks no new layer over an auth transport. From at most one layer, the result has exactly one layer, whose `Base()` is the innermost transport. |
| Auth.RepeatedLoginsNeverNest | dockerhub/auth.go:62-69 | Any run of successful logins, starting from at most one auth layer, leaves exactly one layer. That layer holds the last token around the original non-auth transport. |
| Auth.AuthenticatedRequestsCarryToken | dockerhub/auth.go:66-69 | After a token is installed, every request the client sends carries `Authorization: JWT <token>`. |
| Auth.LoginThenCallCarriesToken | dockerhub/auth.go:49-71 | A 200 login reply with token `abc123` succeeds. A later call then carries `Authorization: JWT abc123`. |
| Auth.EmptyLoginReplyInstallsEmptyToken | dockerhub/auth.go:54-60 | A 2xx login reply with an empty body is a success, and the token installed is empty. |
| Auth.Login | dockerhub/auth.go:49-71 | Returns Do's envelope and error. On error, the client's `http.Client` and its Transport are unchanged. On success, a missing `http.Client` is replaced by a fresh one, an existing one is kept (and mutated in place), and its Transport becomes `Install(previous, token)`. |
| Webhooks.FindCall | dockerhub/webhook.go:39-44 | Find is a GET with no body and an output, under the repository's webhooks path, relative and ending in `/`. |
| Webhooks.FindHookCall | dockerhub/webhook.go:46-51 | FindHook is a GET with no body and an output, under the webhooks path. |
| Webhooks.ListCall | dockerhub/webhook.go:53-54 | List is a GET with no body and an output, at the webhooks path. |
| Webhooks.ListHooksCall | dockerhub/webhook.go:64-65 | ListHooks is a GET with no body and an output, under the webhooks path. |
| Webhooks.CreateCall | dockerhub/webhook.go:75-78 | Create is a POST with a body and an output, at the webhooks path. |
| Webhooks.CreateHookCall | dockerhub/webhook.go:82-85 | CreateHook is a POST with a body and an output, under the webhooks path. |
| Webhooks.UpdateCall | dockerhub/webhook.go:89-92 | Update is a PATCH with a body and an output, under the webhooks path. |
| Webhooks.UpdateHookCall | dockerhub/webhook.go:96-99 | UpdateHook is a PATCH with a body and an output, under the webhooks path. |
| Webhooks.DeleteCall | dockerhub/webhook.go:103-105 | Delete is a DELETE with neither body nor output, under the webhooks path. |
| Webhooks.DeleteHookCall | dockerhub/webhook.go:108-110 | DeleteHook is a DELETE with neither body nor output, under the webhooks path. |
| Webhooks.SharedPaths | dockerhub/webhook.go:40-109 | Find, Update and Delete share a path. So do List and Create, ListHooks and CreateHook, and FindHook, UpdateHook and DeleteHook. |
| Webhooks.NestedPaths | dockerhub/webhook.go:40-83 | A webhook path is the collection path plus `<id>/`. Its hooks path adds `hooks/`, and a hook path adds `<hook>/` after that. |
| Webhooks.WebhookPathDeterminesId | dockerhub/webhook.go:40 | Within one repository, equal webhook paths mean equal ids. |
| Webhooks.HookPathDeterminesIds | dockerhub/webhook.go:47 | Within one repository, equal hook paths mean equal webhook ids and equal hook ids. |
| Webhooks.DeleteIgnoresBody | dockerhub/webhook.go:103-111 | For any repository, webhook id and hook id, Delete and DeleteHook return a nil error on any 2xx reply that passes the dump hook, whatever the body. |
| Webhooks.ListTailAsWritten | dockerhub/webhook.go:59-61 | As written, the end of List fails exactly when Do returned a nil Response. Otherwise it returns the decoded results, the decoded page and Do's error. |
| Webhooks.ListPanicsWhenPathDoesNotParse | dockerhub/webhook.go:59-60 | When the list path does not parse, List and ListHooks as written dereference a nil Response. |
| Webhooks.TwoWebhooksListed | dockerhub/webhook.go:53-62 | A 200 reply listing two webhooks with count 2 gives no error, two results and a page count of 2. |
| Webhooks.Find | dockerhub/webhook.go:39-44 | Returns the decoded webhook (or the zero one) and Do's envelope and error unchanged. |
| Webhooks.FindHook | dockerhub/webhook.go:46-51 | Returns the decoded hook (or the zero one) and Do's envelope and error unchanged. |
| Webhooks.List | dockerhub/webhook.go:53-62 | Returns the decoded results and Do's error, even on error. The decoded page (or the zero page) is stored in the envelope when there is one. (Corrected; see Findings.) |
| Webhooks.ListHooks | dockerhub/webhook.go:64-73 | The same as List, for the hooks of one webhook. |
| Webhooks.Create | dockerhub/webhook.go:75-80 | Returns the decoded webhook (or the zero one) and Do's envelope and error. The body is always sent, even for a nil input pointer. |
| Webhooks.CreateHook | dockerhub/webhook.go:82-87 | Returns the decoded hook (or the zero one) and Do's envelope and error. |
| Webhooks.Update | dockerhub/webhook.go:89-94 | Returns the decoded webhook (or the zero one) and Do's envelope and error. |
| Webhooks.UpdateHook | dockerhub/webhook.go:96-101 | Returns the decoded hook (or the zero one) and Do's envelope and error. |
| Webhooks.Delete | dockerhub/webhook.go:103-106 | Returns Do's envelope and error unchanged. |
| Webhooks.DeleteHook | dockerhub/webhook.go:108-111 | Returns Do's envelope and error unchanged. |
| Repositories.FindCall | dockerhub/repo.go:58-61 | Find is a GET with no body and an output, at a relative path ending in `/` under `v2/repositories/<repo>`. |
| Repositories.FindTagCall | dockerhub/repo.go:65-68 | FindTag is a GET with no body and an output, at a relative path ending in `/` under the repository's path. |
| Repositories.WebhooksUnderRepository | dockerhub/repo.go:59 | The webhooks collection path lies under the repository path. |
| Repositories.UnescapedRepositoryName | dockerhub/repo.go:59 | The repository name is not escaped. Looking up the repository `<r>/webhooks/<id>/hooks` requests the hook list of webhook `<id>` of `<r>`. |
| Repositories.Find | dockerhub/repo.go:58-63 | Returns the decoded repository (or the zero one) and Do's envelope and error unchanged, error or not. |
| Repositories.FindTag | dockerhub/repo.go:65-70 | Returns the decoded tag (or the zero one) and Do's envelope and error unchanged, error or not. |

## Left out

- Concurrency: `Login`'s mutex and `context` cancellation are not modelled. `Login` is a sequential method, and a cancelled call is just a send failure.
- `url.Parse` and `URL.Parse` are not modelled: Do takes the resolved URL or the parser's error as input. `Urls.ResolvePath` covers only the path-merging step of relative resolution, without dot-segment removal.
- JSON encoding and decoding (including `SetEscapeHTML(false)`) are outcomes given to Do, so no JSON round trip is stated.
- `Client.Execute`: a Malformed decode leaves the output untouched. Go's decoder can partly fill a struct before reporting a type mismatch.
- `Client.Message`: the `parsing %q` text quotes the path without Go's escaping of quotes and non-printable characters.
- `Client.NewClient`: the same `%q` simplification applies to its parse error. Only the path of the base URL is modelled; scheme and host are carried through unchanged.
- The `DumpResponse` hook is modelled only as "set or not" plus an optional failure per reply. What it reads is not modelled.
- Response bodies as streams (the body is consumed by decoding) and the `*http.Response` fields other than `StatusCode` and `Status` are not modelled.
- `Auth.AuthenticatedRequestsCarryToken` and `Auth.LoginThenCallCarriesToken` hold only for a base URL without userinfo. URL userinfo, which `BaseURL.Parse` keeps, is not modelled. Neither is the `Authorization: Basic …` header that net/http's client then sets before calling the transport. With such a URL the JWT layer passes the request through with the Basic header, or, as written, panics when its base is nil.
- Header keys are assumed to be in canonical form. `Header.Get` and `Set` do not canonicalise keys as `net/http` does.
- A caller-supplied transport that implements `AuthTransport` itself is not modelled. `Opaque` transports never expose a base, so `Login` unwraps only `JWTAuthTransport` layers.
- Ids are unbounded integers, so the 64-bit width of Go's `int` is not modelled. It has no effect on `%d`.
- The `time.Time` fields and JSON tags of `Webhook`, `Hook`, `Repository` and `Tag` are not modelled, and the input arguments of Create/Update are carried but not inspected. Their encoding is the Env's `encoded` outcome.
- `Client` has no `Repositories` field, so `RepositoryService` is reached only by viewing the shared service as one. The repository's two example command-line programs are not part of this model.

## Findings

| source | as written | input that shows it | evidently intended | confidence | as-written member | corrected member |
|---|---|---|---|---|---|---|
| dockerhub/auth.go:28-30 | When the request already has an Authorization header, RoundTrip calls `t.Base().RoundTrip` with no nil check. | A JWTAuthTransport with a nil base, as `Login` installs on a client whose `http.Client` was nil, and a request whose Authorization header is already set. Calling a method on the nil interface panics. | Fall back to `http.DefaultTransport`, as the injection branch (lines 36-39) does. | not executed; high | Transport.JwtAuthTransport.RoundTripAsWritten, Transport.PassThroughWithoutBaseFails | Transport.JwtAuthTransport.RoundTrip |
| dockerhub/webhook.go:59-60 | List (and ListHooks at lines 70-71) assigns `res.Page` without checking `res`. | Repository name `a%zz`: the invalid percent-escape makes `BaseURL.Parse` fail, so Do returns a nil `*Response` and the assignment dereferences nil. | Return Do's error and leave the missing envelope alone. | not executed; high | Webhooks.ListTailAsWritten, Webhooks.ListPanicsWhenPathDoesNotParse | Webhooks.List, Webhooks.ListHooks |
