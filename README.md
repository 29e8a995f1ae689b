# API forwarding proxy — Dafny model

This project models the request handler of a small configuration-driven HTTP
proxy. Every request under `/api/<name>...` is looked up by `<name>` in a route
table that maps API names to upstream base URLs. An unknown name gets a 404. For
a known name the handler builds the target URL by plain concatenation
(`base + remainingPath + search`), makes one outbound call with the inbound
method and whatever `req.body` holds, and relays the upstream's status and payload. When there is no
upstream answer it returns 502 if a request went out and 500 if none did.

Files:

- `options.dfy` (module `Options`): an optional value. It stands for a
  JavaScript value that may be `undefined`.
- `url.dfy` (module `Url`): two pieces of URL structure from the WHATWG URL
  Standard. `Search` is the `search` getter of the `URL` class (section 6.1).
  `SplitAtQuery` reads a URL's delimiters: the text before the first `?` or
  `#`, and the search from that `?` up to the first `#`. A fragment is never
  sent. `SplitAtQuery` is the reference reading that the target URL is checked
  against. It does not normalise paths (see "## Left out").
- `proxy.dfy` (module `ApiProxy`): the handler. `Handle` is a pure function. It
  takes the route table, the inbound request (already split by routing into
  method, API name, star capture, query and body) and the HTTP client's
  behaviour, given as a function from the outbound request to how the client's
  promise settles. It returns the list of outbound requests made (zero or one)
  and the response written. This makes "no outbound call on a 404" and "exactly
  one attempt, no retry" statable.

The client's promise is modelled as `Attempt`: either `Fulfilled(response)`,
the success path, or `Rejected(TransportError(response, requestSent))`, the
error object whose `response` and `request` fields the handler tests in that
order. Because a rejection can carry both a response and a sent request, the
model shows that the response wins.

The route table is a `map<string, string>`. A name whose configured value is the
empty string is falsy in JavaScript and is treated as missing.

One might expect base `https://x.test/svc` with path `/api/n/1` to give
`https://x.test/svc1`. It does not. The code comment (server.js:37) says `/1` is
appended, and the Express star capture after `:apiName` keeps its leading `/`,
so the target is `https://x.test/svc/1`. `TargetIsLiteral` works through
examples of both shapes. The concatenation is literal in both.

Express decodes the star capture, so a `%23` in the request path reaches the
target as `#`. The part of the target after it, the inbound query included, is
then a fragment that is never sent. `HashInPathHidesQuery` shows one such case.

Because `Handle` is a function of its inputs, two identical requests with the
same upstream behaviour get identical responses; no state is carried between
requests. `HandleDependsOnlyOnSentRequest` states this.

## Model

| member | source | states |
|---|---|---|
| `Url.Search` | server.js:39 | the query string taken from the request URL is empty when the query is absent or empty, and otherwise `?` followed by the query |
| `ApiProxy.NotFoundMessageNamesRoute` | server.js:33 | the 404 error text names the unresolved API name: two different names never give the same message |
| `ApiProxy.Resolve` | server.js:30-32 | a name resolves exactly when it is in the table and its configured base URL is non-empty, and then to that base URL |
| `ApiProxy.EmptyBaseIsMissing` | server.js:32 | an empty configured value resolves every name just as if the entry were deleted from the table |
| `ApiProxy.EmptyBaseHandledAsMissing` | server.js:30-34 | a name configured with an empty base gives the same exchange as an unconfigured name: a 404 and no outbound request |
| `ApiProxy.TargetUrl` | server.js:38-40 | the target URL is the base, then the remaining path (empty when there is no capture), then the search, each found at its own offset with nothing inserted |
| `ApiProxy.TargetPreservesQuery` | server.js:36-40 | under the `?`/`#` reading of `SplitAtQuery`, the target splits into exactly base-plus-remaining-path and the inbound search if and only if neither base nor remaining path contains `?` or `#` and the search contains no `#` |
| `ApiProxy.HashInPathHidesQuery` | server.js:38-40 | example: a remaining path `/a#b` with query `q=1` gives a target whose query is cut off as a fragment |
| `ApiProxy.TargetDeterminesParts` | server.js:36-40 | for a fixed base URL, when the base and both remaining paths contain no `?`, the target URL determines the remaining path and the search it was built from |
| `ApiProxy.TargetIsLiteral` | server.js:37-40 | worked examples: a base with and without a trailing `/`, and a capture with and without a leading `/`, concatenate with nothing inserted and nothing collapsed |
| `ApiProxy.OutboundFor` | server.js:46-54 | the outbound request carries the inbound method and `req.body` unchanged, the target URL, and an empty header set |
| `ApiProxy.Classify` | server.js:56-73 | an upstream answer is relayed with its status and payload; with no answer, a sent request gives 502 with the Bad Gateway message and no request gives 500 with the proxy error message |
| `ApiProxy.AnswerRelayedEitherWay` | server.js:57-66 | an upstream answer reaches the client identically whether the client resolved with it (2xx) or rejected with it attached (any other status), even when the error also records a sent request |
| `ApiProxy.RelayedIffAnswered` | server.js:63-73 | the client gets the upstream's payload if and only if there was an upstream answer; otherwise the status is 502 or 500 |
| `ApiProxy.Handle` | server.js:26-75 | at most one outbound request; none exactly when the name does not resolve, and then a 404 naming it; otherwise one request with the inbound method and body, the URL `base + remainingPath + search` and no headers, answered by classifying the transport's outcome for that request |
| `ApiProxy.ResolvedRelaysUpstream` | server.js:44-66 | for a resolved name, whenever the upstream answers with any status, the client receives that status and payload verbatim |
| `ApiProxy.HandleDependsOnlyOnSentRequest` | server.js:26-75 | the exchange depends only on the route table, the inbound request and the transport's answer to the one request sent, so no state is carried between requests |

## Left out

- Loading the route table (`fs.readFileSync`, `JSON.parse`, `process.exit` on failure, server.js:10-19): file I/O and process control. The table is an input.
- Static file serving and `app.listen` with the `PORT` default (server.js:6, 22, 78-80): framework and network plumbing.
- The HTTP client itself (axios, server.js:46-54): it is the `transport` parameter. Its 2xx-resolves/otherwise-rejects rule, timeouts and connection behaviour belong to it.
- Console logging (server.js:14-15, 17, 42, 61): it has no effect on the response.
- Express route matching of `/api/:apiName*` and the decoding of its parameters, and WHATWG parsing of `req.originalUrl` against the Host header (server.js:27, 38-39): the API name, star capture and query component are inputs. The `new URL` call sits outside the `try`, so a parse failure there escapes the handler; that path is not modelled.
- JSON re-encoding of payloads by the HTTP client and by `res.json`: payloads are opaque values passed through unchanged.
- Request bodies: no body-parsing middleware is installed, so Express leaves `req.body` undefined. The model keeps `Inbound.body` as an optional value passed through to the outbound request. In this server only `body == None` arises, so an inbound POST or PUT body never reaches the upstream.
- URL normalisation by the HTTP client's URL parser (dot segments such as `/../`, percent-encoding, host case): `SplitAtQuery` only reads the `?` and `#` delimiters, so the path the upstream receives may differ from the one `TargetPreservesQuery` names.
- Prototype-chain lookups on the configuration object (for example the name `constructor` finds an inherited property in JavaScript): a Dafny map has only the keys put in it, so such names resolve to nothing in the model.
- Configuration values that are not strings (numbers, `null`, objects from the JSON file) and their JavaScript truthiness: the table maps strings to strings.
- An invalid status code passed to `res.status` (the server's HTTP layer rejects codes outside 100-999): statuses are relayed as integers without that check.
