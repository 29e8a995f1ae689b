/**
 * The forwarding handler behind every `/api/<name>...` request: resolve the
 * name against the route table, build the target URL by literal
 * concatenation, make one outbound call, and turn its outcome into the
 * response sent back to the client.
 *
 * The outbound HTTP client is a parameter (`transport`): the handler is the
 * pure function from the route table, the inbound request and the
 * transport's behaviour to the requests it sends and the response it writes.
 */
module ApiProxy {
  import opened Options
  import opened Url

  /** The route table: API name to upstream base URL, read-only while serving. */
  type Routes = map<string, string>

  /** A request or response payload, relayed without inspection. */
  datatype Payload = Payload(raw: string)

  /** The argument of `res.json`: an upstream payload, or the proxy's own `{ error: ... }` object. */
  datatype Body = Relayed(data: Payload) | ErrorJson(error: string)

  /** What the handler writes back to the client. */
  datatype Response = Response(status: int, body: Body)

  /**
   * One inbound request, as routing has already taken it apart: the
   * `:apiName` segment, the star capture after it (undefined when the path
   * ends at the name), the query component of the parsed request URL, and
   * the request body (undefined when nothing parsed one).
   */
  datatype Inbound = Inbound(
    verb: string,
    apiName: string,
    capture: Option<string>,
    query: Option<string>,
    body: Option<Payload>)

  /** The configuration object handed to the HTTP client for the one outbound call. */
  datatype Outbound = Outbound(
    verb: string,
    url: string,
    headers: map<string, string>,
    data: Option<Payload>)

  /** An upstream answer: its status code and its payload. */
  datatype UpstreamResponse = UpstreamResponse(status: int, data: Payload)

  /**
   * The error the HTTP client rejects with: `response` is set when the
   * upstream answered, `requestSent` when a request left but nothing came back.
   */
  datatype TransportError = TransportError(response: Option<UpstreamResponse>, requestSent: bool)

  /** How the HTTP client's promise settles. */
  datatype Attempt = Fulfilled(response: UpstreamResponse) | Rejected(error: TransportError)

  /** Everything one request handling does: the outbound requests it sent, in order, and its response. */
  datatype Exchange = Exchange(sent: seq<Outbound>, response: Response)

  const NotFoundStatus: int := 404
  const BadGatewayStatus: int := 502
  const ProxyErrorStatus: int := 500

  const NotFoundPrefix: string := "API route '"
  const NotFoundSuffix: string := "' not found in configuration."
  const BadGatewayMessage: string := "Bad Gateway: No response from upstream server."
  const ProxyErrorMessage: string := "Internal Server Error while proxying."

  /** The error text of the 404 response for an unknown API name. */
  function NotFoundMessage(apiName: string): string {
    NotFoundPrefix + apiName + NotFoundSuffix
  }

  /** The 404 message names the route it could not find: distinct names give distinct messages. */
  lemma NotFoundMessageNamesRoute(a: string, b: string)
    requires NotFoundMessage(a) == NotFoundMessage(b)
    ensures a == b
  {
    var m := NotFoundMessage(a);
    var lo, hi := |NotFoundPrefix|, |m| - |NotFoundSuffix|;
    assert m[lo..hi] == a;
    assert NotFoundMessage(b)[lo..hi] == b;
  }

  /**
   * The base URL an API name resolves to. A name that is missing, or whose
   * configured value is the empty string (falsy), resolves to nothing.
   */
  function Resolve(routes: Routes, apiName: string): (r: Option<string>)
    ensures r.Some? <==> apiName in routes && routes[apiName] != []
    ensures r.Some? ==> r.value == routes[apiName] && r.value != []
  {
    if apiName in routes && routes[apiName] != [] then Some(routes[apiName]) else None
  }

  /** An empty configured value changes nothing compared with leaving the name out. */
  lemma EmptyBaseIsMissing(routes: Routes, apiName: string, other: string)
    requires apiName in routes && routes[apiName] == []
    ensures Resolve(routes, other) == Resolve(routes - {apiName}, other)
  {
  }

  /** The remaining path: the star capture, or "" when it is undefined or empty. */
  function RemainingPath(capture: Option<string>): string {
    capture.GetOr([])
  }

  /** The target URL: base, remaining path and search, concatenated with nothing inserted. */
  function TargetUrl(base: string, capture: Option<string>, search: string): (url: string)
    ensures |url| == |base| + |RemainingPath(capture)| + |search|
    ensures url[..|base|] == base
    ensures url[|base|..|base| + |RemainingPath(capture)|] == RemainingPath(capture)
    ensures url[|base| + |RemainingPath(capture)|..] == search
  {
    base + RemainingPath(capture) + search
  }

  /**
   * The server the target is sent to sees exactly the base and remaining
   * path before the query, and exactly the inbound search as its search, if
   * and only if neither the base nor the remaining path contains '?' or '#'
   * and the search contains no '#' (which would start a fragment that is
   * never sent).
   */
  lemma {:induction false} TargetPreservesQuery(base: string, capture: Option<string>, query: Option<string>)
    ensures var prefix := base + RemainingPath(capture);
            SplitAtQuery(TargetUrl(base, capture, Search(query))) == (prefix, Search(query))
            <==> '?' !in prefix && '#' !in prefix && '#' !in Search(query)
  {
    var prefix, search := base + RemainingPath(capture), Search(query);
    assert TargetUrl(base, capture, search) == prefix + search;
    if '?' in prefix || '#' in prefix {
      SplitBeforeBoundary(prefix, search);
    } else if '#' in search {
      SplitDropsFragment(prefix, search);
    } else {
      SplitAtBoundary(prefix, search);
    }
  }

  /**
   * A '#' in the remaining path (a decoded `%23`) turns the inbound search
   * into part of a fragment: the upstream sees the path up to '#' and no query.
   */
  lemma HashInPathHidesQuery()
    ensures SplitAtQuery(TargetUrl("http://u/v", Some("/a#b"), Search(Some("q=1")))) == ("http://u/v/a", "")
  {
    var t := TargetUrl("http://u/v", Some("/a#b"), Search(Some("q=1")));
    assert t == "http://u/v/a" + "#b?q=1";
    SplitAtFragment("http://u/v/a", "#b?q=1");
  }

  /**
   * For one base URL, the target determines the remaining path and the
   * search it was built from, as long as the base and both remaining paths
   * hold no '?'.
   */
  lemma {:induction false} TargetDeterminesParts(base: string, c1: Option<string>, q1: Option<string>, c2: Option<string>, q2: Option<string>)
    requires '?' !in base
    requires '?' !in RemainingPath(c1) && '?' !in RemainingPath(c2)
    requires TargetUrl(base, c1, Search(q1)) == TargetUrl(base, c2, Search(q2))
    ensures RemainingPath(c1) == RemainingPath(c2)
    ensures Search(q1) == Search(q2)
  {
    var r1, r2 := RemainingPath(c1), RemainingPath(c2);
    var s1, s2 := Search(q1), Search(q2);
    var t := TargetUrl(base, c1, s1);
    var n1, n2 := |base| + |r1|, |base| + |r2|;
    assert n1 == n2;
    assert r1 == t[|base|..n1] && r2 == t[|base|..n2];
  }

  /** The configured base is written out as it is: no slash is inserted, none is collapsed. */
  lemma TargetIsLiteral()
    ensures TargetUrl("https://x.test/svc", Some("/1"), "") == "https://x.test/svc/1"
    ensures TargetUrl("https://x.test/svc", Some("1"), "") == "https://x.test/svc1"
    ensures TargetUrl("https://x.test/svc/", Some("/1"), "?q=1") == "https://x.test/svc//1?q=1"
    ensures TargetUrl("https://x.test/svc", None, "?q=1") == "https://x.test/svc?q=1"
  {
  }

  /** The single outbound call: inbound method and body, the target URL, no headers. */
  function OutboundFor(inbound: Inbound, base: string): (out: Outbound)
    ensures out.verb == inbound.verb && out.data == inbound.body
    ensures out.headers == map[]
    ensures out.url == base + RemainingPath(inbound.capture) + Search(inbound.query)
  {
    Outbound(inbound.verb, TargetUrl(base, inbound.capture, Search(inbound.query)), map[], inbound.body)
  }

  /** The upstream's answer, whichever way the promise settled, if there was one. */
  function ReplyOf(attempt: Attempt): Option<UpstreamResponse> {
    match attempt
    case Fulfilled(r) => Some(r)
    case Rejected(e) => e.response
  }

  /**
   * The response for the outcome of the outbound call: an upstream answer is
   * relayed as it is; with no answer, 502 if a request went out and 500 if none did.
   */
  function Classify(attempt: Attempt): (r: Response)
    ensures ReplyOf(attempt).Some? ==>
              r == Response(ReplyOf(attempt).value.status, Relayed(ReplyOf(attempt).value.data))
    ensures ReplyOf(attempt).None? && attempt.error.requestSent ==>
              r == Response(BadGatewayStatus, ErrorJson(BadGatewayMessage))
    ensures ReplyOf(attempt).None? && !attempt.error.requestSent ==>
              r == Response(ProxyErrorStatus, ErrorJson(ProxyErrorMessage))
  {
    match attempt
    case Fulfilled(response) => Response(response.status, Relayed(response.data))
    case Rejected(error) =>
      if error.response.Some? then
        Response(error.response.value.status, Relayed(error.response.value.data))
      else if error.requestSent then
        Response(BadGatewayStatus, ErrorJson(BadGatewayMessage))
      else
        Response(ProxyErrorStatus, ErrorJson(ProxyErrorMessage))
  }

  /**
   * An upstream answer reaches the client the same way whether the client
   * library resolved with it (2xx) or rejected with it attached (any other
   * status), and whether or not the error also records a sent request.
   */
  lemma AnswerRelayedEitherWay(r: UpstreamResponse, requestSent: bool)
    ensures Classify(Fulfilled(r)) == Classify(Rejected(TransportError(Some(r), requestSent)))
    ensures Classify(Fulfilled(r)) == Response(r.status, Relayed(r.data))
  {
  }

  /**
   * The client sees the upstream's payload exactly when there was an upstream
   * answer; otherwise it sees one of the proxy's two fixed error objects.
   */
  lemma RelayedIffAnswered(attempt: Attempt)
    ensures Classify(attempt).body.Relayed? <==> ReplyOf(attempt).Some?
    ensures ReplyOf(attempt).None? ==>
              Classify(attempt).status in {BadGatewayStatus, ProxyErrorStatus}
  {
  }

  /**
   * Handles one request. The result lists the outbound requests made: none
   * when the API name does not resolve, exactly one otherwise.
   */
  function Handle(routes: Routes, inbound: Inbound, transport: Outbound -> Attempt): (x: Exchange)
    ensures |x.sent| <= 1
    ensures x.sent == [] <==> !(inbound.apiName in routes && routes[inbound.apiName] != [])
    ensures x.sent == [] ==>
              x.response == Response(NotFoundStatus, ErrorJson(NotFoundMessage(inbound.apiName)))
    ensures x.sent != [] ==>
              x.sent[0] == Outbound(inbound.verb,
                                    routes[inbound.apiName] + RemainingPath(inbound.capture) + Search(inbound.query),
                                    map[], inbound.body)
              && x.response == Classify(transport(x.sent[0]))
  {
    match Resolve(routes, inbound.apiName)
    case None =>
      Exchange([], Response(NotFoundStatus, ErrorJson(NotFoundMessage(inbound.apiName))))
    case Some(base) =>
      var out := OutboundFor(inbound, base);
      Exchange([out], Classify(transport(out)))
  }

  /**
   * A name configured with an empty base URL is handled exactly like a name
   * that is not configured at all, whatever the transport would do.
   */
  lemma EmptyBaseHandledAsMissing(routes: Routes, inbound: Inbound, transport: Outbound -> Attempt)
    requires inbound.apiName in routes && routes[inbound.apiName] == []
    ensures Handle(routes, inbound, transport) == Handle(routes - {inbound.apiName}, inbound, transport)
    ensures Handle(routes, inbound, transport).sent == []
  {
  }

  /**
   * For a resolved name, the status the client receives is the upstream's
   * whenever the upstream answered, 2xx or not.
   */
  lemma ResolvedRelaysUpstream(routes: Routes, inbound: Inbound, transport: Outbound -> Attempt)
    requires inbound.apiName in routes && routes[inbound.apiName] != []
    ensures var x := Handle(routes, inbound, transport);
            ReplyOf(transport(x.sent[0])).Some? ==>
              x.response.status == ReplyOf(transport(x.sent[0])).value.status
              && x.response.body == Relayed(ReplyOf(transport(x.sent[0])).value.data)
  {
  }

  /**
   * The handler keeps no state between requests: the response to a request
   * depends only on the route table and what the transport answers to the
   * one request built, so two transports that answer that request alike
   * produce the same exchange.
   */
  lemma HandleDependsOnlyOnSentRequest(routes: Routes, inbound: Inbound, t1: Outbound -> Attempt, t2: Outbound -> Attempt)
    requires forall o :: o in Handle(routes, inbound, t1).sent ==> t1(o) == t2(o)
    ensures Handle(routes, inbound, t1) == Handle(routes, inbound, t2)
  {
  }
}
