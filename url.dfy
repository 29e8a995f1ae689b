/**
 * The two pieces of URL structure the forwarding handler relies on: the
 * `search` getter of the WHATWG URL Standard (section 6.1, "URL class"),
 * which the handler uses to recover the inbound query string, and the way
 * the '?' and '#' delimiters divide a URL into the part before its query,
 * the search and a fragment that is never sent. Path normalisation and
 * percent-encoding by a URL parser are not part of this reading.
 */
module Url {
  import opened Options

  /** The shapes the `search` getter can return: empty, or '?' and a non-empty query. */
  predicate IsSearch(s: string) {
    s == [] || (|s| >= 2 && s[0] == '?')
  }

  /**
   * The `search` getter: empty when the URL's query is null or empty,
   * otherwise '?' followed by the query.
   */
  function Search(query: Option<string>): (s: string)
    ensures IsSearch(s)
    ensures s == [] <==> query == None || query == Some([])
    ensures s != [] ==> s[1..] == query.value
  {
    match query
    case None => []
    case Some(q) => if q == [] then [] else "?" + q
  }

  /** The position of the first character of `s` in `stops`, or |s| when there is none. */
  function FirstOf(s: string, stops: set<char>): (k: nat)
    ensures k <= |s|
    ensures forall i :: 0 <= i < k ==> s[i] !in stops
    ensures k < |s| ==> s[k] in stops
  {
    if s == [] || s[0] in stops then 0 else 1 + FirstOf(s[1..], stops)
  }

  /**
   * How a URL's delimiters divide it for the server it is sent to: the text
   * before the first '?' or '#' (scheme, authority and path), and the search
   * that is transmitted (from that '?' up to the first '#', or empty). A
   * fragment is never transmitted.
   */
  function SplitAtQuery(url: string): (r: (string, string))
    ensures |r.0| + |r.1| <= |url|
    ensures url[..|r.0|] == r.0
    ensures '?' !in r.0 && '#' !in r.0
    ensures r.1 == [] || (r.1[0] == '?' && '#' !in r.1)
    ensures r.1 != [] ==> url[|r.0|..|r.0| + |r.1|] == r.1
  {
    var k := FirstOf(url, {'?', '#'});
    var f := FirstOf(url, {'#'});
    assert k <= f;
    (url[..k], if k < |url| && url[k] == '?' then url[k..f] else [])
  }

  /** Skipping a text with no stop character moves the first stop by its length. */
  lemma {:induction false} FirstOfAfter(u: string, v: string, stops: set<char>)
    requires forall i :: 0 <= i < |u| ==> u[i] !in stops
    ensures FirstOf(u + v, stops) == |u| + FirstOf(v, stops)
  {
    if u != [] {
      assert (u + v)[0] == u[0];
      assert (u + v)[1..] == u[1..] + v;
      FirstOfAfter(u[1..], v, stops);
    } else {
      assert u + v == v;
    }
  }

  /** Text free of '?' and '#' followed by a fragment-free search splits exactly at their boundary. */
  lemma {:induction false} SplitAtBoundary(prefix: string, search: string)
    requires '?' !in prefix && '#' !in prefix
    requires search == [] || search[0] == '?'
    requires '#' !in search
    ensures SplitAtQuery(prefix + search) == (prefix, search)
  {
    var s := prefix + search;
    assert forall i :: 0 <= i < |prefix| ==> prefix[i] !in {'?', '#'};
    FirstOfAfter(prefix, search, {'?', '#'});
    FirstOfAfter(prefix, search, {'#'});
    assert FirstOf(search, {'?', '#'}) == 0;
    assert FirstOf(search, {'#'}) == |search|;
    assert s[..|prefix|] == prefix;
    assert s[|prefix|..|s|] == search;
  }

  /** When '?' or '#' occurs in the leading text, the split falls inside it. */
  lemma {:induction false} SplitBeforeBoundary(prefix: string, search: string)
    requires '?' in prefix || '#' in prefix
    ensures |SplitAtQuery(prefix + search).0| < |prefix|
  {
    var s := prefix + search;
    var i :| 0 <= i < |prefix| && prefix[i] in {'?', '#'};
    assert s[i] in {'?', '#'};
    var k := FirstOf(s, {'?', '#'});
    assert k <= i;
  }

  /** A '#' right after text free of '?' and '#' leaves no search: the rest is a fragment. */
  lemma {:induction false} SplitAtFragment(prefix: string, rest: string)
    requires '?' !in prefix && '#' !in prefix
    requires rest != [] && rest[0] == '#'
    ensures SplitAtQuery(prefix + rest) == (prefix, [])
  {
    var s := prefix + rest;
    assert forall i :: 0 <= i < |prefix| ==> prefix[i] !in {'?', '#'};
    FirstOfAfter(prefix, rest, {'?', '#'});
    assert FirstOf(rest, {'?', '#'}) == 0;
    assert s[|prefix|] == '#';
    assert s[..|prefix|] == prefix;
  }

  /** A '#' inside the search cuts off what follows it: the transmitted search is shorter. */
  lemma {:induction false} SplitDropsFragment(prefix: string, search: string)
    requires '?' !in prefix && '#' !in prefix
    requires search != [] && search[0] == '?'
    requires '#' in search
    ensures |SplitAtQuery(prefix + search).1| < |search|
  {
    var s := prefix + search;
    var k, f := FirstOf(s, {'?', '#'}), FirstOf(s, {'#'});
    assert forall i :: 0 <= i < |prefix| ==> s[i] == prefix[i];
    assert s[|prefix|] == search[0];
    assert k == |prefix|;
    var j :| 0 <= j < |search| && search[j] == '#';
    assert s[|prefix| + j] == '#';
    assert f <= |prefix| + j;
  }
}
