/**
 * Query strings appended to links: getOpUrl, and the service's
 * GenURLQueryString used after a link that may already carry a query.
 */
module Urls {
  import opened Wrappers

  /** One `key=value` pair of http_build_query, without percent-encoding. */
  function Pair(p: (string, string)): string {
    p.0 + "=" + p.1
  }

  /** http_build_query: the pairs in map order, joined by `&`. */
  function BuildQuery(options: seq<(string, string)>): (q: string)
    ensures options == [] <==> q == []
  {
    if options == [] then ""
    else if |options| == 1 then Pair(options[0])
    else Pair(options[0]) + "&" + BuildQuery(options[1..])
  }

  /**
   * getOpUrl: nothing is added for missing (non-array) or empty options;
   * otherwise `?` when the link has no query yet and `&` when it has one,
   * then the encoded options.
   */
  function GetOpUrl(url: string, options: Option<seq<(string, string)>>): (r: string)
    ensures url <= r
    ensures options.None? || options.value == [] ==> r == url
    ensures options.Some? && options.value != [] ==>
              |r| > |url| && r[|url|] == (if '?' in url then '&' else '?')
              && r[|url| + 1..] == BuildQuery(options.value)
    ensures options.Some? && options.value != [] ==> '?' in r
  {
    if options.Some? && |options.value| > 0 then
      var sep := if '?' in url then "&" else "?";
      var r := url + sep + BuildQuery(options.value);
      assert r[|url|] == sep[0];
      assert r[|url| + 1..] == BuildQuery(options.value);
      r
    else url
  }

  /**
   * GenURLQueryString: `&` and the decoded query for non-empty options,
   * otherwise nothing (a PHP null, which appends as the empty string).
   */
  function GenUrlQueryString(options: seq<(string, string)>): (r: string)
    ensures options == [] <==> r == ""
    ensures r != "" ==> r[0] == '&' && r[1..] == BuildQuery(options)
  {
    if |options| > 0 then "&" + BuildQuery(options) else ""
  }

  /**
   * Appending GenURLQueryString gives what getOpUrl gives exactly when the
   * link already has a query; on a link without one it puts `&` where `?`
   * belongs.
   */
  lemma QueryBuildersAgree(url: string, options: seq<(string, string)>)
    requires options != []
    ensures url + GenUrlQueryString(options) == GetOpUrl(url, Some(options)) <==> '?' in url
  {
    var r := url + GenUrlQueryString(options);
    assert r[|url|] == '&';
    if '?' in url {
      assert r == url + "&" + BuildQuery(options);
    }
  }

  // ---- reading the query back ----

  /** The text before the first `c`, and whether there is a `c`. */
  function IndexOf(s: string, c: char): (i: int)
    ensures -1 <= i < |s|
    ensures i >= 0 ==> s[i] == c && c !in s[..i]
    ensures i < 0 ==> c !in s
  {
    if s == [] then -1
    else if s[0] == c then 0
    else
      var j := IndexOf(s[1..], c);
      if j < 0 then -1 else j + 1
  }

  /** Splits `s` at every `c`. */
  function Split(s: string, c: char): (parts: seq<string>)
    ensures |parts| >= 1
    decreases |s|
  {
    var i := IndexOf(s, c);
    if i < 0 then [s] else [s[..i]] + Split(s[i + 1..], c)
  }

  function ParsePair(s: string): (string, string) {
    var i := IndexOf(s, '=');
    if i < 0 then (s, "") else (s[..i], s[i + 1..])
  }

  /** Reads a query string back into its pairs. */
  function ParseQuery(q: string): seq<(string, string)> {
    if q == "" then [] else
      var parts := Split(q, '&');
      seq(|parts|, i requires 0 <= i < |parts| => ParsePair(parts[i]))
  }

  /** Keys free of `&` and `=`, values free of `&`: what the unencoded query can carry. */
  predicate Plain(options: seq<(string, string)>) {
    forall i :: 0 <= i < |options| ==>
      '&' !in options[i].0 && '=' !in options[i].0 && '&' !in options[i].1
  }

  lemma IndexOfJoin(a: string, c: char, b: string)
    requires c !in a
    ensures IndexOf(a + [c] + b, c) == |a|
  {
    if a != [] {
      assert (a + [c] + b)[1..] == a[1..] + [c] + b;
      IndexOfJoin(a[1..], c, b);
    }
  }

  lemma IndexOfNone(a: string, c: char)
    requires c !in a
    ensures IndexOf(a, c) == -1
  {
  }

  lemma ParsePairOf(p: (string, string))
    requires '=' !in p.0
    ensures ParsePair(Pair(p)) == p
  {
    IndexOfJoin(p.0, '=', p.1);
    var t := Pair(p);
    assert t == p.0 + ['='] + p.1;
    assert t[..|p.0|] == p.0 && t[|p.0| + 1..] == p.1;
  }

  lemma {:induction false} SplitQuery(options: seq<(string, string)>)
    requires options != [] && Plain(options)
    ensures |Split(BuildQuery(options), '&')| == |options|
    ensures forall i :: 0 <= i < |options| ==> Split(BuildQuery(options), '&')[i] == Pair(options[i])
    decreases |options|
  {
    PairNoAmp(options[0]);
    if |options| == 1 {
      IndexOfNone(Pair(options[0]), '&');
    } else {
      PlainTail(options);
      SplitQuery(options[1..]);
      SplitAtAmp(Pair(options[0]), BuildQuery(options[1..]));
    }
  }

  lemma PairNoAmp(p: (string, string))
    requires '&' !in p.0 && '&' !in p.1
    ensures '&' !in Pair(p)
  {
  }

  lemma PlainTail(options: seq<(string, string)>)
    requires options != [] && Plain(options)
    ensures Plain(options[1..]) && '&' !in options[0].0 && '&' !in options[0].1
  {
    forall i | 0 <= i < |options[1..]|
      ensures '&' !in options[1..][i].0 && '=' !in options[1..][i].0 && '&' !in options[1..][i].1
    {
      assert options[1..][i] == options[i + 1];
    }
  }

  /** Splitting at the first `&` gives the text before it and the parts of the rest. */
  lemma SplitAtAmp(p: string, rest: string)
    requires '&' !in p
    ensures Split(p + "&" + rest, '&') == [p] + Split(rest, '&')
  {
    IndexOfJoin(p, '&', rest);
    var q := p + "&" + rest;
    assert q == p + ['&'] + rest;
    assert q[..|p|] == p && q[|p| + 1..] == rest;
  }

  /** For plain options the query built reads back as the options themselves. */
  lemma QueryRoundTrip(options: seq<(string, string)>)
    requires Plain(options)
    ensures ParseQuery(BuildQuery(options)) == options
  {
    if options != [] {
      SplitQuery(options);
      var parts := Split(BuildQuery(options), '&');
      forall i | 0 <= i < |options| ensures ParsePair(parts[i]) == options[i] {
        ParsePairOf(options[i]);
      }
    }
  }

  /** What getOpUrl appended can be read back after the separator. */
  lemma OpUrlRoundTrip(url: string, options: seq<(string, string)>)
    requires options != [] && Plain(options)
    ensures ParseQuery(GetOpUrl(url, Some(options))[|url| + 1..]) == options
  {
    QueryRoundTrip(options);
  }
}
