/**
 * lib/api.ts: building the news-search request and reading its reply.
 * The HTTP call itself is the `search` parameter, a function from the request's
 * parameter list to the reply it gets.
 */
module Api {
  import opened Common
  import opened Text
  import opened Types

  /** `{ freshness?, count?, offset? }`; a `None` number is `undefined` or `NaN`. */
  datatype FetchOptions = FetchOptions(freshness: Option<string>, count: Option<int>, offset: Option<int>)

  /** The query-string parameters of a search request, in order. */
  type Params = seq<(string, string)>

  /** What the search endpoint answers: a status line and a body that may fail to parse as JSON. */
  datatype SearchReply =
    | Reply(status: int, statusText: string, body: Result<SearchResponse>)
    | NetworkError(message: string)

  /** The words one of which is appended to a generic query; the source picks one at random. */
  const Busters: seq<string> := ["today", "recent", "breaking", "update", "current"]

  const DefaultCount := 20
  const DefaultFreshness := "day"

  predicate IsGenericQuery(query: string) {
    query == "latest news" || query == "latest"
  }

  /** `Response.ok`. */
  predicate IsOkStatus(status: int) {
    200 <= status <= 299
  }

  /** The query actually sent: a generic query gains one buster word, any other goes out as given. */
  function EffectiveQuery(query: string, buster: nat): (r: string)
    requires buster < |Busters|
    ensures IsGenericQuery(query) <==> r != query
    ensures IsGenericQuery(query) ==> r == query + " " + Busters[buster]
    ensures query <= r
  {
    if IsGenericQuery(query) then query + " " + Busters[buster] else query
  }

  /** The first value a parameter list holds for a key. */
  function Lookup(p: Params, key: string): Option<string>
  {
    if p == [] then None else if p[0].0 == key then Some(p[0].1) else Lookup(p[1..], key)
  }

  function Keys(p: Params): seq<string>
  {
    if p == [] then [] else [p[0].0] + Keys(p[1..])
  }

  /** The count sent: `options.count || 20`. */
  function CountParam(count: Option<int>): int {
    if Truthy(count) then count.value else DefaultCount
  }

  /** The search parameters `q`, `count`, `offset` (only when truthy) and `freshness`, in that order. */
  function SearchParams(query: string, opts: FetchOptions, buster: nat): (p: Params)
    requires buster < |Busters|
    ensures Keys(p) == if Truthy(opts.offset) then ["q", "count", "offset", "freshness"] else ["q", "count", "freshness"]
    ensures Lookup(p, "q") == Some(EffectiveQuery(query, buster))
    ensures Lookup(p, "count") == Some(IntToString(CountParam(opts.count)))
    ensures Lookup(p, "offset") == if Truthy(opts.offset) then Some(IntToString(opts.offset.value)) else None
    ensures Lookup(p, "freshness") == Some(OrElse(opts.freshness, DefaultFreshness))
  {
    var offset := if Truthy(opts.offset) then Some(IntToString(opts.offset.value)) else None;
    ParamsLayout(EffectiveQuery(query, buster), IntToString(CountParam(opts.count)), offset, OrElse(opts.freshness, DefaultFreshness));
    Layout(EffectiveQuery(query, buster), IntToString(CountParam(opts.count)), offset, OrElse(opts.freshness, DefaultFreshness))
  }

  /** `new URLSearchParams({ q, count, ...(offset && { offset }), freshness })`. */
  function Layout(q: string, count: string, offset: Option<string>, freshness: string): Params
  {
    [("q", q), ("count", count)]
    + (if offset.Some? then [("offset", offset.value)] else [])
    + [("freshness", freshness)]
  }

  lemma ParamsLayout(q: string, count: string, offset: Option<string>, freshness: string)
    ensures var p := Layout(q, count, offset, freshness);
      && Keys(p) == (if offset.Some? then ["q", "count", "offset", "freshness"] else ["q", "count", "freshness"])
      && Lookup(p, "q") == Some(q) && Lookup(p, "count") == Some(count)
      && Lookup(p, "offset") == offset && Lookup(p, "freshness") == Some(freshness)
  {
    var p := Layout(q, count, offset, freshness);
    var tail := [("freshness", freshness)];
    assert Keys(tail) == ["freshness"] && Lookup(tail, "freshness") == Some(freshness);
    assert Lookup(tail, "offset") == None by { assert tail[1..] == []; }
    var mid := (if offset.Some? then [("offset", offset.value)] else []) + tail;
    if offset.Some? {
      assert mid[1..] == tail;
      assert Keys(mid) == ["offset", "freshness"];
      assert Lookup(mid, "offset") == offset && Lookup(mid, "freshness") == Some(freshness);
    } else {
      assert mid == tail;
    }
    var second := [("count", count)] + mid;
    assert second[1..] == mid;
    assert Keys(second) == ["count"] + Keys(mid);
    assert p[1..] == second;
    assert Keys(p) == ["q"] + Keys(second);
  }

  /** `fetchNews`: the parsed body when the status is a success, otherwise the error it throws. */
  function FetchNews(query: string, opts: FetchOptions, buster: nat, search: Params -> SearchReply): (r: Result<SearchResponse>)
    requires buster < |Busters|
    ensures var reply := search(SearchParams(query, opts, buster));
      && (r.Ok? <==> reply.Reply? && IsOkStatus(reply.status) && reply.body.Ok?)
      && (r.Ok? ==> r == reply.body)
      && (reply.Reply? && !IsOkStatus(reply.status) ==> r == Err("Failed to fetch news: " + reply.statusText))
  {
    match search(SearchParams(query, opts, buster))
    case NetworkError(message) => Err(message)
    case Reply(status, statusText, body) =>
      if !IsOkStatus(status) then Err("Failed to fetch news: " + statusText)
      else body
  }

  /** The query of `fetchRelatedNews`: the first eight space-separated tokens of the title, rejoined. */
  function RelatedQuery(title: string): string
  {
    var tokens := Split(title, ' ');
    Join(tokens[..Min(8, |tokens|)], " ")
  }

  /** `fetchRelatedNews`: a search for the title's first eight tokens, eight results wanted. */
  function FetchRelatedNews(title: string, buster: nat, search: Params -> SearchReply): Result<SearchResponse>
    requires buster < |Busters|
  {
    FetchNews(RelatedQuery(title), FetchOptions(None, Some(8), None), buster, search)
  }

  // ---------------------------------------------------------------------------
  // Properties

  /** `"Latest"` (and any other spelling that is not exactly generic) goes out unchanged. */
  lemma CaseMattersForGenericQuery(buster: nat)
    requires buster < |Busters|
    ensures EffectiveQuery("Latest", buster) == "Latest"
    ensures EffectiveQuery("latest", buster) == "latest " + Busters[buster]
  {
  }

  /** An absent count and a count of 0 both send 20. */
  lemma {:induction false} ZeroCountIsDefault(query: string, freshness: Option<string>, offset: Option<int>, buster: nat)
    requires buster < |Busters|
    ensures SearchParams(query, FetchOptions(freshness, Some(0), offset), buster)
         == SearchParams(query, FetchOptions(freshness, None, offset), buster)
    ensures Lookup(SearchParams(query, FetchOptions(freshness, None, offset), buster), "count") == Some("20")
  {
    assert DigitChar(2) == '2' && DigitChar(0) == '0';
    assert IntToString(20) == NatToString(2) + [DigitChar(0)] == "20";
  }

  /** An absent offset and an offset of 0 give identical parameter lists, with no offset in them. */
  lemma {:induction false} ZeroOffsetIsOmitted(query: string, freshness: Option<string>, count: Option<int>, buster: nat)
    requires buster < |Busters|
    ensures SearchParams(query, FetchOptions(freshness, count, Some(0)), buster)
         == SearchParams(query, FetchOptions(freshness, count, None), buster)
    ensures Lookup(SearchParams(query, FetchOptions(freshness, count, None), buster), "offset") == None
  {
  }

  /** The count and offset texts read back as the numbers they were made from. */
  lemma {:induction false} NumericParamsRoundTrip(query: string, opts: FetchOptions, buster: nat)
    requires buster < |Busters|
    ensures ParseInt(Lookup(SearchParams(query, opts, buster), "count").value) == Some(CountParam(opts.count))
    ensures Truthy(opts.offset) ==> ParseInt(Lookup(SearchParams(query, opts, buster), "offset").value) == opts.offset
  {
    ParseIntToString(CountParam(opts.count));
    if Truthy(opts.offset) {
      ParseIntToString(opts.offset.value);
    }
  }

  /** A generic `"latest"` query goes out as `"latest <buster>"`, whatever the options. */
  lemma LatestGetsBuster(opts: FetchOptions, buster: nat)
    requires buster < |Busters|
    ensures Lookup(SearchParams("latest", opts, buster), "q") == Some("latest " + Busters[buster])
  {
    assert "latest" + " " == "latest ";
    assert EffectiveQuery("latest", buster) == "latest " + Busters[buster];
  }

  /** A count that resolves to 20 is sent as the text `"20"`. */
  lemma CountTwenty(query: string, opts: FetchOptions, buster: nat)
    requires buster < |Busters|
    requires CountParam(opts.count) == 20
    ensures Lookup(SearchParams(query, opts, buster), "count") == Some("20")
  {
    assert DigitChar(2) == '2' && DigitChar(0) == '0';
    assert IntToString(20) == NatToString(2) + [DigitChar(0)] == "20";
  }

  /** A falsy offset leaves the offset key out. */
  lemma NoOffsetKey(query: string, opts: FetchOptions, buster: nat)
    requires buster < |Busters|
    requires !Truthy(opts.offset)
    ensures Lookup(SearchParams(query, opts, buster), "offset") == None
    ensures "offset" !in Keys(SearchParams(query, opts, buster))
  {
  }

  /** Any non-success status makes `fetchNews` throw, whatever the body. */
  lemma NonSuccessThrows(query: string, opts: FetchOptions, buster: nat, search: Params -> SearchReply)
    requires buster < |Busters|
    requires search(SearchParams(query, opts, buster)).Reply?
    requires !IsOkStatus(search(SearchParams(query, opts, buster)).status)
    ensures FetchNews(query, opts, buster, search).Err?
  {
  }

  /** The related search asks for eight results of the day, with no offset. */
  lemma RelatedRequest(title: string, buster: nat)
    requires buster < |Busters|
    ensures var p := SearchParams(RelatedQuery(title), FetchOptions(None, Some(8), None), buster);
      && Keys(p) == ["q", "count", "freshness"]
      && Lookup(p, "q") == Some(EffectiveQuery(RelatedQuery(title), buster))
      && Lookup(p, "count") == Some("8") && Lookup(p, "freshness") == Some("day")
  {
    assert IntToString(8) == [DigitChar(8)] == "8";
  }

  /** A title of at most eight tokens (at most seven spaces) is searched as it is. */
  lemma {:induction false} ShortTitleUnchanged(title: string)
    requires Count(title, ' ') <= 7
    ensures RelatedQuery(title) == title
  {
    SplitLength(title, ' ');
    var tokens := Split(title, ' ');
    assert tokens[..Min(8, |tokens|)] == tokens;
    JoinSplit(title, ' ');
  }

  /**
   * The related query is a prefix of the title whose own tokens are exactly the
   * title's first min(8, n) tokens, empty tokens from repeated spaces included.
   */
  lemma {:induction false} RelatedQueryTokens(title: string)
    ensures RelatedQuery(title) <= title
    ensures var tokens := Split(title, ' ');
      Split(RelatedQuery(title), ' ') == tokens[..Min(8, |tokens|)]
  {
    var tokens := Split(title, ' ');
    var k := Min(8, |tokens|);
    JoinPrefix(tokens, k, " ");
    JoinSplit(title, ' ');
    SplitJoin(tokens[..k], ' ');
  }
}
