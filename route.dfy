/**
 * app/api/news/route.ts: the `GET /api/news` handler, which the feed calls for
 * every further page. Its request parameters arrive as optional strings.
 */
module NewsRoute {
  import opened Common
  import opened Text
  import opened Types
  import opened Api

  /** A JSON response: the upstream body with status 200, or an error object with its status. */
  datatype RouteResponse = Json(status: int, body: SearchResponse) | ErrorJson(status: int, error: string)

  /** `searchParams.get("q") || "latest"`. */
  function RouteQuery(q: Option<string>): string {
    OrElse(q, "latest")
  }

  /** `parseInt(get("count") || "20")` and `parseInt(get("offset") || "0")`, passed on as `{ count, offset }`. */
  function RouteOptions(count: Option<string>, offset: Option<string>): FetchOptions {
    FetchOptions(None, ParseInt(OrElse(count, "20")), ParseInt(OrElse(offset, "0")))
  }

  /** `GET`: the upstream body unchanged on success, `500 { error: "Failed to fetch news" }` on any failure. */
  function Get(q: Option<string>, count: Option<string>, offset: Option<string>, buster: nat, search: Params -> SearchReply): (r: RouteResponse)
    requires buster < |Busters|
    ensures var fetched := FetchNews(RouteQuery(q), RouteOptions(count, offset), buster, search);
      && (r.Json? <==> fetched.Ok?)
      && (r.Json? ==> r == Json(200, fetched.value))
      && (r.ErrorJson? ==> r == ErrorJson(500, "Failed to fetch news"))
  {
    match FetchNews(RouteQuery(q), RouteOptions(count, offset), buster, search)
    case Ok(data) => Json(200, data)
    case Err(_) => ErrorJson(500, "Failed to fetch news")
  }

  /** The parameters the route sends upstream. */
  function Upstream(q: Option<string>, count: Option<string>, offset: Option<string>, buster: nat): Params
    requires buster < |Busters|
  {
    SearchParams(RouteQuery(q), RouteOptions(count, offset), buster)
  }

  // ---------------------------------------------------------------------------
  // Properties

  /** A missing or empty `q` is the generic default, so a buster word is appended downstream. */
  lemma MissingQueryGetsBuster(q: Option<string>, count: Option<string>, offset: Option<string>, buster: nat)
    requires buster < |Busters|
    requires !Present(q)
    ensures Lookup(Upstream(q, count, offset, buster), "q") == Some("latest " + Busters[buster])
  {
    LatestGetsBuster(RouteOptions(count, offset), buster);
  }

  lemma Parse20(s: string)
    requires s == "20"
    ensures ParseInt(s) == Some(20)
  {
    DigitCharsOf();
    assert s == ['2', '0'];
    assert s == [DigitChar(2), DigitChar(0)];
    ParseTwoDigits(s, 2, 0);
  }

  lemma Parse24(s: string)
    requires s == "24"
    ensures ParseInt(s) == Some(24)
  {
    DigitCharsOf();
    assert s == ['2', '4'];
    assert s == [DigitChar(2), DigitChar(4)];
    ParseTwoDigits(s, 2, 4);
  }

  lemma Parse0(s: string)
    requires s == "0"
    ensures ParseInt(s) == Some(0)
  {
    DigitCharsOf();
    assert s == ['0'];
    assert s == [DigitChar(0)];
    ParseOneDigit(s, 0);
  }

  /** The numbers the route derives from its count and offset texts. */
  lemma {:induction false} RouteNumbers(count: Option<string>, offset: Option<string>)
    ensures !Present(count) ==> RouteOptions(count, offset).count == Some(20)
    ensures Present(count) ==> RouteOptions(count, offset).count == ParseInt(count.value)
    ensures !Present(offset) ==> RouteOptions(count, offset).offset == Some(0)
    ensures Present(offset) ==> RouteOptions(count, offset).offset == ParseInt(offset.value)
  {
    Parse20("20");
    Parse0("0");
  }

  /** An absent, empty, unparsable or zero count all send a count of 20. */
  lemma {:induction false} CountDefaults(q: Option<string>, count: Option<string>, offset: Option<string>, buster: nat)
    requires buster < |Busters|
    requires !Present(count) || ParseInt(count.value).None? || ParseInt(count.value) == Some(0)
    ensures Lookup(Upstream(q, count, offset, buster), "count") == Some("20")
  {
    RouteNumbers(count, offset);
    CountTwenty(RouteQuery(q), RouteOptions(count, offset), buster);
  }

  /** An absent, empty, unparsable or zero offset sends no offset at all. */
  lemma {:induction false} OffsetOmitted(q: Option<string>, count: Option<string>, offset: Option<string>, buster: nat)
    requires buster < |Busters|
    requires !Present(offset) || ParseInt(offset.value).None? || ParseInt(offset.value) == Some(0)
    ensures Lookup(Upstream(q, count, offset, buster), "offset") == None
    ensures "offset" !in Keys(Upstream(q, count, offset, buster))
  {
    RouteNumbers(count, offset);
    NoOffsetKey(RouteQuery(q), RouteOptions(count, offset), buster);
  }

  /**
   * The page request the feed makes, `?q=<query>&offset=<offset>&count=24`, reaches the
   * search endpoint with count 24 and the same offset (none at all when the offset is 0).
   */
  lemma {:induction false} FeedPageRequest(query: string, offset: int, buster: nat)
    requires buster < |Busters|
    requires query != ""
    ensures var p := Upstream(Some(query), Some("24"), Some(IntToString(offset)), buster);
      && Lookup(p, "q") == Some(EffectiveQuery(query, buster))
      && Lookup(p, "count") == Some("24")
      && Lookup(p, "offset") == (if offset != 0 then Some(IntToString(offset)) else None)
  {
    assert |NatToString(if offset < 0 then -offset else offset)| >= 1;
    RouteNumbers(Some("24"), Some(IntToString(offset)));
    Parse24("24");
    ParseIntToString(offset);
    PageParams(query, offset, buster);
  }

  lemma PageParams(query: string, offset: int, buster: nat)
    requires buster < |Busters|
    ensures var p := SearchParams(query, FetchOptions(None, Some(24), Some(offset)), buster);
      && Lookup(p, "q") == Some(EffectiveQuery(query, buster))
      && Lookup(p, "count") == Some("24")
      && Lookup(p, "offset") == (if offset != 0 then Some(IntToString(offset)) else None)
  {
    assert DigitChar(2) == '2' && DigitChar(4) == '4';
    assert IntToString(24) == NatToString(2) + [DigitChar(4)] == "24";
  }
}
