/**
 * app/page.tsx: how the home page picks the feed's query and its first page,
 * and seeds the paginator with them. `prefs` is the signed-in user's stored
 * record (`None` with no session, no id or no such user).
 */
module HomePage {
  import opened Common
  import opened Text
  import opened Types
  import opened Db
  import Api
  import Feed

  const FeedDefault := "latest news"
  const InitialCount := 30

  /** `userPrefs?.searchQuery || "latest news"`. */
  function FeedQuery(prefs: Option<UserRecord>): (q: string)
    ensures q != ""
    ensures prefs.Some? && Present(prefs.value.searchQuery) ==> q == prefs.value.searchQuery.value
    ensures prefs.None? || !Present(prefs.value.searchQuery) ==> q == FeedDefault
  {
    if prefs.Some? then OrElse(prefs.value.searchQuery, FeedDefault) else FeedDefault
  }

  /** The stored record of the session's user, as `findUnique` finds it. */
  function Prefs(users: seq<UserRecord>, sessionUser: Option<UserId>): (r: Option<UserRecord>)
    ensures r.Some? <==> sessionUser.Some? && sessionUser.value < |users|
    ensures r.Some? ==> r.value == users[sessionUser.value]
  {
    if sessionUser.Some? && sessionUser.value < |users| then Some(users[sessionUser.value]) else None
  }

  /** The first page: 30 results for the query, or none when the fetch throws. */
  function InitialArticles(query: string, buster: nat, search: Api.Params -> Api.SearchReply): (r: seq<NewsResult>)
    requires buster < |Api.Busters|
    ensures var fetched := Api.FetchNews(query, Api.FetchOptions(None, Some(InitialCount), None), buster, search);
      && (fetched.Ok? ==> r == fetched.value.results)
      && (fetched.Err? ==> r == [])
  {
    match Api.FetchNews(query, Api.FetchOptions(None, Some(InitialCount), None), buster, search)
    case Ok(response) => response.results
    case Err(_) => []
  }

  /** The page's feed: its query and the paginator seeded with the first page under that query. */
  method Render(users: seq<UserRecord>, sessionUser: Option<UserId>, buster: nat, search: Api.Params -> Api.SearchReply)
    returns (query: string, feed: Feed.NewsFeed)
    requires buster < |Api.Busters|
    ensures fresh(feed) && feed.Valid()
    ensures query == FeedQuery(Prefs(users, sessionUser))
    ensures feed.query == query && feed.articles == InitialArticles(query, buster, search)
    ensures feed.offset == |feed.articles| && feed.hasMore && !feed.isLoading
  {
    query := FeedQuery(Prefs(users, sessionUser));
    var initial := InitialArticles(query, buster, search);
    feed := new Feed.NewsFeed(initial, query);
  }

  // ---------------------------------------------------------------------------
  // Properties of the home page

  /** Without a signed-in user the feed is always the generic default, which the search diversifies. */
  lemma AnonymousGetsDefault(users: seq<UserRecord>)
    ensures FeedQuery(Prefs(users, None)) == FeedDefault
    ensures Api.IsGenericQuery(FeedQuery(Prefs(users, None)))
  {
  }

  /** An empty stored query, which an all-quote interest translation produces, falls back to the default. */
  lemma EmptyStoredQueryFallsBack(users: seq<UserRecord>, u: UserId)
    requires u < |users| && users[u].searchQuery == Some("")
    ensures FeedQuery(Prefs(users, Some(u))) == FeedDefault
  {
  }

  lemma ThirtyText()
    ensures IntToString(30) == "30"
  {
    TwoDigitText(3, 0);
    assert [DigitChar(3), DigitChar(0)] == "30";
  }

  /** The first page asks the search for 30 results, with no offset. */
  lemma InitialRequest(query: string, buster: nat)
    requires buster < |Api.Busters|
    ensures var p := Api.SearchParams(query, Api.FetchOptions(None, Some(InitialCount), None), buster);
      && Api.Lookup(p, "count") == Some("30")
      && Api.Keys(p) == ["q", "count", "freshness"]
      && Api.Lookup(p, "freshness") == Some("day")
  {
    ThirtyText();
  }
}
