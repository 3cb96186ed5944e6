/**
 * components/news/infinite-news-feed.tsx: the client-side paginator behind the
 * home feed. It holds the four pieces of component state (`articles`, `offset`,
 * `hasMore`, `isLoading`) and the query it pages through. `loadMoreArticles`
 * is split into the step before its `await` (`BeginLoad`) and the step after it
 * (`FinishLoad`); `LoadMore` runs both around the news route.
 */
module Feed {
  import opened Common
  import opened Text
  import opened Types
  import Api
  import NewsRoute

  /** The page size the feed asks the route for. */
  const PageSize := 24

  /** Some entry of `articles` has this url. */
  predicate HasUrl(articles: seq<NewsResult>, url: string) {
    exists i :: 0 <= i < |articles| && articles[i].url == url
  }

  /** No two entries share a url. */
  predicate DistinctUrls(articles: seq<NewsResult>) {
    forall i, j :: 0 <= i < j < |articles| ==> articles[i].url != articles[j].url
  }

  /** The entries of `page`, in page order, whose url no entry of `existing` has. */
  function Fresh(page: seq<NewsResult>, existing: seq<NewsResult>): (r: seq<NewsResult>)
    ensures |r| <= |page|
    ensures forall i :: 0 <= i < |r| ==> !HasUrl(existing, r[i].url)
    ensures forall x :: x in r <==> x in page && !HasUrl(existing, x.url)
  {
    if page == [] then []
    else (if HasUrl(existing, page[0].url) then [] else [page[0]]) + Fresh(page[1..], existing)
  }

  /**
   * The filter looks at each page entry on its own and keeps page order: it distributes over
   * concatenation, and a single entry is kept exactly when its url is not already listed.
   */
  lemma {:induction false} FreshByEntry(p: seq<NewsResult>, q: seq<NewsResult>, x: NewsResult, existing: seq<NewsResult>)
    ensures Fresh(p + q, existing) == Fresh(p, existing) + Fresh(q, existing)
    ensures Fresh([x], existing) == if HasUrl(existing, x.url) then [] else [x]
  {
    FreshConcat(p, q, existing);
    assert [x][1..] == [];
  }

  lemma {:induction false} FreshConcat(p: seq<NewsResult>, q: seq<NewsResult>, existing: seq<NewsResult>)
    ensures Fresh(p + q, existing) == Fresh(p, existing) + Fresh(q, existing)
    decreases |p|
  {
    if p == [] {
      assert p + q == q;
    } else {
      HeadAndTail(p, q);
      FreshConcat(p[1..], q, existing);
      var head := if HasUrl(existing, p[0].url) then [] else [p[0]];
      calc {
        Fresh(p + q, existing);
        head + Fresh(p[1..] + q, existing);
        head + (Fresh(p[1..], existing) + Fresh(q, existing));
        { assert head + (Fresh(p[1..], existing) + Fresh(q, existing)) == (head + Fresh(p[1..], existing)) + Fresh(q, existing); }
        Fresh(p, existing) + Fresh(q, existing);
      }
    }
  }

  lemma HeadAndTail(p: seq<NewsResult>, q: seq<NewsResult>)
    requires p != []
    ensures p + q != [] && (p + q)[0] == p[0] && (p + q)[1..] == p[1..] + q
  {
  }

  /** The request `/api/news?q=<query>&offset=<offset>&count=24`. */
  datatype FeedRequest = FeedRequest(query: string, offset: nat, count: nat)

  /**
   * What the awaited fetch brought back: the JSON body's `results` (`None` when the
   * body has none, as for the route's error body), or an exception.
   */
  datatype LoadOutcome = Loaded(results: Option<seq<NewsResult>>) | Threw

  /** `data.results && data.results.length > 0`. */
  predicate NonEmptyPage(outcome: LoadOutcome) {
    outcome.Loaded? && outcome.results.Some? && |outcome.results.value| > 0
  }

  /** The route's reply read as JSON: the success body carries `results`, the error body does not. */
  function Received(response: NewsRoute.RouteResponse): LoadOutcome {
    match response
    case Json(_, body) => Loaded(Some(body.results))
    case ErrorJson(_, _) => Loaded(None)
  }

  class NewsFeed {
    var articles: seq<NewsResult>
    var offset: nat
    var hasMore: bool
    var isLoading: bool
    var query: string

    /**
     * The offset counts every raw result received since the last reset, so it is never
     * behind the list; a load is only ever in flight while more was expected.
     */
    predicate Valid()
      reads this
    {
      |articles| <= offset && (isLoading ==> hasMore)
    }

    /** The initial state: the server-rendered list, its length as offset, more expected, idle. */
    constructor (initialArticles: seq<NewsResult>, query: string)
      ensures Valid()
      ensures articles == initialArticles && offset == |initialArticles|
      ensures hasMore && !isLoading && this.query == query
    {
      articles := initialArticles;
      offset := |initialArticles|;
      hasMore := true;
      isLoading := false;
      this.query := query;
    }

    /** The effect run when the initial list or the query changes: the whole state is rebuilt. */
    method Reset(initialArticles: seq<NewsResult>, query: string)
      modifies this
      ensures Valid()
      ensures articles == initialArticles && offset == |initialArticles|
      ensures hasMore && !isLoading && this.query == query
    {
      articles := initialArticles;
      offset := |initialArticles|;
      hasMore := true;
      isLoading := false;
      this.query := query;
    }

    /** `loadMoreArticles` up to its fetch: nothing while a load is in flight or once exhausted. */
    method BeginLoad() returns (request: Option<FeedRequest>)
      requires Valid()
      modifies this
      ensures Valid()
      ensures old(isLoading) || !old(hasMore) ==> request.None? && unchanged(this)
      ensures !old(isLoading) && old(hasMore) ==>
        && request == Some(FeedRequest(query, offset, PageSize))
        && isLoading && hasMore
        && articles == old(articles) && offset == old(offset) && query == old(query)
    {
      if isLoading || !hasMore {
        return None;
      }
      isLoading := true;
      request := Some(FeedRequest(query, offset, PageSize));
    }

    /**
     * `loadMoreArticles` after its fetch. A non-empty page appends its entries whose url is
     * not yet listed and advances the offset by the raw page length; anything else ends the
     * feed. Loading is cleared either way.
     */
    method FinishLoad(outcome: LoadOutcome)
      requires Valid() && isLoading
      modifies this
      ensures Valid() && !isLoading && query == old(query)
      ensures NonEmptyPage(outcome) ==>
        && articles == old(articles) + Fresh(outcome.results.value, old(articles))
        && offset == old(offset) + |outcome.results.value|
        && hasMore
      ensures !NonEmptyPage(outcome) ==> articles == old(articles) && offset == old(offset) && !hasMore
      ensures NonEmptyPage(outcome) && DistinctUrls(old(articles)) && DistinctUrls(outcome.results.value) ==>
        DistinctUrls(articles)
    {
      if NonEmptyPage(outcome) {
        var page := outcome.results.value;
        var newArticles := Fresh(page, articles);
        if DistinctUrls(articles) && DistinctUrls(page) {
          MergeKeepsDistinct(articles, page);
        }
        if |newArticles| == 0 && |page| > 0 {
          offset := offset + |page|;
        } else {
          articles := articles + newArticles;
          offset := offset + |page|;
        }
      } else {
        hasMore := false;
      }
      isLoading := false;
    }

    /**
     * One whole `loadMoreArticles` against the news route; `buster` is the route's random
     * pick and `search` the upstream search.
     */
    method LoadMore(buster: nat, search: Api.Params -> Api.SearchReply)
      requires Valid() && buster < |Api.Busters|
      modifies this
      ensures Valid() && query == old(query)
      ensures old(isLoading) || !old(hasMore) ==> unchanged(this)
      ensures !old(isLoading) && old(hasMore) ==>
        var outcome := Received(NewsRoute.Get(Some(old(query)), Some("24"), Some(IntToString(old(offset))), buster, search));
        && !isLoading
        && (NonEmptyPage(outcome) ==>
              articles == old(articles) + Fresh(outcome.results.value, old(articles))
              && offset == old(offset) + |outcome.results.value| && hasMore)
        && (!NonEmptyPage(outcome) ==> articles == old(articles) && offset == old(offset) && !hasMore)
    {
      var request := BeginLoad();
      if request.Some? {
        var response := NewsRoute.Get(Some(request.value.query), Some("24"), Some(IntToString(request.value.offset)), buster, search);
        FinishLoad(Received(response));
      }
    }
  }

  // ---------------------------------------------------------------------------
  // Properties of the merge

  /** Filtering a duplicate-free page leaves it duplicate-free. */
  lemma {:induction false} FreshDistinct(page: seq<NewsResult>, existing: seq<NewsResult>)
    requires DistinctUrls(page)
    ensures DistinctUrls(Fresh(page, existing))
  {
    if page != [] {
      var rest := page[1..];
      assert DistinctUrls(rest) by {
        forall i, j | 0 <= i < j < |rest| ensures rest[i].url != rest[j].url {
          assert rest[i] == page[i + 1] && rest[j] == page[j + 1];
        }
      }
      FreshDistinct(rest, existing);
      var tail := Fresh(rest, existing);
      forall k | 0 <= k < |tail| ensures tail[k].url != page[0].url {
        assert tail[k] in rest;
        var m :| 0 <= m < |rest| && rest[m] == tail[k];
        assert rest[m] == page[m + 1];
      }
    }
  }

  /**
   * The merged list keeps the urls distinct when the old list and the page each are: the
   * filter checks only against the old list.
   */
  lemma {:induction false} MergeKeepsDistinct(existing: seq<NewsResult>, page: seq<NewsResult>)
    requires DistinctUrls(existing) && DistinctUrls(page)
    ensures DistinctUrls(existing + Fresh(page, existing))
  {
    var added := Fresh(page, existing);
    FreshDistinct(page, existing);
    var merged := existing + added;
    forall i, j | 0 <= i < j < |merged| ensures merged[i].url != merged[j].url {
      if j >= |existing| {
        assert merged[j] == added[j - |existing|];
        if i < |existing| {
          assert merged[i] == existing[i];
          assert !HasUrl(existing, added[j - |existing|].url);
        } else {
          assert merged[i] == added[i - |existing|];
        }
      }
    }
  }

  /** The merge appends nothing exactly when every page entry's url is already listed. */
  lemma AllDuplicates(existing: seq<NewsResult>, page: seq<NewsResult>)
    ensures Fresh(page, existing) == [] <==> forall i :: 0 <= i < |page| ==> HasUrl(existing, page[i].url)
  {
    if Fresh(page, existing) != [] {
      var x := Fresh(page, existing)[0];
      assert x in page;
    } else {
      forall i | 0 <= i < |page| ensures HasUrl(existing, page[i].url) {
        assert page[i] in page;
      }
    }
  }

  /** A page that repeats a url inside itself puts the repeat into the feed. */
  lemma RepeatWithinPageSurvives()
    ensures var a := NewsResult("A", "a", "S", None, None, None);
      !DistinctUrls([] + Fresh([a, a], []))
  {
    var a := NewsResult("A", "a", "S", None, None, None);
    assert !HasUrl([], a.url);
    assert Fresh([a, a], []) == [a, a];
    var merged: seq<NewsResult> := [] + [a, a];
    assert merged[0].url == merged[1].url;
  }

  /** The urls of a list, in order. */
  function Urls(articles: seq<NewsResult>): (r: seq<string>)
    ensures |r| == |articles| && forall i :: 0 <= i < |r| ==> r[i] == articles[i].url
  {
    seq(|articles|, i requires 0 <= i < |articles| => articles[i].url)
  }

  /**
   * Two loads from an empty feed: `[a, b]` then `[b, c]` give exactly `a, b, c`, and the
   * offset has advanced by all four raw results.
   */
  method TwoPages() returns (urls: seq<string>, offset: nat)
    ensures urls == ["a", "b", "c"] && offset == 4
  {
    var a := NewsResult("A", "a", "S", None, None, None);
    var b := NewsResult("B", "b", "S", None, None, None);
    var c := NewsResult("C", "c", "S", None, None, None);
    var feed := new NewsFeed([], "latest news");
    var first := feed.BeginLoad();
    assert first == Some(FeedRequest("latest news", 0, PageSize));
    feed.FinishLoad(Loaded(Some([a, b])));
    assert feed.articles == [a, b];
    var second := feed.BeginLoad();
    assert second == Some(FeedRequest("latest news", 2, PageSize));
    assert HasUrl([a, b], "b") by { assert [a, b][1].url == "b"; }
    assert !HasUrl([a, b], "c");
    feed.FinishLoad(Loaded(Some([b, c])));
    assert Fresh([b, c], [a, b]) == [c];
    assert feed.articles == [a, b, c];
    urls := Urls(feed.articles);
    assert urls == [a.url, b.url, c.url];
    offset := feed.offset;
  }
}
