/**
 * `search`: runs the enabled adapters in the fixed order blog, news, google
 * and extends one list with their outputs.
 */
module Aggregator {
  import opened Wrappers
  import opened Json
  import opened Http
  import opened Records
  import opened Adapters

  /** `xs` when the flag is on, else nothing. */
  function Gated<T>(on: bool, xs: seq<T>): seq<T> {
    if on then xs else []
  }

  /** The list `search` returns: the enabled providers' records, blog then news then google. */
  function Aggregated(query: string, includeBlog: bool, includeNews: bool, includeGoogle: bool,
                      fetch: Request -> Exchange): seq<Record>
  {
    Gated(includeBlog, ProviderResults(NaverBlog, query, fetch))
    + Gated(includeNews, ProviderResults(NaverNews, query, fetch))
    + Gated(includeGoogle, ProviderResults(Google, query, fetch))
  }

  /** The set of source tags occurring in a list of records. */
  function Sources(rs: seq<Record>): set<string> {
    set r | r in rs :: r.source
  }

  /** Position of a source tag in the fixed provider order (3 for any other tag). */
  function Rank(source: string): nat {
    if source == NaverBlogLabel then 0
    else if source == NaverNewsLabel then 1
    else if source == GoogleLabel then 2
    else 3
  }

  /**
   * `search(query, include_blog, include_news, include_google)`. It returns the
   * aggregated list and sends one request per enabled provider, in order.
   */
  method Search(query: string, fetch: Request -> Exchange,
                includeBlog: bool := true, includeNews: bool := true, includeGoogle: bool := true)
    returns (results: seq<Record>, sent: seq<Request>)
    ensures results == Aggregated(query, includeBlog, includeNews, includeGoogle, fetch)
    ensures sent == Gated(includeBlog, [RequestFor(NaverBlog, query)])
                    + Gated(includeNews, [RequestFor(NaverNews, query)])
                    + Gated(includeGoogle, [RequestFor(Google, query)])
  {
    results, sent := [], [];
    if includeBlog {
      var r, s := SearchNaver(query, fetch, "blog");
      results, sent := results + r, sent + s;
    }
    assert results == Gated(includeBlog, ProviderResults(NaverBlog, query, fetch));
    assert sent == Gated(includeBlog, [RequestFor(NaverBlog, query)]);
    if includeNews {
      var r, s := SearchNaver(query, fetch, "news");
      results, sent := results + r, sent + s;
    }
    assert results == Gated(includeBlog, ProviderResults(NaverBlog, query, fetch))
                      + Gated(includeNews, ProviderResults(NaverNews, query, fetch));
    assert sent == Gated(includeBlog, [RequestFor(NaverBlog, query)])
                   + Gated(includeNews, [RequestFor(NaverNews, query)]);
    if includeGoogle {
      var r, s := SearchGoogle(query, fetch);
      results, sent := results + r, sent + s;
    }
  }

  // ---------------------------------------------------------------------
  // Properties

  /** The output length is the sum of the enabled adapters' output lengths. */
  lemma AggregatedLength(query: string, includeBlog: bool, includeNews: bool, includeGoogle: bool,
                         fetch: Request -> Exchange)
    ensures |Aggregated(query, includeBlog, includeNews, includeGoogle, fetch)|
         == (if includeBlog then |ProviderResults(NaverBlog, query, fetch)| else 0)
          + (if includeNews then |ProviderResults(NaverNews, query, fetch)| else 0)
          + (if includeGoogle then |ProviderResults(Google, query, fetch)| else 0)
  {
  }

  /** With every flag off, `search` returns the empty list. */
  lemma AllFlagsOff(query: string, fetch: Request -> Exchange)
    ensures Aggregated(query, false, false, false, fetch) == []
  {
  }

  /**
   * A provider's tag occurs in the output exactly when its flag is on and its
   * adapter returned something; no other tags occur. In particular a disabled
   * provider's tag never occurs.
   */
  lemma AggregatedSources(query: string, includeBlog: bool, includeNews: bool, includeGoogle: bool,
                          fetch: Request -> Exchange)
    ensures var out := Sources(Aggregated(query, includeBlog, includeNews, includeGoogle, fetch));
      out <= {NaverBlogLabel, NaverNewsLabel, GoogleLabel}
      && (NaverBlogLabel in out <==> includeBlog && ProviderResults(NaverBlog, query, fetch) != [])
      && (NaverNewsLabel in out <==> includeNews && ProviderResults(NaverNews, query, fetch) != [])
      && (GoogleLabel in out <==> includeGoogle && ProviderResults(Google, query, fetch) != [])
  {
    var blog := ProviderResults(NaverBlog, query, fetch);
    var news := ProviderResults(NaverNews, query, fetch);
    var google := ProviderResults(Google, query, fetch);
    ProviderResultsLabelled(NaverBlog, query, fetch);
    ProviderResultsLabelled(NaverNews, query, fetch);
    ProviderResultsLabelled(Google, query, fetch);
    var all := Aggregated(query, includeBlog, includeNews, includeGoogle, fetch);
    assert forall r :: r in all <==>
      (includeBlog && r in blog) || (includeNews && r in news) || (includeGoogle && r in google);
    if includeBlog && blog != [] { assert blog[0] in all; }
    if includeNews && news != [] { assert news[0] in all; }
    if includeGoogle && google != [] { assert google[0] in all; }
  }

  /** Three blocks tagged blog, news and google, concatenated, have non-decreasing ranks. */
  lemma RankedBlocks(blog: seq<Record>, news: seq<Record>, google: seq<Record>)
    requires forall r :: r in blog ==> r.source == NaverBlogLabel
    requires forall r :: r in news ==> r.source == NaverNewsLabel
    requires forall r :: r in google ==> r.source == GoogleLabel
    ensures var out := blog + news + google;
      forall i, j :: 0 <= i < j < |out| ==> Rank(out[i].source) <= Rank(out[j].source)
  {
    var out := blog + news + google;
    forall k | 0 <= k < |out|
      ensures Rank(out[k].source) == if k < |blog| then 0 else if k < |blog| + |news| then 1 else 2
    {
      if k < |blog| {
        assert out[k] == blog[k] && blog[k] in blog;
      } else if k < |blog| + |news| {
        assert out[k] == news[k - |blog|] && news[k - |blog|] in news;
      } else {
        assert out[k] == google[k - |blog| - |news|] && google[k - |blog| - |news|] in google;
      }
    }
  }

  /**
   * Blog records come before news records, which come before google records:
   * the source ranks along the output never decrease.
   */
  lemma AggregatedOrdered(query: string, includeBlog: bool, includeNews: bool, includeGoogle: bool,
                          fetch: Request -> Exchange)
    ensures var out := Aggregated(query, includeBlog, includeNews, includeGoogle, fetch);
      forall i, j :: 0 <= i < j < |out| ==> Rank(out[i].source) <= Rank(out[j].source)
  {
    ProviderResultsLabelled(NaverBlog, query, fetch);
    ProviderResultsLabelled(NaverNews, query, fetch);
    ProviderResultsLabelled(Google, query, fetch);
    RankedBlocks(Gated(includeBlog, ProviderResults(NaverBlog, query, fetch)),
                 Gated(includeNews, ProviderResults(NaverNews, query, fetch)),
                 Gated(includeGoogle, ProviderResults(Google, query, fetch)));
  }

  /**
   * Each provider's records appear as one contiguous block, unchanged and in
   * their own order: the output is the blog block, then news, then google.
   */
  lemma AggregatedBlocks(query: string, includeBlog: bool, includeNews: bool, includeGoogle: bool,
                         fetch: Request -> Exchange)
    ensures var out := Aggregated(query, includeBlog, includeNews, includeGoogle, fetch);
      var nb := if includeBlog then |ProviderResults(NaverBlog, query, fetch)| else 0;
      var nn := if includeNews then |ProviderResults(NaverNews, query, fetch)| else 0;
      nb + nn <= |out|
      && out[..nb] == Gated(includeBlog, ProviderResults(NaverBlog, query, fetch))
      && out[nb..nb + nn] == Gated(includeNews, ProviderResults(NaverNews, query, fetch))
      && out[nb + nn..] == Gated(includeGoogle, ProviderResults(Google, query, fetch))
  {
    var blog := Gated(includeBlog, ProviderResults(NaverBlog, query, fetch));
    var news := Gated(includeNews, ProviderResults(NaverNews, query, fetch));
    var google := Gated(includeGoogle, ProviderResults(Google, query, fetch));
    var out := blog + news + google;
    assert out[..|blog|] == blog;
    assert out[|blog|..|blog| + |news|] == news;
    assert out[|blog| + |news|..] == google;
  }

  /**
   * Graceful degradation: when one provider's round trip fails, `search`
   * returns exactly what the other enabled providers returned.
   */
  lemma FailedProviderDropsOut(p: Provider, query: string, includeBlog: bool, includeNews: bool,
                               includeGoogle: bool, fetch: Request -> Exchange)
    requires Payload(fetch(RequestFor(p, query))).None?
    ensures Aggregated(query, includeBlog, includeNews, includeGoogle, fetch)
         == Aggregated(query, includeBlog && p != NaverBlog, includeNews && p != NaverNews,
                       includeGoogle && p != Google, fetch)
  {
    FailedExchangeGivesNothing(p, query, fetch);
  }

  /** A payload whose `items` list holds `n` copies of `item`. */
  function Listing(item: map<string, Value>, n: nat): Value {
    JObject(map["items" := JArray(seq(n, _ => JObject(item)))])
  }

  /**
   * A worked case: blog answers with two items, news with one and google with
   * three; all flags on gives six records tagged blog, blog, news, google,
   * google, google. The news item has an empty `link`, so its url falls back
   * to `originallink`.
   */
  lemma SixHitsExample(query: string)
    ensures var naver := map["title" := JStr("t"), "link" := JStr("l")];
      var news := map["link" := JStr(""), "originallink" := JStr("o")];
      var web := map["link" := JStr("g")];
      var fetch := (r: Request) =>
        if r.endpoint == NaverBlogEndpoint then Response(200, Some(Listing(naver, 2)))
        else if r.endpoint == NaverNewsEndpoint then Response(200, Some(Listing(news, 1)))
        else Response(200, Some(Listing(web, 3)));
      var out := Aggregated(query, true, true, true, fetch);
      |out| == 6
      && out[0].source == NaverBlogLabel && out[1].source == NaverBlogLabel
      && out[2].source == NaverNewsLabel && out[2].url == JStr("o") && out[2].title == JNull
      && out[3].source == GoogleLabel && out[5].source == GoogleLabel && out[5].url == JStr("g")
  {
    var naver := map["title" := JStr("t"), "link" := JStr("l")];
    var news := map["link" := JStr(""), "originallink" := JStr("o")];
    var web := map["link" := JStr("g")];
    var fetch := (r: Request) =>
      if r.endpoint == NaverBlogEndpoint then Response(200, Some(Listing(naver, 2)))
      else if r.endpoint == NaverNewsEndpoint then Response(200, Some(Listing(news, 1)))
      else Response(200, Some(Listing(web, 3)));
    var blogItems := seq(2, _ => JObject(naver));
    var newsItems := seq(1, _ => JObject(news));
    var webItems := seq(3, _ => JObject(web));
    SuccessfulExchangeOnePerItem(NaverBlog, query, fetch, map["items" := JArray(blogItems)], blogItems);
    SuccessfulExchangeOnePerItem(NaverNews, query, fetch, map["items" := JArray(newsItems)], newsItems);
    SuccessfulExchangeOnePerItem(Google, query, fetch, map["items" := JArray(webItems)], webItems);
    var out := Aggregated(query, true, true, true, fetch);
    assert out[2] == ProviderResults(NaverNews, query, fetch)[0];
    assert out[5] == ProviderResults(Google, query, fetch)[2];
  }
}
