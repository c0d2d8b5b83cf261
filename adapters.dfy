/**
 * The provider adapters `search_naver` and `search_google`. The network is a
 * parameter: `fetch` gives the exchange the remote service would produce for
 * a request. Each adapter also returns `sent`, the requests it issued, so
 * that what it asks of the network can be stated.
 */
module Adapters {
  import opened Wrappers
  import opened Json
  import opened Http
  import opened Records

  const NaverBlogEndpoint: string := "https://openapi.naver.com/v1/search/blog.json"
  const NaverNewsEndpoint: string := "https://openapi.naver.com/v1/search/news.json"
  const GoogleEndpoint: string := "https://www.googleapis.com/customsearch/v1"

  /** The endpoint each provider's request goes to. */
  function Endpoint(p: Provider): string {
    match p
    case NaverBlog => NaverBlogEndpoint
    case NaverNews => NaverNewsEndpoint
    case Google => GoogleEndpoint
  }

  /** The request an adapter sends for provider `p` (credentials and `display` are not modelled). */
  function RequestFor(p: Provider, query: string): Request {
    Request(Endpoint(p), query)
  }

  /** What an adapter returns after the exchange: [] when the round trip raised. */
  function Outcome(p: Provider, x: Exchange): seq<Record> {
    match Payload(x)
    case None => []
    case Some(data) => Normalize(p, data)
  }

  /** The records provider `p`'s adapter returns for `query` against the network `fetch`. */
  function ProviderResults(p: Provider, query: string, fetch: Request -> Exchange): seq<Record> {
    Outcome(p, fetch(RequestFor(p, query)))
  }

  /**
   * `search_naver(query, searchType)`. An unknown mode returns [] and sends
   * nothing; "blog" and "news" send exactly one request to their endpoint and
   * return that provider's records, which is [] on any failure.
   */
  method SearchNaver(query: string, fetch: Request -> Exchange, searchType: string := "blog")
    returns (results: seq<Record>, sent: seq<Request>)
    ensures searchType == "blog" ==>
      sent == [RequestFor(NaverBlog, query)] && results == ProviderResults(NaverBlog, query, fetch)
    ensures searchType == "news" ==>
      sent == [RequestFor(NaverNews, query)] && results == ProviderResults(NaverNews, query, fetch)
    ensures searchType != "blog" && searchType != "news" ==> results == [] && sent == []
  {
    var url: string, sourceLabel: string;
    ghost var p: Provider;
    if searchType == "blog" {
      url, sourceLabel := NaverBlogEndpoint, NaverBlogLabel;
      p := NaverBlog;
    } else if searchType == "news" {
      url, sourceLabel := NaverNewsEndpoint, NaverNewsLabel;
      p := NaverNews;
    } else {
      return [], [];
    }
    var request := Request(url, query);
    sent := [request];
    // requests.get, raise_for_status and .json; any of them raising ends in []
    var payload := Payload(fetch(request));
    if payload.None? {
      return [], sent;
    }
    var data := payload.value;
    results := [];
    if data.JObject? && "items" in data.fields && data.fields["items"].JArray? {
      var items := data.fields["items"].elems;
      var i := 0;
      while i < |items|
        invariant 0 <= i <= |items|
        invariant ItemRecords(p, items[..i]) == Some(results)
      {
        var item := items[i];
        if !item.JObject? {
          // item.get raises AttributeError; the records so far are dropped
          ItemRecordsOnePerItem(p, items);
          return [], sent;
        }
        assert items[..i + 1][..i] == items[..i];
        results := results + [NaverRecord(sourceLabel, item.fields)];
        i := i + 1;
      }
      assert items[..|items|] == items;
    }
  }

  /**
   * `search_google(query)`: always sends exactly one request to the Custom
   * Search endpoint and returns Google's records, which is [] on any failure.
   */
  method SearchGoogle(query: string, fetch: Request -> Exchange)
    returns (results: seq<Record>, sent: seq<Request>)
    ensures sent == [RequestFor(Google, query)]
    ensures results == ProviderResults(Google, query, fetch)
  {
    var request := Request(GoogleEndpoint, query);
    sent := [request];
    var payload := Payload(fetch(request));
    if payload.None? {
      return [], sent;
    }
    var data := payload.value;
    results := [];
    if data.JObject? && "items" in data.fields && data.fields["items"].JArray? {
      var items := data.fields["items"].elems;
      var i := 0;
      while i < |items|
        invariant 0 <= i <= |items|
        invariant ItemRecords(Google, items[..i]) == Some(results)
      {
        var item := items[i];
        if !item.JObject? {
          ItemRecordsOnePerItem(Google, items);
          return [], sent;
        }
        assert items[..i + 1][..i] == items[..i];
        results := results + [GoogleRecord(item.fields)];
        i := i + 1;
      }
      assert items[..|items|] == items;
    }
  }

  // ---------------------------------------------------------------------
  // Properties

  /**
   * Any failure of the round trip (no response, a 4xx or 5xx status, a body
   * that is not JSON) makes the adapter return the empty list.
   */
  lemma FailedExchangeGivesNothing(p: Provider, query: string, fetch: Request -> Exchange)
    requires Payload(fetch(RequestFor(p, query))).None?
    ensures ProviderResults(p, query, fetch) == []
  {
  }

  /**
   * On a successful round trip whose payload has an `items` list of objects,
   * the adapter returns exactly one record per item, in the items' order.
   */
  lemma SuccessfulExchangeOnePerItem(p: Provider, query: string, fetch: Request -> Exchange,
                                     m: map<string, Value>, xs: seq<Value>)
    requires Payload(fetch(RequestFor(p, query))) == Some(JObject(m))
    requires "items" in m && m["items"] == JArray(xs) && AllObjects(xs)
    ensures |ProviderResults(p, query, fetch)| == |xs|
    ensures forall k :: 0 <= k < |xs| ==> ProviderResults(p, query, fetch)[k] == ToRecord(p, xs[k].fields)
  {
    NormalizeItems(p, m, xs);
  }

  /** Every record of provider `p`'s adapter carries the source tag of `p`. */
  lemma ProviderResultsLabelled(p: Provider, query: string, fetch: Request -> Exchange)
    ensures forall r :: r in ProviderResults(p, query, fetch) ==> r.source == Label(p)
  {
    var x := fetch(RequestFor(p, query));
    if Payload(x).Some? {
      NormalizeLabelled(p, Payload(x).value);
    }
  }
}
