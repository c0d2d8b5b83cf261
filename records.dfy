/**
 * The common result record and the mapping from a provider's decoded payload
 * to a sequence of records: the part of each adapter that runs after the
 * HTTP round trip has succeeded.
 */
module Records {
  import opened Wrappers
  import opened Json

  /** The three upstream searches: Naver blog, Naver news and Google Custom Search. */
  datatype Provider = NaverBlog | NaverNews | Google

  /** One normalised search hit. Field values are whatever the provider sent (None when absent). */
  datatype Record = Record(source: string, title: Value, content: Value, url: Value)

  const NaverBlogLabel: string := "naver_blog"
  const NaverNewsLabel: string := "naver_news"
  const GoogleLabel: string := "google"

  /** The `source` tag a provider's records carry. */
  function Label(p: Provider): string {
    match p
    case NaverBlog => NaverBlogLabel
    case NaverNews => NaverNewsLabel
    case Google => GoogleLabel
  }

  /** The record `search_naver` builds from one item, under the source tag of its mode. */
  function NaverRecord(tag: string, item: map<string, Value>): Record {
    Record(tag, Get(item, "title"), Get(item, "description"),
           Or(Get(item, "link"), Get(item, "originallink")))
  }

  /** The record `search_google` builds from one item. */
  function GoogleRecord(item: map<string, Value>): Record {
    Record(GoogleLabel, Get(item, "title"), Get(item, "snippet"), Get(item, "link"))
  }

  /** The record provider `p`'s adapter builds from one item. */
  function ToRecord(p: Provider, item: map<string, Value>): Record {
    if p == Google then GoogleRecord(item) else NaverRecord(Label(p), item)
  }

  /** Every element of an `items` list is a JSON object (a Python dict, which has `.get`). */
  predicate AllObjects(xs: seq<Value>) {
    forall i :: 0 <= i < |xs| ==> xs[i].JObject?
  }

  /**
   * The list the adapter's loop builds from `data["items"]`, appending one
   * record per element in order; `None` when the loop raises, which happens
   * at the first element that is not an object (it has no `.get`).
   */
  function ItemRecords(p: Provider, xs: seq<Value>): Option<seq<Record>> {
    if xs == [] then Some([])
    else
      var front := ItemRecords(p, xs[..|xs| - 1]);
      var last := xs[|xs| - 1];
      if front.Some? && last.JObject? then Some(front.value + [ToRecord(p, last.fields)])
      else None
  }

  /**
   * What an adapter returns for a decoded payload. A payload that is not an
   * object gives [] in every Python case: `"items" in data` is false, or it
   * or `data["items"]` raises TypeError. An `items` value that is not a list
   * gives [] too: iterating it yields nothing, or raises (a str or dict key
   * has no `.get`; null, numbers and booleans are not iterable). Every
   * exception is caught and turned into [].
   */
  function Normalize(p: Provider, data: Value): seq<Record> {
    if data.JObject? && "items" in data.fields && data.fields["items"].JArray? then
      ItemRecords(p, data.fields["items"].elems).GetOr([])
    else
      []
  }

  // ---------------------------------------------------------------------
  // Properties

  /**
   * The mapping raises exactly when some item is not an object; otherwise it
   * yields exactly one record per item, in the items' order.
   */
  lemma {:induction false} ItemRecordsOnePerItem(p: Provider, xs: seq<Value>)
    ensures ItemRecords(p, xs).Some? <==> AllObjects(xs)
    ensures ItemRecords(p, xs).Some? ==>
      |ItemRecords(p, xs).value| == |xs| &&
      forall k :: 0 <= k < |xs| ==> xs[k].JObject? && ItemRecords(p, xs).value[k] == ToRecord(p, xs[k].fields)
  {
    if xs != [] {
      var front := xs[..|xs| - 1];
      ItemRecordsOnePerItem(p, front);
      assert forall i :: 0 <= i < |front| ==> front[i] == xs[i];
    }
  }

  /**
   * With a well-formed `items` list, the adapter returns one record per item,
   * in order; if any item is not an object the whole result is [].
   */
  lemma NormalizeItems(p: Provider, m: map<string, Value>, xs: seq<Value>)
    requires "items" in m && m["items"] == JArray(xs)
    ensures AllObjects(xs) ==>
      |Normalize(p, JObject(m))| == |xs| &&
      forall k :: 0 <= k < |xs| ==> Normalize(p, JObject(m))[k] == ToRecord(p, xs[k].fields)
    ensures !AllObjects(xs) ==> Normalize(p, JObject(m)) == []
  {
    ItemRecordsOnePerItem(p, xs);
  }

  /** A payload without an `items` list gives the empty list. */
  lemma NormalizeWithoutItems(p: Provider, data: Value)
    requires !(data.JObject? && "items" in data.fields && data.fields["items"].JArray?)
    ensures Normalize(p, data) == []
  {
  }

  /** Every record an adapter returns carries that provider's source tag. */
  lemma NormalizeLabelled(p: Provider, data: Value)
    ensures forall r :: r in Normalize(p, data) ==> r.source == Label(p)
  {
    if data.JObject? && "items" in data.fields && data.fields["items"].JArray? {
      ItemRecordsOnePerItem(p, data.fields["items"].elems);
    }
  }

  /**
   * A Naver record: title from `title`, content from `description`, and url
   * from `link` when that is present and truthy (a non-empty string), else
   * (`link` absent, null, empty or otherwise falsy) from `originallink`,
   * which may itself be absent. No field is required.
   */
  lemma NaverRecordFields(tag: string, item: map<string, Value>)
    ensures NaverRecord(tag, item).source == tag
    ensures NaverRecord(tag, item).title == (if "title" in item then item["title"] else JNull)
    ensures NaverRecord(tag, item).content == (if "description" in item then item["description"] else JNull)
    ensures "link" in item && Truthy(item["link"]) ==> NaverRecord(tag, item).url == item["link"]
    ensures !Truthy(Get(item, "link")) ==> NaverRecord(tag, item).url == Get(item, "originallink")
    ensures "link" !in item ==>
      NaverRecord(tag, item).url == (if "originallink" in item then item["originallink"] else JNull)
  {
  }

  /** A Google record: title from `title`, content from `snippet`, url always from `link`. */
  lemma GoogleRecordFields(item: map<string, Value>)
    ensures GoogleRecord(item).source == GoogleLabel
    ensures GoogleRecord(item).title == (if "title" in item then item["title"] else JNull)
    ensures GoogleRecord(item).content == (if "snippet" in item then item["snippet"] else JNull)
    ensures GoogleRecord(item).url == (if "link" in item then item["link"] else JNull)
  {
  }
}
