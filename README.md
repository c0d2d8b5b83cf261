# Search aggregator: a Dafny model

This project models the result normalisation and aggregation in `main.py` of
a small search service. The service fans one query out to Naver blog search,
Naver news search and Google Custom Search. It turns every hit in each
provider's `items` list into a record `{source, title, content, url}` and
returns the records of the enabled providers in the fixed order blog, news,
google.

What the model contains:

- `json.dfy`: decoded JSON values (`Json.Value`), Python's `dict.get` and
  Python truthiness, which `item.get("link") or item.get("originallink")`
  depends on.
- `http.dfy`: the request an adapter sends and the exchange it gets back.
  The network is not modelled. A response is either no response at all, or a
  status code with a body that may fail to decode as JSON. `Payload` says when
  `raise_for_status()` or `.json()` would raise: a status from 400 to 599, or a
  body that is not JSON.
- `records.dfy`: the record type, the per-provider record builders
  (`NaverRecord`, `GoogleRecord`), and the item loop as a function
  (`ItemRecords`). The loop gives one record per item, or raises at the first
  item that is not a dict. `Normalize` is what an adapter returns for a
  decoded payload.
- `adapters.dfy`: `search_naver` and `search_google` as methods with the
  source's loops (`SearchNaver`, `SearchGoogle`). Each is proved against the
  specification function `ProviderResults`.
- `aggregator.dfy`: `search` as a method (`Search`), proved against
  `Aggregated`, with the lemmas about flags, order and length.

The network is a parameter `fetch: Request -> Exchange`. It gives the
exchange the remote service would produce for a request. Each adapter also
returns `sent`, the requests it issued. The mode of `SearchNaver` and the
three flags of `Search` default as in the source (`"blog"`, and true for
each flag); `fetch` is the first parameter after the query. This makes it possible to state that
an unknown `search_type` sends nothing, and that `search` sends one request
per enabled provider, in order. Because everything is a function of the
query, the flags and `fetch`, repeated calls with the same upstream answers
give the same output.

Two facts about the code that the model keeps:
- The source tags are `naver_blog`, `naver_news` and `google`
  (main.py:24, main.py:27, main.py:101).
- A Naver record's url is `link` when that is truthy. Otherwise (absent,
  null or empty) it is `originallink`, which may itself be absent
  (main.py:63). So `link` is preferred over `originallink`.

## Model

| member | source | states |
|---|---|---|
| `Records.ItemRecordsOnePerItem` | main.py:53-64 | the item loop raises exactly when some item is not a dict; otherwise it yields exactly one record per item, at the same position |
| `Records.NormalizeItems` | main.py:55-64 | for a payload with an `items` list, the adapter returns one record per item in order when every item is a dict, and the empty list when any item is not (the exception is swallowed) |
| `Records.NormalizeWithoutItems` | main.py:53-66 | a payload with no `items` key (or one that is not a list, or a payload that is not an object) gives the empty list |
| `Records.NormalizeLabelled` | main.py:56-64 | every record built from a payload carries the tag of the provider that built it |
| `Records.NaverRecordFields` | main.py:59-64 | a Naver record takes title from `title` and content from `description`, with absent fields as None; its url is `link` when truthy, and `originallink` (possibly absent) whenever `link` is falsy: absent, null, empty or any other falsy value |
| `Records.GoogleRecordFields` | main.py:100-105 | a Google record is tagged `google`, takes title from `title` and content from `snippet`, and its url is always `link` |
| `Adapters.SearchNaver` | main.py:15-70 | a mode other than "blog" or "news" returns the empty list and sends no request; "blog" and "news" send one request to their endpoint and return that provider's records |
| `Adapters.SearchGoogle` | main.py:72-111 | sends one request to the Custom Search endpoint and returns Google's records |
| `Adapters.FailedExchangeGivesNothing` | main.py:43-70 | no response, a 4xx/5xx status, or a body that is not JSON makes the adapter return the empty list |
| `Adapters.SuccessfulExchangeOnePerItem` | main.py:43-107 | for each of the three providers (`search_naver` and `search_google`), on a successful exchange whose `items` are all dicts, the adapter returns exactly one record per item, in order |
| `Adapters.ProviderResultsLabelled` | main.py:22-27 | every record a provider's adapter returns has that provider's tag (`naver_blog`, `naver_news` or `google`) |
| `Aggregator.Search` | main.py:113-136 | returns the blog records if `include_blog`, then the news records if `include_news`, then the google records if `include_google`; it sends exactly the enabled providers' requests, in that order |
| `Aggregator.AggregatedLength` | main.py:124-133 | the output length is the sum of the enabled adapters' output lengths |
| `Aggregator.AllFlagsOff` | main.py:121-136 | with all three flags false the output is empty |
| `Aggregator.AggregatedSources` | main.py:124-133 | a provider's tag occurs in the output if and only if its flag is on and its adapter returned records; no other tag occurs |
| `Aggregator.AggregatedOrdered` | main.py:121-133 | along the output, blog records precede news records, which precede google records |
| `Aggregator.AggregatedBlocks` | main.py:124-133 | the output is the enabled providers' lists, each one contiguous and unchanged, in blog, news, google order |
| `Aggregator.FailedProviderDropsOut` | main.py:121-133 | when one provider's round trip fails, the output equals what the other enabled providers give, as if that provider's flag were off |
| `Aggregator.SixHitsExample` | main.py:113-136 | a concrete case: 2 blog, 1 news and 3 google hits give 6 records tagged in that order; an empty `link` falls back to `originallink` |

## Left out

- The HTTP calls (`requests.get`, `raise_for_status`, `.json()`) are foreign network I/O. They are replaced by the `fetch` parameter and by `Payload`. Redirects, timeouts and retries are not modelled.
- The credential headers, the API key, the search-engine id and the `display: 5` parameter are passed unchanged to the remote services. `Request` carries only the endpoint and the query. No bound on the number of results is claimed, because the provider enforces it and this code does not.
- Loading credentials with `dotenv` / `os.getenv` is process configuration.
- The `print` diagnostics in the `except` branches are logging only. So the model does not tell "the adapter raised and returned []" apart from "it returned [] normally"; the caller cannot tell them apart either.
- The `__main__` demo and its `json.dumps` output are left out.
- `app.py` is left out: the FastAPI routes, the request model, the header-key check and the uvicorn launch are framework plumbing around `search`.
- JSON numbers are modelled as integers, so fractional numbers are left out. They could only matter through truthiness, for example a `link` of `0.0`.
