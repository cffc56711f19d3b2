# Government scheme finder: query building and result aggregation

This project models the backend of VaaniCare's government-scheme search
(`government/government.py`). The search has two steps:

- `build_queries` turns a user profile (state and category) into four search
  strings.
- `duckduckgo_scheme_search` sends each query to a web search. It walks the
  results query by query, in order. It skips results whose `href` is missing
  or empty. It skips results whose URL contains none of the `ALLOWED_DOMAINS`
  strings. It keeps the first result for each URL in a dictionary. It returns
  the dictionary's values in insertion order, each as a record with `title`,
  `url`, `snippet` and `source_query`.

The web search itself is not modelled. Its answers are an input: one list of
raw results per query. A raw result has optional `href`, `title` and `body`
strings, and a missing field reads as `""`, as `dict.get(key, "")` does.

Modules:

- `Substring` (`substring.dfy`) models Python's `needle in s` on strings as
  "occurs at some position".
- `Government` (`government.dfy`) holds the profile, raw result and scheme
  record types, the allow-list, the domain filter and `BuildQueries`.
- `Aggregation` (`aggregation.dfy`) holds the reference definition
  `Aggregate`. It reads the results of all queries as one stream of hits
  (`Flatten`) and applies the loop's three tests to each hit. The lemmas state
  what the returned list promises.
- `Search` (`search.dfy`) holds the imperative search. `SchemeSearch` is the
  outer loop over queries and `CollectQuery` is the inner loop over one
  query's results. The dictionary is a `map` from URL to record plus the
  sequence of keys in insertion order, which is how a Python `dict` iterates.
  The method is proved equal to `Aggregate`.

The allow-list test is a plain substring test on the whole URL, exactly as in
the source. Every allow-list entry contains `"gov.in"`, so the test is
equivalent to the single test "`gov.in` occurs in the URL" (`AllowedIffGovIn`).
It is not a host match. A URL on another host passes when `gov.in` appears
anywhere in it, for example in a query parameter (`FilterIsNotAHostMatch`).
The empty-URL guard is subsumed by the filter, because an allowed URL has at
least six characters (`AllowedIsNonEmpty`).

## Model

| member | source | states |
|---|---|---|
| `Substring.ContainsTransitive` | government/government.py:36 | If `mid in s` and `needle in mid`, then `needle in s`. |
| `Government.AllowedDomainsContainGovIn` | government/government.py:3-11 | Every one of the seven allow-list entries contains `"gov.in"`. |
| `Government.AllowedIffGovIn` | government/government.py:36-37 | A URL passes the allow-list test exactly when `"gov.in"` occurs in it. Both directions are proved. |
| `Government.AllowedIsNonEmpty` | government/government.py:33-37 | A URL that passes the allow-list test has at least six characters, so it also passes the empty-URL guard. |
| `Government.FilterIsNotAHostMatch` | government/government.py:36-37 | The filter accepts `https://example.com/?ref=gov.in` and `https://notgov.in/`. Neither host is a government domain. |
| `Government.BuildQueries` | government/government.py:13-22 | Always exactly four queries, whatever the profile. |
| `Government.BuildQueriesShape` | government/government.py:17-22 | Queries 1, 2 and 4 begin with the user's state. Query 2 contains the user's category. Query 3 is the same for any two users. |
| `Aggregation.FlattenLength` | government/government.py:29-30 | The stream of hits has one hit per search result, so its length is the total number of results over all queries. |
| `Aggregation.FlattenAt` | government/government.py:29-30 | Result `j` of query `i` is at position (number of results of queries `0..i-1`) + `j` of the stream, paired with query `i`. Queries come in order, and results in order within a query. |
| `Aggregation.FlattenQueries` | government/government.py:29-30 | Every hit in the stream carries one of the queries. |
| `Aggregation.AggregateLength` | government/government.py:29-48 | The returned list is never longer than the stream of results. |
| `Aggregation.AggregateSound` | government/government.py:31-37 | Every returned URL is non-empty and passes the allow-list test. |
| `Aggregation.AggregateUnique` | government/government.py:39-40 | No two returned records share a URL. |
| `Aggregation.AggregateComplete` | government/government.py:29-46 | Every result whose URL is non-empty and allowed has its URL in the returned list. |
| `Aggregation.AggregateProvenance` | government/government.py:40-46 | Each returned record is built from the first hit in the stream with that URL: its title, URL, snippet and source query are that hit's. |
| `Aggregation.AggregateFirstWins` | government/government.py:40-46 | The record of the first hit with a given allowed URL is in the returned list. |
| `Aggregation.AggregateOrder` | government/government.py:40-48 | If record `i` comes before record `j` in the list, the first hit with record `i`'s URL comes before the first hit with record `j`'s URL. The list is in first-insertion order. |
| `Aggregation.AggregatePrefix` | government/government.py:40-48 | The list built from any prefix of the stream is a prefix of the final list. Entries are never changed, removed or reordered by later hits. |
| `Aggregation.LaterDuplicateIgnored` | government/government.py:39-40 | Appending a hit whose URL an earlier hit already had leaves the list unchanged. |
| `Search.SearchResultProperties` | government/government.py:24-48 | For any search results, the aggregated list is at most as long as the total number of results. Every URL is non-empty and contains `"gov.in"`. URLs are pairwise distinct. Every `source_query` is one of the four queries. |
| `Search.CollectQuery` | government/government.py:30-46 | The inner loop leaves a dictionary and key order that hold exactly `Aggregate` of the hits seen so far, extended with this query's results. |
| `Search.SchemeSearch` | government/government.py:24-48 | The returned list equals `Aggregate` of the flattened results of the four queries. It also restates the bound, soundness, uniqueness and source-query guarantees directly. |

## Left out

- The web search client `DDGS` and its `with` block are network I/O through a library that is not part of this model. Its answers are the `results` input, one list per query (`requires |results| == |BuildQueries(user)|`).
- `max_results_per_query` is not modelled. Whether the search honours it is up to the search library.
- A result field that is present but holds `None` is not distinguished from a missing field. For `href` both are skipped, as in the source. For `title` and `body` the source would copy `None`, and the model uses `""`.
- `government/main.py` is not part of this model. It holds the FastAPI app, CORS setup, request validation of the profile and the response envelope with `count = len(schemes)`.
- The profile has only the two fields the queries read (`state`, `category`). The other validated fields are never read by the search.
- Titles and snippets are opaque strings, copied unchanged.
