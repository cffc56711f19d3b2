/**
 The scheme search itself: build the queries, walk each query's results, drop
 results with an empty or disallowed URL, and keep the first result per URL in
 a dictionary. The loop returns the dictionary's values in insertion order. The
 web search is not part of the model, so its results come in as `results`,
 one list per query.
 */
module Search {
  import opened Substring
  import opened Government
  import opened Aggregation

  /** The dictionary `aggregated`, read as the keys in insertion order
      (`order`) and the entries (`entries`), holds exactly the list `out`. */
  ghost predicate Mirrors(order: seq<string>, entries: map<string, Scheme>, out: seq<Scheme>)
  {
    && order == Urls(out)
    && (forall u :: u in entries <==> u in order)
    && (forall i | 0 <= i < |out| :: out[i].url in entries && entries[out[i].url] == out[i])
  }

  /** Inserting a kept hit with a new URL appends its record to the list. */
  lemma MirrorsInsert(order: seq<string>, entries: map<string, Scheme>, acc: seq<Scheme>, h: Hit)
    requires Mirrors(order, entries, acc) && Kept(h) && HitUrl(h) !in entries
    ensures Mirrors(order + [HitUrl(h)], entries[HitUrl(h) := Record(h)], Step(acc, h))
  {
  }

  /** A hit that fails a guard, or whose URL is already a key, leaves the list unchanged. */
  lemma MirrorsSkip(order: seq<string>, entries: map<string, Scheme>, acc: seq<Scheme>, h: Hit)
    requires Mirrors(order, entries, acc) && (!Kept(h) || HitUrl(h) in entries)
    ensures Step(acc, h) == acc
  {
  }

  /** `list(aggregated.values())` is the list the dictionary mirrors. */
  lemma MirrorsValues(order: seq<string>, entries: map<string, Scheme>, out: seq<Scheme>)
    requires Mirrors(order, entries, out)
    ensures (forall i | 0 <= i < |order| :: order[i] in entries)
    ensures seq(|order|, i requires 0 <= i < |order| && order[i] in entries => entries[order[i]]) == out
  {
  }

  /** Appending a hit to the stream runs one more step. */
  lemma AggregateSnoc(hits: seq<Hit>, h: Hit)
    ensures Aggregate(hits + [h]) == Step(Aggregate(hits), h)
  {
  }

  /** The promises of the search result, for any search results. */
  lemma SearchResultProperties(user: UserProfile, results: seq<seq<RawResult>>)
    requires |results| == |BuildQueries(user)|
    ensures var schemes := Aggregate(Flatten(BuildQueries(user), results));
      && |schemes| <= TotalResults(results)
      && (forall i | 0 <= i < |schemes| :: schemes[i].url != "" && Contains(schemes[i].url, "gov.in"))
      && (forall i, j | 0 <= i < j < |schemes| :: schemes[i].url != schemes[j].url)
      && (forall i | 0 <= i < |schemes| :: schemes[i].sourceQuery in BuildQueries(user))
  {
    var queries := BuildQueries(user);
    var hits := Flatten(queries, results);
    var schemes := Aggregate(hits);
    FlattenLength(queries, results);
    AggregateLength(hits);
    AggregateSound(hits);
    AggregateUnique(hits);
    forall i | 0 <= i < |schemes| ensures Contains(schemes[i].url, "gov.in") {
      AllowedIffGovIn(schemes[i].url);
    }
    AggregateProvenance(hits);
    FlattenQueries(queries, results);
    forall i | 0 <= i < |schemes| ensures schemes[i].sourceQuery in queries {
      assert HasOrigin(hits, schemes[i]);
    }
  }

  /** The inner loop: the results of one query, added to the dictionary in order. */
  method CollectQuery(query: string, rs: seq<RawResult>, order0: seq<string>, entries0: map<string, Scheme>, ghost seen: seq<Hit>)
    returns (order: seq<string>, entries: map<string, Scheme>)
    requires Mirrors(order0, entries0, Aggregate(seen))
    ensures Mirrors(order, entries, Aggregate(seen + Pairs(query, rs)))
  {
    order, entries := order0, entries0;
    ghost var done := seen;
    ghost var out := Aggregate(seen);
    for ri := 0 to |rs|
      invariant done == seen + Pairs(query, rs[..ri])
      invariant out == Aggregate(done)
      invariant Mirrors(order, entries, out)
    {
      var r := rs[ri];
      ghost var h := Hit(query, r);
      assert Pairs(query, rs[..ri + 1]) == Pairs(query, rs[..ri]) + [h];
      AggregateSnoc(done, h);
      done := done + [h];
      var url := GetOr(r.href, "");
      if url == "" {
        MirrorsSkip(order, entries, out, h);
        continue;
      }
      if !IsAllowed(url) {
        MirrorsSkip(order, entries, out, h);
        continue;
      }
      if url !in entries {
        MirrorsInsert(order, entries, out, h);
        out := Step(out, h);
        entries := entries[url := ToScheme(r, query)];
        order := order + [url];
      } else {
        MirrorsSkip(order, entries, out, h);
      }
    }
    assert rs[..|rs|] == rs;
  }

  /** Searches for the user's schemes, given what the web search returned for each query. */
  method SchemeSearch(user: UserProfile, results: seq<seq<RawResult>>) returns (schemes: seq<Scheme>)
    requires |results| == |BuildQueries(user)|
    ensures schemes == Aggregate(Flatten(BuildQueries(user), results))
    ensures |schemes| <= TotalResults(results)
    ensures forall i | 0 <= i < |schemes| :: schemes[i].url != "" && Contains(schemes[i].url, "gov.in")
    ensures forall i, j | 0 <= i < j < |schemes| :: schemes[i].url != schemes[j].url
    ensures forall i | 0 <= i < |schemes| :: schemes[i].sourceQuery in BuildQueries(user)
  {
    var queries := BuildQueries(user);
    var entries: map<string, Scheme> := map[];
    var order: seq<string> := [];
    ghost var seen: seq<Hit> := [];
    for qi := 0 to |queries|
      invariant seen == Flatten(queries[..qi], results[..qi])
      invariant Mirrors(order, entries, Aggregate(seen))
    {
      order, entries := CollectQuery(queries[qi], results[qi], order, entries, seen);
      seen := seen + Pairs(queries[qi], results[qi]);
      assert queries[..qi + 1][..qi] == queries[..qi] && results[..qi + 1][..qi] == results[..qi];
    }
    MirrorsValues(order, entries, Aggregate(seen));
    schemes := seq(|order|, i requires 0 <= i < |order| && order[i] in entries => entries[order[i]]);
    assert queries[..|queries|] == queries && results[..|results|] == results;
    SearchResultProperties(user, results);
  }
}
