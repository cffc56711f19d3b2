/**
 The filter-and-deduplicate rule of the scheme search, as functions over the
 stream of search hits. The results of all queries are read as one stream,
 query by query and, within a query, in the order the search returned them.
 A hit is kept when its URL is non-empty and passes the allow-list. It is added
 unless an earlier hit already gave its URL. `Aggregate` is the reference
 definition that the imperative search is proved against. The lemmas state
 what the returned list promises.
 */
module Aggregation {
  import opened Substring
  import opened Government

  /** A search result together with the query that produced it. */
  datatype Hit = Hit(query: string, result: RawResult)

  function HitUrl(h: Hit): string
  {
    Url(h.result)
  }

  /** The two `continue` guards: a hit survives them when its URL is non-empty and allowed. */
  predicate Kept(h: Hit)
  {
    HitUrl(h) != "" && IsAllowed(HitUrl(h))
  }

  function Record(h: Hit): Scheme
  {
    ToScheme(h.result, h.query)
  }

  /** The hits of one query, in the order the search returned them. */
  function Pairs(query: string, rs: seq<RawResult>): seq<Hit>
  {
    seq(|rs|, i requires 0 <= i < |rs| => Hit(query, rs[i]))
  }

  /** The hits of all queries, query by query. */
  function Flatten(queries: seq<string>, results: seq<seq<RawResult>>): seq<Hit>
    requires |queries| == |results|
    decreases |results|
  {
    if results == [] then []
    else
      var n := |results| - 1;
      Flatten(queries[..n], results[..n]) + Pairs(queries[n], results[n])
  }

  /** The number of results the search returned over all queries. */
  function TotalResults(results: seq<seq<RawResult>>): nat
    decreases |results|
  {
    if results == [] then 0
    else TotalResults(results[..|results| - 1]) + |results[|results| - 1]|
  }

  /** The URLs of a list of schemes, in order: the keys of the dictionary. */
  function Urls(out: seq<Scheme>): seq<string>
  {
    seq(|out|, i requires 0 <= i < |out| => out[i].url)
  }

  /** One iteration of the inner loop: skip, keep the existing entry, or insert. */
  function Step(acc: seq<Scheme>, h: Hit): seq<Scheme>
  {
    if !Kept(h) || HitUrl(h) in Urls(acc) then acc else acc + [Record(h)]
  }

  /** The list of schemes after the loop has seen `hits`, in insertion order. */
  function Aggregate(hits: seq<Hit>): seq<Scheme>
    decreases |hits|
  {
    if hits == [] then [] else Step(Aggregate(hits[..|hits| - 1]), hits[|hits| - 1])
  }

  /** No hit before position `k` has the URL of hit `k`. */
  ghost predicate FirstOccurrence(hits: seq<Hit>, k: int)
  {
    0 <= k < |hits| && forall j | 0 <= j < k :: HitUrl(hits[j]) != HitUrl(hits[k])
  }

  /** Scheme `s` is the record of hit `k`, the first hit with its URL, and that hit passes the filter. */
  ghost predicate Origin(hits: seq<Hit>, s: Scheme, k: int)
  {
    FirstOccurrence(hits, k) && Kept(hits[k]) && s == Record(hits[k])
  }

  /** Scheme `s` has an origin in the stream. */
  ghost predicate HasOrigin(hits: seq<Hit>, s: Scheme)
  {
    exists k :: Origin(hits, s, k)
  }

  // ---------------------------------------------------------------------------
  // The hit stream

  /** The stream holds exactly one hit per result. */
  lemma {:induction false} FlattenLength(queries: seq<string>, results: seq<seq<RawResult>>)
    requires |queries| == |results|
    ensures |Flatten(queries, results)| == TotalResults(results)
    decreases |results|
  {
    if results != [] {
      var n := |results| - 1;
      FlattenLength(queries[..n], results[..n]);
    }
  }

  /** Result `j` of query `i` sits after all results of the earlier queries. */
  lemma {:induction false} FlattenAt(queries: seq<string>, results: seq<seq<RawResult>>, i: int, j: int)
    requires |queries| == |results|
    requires 0 <= i < |results| && 0 <= j < |results[i]|
    ensures TotalResults(results[..i]) + j < |Flatten(queries, results)|
    ensures Flatten(queries, results)[TotalResults(results[..i]) + j] == Hit(queries[i], results[i][j])
    decreases |results|
  {
    var n := |results| - 1;
    FlattenLength(queries[..n], results[..n]);
    FlattenLength(queries, results);
    assert results[..n] == results[..n][..n];
    if i < n {
      assert results[..n][..i] == results[..i];
      FlattenAt(queries[..n], results[..n], i, j);
    } else {
      assert results[..i] == results[..n];
    }
  }

  /** Every hit in the stream was produced by one of the queries. */
  lemma {:induction false} FlattenQueries(queries: seq<string>, results: seq<seq<RawResult>>)
    requires |queries| == |results|
    ensures forall k | 0 <= k < |Flatten(queries, results)| :: Flatten(queries, results)[k].query in queries
    decreases |results|
  {
    if results != [] {
      var n := |results| - 1;
      FlattenQueries(queries[..n], results[..n]);
      var front := Flatten(queries[..n], results[..n]);
      forall k | 0 <= k < |Flatten(queries, results)|
        ensures Flatten(queries, results)[k].query in queries
      {
        if k < |front| {
          assert front[k].query in queries[..n];
        } else {
          assert Flatten(queries, results)[k].query == queries[n];
        }
      }
    }
  }

  // ---------------------------------------------------------------------------
  // What the aggregated list promises

  /** The list is never longer than the stream of hits. */
  lemma {:induction false} AggregateLength(hits: seq<Hit>)
    ensures |Aggregate(hits)| <= |hits|
    decreases |hits|
  {
    if hits != [] {
      AggregateLength(hits[..|hits| - 1]);
    }
  }

  /** Soundness of the filter: every URL in the list is non-empty and allowed. */
  lemma {:induction false} AggregateSound(hits: seq<Hit>)
    ensures forall i | 0 <= i < |Aggregate(hits)| :: Aggregate(hits)[i].url != "" && IsAllowed(Aggregate(hits)[i].url)
    decreases |hits|
  {
    if hits != [] {
      AggregateSound(hits[..|hits| - 1]);
    }
  }

  /** No two schemes in the list share a URL. */
  lemma {:induction false} AggregateUnique(hits: seq<Hit>)
    ensures forall i, j | 0 <= i < j < |Aggregate(hits)| :: Aggregate(hits)[i].url != Aggregate(hits)[j].url
    decreases |hits|
  {
    if hits != [] {
      var acc := Aggregate(hits[..|hits| - 1]);
      AggregateUnique(hits[..|hits| - 1]);
      var h := hits[|hits| - 1];
      if Kept(h) && HitUrl(h) !in Urls(acc) {
        forall i | 0 <= i < |acc| ensures acc[i].url != HitUrl(h) {
          assert Urls(acc)[i] == acc[i].url;
        }
      }
    }
  }

  /** Completeness: the URL of every hit that passes the filter is in the list. */
  lemma {:induction false} AggregateComplete(hits: seq<Hit>)
    ensures forall k | 0 <= k < |hits| && Kept(hits[k]) :: HitUrl(hits[k]) in Urls(Aggregate(hits))
    decreases |hits|
  {
    if hits != [] {
      var n := |hits| - 1;
      var acc := Aggregate(hits[..n]);
      var out := Aggregate(hits);
      AggregateComplete(hits[..n]);
      assert forall u | u in Urls(acc) :: u in Urls(out) by {
        if out != acc {
          assert Urls(out) == Urls(acc) + [HitUrl(hits[n])];
        }
      }
      if Kept(hits[n]) && HitUrl(hits[n]) !in Urls(acc) {
        assert Urls(out)[|acc|] == HitUrl(hits[n]);
      }
    }
  }

  /** Two origins of schemes with the same URL are the same hit: the first one. */
  lemma OriginUnique(hits: seq<Hit>, s: Scheme, t: Scheme, ks: int, kt: int)
    requires Origin(hits, s, ks) && Origin(hits, t, kt) && s.url == t.url
    ensures ks == kt && s == t
  {
  }

  /** An origin in a prefix of the stream stays an origin in the whole stream. */
  lemma OriginExtends(hits: seq<Hit>, m: int, s: Scheme, k: int)
    requires 0 <= m <= |hits| && Origin(hits[..m], s, k)
    ensures Origin(hits, s, k)
  {
  }

  /** Provenance: every scheme in the list is the record of the first hit with its URL. */
  lemma {:induction false} AggregateProvenance(hits: seq<Hit>)
    ensures forall i | 0 <= i < |Aggregate(hits)| :: HasOrigin(hits, Aggregate(hits)[i])
    decreases |hits|
  {
    if hits != [] {
      var n := |hits| - 1;
      var pre := hits[..n];
      var h := hits[n];
      var acc := Aggregate(pre);
      var out := Aggregate(hits);
      AggregateProvenance(pre);
      forall i | 0 <= i < |out| ensures HasOrigin(hits, out[i]) {
        if i < |acc| {
          assert out[i] == acc[i];
          assert HasOrigin(pre, acc[i]);
          var k :| Origin(pre, acc[i], k);
          OriginExtends(hits, n, acc[i], k);
        } else {
          assert out == acc + [Record(h)] && out[i] == Record(h);
          AggregateComplete(pre);
          forall j | 0 <= j < n ensures HitUrl(hits[j]) != HitUrl(h) {
            assert pre[j] == hits[j];
            if HitUrl(hits[j]) == HitUrl(h) {
              assert Kept(pre[j]);
              assert false;
            }
          }
          assert Origin(hits, out[i], n);
        }
      }
    }
  }

  /** First occurrence wins: the record of the first hit with a kept URL is in the list. */
  lemma AggregateFirstWins(hits: seq<Hit>, k: int)
    requires FirstOccurrence(hits, k) && Kept(hits[k])
    ensures Record(hits[k]) in Aggregate(hits)
  {
    var out := Aggregate(hits);
    AggregateComplete(hits);
    var i :| 0 <= i < |out| && Urls(out)[i] == HitUrl(hits[k]);
    AggregateProvenance(hits);
    assert HasOrigin(hits, out[i]);
    var k' :| Origin(hits, out[i], k');
    OriginUnique(hits, out[i], Record(hits[k]), k', k);
  }

  /** Order: the list follows the order in which URLs first appear in the stream. */
  lemma {:induction false} AggregateOrder(hits: seq<Hit>)
    ensures forall i, j, ki, kj |
        0 <= i < j < |Aggregate(hits)| && Origin(hits, Aggregate(hits)[i], ki) && Origin(hits, Aggregate(hits)[j], kj) ::
        ki < kj
    decreases |hits|
  {
    if hits != [] {
      var n := |hits| - 1;
      var pre := hits[..n];
      var acc := Aggregate(pre);
      var out := Aggregate(hits);
      AggregateOrder(pre);
      AggregateProvenance(pre);
      AggregateUnique(hits);
      forall i, j, ki, kj | 0 <= i < j < |out| && Origin(hits, out[i], ki) && Origin(hits, out[j], kj)
        ensures ki < kj
      {
        assert out[i] == acc[i];
        assert HasOrigin(pre, acc[i]);
        var ki' :| Origin(pre, acc[i], ki');
        OriginExtends(hits, n, acc[i], ki');
        OriginUnique(hits, out[i], acc[i], ki, ki');
        if j < |acc| {
          assert out[j] == acc[j];
          assert HasOrigin(pre, acc[j]);
          var kj' :| Origin(pre, acc[j], kj');
          OriginExtends(hits, n, acc[j], kj');
          OriginUnique(hits, out[j], acc[j], kj, kj');
          assert pre[ki] == hits[ki] && pre[kj] == hits[kj];
        } else {
          assert out == acc + [Record(hits[n])] && out[j] == Record(hits[n]);
          AggregateComplete(pre);
        }
      }
    }
  }

  /** Entries are never changed or removed: the list after a prefix of the stream
      is a prefix of the final list. */
  lemma {:induction false} AggregatePrefix(hits: seq<Hit>, m: int)
    requires 0 <= m <= |hits|
    ensures Aggregate(hits[..m]) <= Aggregate(hits)
    decreases |hits|
  {
    if m < |hits| {
      var n := |hits| - 1;
      assert hits[..n][..m] == hits[..m];
      AggregatePrefix(hits[..n], m);
    } else {
      assert hits[..m] == hits;
    }
  }

  /** A later hit with a URL that an earlier hit already gave changes nothing. */
  lemma LaterDuplicateIgnored(hits: seq<Hit>, h: Hit, k: int)
    requires 0 <= k < |hits| && HitUrl(hits[k]) == HitUrl(h)
    ensures Aggregate(hits + [h]) == Aggregate(hits)
  {
    var all := hits + [h];
    assert all[..|hits|] == hits;
    if Kept(h) {
      AggregateComplete(hits);
    }
  }
}
