/**
 The values of the government scheme finder: the user profile it searches
 for, the allow-list of government domains, the four search queries built from
 the profile, a raw web-search result and the scheme record it becomes.
 */
module Government {
  import opened Substring

  datatype Option<T> = None | Some(value: T)

  /** `dict.get(key, default)`: the value when the key is present. */
  function GetOr(o: Option<string>, default: string): string
  {
    match o
    case Some(v) => v
    case None => default
  }

  /** The two profile fields that the query builder reads. */
  datatype UserProfile = UserProfile(state: string, category: string)

  /** One hit from the web search. A field that the search left out is `None`. */
  datatype RawResult = RawResult(href: Option<string>, title: Option<string>, body: Option<string>)

  /** One aggregated scheme, as returned to the caller. */
  datatype Scheme = Scheme(title: string, url: string, snippet: string, sourceQuery: string)

  /** Domain strings that a result URL must contain to be kept. */
  const AllowedDomains: seq<string> := [
    "gov.in",
    "kerala.gov.in",
    "scholarships.gov.in",
    "mygov.in",
    "india.gov.in",
    "cdc.kerala.gov.in",
    "dcescholarship.kerala.gov.in"
  ]

  /** `any(domain in url for domain in ALLOWED_DOMAINS)`: a plain substring test. */
  predicate IsAllowed(url: string)
  {
    exists i | 0 <= i < |AllowedDomains| :: Contains(url, AllowedDomains[i])
  }

  /** Every entry of the allow-list contains "gov.in". */
  lemma AllowedDomainsContainGovIn()
    ensures forall i | 0 <= i < |AllowedDomains| :: Contains(AllowedDomains[i], "gov.in")
  {
    assert OccursAt(AllowedDomains[0], "gov.in", 0);
    assert OccursAt(AllowedDomains[1], "gov.in", 7);
    assert OccursAt(AllowedDomains[2], "gov.in", 13);
    assert OccursAt(AllowedDomains[3], "gov.in", 2);
    assert OccursAt(AllowedDomains[4], "gov.in", 6);
    assert OccursAt(AllowedDomains[5], "gov.in", 11);
    assert OccursAt(AllowedDomains[6], "gov.in", 22);
  }

  /** The allow-list filter is equivalent to the single test `"gov.in" in url`. */
  lemma AllowedIffGovIn(url: string)
    ensures IsAllowed(url) <==> Contains(url, "gov.in")
  {
    if IsAllowed(url) {
      var i :| 0 <= i < |AllowedDomains| && Contains(url, AllowedDomains[i]);
      AllowedDomainsContainGovIn();
      ContainsTransitive(url, AllowedDomains[i], "gov.in");
    }
    if Contains(url, "gov.in") {
      assert Contains(url, AllowedDomains[0]);
    }
  }

  /** An allowed URL is never empty, so the filter also drops every empty URL. */
  lemma AllowedIsNonEmpty(url: string)
    requires IsAllowed(url)
    ensures |url| >= 6
  {
  }

  /** The filter looks at the whole URL, not at its host: a page on a host
      outside every allowed domain passes when "gov.in" appears elsewhere in
      the URL, and so does a host that merely ends in "gov.in". */
  lemma FilterIsNotAHostMatch()
    ensures IsAllowed("https://example.com/?ref=gov.in")
    ensures IsAllowed("https://notgov.in/")
  {
    assert OccursAt("https://example.com/?ref=gov.in", AllowedDomains[0], 25);
    assert OccursAt("https://notgov.in/", AllowedDomains[0], 11);
  }

  /** The four queries sent to the search, in order. */
  function BuildQueries(user: UserProfile): (qs: seq<string>)
    ensures |qs| == 4
  {
    [
      user.state + " student scholarship government",
      user.state + " " + user.category + " scholarship government",
      "Central sector scholarship income government",
      user.state + " higher education scholarship official"
    ]
  }

  /** Queries 1, 2 and 4 start with the user's state, query 2 contains the
      category, and query 3 is the same for every user. */
  lemma BuildQueriesShape(user: UserProfile, other: UserProfile)
    ensures var qs := BuildQueries(user);
      && user.state <= qs[0] && user.state <= qs[1] && user.state <= qs[3]
      && Contains(qs[1], user.category)
      && qs[2] == BuildQueries(other)[2]
  {
    var qs := BuildQueries(user);
    var s := user.state;
    var c := user.category;
    assert qs[1][|s| + 1..|s| + 1 + |c|] == c;
    assert OccursAt(qs[1], c, |s| + 1);
  }

  /** The URL of a result: its `href`, or "" when it has none. */
  function Url(r: RawResult): string
  {
    GetOr(r.href, "")
  }

  /** The scheme record built from the first result seen with a given URL. */
  function ToScheme(r: RawResult, query: string): Scheme
  {
    Scheme(GetOr(r.title, ""), Url(r), GetOr(r.body, ""), query)
  }
}
