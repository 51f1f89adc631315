/** The SerpAPI adapters (`fetchGoogleRank`): the 1-based position of the
    target domain among the organic search results. The API copy compares
    normalised, lower-cased links; the worker copy does a case-sensitive
    search in the displayed link only. */
module SerpApi {
  import opened Js
  import opened Provider

  /** One organic result; either link may be absent. */
  datatype Organic = Organic(displayedLink: Option<string>, link: Option<string>)

  /** The decoded body: `{ organic_results?: [...] }`. */
  datatype SearchResponse = SearchResponse(organicResults: Option<seq<Organic>>)

  /** The normalised result: the query echoed back and the rank, null when
      the domain is not among the results. */
  datatype Position = Position(keyword: string, domain: string, rank: Option<int>)

  const MissingKey := "SERPAPI_KEY not set"
  const MissingArguments := "keyword and domain required"

  /** `data?.organic_results || []`. */
  function OrganicResults(data: SearchResponse): seq<Organic> {
    if data.organicResults.Some? then data.organicResults.value else []
  }

  /** `idx >= 0 ? idx + 1 : null` over a `findIndex` result. */
  function RankOf(idx: int): Option<int> {
    if idx >= 0 then Some(idx + 1) else None
  }

  /** A link as the API copy compares it: one scheme and one `www.` removed,
      then lower-cased. */
  function Canonical(link: Option<string>): string {
    Lower(StripWwwIgnoringCase(StripScheme(Or(link, ""))))
  }

  /** The domain as the API copy compares it: one `www.` removed, lower-cased. */
  function CanonicalDomain(domain: string): string {
    Lower(StripWwwIgnoringCase(domain))
  }

  /** The API copy's predicate for one result. */
  predicate ApiMatches(r: Organic, d: string) {
    Contains(Canonical(r.displayedLink), d) || Contains(Canonical(r.link), d)
  }

  /** The API copy's rank: the 1-based index of the first result whose
      displayed link or link contains the domain. */
  function ApiRank(organic: seq<Organic>, domain: string): (r: Option<int>)
    ensures r.Some? ==> 1 <= r.value <= |organic|
  {
    RankOf(FindIndex(organic, ApiTest(CanonicalDomain(domain))))
  }

  /** The callback handed to `findIndex`. */
  function ApiTest(d: string): Organic -> bool {
    (r: Organic) => ApiMatches(r, d)
  }

  /** The API copy's rank is the position of the first result that matches. */
  lemma ApiRankFound(organic: seq<Organic>, domain: string)
    ensures var r := ApiRank(organic, domain);
      r.Some? ==> && ApiMatches(organic[r.value - 1], CanonicalDomain(domain))
                  && forall j :: 0 <= j < r.value - 1 ==> !ApiMatches(organic[j], CanonicalDomain(domain))
  {
    var i := FindIndex(organic, ApiTest(CanonicalDomain(domain)));
    if i >= 0 {
      assert ApiTest(CanonicalDomain(domain))(organic[i]);
      forall j | 0 <= j < i ensures !ApiMatches(organic[j], CanonicalDomain(domain)) {
        assert !ApiTest(CanonicalDomain(domain))(organic[j]);
      }
    }
  }

  /** The API copy's rank is null exactly when no result matches. */
  lemma ApiRankMissing(organic: seq<Organic>, domain: string)
    ensures ApiRank(organic, domain).None? <==> forall j :: 0 <= j < |organic| ==> !ApiMatches(organic[j], CanonicalDomain(domain))
  {
    var p := ApiTest(CanonicalDomain(domain));
    var i := FindIndex(organic, p);
    if i >= 0 {
      assert p(organic[i]);
    } else {
      forall j | 0 <= j < |organic| ensures !ApiMatches(organic[j], CanonicalDomain(domain)) {
        assert !p(organic[j]);
      }
    }
  }

  /** The API adapter; `server(q)` is the endpoint's answer to the query `q`. */
  function ApiFetch(key: Option<string>, keyword: string, domain: string,
                    server: string -> Http<SearchResponse>): (c: Call<Position>)
    ensures !Truthy(key) ==> c == Returned(Fail(MissingKey))
    ensures Truthy(key) && (keyword == "" || domain == "") ==> c == Threw(MissingArguments)
    ensures Truthy(key) && keyword != "" && domain != "" ==> c.Returned?
    ensures Truthy(key) && keyword != "" && domain != "" && server(keyword).TransportError? ==>
      c == Returned(Fail(server(keyword).message))
    ensures c.Returned? && c.reply.Ok? ==>
      server(keyword).Response? && !c.reply.fallback &&
      c.reply.normalized.keyword == keyword && c.reply.normalized.domain == domain &&
      c.reply.normalized.rank == ApiRank(OrganicResults(server(keyword).data), domain)
  {
    if !Truthy(key) then Returned(Fail(MissingKey))
    else if keyword == "" || domain == "" then Threw(MissingArguments)
    else
      match server(keyword)
      case TransportError(m) => Returned(Fail(m))
      case Response(data) => Returned(Ok(Position(keyword, domain, ApiRank(OrganicResults(data), domain)), false))
  }

  /** The worker copy's predicate: a case-sensitive search in the displayed link. */
  predicate WorkerMatches(r: Organic, domain: string) {
    Contains(Or(r.displayedLink, ""), domain)
  }

  /** The worker copy's rank. */
  function WorkerRank(organic: seq<Organic>, domain: string): (r: Option<int>)
    ensures r.Some? ==> 1 <= r.value <= |organic|
    ensures r.Some? ==> WorkerMatches(organic[r.value - 1], domain)
    ensures r.Some? ==> forall j :: 0 <= j < r.value - 1 ==> !WorkerMatches(organic[j], domain)
    ensures r.None? <==> forall j :: 0 <= j < |organic| ==> !WorkerMatches(organic[j], domain)
  {
    var p := (r: Organic) => WorkerMatches(r, domain);
    assert forall o :: p(o) == WorkerMatches(o, domain);
    RankOf(FindIndex(organic, p))
  }

  /** The worker adapter. */
  function WorkerFetch(key: Option<string>, keyword: string, domain: string,
                       server: string -> Http<SearchResponse>): (c: Call<Position>)
    ensures !Truthy(key) ==> c == Returned(Fail(MissingKey))
    ensures Truthy(key) && (keyword == "" || domain == "") ==> c == Threw(MissingArguments)
    ensures Truthy(key) && keyword != "" && domain != "" ==> c.Returned?
    ensures Truthy(key) && keyword != "" && domain != "" && server(keyword).TransportError? ==>
      c == Returned(Fail(server(keyword).message))
    ensures c.Returned? && c.reply.Ok? ==>
      server(keyword).Response? && !c.reply.fallback &&
      c.reply.normalized.keyword == keyword && c.reply.normalized.domain == domain &&
      c.reply.normalized.rank == WorkerRank(OrganicResults(server(keyword).data), domain)
  {
    if !Truthy(key) then Returned(Fail(MissingKey))
    else if keyword == "" || domain == "" then Threw(MissingArguments)
    else
      match server(keyword)
      case TransportError(m) => Returned(Fail(m))
      case Response(data) => Returned(Ok(Position(keyword, domain, WorkerRank(OrganicResults(data), domain)), false))
  }

  /** The worker copy ignores `link`: a result whose only match is in its
      link is found by the API copy and not by the worker copy. */
  lemma WorkerIgnoresLink()
    ensures WorkerRank([Organic(None, Some("http://ab"))], "ab") == None
    ensures ApiRank([Organic(None, Some("http://ab"))], "ab") == Some(1)
  {
    assert !Contains("", "ab");
    assert !StartsWithIgnoringCase("http://ab", "https://") by {
      assert LowerChar("http://ab"[4]) != "https://"[4];
    }
    assert StartsWithIgnoringCase("http://ab", "http://");
    assert StripScheme("http://ab") == "ab";
    assert StripWwwIgnoringCase("ab") == "ab";
    assert Lower("ab") == "ab";
    assert Contains("ab", "ab");
  }

  /** The worker copy is case-sensitive: an upper-case displayed link is
      found by the API copy only. */
  lemma WorkerIsCaseSensitive()
    ensures WorkerRank([Organic(Some("AB"), None)], "ab") == None
    ensures ApiRank([Organic(Some("AB"), None)], "ab") == Some(1)
  {
    assert "AB"[..2] != "ab" by { assert "AB"[0] != "ab"[0]; }
    assert !Contains("AB"[1..], "ab");
    assert !Contains("AB", "ab");
    assert StripScheme("AB") == "AB";
    assert StripWwwIgnoringCase("AB") == "AB";
    assert Lower("AB") == "ab";
    assert StripWwwIgnoringCase("ab") == "ab";
    assert Lower("ab") == "ab";
    assert Contains("ab", "ab");
  }
}
