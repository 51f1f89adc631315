/** The providers demo route (`packages/api/src/routes/providers-demo.js`):
    call the three API-side adapters once for a URL, without retries or
    fallbacks, and return their replies with the scores over them. */
module ProvidersDemo {
  import opened Js
  import opened Provider
  import PageSpeed
  import OpenPageRank
  import SerpApi
  import Score

  /** The endpoints the adapters reach, and the hostname `new URL` finds. */
  datatype Endpoints = Endpoints(
    pageSpeed: string -> Http<PageSpeed.Report>,
    openPageRank: string -> Http<OpenPageRank.RankResponse>,
    serp: string -> Http<SerpApi.SearchResponse>,
    host: string -> Option<string>)

  /** What the route answers: `{ ok: true, providers, scores, normalized: { domain } }`
      or a 400. */
  datatype DemoResponse =
    | Demo(pageSpeed: Reply<PageSpeed.Metrics>, openPageRank: Reply<OpenPageRank.DomainRank>,
           serp: Option<Reply<SerpApi.Position>>, scores: Score.ScoreSet, domain: string)
    | DemoBadRequest(error: string)

  const UrlRequired := "url is required"

  /** Where the domain comes from: the given one, else the URL's hostname,
      else the URL itself. */
  function DomainSource(url: string, domain: string, host: string -> Option<string>): string {
    if domain != "" then domain
    else if host(url).Some? then host(url).value
    else url
  }

  /** The final domain: one scheme and one `www.` stripped from the source,
      cut at the first slash. */
  function DemoDomain(url: string, domain: string, host: string -> Option<string>): (r: string)
    ensures '/' !in r
    ensures var rest := StripWwwIgnoringCase(StripScheme(DomainSource(url, domain, host)));
      |r| <= |rest| && r == rest[..|r|] && (|r| < |rest| ==> rest[|r|] == '/')
  {
    BeforeSlash(StripWwwIgnoringCase(StripScheme(DomainSource(url, domain, host))))
  }

  /** `GET /api/providers-demo?url=…&keyword=…&domain=…`, reassigning
      `domain` step by step as the source does. */
  method ProvidersDemo(url: Option<string>, keyword: Option<string>, domain: Option<string>,
                       openPageRankKey: Option<string>, serpApiKey: Option<string>, net: Endpoints)
    returns (r: DemoResponse)
    ensures Trim(Or(url, "")) == "" <==> r == DemoBadRequest(UrlRequired)
    ensures r.Demo? ==>
      var u := Trim(Or(url, ""));
      var kw := Trim(Or(keyword, ""));
      && r.domain == DemoDomain(u, Trim(Or(domain, "")), net.host)
      && '/' !in r.domain
      && r.pageSpeed == Caught(PageSpeed.Fetch(u, net.pageSpeed))
      && r.openPageRank == Caught(OpenPageRank.ApiFetch(openPageRankKey, r.domain, net.openPageRank))
      && (r.serp.None? <==> kw == "" || r.domain == "")
      && (r.serp.Some? ==> r.serp.value == Caught(SerpApi.ApiFetch(serpApiKey, kw, r.domain, net.serp)))
      && r.scores == Score.Scores(Some(r.pageSpeed), Some(r.openPageRank), r.serp)
  {
    var u := Trim(Or(url, ""));
    var kw := Trim(Or(keyword, ""));
    var d := Trim(Or(domain, ""));
    if u == "" {
      return DemoBadRequest(UrlRequired);
    }
    if d == "" {
      match net.host(u) {
        case Some(h) => d := h;
        case None => d := u;
      }
    }
    assert d == DomainSource(u, Trim(Or(domain, "")), net.host);
    d := BeforeSlash(StripWwwIgnoringCase(StripScheme(d)));
    assert d == DemoDomain(u, Trim(Or(domain, "")), net.host);
    r := CallAdapters(u, kw, d, openPageRankKey, serpApiKey, net);
  }

  /** The three adapter calls for a URL, a keyword and a normalised domain,
      each with its error turned into a failed reply, and the scores over them. */
  method CallAdapters(url: string, keyword: string, domain: string,
                      openPageRankKey: Option<string>, serpApiKey: Option<string>, net: Endpoints)
    returns (r: DemoResponse)
    ensures r.Demo? && r.domain == domain
    ensures r.pageSpeed == Caught(PageSpeed.Fetch(url, net.pageSpeed))
    ensures r.openPageRank == Caught(OpenPageRank.ApiFetch(openPageRankKey, domain, net.openPageRank))
    ensures r.serp.None? <==> keyword == "" || domain == ""
    ensures r.serp.Some? ==> r.serp.value == Caught(SerpApi.ApiFetch(serpApiKey, keyword, domain, net.serp))
    ensures r.scores == Score.Scores(Some(r.pageSpeed), Some(r.openPageRank), r.serp)
  {
    var ps := Caught(PageSpeed.Fetch(url, net.pageSpeed));
    var opr := Caught(OpenPageRank.ApiFetch(openPageRankKey, domain, net.openPageRank));
    var serp: Option<Reply<SerpApi.Position>> := None;
    if keyword != "" && domain != "" {
      serp := Some(Caught(SerpApi.ApiFetch(serpApiKey, keyword, domain, net.serp)));
    }
    var scores := Score.ComputeScores(Some(ps), Some(opr), serp);
    r := Demo(ps, opr, serp, scores, domain);
  }
}
