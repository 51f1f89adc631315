/** The Open PageRank adapters (`fetchOpenPageRank`): the API copy sends its
    argument as given; the worker copy first normalises it to a bare domain. */
module OpenPageRank {
  import opened Js
  import opened Provider

  /** A JSON scalar, as found in the response's `rank` field. */
  datatype Scalar = Num(n: real) | Str(s: string) | Bool(b: bool)

  /** One element of the response's `response` array; both fields may be absent or null. */
  datatype Entry = Entry(rank: Option<Scalar>, domain: Option<string>)

  /** The decoded body: `{ response?: [...] }`. */
  datatype RankResponse = RankResponse(response: Option<seq<Entry>>)

  /** The normalised result: a domain and a 0..10 rank, each possibly null. */
  datatype DomainRank = DomainRank(domain: Option<string>, rank: Option<real>)

  const MissingKey := "OPEN_PAGERANK_API_KEY not set"
  const MissingInput := "domainOrUrl required"

  /** `data?.response?.[0] || {}`. */
  function FirstEntry(data: RankResponse): Entry {
    if data.response.Some? && |data.response.value| > 0 then data.response.value[0]
    else Entry(None, None)
  }

  /** `typeof score === 'number' ? score : null`. */
  function NumericRank(e: Entry): (r: Option<real>)
    ensures r.Some? <==> e.rank.Some? && e.rank.value.Num?
    ensures r.Some? ==> r.value == e.rank.value.n
  {
    if e.rank.Some? && e.rank.value.Num? then Some(e.rank.value.n) else None
  }

  /** The API adapter. `server(d)` is the endpoint's answer to a request for `d`. */
  function ApiFetch(key: Option<string>, domainOrUrl: string, server: string -> Http<RankResponse>): (c: Call<DomainRank>)
    ensures !Truthy(key) ==> c == Returned(Fail(MissingKey))
    ensures Truthy(key) && domainOrUrl == "" ==> c == Threw(MissingInput)
    ensures Truthy(key) && domainOrUrl != "" ==> c.Returned?
    ensures Truthy(key) && domainOrUrl != "" && server(domainOrUrl).TransportError? ==> c == Returned(Fail(server(domainOrUrl).message))
    ensures c.Returned? && c.reply.Ok? ==>
      server(domainOrUrl).Response? && !c.reply.fallback &&
      c.reply.normalized.rank == NumericRank(FirstEntry(server(domainOrUrl).data)) &&
      c.reply.normalized.domain == NullIfEmpty(Or(FirstEntry(server(domainOrUrl).data).domain, ""))
  {
    if !Truthy(key) then Returned(Fail(MissingKey))
    else if domainOrUrl == "" then Threw(MissingInput)
    else
      match server(domainOrUrl)
      case TransportError(m) => Returned(Fail(m))
      case Response(data) =>
        var result := FirstEntry(data);
        Returned(Ok(DomainRank(if Truthy(result.domain) then result.domain else None, NumericRank(result)), false))
  }

  /** The worker's `normalizeDomain`. `host(s)` is the hostname `new URL(s)`
      yields, or None when that constructor throws. */
  function NormalizeDomain(input: string, host: string -> Option<string>): (r: string)
    ensures input == "" ==> r == ""
    ensures input != "" && host(input).Some? ==> r == StripWww(host(input).value)
    ensures input != "" && host(input).None? ==> '/' !in r
  {
    if input == "" then input
    else
      match host(input)
      case Some(h) => StripWww(h)
      case None => BeforeSlash(StripWwwIgnoringCase(StripScheme(input)))
  }

  /** Without a parsable URL, normalisation drops one scheme and one `www.`
      and ends at the first slash: the result is a prefix of what is left. */
  lemma NormalizeDomainFallback(input: string, host: string -> Option<string>)
    requires input != "" && host(input).None?
    ensures var rest := StripWwwIgnoringCase(StripScheme(input));
      var r := NormalizeDomain(input, host);
      r == rest[..|r|] && (|r| < |rest| ==> rest[|r|] == '/')
  {
  }

  /** The worker adapter: the same guards, but the request carries the
      normalised domain, and a missing response domain falls back to it. */
  function WorkerFetch(key: Option<string>, domainOrUrl: string, host: string -> Option<string>,
                       server: string -> Http<RankResponse>): (c: Call<DomainRank>)
    ensures !Truthy(key) ==> c == Returned(Fail(MissingKey))
    ensures Truthy(key) && domainOrUrl == "" ==> c == Threw(MissingInput)
    ensures Truthy(key) && domainOrUrl != "" ==> c.Returned?
    ensures c.Returned? && c.reply.Ok? ==>
      var d := NormalizeDomain(domainOrUrl, host);
      server(d).Response? && !c.reply.fallback &&
      c.reply.normalized.rank == NumericRank(FirstEntry(server(d).data)) &&
      c.reply.normalized.domain == Some(Or(FirstEntry(server(d).data).domain, d))
    ensures Truthy(key) && domainOrUrl != "" && server(NormalizeDomain(domainOrUrl, host)).TransportError? ==>
      c == Returned(Fail(server(NormalizeDomain(domainOrUrl, host)).message))
  {
    if !Truthy(key) then Returned(Fail(MissingKey))
    else if domainOrUrl == "" then Threw(MissingInput)
    else
      var domain := NormalizeDomain(domainOrUrl, host);
      match server(domain)
      case TransportError(m) => Returned(Fail(m))
      case Response(data) =>
        var result := FirstEntry(data);
        Returned(Ok(DomainRank(Some(Or(result.domain, domain)), NumericRank(result)), false))
  }
}
