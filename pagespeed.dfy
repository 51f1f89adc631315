/** The PageSpeed Insights adapter (`fetchPageSpeed`). The API and worker
    copies differ only in their request timeout, so one model covers both. */
module PageSpeed {
  import opened Js
  import opened Provider

  /** The normalised performance result: a 0..100 performance score and four
      Lighthouse metrics, each null when the report lacks it. */
  datatype Metrics = Metrics(
    performance: Option<int>,
    fcpMs: Option<real>,
    lcpMs: Option<real>,
    tbtMs: Option<real>,
    cls: Option<real>)

  /** The parts of a Lighthouse report the adapter reads; every level may be absent. */
  datatype AuditEntry = AuditEntry(numericValue: Option<real>)
  datatype Category = Category(score: Option<real>)
  datatype Categories = Categories(performance: Option<Category>)
  datatype LighthouseResult = LighthouseResult(
    categories: Option<Categories>,
    audits: Option<map<string, AuditEntry>>)
  datatype Report = Report(lighthouseResult: Option<LighthouseResult>)

  const FirstContentfulPaint := "first-contentful-paint"
  const LargestContentfulPaint := "largest-contentful-paint"
  const TotalBlockingTime := "total-blocking-time"
  const CumulativeLayoutShift := "cumulative-layout-shift"

  /** `categories.performance?.score ?? null` (a 0..1 fraction). */
  function PerformanceFraction(report: Report): Option<real> {
    match report.lighthouseResult
    case None => None
    case Some(lh) =>
      match lh.categories
      case None => None
      case Some(cats) =>
        match cats.performance
        case None => None
        case Some(cat) => cat.score
  }

  /** `metrics[id]?.numericValue ?? null`. */
  function Metric(report: Report, id: string): Option<real> {
    if report.lighthouseResult.Some? && report.lighthouseResult.value.audits.Some?
       && id in report.lighthouseResult.value.audits.value
    then report.lighthouseResult.value.audits.value[id].numericValue
    else None
  }

  /** The Lighthouse-to-normalised mapping of a successful response. */
  function Normalize(report: Report): (m: Metrics)
    ensures m.performance.Some? <==> PerformanceFraction(report).Some?
    ensures m.performance.Some? ==> m.performance.value == Round(PerformanceFraction(report).value * 100.0)
    ensures m.fcpMs == Metric(report, FirstContentfulPaint)
    ensures m.lcpMs == Metric(report, LargestContentfulPaint)
    ensures m.tbtMs == Metric(report, TotalBlockingTime)
    ensures m.cls == Metric(report, CumulativeLayoutShift)
  {
    var perf := PerformanceFraction(report);
    Metrics(
      if perf.Some? then Some(Round(perf.value * 100.0)) else None,
      Metric(report, FirstContentfulPaint),
      Metric(report, LargestContentfulPaint),
      Metric(report, TotalBlockingTime),
      Metric(report, CumulativeLayoutShift))
  }

  /** `fetchPageSpeed(url)` against an endpoint that answers the request for
      `url` with `server(url)`. The API key only decorates the request, so it
      is not a parameter: its absence is not an error. */
  function Fetch(url: string, server: string -> Http<Report>): (c: Call<Metrics>)
    ensures c.Threw? <==> url == ""
    ensures c.Threw? ==> c.message == "url required"
    ensures c.Returned? && c.reply.Fail? <==> url != "" && server(url).TransportError?
    ensures c.Returned? && c.reply.Fail? ==> c.reply.error == server(url).message
    ensures c.Returned? && c.reply.Ok? ==> !c.reply.fallback && c.reply.normalized == Normalize(server(url).data)
  {
    if url == "" then Threw("url required")
    else
      match server(url)
      case TransportError(m) => Returned(Fail(m))
      case Response(data) => Returned(Ok(Normalize(data), false))
  }

  /** A response without a Lighthouse result is still a success, with every
      normalised field null. */
  lemma MissingLighthouseIsAllNull(url: string, server: string -> Http<Report>)
    requires url != "" && server(url) == Response(Report(None))
    ensures Fetch(url, server) == Returned(Ok(Metrics(None, None, None, None, None), false))
  {
  }
}
