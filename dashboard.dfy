/** The dashboard's derived figures (`App.jsx`): the analytics computed from
    an audit's stored scores, the usability index derived from a PageSpeed
    reply, the "still running" flag, and the clamps of the two charts. */
module Dashboard {
  import opened Js
  import opened Provider
  import PageSpeed
  import Score
  import opened AuditModel

  // ---------------------------------------------------------------------------
  // isRunning

  /** `audit && (audit.status === 'queued' || audit.status === 'running')`;
      None is "no audit loaded yet". */
  predicate IsRunning(status: Option<Status>) {
    status == Some(Queued) || status == Some(Running)
  }

  /** The dashboard polls exactly while the loaded audit is not terminal. */
  lemma RunningIffNotTerminal(status: Option<Status>)
    ensures IsRunning(status) <==> status.Some? && !IsTerminal(status.value)
  {
    if status.Some? {
      match status.value
      case Queued =>
      case Running =>
      case Done =>
      case Failed =>
    }
  }

  // ---------------------------------------------------------------------------
  // analytics

  /** `typeof s[k] === 'number' ? s[k] : null`, filtered: a present score
      contributes itself, a missing one nothing. */
  function Present(v: Option<int>): (r: seq<int>)
    ensures |r| <= 1
    ensures v.Some? ==> r == [v.value]
    ensures v.None? ==> r == []
  {
    if v.Some? then [v.value] else []
  }

  /** `vals`: the numeric scores among `seo, rank, domainRank, social, overall`,
      in that order. */
  function Values(s: Score.ScoreSet): (r: seq<int>)
    ensures |r| == (if s.seo.Some? then 1 else 0) + (if s.rank.Some? then 1 else 0)
                 + (if s.domainRank.Some? then 1 else 0) + (if s.social.Some? then 1 else 0)
                 + (if s.overall.Some? then 1 else 0)
    ensures |r| <= 5
    ensures |r| == 0 <==> s == Score.NoScores
    ensures |r| == 5 <==> s.seo.Some? && s.rank.Some? && s.domainRank.Some? && s.social.Some? && s.overall.Some?
  {
    Present(s.seo) + Present(s.rank) + Present(s.domainRank) + Present(s.social) + Present(s.overall)
  }

  /** Every chosen score lies between `lo` and `hi`. */
  predicate AllBetween(s: Score.ScoreSet, lo: int, hi: int) {
    && (s.seo.Some? ==> lo <= s.seo.value <= hi)
    && (s.rank.Some? ==> lo <= s.rank.value <= hi)
    && (s.domainRank.Some? ==> lo <= s.domainRank.value <= hi)
    && (s.social.Some? ==> lo <= s.social.value <= hi)
    && (s.overall.Some? ==> lo <= s.overall.value <= hi)
  }

  /** `vals.reduce((a, b) => a + b, 0)`. */
  function Sum(xs: seq<int>): int {
    if xs == [] then 0 else Sum(xs[..|xs| - 1]) + xs[|xs| - 1]
  }

  /** A sum of `n` values in `lo..hi` lies in `n*lo .. n*hi`. */
  lemma {:induction false} SumBounds(xs: seq<int>, lo: int, hi: int)
    requires forall i :: 0 <= i < |xs| ==> lo <= xs[i] <= hi
    ensures lo * |xs| <= Sum(xs) <= hi * |xs|
  {
    if xs != [] {
      SumBounds(xs[..|xs| - 1], lo, hi);
    }
  }

  /** `vals.length ? Math.round(sum / vals.length) : 0`: the integer nearest
      the mean, halves rounded up. */
  function Average(xs: seq<int>): (r: int)
    ensures xs == [] ==> r == 0
    ensures xs != [] ==> (r as real - 0.5) * |xs| as real <= Sum(xs) as real < (r as real + 0.5) * |xs| as real
  {
    if xs == [] then 0
    else
      var n := |xs| as real;
      var mean := Sum(xs) as real / n;
      RoundIsNearest(mean);
      assert mean * n == Sum(xs) as real;
      MultiplyBelow(Round(mean) as real - 0.5, mean, n);
      MultiplyStrictlyBelow(mean, Round(mean) as real + 0.5, n);
      Round(mean)
  }

  lemma MultiplyBelow(x: real, y: real, n: real)
    requires x <= y && n > 0.0
    ensures x * n <= y * n
  {
  }

  lemma MultiplyStrictlyBelow(x: real, y: real, n: real)
    requires x < y && n > 0.0
    ensures x * n < y * n
  {
  }

  /** The rounded mean of values in `lo..hi` stays in `lo..hi`. */
  lemma AverageBetween(xs: seq<int>, lo: int, hi: int)
    requires xs != []
    requires forall i :: 0 <= i < |xs| ==> lo <= xs[i] <= hi
    ensures lo <= Average(xs) <= hi
  {
    SumBounds(xs, lo, hi);
    Score.QuotientBetween(Sum(xs), |xs|, lo, hi);
    RoundMonotone(lo as real, Sum(xs) as real / |xs| as real);
    RoundMonotone(Sum(xs) as real / |xs| as real, hi as real);
    RoundOfInt(lo);
    RoundOfInt(hi);
  }

  /** The values of a score set between `lo` and `hi` are all between them. */
  lemma ValuesBetween(s: Score.ScoreSet, lo: int, hi: int)
    requires AllBetween(s, lo, hi)
    ensures forall i :: 0 <= i < |Values(s)| ==> lo <= Values(s)[i] <= hi
  {
  }

  /** `nonNull`: every key present, a non-numeric score replaced by 0. */
  datatype Categories = Categories(seo: int, rank: int, domainRank: int, social: int, overall: int)

  /** The object the `analytics` memo returns. */
  datatype Analytics = Analytics(avg: int, completeness: int, count: nat, categories: Categories, overall: int)

  /** `typeof v === 'number' ? v : 0`. */
  function OrZero(v: Option<int>): (r: int)
    ensures v.Some? ==> r == v.value
    ensures v.None? ==> r == 0
  {
    if v.Some? then v.value else 0
  }

  /** The number of keys the analytics look at. */
  const KeyCount := 5

  /** `analytics` for `audit?.scores || {}`; None is a missing or null
      `scores` value, read as `{}`. */
  function AnalyticsOf(scores: Option<Score.ScoreSet>): (a: Analytics)
    ensures var s := if scores.Some? then scores.value else Score.NoScores;
      && a.count == |Values(s)| <= KeyCount
      && a.completeness == 20 * a.count
      && a.categories == Categories(OrZero(s.seo), OrZero(s.rank), OrZero(s.domainRank), OrZero(s.social), OrZero(s.overall))
      && a.avg == Average(Values(s))
      && (a.count == 0 ==> a.avg == 0)
      && (s.overall.Some? ==> a.overall == s.overall.value)
      && (s.overall.None? ==> a.overall == a.avg)
  {
    var s := if scores.Some? then scores.value else Score.NoScores;
    var vals := Values(s);
    var avg := Average(vals);
    var completeness := Round((|vals| as real / KeyCount as real) * 100.0);
    assert (|vals| as real / KeyCount as real) * 100.0 == (20 * |vals|) as real;
    RoundOfInt(20 * |vals|);
    Analytics(avg, completeness, |vals|,
              Categories(OrZero(s.seo), OrZero(s.rank), OrZero(s.domainRank), OrZero(s.social), OrZero(s.overall)),
              if s.overall.Some? then s.overall.value else avg)
  }

  /** With every stored score in `lo..hi`, the average and the overall figure
      are in `lo..hi` too (for scores in 0..100, both are percentages). */
  lemma AnalyticsBetween(scores: Score.ScoreSet, lo: int, hi: int)
    requires scores != Score.NoScores
    requires AllBetween(scores, lo, hi)
    ensures lo <= AnalyticsOf(Some(scores)).avg <= hi
    ensures lo <= AnalyticsOf(Some(scores)).overall <= hi
  {
    ValuesBetween(scores, lo, hi);
    AverageBetween(Values(scores), lo, hi);
  }

  /** A record without scores (or with every score null) shows zeros. */
  lemma AnalyticsOfEmpty()
    ensures AnalyticsOf(None) == Analytics(0, 0, 0, Categories(0, 0, 0, 0, 0), 0)
    ensures AnalyticsOf(Some(Score.NoScores)) == AnalyticsOf(None)
  {
  }

  // ---------------------------------------------------------------------------
  // usability

  /** The LCP penalty: 20 above 4000 ms, 10 above 2500 ms, none when absent. */
  function LcpPenalty(lcpMs: Option<real>): (p: int)
    ensures p == 20 <==> lcpMs.Some? && lcpMs.value > 4000.0
    ensures p == 10 <==> lcpMs.Some? && 2500.0 < lcpMs.value <= 4000.0
    ensures p == 0 <==> lcpMs.None? || lcpMs.value <= 2500.0
  {
    if lcpMs.None? then 0
    else if lcpMs.value > 4000.0 then 20
    else if lcpMs.value > 2500.0 then 10
    else 0
  }

  /** The TBT penalty: 25 above 600 ms, 10 above 300 ms, none when absent. */
  function TbtPenalty(tbtMs: Option<real>): (p: int)
    ensures p == 25 <==> tbtMs.Some? && tbtMs.value > 600.0
    ensures p == 10 <==> tbtMs.Some? && 300.0 < tbtMs.value <= 600.0
    ensures p == 0 <==> tbtMs.None? || tbtMs.value <= 300.0
  {
    if tbtMs.None? then 0
    else if tbtMs.value > 600.0 then 25
    else if tbtMs.value > 300.0 then 10
    else 0
  }

  /** The CLS penalty: 20 above 0.25, 10 above 0.1, none when absent. */
  function ClsPenalty(cls: Option<real>): (p: int)
    ensures p == 20 <==> cls.Some? && cls.value > 0.25
    ensures p == 10 <==> cls.Some? && 0.1 < cls.value <= 0.25
    ensures p == 0 <==> cls.None? || cls.value <= 0.1
  {
    if cls.None? then 0
    else if cls.value > 0.25 then 20
    else if cls.value > 0.1 then 10
    else 0
  }

  /** The usability index of `perf?.providers?.pageSpeed?.normalized`: null
      without normalised metrics, else the clamped 100 minus the penalties.
      None is "no snapshot fetched"; a failed reply has no `normalized`. */
  function UsabilityOf(pageSpeed: Option<Reply<PageSpeed.Metrics>>): (u: Option<int>)
    ensures u.None? <==> Normalized(pageSpeed).None?
    ensures u.Some? ==> 35 <= u.value <= 100
  {
    match Normalized(pageSpeed)
    case None => None
    case Some(m) => Some(Score.Clamp((100 - LcpPenalty(m.lcpMs) - TbtPenalty(m.tbtMs) - ClsPenalty(m.cls)) as real))
  }

  /** `usability`: start at 100 and subtract each penalty in turn, then clamp. */
  method Usability(pageSpeed: Option<Reply<PageSpeed.Metrics>>) returns (u: Option<int>)
    ensures u == UsabilityOf(pageSpeed)
  {
    var ps := Normalized(pageSpeed);
    if ps.None? {
      return None;
    }
    var m := ps.value;
    var score := 100;
    if m.lcpMs.Some? {
      if m.lcpMs.value > 4000.0 {
        score := score - 20;
      } else if m.lcpMs.value > 2500.0 {
        score := score - 10;
      }
    }
    if m.tbtMs.Some? {
      if m.tbtMs.value > 600.0 {
        score := score - 25;
      } else if m.tbtMs.value > 300.0 {
        score := score - 10;
      }
    }
    if m.cls.Some? {
      if m.cls.value > 0.25 {
        score := score - 20;
      } else if m.cls.value > 0.1 {
        score := score - 10;
      }
    }
    u := Some(Score.Clamp(score as real));
  }

  /** The index is exactly 100 minus the three penalties: the clamp never bites. */
  lemma UsabilityIsPenalised(pageSpeed: Option<Reply<PageSpeed.Metrics>>)
    requires Normalized(pageSpeed).Some?
    ensures var m := Normalized(pageSpeed).value;
      UsabilityOf(pageSpeed) == Some(100 - LcpPenalty(m.lcpMs) - TbtPenalty(m.tbtMs) - ClsPenalty(m.cls))
  {
    var m := Normalized(pageSpeed).value;
    Score.ClampOfScore(100 - LcpPenalty(m.lcpMs) - TbtPenalty(m.tbtMs) - ClsPenalty(m.cls));
  }

  /** A metric is no worse than another: absent counts as best. */
  predicate NoWorse(a: Option<real>, b: Option<real>) {
    a.None? || (b.Some? && a.value <= b.value)
  }

  /** Lower (or missing) metrics never lower the index. */
  lemma UsabilityMonotone(better: PageSpeed.Metrics, worse: PageSpeed.Metrics)
    requires NoWorse(better.lcpMs, worse.lcpMs)
    requires NoWorse(better.tbtMs, worse.tbtMs)
    requires NoWorse(better.cls, worse.cls)
    ensures UsabilityOf(Some(Ok(worse, false))).value <= UsabilityOf(Some(Ok(better, false))).value
  {
    UsabilityIsPenalised(Some(Ok(worse, false)));
    UsabilityIsPenalised(Some(Ok(better, false)));
  }

  /** Fast pages and pages without Lighthouse metrics score 100; the slowest
      score 35. */
  lemma UsabilityExtremes(m: PageSpeed.Metrics)
    ensures NoWorse(m.lcpMs, Some(2500.0)) && NoWorse(m.tbtMs, Some(300.0)) && NoWorse(m.cls, Some(0.1))
      ==> UsabilityOf(Some(Ok(m, false))) == Some(100)
    ensures (m.lcpMs.Some? && m.lcpMs.value > 4000.0 && m.tbtMs.Some? && m.tbtMs.value > 600.0
             && m.cls.Some? && m.cls.value > 0.25)
      ==> UsabilityOf(Some(Ok(m, false))) == Some(35)
  {
    UsabilityIsPenalised(Some(Ok(m, false)));
  }

  // ---------------------------------------------------------------------------
  // Donut and Bars

  /** `Donut`'s `Math.max(0, Math.min(100, value))`, `value` defaulting to 0. */
  function DonutValue(value: Option<real>): (r: real)
    ensures 0.0 <= r <= 100.0
    ensures value.None? ==> r == 0.0
    ensures value.Some? && 0.0 <= value.value <= 100.0 ==> r == value.value
    ensures value.Some? && value.value < 0.0 ==> r == 0.0
    ensures value.Some? && value.value > 100.0 ==> r == 100.0
  {
    var v := if value.Some? then value.value else 0.0;
    if v > 100.0 then 100.0 else if v < 0.0 then 0.0 else v
  }

  /** The number in the middle of the donut: `Math.round(clamped)`. */
  function DonutLabel(value: Option<real>): (r: int)
    ensures 0 <= r <= 100
  {
    RoundMonotone(0.0, DonutValue(value));
    RoundMonotone(DonutValue(value), 100.0);
    RoundOfInt(0);
    RoundOfInt(100);
    Round(DonutValue(value))
  }

  /** `Bars`: `typeof v === 'number' ? Math.max(0, Math.min(100, v)) : 0`. */
  function BarValue(v: Option<int>): (r: int)
    ensures 0 <= r <= 100
    ensures v.None? ==> r == 0
    ensures v.Some? && 0 <= v.value <= 100 ==> r == v.value
    ensures v.Some? && v.value < 0 ==> r == 0
    ensures v.Some? && v.value > 100 ==> r == 100
  {
    if v.None? then 0 else if v.value > 100 then 100 else if v.value < 0 then 0 else v.value
  }

  /** Both clamps are monotone: a higher score never draws a shorter bar or arc. */
  lemma ClampsMonotone(x: int, y: int)
    requires x <= y
    ensures BarValue(Some(x)) <= BarValue(Some(y))
    ensures DonutValue(Some(x as real)) <= DonutValue(Some(y as real))
    ensures DonutLabel(Some(x as real)) <= DonutLabel(Some(y as real))
  {
    RoundMonotone(DonutValue(Some(x as real)), DonutValue(Some(y as real)));
  }
}
