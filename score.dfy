/** The score aggregator (`services/score.js`; the API and worker packages
    carry the same code): category scores on a 0..100 integer scale and a
    weighted overall score over whichever categories are present. */
module Score {
  import opened Js
  import opened Provider
  import PageSpeed
  import OpenPageRank
  import SerpApi

  /** `{ seo, rank, domainRank, social, overall }`, each a 0..100 integer or null. */
  datatype ScoreSet = ScoreSet(
    seo: Option<int>,
    rank: Option<int>,
    domainRank: Option<int>,
    social: Option<int>,
    overall: Option<int>)

  const NoScores := ScoreSet(None, None, None, None, None)

  predicate InRange(s: Option<int>) {
    s.Some? ==> 0 <= s.value <= 100
  }

  // ---------------------------------------------------------------------------
  // clamp

  /** `clamp(n)`: `Math.round(n)` limited to [0, 100]. */
  function Clamp(n: real): (r: int)
    ensures 0 <= r <= 100
    ensures 0 <= Round(n) <= 100 ==> r == Round(n)
    ensures Round(n) < 0 ==> r == 0
    ensures Round(n) > 100 ==> r == 100
  {
    var k := Round(n);
    if k < 0 then 0 else if k > 100 then 100 else k
  }

  lemma ClampMonotone(x: real, y: real)
    requires x <= y
    ensures Clamp(x) <= Clamp(y)
  {
    RoundMonotone(x, y);
  }

  /** An integer already in range passes through unchanged. */
  lemma ClampOfScore(n: int)
    requires 0 <= n <= 100
    ensures Clamp(n as real) == n
  {
    RoundOfInt(n);
  }

  // ---------------------------------------------------------------------------
  // scoreFromPageSpeed

  /** The CLS penalty: 10 above 0.25, 5 above 0.1, none otherwise or when absent. */
  function ClsPenalty(cls: Option<real>): (p: int)
    ensures p == 10 <==> cls.Some? && cls.value > 0.25
    ensures p == 5 <==> cls.Some? && 0.1 < cls.value <= 0.25
    ensures p == 0 <==> cls.None? || cls.value <= 0.1
  {
    if cls.None? then 0 else if cls.value > 0.25 then 10 else if cls.value > 0.1 then 5 else 0
  }

  /** The total-blocking-time penalty: 10 above 600 ms, 5 above 300 ms. */
  function TbtPenalty(tbtMs: Option<real>): (p: int)
    ensures p == 10 <==> tbtMs.Some? && tbtMs.value > 600.0
    ensures p == 5 <==> tbtMs.Some? && 300.0 < tbtMs.value <= 600.0
    ensures p == 0 <==> tbtMs.None? || tbtMs.value <= 300.0
  {
    if tbtMs.None? then 0 else if tbtMs.value > 600.0 then 10 else if tbtMs.value > 300.0 then 5 else 0
  }

  /** The seo score: the performance score less both penalties, clamped. */
  function Seo(ps: Option<PageSpeed.Metrics>): (r: Option<int>)
    ensures r.None? <==> ps.None? || ps.value.performance.None?
    ensures InRange(r)
    ensures r.Some? ==> var perf := ps.value.performance.value as real;
      Clamp(perf - 20.0) <= r.value <= Clamp(perf)
  {
    if ps.None? || ps.value.performance.None? then None
    else
      var perf := ps.value.performance.value;
      var p := ClsPenalty(ps.value.cls) + TbtPenalty(ps.value.tbtMs);
      ClampMonotone(perf as real - 20.0, (perf - p) as real);
      ClampMonotone((perf - p) as real, perf as real);
      Some(Clamp((perf - p) as real))
  }

  /** `scoreFromPageSpeed(ps)`, decrementing `s` in the source's order. */
  method ScoreFromPageSpeed(ps: Option<PageSpeed.Metrics>) returns (r: Option<int>)
    ensures r == Seo(ps)
  {
    if ps.None? || ps.value.performance.None? {
      return None;
    }
    var s := ps.value.performance.value;
    if ps.value.cls.Some? {
      if ps.value.cls.value > 0.25 {
        s := s - 10;
      } else if ps.value.cls.value > 0.1 {
        s := s - 5;
      }
    }
    if ps.value.tbtMs.Some? {
      if ps.value.tbtMs.value > 600.0 {
        s := s - 10;
      } else if ps.value.tbtMs.value > 300.0 {
        s := s - 5;
      }
    }
    r := Some(Clamp(s as real));
  }

  /** Performance 80 with CLS 0.3 and TBT 700 ms loses both full penalties. */
  lemma SeoExample()
    ensures Seo(Some(PageSpeed.Metrics(Some(80), None, None, Some(700.0), Some(0.3)))) == Some(60)
  {
    ClampOfScore(60);
  }

  // ---------------------------------------------------------------------------
  // scoreFromOpenPageRank and scoreFromSerpRank

  /** `scoreFromOpenPageRank(opr)`: the 0..10 rank scaled to 0..100. */
  function DomainRankScore(opr: Option<OpenPageRank.DomainRank>): (r: Option<int>)
    ensures r.None? <==> opr.None? || opr.value.rank.None?
    ensures InRange(r)
  {
    if opr.None? || opr.value.rank.None? then None else Some(Clamp(opr.value.rank.value * 10.0))
  }

  /** Domain rank 10 scores 100, 0 scores 0, and a higher rank never scores less. */
  lemma DomainRankScoreScale(a: real, b: real)
    requires a <= b
    ensures DomainRankScore(Some(OpenPageRank.DomainRank(None, Some(10.0)))) == Some(100)
    ensures DomainRankScore(Some(OpenPageRank.DomainRank(None, Some(0.0)))) == Some(0)
    ensures DomainRankScore(Some(OpenPageRank.DomainRank(None, Some(a)))).value
         <= DomainRankScore(Some(OpenPageRank.DomainRank(None, Some(b)))).value
  {
    ClampOfScore(100);
    ClampOfScore(0);
    ClampMonotone(a * 10.0, b * 10.0);
  }

  /** `scoreFromSerpRank(rank)`: `100 - (rank - 1) * (98 / 49)`, clamped. */
  function SerpScore(rank: Option<int>): (r: Option<int>)
    ensures r.None? <==> rank.None?
    ensures InRange(r)
  {
    if rank.None? then None else Some(Clamp(100.0 - ((rank.value as real - 1.0) * (98.0 / 49.0))))
  }

  /** On the first 50 positions the score is exactly 102 - 2 * rank; before
      position 1 it is 100 and from position 51 on it is 0. */
  lemma SerpScoreClosedForm(rank: int)
    ensures 1 <= rank <= 50 ==> SerpScore(Some(rank)) == Some(102 - 2 * rank)
    ensures rank <= 1 ==> SerpScore(Some(rank)) == Some(100)
    ensures rank >= 51 ==> SerpScore(Some(rank)) == Some(0)
  {
    var s := 100.0 - ((rank as real - 1.0) * (98.0 / 49.0));
    assert s == (102 - 2 * rank) as real;
    RoundOfInt(102 - 2 * rank);
  }

  /** Rank 1 scores 100, rank 50 scores 2, and the score strictly falls in between. */
  lemma SerpScoreDecreasing(a: int, b: int)
    requires 1 <= a < b <= 50
    ensures SerpScore(Some(1)) == Some(100) && SerpScore(Some(50)) == Some(2)
    ensures SerpScore(Some(a)).value > SerpScore(Some(b)).value
  {
    SerpScoreClosedForm(1);
    SerpScoreClosedForm(50);
    SerpScoreClosedForm(a);
    SerpScoreClosedForm(b);
  }

  // ---------------------------------------------------------------------------
  // computeScores

  /** One entry of the local `parts` array: a weight and a score. */
  datatype Part = Part(w: real, s: int)

  const SeoWeight := 0.4
  const RankWeight := 0.4
  const DomainRankWeight := 0.2

  /** `parts.reduce((a, b) => a + b.w, 0)`. */
  function TotalWeight(parts: seq<Part>): real {
    if parts == [] then 0.0 else TotalWeight(parts[..|parts| - 1]) + parts[|parts| - 1].w
  }

  /** `parts.reduce((a, b) => a + b.s * b.w, 0)`. */
  function WeightedSum(parts: seq<Part>): real {
    if parts == [] then 0.0 else WeightedSum(parts[..|parts| - 1]) + parts[|parts| - 1].s as real * parts[|parts| - 1].w
  }

  /** The `parts` array: one entry per present category, pushed in source order. */
  function Parts(seo: Option<int>, rank: Option<int>, domainRank: Option<int>): seq<Part> {
    var p1: seq<Part> := if seo.Some? then [Part(SeoWeight, seo.value)] else [];
    var p2 := if rank.Some? then p1 + [Part(RankWeight, rank.value)] else p1;
    if domainRank.Some? then p2 + [Part(DomainRankWeight, domainRank.value)] else p2
  }

  /** The overall score: the weighted mean over `parts`, clamped; null when
      no category is present. */
  function Overall(seo: Option<int>, rank: Option<int>, domainRank: Option<int>): Option<int> {
    var parts := Parts(seo, rank, domainRank);
    PartsSums(seo, rank, domainRank);
    if parts == [] then None else Some(Clamp(WeightedSum(parts) / TotalWeight(parts)))
  }

  /** The smallest and largest present category score. */
  function MinPresent(a: Option<int>, b: Option<int>, c: Option<int>): int {
    var m1 := if a.Some? then a.value else 100;
    var m2 := if b.Some? && b.value < m1 then b.value else m1;
    if c.Some? && c.value < m2 then c.value else m2
  }

  function MaxPresent(a: Option<int>, b: Option<int>, c: Option<int>): int {
    var m1 := if a.Some? then a.value else 0;
    var m2 := if b.Some? && b.value > m1 then b.value else m1;
    if c.Some? && c.value > m2 then c.value else m2
  }

  /** `computeScores({ pageSpeed, openPageRank, serp })`. */
  function Scores(pageSpeed: Option<Reply<PageSpeed.Metrics>>, openPageRank: Option<Reply<OpenPageRank.DomainRank>>,
                  serp: Option<Reply<SerpApi.Position>>): (r: ScoreSet)
    ensures r.social.None?
    ensures r.seo == Seo(Normalized(pageSpeed))
    ensures r.domainRank == DomainRankScore(Normalized(openPageRank))
    ensures r.rank == SerpScore(if Normalized(serp).Some? then Normalized(serp).value.rank else None)
    ensures r.overall.None? <==> r.seo.None? && r.rank.None? && r.domainRank.None?
    ensures InRange(r.overall)
    ensures r.overall.Some? ==>
      MinPresent(r.seo, r.rank, r.domainRank) <= r.overall.value <= MaxPresent(r.seo, r.rank, r.domainRank)
  {
    var seo := Seo(Normalized(pageSpeed));
    var serpNorm := Normalized(serp);
    var rank := SerpScore(if serpNorm.Some? then serpNorm.value.rank else None);
    var domainRank := DomainRankScore(Normalized(openPageRank));
    OverallBetween(seo, rank, domainRank);
    ScoreSet(seo, rank, domainRank, None, Overall(seo, rank, domainRank))
  }

  /** `computeScores`, pushing the present categories onto `parts` and then
      reducing it, as the source does. */
  method ComputeScores(pageSpeed: Option<Reply<PageSpeed.Metrics>>, openPageRank: Option<Reply<OpenPageRank.DomainRank>>,
                       serp: Option<Reply<SerpApi.Position>>) returns (r: ScoreSet)
    ensures r == Scores(pageSpeed, openPageRank, serp)
  {
    var seo := ScoreFromPageSpeed(Normalized(pageSpeed));
    var serpNorm := Normalized(serp);
    var rank := SerpScore(if serpNorm.Some? then serpNorm.value.rank else None);
    var domainRank := DomainRankScore(Normalized(openPageRank));
    var parts: seq<Part> := [];
    if seo.Some? {
      parts := parts + [Part(SeoWeight, seo.value)];
    }
    if rank.Some? {
      parts := parts + [Part(RankWeight, rank.value)];
    }
    if domainRank.Some? {
      parts := parts + [Part(DomainRankWeight, domainRank.value)];
    }
    assert parts == Parts(seo, rank, domainRank);
    PartsSums(seo, rank, domainRank);
    var overall: Option<int> := None;
    if |parts| > 0 {
      var totalW := TotalWeight(parts);
      overall := Some(Clamp(WeightedSum(parts) / totalW));
    }
    r := ScoreSet(seo, rank, domainRank, None, overall);
  }

  // ---------------------------------------------------------------------------
  // Properties of the weighted mean

  /** An independent statement of the renormalised mean: integer weights in
      the ratio 2 : 2 : 1 over the present categories. */
  function RatioMean(seo: Option<int>, rank: Option<int>, domainRank: Option<int>): Option<int> {
    var num := (if seo.Some? then 2 * seo.value else 0) + (if rank.Some? then 2 * rank.value else 0)
             + (if domainRank.Some? then domainRank.value else 0);
    var den := (if seo.Some? then 2 else 0) + (if rank.Some? then 2 else 0) + (if domainRank.Some? then 1 else 0);
    if den == 0 then None else Some(Clamp(num as real / den as real))
  }

  lemma SnocSums(parts: seq<Part>, p: Part)
    ensures TotalWeight(parts + [p]) == TotalWeight(parts) + p.w
    ensures WeightedSum(parts + [p]) == WeightedSum(parts) + p.s as real * p.w
  {
    assert (parts + [p])[..|parts|] == parts;
  }

  /** The two reductions of `parts`, in closed form. */
  lemma PartsSums(seo: Option<int>, rank: Option<int>, domainRank: Option<int>)
    ensures var parts := Parts(seo, rank, domainRank);
      TotalWeight(parts) == ((if seo.Some? then 2 else 0) + (if rank.Some? then 2 else 0) + (if domainRank.Some? then 1 else 0)) as real * 0.2
      && WeightedSum(parts) == ((if seo.Some? then 2 * seo.value else 0) + (if rank.Some? then 2 * rank.value else 0)
                               + (if domainRank.Some? then domainRank.value else 0)) as real * 0.2
      && (parts == [] <==> seo.None? && rank.None? && domainRank.None?)
  {
    var p1: seq<Part> := if seo.Some? then [Part(SeoWeight, seo.value)] else [];
    var p2 := if rank.Some? then p1 + [Part(RankWeight, rank.value)] else p1;
    if seo.Some? { SnocSums([], Part(SeoWeight, seo.value)); assert [] + [Part(SeoWeight, seo.value)] == p1; }
    if rank.Some? { SnocSums(p1, Part(RankWeight, rank.value)); }
    if domainRank.Some? { SnocSums(p2, Part(DomainRankWeight, domainRank.value)); }
  }

  /** Renormalising 0.4 / 0.4 / 0.2 over the present categories is the same as
      weighting them 2 : 2 : 1. */
  lemma OverallIsRatioMean(seo: Option<int>, rank: Option<int>, domainRank: Option<int>)
    ensures Overall(seo, rank, domainRank) == RatioMean(seo, rank, domainRank)
  {
    var parts := Parts(seo, rank, domainRank);
    var num := (if seo.Some? then 2 * seo.value else 0) + (if rank.Some? then 2 * rank.value else 0)
             + (if domainRank.Some? then domainRank.value else 0);
    var den := (if seo.Some? then 2 else 0) + (if rank.Some? then 2 else 0) + (if domainRank.Some? then 1 else 0);
    PartsSums(seo, rank, domainRank);
    if parts != [] {
      var a, b := num as real * 0.2, den as real * 0.2;
      assert a / b == num as real / den as real by {
        assert b != 0.0 && den as real != 0.0;
        assert a / b * b == a;
        assert (num as real / den as real) * b == a;
      }
    }
  }

  lemma QuotientBetween(num: int, den: int, lo: int, hi: int)
    requires den > 0 && lo * den <= num <= hi * den
    ensures lo as real <= num as real / den as real <= hi as real
  {
    var m := num as real / den as real;
    assert m * den as real == num as real;
    assert (lo * den) as real == lo as real * den as real;
    assert (hi * den) as real == hi as real * den as real;
  }

  /** The weighted sum with weights 2 : 2 : 1 is bounded by the extreme scores. */
  lemma RatioSumBetween(seo: Option<int>, rank: Option<int>, domainRank: Option<int>)
    ensures var num := (if seo.Some? then 2 * seo.value else 0) + (if rank.Some? then 2 * rank.value else 0)
                     + (if domainRank.Some? then domainRank.value else 0);
      var den := (if seo.Some? then 2 else 0) + (if rank.Some? then 2 else 0) + (if domainRank.Some? then 1 else 0);
      MinPresent(seo, rank, domainRank) * den <= num <= MaxPresent(seo, rank, domainRank) * den
  {
    var lo, hi := MinPresent(seo, rank, domainRank), MaxPresent(seo, rank, domainRank);
    var x := if seo.Some? then seo.value else 0;
    var y := if rank.Some? then rank.value else 0;
    var z := if domainRank.Some? then domainRank.value else 0;
    if seo.Some? && rank.Some? && domainRank.Some? {
      assert lo * 5 <= 2 * x + 2 * y + z <= hi * 5;
    } else if seo.Some? && rank.Some? {
      assert lo * 4 <= 2 * x + 2 * y <= hi * 4;
    } else if seo.Some? && domainRank.Some? {
      assert lo * 3 <= 2 * x + z <= hi * 3;
    } else if rank.Some? && domainRank.Some? {
      assert lo * 3 <= 2 * y + z <= hi * 3;
    }
  }

  /** The 2 : 2 : 1 mean lies between the smallest and the largest present score. */
  lemma RatioMeanBetween(seo: Option<int>, rank: Option<int>, domainRank: Option<int>)
    requires InRange(seo) && InRange(rank) && InRange(domainRank)
    ensures RatioMean(seo, rank, domainRank).None? <==> seo.None? && rank.None? && domainRank.None?
    ensures RatioMean(seo, rank, domainRank).Some? ==>
      MinPresent(seo, rank, domainRank) <= RatioMean(seo, rank, domainRank).value <= MaxPresent(seo, rank, domainRank)
  {
    var num := (if seo.Some? then 2 * seo.value else 0) + (if rank.Some? then 2 * rank.value else 0)
             + (if domainRank.Some? then domainRank.value else 0);
    var den := (if seo.Some? then 2 else 0) + (if rank.Some? then 2 else 0) + (if domainRank.Some? then 1 else 0);
    var lo, hi := MinPresent(seo, rank, domainRank), MaxPresent(seo, rank, domainRank);
    if den > 0 {
      RatioSumBetween(seo, rank, domainRank);
      QuotientBetween(num, den, lo, hi);
      var m := num as real / den as real;
      ClampMonotone(lo as real, m);
      ClampMonotone(m, hi as real);
      assert 0 <= lo <= 100 && 0 <= hi <= 100;
      ClampOfScore(lo);
      ClampOfScore(hi);
    }
  }

  /** The overall score lies between the smallest and the largest present
      category score, and is null exactly when none is present. */
  lemma OverallBetween(seo: Option<int>, rank: Option<int>, domainRank: Option<int>)
    requires InRange(seo) && InRange(rank) && InRange(domainRank)
    ensures Overall(seo, rank, domainRank).None? <==> seo.None? && rank.None? && domainRank.None?
    ensures Overall(seo, rank, domainRank).Some? ==>
      MinPresent(seo, rank, domainRank) <= Overall(seo, rank, domainRank).value <= MaxPresent(seo, rank, domainRank)
  {
    OverallIsRatioMean(seo, rank, domainRank);
    RatioMeanBetween(seo, rank, domainRank);
  }

  /** With one category present, the overall score is that category's score. */
  lemma OverallOfSingle(seo: Option<int>, rank: Option<int>, domainRank: Option<int>, s: int)
    requires InRange(seo) && InRange(rank) && InRange(domainRank)
    requires (seo == Some(s) && rank.None? && domainRank.None?)
          || (seo.None? && rank == Some(s) && domainRank.None?)
          || (seo.None? && rank.None? && domainRank == Some(s))
    ensures Overall(seo, rank, domainRank) == Some(s)
  {
    OverallBetween(seo, rank, domainRank);
  }
}
