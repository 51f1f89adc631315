/** The worker's seeded fallbacks: a 32-bit string hash (`hashCode`) and four
    generators of placeholder provider results, each in a fixed range. */
module Fallbacks {
  import opened Js
  import opened Provider
  import PageSpeed
  import OpenPageRank
  import SerpApi

  /** One iteration of `h = ((h << 5) - h + c) | 0` on a 32-bit `h`: the
      shift wraps to 32 bits, the subtraction and addition are exact, and
      `| 0` wraps again. A character counts as its code point. */
  function HashStep(h: int, c: char): (r: int)
    ensures IsInt32(r)
  {
    ToInt32(ToInt32(h * 32) - h + c as int)
  }

  /** The step is 31 * h + c reduced to 32 bits. */
  lemma HashStepIsMultiplyAdd(h: int, c: char)
    ensures HashStep(h, c) == ToInt32(31 * h + c as int)
  {
    var s := ToInt32(h * 32);
    assert (h * 32 - s) % TwoTo32 == 0;
    assert ((s - h + c as int) - (31 * h + c as int)) == -(h * 32 - s);
    ToInt32Congruent(s - h + c as int, 31 * h + c as int);
  }

  /** The value of `h` after the loop has consumed all of `s`. */
  function HashState(s: string): (h: int)
    ensures IsInt32(h)
  {
    if s == [] then 0 else HashStep(HashState(s[..|s| - 1]), s[|s| - 1])
  }

  /** `hashCode(s)`: `Math.abs(h)`. */
  function Hash(s: string): (r: nat)
    ensures r <= TwoTo31
  {
    Abs(HashState(s))
  }

  /** `hashCode`, with its loop over the characters. */
  method HashCode(s: string) returns (r: nat)
    ensures r == Hash(s)
    ensures r <= TwoTo31
  {
    var h := 0;
    var i := 0;
    while i < |s|
      invariant 0 <= i <= |s|
      invariant h == HashState(s[..i])
    {
      assert s[..i + 1][..i] == s[..i];
      h := HashStep(h, s[i]);
      i := i + 1;
    }
    assert s[..i] == s;
    r := Abs(h);
  }

  /** The hash of a one-character string is its character code (below 2^31). */
  lemma HashOfSingle(c: char)
    ensures Hash([c]) == c as int
  {
    assert [c][..0] == [];
    assert HashState([c]) == HashStep(0, c);
    ToInt32OfInt32(0);
    ToInt32OfInt32(c as int);
  }

  /** `seedStr || 'default'`. */
  function Seed(s: string): (r: string)
    ensures r != ""
    ensures s != "" ==> r == s
  {
    if s == "" then "default" else s
  }

  /** `fallbackPageSpeed(seed)`: a performance score in 60..90, no metrics. */
  function FallbackPageSpeed(seed: string): (r: Reply<PageSpeed.Metrics>)
    ensures r.Ok? && r.fallback
    ensures r.normalized.performance.Some? && 60 <= r.normalized.performance.value <= 90
    ensures r.normalized.fcpMs.None? && r.normalized.lcpMs.None? && r.normalized.tbtMs.None? && r.normalized.cls.None?
  {
    var h := Hash(Seed(seed));
    Ok(PageSpeed.Metrics(Some(60 + h % 31), None, None, None, None), true)
  }

  /** `fallbackOpenPageRank(seed)`: a rank in 3..8 and no domain. */
  function FallbackOpenPageRank(seed: string): (r: Reply<OpenPageRank.DomainRank>)
    ensures r.Ok? && r.fallback
    ensures r.normalized.domain.None?
    ensures r.normalized.rank.Some? && 3.0 <= r.normalized.rank.value <= 8.0
    ensures r.normalized.rank.value == r.normalized.rank.value.Floor as real
  {
    var h := Hash(Seed(seed));
    Ok(OpenPageRank.DomainRank(None, Some((3 + h % 6) as real)), true)
  }

  /** The seed of `fallbackSerp`: `${keyword || ''}:${domain || ''}`, never empty. */
  function SerpSeed(keyword: string, domain: string): (r: string)
    ensures r != "" && Seed(r) == r
  {
    keyword + ":" + domain
  }

  /** `fallbackSerp(keyword, domain)`: the query echoed back with a rank in 5..30. */
  function FallbackSerp(keyword: string, domain: string): (r: Reply<SerpApi.Position>)
    ensures r.Ok? && r.fallback
    ensures r.normalized.keyword == keyword && r.normalized.domain == domain
    ensures r.normalized.rank.Some? && 5 <= r.normalized.rank.value <= 30
  {
    var h := Hash(Seed(SerpSeed(keyword, domain)));
    Ok(SerpApi.Position(keyword, domain, Some(5 + h % 26)), true)
  }

  /** `fallbackSocial(seed)`: a social score in 50..90. */
  function FallbackSocial(seed: string): (r: int)
    ensures 50 <= r <= 90
  {
    50 + Hash(Seed(seed)) % 41
  }

  /** An empty seed means `'default'`. */
  lemma EmptySeedIsDefault()
    ensures FallbackPageSpeed("") == FallbackPageSpeed("default")
    ensures FallbackOpenPageRank("") == FallbackOpenPageRank("default")
    ensures FallbackSocial("") == FallbackSocial("default")
  {
  }
}
