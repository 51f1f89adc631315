/** The worker's job handler (`packages/worker/src/index.js`): load the audit,
    mark it running, call the three providers with retries and fallbacks,
    compute the scores and store them, marking the audit done, or failed
    when something throws. */
module Worker {
  import opened Js
  import opened Provider
  import PageSpeed
  import OpenPageRank
  import SerpApi
  import Score
  import opened Retries
  import opened Fallbacks
  import opened AuditModel

  /** An audit document as loaded by `Audit.findById`; the handler updates
      its fields in place and saves it. */
  class AuditDocument {
    var targetUrl: string
    var keyword: Option<string>
    var domain: Option<string>
    var status: Status
    var error: Option<string>
    var scores: Option<Score.ScoreSet>
    var providerData: Option<ProviderData>

    constructor Load(r: AuditRecord)
      ensures targetUrl == r.targetUrl && keyword == r.keyword && domain == r.domain
      ensures status == r.status && error == r.error && scores == r.scores && providerData == r.providerData
    {
      targetUrl, keyword, domain := r.targetUrl, r.keyword, r.domain;
      status, error, scores, providerData := r.status, r.error, r.scores, r.providerData;
    }

    /** The fields the handler writes, as a value. */
    function Fields(): Stored
      reads this
    {
      Stored(status, error, scores, providerData)
    }
  }

  /** The status, error, scores and provider data of a record. */
  datatype Stored = Stored(status: Status, error: Option<string>, scores: Option<Score.ScoreSet>,
                           providerData: Option<ProviderData>)

  /** The three fields the providers are asked about. */
  datatype Target = Target(targetUrl: string, keyword: Option<string>, domain: Option<string>)

  /** The environment the handler reads: `FALLBACK_ENABLED`,
      `PROVIDER_RETRIES` (already a number) and the two API keys. */
  datatype Settings = Settings(
    fallbackFlag: Option<string>,
    retries: int,
    openPageRankKey: Option<string>,
    serpApiKey: Option<string>)

  /** The remote endpoints, answering the `i`-th attempt's request for a
      given url, domain or keyword, and the hostname `new URL` finds. */
  datatype Network = Network(
    pageSpeed: (nat, string) -> Http<PageSpeed.Report>,
    openPageRank: (nat, string) -> Http<OpenPageRank.RankResponse>,
    serp: (nat, string) -> Http<SerpApi.SearchResponse>,
    host: string -> Option<string>)

  /** `String(FALLBACK_ENABLED || 'true').toLowerCase() === 'true'`. */
  predicate FallbackEnabled(flag: Option<string>) {
    Lower(Or(flag, "true")) == "true"
  }

  /** Unset or empty means on; any casing of `true` means on; anything else is off. */
  lemma FallbackFlagExamples()
    ensures FallbackEnabled(None) && FallbackEnabled(Some(""))
    ensures FallbackEnabled(Some("TRUE"))
    ensures !FallbackEnabled(Some("false")) && !FallbackEnabled(Some("1"))
  {
    assert Lower("TRUE") == "true" by {
      assert |Lower("TRUE")| == 4;
      assert Lower("TRUE")[0] == 't' && Lower("TRUE")[1] == 'r';
      assert Lower("TRUE")[2] == 'u' && Lower("TRUE")[3] == 'e';
    }
    assert Lower("false") != "true" by { assert |Lower("false")| == 5; }
    assert Lower("1") != "true" by { assert |Lower("1")| == 1; }
  }

  // ---------------------------------------------------------------------------
  // The three provider calls (`psCall`, `oprCall`, `serpCall`)

  /** How a provider call settles: with a value, or by rejecting. */
  datatype Settled<T> = Resolved(value: T) | Rejected(message: string)

  /** The TypeError that `e.message` raises when `withRetries` threw `undefined`. */
  const UndefinedMessage := "Cannot read properties of undefined (reading 'message')"

  /** The `catch` around `withRetries`: the fallback when enabled, else
      `{ ok: false, error: e.message }`. */
  function Settle<N>(o: Outcome<N>, fallbackOn: bool, fallback: Reply<N>): (s: Settled<Reply<N>>)
    ensures o.Success? ==> s == Resolved(o.reply)
    ensures o.Raised? && fallbackOn ==> s == Resolved(fallback)
    ensures o.Raised? && !fallbackOn && o.error.Some? ==> s == Resolved(Fail(o.error.value))
    ensures s.Rejected? <==> o == Raised(None) && !fallbackOn
    ensures s.Rejected? ==> s.message == UndefinedMessage
  {
    match o
    case Success(reply) => Resolved(reply)
    case Raised(e) =>
      if fallbackOn then Resolved(fallback)
      else if e.Some? then Resolved(Fail(e.value))
      else Rejected(UndefinedMessage)
  }

  /** `() => fetchPageSpeed(audit.targetUrl)`, attempt by attempt. */
  function PageSpeedAttempts(url: string, net: Network): nat -> Call<PageSpeed.Metrics> {
    (i: nat) => PageSpeed.Fetch(url, (u: string) => net.pageSpeed(i, u))
  }

  /** `() => fetchOpenPageRank(seed)`, attempt by attempt. */
  function OpenPageRankAttempts(key: Option<string>, seed: string, net: Network): nat -> Call<OpenPageRank.DomainRank> {
    (i: nat) => OpenPageRank.WorkerFetch(key, seed, net.host, (d: string) => net.openPageRank(i, d))
  }

  /** `() => fetchGoogleRank(keyword, domain)`, attempt by attempt. */
  function SerpAttempts(key: Option<string>, keyword: string, domain: string, net: Network): nat -> Call<SerpApi.Position> {
    (i: nat) => SerpApi.WorkerFetch(key, keyword, domain, (q: string) => net.serp(i, q))
  }

  /** `audit.domain || audit.targetUrl`: the domain-rank and social seed. */
  function DomainSeed(t: Target): string {
    Or(t.domain, t.targetUrl)
  }

  /** `audit.keyword && (audit.domain || '')`: the search call is made at all. */
  predicate SearchWanted(t: Target) {
    Truthy(t.keyword) && Truthy(t.domain)
  }

  function PageSpeedRun(t: Target, s: Settings, net: Network): Run<PageSpeed.Metrics> {
    Retry(PageSpeedAttempts(t.targetUrl, net), s.retries)
  }

  function OpenPageRankRun(t: Target, s: Settings, net: Network): Run<OpenPageRank.DomainRank> {
    Retry(OpenPageRankAttempts(s.openPageRankKey, DomainSeed(t), net), s.retries)
  }

  function SerpRun(t: Target, s: Settings, net: Network): Run<SerpApi.Position>
    requires SearchWanted(t)
  {
    Retry(SerpAttempts(s.serpApiKey, t.keyword.value, t.domain.value, net), s.retries)
  }

  /** `psCall()`. */
  function PageSpeedCall(t: Target, s: Settings, net: Network): Settled<Reply<PageSpeed.Metrics>> {
    Settle(PageSpeedRun(t, s, net).outcome, FallbackEnabled(s.fallbackFlag), FallbackPageSpeed(t.targetUrl))
  }

  /** `oprCall()`. */
  function OpenPageRankCall(t: Target, s: Settings, net: Network): Settled<Reply<OpenPageRank.DomainRank>> {
    Settle(OpenPageRankRun(t, s, net).outcome, FallbackEnabled(s.fallbackFlag), FallbackOpenPageRank(DomainSeed(t)))
  }

  /** `serpCall()`: null, without any attempt, unless keyword and domain are set. */
  function SerpCall(t: Target, s: Settings, net: Network): Settled<Option<Reply<SerpApi.Position>>> {
    if !SearchWanted(t) then Resolved(None)
    else
      match Settle(SerpRun(t, s, net).outcome, FallbackEnabled(s.fallbackFlag),
                   FallbackSerp(t.keyword.value, t.domain.value))
      case Resolved(r) => Resolved(Some(r))
      case Rejected(m) => Rejected(m)
  }

  /** How many times the search endpoint is called. */
  function SerpCalls(t: Target, s: Settings, net: Network): nat {
    if SearchWanted(t) then SerpRun(t, s, net).calls else 0
  }

  /** A successful search without a rank is replaced by the fallback when
      fallback is enabled (and keyword and domain are set). */
  function ResolveSerp(serp: Option<Reply<SerpApi.Position>>, fallbackOn: bool, t: Target): Option<Reply<SerpApi.Position>> {
    if fallbackOn && serp.Some? && serp.value.Ok? && serp.value.normalized.rank.None? && SearchWanted(t)
    then Some(FallbackSerp(t.keyword.value, t.domain.value))
    else serp
  }

  /** `computeScores`, then the social placeholder when fallback is enabled. */
  function FinalScores(ps: Reply<PageSpeed.Metrics>, opr: Reply<OpenPageRank.DomainRank>,
                       serp: Option<Reply<SerpApi.Position>>, fallbackOn: bool, t: Target): Score.ScoreSet
  {
    var scores := Score.Scores(Some(ps), Some(opr), serp);
    if fallbackOn && scores.social.None? then scores.(social := Some(FallbackSocial(DomainSeed(t)))) else scores
  }

  // ---------------------------------------------------------------------------
  // The handler

  /** What the `try` block computes before the final save: the scores and
      provider data to store, or the error that `Promise.all` rejects with. */
  datatype Completion = Completed(scores: Score.ScoreSet, providerData: ProviderData) | Crashed(message: string)

  /** The `Promise.all` result combined with the rest of the `try` block. */
  function Outcome(t: Target, s: Settings, ps: Settled<Reply<PageSpeed.Metrics>>,
                   opr: Settled<Reply<OpenPageRank.DomainRank>>, serp: Settled<Option<Reply<SerpApi.Position>>>): Completion
  {
    if ps.Rejected? then Crashed(ps.message)
    else if opr.Rejected? then Crashed(opr.message)
    else if serp.Rejected? then Crashed(serp.message)
    else
      var on := FallbackEnabled(s.fallbackFlag);
      var finalSerp := ResolveSerp(serp.value, on, t);
      Completed(FinalScores(ps.value, opr.value, finalSerp, on, t), ProviderData(ps.value, opr.value, finalSerp))
  }

  function JobOutcome(t: Target, s: Settings, net: Network): Completion {
    Outcome(t, s, PageSpeedCall(t, s, net), OpenPageRankCall(t, s, net), SerpCall(t, s, net))
  }

  /** The services the handler calls. */
  datatype Service = PageSpeedService | OpenPageRankService | SerpService

  /** What the handler does, in order: a save with a status, or the number of
      calls made to one service. */
  datatype Event = Saved(status: Status) | Called(service: Service, calls: nat)

  /** What the queue sees: the handler's return value or the error it throws. */
  datatype JobResult = Finished(ok: bool, error: Option<string>) | Thrown(message: string)

  const MissingAuditId := "Missing auditId"
  const AuditNotFound := "Audit not found"

  /** The three provider calls of the run, one after the other (the source
      runs them concurrently with `Promise.all`), with the number of calls
      each made. */
  method CallProviders(t: Target, settings: Settings, net: Network)
    returns (ps: Settled<Reply<PageSpeed.Metrics>>, opr: Settled<Reply<OpenPageRank.DomainRank>>,
             serp: Settled<Option<Reply<SerpApi.Position>>>, calls: seq<Event>)
    ensures ps == PageSpeedCall(t, settings, net)
    ensures opr == OpenPageRankCall(t, settings, net)
    ensures serp == SerpCall(t, settings, net)
    ensures calls == JobCalls(t, settings, net)
  {
    var on := FallbackEnabled(settings.fallbackFlag);
    var psOut, psCalls, _ := WithRetries(PageSpeedAttempts(t.targetUrl, net), settings.retries);
    ps := Settle(psOut, on, FallbackPageSpeed(t.targetUrl));
    var oprOut, oprCalls, _ := WithRetries(OpenPageRankAttempts(settings.openPageRankKey, DomainSeed(t), net), settings.retries);
    opr := Settle(oprOut, on, FallbackOpenPageRank(DomainSeed(t)));
    serp := Resolved(None);
    var serpCalls := 0;
    if SearchWanted(t) {
      var serpOut, n, _ := WithRetries(SerpAttempts(settings.serpApiKey, t.keyword.value, t.domain.value, net), settings.retries);
      serpCalls := n;
      match Settle(serpOut, on, FallbackSerp(t.keyword.value, t.domain.value)) {
        case Resolved(r) => serp := Resolved(Some(r));
        case Rejected(m) => serp := Rejected(m);
      }
    }
    calls := [Called(PageSpeedService, psCalls), Called(OpenPageRankService, oprCalls), Called(SerpService, serpCalls)];
  }

  /** The rest of the `try` block: the search result's null-rank
      replacement, the scores and the social placeholder, or the rejection. */
  method Complete(t: Target, settings: Settings, ps: Settled<Reply<PageSpeed.Metrics>>,
                  opr: Settled<Reply<OpenPageRank.DomainRank>>, serpRaw: Settled<Option<Reply<SerpApi.Position>>>)
    returns (c: Completion)
    ensures c == Outcome(t, settings, ps, opr, serpRaw)
  {
    if ps.Rejected? || opr.Rejected? || serpRaw.Rejected? {
      var m := if ps.Rejected? then ps.message else if opr.Rejected? then opr.message else serpRaw.message;
      return Crashed(m);
    }
    var on := FallbackEnabled(settings.fallbackFlag);
    var serp := serpRaw.value;
    if on && serp.Some? && serp.value.Ok? && serp.value.normalized.rank.None? && SearchWanted(t) {
      serp := Some(FallbackSerp(t.keyword.value, t.domain.value));
    }
    var scores := Score.ComputeScores(Some(ps.value), Some(opr.value), serp);
    if on && scores.social.None? {
      scores := scores.(social := Some(FallbackSocial(DomainSeed(t))));
    }
    c := Completed(scores, ProviderData(ps.value, opr.value, serp));
  }

  /** The calls made to each service, in order. */
  function JobCalls(t: Target, s: Settings, net: Network): seq<Event> {
    [Called(PageSpeedService, PageSpeedRun(t, s, net).calls),
     Called(OpenPageRankService, OpenPageRankRun(t, s, net).calls),
     Called(SerpService, SerpCalls(t, s, net))]
  }

  /** The status of the last save: `done` only when the run completed and
      its save went through. */
  function FinalStatus(c: Completion, saveFault: Option<string>): Status {
    if c.Completed? && saveFault.None? then Done else Failed
  }

  /** The events of a run on a found audit. */
  function JobLog(t: Target, s: Settings, net: Network, saveFault: Option<string>): seq<Event> {
    [Saved(Running)] + JobCalls(t, s, net) + [Saved(FinalStatus(JobOutcome(t, s, net), saveFault))]
  }

  /** The fields a record ends with, from the fields `before` it had: a
      completed run stores its scores and provider data and is `done`, or
      `failed` with the save's error; a crash only marks it `failed`. */
  function FinalFields(c: Completion, saveFault: Option<string>, before: Stored): Stored {
    match c
    case Crashed(m) => before.(status := Failed, error := Some(m))
    case Completed(scores, data) =>
      if saveFault.Some? then Stored(Failed, saveFault, Some(scores), Some(data))
      else Stored(Done, None, Some(scores), Some(data))
  }

  /** What the handler returns or throws once the run is over. */
  function FinalResult(c: Completion, saveFault: Option<string>): JobResult {
    match c
    case Crashed(m) => Thrown(m)
    case Completed(_, _) => if saveFault.Some? then Thrown(saveFault.value) else Finished(true, None)
  }

  /** The end of a run, case by case: the record is always left terminal,
      with the status of the last save; a crash keeps the old scores and
      provider data and rethrows; a completed run stores its results whether
      or not the save fails, and the handler succeeds exactly when the save
      does. */
  lemma FinalState(c: Completion, saveFault: Option<string>, before: Stored)
    ensures var after := FinalFields(c, saveFault, before);
      && IsTerminal(after.status) && after.status == FinalStatus(c, saveFault)
      && (after.status == Done <==> FinalResult(c, saveFault) == Finished(true, None))
      && (after.status == Failed ==> after.error.Some? && FinalResult(c, saveFault) == Thrown(after.error.value))
      && (after.status == Done ==> after.error.None?)
      && (c.Crashed? ==> after.error == Some(c.message)
                         && after.scores == before.scores && after.providerData == before.providerData)
      && (c.Completed? ==> after.scores == Some(c.scores) && after.providerData == Some(c.providerData))
  {
  }

  /** The end of the handler: store the completed run and save (the
      `audit.save()` of the `try` block, failing with `saveFault`), or, in
      the `catch` block, mark the audit failed, save, and rethrow. */
  method Finish(audit: AuditDocument, c: Completion, saveFault: Option<string>) returns (result: JobResult, saved: Status)
    modifies audit
    ensures audit.targetUrl == old(audit.targetUrl) && audit.keyword == old(audit.keyword) && audit.domain == old(audit.domain)
    ensures audit.Fields() == FinalFields(c, saveFault, old(audit.Fields()))
    ensures result == FinalResult(c, saveFault) && saved == FinalStatus(c, saveFault)
  {
    match c {
      case Crashed(m) =>
        audit.status := Failed;
        audit.error := Some(m);
        result := Thrown(m);
      case Completed(scores, data) =>
        audit.scores := Some(scores);
        audit.providerData := Some(data);
        audit.status := Done;
        audit.error := None;
        if saveFault.Some? {
          audit.status := Failed;
          audit.error := saveFault;
          result := Thrown(saveFault.value);
        } else {
          result := Finished(true, None);
        }
    }
    saved := audit.status;
  }

  /** The job handler for `job.data.auditId`, against the documents `db`.
      `saveFault` is the error, if any, with which the save after a
      successful run fails; every other save succeeds. */
  method HandleJob(auditId: Option<nat>, db: map<nat, AuditDocument>, settings: Settings, net: Network,
                   saveFault: Option<string>) returns (result: JobResult, log: seq<Event>)
    modifies if auditId.Some? && auditId.value in db then {db[auditId.value]} else {}
    ensures auditId.None? ==> result == Finished(false, Some(MissingAuditId)) && log == []
    ensures auditId.Some? && auditId.value !in db ==> result == Finished(false, Some(AuditNotFound)) && log == []
    ensures auditId.Some? && auditId.value in db ==>
      var a := db[auditId.value];
      var t := Target(a.targetUrl, a.keyword, a.domain);
      && a.targetUrl == old(a.targetUrl) && a.keyword == old(a.keyword) && a.domain == old(a.domain)
      && a.Fields() == FinalFields(JobOutcome(t, settings, net), saveFault, old(a.Fields()))
      && result == FinalResult(JobOutcome(t, settings, net), saveFault)
      && log == JobLog(t, settings, net, saveFault)
  {
    if auditId.None? {
      return Finished(false, Some(MissingAuditId)), [];
    }
    if auditId.value !in db {
      return Finished(false, Some(AuditNotFound)), [];
    }
    var audit := db[auditId.value];
    ghost var before := audit.Fields();
    var t := Target(audit.targetUrl, audit.keyword, audit.domain);
    log := Start(audit);
    var c, calls := Evaluate(t, settings, net);
    log := log + calls;
    var saved;
    result, saved := Finish(audit, c, saveFault);
    log := log + [Saved(saved)];
    FinishOverridesRunning(c, saveFault, before);
  }

  /** `audit.status = 'running'; await audit.save()`, before any provider call. */
  method Start(audit: AuditDocument) returns (log: seq<Event>)
    modifies audit
    ensures audit.targetUrl == old(audit.targetUrl) && audit.keyword == old(audit.keyword) && audit.domain == old(audit.domain)
    ensures audit.Fields() == old(audit.Fields()).(status := Running)
    ensures log == [Saved(Running)]
  {
    audit.status := Running;
    log := [Saved(Running)];
  }

  /** The end of a run does not depend on the status the record had while
      running: the running status is always overwritten. */
  lemma FinishOverridesRunning(c: Completion, saveFault: Option<string>, before: Stored)
    ensures FinalFields(c, saveFault, before.(status := Running)) == FinalFields(c, saveFault, before)
  {
  }

  /** The `try` block up to the final save: the provider calls and what
      the run completes with. */
  method Evaluate(t: Target, settings: Settings, net: Network) returns (c: Completion, calls: seq<Event>)
    ensures c == JobOutcome(t, settings, net) && calls == JobCalls(t, settings, net)
  {
    var ps, opr, serp;
    ps, opr, serp, calls := CallProviders(t, settings, net);
    c := Complete(t, settings, ps, opr, serp);
  }

  // ---------------------------------------------------------------------------
  // Properties of a run

  /** A reply that `withRetries` resolves with is a successful one. */
  lemma SuccessIsOk<N>(fn: nat -> Call<N>, retries: int)
    requires Retry(fn, retries).outcome.Success?
    ensures Retry(fn, retries).outcome.reply.Ok?
  {
    RetrySuccessIsFirst(fn, retries);
  }

  /** The run fails before the final save exactly when no attempt is allowed
      (a negative retry count) and fallback is off: `withRetries` then throws
      `undefined`, and reading its `message` raises a TypeError. */
  lemma CrashesOnlyWithoutAttempts(t: Target, s: Settings, net: Network)
    ensures JobOutcome(t, s, net).Crashed? <==> s.retries < 0 && !FallbackEnabled(s.fallbackFlag)
    ensures JobOutcome(t, s, net).Crashed? ==> JobOutcome(t, s, net).message == UndefinedMessage
  {
    RetryBounds(PageSpeedAttempts(t.targetUrl, net), s.retries);
    RetryBounds(OpenPageRankAttempts(s.openPageRankKey, DomainSeed(t), net), s.retries);
    if SearchWanted(t) {
      RetryBounds(SerpAttempts(s.serpApiKey, t.keyword.value, t.domain.value, net), s.retries);
    }
  }

  /** With fallback on the run always completes: every provider answers with
      a success, a requested search result always has a rank, and the social
      score is a placeholder in 50..90. */
  lemma FallbackAlwaysCompletes(t: Target, s: Settings, net: Network)
    requires FallbackEnabled(s.fallbackFlag)
    ensures JobOutcome(t, s, net).Completed?
    ensures var data := JobOutcome(t, s, net).providerData;
      data.ProviderData? && data.pageSpeed.Ok? && data.openPageRank.Ok?
      && (SearchWanted(t) ==> data.serp.Some? && data.serp.value.Ok? && data.serp.value.normalized.rank.Some?)
      && (!SearchWanted(t) ==> data.serp.None?)
    ensures var scores := JobOutcome(t, s, net).scores;
      scores.social.Some? && 50 <= scores.social.value <= 90
      && (SearchWanted(t) ==> scores.rank.Some?)
  {
    SettledOk(PageSpeedAttempts(t.targetUrl, net), s.retries, FallbackPageSpeed(t.targetUrl));
    SettledOk(OpenPageRankAttempts(s.openPageRankKey, DomainSeed(t), net), s.retries,
              FallbackOpenPageRank(DomainSeed(t)));
    if SearchWanted(t) {
      SettledOk(SerpAttempts(s.serpApiKey, t.keyword.value, t.domain.value, net), s.retries,
                FallbackSerp(t.keyword.value, t.domain.value));
    }
    CompletedRun(t, s, net);
  }

  /** With fallback on, a provider call settles with a success whatever its
      attempts do. */
  lemma SettledOk<N>(fn: nat -> Call<N>, retries: int, fallback: Reply<N>)
    requires fallback.Ok?
    ensures var st := Settle(Retry(fn, retries).outcome, true, fallback);
      st.Resolved? && st.value.Ok?
  {
    if Retry(fn, retries).outcome.Success? {
      SuccessIsOk(fn, retries);
    }
  }

  /** With fallback off nothing is synthesised: every success is a live
      provider answer, every failure carries the last attempt's error, and
      the social score stays null. */
  lemma NoFallbackNothingSynthesised(t: Target, s: Settings, net: Network)
    requires !FallbackEnabled(s.fallbackFlag) && JobOutcome(t, s, net).Completed?
    ensures var data := JobOutcome(t, s, net).providerData;
      data.ProviderData?
      && (data.pageSpeed.Ok? ==> !data.pageSpeed.fallback)
      && (data.pageSpeed.Fail? ==> PageSpeedRun(t, s, net).outcome == Raised(Some(data.pageSpeed.error)))
      && (data.openPageRank.Ok? ==> !data.openPageRank.fallback)
      && (data.openPageRank.Fail? ==> OpenPageRankRun(t, s, net).outcome == Raised(Some(data.openPageRank.error)))
      && (data.serp.Some? && data.serp.value.Ok? ==> !data.serp.value.fallback)
    ensures JobOutcome(t, s, net).scores.social.None?
  {
    var ps := PageSpeedAttempts(t.targetUrl, net);
    if PageSpeedRun(t, s, net).outcome.Success? {
      RetrySuccessIsFirst(ps, s.retries);
      var k := PageSpeedRun(t, s, net).calls - 1;
      assert ps(k) == PageSpeed.Fetch(t.targetUrl, (u: string) => net.pageSpeed(k, u));
    }
    var opr := OpenPageRankAttempts(s.openPageRankKey, DomainSeed(t), net);
    if OpenPageRankRun(t, s, net).outcome.Success? {
      RetrySuccessIsFirst(opr, s.retries);
      var k := OpenPageRankRun(t, s, net).calls - 1;
      assert opr(k) == OpenPageRank.WorkerFetch(s.openPageRankKey, DomainSeed(t), net.host, (d: string) => net.openPageRank(k, d));
    }
    if SearchWanted(t) && SerpRun(t, s, net).outcome.Success? {
      var serp := SerpAttempts(s.serpApiKey, t.keyword.value, t.domain.value, net);
      RetrySuccessIsFirst(serp, s.retries);
      var k := SerpRun(t, s, net).calls - 1;
      assert serp(k) == SerpApi.WorkerFetch(s.serpApiKey, t.keyword.value, t.domain.value, (q: string) => net.serp(k, q));
    }
  }

  /** Without keyword and domain the search endpoint is never called, and the
      run has no search result and no rank score. */
  lemma SearchSkipped(t: Target, s: Settings, net: Network)
    requires !SearchWanted(t)
    ensures SerpCalls(t, s, net) == 0
    ensures JobOutcome(t, s, net).Completed? ==>
      JobOutcome(t, s, net).providerData.ProviderData? && JobOutcome(t, s, net).providerData.serp.None?
      && JobOutcome(t, s, net).scores.rank.None?
  {
  }

  /** A completed run stores exactly the three settled replies (the search
      one after the null-rank replacement) and the final scores over them. */
  lemma CompletedRun(t: Target, s: Settings, net: Network)
    requires JobOutcome(t, s, net).Completed?
    ensures PageSpeedCall(t, s, net).Resolved? && OpenPageRankCall(t, s, net).Resolved? && SerpCall(t, s, net).Resolved?
    ensures var on := FallbackEnabled(s.fallbackFlag);
      var serp := ResolveSerp(SerpCall(t, s, net).value, on, t);
      JobOutcome(t, s, net) == Completed(
        FinalScores(PageSpeedCall(t, s, net).value, OpenPageRankCall(t, s, net).value, serp, on, t),
        ProviderData(PageSpeedCall(t, s, net).value, OpenPageRankCall(t, s, net).value, serp))
  {
  }

  /** A successful search that did not find the domain is replaced by the
      fallback when fallback is on; a found rank is kept as it is. */
  lemma NullRankReplaced(t: Target, s: Settings, net: Network)
    requires SearchWanted(t) && SerpRun(t, s, net).outcome.Success?
    requires JobOutcome(t, s, net).Completed?
    ensures var live := SerpRun(t, s, net).outcome.reply;
      var stored := JobOutcome(t, s, net).providerData.serp;
      live.Ok?
      && (FallbackEnabled(s.fallbackFlag) && live.normalized.rank.None? ==>
         stored == Some(FallbackSerp(t.keyword.value, t.domain.value)))
      && (live.normalized.rank.Some? ==> stored == Some(live))
  {
    SerpLive(t, s, net);
    CompletedRun(t, s, net);
  }

  /** A successful search settles with the live reply, which is a success. */
  lemma SerpLive(t: Target, s: Settings, net: Network)
    requires SearchWanted(t) && SerpRun(t, s, net).outcome.Success?
    ensures SerpRun(t, s, net).outcome.reply.Ok?
    ensures SerpCall(t, s, net) == Resolved(Some(SerpRun(t, s, net).outcome.reply))
  {
    SuccessIsOk(SerpAttempts(s.serpApiKey, t.keyword.value, t.domain.value, net), s.retries);
  }

  /** When every attempt of a provider fails and fallback is on, its
      fallback result is used. */
  lemma PageSpeedFallsBack(t: Target, s: Settings, net: Network)
    requires FallbackEnabled(s.fallbackFlag) && s.retries >= 0 && t.targetUrl != ""
    requires forall i: nat, u: string :: net.pageSpeed(i, u).TransportError?
    ensures PageSpeedCall(t, s, net) == Resolved(FallbackPageSpeed(t.targetUrl))
  {
    var ps := PageSpeedAttempts(t.targetUrl, net);
    forall j | 0 <= j <= s.retries ensures !Succeeded(ps(j)) {
      assert ps(j) == PageSpeed.Fetch(t.targetUrl, (u: string) => net.pageSpeed(j, u));
      assert net.pageSpeed(j, t.targetUrl).TransportError?;
    }
    RetryExhausted(ps, s.retries);
  }

  lemma OpenPageRankFallsBack(t: Target, s: Settings, net: Network)
    requires FallbackEnabled(s.fallbackFlag) && s.retries >= 0 && !Truthy(s.openPageRankKey)
    ensures OpenPageRankCall(t, s, net) == Resolved(FallbackOpenPageRank(DomainSeed(t)))
  {
    var opr := OpenPageRankAttempts(s.openPageRankKey, DomainSeed(t), net);
    forall j | 0 <= j <= s.retries ensures !Succeeded(opr(j)) {
      assert opr(j) == OpenPageRank.WorkerFetch(s.openPageRankKey, DomainSeed(t), net.host, (d: string) => net.openPageRank(j, d));
    }
    RetryExhausted(opr, s.retries);
  }

  /** A submission of a bare URL with no API keys, no keyword and fallback on,
      while the performance endpoint is unreachable: the run completes with a
      performance score in 60..90, a domain-rank score in 30..80, no rank
      score, a placeholder social score, and an overall score between the two
      present ones. */
  lemma NoKeysScenario(t: Target, s: Settings, net: Network)
    requires FallbackEnabled(s.fallbackFlag) && s.retries >= 0 && !Truthy(s.openPageRankKey)
    requires t.keyword.None? && t.targetUrl != ""
    requires forall i: nat, u: string :: net.pageSpeed(i, u).TransportError?
    ensures JobOutcome(t, s, net).Completed?
    ensures var scores := JobOutcome(t, s, net).scores;
      && scores.seo.Some? && 60 <= scores.seo.value <= 90
      && scores.domainRank.Some? && 30 <= scores.domainRank.value <= 80
      && scores.rank.None?
      && scores.social.Some? && 50 <= scores.social.value <= 90
      && scores.overall.Some?
      && Score.MinPresent(scores.seo, scores.rank, scores.domainRank) <= scores.overall.value
      && scores.overall.value <= Score.MaxPresent(scores.seo, scores.rank, scores.domainRank)
  {
    PageSpeedFallsBack(t, s, net);
    OpenPageRankFallsBack(t, s, net);
    var psReply := FallbackPageSpeed(t.targetUrl);
    var oprReply := FallbackOpenPageRank(DomainSeed(t));
    assert SerpCall(t, s, net) == Resolved(None);
    assert JobOutcome(t, s, net) == Outcome(t, s, Resolved(psReply), Resolved(oprReply), Resolved(None));
    FallbackOnlyScores(t);
  }

  /** The scores over the performance and domain-rank fallbacks alone. */
  lemma FallbackOnlyScores(t: Target)
    ensures var scores := FinalScores(FallbackPageSpeed(t.targetUrl), FallbackOpenPageRank(DomainSeed(t)), None, true, t);
      && scores.seo.Some? && 60 <= scores.seo.value <= 90
      && scores.domainRank.Some? && 30 <= scores.domainRank.value <= 80
      && scores.rank.None?
      && scores.social.Some? && 50 <= scores.social.value <= 90
      && scores.overall.Some?
      && Score.MinPresent(scores.seo, scores.rank, scores.domainRank) <= scores.overall.value
      && scores.overall.value <= Score.MaxPresent(scores.seo, scores.rank, scores.domainRank)
  {
    var psReply := FallbackPageSpeed(t.targetUrl);
    var oprReply := FallbackOpenPageRank(DomainSeed(t));
    var perf := psReply.normalized.performance.value;
    Score.ClampOfScore(perf);
    assert Score.Seo(Some(psReply.normalized)) == Some(perf);
    var k := oprReply.normalized.rank.value.Floor;
    assert oprReply.normalized.rank.value * 10.0 == (k * 10) as real;
    Score.ClampOfScore(k * 10);
    assert Score.DomainRankScore(Some(oprReply.normalized)) == Some(k * 10);
  }
}
