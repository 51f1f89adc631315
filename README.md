# Audit-Report pipeline, modelled in Dafny

This project models the decision logic of the Audit-Report web-page audit
pipeline. Networking, the queue and the database are replaced by values. The
model covers six parts:

- **Score aggregator (`Score`).** It turns the three provider results into
  0..100 category scores. The overall score is a weighted mean that is
  renormalised over the categories present.
- **Worker (`Retries`, `Fallbacks`, `Worker`).**
  - `withRetries`, the bounded attempt loop.
  - `hashCode`, the 32-bit wrapping string hash.
  - The four seeded fallback generators.
  - The job handler, which moves one audit record from `queued` through
    `running` to `done` or `failed`. The audit document is a class whose
    fields the handler updates in place.
- **Provider adapters (`PageSpeed`, `OpenPageRank`, `SerpApi`).**
  - Each HTTP exchange is an input value: a transport error or a decoded body
    in which every field may be missing.
  - The API and worker copies of Open PageRank and of SerpAPI differ, so each
    copy is modelled separately.
- **Audits routes (`AuditsRoute`).** `POST /` validates, normalises, creates
  and enqueues. `GET /` lists newest first under a clamped limit. `GET /:id`
  returns one record with defaults. The collection is an `AuditStore` object
  holding a sequence of records and a logical clock.
- **Providers demo route (`ProvidersDemo`).** It calls the three API adapters
  once each and returns the scores over their replies.
- **Dashboard figures (`Dashboard`).** These are `isRunning`, the `analytics`
  and `usability` memos, and the clamps of the `Donut` and `Bars` charts.

JavaScript's own behaviour sits in `Js`:

- falsy strings;
- `trim`;
- the prefix-stripping regular expressions;
- `includes` and `findIndex`;
- `Math.round(x) = floor(x + 1/2)`;
- ECMAScript ToInt32.

All numbers are exact. Integers are unbounded and reals are exact rationals.
The 32-bit wrap-around of `hashCode` is written out explicitly.

The model follows the code in the places below, where its behaviour is easy to get wrong:

- If the final `audit.save()` of a completed run throws, the `catch` block
  marks the record `failed`. The new scores and provider data have already
  been assigned by then, so the failed record keeps them; only a run that
  throws before the assignment leaves the old scores untouched.
  `Worker.FinalFields` models exactly that.
- The API SerpAPI adapter strips `www.` from the target domain. It does not
  strip a scheme (`SerpApi.CanonicalDomain`).
- Only the worker's Open PageRank adapter normalises its input. The API copy
  sends it as given.
- The PageSpeed adapters need no API key.
- The adapters do throw on empty arguments, and the providers demo route
  catches those throws.
- The worker does not refuse a record that is already `done` or `failed`. It
  runs the job again from `running`.
- When `queue.add` throws, the route answers 500, but the record has already
  been created and stays stored (`AuditsRoute.AuditStore.Create`).
- A negative retry count makes `withRetries` throw `undefined`. With fallback
  off, reading `e.message` then raises a TypeError, which fails the job
  (`Worker.CrashesOnlyWithoutAttempts`).

## Model

| member | source | states |
|---|---|---|
| Js.Trim | packages/api/src/routes/audits.js:10-12 | `trim` gives the empty string exactly for all-white-space input; otherwise the result is the slice of the input after its leading white space, starts and ends with a non-space, and only white space follows it |
| Js.BeforeSlash | packages/api/src/routes/providers-demo.js:25 | `split('/')[0]` is the longest prefix without `/`, followed in the input by `/` when shorter |
| Js.ContainsIffOccurs | packages/api/src/services/providers/serpapi.js:27 | `includes` holds exactly when the substring occurs at some offset |
| Js.FindIndex | packages/api/src/services/providers/serpapi.js:24-28 | `findIndex` is -1 exactly when no element satisfies the predicate; otherwise the element at the result satisfies it and none before does |
| Js.ToInt32 | packages/worker/src/index.js:35 | `\| 0` yields the 32-bit value congruent to its argument modulo 2^32 |
| Js.ToInt32Congruent | packages/worker/src/index.js:35 | `\| 0` depends only on its argument modulo 2^32 |
| Js.RoundIsNearest | packages/worker/src/services/score.js:2 | `Math.round` returns an integer within one half of its argument |
| Provider.Caught | packages/api/src/routes/providers-demo.js:28-32 | `.catch` turns a thrown error into `{ ok: false, error: message }` and passes any reply through |
| Retries.WithRetries | packages/worker/src/index.js:17-30 | the attempt loop yields exactly the outcome, number of calls and number of sleeps that the recursive definition `Retry` prescribes |
| Retries.RunFromFacts | packages/worker/src/index.js:19-29 | from attempt `i` on: at most `retries + 1 - i` calls, a sleep after every call but the last, a success returns the first successful reply, and exhaustion throws the last attempt's error |
| Retries.RetryBounds | packages/worker/src/index.js:19-29 | `fn` is called at most `retries + 1` times; it is not called at all, and `undefined` is thrown, exactly when `retries` is negative; sleeps are calls minus one |
| Retries.RetryFirstSuccess | packages/worker/src/index.js:19-23 | when attempt `k` is the first success, its reply is returned after `k + 1` calls and `k` sleeps, and nothing more is called |
| Retries.RetrySuccessIsFirst | packages/worker/src/index.js:21-23 | a returned reply is the last call's, which succeeded, and every earlier call failed |
| Retries.RetryExhausted | packages/worker/src/index.js:19-29 | when every attempt fails, all `retries + 1` calls are made with `retries` sleeps, and the last error is thrown |
| Retries.DefaultRetriesAlwaysFailing | packages/worker/src/index.js:17-29 | with two retries and a call that always throws: three calls, two sleeps, the error rethrown |
| Retries.FailedReplyIsLikeThrow | packages/worker/src/index.js:22-25 | attempts that agree on success, on successful replies and on failure messages give the same run, so `{ ok: false }` counts exactly as a throw |
| Retries.FailedReplyThrowsItsError | packages/worker/src/index.js:22 | replacing each `{ ok: false, error: m }` reply by `throw new Error(m)` leaves the run unchanged |
| Fallbacks.HashStep | packages/worker/src/index.js:35 | one step of the hash loop leaves a 32-bit integer |
| Fallbacks.HashStepIsMultiplyAdd | packages/worker/src/index.js:35 | `((h << 5) - h + c) \| 0` is `31 * h + c` reduced to 32 bits |
| Fallbacks.HashState | packages/worker/src/index.js:33-36 | the loop state stays a 32-bit integer |
| Fallbacks.Hash | packages/worker/src/index.js:37 | `hashCode` is non-negative and at most 2^31 |
| Fallbacks.HashCode | packages/worker/src/index.js:32-38 | the character loop computes the hash of the whole string, which is at most 2^31 |
| Fallbacks.HashOfSingle | packages/worker/src/index.js:32-38 | a one-character string hashes to its character code |
| Fallbacks.Seed | packages/worker/src/index.js:41 | `seedStr \|\| 'default'` is never empty and keeps a non-empty seed |
| Fallbacks.FallbackPageSpeed | packages/worker/src/index.js:40-50 | a successful fallback reply with performance in 60..90 and every metric null |
| Fallbacks.FallbackOpenPageRank | packages/worker/src/index.js:52-62 | a successful fallback reply with an integer rank in 3..8 and a null domain |
| Fallbacks.SerpSeed | packages/worker/src/index.js:65-66 | the `keyword:domain` seed is never empty, so `'default'` is never used for it |
| Fallbacks.FallbackSerp | packages/worker/src/index.js:64-70 | a successful fallback reply echoing keyword and domain, with rank in 5..30 |
| Fallbacks.FallbackSocial | packages/worker/src/index.js:72-76 | a social score in 50..90 |
| Fallbacks.EmptySeedIsDefault | packages/worker/src/index.js:41-75 | an empty seed gives the same fallbacks as `'default'` |
| PageSpeed.Normalize | packages/api/src/services/providers/pagespeed.js:15-28 | performance is `round(score * 100)` when the category score is present, else null; each metric is its audit's `numericValue`, else null |
| PageSpeed.Fetch | packages/api/src/services/providers/pagespeed.js:7-33 | throws `url required` exactly for an empty url; no key is needed; a transport error becomes `{ ok: false, error }`; a response becomes an unsynthesised success with the normalised metrics |
| PageSpeed.MissingLighthouseIsAllNull | packages/api/src/services/providers/pagespeed.js:15-28 | a response without `lighthouseResult` is still a success, with every field null |
| OpenPageRank.NumericRank | packages/api/src/services/providers/openpagerank.js:17-24 | the rank is the first entry's rank when it is a number, and null otherwise |
| OpenPageRank.ApiFetch | packages/api/src/services/providers/openpagerank.js:7-30 | a missing key is `{ ok: false }` before the empty-input throw; the input is sent unchanged; transport errors become failures; the domain is the response's or null |
| OpenPageRank.NormalizeDomain | packages/worker/src/services/providers/openpagerank.js:4-15 | empty input is returned unchanged; a parsed URL gives its hostname without one `www.`; otherwise the result has no `/` |
| OpenPageRank.NormalizeDomainFallback | packages/worker/src/services/providers/openpagerank.js:10-13 | the string branch strips one scheme and one `www.` and keeps the prefix before the first `/` |
| OpenPageRank.WorkerFetch | packages/worker/src/services/providers/openpagerank.js:18-44 | the same guards in the same order; the request carries the normalised domain, which also replaces a missing response domain |
| SerpApi.ApiRank | packages/api/src/services/providers/serpapi.js:21-29 | a rank lies in 1..number of organic results |
| SerpApi.ApiMatches | packages/api/src/services/providers/serpapi.js:24-28 | a result matches when its canonical displayed link or link contains the domain |
| SerpApi.ApiRankFound | packages/api/src/services/providers/serpapi.js:23-29 | a rank is the position of the first result whose normalised, lower-cased displayed link or link contains the normalised domain |
| SerpApi.ApiRankMissing | packages/api/src/services/providers/serpapi.js:24-29 | the rank is null exactly when no result matches |
| SerpApi.ApiFetch | packages/api/src/services/providers/serpapi.js:7-42 | a missing key is `{ ok: false }` before the argument check; an empty keyword or domain throws; transport errors become failures; a success echoes keyword and domain with the rank |
| SerpApi.WorkerRank | packages/worker/src/services/providers/serpapi.js:18-20 | the rank is the position of the first result whose displayed link contains the domain case-sensitively, and null exactly when there is none |
| SerpApi.WorkerMatches | packages/worker/src/services/providers/serpapi.js:19 | a result matches when its displayed link contains the domain, case-sensitively |
| SerpApi.WorkerFetch | packages/worker/src/services/providers/serpapi.js:4-29 | the same guards and envelope as the API copy, with the worker's rank |
| SerpApi.WorkerIgnoresLink | packages/worker/src/services/providers/serpapi.js:19 | a result matching only in `link` is found by the API copy and not by the worker copy |
| SerpApi.WorkerIsCaseSensitive | packages/worker/src/services/providers/serpapi.js:19 | an upper-case displayed link is found by the API copy only |
| Score.Clamp | packages/worker/src/services/score.js:1-3 | an integer in 0..100, equal to `round(n)` when that is in range, else the nearer bound |
| Score.ClampMonotone | packages/worker/src/services/score.js:1-3 | the clamp is monotone |
| Score.ClampOfScore | packages/worker/src/services/score.js:1-3 | an integer in 0..100 passes through unchanged |
| Score.ClsPenalty | packages/worker/src/services/score.js:8-11 | 10 exactly above 0.25, 5 exactly in (0.1, 0.25], 0 when absent or at most 0.1 |
| Score.TbtPenalty | packages/worker/src/services/score.js:12-15 | 10 exactly above 600 ms, 5 exactly in (300, 600], 0 when absent or at most 300 |
| Score.Seo | packages/worker/src/services/score.js:5-17 | null exactly when the metrics or their performance are null; otherwise in 0..100, between `clamp(performance - 20)` and `clamp(performance)` |
| Score.ScoreFromPageSpeed | packages/worker/src/services/score.js:5-17 | decrementing `s` penalty by penalty gives the seo score |
| Score.SeoExample | packages/worker/src/services/score.js:5-17 | performance 80 with CLS 0.3 and TBT 700 ms scores 60 |
| Score.DomainRankScore | packages/worker/src/services/score.js:19-22 | null exactly when the rank is null; otherwise in 0..100 |
| Score.DomainRankScoreScale | packages/worker/src/services/score.js:19-22 | rank 10 scores 100, rank 0 scores 0, and the score is monotone in the rank |
| Score.SerpScore | packages/worker/src/services/score.js:24-28 | null exactly for a null rank; otherwise in 0..100 |
| Score.SerpScoreClosedForm | packages/worker/src/services/score.js:24-28 | on positions 1..50 the score is `102 - 2 * rank`; 100 before, 0 from 51 on |
| Score.SerpScoreDecreasing | packages/api/src/services/score.js:31-37 | rank 1 scores 100, rank 50 scores 2, and the score strictly decreases in between |
| Score.Scores | packages/worker/src/services/score.js:30-45 | social is null; each category is its scorer applied to the normalised reply; overall is null exactly when no category is present, and otherwise lies between the smallest and largest present category |
| Score.ComputeScores | packages/worker/src/services/score.js:30-45 | pushing the present categories onto `parts` and reducing gives the scores above |
| Score.PartsSums | packages/worker/src/services/score.js:35-41 | the two reductions of `parts` in closed form, with weights 0.4 / 0.4 / 0.2 |
| Score.Overall | packages/worker/src/services/score.js:35-43 | the clamped weighted mean over the present parts, null without parts; OverallIsRatioMean and OverallBetween state what it is |
| Score.OverallIsRatioMean | packages/worker/src/services/score.js:39-42 | the renormalised 0.4 / 0.4 / 0.2 mean equals the 2 : 2 : 1 integer-weighted mean |
| Score.RatioMeanBetween | packages/worker/src/services/score.js:39-42 | the 2 : 2 : 1 mean is null exactly without categories, and otherwise between the smallest and largest present score |
| Score.OverallBetween | packages/worker/src/services/score.js:39-42 | overall is null exactly without categories, and otherwise between the smallest and largest present score |
| Score.OverallOfSingle | packages/worker/src/services/score.js:39-42 | with one category present, overall is that category's score |
| Worker.AuditDocument.Load | packages/api/src/db/models/Audit.js:14-28 | a loaded document carries the stored record's fields |
| Worker.FallbackEnabled | packages/worker/src/index.js:104 | fallback is on when the flag, read as `true` when unset or empty, is `true` in any letter case; FallbackFlagExamples shows which flags enable it |
| Worker.FallbackFlagExamples | packages/worker/src/index.js:104 | an unset or empty flag and any casing of `true` enable fallback; `false` and `1` do not |
| Worker.Settle | packages/worker/src/index.js:109-113 | a success passes through; a throw gives the fallback when enabled, else `{ ok: false, error }`; the call rejects exactly when `undefined` was thrown with fallback off, with the TypeError message |
| Worker.PageSpeedCall | packages/worker/src/index.js:108-114 | `psCall()`: the settled retry run of the PageSpeed fetch, with its seeded fallback; PageSpeedFallsBack and SettledOk state its cases |
| Worker.OpenPageRankCall | packages/worker/src/index.js:115-121 | `oprCall()`: the settled retry run of the Open PageRank fetch seeded by `domain \|\| targetUrl`; OpenPageRankFallsBack states its no-key case |
| Worker.SerpCall | packages/worker/src/index.js:122-129 | `serpCall()`: null without any attempt unless keyword and domain are set, else the settled retry run; SearchSkipped and SerpLive state its cases |
| Worker.ResolveSerp | packages/worker/src/index.js:133-137 | a successful search without a rank becomes `fallbackSerp` when fallback is on; NullRankReplaced states it about a run |
| Worker.FinalScores | packages/worker/src/index.js:139-144 | `computeScores` plus the social placeholder under fallback; FallbackOnlyScores and NoFallbackNothingSynthesised state its cases |
| Worker.CallProviders | packages/worker/src/index.js:108-131 | the three provider calls settle as their definitions say; the search endpoint is called only when keyword and domain are set |
| Worker.Complete | packages/worker/src/index.js:131-151 | the rest of the `try` block yields `Outcome`: a rejection, or the replaced search result, the scores with the social placeholder, and the provider data |
| Worker.Evaluate | packages/worker/src/index.js:103-151 | the provider calls and the completion of one run on the record's fields |
| Worker.FinalState | packages/worker/src/index.js:146-160 | the record ends terminal, with the status of the last save; `done` exactly when the run completed and its save worked, with no error; `failed` carries the thrown message; a crash keeps the old scores and provider data; a completed run stores its results even when the save fails |
| Worker.Finish | packages/worker/src/index.js:146-160 | the document's fields become `FinalFields` of the completion and save fault; its target fields are unchanged; the result rethrows or returns `{ ok: true }` |
| Worker.Start | packages/worker/src/index.js:100-101 | `running` is assigned and saved, and nothing else of the record changes |
| Worker.HandleJob | packages/worker/src/index.js:95-161 | a missing id or record returns its error and touches nothing; otherwise the handler first saves `running`, then makes the provider calls, then saves the outcome, so the event log is `running`, the three call counts, and the final status, in that order; the record ends with the fields and the result that the run's outcome prescribes |
| Worker.FinishOverridesRunning | packages/worker/src/index.js:100-160 | the intermediate `running` status never shows in the record's final fields |
| Worker.SuccessIsOk | packages/worker/src/index.js:21-23 | `withRetries` only resolves with a successful reply |
| Worker.CrashesOnlyWithoutAttempts | packages/worker/src/index.js:108-131 | the run rejects before the final save exactly when the retry count is negative and fallback is off, with the TypeError message |
| Worker.FallbackAlwaysCompletes | packages/worker/src/index.js:108-144 | with fallback on, the run completes with three successful replies, a ranked search result whenever keyword and domain are set, and a social score in 50..90 |
| Worker.SettledOk | packages/worker/src/index.js:108-114 | with fallback on, a provider call settles with a success whatever its attempts do |
| Worker.NoFallbackNothingSynthesised | packages/worker/src/index.js:108-144 | with fallback off, no stored reply is synthesised, a failure carries the last attempt's error, and social stays null |
| Worker.SearchSkipped | packages/worker/src/index.js:122-123 | without keyword and domain, no search call is made and there is no search result and no rank score |
| Worker.CompletedRun | packages/worker/src/index.js:131-151 | a completed run stores the three settled replies and the final scores over them |
| Worker.NullRankReplaced | packages/worker/src/index.js:133-137 | a successful search without a rank is replaced by the fallback when fallback is on; a found rank is kept |
| Worker.SerpLive | packages/worker/src/index.js:122-129 | a successful search settles with the live reply |
| Worker.PageSpeedFallsBack | packages/worker/src/index.js:108-114 | when every performance request fails and fallback is on, the fallback is used |
| Worker.OpenPageRankFallsBack | packages/worker/src/index.js:115-121 | without a key and with fallback on, the domain-rank fallback is used |
| Worker.NoKeysScenario | packages/worker/src/index.js:103-155 | a URL-only audit with no keys, fallback on and the performance endpoint unreachable completes with seo in 60..90, domain rank in 30..80, no rank, a placeholder social score, and overall between the two |
| Worker.FallbackOnlyScores | packages/worker/src/index.js:139-144 | the scores over the performance and domain-rank fallbacks alone |
| AuditsRoute.WithScheme | packages/api/src/routes/audits.js:19 | the string handed to `new URL` always has a scheme |
| AuditsRoute.DomainFallback | packages/api/src/routes/audits.js:22-25 | the string branch yields a non-empty domain without `/`, or null |
| AuditsRoute.NormalizeDomain | packages/api/src/routes/audits.js:16-27 | null for empty input; the hostname without one `www.` when the URL parses; the string branch otherwise |
| AuditsRoute.NormalizeDomainFallback | packages/api/src/routes/audits.js:21-26 | the string branch strips one scheme and one `www.`, truncates at the first `/`, and is null exactly when nothing is left |
| AuditsRoute.NormalizeDomainLikeWorker | packages/api/src/routes/audits.js:16-27 | on the string branch it agrees with the worker's `normalizeDomain`, an empty result becoming null |
| AuditsRoute.TrimmedOrNull | packages/api/src/routes/audits.js:11-12 | `(s \|\| '').trim() \|\| null` is null exactly for missing or all-white-space input, else the trimmed string |
| AuditsRoute.NewRecord | packages/api/src/routes/audits.js:32 | a created record is `queued` with the schema's defaults and the submitted fields |
| AuditsRoute.AppendKeepsWellStored | packages/api/src/routes/audits.js:32 | storing a record with the next id at the current time keeps ids, creation times and their order well formed |
| AuditsRoute.AuditStore.Post | packages/api/src/routes/audits.js:8-46 | a blank url is a 400 and stores nothing; a failing create is a 500 and stores nothing; otherwise one `queued` record is appended, with trimmed keyword and normalised domain, and the answer is 202, or 500 when the enqueue throws |
| AuditsRoute.AuditStore.Create | packages/api/src/routes/audits.js:32-41 | the record is appended whatever the queue does; the answer and the enqueued id follow the queue |
| AuditsRoute.AuditStore.List | packages/api/src/routes/audits.js:49-70 | a missing `targetUrl` is a 400; otherwise the items are the newest `min(matching, limit)` matching records, in strictly decreasing creation time, with every omitted match older, and `count` is their number |
| AuditsRoute.AuditStore.GetById | packages/api/src/routes/audits.js:73-92 | an unknown id is a 404; otherwise the record with error defaulting to null and scores and provider data to `{}` |
| AuditsRoute.ErrorOrNull | packages/api/src/routes/audits.js:83 | `doc.error \|\| null` |
| AuditsRoute.Items | packages/api/src/routes/audits.js:56-64 | one item per document, in order |
| AuditsRoute.ItemOf | packages/api/src/routes/audits.js:56-64 | one list item: the record's id, url, domain, time and status, its scores or `{}`, its error or null |
| AuditsRoute.Limit | packages/api/src/routes/audits.js:53 | the limit lies in 1..200 and defaults to 20 |
| AuditsRoute.NewestFirst | packages/api/src/routes/audits.js:54 | the records with the given `targetUrl`, latest stored first; NewestFirstMembers and NewestFirstOrdered state what it holds and its order |
| AuditsRoute.NewestFirstMembers | packages/api/src/routes/audits.js:54 | the selection holds exactly the records with the given `targetUrl` |
| AuditsRoute.NewestFirstOrdered | packages/api/src/routes/audits.js:54 | the selection is in strictly decreasing creation time |
| AuditsRoute.TakeNewest | packages/api/src/routes/audits.js:54 | the first `n` of the selection are matching, newest first, and newer than every match left out |
| ProvidersDemo.DemoDomain | packages/api/src/routes/providers-demo.js:16-25 | the final domain has no `/` and is the prefix before the first `/` of the source with one scheme and one `www.` stripped |
| ProvidersDemo.ProvidersDemo | packages/api/src/routes/providers-demo.js:10-38 | a blank url is exactly the 400 case; otherwise the reply carries the normalised domain, each adapter's caught reply, a search reply exactly when keyword and domain are non-empty, and the scores over them |
| ProvidersDemo.CallAdapters | packages/api/src/routes/providers-demo.js:27-37 | the three caught adapter calls, the search one skipped without keyword or domain, and `computeScores` over them |
| Dashboard.IsRunning | node_modules/@audit/frontend/src/App.jsx:198 | `isRunning`: an audit is loaded and its status is `queued` or `running`; RunningIffNotTerminal proves it is exactly "not terminal" |
| Dashboard.RunningIffNotTerminal | node_modules/@audit/frontend/src/App.jsx:198 | `isRunning` holds exactly when an audit is loaded and its status is not terminal |
| Dashboard.Present | node_modules/@audit/frontend/src/App.jsx:204 | a numeric score contributes itself, a missing one nothing |
| Dashboard.Values | node_modules/@audit/frontend/src/App.jsx:203-204 | the number of values is the number of numeric scores among the five keys; none exactly when every score is null; five exactly when all are numbers |
| Dashboard.Average | node_modules/@audit/frontend/src/App.jsx:205 | 0 for no values; otherwise the integer nearest the mean, halves rounded up: `(r - 1/2) * n <= sum < (r + 1/2) * n` |
| Dashboard.SumBounds | node_modules/@audit/frontend/src/App.jsx:205 | a sum of `n` values in `lo..hi` lies in `n*lo .. n*hi` |
| Dashboard.AverageBetween | node_modules/@audit/frontend/src/App.jsx:205 | the rounded mean of values in `lo..hi` stays in `lo..hi` |
| Dashboard.OrZero | node_modules/@audit/frontend/src/App.jsx:207 | a non-numeric score becomes 0 |
| Dashboard.AnalyticsOf | node_modules/@audit/frontend/src/App.jsx:201-216 | count is the number of numeric scores (at most 5); completeness is `20 * count`; categories replace nulls by 0; avg is the rounded mean of the numeric scores, 0 without values; overall is the stored overall, else avg |
| Dashboard.AnalyticsBetween | node_modules/@audit/frontend/src/App.jsx:201-216 | with every stored score in `lo..hi`, avg and overall are in `lo..hi` |
| Dashboard.AnalyticsOfEmpty | node_modules/@audit/frontend/src/App.jsx:202-215 | a missing or all-null score set shows zeros |
| Dashboard.LcpPenalty | node_modules/@audit/frontend/src/App.jsx:225-227 | 20 exactly above 4000 ms, 10 exactly in (2500, 4000], 0 when absent or at most 2500 |
| Dashboard.TbtPenalty | node_modules/@audit/frontend/src/App.jsx:228-230 | 25 exactly above 600 ms, 10 exactly in (300, 600], 0 when absent or at most 300 |
| Dashboard.ClsPenalty | node_modules/@audit/frontend/src/App.jsx:231-233 | 20 exactly above 0.25, 10 exactly in (0.1, 0.25], 0 when absent or at most 0.1 |
| Dashboard.UsabilityOf | node_modules/@audit/frontend/src/App.jsx:219-235 | null exactly without normalised metrics; otherwise in 35..100 |
| Dashboard.Usability | node_modules/@audit/frontend/src/App.jsx:219-235 | decrementing `score` from 100 penalty by penalty and clamping gives the index |
| Dashboard.UsabilityIsPenalised | node_modules/@audit/frontend/src/App.jsx:222-234 | the index is exactly 100 minus the three penalties: the clamp never bites |
| Dashboard.UsabilityMonotone | node_modules/@audit/frontend/src/App.jsx:219-235 | lower or missing metrics never lower the index |
| Dashboard.UsabilityExtremes | node_modules/@audit/frontend/src/App.jsx:219-235 | pages under every threshold score 100; pages over every upper threshold score 35 |
| Dashboard.DonutValue | node_modules/@audit/frontend/src/App.jsx:11-14 | the donut value lies in 0..100, defaults to 0, and is the nearer bound outside the range |
| Dashboard.DonutLabel | node_modules/@audit/frontend/src/App.jsx:36 | the donut label is an integer in 0..100 |
| Dashboard.BarValue | node_modules/@audit/frontend/src/App.jsx:51 | a bar value lies in 0..100, a non-number becomes 0, and an out-of-range value becomes the nearer bound |
| Dashboard.ClampsMonotone | node_modules/@audit/frontend/src/App.jsx:51 | a higher score never draws a shorter bar, a smaller arc or a smaller label |

## Left out

- HTTP, timeouts, the database and the queue are not modelled.
  - Every HTTP exchange is a parameter, a function from the request's
    key field to a transport error or a decoded body. The worker's is indexed
    by attempt number.
  - The request parameters other than that key field are not modelled: the
    strategy, `num`, `hl`, `gl` and the headers.
  - The documents store is a sequence of records (API side) or a map of
    documents (worker side).
- The database writes are modelled as follows.
  - `Audit.create` can fail through a flag.
  - Only the final `audit.save()` of a completed run can fail, through
    `saveFault`.
  - Failures of the `running` save, of the `findById` lookup, and of the save
    in the `catch` block are left out.
  - `updatedAt` is not modelled.
  - The enqueue options (attempts, backoff) are left out, because they belong
    to the queue runtime.
- The `Promise.all` fan-out is modelled as three calls in sequence. The calls
  are independent, so the order is not observable in the model.
- `sleep` is counted, not timed. `PROVIDER_BACKOFF_MS` is left out for that
  reason.
- `process.env` reads are parameters.
  - `PROVIDER_RETRIES` arrives already converted to an integer, so the NaN
    case of `Number(...)` is left out.
  - The list `limit` arrives as the integer `parseInt` produced, or as absent,
    so a NaN limit is left out.
- `new URL(...)` is the uninterpreted parameter `host`: it gives the hostname,
  or nothing when the constructor throws. The WHATWG URL parser itself is
  foreign code.
- `toLowerCase` and the `/i` regular expressions are modelled on ASCII
  letters only. Unicode case folding is left out.
- `charCodeAt` is modelled as the character's code point. Characters outside
  the Basic Multilingual Plane, which JavaScript sees as two UTF-16 units, are
  not modelled.
- Inputs that are not strings, such as a query parameter repeated as an array
  or a numeric body field, are not modelled. Every input is a string or
  absent.
- Floating point: all arithmetic is exact, `98 / 49` is exactly 2, and
  0.4 / 0.4 / 0.2 are exact decimals.
- The `raw` field of provider replies is not modelled. Also left out are the
  JSON shapes of the HTTP responses beyond the fields the code reads, and the
  `timestamps` bookkeeping other than `createdAt`.
- The API copy of `services/score.js` (`packages/api/src/services/score.js`)
  is the same code as the worker copy, so one module, `Score`, models both.
  Likewise `PageSpeed` models both `fetchPageSpeed` copies, which differ only
  in their timeout.
- The worker bootstrap, the Express app, CORS, the health route and the
  database connections are transport and configuration. So is the
  dashboard's rendering and report export, apart from the figures above.
- Worker.HandleJob: the record is looked up by id in a map of documents. That
  `findById` returns the same document every time is an assumption of the
  model.
- AuditsRoute.AuditStore.List: creation times come from a logical clock that
  grows with every stored record, so no two records share a `createdAt`. Real
  timestamps can tie, and the database's order among equal `createdAt`
  values is unspecified. The strictly decreasing order therefore holds only
  in the model.
- AuditsRoute.ScoresOrEmpty and AuditsRoute.ProviderDataOrEmpty read the
  API's `{}` default as a record whose every field is null (`NoScores`,
  `Unset`). The difference between an empty object and one with null fields
  is not modelled.
