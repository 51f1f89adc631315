/** An audit record (`db/models/Audit.js`): the audited URL, the optional
    keyword and domain, the job status, the last error, the scores and the
    provider results the worker stored. */
module AuditModel {
  import opened Js
  import opened Provider
  import PageSpeed
  import OpenPageRank
  import SerpApi
  import Score

  /** The status enum; a new record is `queued`. */
  datatype Status = Queued | Running | Done | Failed

  /** The statuses after which the worker has finished with the record. */
  predicate IsTerminal(s: Status) {
    s == Done || s == Failed
  }

  /** The worker's `providerData`: the three provider replies, the search one
      null when it was skipped. `Unset` is the schema default `{}`. */
  datatype ProviderData =
    | Unset
    | ProviderData(
        pageSpeed: Reply<PageSpeed.Metrics>,
        openPageRank: Reply<OpenPageRank.DomainRank>,
        serp: Option<Reply<SerpApi.Position>>)

  /** A stored record as a plain value (a `lean()` read). `scores` and
      `providerData` are None when the stored value is null or absent. */
  datatype AuditRecord = AuditRecord(
    id: nat,
    targetUrl: string,
    keyword: Option<string>,
    domain: Option<string>,
    status: Status,
    error: Option<string>,
    scores: Option<Score.ScoreSet>,
    providerData: Option<ProviderData>,
    createdAt: int)
}
