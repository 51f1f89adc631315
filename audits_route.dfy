/** The audits HTTP routes (`packages/api/src/routes/audits.js`): create an
    audit from a submitted URL, list the audits of a URL newest-first, and
    fetch one audit by id. The database is an in-memory list of records. */
module AuditsRoute {
  import opened Js
  import Score
  import OpenPageRank
  import opened AuditModel

  // ---------------------------------------------------------------------------
  // normalizeDomain

  /** `/^https?:\/\//i.test(s)`. */
  predicate HasScheme(s: string) {
    StartsWithIgnoringCase(s, "https://") || StartsWithIgnoringCase(s, "http://")
  }

  /** The string handed to `new URL`: the input, with `https://` in front
      when it has no scheme. */
  function WithScheme(s: string): (r: string)
    ensures HasScheme(r)
  {
    if HasScheme(s) then s
    else
      assert StartsWithIgnoringCase("https://" + s, "https://") by {
        assert forall k :: 0 <= k < 8 ==> ("https://" + s)[k] == "https://"[k];
      }
      "https://" + s
  }

  /** The string fallback taken when `new URL` throws. */
  function DomainFallback(s: string): (r: Option<string>)
    ensures r.Some? ==> r.value != "" && '/' !in r.value
  {
    NullIfEmpty(BeforeSlash(StripWwwIgnoringCase(StripScheme(s))))
  }

  /** `normalizeDomain(input)`; `host(s)` is the hostname `new URL(s)`
      yields, or None when it throws. */
  function NormalizeDomain(input: string, host: string -> Option<string>): (r: Option<string>)
    ensures input == "" ==> r.None?
    ensures input != "" && host(WithScheme(input)).Some? ==> r == Some(StripWww(host(WithScheme(input)).value))
    ensures input != "" && host(WithScheme(input)).None? ==> r == DomainFallback(input)
  {
    if input == "" then None
    else
      match host(WithScheme(input))
      case Some(h) => Some(StripWww(h))
      case None => DomainFallback(input)
  }

  /** Without a parsable URL, the stored domain is what is left after one
      scheme and one `www.`, up to the first slash, and null when that is empty. */
  lemma NormalizeDomainFallback(input: string, host: string -> Option<string>)
    requires input != "" && host(WithScheme(input)).None?
    ensures var rest := StripWwwIgnoringCase(StripScheme(input));
      var r := NormalizeDomain(input, host);
      (r.None? <==> rest == "" || rest[0] == '/')
      && (r.Some? ==> '/' !in r.value && r.value == rest[..|r.value|]
                      && (|r.value| < |rest| ==> rest[|r.value|] == '/'))
  {
    var rest := StripWwwIgnoringCase(StripScheme(input));
    var b := BeforeSlash(rest);
    if rest != [] && rest[0] != '/' {
      assert b[0] == rest[0];
    }
  }

  /** The two copies of `normalizeDomain` agree on the string fallback,
      except that this one maps an empty result to null. */
  lemma NormalizeDomainLikeWorker(input: string, host: string -> Option<string>)
    requires input != "" && host(WithScheme(input)).None? && host(input).None?
    ensures NormalizeDomain(input, host) == NullIfEmpty(OpenPageRank.NormalizeDomain(input, host))
  {
  }

  // ---------------------------------------------------------------------------
  // POST /

  /** What `POST /` answers. */
  datatype PostResponse =
    | Accepted(auditId: nat, status: Status)   // 202
    | BadRequest(error: string)                // 400
    | ServerError(error: string)               // 500

  /** The queue as the route finds it: not configured, or accepting jobs,
      or failing the `add` with an error. */
  datatype Queue = NoQueue | QueueUp | QueueDown

  const UrlRequired := "url is required"
  const CreateFailed := "Failed to create audit"

  /** `(s || '').trim() || null`. */
  function TrimmedOrNull(s: Option<string>): (r: Option<string>)
    ensures r.None? <==> AllSpace(Or(s, ""))
    ensures r.Some? ==> r.value == Trim(Or(s, "")) && !IsSpace(r.value[0])
  {
    NullIfEmpty(Trim(Or(s, "")))
  }

  /** The record `Audit.create` stores for a submission (schema defaults for
      the other fields). */
  function NewRecord(id: nat, targetUrl: string, keyword: Option<string>, domain: Option<string>,
                     createdAt: int): (r: AuditRecord)
    ensures r.status == Queued && r.error.None? && r.scores == Some(Score.NoScores) && r.providerData == Some(Unset)
    ensures r.id == id && r.targetUrl == targetUrl && r.keyword == keyword && r.domain == domain
    ensures r.createdAt == createdAt
  {
    AuditRecord(id, targetUrl, keyword, domain, Queued, None, Some(Score.NoScores), Some(Unset), createdAt)
  }

  /** Every record's id is its position, every creation time is before
      `clock`, and creation times increase along `docs`. */
  predicate WellStored(docs: seq<AuditRecord>, clock: int) {
    (forall i :: 0 <= i < |docs| ==> docs[i].id == i && docs[i].createdAt < clock)
    && Increasing(docs)
  }

  /** Storing a record with the next id at the current time, then advancing
      the clock, keeps the store well formed. */
  lemma AppendKeepsWellStored(docs: seq<AuditRecord>, clock: int, r: AuditRecord)
    requires WellStored(docs, clock) && r.id == |docs| && r.createdAt == clock
    ensures WellStored(docs + [r], clock + 1)
  {
    var docs' := docs + [r];
    forall i, j | 0 <= i < j < |docs'| ensures docs'[i].createdAt < docs'[j].createdAt {
      assert docs'[i] == docs[i];
    }
  }

  /** The audits collection, with a logical clock for the `createdAt`
      timestamps. A record's id is its position. */
  class AuditStore {
    var docs: seq<AuditRecord>
    var clock: int

    predicate Valid()
      reads this
    {
      WellStored(docs, clock)
    }

    constructor Empty()
      ensures Valid() && docs == []
    {
      docs, clock := [], 0;
    }

    /** `POST /` with body fields `url`, `keyword` and `domain`. `createFails`
        makes `Audit.create` throw; `queue` decides what `queue.add` does. */
    method Post(url: Option<string>, keyword: Option<string>, domain: Option<string>,
                host: string -> Option<string>, queue: Queue, createFails: bool)
      returns (resp: PostResponse, enqueued: Option<nat>)
      requires Valid()
      modifies this
      ensures Valid()
      ensures var targetUrl := Trim(Or(url, ""));
        && (targetUrl == "" ==> resp == BadRequest(UrlRequired) && docs == old(docs) && enqueued.None?)
        && (targetUrl != "" && createFails ==> resp == ServerError(CreateFailed) && docs == old(docs) && enqueued.None?)
        && (targetUrl != "" && !createFails ==>
              var id := |old(docs)|;
              var stored := NormalizeDomain(Or(TrimmedOrNull(domain), targetUrl), host);
              && docs == old(docs) + [NewRecord(id, targetUrl, TrimmedOrNull(keyword), stored, old(clock))]
              && (queue == QueueDown ==> resp == ServerError(CreateFailed) && enqueued.None?)
              && (queue == QueueUp ==> resp == Accepted(id, Queued) && enqueued == Some(id))
              && (queue == NoQueue ==> resp == Accepted(id, Queued) && enqueued.None?))
    {
      var targetUrl := Trim(Or(url, ""));
      var kw := TrimmedOrNull(keyword);
      var d := TrimmedOrNull(domain);
      if targetUrl == "" {
        return BadRequest(UrlRequired), None;
      }
      d := NormalizeDomain(Or(d, targetUrl), host);
      if createFails {
        return ServerError(CreateFailed), None;
      }
      resp, enqueued := Create(targetUrl, kw, d, queue);
    }

    /** `Audit.create` of a validated submission, then `queue.add`: the record
        is stored even when the enqueue throws and the answer is a 500. */
    method Create(targetUrl: string, keyword: Option<string>, domain: Option<string>, queue: Queue)
      returns (resp: PostResponse, enqueued: Option<nat>)
      requires Valid()
      modifies this
      ensures Valid()
      ensures docs == old(docs) + [NewRecord(|old(docs)|, targetUrl, keyword, domain, old(clock))]
      ensures queue == QueueDown ==> resp == ServerError(CreateFailed) && enqueued.None?
      ensures queue == QueueUp ==> resp == Accepted(|old(docs)|, Queued) && enqueued == Some(|old(docs)|)
      ensures queue == NoQueue ==> resp == Accepted(|old(docs)|, Queued) && enqueued.None?
    {
      var id := |docs|;
      var record := NewRecord(id, targetUrl, keyword, domain, clock);
      AppendKeepsWellStored(docs, clock, record);
      docs, clock := docs + [record], clock + 1;
      match queue {
        case QueueDown => resp, enqueued := ServerError(CreateFailed), None;
        case QueueUp => resp, enqueued := Accepted(id, Queued), Some(id);
        case NoQueue => resp, enqueued := Accepted(id, Queued), None;
      }
    }

    // -------------------------------------------------------------------------
    // GET /?targetUrl=…&limit=…

    /** The matching records, newest first. */
    function Matching(targetUrl: string): seq<AuditRecord>
      reads this
    {
      NewestFirst(docs, targetUrl)
    }

    /** `GET /` with query parameters `targetUrl` and `limit` (None when the
        parameter is absent or empty, else its `parseInt` value). */
    function List(targetUrl: Option<string>, limit: Option<int>): (r: ListResponse)
      reads this
      requires Valid()
      ensures !Truthy(targetUrl) <==> r == ListBadRequest(TargetUrlRequired)
      ensures r.Listed? ==>
        var matching := Matching(targetUrl.value);
        && r.count == |r.items|
        && r.count == (if |matching| < Limit(limit) then |matching| else Limit(limit))
        && (forall k :: 0 <= k < |r.items| ==> r.items[k] == ItemOf(matching[k]) && matching[k].targetUrl == targetUrl.value)
        && (forall k, l :: 0 <= k < l < |r.items| ==> r.items[k].createdAt > r.items[l].createdAt)
        && (forall d :: d in docs && d.targetUrl == targetUrl.value && d !in matching[..r.count] ==>
              forall k :: 0 <= k < r.count ==> d.createdAt < r.items[k].createdAt)
    {
      if !Truthy(targetUrl) then ListBadRequest(TargetUrlRequired)
      else
        var matching := Matching(targetUrl.value);
        var n := if |matching| < Limit(limit) then |matching| else Limit(limit);
        TakeNewest(docs, targetUrl.value, n);
        Listed(Items(matching[..n]), n)
    }

    // -------------------------------------------------------------------------
    // GET /:id

    /** `GET /:id`. */
    function GetById(id: nat): (r: GetResponse)
      reads this
      requires Valid()
      ensures r == NotFound(NotFoundMessage) <==> id >= |docs|
      ensures r.Found? ==>
        var d := docs[id];
        && r.record.id == id && r.record.targetUrl == d.targetUrl && r.record.keyword == d.keyword
        && r.record.domain == d.domain && r.record.status == d.status && r.record.createdAt == d.createdAt
        && r.record.error == (if Truthy(d.error) then d.error else None)
        && r.record.scores == (if d.scores.Some? then d.scores.value else Score.NoScores)
        && r.record.providerData == (if d.providerData.Some? then d.providerData.value else Unset)
    {
      if id >= |docs| then NotFound(NotFoundMessage)
      else
        var d := docs[id];
        Found(AuditView(d.id, d.targetUrl, d.keyword, d.domain, d.status, ErrorOrNull(d.error),
                        ScoresOrEmpty(d.scores), ProviderDataOrEmpty(d.providerData), d.createdAt))
    }
  }

  // ---------------------------------------------------------------------------
  // Views and defaults

  const TargetUrlRequired := "targetUrl is required"
  const NotFoundMessage := "Not found"

  /** `doc.error || null`. */
  function ErrorOrNull(e: Option<string>): (r: Option<string>)
    ensures r.Some? <==> Truthy(e)
    ensures r.Some? ==> r == e
  {
    if Truthy(e) then e else None
  }

  /** `doc.scores || {}`; the empty object reads as all-null scores. */
  function ScoresOrEmpty(s: Option<Score.ScoreSet>): Score.ScoreSet {
    if s.Some? then s.value else Score.NoScores
  }

  /** `doc.providerData || {}`. */
  function ProviderDataOrEmpty(p: Option<ProviderData>): ProviderData {
    if p.Some? then p.value else Unset
  }

  /** One element of the list's `items`. */
  datatype Item = Item(id: nat, targetUrl: string, domain: Option<string>, createdAt: int,
                       status: Status, scores: Score.ScoreSet, error: Option<string>)

  function ItemOf(d: AuditRecord): Item {
    Item(d.id, d.targetUrl, d.domain, d.createdAt, d.status, ScoresOrEmpty(d.scores), ErrorOrNull(d.error))
  }

  /** `docs.map(...)` into list items. */
  function Items(ds: seq<AuditRecord>): (r: seq<Item>)
    ensures |r| == |ds| && forall k :: 0 <= k < |ds| ==> r[k] == ItemOf(ds[k])
  {
    seq(|ds|, k requires 0 <= k < |ds| => ItemOf(ds[k]))
  }

  datatype ListResponse = Listed(items: seq<Item>, count: nat) | ListBadRequest(error: string)

  /** The record as `GET /:id` returns it. */
  datatype AuditView = AuditView(id: nat, targetUrl: string, keyword: Option<string>, domain: Option<string>,
                                 status: Status, error: Option<string>, scores: Score.ScoreSet,
                                 providerData: ProviderData, createdAt: int)

  datatype GetResponse = Found(record: AuditView) | NotFound(error: string)

  /** `Math.max(1, Math.min(200, parseInt(limit || '20', 10)))`. */
  function Limit(limit: Option<int>): (r: int)
    ensures 1 <= r <= 200
    ensures limit.None? ==> r == 20
    ensures limit.Some? && 1 <= limit.value <= 200 ==> r == limit.value
    ensures limit.Some? && limit.value < 1 ==> r == 1
    ensures limit.Some? && limit.value > 200 ==> r == 200
  {
    var n := if limit.Some? then limit.value else 20;
    var m := if n < 200 then n else 200;
    if m > 1 then m else 1
  }

  /** The records of `docs` with the given `targetUrl`, last stored first
      (`find({ targetUrl }).sort({ createdAt: -1 })`). */
  function NewestFirst(docs: seq<AuditRecord>, targetUrl: string): seq<AuditRecord> {
    if docs == [] then []
    else
      var last := docs[|docs| - 1];
      (if last.targetUrl == targetUrl then [last] else []) + NewestFirst(docs[..|docs| - 1], targetUrl)
  }

  /** Creation times strictly increase along `docs`. */
  predicate Increasing(docs: seq<AuditRecord>) {
    forall i, j :: 0 <= i < j < |docs| ==> docs[i].createdAt < docs[j].createdAt
  }

  /** The newest-first selection holds exactly the matching records. */
  lemma {:induction false} NewestFirstMembers(docs: seq<AuditRecord>, targetUrl: string)
    ensures forall d :: d in NewestFirst(docs, targetUrl) <==> d in docs && d.targetUrl == targetUrl
  {
    if docs != [] {
      var init := docs[..|docs| - 1];
      NewestFirstMembers(init, targetUrl);
      assert docs == init + [docs[|docs| - 1]];
    }
  }

  /** Creation times strictly decrease along `r`. */
  predicate Decreasing(r: seq<AuditRecord>) {
    forall k, l :: 0 <= k < l < |r| ==> r[k].createdAt > r[l].createdAt
  }

  /** When creation times increase along `docs`, the selection lists the
      records by strictly decreasing creation time. */
  lemma {:induction false} NewestFirstOrdered(docs: seq<AuditRecord>, targetUrl: string)
    requires Increasing(docs)
    ensures Decreasing(NewestFirst(docs, targetUrl))
  {
    if docs != [] {
      var init := docs[..|docs| - 1];
      var last := docs[|docs| - 1];
      assert Increasing(init) by {
        forall i, j | 0 <= i < j < |init| ensures init[i].createdAt < init[j].createdAt {
          assert init[i] == docs[i] && init[j] == docs[j];
        }
      }
      NewestFirstOrdered(init, targetUrl);
      NewestFirstMembers(init, targetUrl);
      var rest := NewestFirst(init, targetUrl);
      assert NewestFirst(docs, targetUrl) == (if last.targetUrl == targetUrl then [last] else []) + rest;
      if last.targetUrl == targetUrl {
        var r := [last] + rest;
        forall k, l | 0 <= k < l < |r| ensures r[k].createdAt > r[l].createdAt {
          assert r[l] == rest[l - 1];
          if k == 0 {
            assert rest[l - 1] in init;
            var i :| 0 <= i < |init| && init[i] == rest[l - 1];
            assert docs[i] == rest[l - 1];
            assert docs[|docs| - 1] == last;
          } else {
            assert r[k] == rest[k - 1];
          }
        }
      }
    }
  }

  /** The first `n` of the newest-first selection (`.limit(n)`): matching
      records in strictly decreasing creation time, and every matching record
      left out is older than all of those kept. */
  lemma TakeNewest(docs: seq<AuditRecord>, targetUrl: string, n: nat)
    requires Increasing(docs) && n <= |NewestFirst(docs, targetUrl)|
    ensures var kept := NewestFirst(docs, targetUrl)[..n];
      && (forall k :: 0 <= k < n ==> kept[k].targetUrl == targetUrl)
      && Decreasing(kept)
      && (forall d :: d in docs && d.targetUrl == targetUrl && d !in kept ==>
            forall k :: 0 <= k < n ==> d.createdAt < kept[k].createdAt)
  {
    var matching := NewestFirst(docs, targetUrl);
    var kept := matching[..n];
    NewestFirstMembers(docs, targetUrl);
    NewestFirstOrdered(docs, targetUrl);
    forall k | 0 <= k < n ensures kept[k].targetUrl == targetUrl {
      assert kept[k] == matching[k] && matching[k] in matching;
    }
    forall d | d in docs && d.targetUrl == targetUrl && d !in kept
      ensures forall k :: 0 <= k < n ==> d.createdAt < kept[k].createdAt
    {
      var j :| 0 <= j < |matching| && matching[j] == d;
      forall k | 0 <= k < n ensures d.createdAt < kept[k].createdAt {
        assert kept[k] == matching[k];
      }
    }
  }
}
