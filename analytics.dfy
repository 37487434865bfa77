/**
 * `GET /api/analytics` (app/app/api/analytics/route.ts): the time window a
 * range selects and the metrics counted over it. Times are milliseconds;
 * the window is computed by subtracting whole hours or days, so calendar
 * effects of `setDate`/`setHours` (daylight-saving changes) are not
 * modelled. Averages and rates are exact reals; the source's one-decimal
 * rounding and the response-time and throughput figures are not modelled.
 */
module Analytics {
  import opened Wrappers
  import opened Seqs
  import Http
  import EmailProcessing
  import MaintenanceLogs

  type EmailLog = EmailProcessing.EmailLog
  type ErrorLog = MaintenanceLogs.ErrorLog

  datatype Window = Hours(hours: nat) | Days(days: nat)

  /** `searchParams.get('range') || '7d'`. */
  function EffectiveRange(range: Option<string>): (r: string)
    ensures Http.Truthy(range) ==> r == range.value
    ensures !Http.Truthy(range) ==> r == "7d"
  {
    if Http.Truthy(range) then range.value else "7d"
  }

  /** The `switch (range)`: four known ranges, a week for anything else. */
  function RangeWindow(range: Option<string>): (w: Window)
    ensures w == Hours(24) || w == Days(7) || w == Days(30) || w == Days(90)
  {
    match EffectiveRange(range)
    case "24h" => Hours(24)
    case "7d" => Days(7)
    case "30d" => Days(30)
    case "90d" => Days(90)
    case _ => Days(7)
  }

  /** A missing, empty or unrecognised range gets the same window as "7d". */
  lemma DefaultRangeIsWeek(range: Option<string>)
    requires EffectiveRange(range) !in ["24h", "30d", "90d"]
    ensures RangeWindow(range) == RangeWindow(Some("7d")) == Days(7)
  {
  }

  const HOUR_MS: nat := 60 * 60 * 1000
  const DAY_MS: nat := 24 * HOUR_MS

  /** `startDate`: the window's length before `now`. */
  function StartTime(now: int, w: Window): (start: int)
    ensures start <= now
  {
    match w
    case Hours(h) => now - h * HOUR_MS
    case Days(d) => now - d * DAY_MS
  }

  /** The longer ranges reach further back: 90d, then 30d, then 7d, then 24h. */
  lemma WindowsNest(now: int)
    ensures StartTime(now, RangeWindow(Some("90d"))) <= StartTime(now, RangeWindow(Some("30d")))
    ensures StartTime(now, RangeWindow(Some("30d"))) <= StartTime(now, RangeWindow(Some("7d")))
    ensures StartTime(now, RangeWindow(Some("7d"))) <= StartTime(now, RangeWindow(Some("24h")))
  {
  }

  // ---------------------------------------------------------------- metrics

  function EmailSince(start: int): EmailLog -> bool {
    (e: EmailLog) => e.createdAt >= start
  }

  function ErrorSince(start: int): ErrorLog -> bool {
    (e: ErrorLog) => e.createdAt >= start
  }

  function IsProcessed(e: EmailLog): bool { e.processed }
  function HasReply(e: EmailLog): bool { e.replyGenerated }

  /** `log.classification && log.confidence`: both present, and the confidence not 0. */
  function IsScored(e: EmailLog): bool {
    Http.Truthy(e.classification) && e.confidence.Some? && e.confidence.value != 0.0
  }

  function ConfidenceSum(logs: seq<EmailLog>): real {
    if logs == [] then 0.0
    else (if logs[0].confidence.Some? then logs[0].confidence.value else 0.0) + ConfidenceSum(logs[1..])
  }

  predicate ConfidenceInRange(e: EmailLog) {
    e.confidence.Some? ==> 0.0 <= e.confidence.value <= 1.0
  }

  lemma {:induction false} ConfidenceSumBounds(logs: seq<EmailLog>)
    requires forall e :: e in logs ==> ConfidenceInRange(e)
    ensures 0.0 <= ConfidenceSum(logs) <= |logs| as real
  {
    if logs != [] {
      assert logs[0] in logs;
      ConfidenceSumBounds(logs[1..]);
    }
  }

  datatype Metrics = Metrics(
    totalEmails: nat,
    processedEmails: nat,
    smartReplies: nat,
    avgAccuracy: real,
    errorRate: real)

  /** The metrics over the emails and error logs created since `start`. */
  function ComputeMetrics(emails: seq<EmailLog>, errors: seq<ErrorLog>, start: int): (m: Metrics)
    ensures m.totalEmails == Count(EmailSince(start), emails) <= |emails|
    ensures m.processedEmails <= m.totalEmails && m.smartReplies <= m.totalEmails
    ensures Count(IsScored, Filter(EmailSince(start), emails)) == 0 ==> m.avgAccuracy == 0.0
    ensures m.totalEmails == 0 ==> m.errorRate == 0.0
  {
    var window := Filter(EmailSince(start), emails);
    var scored := Filter(IsScored, window);
    var errorCount := Count(ErrorSince(start), errors);
    Metrics(
      |window|,
      Count(IsProcessed, window),
      Count(HasReply, window),
      if |scored| > 0 then ConfidenceSum(scored) / (|scored| as real) * 100.0 else 0.0,
      if |window| > 0 then (errorCount as real) / (|window| as real) * 100.0 else 0.0)
  }

  /** A share of a whole, as a percentage, lies in `[0, 100]`. */
  lemma ShareIsPercentage(part: real, whole: real)
    requires 0.0 <= part <= whole && whole > 0.0
    ensures 0.0 <= part / whole * 100.0 <= 100.0
  {
    var q := part / whole;
    assert q * whole == part;
  }

  /** With confidences in `[0, 1]` the average accuracy is a percentage. */
  lemma AccuracyBounds(emails: seq<EmailLog>, errors: seq<ErrorLog>, start: int)
    requires forall e :: e in emails ==> ConfidenceInRange(e)
    ensures 0.0 <= ComputeMetrics(emails, errors, start).avgAccuracy <= 100.0
  {
    var window := Filter(EmailSince(start), emails);
    var scored := Filter(IsScored, window);
    FilterMembers(EmailSince(start), emails);
    FilterMembers(IsScored, window);
    ConfidenceSumBounds(scored);
    if |scored| > 0 {
      ShareIsPercentage(ConfidenceSum(scored), |scored| as real);
    }
  }

  /** A window that starts earlier counts at least as many emails. */
  lemma EarlierStartCountsMore(emails: seq<EmailLog>, errors: seq<ErrorLog>, early: int, late: int)
    requires early <= late
    ensures ComputeMetrics(emails, errors, late).totalEmails <= ComputeMetrics(emails, errors, early).totalEmails
  {
    CountMonotone(EmailSince(late), EmailSince(early), emails);
  }

  datatype AnalyticsResponse = Report(metrics: Metrics) | Fail(code: int, body: Http.ErrorBody)

  /** `GET /api/analytics`: 401 without a session, otherwise the metrics over the selected window. */
  function Get(userId: Option<string>, range: Option<string>, now: int, emails: seq<EmailLog>, errors: seq<ErrorLog>)
    : (resp: AnalyticsResponse)
    ensures !Http.SignedIn(userId) ==> resp == Fail(Http.UNAUTHORIZED, Http.RouteError("Unauthorized"))
    ensures Http.SignedIn(userId) ==>
      resp == Report(ComputeMetrics(emails, errors, StartTime(now, RangeWindow(range))))
      && resp.metrics.processedEmails <= resp.metrics.totalEmails
      && resp.metrics.smartReplies <= resp.metrics.totalEmails
  {
    if !Http.SignedIn(userId) then Fail(Http.UNAUTHORIZED, Http.RouteError("Unauthorized"))
    else Report(ComputeMetrics(emails, errors, StartTime(now, RangeWindow(range))))
  }

  /** Over the same data, the 90-day report counts at least as many emails as the 24-hour one. */
  lemma LongerRangeCountsMore(userId: Option<string>, now: int, emails: seq<EmailLog>, errors: seq<ErrorLog>)
    requires Http.SignedIn(userId)
    ensures Get(userId, Some("24h"), now, emails, errors).metrics.totalEmails
         <= Get(userId, Some("90d"), now, emails, errors).metrics.totalEmails
  {
    WindowsNest(now);
    EarlierStartCountsMore(emails, errors, StartTime(now, Days(90)), StartTime(now, Hours(24)));
  }
}
