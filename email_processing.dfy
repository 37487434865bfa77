/**
 * The email-processing overview (app/components/email-processing-overview.tsx):
 * the email filter, the summary counts and the status badge of a row.
 */
module EmailProcessing {
  import opened Wrappers
  import opened Text
  import opened Seqs
  import Http

  /** A processing-log row; `confidence` is the classifier's score in `[0, 1]`. */
  datatype EmailLog = EmailLog(
    id: string,
    subject: Option<string>,
    sender: Option<string>,
    classification: Option<string>,
    confidence: Option<real>,
    replyGenerated: bool,
    processed: bool,
    errorMessage: Option<string>,
    accountEmail: string,
    createdAt: int)

  /** The filter controls; "all" and the empty search switch a control off. */
  datatype EmailFilters = EmailFilters(classification: string, account: string, status: string, search: string)

  const NO_FILTERS: EmailFilters := EmailFilters("all", "all", "all", "")

  /** `field?.toLowerCase().includes(searchLower)`: a missing field never matches. */
  predicate FieldMatches(field: Option<string>, search: string) {
    field.Some? && ContainsIgnoreCase(field.value, search)
  }

  predicate MatchesSearch(e: EmailLog, search: string) {
    FieldMatches(e.subject, search) || FieldMatches(e.sender, search) || FieldMatches(e.classification, search)
  }

  /** The status control: processed, pending (not processed), or with an error message. */
  predicate FailsStatus(status: string, e: EmailLog) {
    || (status == "processed" && !e.processed)
    || (status == "pending" && e.processed)
    || (status == "error" && !Http.Truthy(e.errorMessage))
  }

  /** The `filteredEmails` callback, check by check as it returns early. */
  predicate Passes(f: EmailFilters, e: EmailLog) {
    if f.classification != "all" && e.classification != Some(f.classification) then false
    else if f.account != "all" && e.accountEmail != f.account then false
    else if f.status != "all" && FailsStatus(f.status, e) then false
    else if f.search != "" then MatchesSearch(e, f.search)
    else true
  }

  /** The early returns amount to one condition per control. */
  lemma PassesIff(f: EmailFilters, e: EmailLog)
    ensures Passes(f, e) <==>
      && (f.classification == "all" || e.classification == Some(f.classification))
      && (f.account == "all" || e.accountEmail == f.account)
      && (f.status == "processed" ==> e.processed)
      && (f.status == "pending" ==> !e.processed)
      && (f.status == "error" ==> Http.Truthy(e.errorMessage))
      && (f.search == "" || MatchesSearch(e, f.search))
  {
  }

  function Keep(f: EmailFilters): EmailLog -> bool {
    e => Passes(f, e)
  }

  /** `filteredEmails`: the emails that pass, in their order. */
  function FilteredEmails(emails: seq<EmailLog>, f: EmailFilters): (r: seq<EmailLog>)
    ensures IsSubsequence(r, emails)
    ensures forall e :: e in r <==> e in emails && Passes(f, e)
  {
    FilterMembers(Keep(f), emails);
    Filter(Keep(f), emails)
  }

  /** With every control switched off, every email is listed. */
  lemma NoFiltersKeepAll(emails: seq<EmailLog>)
    ensures FilteredEmails(emails, NO_FILTERS) == emails
  {
    FilterAll(Keep(NO_FILTERS), emails);
  }

  /** The "processed" and "pending" views split the full list between them. */
  lemma StatusViewsPartition(emails: seq<EmailLog>)
    ensures |FilteredEmails(emails, NO_FILTERS.(status := "processed"))|
          + |FilteredEmails(emails, NO_FILTERS.(status := "pending"))| == |emails|
  {
    CountComplement(Keep(NO_FILTERS.(status := "processed")), Keep(NO_FILTERS.(status := "pending")), emails);
  }

  /** The table: the first fifty emails that pass. */
  function DisplayedEmails(emails: seq<EmailLog>, f: EmailFilters): (shown: seq<EmailLog>)
    ensures shown <= FilteredEmails(emails, f)
    ensures |shown| == if |FilteredEmails(emails, f)| < 50 then |FilteredEmails(emails, f)| else 50
  {
    Take(FilteredEmails(emails, f), 50)
  }

  // ---------------------------------------------------------------- stats

  function IsProcessed(e: EmailLog): bool { e.processed }
  function IsClassified(e: EmailLog): bool { Http.Truthy(e.classification) }
  function HasReply(e: EmailLog): bool { e.replyGenerated }
  function HasError(e: EmailLog): bool { Http.Truthy(e.errorMessage) }

  datatype Stats = Stats(totalProcessed: nat, totalClassified: nat, smartRepliesGenerated: nat, errorCount: nat)

  /** The integer fields of `stats`, each the count of one filter over all emails. */
  function ComputeStats(emails: seq<EmailLog>): (s: Stats)
    ensures s.totalProcessed <= |emails| && s.totalClassified <= |emails|
    ensures s.smartRepliesGenerated <= |emails| && s.errorCount <= |emails|
  {
    Stats(Count(IsProcessed, emails), Count(IsClassified, emails), Count(HasReply, emails), Count(HasError, emails))
  }

  // ---------------------------------------------------------------- badges

  datatype Badge = ErrorBadge | Done | Pending

  /** The status cell: an error message wins over processed, processed over pending. */
  function BadgeOf(e: EmailLog): (b: Badge)
    ensures b == ErrorBadge <==> Http.Truthy(e.errorMessage)
    ensures b == Done <==> !Http.Truthy(e.errorMessage) && e.processed
    ensures b == Pending <==> !Http.Truthy(e.errorMessage) && !e.processed
  {
    if Http.Truthy(e.errorMessage) then ErrorBadge else if e.processed then Done else Pending
  }

  function ShowsError(e: EmailLog): bool { BadgeOf(e) == ErrorBadge }

  /** The error card counts exactly the rows that show the Error badge. */
  lemma ErrorCardCountsErrorBadges(emails: seq<EmailLog>)
    ensures ComputeStats(emails).errorCount == Count(ShowsError, emails)
  {
    FilterEquivalent(HasError, ShowsError, emails);
  }

  /** Every row of the "error" view shows the Error badge. */
  lemma ErrorViewShowsErrorBadges(emails: seq<EmailLog>, f: EmailFilters)
    requires f.status == "error"
    ensures forall e :: e in FilteredEmails(emails, f) ==> BadgeOf(e) == ErrorBadge
  {
  }
}
