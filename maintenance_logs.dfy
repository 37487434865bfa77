/**
 * The maintenance page (app/components/maintenance-logs.tsx): the error-log
 * filter, the badge colours and the display caps. A colour is modelled by
 * its colour family; the class strings are presentation.
 */
module MaintenanceLogs {
  import opened Text
  import opened Seqs
  import MaintenanceRun

  datatype ErrorLog = ErrorLog(
    id: string,
    component: string,
    errorType: string,
    errorMessage: string,
    severity: string,
    resolved: bool,
    createdAt: int)

  /** The filter controls; "all" and the empty search switch a control off. */
  datatype LogFilters = LogFilters(severity: string, component: string, resolved: string, search: string)

  const NO_FILTERS: LogFilters := LogFilters("all", "all", "all", "")

  /** The search box: a case-insensitive substring of the message, component or error type. */
  predicate MatchesSearch(log: ErrorLog, search: string) {
    || ContainsIgnoreCase(log.errorMessage, search)
    || ContainsIgnoreCase(log.component, search)
    || ContainsIgnoreCase(log.errorType, search)
  }

  /** The `filteredLogs` callback, check by check as it returns early. */
  predicate Passes(f: LogFilters, log: ErrorLog) {
    if f.severity != "all" && log.severity != f.severity then false
    else if f.component != "all" && log.component != f.component then false
    else if f.resolved == "true" && !log.resolved then false
    else if f.resolved == "false" && log.resolved then false
    else if f.search != "" then MatchesSearch(log, f.search)
    else true
  }

  /** The early returns amount to one condition per control. */
  lemma PassesIff(f: LogFilters, log: ErrorLog)
    ensures Passes(f, log) <==>
      && (f.severity == "all" || log.severity == f.severity)
      && (f.component == "all" || log.component == f.component)
      && (f.resolved == "true" ==> log.resolved)
      && (f.resolved == "false" ==> !log.resolved)
      && (f.search == "" || MatchesSearch(log, f.search))
  {
  }

  function Keep(f: LogFilters): ErrorLog -> bool {
    log => Passes(f, log)
  }

  /** `filteredLogs`: the logs that pass, in their order. */
  function FilteredLogs(logs: seq<ErrorLog>, f: LogFilters): (r: seq<ErrorLog>)
    ensures IsSubsequence(r, logs)
    ensures forall log :: log in r <==> log in logs && Passes(f, log)
  {
    FilterMembers(Keep(f), logs);
    Filter(Keep(f), logs)
  }

  /** With every control switched off, the whole list is shown. */
  lemma NoFiltersKeepAll(logs: seq<ErrorLog>)
    ensures FilteredLogs(logs, NO_FILTERS) == logs
  {
    FilterAll(Keep(NO_FILTERS), logs);
  }

  /** Typing a search only ever narrows the list the other controls give. */
  lemma SearchNarrows(logs: seq<ErrorLog>, f: LogFilters)
    ensures IsSubsequence(FilteredLogs(logs, f), FilteredLogs(logs, f.(search := "")))
  {
    FilterNarrower(Keep(f), Keep(f.(search := "")), logs);
  }

  /** The "resolved" and "unresolved" views split the full list between them. */
  lemma ResolvedViewsPartition(logs: seq<ErrorLog>)
    ensures |FilteredLogs(logs, NO_FILTERS.(resolved := "true"))| + |FilteredLogs(logs, NO_FILTERS.(resolved := "false"))| == |logs|
  {
    CountComplement(Keep(NO_FILTERS.(resolved := "true")), Keep(NO_FILTERS.(resolved := "false")), logs);
  }

  // ---------------------------------------------------------------- colours

  datatype Tone = Red | Orange | Yellow | Blue | Green | Slate

  /** `getSeverityColor`. */
  function SeverityTone(severity: string): (t: Tone)
    ensures t != Slate <==> severity in ["critical", "high", "medium", "low"]
  {
    match severity
    case "critical" => Red
    case "high" => Orange
    case "medium" => Yellow
    case "low" => Blue
    case _ => Slate
  }

  /** The four severities are told apart by colour. */
  lemma SeverityToneDistinct(a: string, b: string)
    requires SeverityTone(a) == SeverityTone(b) != Slate
    ensures a == b
  {
  }

  /** `getStatusColor`. */
  function StatusTone(status: string): (t: Tone)
    ensures t != Slate <==> status in ["completed", "running", "failed", "pending"]
  {
    match status
    case "completed" => Green
    case "running" => Blue
    case "failed" => Red
    case "pending" => Yellow
    case _ => Slate
  }

  /** A task the run route has just created shows the running colour. */
  lemma NewTaskIsBlue(task: MaintenanceRun.Task)
    requires task.status == "running"
    ensures StatusTone(task.status) == Blue
  {
  }

  /** `getHealthColor`: red from 80 up, yellow from 60 up, green below. */
  function HealthTone(value: int): (t: Tone)
    ensures t == Red <==> value >= 80
    ensures t == Yellow <==> 60 <= value < 80
    ensures t == Green <==> value < 60
  {
    if value >= 80 then Red else if value >= 60 then Yellow else Green
  }

  function Alarm(t: Tone): nat {
    match t
    case Red => 2
    case Yellow => 1
    case _ => 0
  }

  /** A higher reading never shows a calmer colour. */
  lemma HealthToneMonotone(a: int, b: int)
    requires a <= b
    ensures Alarm(HealthTone(a)) <= Alarm(HealthTone(b))
  {
  }

  // ---------------------------------------------------------------- display caps

  /** The task table: the first ten tasks. */
  function DisplayedTasks(tasks: seq<MaintenanceRun.Task>): (shown: seq<MaintenanceRun.Task>)
    ensures shown <= tasks
    ensures |shown| == if |tasks| < 10 then |tasks| else 10
  {
    Take(tasks, 10)
  }

  /** The log table: the first twenty logs that pass the filter. */
  function DisplayedLogs(logs: seq<ErrorLog>, f: LogFilters): (shown: seq<ErrorLog>)
    ensures shown <= FilteredLogs(logs, f)
    ensures |shown| == if |FilteredLogs(logs, f)| < 20 then |FilteredLogs(logs, f)| else 20
  {
    Take(FilteredLogs(logs, f), 20)
  }
}
