/**
 * The workflow record and its two routes: `POST /api/workflow/control`
 * (app/app/api/workflow/control/route.ts) drives a four-action state machine
 * over the single workflow record, and `GET /api/workflow/status`
 * (app/app/api/workflow/status/route.ts) reads it, creating it on first use.
 *
 * Clock readings are integers passed in by the caller.
 */
module Workflow {
  import opened Wrappers
  import Http

  datatype Status = Running | Stopped | Paused | Other(name: string)

  function StatusName(s: Status): string {
    match s
    case Running => "running"
    case Stopped => "stopped"
    case Paused => "paused"
    case Other(name) => name
  }

  /** The status column read as the routes compare it: only the three known words have a meaning. */
  function ParseStatus(name: string): (s: Status)
    ensures StatusName(s) == name
  {
    if name == "running" then Running
    else if name == "stopped" then Stopped
    else if name == "paused" then Paused
    else Other(name)
  }

  datatype Action = Start | Stop | Pause | Restart

  function ActionName(a: Action): string {
    match a
    case Start => "start"
    case Stop => "stop"
    case Pause => "pause"
    case Restart => "restart"
  }

  /** The allow-list check on the request's `action`. */
  function ParseAction(name: string): (a: Option<Action>)
    ensures a.Some? <==> name in ["start", "stop", "pause", "restart"]
    ensures a.Some? ==> ActionName(a.value) == name
  {
    if name == "start" then Some(Start)
    else if name == "stop" then Some(Stop)
    else if name == "pause" then Some(Pause)
    else if name == "restart" then Some(Restart)
    else None
  }

  lemma ParseActionName(a: Action)
    ensures ParseAction(ActionName(a)) == Some(a)
  {
  }

  datatype Config = Config(processingInterval: int, maxEmailsPerBatch: int, enableSmartReplies: bool, notificationsEnabled: bool)

  /** The configuration the status route gives a record it creates. */
  const DEFAULT_CONFIG: Config := Config(300, 50, true, true)

  datatype WorkflowRecord = WorkflowRecord(
    status: Status,
    lastStarted: Option<int>,
    lastStopped: Option<int>,
    executionCount: int,
    errorCount: int,
    lastError: Option<string>,
    configuration: Option<Config>,
    updatedAt: Option<int>)

  /** A record as either route creates it when none exists. */
  function FreshRecord(configuration: Option<Config>): (r: WorkflowRecord)
    ensures r.status == Stopped && r.executionCount == 0 && r.errorCount == 0
    ensures r.configuration == configuration
  {
    WorkflowRecord(Stopped, None, None, 0, 0, None, configuration, None)
  }

  /** The stored record, or a fresh one. */
  function GetOrCreate(stored: Option<WorkflowRecord>, configuration: Option<Config>): (r: WorkflowRecord)
    ensures stored.Some? ==> r == stored.value
    ensures stored.None? ==> r == FreshRecord(configuration)
  {
    if stored.Some? then stored.value else FreshRecord(configuration)
  }

  /** Reading through get-or-create a second time finds what the first read stored. */
  lemma GetOrCreateIdempotent(stored: Option<WorkflowRecord>, configuration: Option<Config>)
    ensures var first := GetOrCreate(stored, configuration);
      GetOrCreate(Some(first), configuration) == first
  {
  }

  // ---------------------------------------------------------------- the state machine

  /** The guard of each action. */
  predicate Accepts(status: Status, action: Action) {
    match action
    case Start => status != Running
    case Stop => status != Stopped
    case Pause => status == Running
    case Restart => true
  }

  function GuardMessage(action: Action): string {
    match action
    case Start => "Workflow is already running"
    case Stop => "Workflow is already stopped"
    case Pause => "Can only pause a running workflow"
    case Restart => ""
  }

  /** Starting actions bump the execution count. */
  predicate Starts(action: Action) {
    action == Start || action == Restart
  }

  /** The record after an accepted action, `updateData` merged into it. */
  function Apply(r: WorkflowRecord, action: Action, now: int): (r': WorkflowRecord)
    requires Accepts(r.status, action)
    ensures r'.status == (match action case Start => Running case Stop => Stopped case Pause => Paused case Restart => Running)
    ensures r'.executionCount == r.executionCount + (if Starts(action) then 1 else 0)
    ensures r'.errorCount == r.errorCount && r'.configuration == r.configuration
    ensures r'.lastStarted == (if Starts(action) then Some(now) else r.lastStarted)
    ensures r'.lastStopped == (if action == Stop then Some(now) else r.lastStopped)
    ensures r'.lastError == (if action == Restart then None else r.lastError)
    ensures r'.updatedAt == Some(now)
  {
    match action
    case Start => r.(status := Running, lastStarted := Some(now), executionCount := r.executionCount + 1, updatedAt := Some(now))
    case Stop => r.(status := Stopped, lastStopped := Some(now), updatedAt := Some(now))
    case Pause => r.(status := Paused, updatedAt := Some(now))
    case Restart => r.(status := Running, lastStarted := Some(now), executionCount := r.executionCount + 1,
                       lastError := None, updatedAt := Some(now))
  }

  /** Every accepted action lands in a known status, and every action leads out of the status it targets except restart. */
  lemma ApplyLeavesKnownStatus(r: WorkflowRecord, action: Action, now: int)
    requires Accepts(r.status, action)
    ensures !Apply(r, action, now).status.Other?
    ensures action != Restart ==> Apply(r, action, now).status != r.status
  {
  }

  datatype Outcome = Outcome(record: WorkflowRecord, accepted: bool)

  /** One request against the record (the caller is signed in and the action is valid). */
  function Step(r: WorkflowRecord, action: Action, now: int): Outcome {
    if Accepts(r.status, action) then Outcome(Apply(r, action, now), true) else Outcome(r, false)
  }

  /** A series of requests, each with its own clock reading. */
  function Run(r: WorkflowRecord, actions: seq<Action>, now: int): WorkflowRecord
    decreases |actions|
  {
    if actions == [] then r else Run(Step(r, actions[0], now).record, actions[1..], now + 1)
  }

  /** How many of the requests in a series are accepted starting actions. */
  function AcceptedStarts(r: WorkflowRecord, actions: seq<Action>, now: int): nat
    decreases |actions|
  {
    if actions == [] then 0
    else
      var o := Step(r, actions[0], now);
      (if o.accepted && Starts(actions[0]) then 1 else 0) + AcceptedStarts(o.record, actions[1..], now + 1)
  }

  /**
   * Over any series of requests the error count never moves, and the
   * execution count grows by exactly the number of accepted starts and
   * restarts.
   */
  lemma {:induction false} RunCounters(r: WorkflowRecord, actions: seq<Action>, now: int)
    ensures Run(r, actions, now).errorCount == r.errorCount
    ensures Run(r, actions, now).executionCount == r.executionCount + AcceptedStarts(r, actions, now)
    decreases |actions|
  {
    if actions != [] {
      RunCounters(Step(r, actions[0], now).record, actions[1..], now + 1);
    }
  }

  /** Restart is accepted from every status, so a series of restarts always ends running. */
  lemma {:induction false} RestartsAlwaysRun(r: WorkflowRecord, n: nat, now: int)
    requires n > 0
    ensures Run(r, seq(n, _ => Restart), now).status == Running
    ensures Run(r, seq(n, _ => Restart), now).executionCount == r.executionCount + n
    decreases n
  {
    var rs := seq(n, _ => Restart);
    var r1 := Apply(r, Restart, now);
    assert rs[1..] == seq(n - 1, _ => Restart);
    if n > 1 {
      RestartsAlwaysRun(r1, n - 1, now + 1);
    }
  }

  // ---------------------------------------------------------------- the routes

  datatype AuditEntry = AuditEntry(userId: string, action: string, previousStatus: Status, newStatus: Status)

  datatype Response = Ok(record: WorkflowRecord) | Fail(code: int, body: Http.ErrorBody)

  /** The single workflow row and the audit entries the control route has written. */
  class WorkflowStore {
    var record: Option<WorkflowRecord>
    var audit: seq<AuditEntry>

    constructor (initial: Option<WorkflowRecord>)
      ensures record == initial && audit == []
    {
      record := initial;
      audit := [];
    }

    /** `POST /api/workflow/control`. */
    method Control(userId: Option<string>, actionName: string, now: int) returns (resp: Response)
      modifies this
      ensures !Http.SignedIn(userId) ==>
        resp == Fail(Http.UNAUTHORIZED, Http.RouteError("Unauthorized")) && record == old(record) && audit == old(audit)
      ensures Http.SignedIn(userId) && ParseAction(actionName).None? ==>
        resp == Fail(Http.BAD_REQUEST, Http.RouteError("Invalid action")) && record == old(record) && audit == old(audit)
      ensures Http.SignedIn(userId) && ParseAction(actionName).Some? ==>
        var action := ParseAction(actionName).value;
        var current := GetOrCreate(old(record), None);
        if Accepts(current.status, action) then
          && record == Some(Apply(current, action, now))
          && resp == Ok(record.value)
          && audit == old(audit) + [AuditEntry(userId.value, "workflow_" + actionName, current.status, record.value.status)]
        else
          && record == Some(current)
          && resp == Fail(Http.BAD_REQUEST, Http.RouteError(GuardMessage(action)))
          && audit == old(audit)
    {
      if !Http.SignedIn(userId) {
        return Fail(Http.UNAUTHORIZED, Http.RouteError("Unauthorized"));
      }
      var parsed := ParseAction(actionName);
      if parsed.None? {
        return Fail(Http.BAD_REQUEST, Http.RouteError("Invalid action"));
      }
      var action := parsed.value;
      if record.None? {
        record := Some(FreshRecord(None));
      }
      var current := record.value;
      var updated := current.(updatedAt := Some(now));
      match action {
        case Start =>
          if current.status == Running {
            return Fail(Http.BAD_REQUEST, Http.RouteError("Workflow is already running"));
          }
          updated := updated.(status := Running, lastStarted := Some(now), executionCount := current.executionCount + 1);
        case Stop =>
          if current.status == Stopped {
            return Fail(Http.BAD_REQUEST, Http.RouteError("Workflow is already stopped"));
          }
          updated := updated.(status := Stopped, lastStopped := Some(now));
        case Pause =>
          if current.status != Running {
            return Fail(Http.BAD_REQUEST, Http.RouteError("Can only pause a running workflow"));
          }
          updated := updated.(status := Paused);
        case Restart =>
          updated := updated.(status := Running, lastStarted := Some(now), executionCount := current.executionCount + 1, lastError := None);
      }
      record := Some(updated);
      audit := audit + [AuditEntry(userId.value, "workflow_" + actionName, current.status, updated.status)];
      resp := Ok(updated);
    }

    /** `GET /api/workflow/status`. */
    method GetStatus(userId: Option<string>) returns (resp: Response)
      modifies this
      ensures !Http.SignedIn(userId) ==>
        resp == Fail(Http.UNAUTHORIZED, Http.RouteError("Unauthorized")) && record == old(record)
      ensures Http.SignedIn(userId) ==>
        record == Some(GetOrCreate(old(record), Some(DEFAULT_CONFIG))) && resp == Ok(record.value)
      ensures audit == old(audit)
    {
      if !Http.SignedIn(userId) {
        return Fail(Http.UNAUTHORIZED, Http.RouteError("Unauthorized"));
      }
      if record.None? {
        record := Some(FreshRecord(Some(DEFAULT_CONFIG)));
      }
      resp := Ok(record.value);
    }
  }

  /** A status read followed by another returns the same record and writes nothing new. */
  method GetStatusTwice(store: WorkflowStore, userId: Option<string>) returns (first: Response, second: Response)
    requires Http.SignedIn(userId)
    modifies store
    ensures first == second && first.Ok?
    ensures store.record == Some(first.record)
  {
    first := store.GetStatus(userId);
    second := store.GetStatus(userId);
  }
}
