/**
 * `POST /api/maintenance/run` (app/app/api/maintenance/run/route.ts): the
 * name and description a task type gets, and the task record the route
 * creates. The simulated completion a second later is random and is not
 * part of this model.
 */
module MaintenanceRun {
  import opened Wrappers
  import Http

  /** The four task types with a fixed name. */
  predicate IsKnownType(taskType: string) {
    taskType in ["cleanup", "sync", "backup", "health_check"]
  }

  predicate EndsWith(s: string, suffix: string) {
    |suffix| <= |s| && s[|s| - |suffix|..] == suffix
  }

  /** `getTaskName`. Only the names of unknown types end in " Task". */
  function TaskName(taskType: string): (name: string)
    ensures !IsKnownType(taskType) ==> name == taskType + " Task"
    ensures EndsWith(name, " Task") <==> !IsKnownType(taskType)
  {
    match taskType
    case "cleanup" => "Database Cleanup"
    case "sync" => "Force Gmail Sync"
    case "backup" => "System Backup"
    case "health_check" => "System Health Check"
    case _ => taskType + " Task"
  }

  /** Different task types never share a name. */
  lemma TaskNameInjective(a: string, b: string)
    requires TaskName(a) == TaskName(b)
    ensures a == b
  {
    if !IsKnownType(a) && !IsKnownType(b) {
      var n := TaskName(a);
      assert a == n[..|n| - 5] == b;
    }
  }

  /** `getTaskDescription`. Only the descriptions of unknown types end in " maintenance task". */
  function TaskDescription(taskType: string): (description: string)
    ensures !IsKnownType(taskType) ==> description == "Execute " + taskType + " maintenance task"
    ensures EndsWith(description, " maintenance task") <==> !IsKnownType(taskType)
  {
    match taskType
    case "cleanup" => "Clean up old logs and temporary data"
    case "sync" => "Force synchronization with all Gmail accounts"
    case "backup" => "Create backup of system data and configurations"
    case "health_check" => "Perform comprehensive system health check"
    case _ => "Execute " + taskType + " maintenance task"
  }

  /** Different task types never share a description. */
  lemma TaskDescriptionInjective(a: string, b: string)
    requires TaskDescription(a) == TaskDescription(b)
    ensures a == b
  {
    if IsKnownType(a) && IsKnownType(b) {
      KnownDescriptionsDiffer(a, b);
    } else if !IsKnownType(a) && !IsKnownType(b) {
      DefaultDescriptionsDiffer(a, b);
    }
  }

  /** Two fixed descriptions are equal only for the same type. */
  lemma KnownDescriptionsDiffer(a: string, b: string)
    requires IsKnownType(a) && IsKnownType(b) && TaskDescription(a) == TaskDescription(b)
    ensures a == b
  {
    KnownDescriptionLength(a);
    KnownDescriptionLength(b);
  }

  /** The four fixed descriptions have four different lengths. */
  lemma KnownDescriptionLength(t: string)
    requires IsKnownType(t)
    ensures |TaskDescription(t)| == if t == "cleanup" then 36 else if t == "sync" then 45 else if t == "backup" then 47 else 41
  {
  }

  /** The generated description gives back the type it was built from. */
  lemma DefaultDescriptionsDiffer(a: string, b: string)
    requires !IsKnownType(a) && !IsKnownType(b) && TaskDescription(a) == TaskDescription(b)
    ensures a == b
  {
    var d := TaskDescription(a);
    assert a == d[8..|d| - 17] == b;
  }

  datatype Task = Task(
    id: nat,
    name: string,
    description: string,
    taskType: string,
    status: string,
    scheduledAt: int,
    startedAt: Option<int>)

  datatype AuditEntry = AuditEntry(userId: string, action: string, resourceId: nat, taskType: string)

  datatype RunResponse = Started(task: Task) | RunFail(code: int, body: Http.ErrorBody)

  /** The task table; the database's ids are a counter here. */
  class TaskStore {
    var tasks: seq<Task>
    var nextId: nat
    var audit: seq<AuditEntry>

    ghost predicate Valid()
      reads this
    {
      forall i :: 0 <= i < |tasks| ==> tasks[i].id < nextId
    }

    constructor ()
      ensures Valid() && tasks == [] && audit == []
    {
      tasks := [];
      nextId := 0;
      audit := [];
    }

    /** `POST /api/maintenance/run`; `taskType` is `None` when the body has none. */
    method Run(userId: Option<string>, taskType: Option<string>, now: int) returns (resp: RunResponse)
      requires Valid()
      modifies this
      ensures Valid()
      ensures !Http.SignedIn(userId) ==>
        resp == RunFail(Http.UNAUTHORIZED, Http.RouteError("Unauthorized"))
      ensures Http.SignedIn(userId) && !Http.Truthy(taskType) ==>
        resp == RunFail(Http.BAD_REQUEST, Http.RouteError("Task type is required"))
      ensures resp.RunFail? ==> tasks == old(tasks) && audit == old(audit)
      ensures resp.Started? <==> Http.SignedIn(userId) && Http.Truthy(taskType)
      ensures resp.Started? ==>
        var t := taskType.value;
        && resp.task == Task(old(nextId), TaskName(t), TaskDescription(t), t, "running", now, Some(now))
        && tasks == old(tasks) + [resp.task]
        && audit == old(audit) + [AuditEntry(userId.value, "maintenance_task_started", resp.task.id, t)]
        && forall i :: 0 <= i < |old(tasks)| ==> old(tasks)[i].id != resp.task.id
    {
      if !Http.SignedIn(userId) {
        return RunFail(Http.UNAUTHORIZED, Http.RouteError("Unauthorized"));
      }
      if !Http.Truthy(taskType) {
        return RunFail(Http.BAD_REQUEST, Http.RouteError("Task type is required"));
      }
      var t := taskType.value;
      var task := Task(nextId, TaskName(t), TaskDescription(t), t, "running", now, Some(now));
      tasks := tasks + [task];
      nextId := nextId + 1;
      audit := audit + [AuditEntry(userId.value, "maintenance_task_started", task.id, t)];
      resp := Started(task);
    }
  }
}
