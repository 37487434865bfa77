/**
 * The workflow control panel (app/components/workflow-control.tsx): the four
 * buttons and when each is enabled, the success-rate figure, and the
 * `actionLoading` flag around a control request.
 */
module WorkflowControl {
  import opened Wrappers
  import opened Workflow
  import Http
  import Numeric

  /**
   * The `disabled` expression of each button. `status` is `None` while the
   * panel holds no record (`workflowStatus?.status` is undefined).
   */
  predicate Disabled(actionLoading: bool, status: Option<Status>, action: Action) {
    match action
    case Start => actionLoading || status == Some(Running)
    case Pause => actionLoading || status != Some(Running)
    case Stop => actionLoading || status == Some(Stopped)
    case Restart => actionLoading
  }

  /**
   * With a record on screen and no request in flight, a button is enabled
   * exactly when the control route's guard accepts its action.
   */
  lemma ButtonsMatchGuards(status: Status, action: Action)
    ensures !Disabled(false, Some(status), action) <==> Accepts(status, action)
  {
  }

  /** While a request is in flight every button is disabled. */
  lemma InFlightDisablesAll(status: Option<Status>, action: Action)
    ensures Disabled(true, status, action)
  {
  }

  /**
   * Without a record on screen, Stop stays enabled although the route, which
   * creates a stopped record first, refuses it.
   */
  lemma StopWithoutRecord()
    ensures !Disabled(false, None, Stop)
    ensures !Accepts(GetOrCreate(None, None).status, Stop)
  {
  }

  /** The success-rate figure: the rounded share of executions without an error, 0 before any execution. */
  function SuccessRate(executionCount: int, errorCount: int): int {
    if executionCount > 0 then Numeric.RoundDiv(100 * (executionCount - errorCount), executionCount) else 0
  }

  /** As long as errors do not outnumber executions the rate is a percentage; no error at all is 100%. */
  lemma SuccessRateBounds(executionCount: int, errorCount: int)
    requires 0 <= errorCount <= executionCount
    ensures 0 <= SuccessRate(executionCount, errorCount) <= 100
    ensures executionCount > 0 && errorCount == 0 ==> SuccessRate(executionCount, errorCount) == 100
  {
    if executionCount > 0 {
      Numeric.PercentBounds(executionCount - errorCount, executionCount);
      Numeric.PercentEnds(executionCount);
    }
  }

  // ---------------------------------------------------------------- toasts

  /** The success toast as written: the action's name with "ed" appended. */
  function SuccessToastAsWritten(action: Action): string {
    "Workflow " + ActionName(action) + "ed successfully"
  }

  /** Appending "ed" misspells two of the four verbs. */
  lemma SuccessToastMisspelt()
    ensures SuccessToastAsWritten(Stop) == "Workflow stoped successfully"
    ensures SuccessToastAsWritten(Pause) == "Workflow pauseed successfully"
  {
  }

  function PastTense(action: Action): (verb: string)
    ensures verb == ActionName(action) + "ed" <==> action == Start || action == Restart
  {
    match action
    case Start => "started"
    case Stop => "stopped"
    case Pause => "paused"
    case Restart => "restarted"
  }

  /** The success toast as evidently intended. */
  function SuccessToast(action: Action): (text: string)
    ensures Starts(action) ==> text == SuccessToastAsWritten(action)
  {
    "Workflow " + PastTense(action) + " successfully"
  }

  /** The correct past tense agrees with the as-written text except for stop and pause. */
  lemma SuccessToastFixed(action: Action)
    ensures SuccessToast(action) == SuccessToastAsWritten(action) <==> Starts(action)
  {
    if SuccessToast(action) == SuccessToastAsWritten(action) {
      var a := "Workflow " + PastTense(action) + " successfully";
      var b := "Workflow " + ActionName(action) + "ed successfully";
      assert a[9..|a| - 13] == PastTense(action);
      assert b[9..|b| - 13] == ActionName(action) + "ed";
    }
  }

  /** The panel's state that a control request touches. */
  class WorkflowPanel {
    var actionLoading: bool
    var workflowStatus: Option<WorkflowRecord>
    var toasts: seq<Http.Toast>

    constructor ()
      ensures !actionLoading && workflowStatus == None && toasts == []
    {
      actionLoading := false;
      workflowStatus := None;
      toasts := [];
    }

    function Status(): Option<Status>
      reads this
    {
      if workflowStatus.Some? then Some(workflowStatus.value.status) else None
    }

    /**
     * `handleWorkflowAction`. `reachable` is false when the request throws.
     * The flag is raised before the request is sent (`loadingWhileSent`) and
     * lowered on every outcome; a success refreshes the record through the
     * status route.
     */
    method HandleWorkflowAction(store: WorkflowStore, userId: Option<string>, action: Action, now: int, reachable: bool)
      returns (loadingWhileSent: bool)
      modifies this, store
      ensures loadingWhileSent && !actionLoading
      ensures !reachable ==>
        toasts == old(toasts) + [Http.Failure("An error occurred while " + ActionName(action) + "ing the workflow")]
        && workflowStatus == old(workflowStatus) && store.record == old(store.record)
      ensures reachable ==> |toasts| == |old(toasts)| + 1
      ensures reachable && toasts[|toasts| - 1].Success? ==>
        toasts[|toasts| - 1] == Http.Success(SuccessToastAsWritten(action))
        && Accepts(GetOrCreate(old(store.record), None).status, action)
        && store.record == Some(Apply(GetOrCreate(old(store.record), None), action, now))
        && workflowStatus == store.record
        && Http.SignedIn(userId)
        && (forall a: Action :: !Disabled(actionLoading, Status(), a) <==> Accepts(store.record.value.status, a))
        && store.audit == old(store.audit) + [AuditEntry(userId.value, "workflow_" + ActionName(action),
             GetOrCreate(old(store.record), None).status, store.record.value.status)]
      ensures reachable && toasts[|toasts| - 1].Failure? ==>
        workflowStatus == old(workflowStatus)
        && toasts[|toasts| - 1] == Http.Failure("Failed to " + ActionName(action) + " workflow")
        && store.record == (if Http.SignedIn(userId) then Some(GetOrCreate(old(store.record), None)) else old(store.record))
        && store.audit == old(store.audit)
    {
      actionLoading := true;
      loadingWhileSent := actionLoading;
      if !reachable {
        toasts := toasts + [Http.Failure("An error occurred while " + ActionName(action) + "ing the workflow")];
      } else {
        ParseActionName(action);
        var resp := store.Control(userId, ActionName(action), now);
        if resp.Ok? {
          toasts := toasts + [Http.Success(SuccessToastAsWritten(action))];
          var refreshed := store.GetStatus(userId);
          if refreshed.Ok? {
            workflowStatus := Some(refreshed.record);
          }
          forall a: Action ensures !Disabled(false, Status(), a) <==> Accepts(store.record.value.status, a) {
            ButtonsMatchGuards(store.record.value.status, a);
          }
        } else {
          Http.ReasonNeverShown(resp.body.error.value, "Failed to " + ActionName(action) + " workflow");
          toasts := toasts + [Http.Failure(Http.ToastAsWritten(resp.body, "Failed to " + ActionName(action) + " workflow"))];
        }
      }
      actionLoading := false;
    }
  }
}
