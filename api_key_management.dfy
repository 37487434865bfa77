/**
 * The API-key page (app/components/api-key-management.tsx): key masking, the
 * set of keys shown in clear, the service catalogue, and the add/edit form.
 */
module ApiKeyManagement {
  import opened Wrappers
  import Http
  import ApiKeys

  /** `maskApiKey`: short keys are hidden completely, longer ones keep four characters at each end. */
  function MaskApiKey(key: string): (masked: string)
    ensures |key| <= 8 ==> masked == "****"
    ensures |key| > 8 ==>
      |masked| == 12 && masked[..4] == key[..4] && masked[4..8] == "****" && masked[8..] == key[|key| - 4..]
  {
    if |key| <= 8 then "****" else key[..4] + "****" + key[|key| - 4..]
  }

  /**
   * The mask reveals nothing but the first and last four characters of a long
   * key, and nothing at all of a short one.
   */
  lemma MaskDependsOnEnds(a: string, b: string)
    requires (|a| <= 8 && |b| <= 8)
      || (|a| > 8 && |b| > 8 && a[..4] == b[..4] && a[|a| - 4..] == b[|b| - 4..])
    ensures MaskApiKey(a) == MaskApiKey(b)
  {
    if |a| > 8 {
      var ma, mb := MaskApiKey(a), MaskApiKey(b);
      assert ma == ma[..4] + ma[4..8] + ma[8..];
      assert mb == mb[..4] + mb[4..8] + mb[8..];
    }
  }

  /** The visibility set after `toggleKeyVisibility(id)`. */
  function Toggled(visible: set<string>, id: string): (r: set<string>)
    ensures id in r <==> id !in visible
    ensures forall other :: other != id ==> (other in r <==> other in visible)
  {
    if id in visible then visible - {id} else visible + {id}
  }

  /** Toggling twice restores the set. */
  lemma ToggleInvolution(visible: set<string>, id: string)
    ensures Toggled(Toggled(visible, id), id) == visible
  {
    var once := Toggled(visible, id);
    var twice := Toggled(once, id);
    assert forall x :: x in twice <==> x in visible;
  }

  // ---------------------------------------------------------------- service catalogue

  datatype ServiceOption = ServiceOption(value: string, title: string, description: string)

  /** `serviceOptions`; `title` is the option's `label`. */
  const SERVICE_OPTIONS: seq<ServiceOption> := [
    ServiceOption("openai", "OpenAI", "For smart email classification and replies"),
    ServiceOption("twilio", "Twilio", "For SMS notifications"),
    ServiceOption("push_notification", "Push Notifications", "For browser push notifications"),
    ServiceOption("gmail_api", "Gmail API", "For Gmail account access"),
    ServiceOption("sendgrid", "SendGrid", "For email notifications"),
    ServiceOption("slack", "Slack", "For Slack notifications")
  ]

  datatype ServiceInfo = ServiceInfo(title: string, description: string)

  /** `serviceOptions.find(...)`: the first option with that value. */
  function FindOption(options: seq<ServiceOption>, service: string): (found: Option<ServiceOption>)
    ensures found.Some? ==> found.value in options && found.value.value == service
    ensures found.None? ==> forall o :: o in options ==> o.value != service
  {
    if options == [] then None
    else if options[0].value == service then Some(options[0])
    else FindOption(options[1..], service)
  }

  /** `getServiceInfo`: the catalogue entry, or the service's own name as a custom service. */
  function GetServiceInfo(service: string): (info: ServiceInfo)
    ensures (forall o :: o in SERVICE_OPTIONS ==> o.value != service) ==>
      info == ServiceInfo(service, "Custom service")
    ensures (exists o :: o in SERVICE_OPTIONS && o.value == service) ==>
      exists o :: o in SERVICE_OPTIONS && o.value == service && info == ServiceInfo(o.title, o.description)
  {
    var found := FindOption(SERVICE_OPTIONS, service);
    if found.Some? then ServiceInfo(found.value.title, found.value.description)
    else ServiceInfo(service, "Custom service")
  }

  predicate DistinctValues(options: seq<ServiceOption>) {
    forall i, j :: 0 <= i < j < |options| ==> options[i].value != options[j].value
  }

  lemma {:induction false} FindOptionDistinct(options: seq<ServiceOption>, o: ServiceOption)
    requires DistinctValues(options) && o in options
    ensures FindOption(options, o.value) == Some(o)
  {
    if options[0] != o {
      assert DistinctValues(options[1..]) by {
        forall i, j | 0 <= i < j < |options| - 1 ensures options[1..][i].value != options[1..][j].value {
          assert options[1..][i] == options[i + 1] && options[1..][j] == options[j + 1];
        }
      }
      var k :| 0 <= k < |options| && options[k] == o;
      assert options[0].value != o.value;
      FindOptionDistinct(options[1..], o);
    }
  }

  /** Every catalogue service is shown with its own label and description. */
  lemma KnownServiceInfo(o: ServiceOption)
    requires o in SERVICE_OPTIONS
    ensures GetServiceInfo(o.value) == ServiceInfo(o.title, o.description)
  {
    assert DistinctValues(SERVICE_OPTIONS);
    FindOptionDistinct(SERVICE_OPTIONS, o);
  }

  // ---------------------------------------------------------------- the form

  datatype FormData = FormData(service: string, keyName: string, apiKey: string, description: string)

  const EMPTY_FORM: FormData := FormData("", "", "", "")

  /** The key as the page lists it. */
  datatype ClientKey = ClientKey(id: string, service: string, keyName: string, encryptedKey: string, isActive: bool)

  /** The client-side check before anything is sent. */
  predicate Complete(form: FormData) {
    form.service != "" && form.keyName != "" && form.apiKey != ""
  }

  datatype Request = Request(url: string, httpMethod: string, body: FormData)

  /** An edit goes to the key's own URL with `PUT`; an addition to the collection with `POST`. */
  function SubmitRequest(editingKey: Option<ClientKey>, form: FormData): (req: Request)
    ensures editingKey.Some? ==> req.httpMethod == "PUT" && req.url == "/api/api-keys/" + editingKey.value.id
    ensures editingKey.None? ==> req.httpMethod == "POST" && req.url == "/api/api-keys"
    ensures req.body == form
  {
    if editingKey.Some? then Request("/api/api-keys/" + editingKey.value.id, "PUT", form)
    else Request("/api/api-keys", "POST", form)
  }

  /** The form as `openEditDialog` fills it: the secret and the description start blank. */
  function EditForm(key: ClientKey): FormData {
    FormData(key.service, key.keyName, "", "")
  }

  /** An edit cannot be submitted until the secret is typed in again. */
  lemma EditNeedsSecret(key: ClientKey)
    ensures !Complete(EditForm(key))
  {
  }

  /** The page's check and the `POST` route's required-field check accept the same forms. */
  lemma CompleteIffRouteAccepts(form: FormData)
    ensures Complete(form) <==>
      ApiKeys.HasRequiredFields(ApiKeys.NewKeyRequest(Some(form.service), Some(form.keyName), Some(form.apiKey), Some(form.description)))
  {
  }

  /** The page state the handlers update. */
  class ApiKeyPanel {
    var visibleKeys: set<string>
    var formData: FormData
    var editingKey: Option<ClientKey>
    var showAddDialog: bool
    var toasts: seq<Http.Toast>

    constructor ()
      ensures visibleKeys == {} && formData == EMPTY_FORM && editingKey == None && !showAddDialog && toasts == []
    {
      visibleKeys := {};
      formData := EMPTY_FORM;
      editingKey := None;
      showAddDialog := false;
      toasts := [];
    }

    /** `toggleKeyVisibility`: a copy of the set with the one id flipped. */
    method ToggleKeyVisibility(keyId: string)
      modifies this
      ensures visibleKeys == Toggled(old(visibleKeys), keyId)
      ensures formData == old(formData) && editingKey == old(editingKey) && showAddDialog == old(showAddDialog)
      ensures toasts == old(toasts)
    {
      var newVisibleKeys := visibleKeys;
      if keyId in newVisibleKeys {
        newVisibleKeys := newVisibleKeys - {keyId};
      } else {
        newVisibleKeys := newVisibleKeys + {keyId};
      }
      visibleKeys := newVisibleKeys;
    }

    /** `openEditDialog`. */
    method OpenEditDialog(key: ClientKey)
      modifies this
      ensures editingKey == Some(key) && formData == EditForm(key) && showAddDialog
      ensures visibleKeys == old(visibleKeys) && toasts == old(toasts)
    {
      editingKey := Some(key);
      formData := FormData(key.service, key.keyName, "", "");
      showAddDialog := true;
    }

    /**
     * `handleSubmit`. The server's answer is a parameter: `reachable` is
     * false when the request throws, `ok` tells a 2xx answer, `errorBody`
     * is the body of a failure.
     */
    method HandleSubmit(reachable: bool, ok: bool, errorBody: Http.ErrorBody) returns (sent: Option<Request>)
      modifies this
      ensures !Complete(old(formData)) ==>
        sent == None && toasts == old(toasts) + [Http.Failure("Please fill in all required fields")]
        && formData == old(formData) && editingKey == old(editingKey) && showAddDialog == old(showAddDialog)
      ensures Complete(old(formData)) ==> sent == Some(SubmitRequest(old(editingKey), old(formData)))
      ensures Complete(old(formData)) && reachable && ok ==>
        formData == EMPTY_FORM && editingKey == None && !showAddDialog
        && toasts == old(toasts) + [Http.Success(if old(editingKey).Some? then "API key updated successfully" else "API key added successfully")]
      ensures Complete(old(formData)) && !(reachable && ok) ==>
        formData == old(formData) && editingKey == old(editingKey) && showAddDialog == old(showAddDialog)
      ensures Complete(old(formData)) && !reachable ==>
        toasts == old(toasts) + [Http.Failure("An error occurred while saving the API key")]
      ensures Complete(old(formData)) && reachable && !ok ==>
        toasts == old(toasts) + [Http.Failure(Http.ToastAsWritten(errorBody, "Failed to save API key"))]
      ensures visibleKeys == old(visibleKeys)
    {
      if !Complete(formData) {
        toasts := toasts + [Http.Failure("Please fill in all required fields")];
        return None;
      }
      var request := SubmitRequest(editingKey, formData);
      sent := Some(request);
      if !reachable {
        toasts := toasts + [Http.Failure("An error occurred while saving the API key")];
      } else if ok {
        toasts := toasts + [Http.Success(if editingKey.Some? then "API key updated successfully" else "API key added successfully")];
        showAddDialog := false;
        editingKey := None;
        formData := EMPTY_FORM;
      } else {
        toasts := toasts + [Http.Failure(Http.ToastAsWritten(errorBody, "Failed to save API key"))];
      }
    }
  }
}
