# Email-automation admin dashboard: a Dafny model of its decision logic

The system has two parts. The first is a pair of Node.js monitoring scripts:
- a log monitor that tails log files, classifies each line and broadcasts it to viewers;
- an authentication monitor that copies auth, error and API lines from the production log into an auth log.

The second is a Next.js admin dashboard. Its API routes use a session and a relational store to:
- control one workflow;
- keep per-user API keys;
- edit system configuration;
- start maintenance tasks;
- report analytics.

Its client components filter, count and display these records.

This project models the logic those pieces decide on, one module per source file:

| module | source file | form |
|---|---|---|
| `LogMonitor` | monitoring/log-monitor/server.js | functions; a class for the `tails` dictionary and the broadcast |
| `AuthMonitor` | monitoring/auth-monitor.js | functions; the stdout handler returns the records it appends |
| `Workflow` | app/app/api/workflow/control/route.ts, app/app/api/workflow/status/route.ts | functions for the state machine; a store class for the two routes |
| `WorkflowControl` | app/components/workflow-control.tsx | predicates; a class for the panel state |
| `ApiKeys` | app/app/api/api-keys/route.ts | a store class over a sequence of keys |
| `ApiKeyManagement` | app/components/api-key-management.tsx | functions; a class for the form and visibility set |
| `SystemConfig` | app/app/api/system-config/route.ts | a store class; `PUT` is a loop over the body entries |
| `SystemConfiguration` | app/components/system-configuration.tsx | functions; a class whose `fetchConfigs` loop builds the value map |
| `MaintenanceRun` | app/app/api/maintenance/run/route.ts | functions; a store class for `POST` |
| `MaintenanceLogs` | app/components/maintenance-logs.tsx | functions |
| `EmailProcessing` | app/components/email-processing-overview.tsx | functions |
| `GmailAccounts` | app/components/gmail-account-management.tsx | functions; a class for the `syncingAccounts` set |
| `Analytics` | app/app/api/analytics/route.ts | functions |
| `DashboardLayout` | app/components/dashboard-layout.tsx | functions and lemmas |
| `Auth` | app/lib/auth.ts | functions |

Several modules share helper modules:
- `Wrappers` has `Option`.
- `Text` covers ASCII case mapping, `includes`, `split`/`join` and `trim`.
- `Seqs` has filter, count, `slice`, sums, subsequences, and a stable insertion sort that stands in for the store's `orderBy`.
- `Numeric` has `Math.round` of a quotient as exact integer arithmetic.
- `Http` covers the session check, error bodies and toasts.

The model's inputs stand in for several outside things:
- A session is an optional user id.
- The store is a field of the store class.
- The clock is a `now` parameter.
- `encrypt`, `bcrypt.compare`, `JSON.stringify` and `JSON.parse` are function parameters.
- Whether a `fetch` went through, and its status, are boolean parameters.

For `GET /api/logs/:file` (monitoring/log-monitor/server.js:131-144), the code takes the last 100 newline-separated segments first and then drops the blank ones. A file that ends in a newline therefore gives at most 99 lines, and blank lines among the last 100 segments shorten the answer further. See `LogMonitor.RecentLinesSpec` and `LogMonitor.GetLogs`.

## Model

Where a function only computes, its row names the lemma that carries its contract rather than the function itself:
- `LogMonitor.DetectLogLevel` is stated by `DetectLogLevelPriority`.
- `LogMonitor.IsCriticalEvent` is stated by the `Matches404Auth…` lemmas and `ShoutedServerErrorIsCritical`.
- `LogMonitor.RecentLines` is stated by `RecentLinesSpec`.
- `AuthMonitor.IsAuthEvent`, `IsErrorEvent` and `IsApiEvent` are stated by `AuthEventWithoutNextauth`, `ErrorEventWithoutError`, `ApiAuthIsAuthEvent` and `LowerCaseApiEvent`.
- `WorkflowControl.SuccessRate` is stated by `SuccessRateBounds`.
- `WorkflowControl.Disabled` is stated by `ButtonsMatchGuards`, `InFlightDisablesAll` and `StopWithoutRecord`.
- `GmailAccounts.ProcessingRate` and `AverageRate` are stated by `ProcessingRateBounds`, `AverageRateBounds` and `FullyProcessedAverage`.
- `DashboardLayout.IsActive` is stated by `IsActiveIff` and the lemmas after it.
- `SystemConfiguration.FormatLabel` is stated by `LabelOfWords` and `FormatLabelChars`.
- `ApiKeys.ListFor` is stated by `ListForSpec`.
- `AuthMonitor.AppendChunk` is stated by `ChunkRecords`, `ChunkRecordsReadBack` and `QuietChunk`.
- `LogMonitor.OnLine` and `Broadcast` are stated by `LogMonitorServer.HandleLine`, `BroadcastFaithful` and `BroadcastLevels`.
- `Workflow.Accepts` is stated by `WorkflowStore.Control`, `ApplyLeavesKnownStatus` and `WorkflowControl.ButtonsMatchGuards`.

| member | source | states |
|---|---|---|
| LogMonitor.DetectLogLevelPriority | monitoring/log-monitor/server.js:69-75 | the level is one of four; it is Error iff the lowered line contains "err" or "fail", Warning iff not that but "warn", Auth iff none of those but "auth" or "login", otherwise Info (first match wins) |
| LogMonitor.ErrContainsItself | monitoring/log-monitor/server.js:71 | "error" contains "err", so a line with "error" needs no rule of its own |
| LogMonitor.AuthFailureIsError | monitoring/log-monitor/server.js:70-73 | "auth failed for user" is an error: the fail rule is checked before the auth rule |
| LogMonitor.Matches404AuthIff | monitoring/log-monitor/server.js:85 | the recursive reading of `/404.*auth/i` holds iff "404" occurs at some i and a case-insensitive "auth" at some j ≥ i+3 with no line terminator between |
| LogMonitor.AuthLaterWitness | monitoring/log-monitor/server.js:85 | a match of `.*auth` yields the index of the "auth" and no line terminator before it |
| LogMonitor.AuthLaterFrom | monitoring/log-monitor/server.js:85 | conversely an "auth" with no line terminator before it matches `.*auth` |
| LogMonitor.Matches404AuthWitness | monitoring/log-monitor/server.js:85 | a match of the 404 rule yields positions of "404" and "auth" in order |
| LogMonitor.Matches404AuthFrom | monitoring/log-monitor/server.js:85 | positions of "404" then "auth" in order make the rule match |
| LogMonitor.AuthBefore404NotMatched | monitoring/log-monitor/server.js:85 | "auth 404" does not match the 404 rule: the "auth" must come after the "404" |
| LogMonitor.ShoutedServerErrorIsCritical | monitoring/log-monitor/server.js:77-88 | the word patterns of `isCriticalEvent` ignore case: "Internal SERVER ERROR" is critical |
| LogMonitor.Basename | monitoring/log-monitor/server.js:43 | `path.basename` holds no "/" |
| LogMonitor.BasenameIsLastSegment | monitoring/log-monitor/server.js:43 | the base name ends the path once its trailing slashes are dropped, and starts that path or follows a "/": it is the last segment |
| LogMonitor.BasenameOfLogFile | monitoring/log-monitor/server.js:43 | "/tmp/auth.log" is tagged "auth.log" |
| LogMonitor.BasenameTrailingSlash | monitoring/log-monitor/server.js:43 | "/a/b/" has base name "b", and "/" has the empty one |
| LogMonitor.LogMessagesAppend | monitoring/log-monitor/server.js:41-60 | the log and alert messages of two emission runs concatenate |
| LogMonitor.BroadcastFaithful | monitoring/log-monitor/server.js:41-60 | over any run of tailed lines, the `log` events carry exactly those lines in order, and the `alert` events carry exactly the critical ones, in order |
| LogMonitor.BroadcastLevels | monitoring/log-monitor/server.js:42-47 | every `log` event carries the file's basename and the level `detectLogLevel` gives its message |
| LogMonitor.RecentLinesSpec | monitoring/log-monitor/server.js:99-102 | the backlog has at most n lines; it is an order-preserving subsequence of the last n newline segments; every segment that is not whitespace only appears in it exactly as often as among those segments, and blank ones not at all; no line holds a newline |
| LogMonitor.InitialLogs | monitoring/log-monitor/server.js:96-110 | the `initial-logs` payload has one entry per backlog line (at most 50), in order, each classified by `detectLogLevel` |
| LogMonitor.OnConnection | monitoring/log-monitor/server.js:96-115 | a new viewer gets one payload per configured file that exists, in configuration order, and each payload is that file's `initial-logs` backlog |
| LogMonitor.GetLogs | monitoring/log-monitor/server.js:131-143 | 404 iff "/tmp/" + name does not exist; otherwise at most 100 lines, namely the backlog of that file |
| LogMonitor.TraversalLeavesTmp | monitoring/log-monitor/server.js:131-136 | the name "../etc/passwd" makes the route open /etc/passwd, outside /tmp |
| LogMonitor.GetLogsConfined | monitoring/log-monitor/server.js:131-143 | a name that is not one plain segment is refused with 404; any other is answered as the route does |
| LogMonitor.ConfinedStaysInTmp | monitoring/log-monitor/server.js:131-143 | whatever the confined route serves is the named file directly inside /tmp |
| LogMonitor.LogMonitorServer.InitializeLogMonitoring | monitoring/log-monitor/server.js:35-40 | the loop adds a tail for each configured file that exists, keyed by its path, and emits nothing |
| LogMonitor.LogMonitorServer.HandleLine | monitoring/log-monitor/server.js:41-60 | a tailed line appends one `log` event, and one `alert` event exactly when it is critical |
| LogMonitor.LogMonitorServer.Status | monitoring/log-monitor/server.js:123-129 | status "running"; the monitored files are the existing configured files, in configuration order; the tail count is the size of `tails` |
| LogMonitor.TailMapStep | monitoring/log-monitor/server.js:35-40 | one loop iteration adds the file's tail exactly when the file exists |
| LogMonitor.TailMapSpec | monitoring/log-monitor/server.js:35-40 | the tails are keyed by exactly the configured files that exist, each with its basename, and there are at most as many as configured files |
| AuthMonitor.AuthEventWithoutNextauth | monitoring/auth-monitor.js:53-66 | `isAuthEvent` holds iff the lowered line contains one of auth, login, signin, session, credential, jwt, token ("nextauth" is subsumed by "auth") |
| AuthMonitor.ErrorEventWithoutError | monitoring/auth-monitor.js:68-81 | `isErrorEvent` holds iff the lowered line contains err, fail, exception, unauthorized or forbidden, or the line contains "500" or "404" ("error" is subsumed by "err") |
| AuthMonitor.ApiAuthIsAuthEvent | monitoring/auth-monitor.js:53-96 | a line with "api/auth" is both an auth event and an API event |
| AuthMonitor.NoUpperNoMatch | monitoring/auth-monitor.js:83-96 | a line without capitals cannot contain a pattern that has one |
| AuthMonitor.LowerCaseApiEvent | monitoring/auth-monitor.js:83-96 | for a line without capitals, only the lower-case API patterns can match: `get /api` in lower case is not an API event |
| AuthMonitor.Tag.Name | monitoring/auth-monitor.js:29-43 | a tag name is non-empty and holds no ":" |
| AuthMonitor.ParseTag | monitoring/auth-monitor.js:29-43 | a parsed tag has the name that was read |
| AuthMonitor.ChunkTags | monitoring/auth-monitor.js:28-46 | a chunk gets at most three tags, AUTH_EVENT iff `isAuthEvent`, ERROR iff `isErrorEvent`, API iff `isApiEvent`, always in that order |
| AuthMonitor.ChunkRecords | monitoring/auth-monitor.js:28-46 | one record per tag, and none iff no predicate holds; record k is the formatted line for the k-th tag, the chunk's clock reading and the trimmed chunk |
| AuthMonitor.ChunkRecordsReadBack | monitoring/auth-monitor.js:28-46 | every record appended for a chunk reads back as its clock reading, its tag in handler order, and the trimmed chunk |
| AuthMonitor.QuietChunk | monitoring/auth-monitor.js:28-46 | a chunk that matches no predicate leaves the auth log unchanged |
| AuthMonitor.SplitOnce | monitoring/auth-monitor.js:29 | splitting at the first separator gives a head without it, and fails iff there is none |
| AuthMonitor.SplitOnceOf | monitoring/auth-monitor.js:29 | a separator after a head without one splits there |
| AuthMonitor.ParseFormatRecord | monitoring/auth-monitor.js:29 | a record `"[" + timestamp + "] " + TAG + ": " + trim(line) + "\n"` reads back as its timestamp, tag and trimmed line |
| AuthMonitor.ParseFormatLine | monitoring/auth-monitor.js:36 | a record line reads back as its timestamp, tag and message |
| AuthMonitor.ParseBracketedOf | monitoring/auth-monitor.js:29 | after the "]" the parser reads the tagged part |
| AuthMonitor.ParseTaggedOf | monitoring/auth-monitor.js:43 | `TAG + ": " + message` reads back as that tag and message |
| AuthMonitor.LoweredWord | monitoring/auth-monitor.js:53-66 | a word in the line shows up, lowered, in the lowered line |
| AuthMonitor.ErrorRecordIsError | monitoring/auth-monitor.js:36 | the log monitor classifies an ERROR record of the auth log as an error |
| AuthMonitor.AuthRecordIsNotInfo | monitoring/auth-monitor.js:29 | the log monitor never classifies an AUTH_EVENT record as info |
| AuthMonitor.RecordFirstLine | monitoring/auth-monitor.js:29 | the first line of a record is the record line of the first line of the trimmed chunk |
| Workflow.ParseStatus | app/app/api/workflow/control/route.ts:46-63 | a stored status string is read back without loss |
| Workflow.ParseAction | app/app/api/workflow/control/route.ts:19-21 | an action is accepted iff it is one of start, stop, pause, restart, and keeps its name |
| Workflow.ParseActionName | app/app/api/workflow/control/route.ts:19-21 | each action's name parses back to that action |
| Workflow.FreshRecord | app/app/api/workflow/control/route.ts:29-39 | a missing record is created stopped, with zero executions and errors |
| Workflow.GetOrCreate | app/app/api/workflow/status/route.ts:16-41 | an existing record is returned as is; a missing one is created fresh |
| Workflow.GetOrCreateIdempotent | app/app/api/workflow/status/route.ts:16-41 | get-or-create of its own result returns that result |
| Workflow.Apply | app/app/api/workflow/control/route.ts:41-76 | an accepted action sets the status (start/restart → running, stop → stopped, pause → paused), adds 1 to the executions exactly for start and restart, never changes errorCount, sets lastStarted/lastStopped, clears lastError on restart |
| Workflow.ApplyLeavesKnownStatus | app/app/api/workflow/control/route.ts:45-76 | after an accepted action the status is a known one, and every action but restart changes it |
| Workflow.RunCounters | app/app/api/workflow/control/route.ts:41-92 | over any sequence of requests the error count never moves and the execution count grows by exactly the accepted starts and restarts |
| Workflow.RestartsAlwaysRun | app/app/api/workflow/control/route.ts:70-75 | n restarts from any status leave the workflow running with n more executions |
| Workflow.WorkflowStore.Control | app/app/api/workflow/control/route.ts:10-94 | 401 without a session and 400 for an unknown action, both with no change; otherwise the record is got or created and either the guard refuses (400 with the guard's message, no audit) or the record becomes `Apply(...)` and one audit entry with previous and new status is added |
| Workflow.WorkflowStore.GetStatus | app/app/api/workflow/status/route.ts:9-41 | 401 and no write without a session; otherwise the stored record, or a fresh one with the default configuration, which is stored and returned |
| Workflow.GetStatusTwice | app/app/api/workflow/status/route.ts:16-41 | two signed-in `GET`s return the same record, and it is the stored one |
| WorkflowControl.ButtonsMatchGuards | app/components/workflow-control.tsx:227-287 | with a known status and nothing in flight, a button is enabled iff the control route's guard accepts its action |
| WorkflowControl.InFlightDisablesAll | app/components/workflow-control.tsx:229-281 | while an action is in flight every button is disabled |
| WorkflowControl.StopWithoutRecord | app/components/workflow-control.tsx:249 | before a status is loaded Stop is enabled, though the route would refuse it on the fresh (stopped) record |
| WorkflowControl.SuccessRateBounds | app/components/workflow-control.tsx:330-333 | with errors ≤ executions the success rate lies in 0..100, and is 100 without errors |
| WorkflowControl.SuccessToastMisspelt | app/components/workflow-control.tsx:124 | the toast as written reads "stoped" and "pauseed" |
| WorkflowControl.PastTense | app/components/workflow-control.tsx:124 | appending "ed" gives the right past tense exactly for start and restart |
| WorkflowControl.SuccessToast | app/components/workflow-control.tsx:124 | the corrected toast agrees with the written one for start and restart |
| WorkflowControl.SuccessToastFixed | app/components/workflow-control.tsx:124 | the corrected toast differs from the written one exactly for stop and pause |
| WorkflowControl.WorkflowPanel.HandleWorkflowAction | app/components/workflow-control.tsx:111-135 | the loading flag is set while the request is out and cleared on every outcome; a thrown request leaves store and status alone and toasts "An error occurred while …ing the workflow"; a success toast is the as-written `${action}ed` text, means the route accepted the action, and the stored and shown record is the created-or-stored record with the action applied, with one audit entry, and each button is then enabled exactly when the route accepts its action from the new status; a refused request toasts the fallback "Failed to … workflow", because the route's `{error}` body has no `message`, leaves the shown status alone, writes no audit entry, and leaves the store holding the created-or-stored record when signed in (unchanged otherwise) |
| ApiKeys.FindSlot | app/app/api/api-keys/route.ts:54-62 | the lookup finds a stored key with that user, service and name, or there is none |
| ApiKeys.ListForSpec | app/app/api/api-keys/route.ts:18-25 | the listing holds exactly the caller's keys, each as often as stored and no other key, newest first |
| ApiKeys.SanitizeIsIdentity | app/app/api/api-keys/route.ts:28-31 | the "sanitized" list equals the stored list, encrypted key included |
| ApiKeys.ApiKeyStore.Get | app/app/api/api-keys/route.ts:11-33 | 401 without a session, otherwise the caller's listing |
| ApiKeys.ApiKeyStore.Post | app/app/api/api-keys/route.ts:40-99 | 401, 400 for a missing field and 400 for a taken (user, service, name) all leave the store and audit unchanged; a key is created iff none of these applies, and then exactly one key is appended (session user, active, `encrypt(apiKey)`), one audit entry is added, and the answer omits the encrypted key |
| ApiKeys.FindSlotAppend | app/app/api/api-keys/route.ts:54-79 | after appending to a free slot, the lookup finds the new key |
| ApiKeys.PostTwice | app/app/api/api-keys/route.ts:54-66 | repeating a successful `POST` is refused with 400; repeating a refused one gives the same refusal |
| ApiKeyManagement.MaskApiKey | app/components/api-key-management.tsx:167-170 | "****" for keys of at most 8 characters, otherwise the first 4, "****" and the last 4 (12 characters) |
| ApiKeyManagement.MaskDependsOnEnds | app/components/api-key-management.tsx:167-170 | two keys with the same ends, or both short, mask alike |
| ApiKeyManagement.Toggled | app/components/api-key-management.tsx:157-165 | toggling flips the membership of that id and of no other |
| ApiKeyManagement.ToggleInvolution | app/components/api-key-management.tsx:157-165 | toggling twice restores the set |
| ApiKeyManagement.FindOption | app/components/api-key-management.tsx:173 | `find` returns an option with that value, or there is none |
| ApiKeyManagement.FindOptionDistinct | app/components/api-key-management.tsx:173 | with distinct values, `find` returns the one option with that value |
| ApiKeyManagement.GetServiceInfo | app/components/api-key-management.tsx:172-177 | an unknown service shows its own name and "Custom service"; a known one shows its option's title and description |
| ApiKeyManagement.KnownServiceInfo | app/components/api-key-management.tsx:172-177 | every listed service shows its own title and description |
| ApiKeyManagement.SubmitRequest | app/components/api-key-management.tsx:114-115 | editing sends PUT to `/api/api-keys/{id}`, adding sends POST to `/api/api-keys`, with the form as body |
| ApiKeyManagement.EditNeedsSecret | app/components/api-key-management.tsx:179-188 | the form `openEditDialog` fills is never complete: the key must be typed again |
| ApiKeyManagement.CompleteIffRouteAccepts | app/components/api-key-management.tsx:108-111 | the client's required-field check is exactly the route's |
| ApiKeyManagement.ApiKeyPanel.ToggleKeyVisibility | app/components/api-key-management.tsx:157-165 | the visibility set becomes the toggled set; nothing else changes |
| ApiKeyManagement.ApiKeyPanel.OpenEditDialog | app/components/api-key-management.tsx:179-188 | the dialog opens on that key with service and name copied and the secret and description blank |
| ApiKeyManagement.ApiKeyPanel.HandleSubmit | app/components/api-key-management.tsx:105-138 | an incomplete form sends nothing and toasts "Please fill in all required fields"; a complete one sends `SubmitRequest`; success resets the form and closes the dialog with the add/update toast; failure keeps the form and toasts "An error occurred while saving the API key" when the request throws, otherwise `error.message \|\| 'Failed to save API key'` |
| SystemConfig.NatToString | app/app/api/system-config/route.ts:49 | `String(n)` is a non-empty digit string |
| SystemConfig.DigitsValueOfNat | app/app/api/system-config/route.ts:49 | the digits of `String(n)` read back as n |
| SystemConfig.EncodeValue | app/app/api/system-config/route.ts:42-50 | booleans are stored as "true"/"false", strings as themselves, objects and arrays as JSON text |
| SystemConfig.BodyKeys | app/app/api/system-config/route.ts:68 | the audited keys are the body's keys, in order |
| SystemConfig.BodyMapKeys | app/app/api/system-config/route.ts:68 | the audited keys are exactly the keys the update applies |
| SystemConfig.FindKey | app/app/api/system-config/route.ts:52-53 | the lookup finds a row with that key, or there is none |
| SystemConfig.ApplyEntry | app/app/api/system-config/route.ts:52-58 | one update keeps the number of rows |
| SystemConfig.ApplyEntryStep | app/app/api/system-config/route.ts:41-59 | one update adds its key to the applied body and keeps keys unique |
| SystemConfig.PrefixStep | app/app/api/system-config/route.ts:41-61 | the loop invariant: after j entries each row is updated by the first j entries, and every key so far is known iff each lookup found it |
| SystemConfig.SameKeys | app/app/api/system-config/route.ts:52-58 | updating values never adds or removes a key |
| SystemConfig.StrLeTotal | app/app/api/system-config/route.ts:19-20 | string order is total |
| SystemConfig.CategoryThenKeyTotal | app/app/api/system-config/route.ts:17-22 | ordering by category, then key, is total |
| SystemConfig.ListingOrdered | app/app/api/system-config/route.ts:17-22 | the listing is ordered by category, then key, and is a permutation of the rows |
| SystemConfig.ConfigStore.Get | app/app/api/system-config/route.ts:10-24 | 401 without a session, otherwise the sorted rows |
| SystemConfig.ConfigStore.Put | app/app/api/system-config/route.ts:31-73 | 401 and no change without a session; otherwise every row whose key is in the body gets the encoded value, the other rows are untouched, and the audit lists the body's keys when every key exists (500 otherwise) |
| SystemConfiguration.DigitPrefix | app/components/system-configuration.tsx:79 | the digits `parseFloat` reads form the longest digit prefix |
| SystemConfiguration.DigitPrefixOfDigits | app/components/system-configuration.tsx:79 | a digit string is its own digit prefix |
| SystemConfiguration.ParseNumber | app/components/system-configuration.tsx:79 | text that does not start with a digit or sign decodes to 0 |
| SystemConfiguration.TrimStartOfNumber | app/components/system-configuration.tsx:79 | a number's text has no leading white space |
| SystemConfiguration.NumberRoundTrip | app/components/system-configuration.tsx:79 | an integer the route stored decodes back to itself |
| SystemConfiguration.DecodeValue | app/components/system-configuration.tsx:74-90 | a boolean decodes to true iff its text is exactly "true"; a number decodes to a number; JSON that fails to parse decodes to []; any other type keeps its text |
| SystemConfiguration.StoredValueDecodes | app/components/system-configuration.tsx:73-90 | a value of the row's kind, stored by `PUT`, decodes back to itself |
| SystemConfiguration.KeyedByKeys | app/components/system-configuration.tsx:72-92 | the map the loop builds has an entry for exactly the keys the rows hold |
| SystemConfiguration.KeyedByLookup | app/components/system-configuration.tsx:72-92 | with distinct keys, every row's key maps to that row's own decoded value |
| SystemConfiguration.DecodeAllLookup | app/components/system-configuration.tsx:72-91 | the value map has exactly the rows' keys; with distinct keys each holds its row's value decoded by its `dataType` |
| SystemConfiguration.ToggleMethod | app/components/system-configuration.tsx:189-194 | switching on appends the method; switching off removes every occurrence and keeps the others in order |
| SystemConfiguration.ToggleOnOff | app/components/system-configuration.tsx:189-194 | on then off restores a list without the method |
| SystemConfiguration.SectionOf | app/components/system-configuration.tsx:234-259 | a category belongs to at most one of the four sections |
| SystemConfiguration.Sections | app/components/system-configuration.tsx:234-259 | there are four sections |
| SystemConfiguration.SectionsPartition | app/components/system-configuration.tsx:234-259 | section k holds, in order, exactly the configs whose category selects k (processing, notification, classification, falsy); other categories appear nowhere |
| SystemConfiguration.VisibleSections | app/components/system-configuration.tsx:302-303 | exactly the non-empty sections are rendered, in order |
| SystemConfiguration.Capitalize | app/components/system-configuration.tsx:325 | capitalising keeps the length |
| SystemConfiguration.CapitalizeAll | app/components/system-configuration.tsx:324-326 | each word is capitalised in place |
| SystemConfiguration.LabelOfWords | app/components/system-configuration.tsx:324-326 | joining the capitalised words with spaces puts, at each position of the key, a space for "_", an upper-cased first letter of a word, or the key's own character |
| SystemConfiguration.FormatLabelChars | app/components/system-configuration.tsx:324-326 | the label has the key's length and is that character map of the key |
| SystemConfiguration.NumberInputFor | app/components/system-configuration.tsx:152-166 | a slider iff the key contains "interval" or "threshold"; over [0, 1] for a threshold, otherwise over [0, 3600] |
| SystemConfiguration.ConfigPanel.FetchConfigs | app/components/system-configuration.tsx:64-99 | on success the configs and the decoded value map are replaced; on failure they are kept; loading ends either way |
| SystemConfiguration.ConfigPanel.UpdateConfigValue | app/components/system-configuration.tsx:127-132 | the key gets the new value and every other key keeps its value |
| MaintenanceRun.TaskName | app/app/api/maintenance/run/route.ts:72-85 | an unknown type is named `type + " Task"`, and a name ends in " Task" iff the type is unknown |
| MaintenanceRun.TaskNameInjective | app/app/api/maintenance/run/route.ts:72-85 | different task types get different names |
| MaintenanceRun.TaskDescription | app/app/api/maintenance/run/route.ts:87-100 | an unknown type is described as `"Execute " + type + " maintenance task"`, and only unknown types end so |
| MaintenanceRun.TaskDescriptionInjective | app/app/api/maintenance/run/route.ts:87-100 | different task types get different descriptions |
| MaintenanceRun.TaskStore.Run | app/app/api/maintenance/run/route.ts:10-65 | 401 without a session, 400 without a task type, both with no change; otherwise one running task with a fresh id, its name and description, and scheduled and started times is appended and audited |
| MaintenanceLogs.PassesIff | app/components/maintenance-logs.tsx:227-241 | a log passes iff its severity and component match exactly (or "all"), it is resolved for "true" and unresolved for "false", and the search, if any, matches |
| MaintenanceLogs.FilteredLogs | app/components/maintenance-logs.tsx:227-241 | the filtered logs are an order-preserving subsequence holding exactly the logs that pass |
| MaintenanceLogs.NoFiltersKeepAll | app/components/maintenance-logs.tsx:227-241 | with every filter off, every log is shown |
| MaintenanceLogs.SearchNarrows | app/components/maintenance-logs.tsx:232-238 | a search term only removes logs |
| MaintenanceLogs.ResolvedViewsPartition | app/components/maintenance-logs.tsx:230-231 | the resolved and unresolved views split the logs between them |
| MaintenanceLogs.SeverityTone | app/components/maintenance-logs.tsx:191-204 | a severity gets its own colour iff it is critical, high, medium or low |
| MaintenanceLogs.SeverityToneDistinct | app/components/maintenance-logs.tsx:191-204 | the four severities get four different colours |
| MaintenanceLogs.StatusTone | app/components/maintenance-logs.tsx:206-219 | a status gets its own colour iff it is completed, running, failed or pending |
| MaintenanceLogs.NewTaskIsBlue | app/components/maintenance-logs.tsx:206-219 | a task just started by the run route shows blue |
| MaintenanceLogs.HealthTone | app/components/maintenance-logs.tsx:221-225 | red iff ≥ 80, yellow iff 60..79, green iff < 60 |
| MaintenanceLogs.HealthToneMonotone | app/components/maintenance-logs.tsx:221-225 | a higher reading never shows a calmer colour |
| MaintenanceLogs.DisplayedTasks | app/components/maintenance-logs.tsx:444 | the first (at most) 10 tasks are shown |
| MaintenanceLogs.DisplayedLogs | app/components/maintenance-logs.tsx:587 | the first (at most) 20 filtered logs are shown |
| EmailProcessing.PassesIff | app/components/email-processing-overview.tsx:151-168 | an email passes iff classification and account match exactly (or "all"), status "processed"/"pending"/"error" holds, and the search, if any, matches subject, sender or classification |
| EmailProcessing.FilteredEmails | app/components/email-processing-overview.tsx:151-168 | the filtered emails are an order-preserving subsequence holding exactly the emails that pass |
| EmailProcessing.NoFiltersKeepAll | app/components/email-processing-overview.tsx:151-168 | with every filter off, every email is shown |
| EmailProcessing.StatusViewsPartition | app/components/email-processing-overview.tsx:154-158 | the processed and pending views split the emails between them |
| EmailProcessing.ErrorViewShowsErrorBadges | app/components/email-processing-overview.tsx:154-158 | every email in the error view shows the Error badge |
| EmailProcessing.DisplayedEmails | app/components/email-processing-overview.tsx:482 | the first (at most) 50 filtered emails are shown |
| EmailProcessing.ComputeStats | app/components/email-processing-overview.tsx:170-178 | each count is at most the number of emails |
| EmailProcessing.BadgeOf | app/components/email-processing-overview.tsx:518-533 | Error iff there is an error message; Done iff not and processed; Pending otherwise |
| EmailProcessing.ErrorCardCountsErrorBadges | app/components/email-processing-overview.tsx:170-178 | the error count equals the number of rows with the Error badge |
| GmailAccounts.ProcessingRateBounds | app/components/gmail-account-management.tsx:177-180 | with processed ≤ total the rate lies in 0..100; it is 100 for a fully processed and 0 for an unprocessed mailbox |
| GmailAccounts.CardsConsistent | app/components/gmail-account-management.tsx:240-255 | provided every account has 0 ≤ processed ≤ total, the processed card is between 0 and the total card |
| GmailAccounts.ActiveCount | app/components/gmail-account-management.tsx:228 | the active count is at most the number of accounts |
| GmailAccounts.AverageRateBounds | app/components/gmail-account-management.tsx:270-275 | provided every account has 0 ≤ processed ≤ total, the average rate lies in 0..100 |
| GmailAccounts.FullyProcessedAverage | app/components/gmail-account-management.tsx:270-275 | accounts that are all fully processed average 100 |
| GmailAccounts.SumOfHundreds | app/components/gmail-account-management.tsx:270-275 | fully processed accounts' rates sum to 100 each |
| GmailAccounts.AccountsPanel.HandleSync | app/components/gmail-account-management.tsx:107-131 | the id is syncing while the request is out and removed on every outcome, other ids untouched; the toast is "Account sync started successfully", "An error occurred while syncing the account" when the request throws, or `error.message \|\| 'Failed to sync account'` |
| GmailAccounts.SyncAsWritten | app/components/gmail-account-management.tsx:107-117 | the sync `handleSync` requests (app/app/api/gmail-accounts/[id]/sync/route.ts:28-38) adds 5 to 24 to the processed count and leaves the total alone |
| GmailAccounts.SyncBreaksCards | app/components/gmail-account-management.tsx:240-255 | with the sync route's uncapped update (app/app/api/gmail-accounts/[id]/sync/route.ts:35), one sync of an empty account shows Processed 5 over Total 0, and of a fully processed 10-email account a rate of 150 |
| GmailAccounts.SyncCapped | app/components/gmail-account-management.tsx:107-117 | the capped form of the requested sync (app/app/api/gmail-accounts/[id]/sync/route.ts:28-38) keeps 0 ≤ processed ≤ total, never lowers the count, and agrees with the written one while under the total |
| GmailAccounts.CappedSyncsKeepCards | app/components/gmail-account-management.tsx:240-275 | after a capped sync of any account the cards stay consistent and the average rate stays in 0..100 |
| Http.ToastAsWritten | app/components/workflow-control.tsx:128 | the toast as written shows the fallback or the body's `message` |
| Http.ReasonNeverShown | app/components/workflow-control.tsx:128 | a route error body `{error}` always gives the fallback toast |
| Http.ToastText | app/components/workflow-control.tsx:128 | the corrected toast shows the body's `error` when present |
| Http.ReasonShown | app/components/workflow-control.tsx:128 | the corrected toast shows the route's reason |
| Analytics.EffectiveRange | app/app/api/analytics/route.ts:17 | a missing or empty range means "7d" |
| Analytics.RangeWindow | app/app/api/analytics/route.ts:23-38 | the window is 24 hours or 7, 30 or 90 days |
| Analytics.DefaultRangeIsWeek | app/app/api/analytics/route.ts:17-38 | a missing, empty or unrecognised range gets the "7d" window |
| Analytics.StartTime | app/app/api/analytics/route.ts:20-38 | the window starts no later than now |
| Analytics.WindowsNest | app/app/api/analytics/route.ts:23-35 | 90d starts before 30d, before 7d, before 24h |
| Analytics.ConfidenceSumBounds | app/app/api/analytics/route.ts:57-60 | confidences in [0, 1] sum to between 0 and the count |
| Analytics.ComputeMetrics | app/app/api/analytics/route.ts:40-70 | total is the count of emails since the start; processed and replies ≤ total; accuracy 0 with no scored email; error rate 0 with no emails |
| Analytics.ShareIsPercentage | app/app/api/analytics/route.ts:57-60 | a part of a whole, as a percentage, is in [0, 100] |
| Analytics.AccuracyBounds | app/app/api/analytics/route.ts:57-60 | with confidences in [0, 1] the average accuracy is in [0, 100] |
| Analytics.EarlierStartCountsMore | app/app/api/analytics/route.ts:41-49 | an earlier start counts at least as many emails |
| Analytics.Get | app/app/api/analytics/route.ts:9-70 | 401 without a session, otherwise the metrics over the selected window |
| Analytics.LongerRangeCountsMore | app/app/api/analytics/route.ts:23-49 | the 90-day report counts at least as many emails as the 24-hour one |
| DashboardLayout.NavItemHrefs | app/components/dashboard-layout.tsx:29-78 | the first item links to /dashboard, every other to /dashboard/ + its page |
| DashboardLayout.PagesHaveNoSlash | app/components/dashboard-layout.tsx:29-78 | each page segment is non-empty and holds no "/" |
| DashboardLayout.IsActiveIff | app/components/dashboard-layout.tsx:149 | an item is active iff the path is its href, or its href followed by "/" and more |
| DashboardLayout.NoPathNoActive | app/components/dashboard-layout.tsx:149 | without a pathname nothing is active |
| DashboardLayout.NoBoundaryNotActive | app/components/dashboard-layout.tsx:149 | a path that continues the href without a "/" does not activate it |
| DashboardLayout.DashboardXNotActive | app/components/dashboard-layout.tsx:149 | "/dashboardx" does not activate "/dashboard" |
| DashboardLayout.DashboardAlwaysActive | app/components/dashboard-layout.tsx:29-78 | whenever an item is active, so is the Dashboard item |
| DashboardLayout.SubPageHighlightsTwo | app/components/dashboard-layout.tsx:29-78 | on a sub-page two items are active |
| DashboardLayout.SegmentRunsToSlash | app/components/dashboard-layout.tsx:149 | a segment without "/" that a path falls under runs up to the path's next "/" or end |
| DashboardLayout.SegmentUnique | app/components/dashboard-layout.tsx:149 | two such segments under the same path are equal |
| DashboardLayout.UnderPage | app/components/dashboard-layout.tsx:149 | under a sub-page, the rest after "/dashboard/" is at or under its segment |
| DashboardLayout.AtMostOneSubPageActive | app/components/dashboard-layout.tsx:29-78 | besides the Dashboard item, at most one item is active |
| DashboardLayout.DisplayName | app/components/dashboard-layout.tsx:136 | name, else email, else "User"; never empty |
| DashboardLayout.RoleLabel | app/components/dashboard-layout.tsx:139 | role, else "Admin"; never empty |
| Auth.FindUser | app/lib/auth.ts:47-55 | the lookup finds a stored user with that email, or there is none |
| Auth.ToAuthUser | app/lib/auth.ts:73-78 | the record keeps id and role and turns a missing email or name into "" |
| Auth.Authorize | app/lib/auth.ts:42-79 | as written: a user is returned iff both fields are filled and the email is known, whatever the password |
| Auth.PasswordIgnored | app/lib/auth.ts:57-78 | any two non-empty passwords give the same decision |
| Auth.WrongPasswordSignsIn | app/lib/auth.ts:67-78 | a known user with a non-matching password signs in as written, and is refused by the checked version |
| Auth.AuthorizeChecked | app/lib/auth.ts:57-78 | with the check: a user is returned iff both fields are filled, the email is known, and the demo credentials or the password check accept |
| Auth.CheckedRefinesWritten | app/lib/auth.ts:42-79 | the checked decision admits only users the written one admits, with the same record |
| Auth.Jwt | app/lib/auth.ts:86-91 | `sub` is always kept; a sign-in sets the role to the user's role; without a user the token is unchanged |
| Auth.RoleSurvivesRefreshes | app/lib/auth.ts:86-91 | the role written at sign-in survives any number of later refreshes |
| Auth.Session | app/lib/auth.ts:92-98 | the session exists iff a user does; with a token its id is the token's `sub` and its role the token's role, with email and name kept; with no token the user is returned as is |
| Auth.SignInReachesSession | app/lib/auth.ts:42-98 | after a checked sign-in, the session carries the user's id and role |

## Left out

- I/O is not modelled: `fetch`, socket.io, `express` routing, the `tail` library, `fs` calls, the spawned `tail -f` and `curl`, and `console` output. The model keeps the decisions these feed. File contents are a map, and emissions are a sequence.
- Timers, polling, the health check, SIGTERM/SIGINT shutdown, and the server's reconnection are not modelled.
- Case mapping is ASCII only. JavaScript's `toLowerCase`, `toUpperCase` and `/…/i` also map non-ASCII letters.
- Strings are sequences of code points, while JavaScript measures them in UTF-16 units. `ApiKeyManagement.MaskApiKey` therefore counts a key's length, and takes its first and last 4 characters, in code points; keys outside the Basic Multilingual Plane are masked differently.
- JavaScript numbers are not modelled as floating point:
  - counts are unbounded integers;
  - averages and rates are exact rationals;
  - `Math.round` is exact rounding half up.
- SystemConfiguration.ParseNumber: `parseFloat(value) || 0` reads only an optional sign and leading digits. Fractions, exponents, `Infinity` and `NaN` are not modelled. The seeded `classification_threshold` of "0.75" (app/scripts/seed.ts:113-117) therefore decodes to 0, and the threshold slider of the configuration page starts at 0 in the model.
- The slider step of 0.01 and the formatting of numbers are not modelled.
- Analytics.ComputeMetrics: its results are not rounded to one decimal. avgResponseTime, throughput and uptime are not modelled. The window subtracts whole hours or days, with no daylight-saving effect of `setDate`/`setHours`.
- The random completion of a maintenance task, in a timer after `POST`, is not modelled. The same goes for `updateRealtimeStats`, and for the mock data of the analytics-reporting and dashboard-overview components.
- The `handleSave` of the configuration page is not modelled. The refetches after a successful request (`fetchApiKeys`, `fetchGmailAccounts`) are not modelled either: those handlers stop at the request.
- WorkflowControl.WorkflowPanel.HandleWorkflowAction: the `fetchWorkflowStatus()` after a success is not awaited in the source (app/components/workflow-control.tsx:125), so it finishes after `finally` has lowered the flag. The model runs that refetch to completion inside the handler, before the flag is lowered.
- SystemConfig.ConfigStore.Put: the concurrent `Promise.all` is modelled as a sequential loop. The loop applies every update whose key exists, then answers 500 if some key is missing. The order in which the updates complete is not modelled.
- SystemConfig.CategoryThenKey: the route only asks the database for `orderBy: [{category: 'asc'}, {key: 'asc'}]` and names neither the provider nor a collation. The model assumes that a missing category sorts last and that strings compare character by character. A database that puts nulls first, or that sorts with a locale collation, lists the rows in another order.
- SystemConfig.ConfigStore.Get and ApiKeys.ListForSpec: `orderBy` is modelled as a stable sort, so how the database orders ties is not modelled.
- Colours are reduced to one tone per colour family, and icons are not modelled.
- The audit log's IP address and user agent are not modelled.
- The 500 answers of the `catch` blocks are not modelled, except the one a missing configuration key causes.
- `encrypt`, `bcrypt.compare`, `JSON.stringify`, `JSON.parse` and next-auth's `sub` are opaque parameters.
- The list routes for Gmail accounts, email logs, maintenance tasks and error logs are not modelled: each is one `findMany` call. The same goes for the audit helper, the seed script and the redirect pages.

- LogMonitor.OnConnection: every entry of one backlog carries the same timestamp, whereas server.js calls `new Date()` once per entry, so the source's entries may differ by the clock's progress.
- LogMonitor.GetLogs: the file map is keyed by the literal string "/tmp/" + name. How the file system resolves that path (".." segments, symbolic links) is modelled only by `LogMonitor.Resolve` in the traversal finding; Express's URL decoding of the name is assumed, not modelled.
- GmailAccounts.SyncAsWritten: only the sync route's update of the processed count is modelled. Its 401 and 404 answers, its `lastSyncAt`, `syncStatus` and `errorMessage` fields and its audit entry are not.

## Findings

| source | as written | input that shows it | evidently intended | confidence | as-written member | corrected member |
|---|---|---|---|---|---|---|
| app/components/workflow-control.tsx:128 | the failure toast reads `error.message`, but the routes answer `{ error: ... }` | the control route answers 400 `{error: "Workflow is already running"}`; the toast shows "Failed to start workflow" | show the route's reason | not executed | Http.ReasonNeverShown | Http.ReasonShown |
| app/components/api-key-management.tsx:133 | the same `error.message` read of an `{error}` body | a duplicate key gives 400 `{error: "API key with this name already exists for this service"}`; the toast shows "Failed to save API key" | show the route's reason | not executed | Http.ReasonNeverShown | Http.ReasonShown |
| app/components/system-configuration.tsx:118 | the same `error.message` read of an `{error}` body | a save without a session gives 401 `{error: "Unauthorized"}`; the fallback toast is shown | show the route's reason | not executed | Http.ReasonNeverShown | Http.ReasonShown |
| app/components/gmail-account-management.tsx:120 | the same `error.message` read of an `{error}` body | a sync without a session gives 401 `{error: "Unauthorized"}`; the toast shows "Failed to sync account" | show the route's reason | not executed | Http.ReasonNeverShown | Http.ReasonShown |
| app/components/maintenance-logs.tsx:167 | the same `error.message` read of an `{error}` body | a run started from the page without a session gets 401 `{error: "Unauthorized"}` (app/app/api/maintenance/run/route.ts:13-15); the fallback toast is shown | show the route's reason | not executed | Http.ReasonNeverShown | Http.ReasonShown |
| app/components/workflow-control.tsx:124 | the success toast appends "ed" to the action | action "stop" gives "Workflow stoped successfully", "pause" gives "Workflow pauseed successfully" | "stopped", "paused" | not executed | WorkflowControl.SuccessToastMisspelt | WorkflowControl.SuccessToastFixed |
| app/lib/auth.ts:67-71 | the password comparison is commented out, so any password signs in a known user | user "ann@example.com" with a stored hash, password "wrong": a user is returned | refuse a password that does not match the stored hash | not executed | Auth.WrongPasswordSignsIn | Auth.AuthorizeChecked |
| monitoring/log-monitor/server.js:131-136 | the requested name is appended to "/tmp/" and read with no check | `GET /api/logs/..%2Fetc%2Fpasswd` (the name "../etc/passwd" once decoded) reads /etc/passwd | serve only plain file names directly inside /tmp | not executed | LogMonitor.TraversalLeavesTmp | LogMonitor.ConfinedStaysInTmp |
| app/app/api/gmail-accounts/[id]/sync/route.ts:35 | each sync adds 5 to 24 processed emails with no cap, and the total is never touched | an account with 0 emails shows Processed 5 over Total 0 after one sync; a fully processed 10-email account shows a rate of 150% | processed never exceeds total | not executed | GmailAccounts.SyncBreaksCards | GmailAccounts.CappedSyncsKeepCards |
