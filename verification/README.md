# PayTrack controller core, modelled in Dafny

PayTrack is a browser client. The user uploads a photo of a payment receipt, a
remote AI model extracts a structured payment record from it, the user reviews
and edits the record, and the confirmed record is sent to a spreadsheet webhook
and kept in a local history. This project models the deterministic core of that
client:

- the data model (`types.ts`): the payment record, the settings pair and the
  six workflow states (module `Types`);
- the activity log, which is newest first and capped at 15 entries (module `ActivityLog`);
- the duplicate check on transaction ids (module `Duplicates`);
- the review form (module `TransactionForm`): the twelve editable inputs, the
  single-field edit and the three-way confidence badge;
- the controller's state machine (module `App`): upload, read, extraction,
  edit, save, dispatch, delay, discard and settings events, each a pure
  function on an immutable application state;
- properties over runs of events (module `AppProperties`): a state invariant
  every event keeps, the append-only history, the log bound, and the save
  flows end to end.

Every asynchronous step of the source becomes its own event, and each event
carries its outcome: `ReadCompleted(dataUrl)`, `ExtractionSucceeded(record)` /
`ExtractionFailed(message)`, `SyncDispatched` / `SyncThrew`, and `DelayElapsed`.
The save snapshot is taken when save is pressed, as in the source. It holds
the record plus the timestamp, which the `SaveRequested` event carries as an
opaque string. The snapshot waits in the state (`job`) until the dispatch and
the delay have passed. An event that the UI cannot deliver in the current
state changes nothing. Such events are:

- a file chosen while a record is under review: the input is not rendered;
- save or discard while saving: the buttons are disabled;
- a read outcome outside UPLOADING, an extraction outcome outside EXTRACTING, or a
  sync outcome outside the matching phase of a save in flight, even when its
  operation is still running (see "Overlapping operations" under "Left out").

The record's `status` is stored as the raw text, because the review form writes
arbitrary text into every key, `status` included. The declared union
`completed | pending | failed | Not found` is a view (`ClassifyStatus`) with an
`Other` case. Reading and writing the view round-trips, and
`StatusEditCanLeaveTheUnion` shows that an edit can leave the union. The
confidence score is a `real`.

Notes on the source's behaviour, which the model follows:

- A non-image file only sets the `error` state (App.tsx:54-57). The rejection
  never appears on screen, because App.tsx never renders `error`.
- The webhook address is read once, when save is pressed. That choice decides
  whether the save waits for a dispatch (`Dispatching`) or goes straight to
  the delay (`Delaying`).
- The review inputs stay enabled while saving; only the two buttons are
  disabled. An edit typed during a save therefore stays on the record under
  review and never reaches the history (`EditWhileSavingIsNotSaved`).

## Model

| member | source | states |
|---|---|---|
| Types.ClassifyStatus | types.ts:11 | reading a raw status text as the declared union keeps the text exactly, and the result is `Other` exactly when the text is not one of the four declared values |
| Types.StatusRoundTrip | types.ts:11 | every declared status, written as text and read back, is the same status |
| ActivityLog.AddLog | App.tsx:41-43 | the new entry is at index 0; the length is min(old + 1, 15); the rest is the old log's prefix in its old order |
| ActivityLog.AddAllIsNewestFirst | App.tsx:41-43 | any run of log calls on a capped log leaves exactly the first 15 of "everything logged, latest first, then the old log" |
| ActivityLog.LogKeepsNewest | App.tsx:41-43 | after any run of log calls the log holds min(old + new, 15) entries and begins with the entries just logged, latest first |
| ActivityLog.TwentyCallsKeepFifteen | App.tsx:41-43 | twenty log calls on an empty log leave fifteen entries, the last call first and the sixth call last |
| Duplicates.HasId | App.tsx:47 | true exactly when some history record carries the id |
| Duplicates.IsDuplicate | App.tsx:45-48 | never true for the empty id or for "Not found"; otherwise true exactly when some history record carries the id |
| Duplicates.SavedIdIsDuplicate | App.tsx:45-48 | a real id at the front of the history is reported as a duplicate |
| Duplicates.DuplicateSurvivesSave | App.tsx:45-48 | putting another record in front of the history never clears a duplicate flag |
| TransactionForm.FormFields | components/TransactionForm.tsx:18-31 | the form lists twelve inputs, each with a non-empty caption (their order and keys are fixed by `InputIndex`) |
| TransactionForm.FieldValue | components/TransactionForm.tsx:52 | an input shows one of the record's twelve text fields, never the score or the timestamp |
| TransactionForm.SameFieldsSameRecord | types.ts:2-17 | two records whose inputs all show the same text, with equal score and timestamp, are the same record |
| TransactionForm.InputIndex | components/TransactionForm.tsx:18-31 | every editable key has an input in the form's list |
| TransactionForm.FormFieldsAreDistinct | components/TransactionForm.tsx:18-31 | the form has exactly twelve inputs and no two edit the same key, so the confidence score and upload timestamp have none |
| TransactionForm.Edit | components/TransactionForm.tsx:14-16 | after an edit the edited key holds the typed text, and every other key is unchanged; so are the confidence score and the upload timestamp |
| TransactionForm.EditIsTheSingleFieldUpdate | components/TransactionForm.tsx:14-16 | any record that differs from the original only in the edited key, and holds the typed text there, is the edited record |
| TransactionForm.EditShownValueIsNoOp | components/TransactionForm.tsx:14-16 | typing the text an input already shows leaves the record unchanged |
| TransactionForm.EditOverwrites | components/TransactionForm.tsx:14-16 | a second edit of one key overrides the first |
| TransactionForm.EditsCommute | components/TransactionForm.tsx:14-16 | edits of two different keys give the same record in either order |
| TransactionForm.StatusEditCanLeaveTheUnion | components/TransactionForm.tsx:14-16 | editing `status` to any text outside the declared union yields a status classified `Other` with that text |
| TransactionForm.ConfidenceLevel | components/TransactionForm.tsx:33 | green iff score > 0.8, yellow iff 0.5 < score <= 0.8, red iff score <= 0.5 |
| TransactionForm.ConfidenceMonotone | components/TransactionForm.tsx:33 | a higher score never gets a worse badge class |
| App.InitialSettings | App.tsx:15-22 | the sheet address is never empty: a stored non-empty one is kept, a missing or empty one becomes the default; a stored webhook is kept, and a missing one becomes empty |
| App.SettingsReloadRoundTrip | App.tsx:15-35 | settings written back and read at the next start come back unchanged when the sheet address is non-empty, so loading is stable after the first start |
| App.Init | App.tsx:12-29 | the application starts IDLE, with no record, no preview, no error, no save in flight, an empty log, the stored history (or none) and the settings `InitialSettings` derives from storage, so the sheet address is never empty |
| App.IsImageMime | App.tsx:54 | a file is an image exactly when "image/" is a prefix of its MIME type |
| App.OnFileChosen | App.tsx:50-61 | no file changes nothing; a non-image file changes only the error; an image starts UPLOADING with the error and record cleared and the history, log, preview, settings and save job untouched |
| App.OnReadCompleted | App.tsx:64-70 | a completed read sets the preview, moves to EXTRACTING and logs exactly the analysis notice in front of the old log; record, history, error, settings and save job are kept |
| App.OnExtractionSucceeded | App.tsx:73-79 | the status becomes SUCCESS with the returned record under review whether or not it is a duplicate; history, error, preview, settings and save job are kept; the log is the old log plus the completion entry, with a duplicate adding only the warning logged just before it |
| App.FailureText | App.tsx:82 | the error text is never empty and is the exception's message whenever that is non-empty |
| App.MessageText | App.tsx:83 | the logged message is the exception's message, or "undefined" without one; it equals the error text if and only if the message is present and non-empty |
| App.OnExtractionFailed | App.tsx:80-84 | the status becomes ERROR with the error set to the message or "Extraction failed."; record, preview, history, settings and save job are unchanged; the log is the old log with the "Error: " entry added in front |
| App.OnFieldEdited | App.tsx:221-229 | an input change replaces the record under review by its single-field update; status, error, preview, history, log, settings and save job are untouched |
| App.Stamped | App.tsx:95-98 | the saved snapshot carries the timestamp and is otherwise the record under review |
| App.OnSaveRequested | App.tsx:89-114 | ignored with no record or while saving; otherwise SAVING with a stamped snapshot, which waits for a dispatch exactly when a webhook is configured; preview, error, settings, record and history are kept; the log gains the "Initiating" entry, followed by the "Simulating" entry when there is no webhook |
| App.OnSyncDispatched | App.tsx:103-110 | a successful dispatch moves the save on to the delay with its snapshot unchanged, logs exactly the dispatch entry and keeps status, record, preview, error, history and settings |
| App.OnSyncThrew | App.tsx:130-133 | a thrown dispatch returns to SUCCESS with the record and preview kept, the history, error and settings unchanged and exactly the failure entry added in front of the old log |
| App.RecordedText | App.tsx:120 | the log line reads "Recorded ", then currency and amount, then " for " and the merchant |
| App.OnDelayElapsed | App.tsx:117-124 | when the delay ends, the history gains exactly the snapshot at its front and the log gains the "Recorded …" line for it; the record and preview are cleared, the status is IDLE, and error and settings are kept |
| App.OnDiscarded | App.tsx:223-228 | ignored with no record or while saving; otherwise the record and preview are cleared and the status is IDLE, with the history, log, error, settings and save job untouched |
| App.Step | App.tsx:50-134 | an event either leaves the history as it was or, when a save's delay ends, puts the stamped snapshot in front of it |
| AppProperties.InitEstablishesInv | App.tsx:12-29 | the start-up state satisfies the controller invariant |
| AppProperties.StepPreservesInv | App.tsx:50-134 | every event keeps the invariant: a record is under review exactly in SUCCESS or SAVING, a save is in flight exactly in SAVING, a record always has a preview, and the log is capped (under the rule that an outcome applies only in its matching state, see "Left out") |
| AppProperties.RunPreservesInv | App.tsx:41-134 | any run of events keeps the invariant, so the log never exceeds fifteen entries |
| AppProperties.StepGrowsHistory | App.tsx:119 | one event leaves the history alone or adds one stamped record at the front |
| AppProperties.RunGrowsHistory | App.tsx:95-124 | over any run the old history survives in order behind the new records; each new record is stamped, and there is at most one per event |
| AppProperties.FailedExtractionLeavesNoRecord | App.tsx:59-84 | after a failed extraction there is no record under review and the status is ERROR |
| AppProperties.SavingIgnoresSaveAndDiscard | components/TransactionForm.tsx:60-71 | the effect of `isSaving={status === SAVING}` (App.tsx:228): while saving, save and discard leave the state unchanged |
| AppProperties.SaveWithoutWebhook | App.tsx:103-124 | without a webhook a save cannot fail; after the delay the stamped record heads the history and the review is over |
| AppProperties.SaveWithWebhook | App.tsx:103-124 | with a webhook that accepts the dispatch, the outcome matches the save without one |
| AppProperties.SaveWhoseDispatchThrows | App.tsx:100-133 | a thrown dispatch leaves the history unchanged and the record under review in SUCCESS, with the failure logged first; save can be pressed again |
| AppProperties.EditWhileSavingIsNotSaved | App.tsx:95-98 | without a webhook, the history receives the record as it was when save was pressed, not an edit typed during the save |
| AppProperties.EditAroundDispatchIsNotSaved | App.tsx:95-124 | with a webhook, edits typed before and after the dispatch do not reach the history, which receives the record as it was when save was pressed |
| AppProperties.DiscardKeepsHistory | App.tsx:227 | discard clears the record and preview and sets IDLE without touching the history or the log |
| AppProperties.ReviewStaysUnstamped | App.tsx:73-98 | when every extraction outcome carries no timestamp, the record under review never carries one over any run of events; only the saved snapshot is stamped |
| AppProperties.ResavedReceiptIsFlaggedNotBlocked | App.tsx:73-79 | extracting a receipt whose id heads the history logs a duplicate warning and still takes the record for review |

## Left out

- Extraction call (services/geminiService.ts): the remote model, its prompt, its response schema and `JSON.parse` are outside the model. Extraction is an event carrying either a record or an exception message. A response that lacks a field, leaving it undefined, is not representable: every field is a string.
- Chat assistant (`getChatResponse` and the ChatBot component): a pass-through to the remote model with no local logic.
- Settings dialog (components/SettingsModal.tsx): only its effect is modelled, as the `SettingsSaved` event replacing the settings (App.tsx:282). Whether the dialog is open, including the `openSheet` fallback that opens it, is not modelled. So `SettingsSaved` is accepted in every state.
- Browser storage: `localStorage` writes and the JSON round trip of settings and history (App.tsx:16-18, 27-28, 33-39) are I/O. Reading the settings is modelled as `InitialSettings` over the already-parsed value, and writing them back as `ToStored`; the JSON round trip of two strings is taken as the identity, and the history's round trip is not modelled. A stored string that is not valid JSON, or parses to `null`, is not modelled.
- App.InitialSettings: a stored object without a webhook key gives the empty string rather than `undefined`. Both are falsy for the only test made on it (App.tsx:103). Keys of the stored object other than the two settings are dropped.
- File reading, `fetch` in `no-cors` mode, the 1500 ms timer and `toLocaleString`: each becomes an event or an opaque string parameter.
- The confirmation prompt after a save and the `window.open` of the sheet (App.tsx:126-129, 136-142): user dialogs and browser navigation.
- Overlapping operations: the model applies a read outcome only in UPLOADING and an extraction outcome only in EXTRACTING, whichever upload it came from; an outcome arriving in any other state is dropped. With a second image chosen while an earlier read or extraction is still running, the outcome applied may therefore belong to either upload. The source runs both `onload` closures (App.tsx:64-84) and applies every outcome, so the last one to arrive wins. With two reads in flight, the source can even reach EXTRACTING with a record under review. The invariant proved by `AppProperties.StepPreservesInv` (a record exactly in SUCCESS or SAVING) holds only under the model's rule that an outcome applies only in its matching state.
- App.OnExtractionSucceeded: takes the returned record as given. That a freshly extracted record has no upload timestamp rests on the response schema of the extraction call (services/geminiService.ts:52-69), which is not modelled. `AppProperties.ReviewStaysUnstamped` proves the conditional form.
- Duplicate check timing: the source checks against the history captured when the upload started (App.tsx:73). The model checks against the current history. These are the same under the model's rule that an outcome applies only in its matching state (see "Overlapping operations"): the history only changes when a save completes, and no upload can start while a record is under review. In the source, with two uploads in flight, the first can be saved while the second's closure still checks the history from before that save.
- Rendering: all JSX and styling, the percentage text `(score*100).toFixed(0)`, and the per-entry clock shown in the log view.
- Floating point: the confidence score is a mathematical real, so a score that is not a number, or an absent score, is not modelled.
