/** The top-level controller (App.tsx): the application state it owns and
    the events that change it. Every asynchronous step of the source (the
    file read, the extraction call, the webhook `fetch`, the 1500 ms delay)
    is a separate event carrying its outcome, so each transition is a pure
    function of the state and the event. */
module App {
  import opened Types
  import opened Duplicates
  import opened TransactionForm
  import Log = ActivityLog

  /** The sheet address used when none is stored. */
  const DefaultSheetUrl: string :=
    "https://docs.google.com/spreadsheets/d/1M2-_WQwQgnJ4TaO8WWYT59DT-94vPhj_n8r41kVLY8I/edit?gid=0#gid=0"

  // The fixed texts the controller writes into the error and the log.
  const MsgNotImage: string := "Please upload an image file."
  const MsgAnalyzing: string := "Analyzing with gemini-3-pro-preview..."
  const MsgDuplicate: string := "Possible duplicate detected!"
  const MsgAnalysisDone: string := "Analysis complete."
  const MsgExtractionFailed: string := "Extraction failed."
  const MsgInitiating: string := "Initiating sync with Google Sheets..."
  const MsgDispatched: string := "Sync command dispatched to Webhook."
  const MsgSimulating: string := "Simulating sync... Setup Webhook for real automation."
  const MsgSyncFailed: string := "Failed to sync with Google Sheets"

  /** The settings object read back from storage; a missing key is `None`. */
  datatype StoredSettings = StoredSettings(googleSheetsUrl: Option<string>, webhookUrl: Option<string>)

  /** The initial settings. A stored sheet address that is missing or empty
      is replaced by the default one; the stored webhook is kept. With
      nothing stored, the default address and an empty webhook are used. */
  function InitialSettings(stored: Option<StoredSettings>): (r: AppSettings)
    ensures r.googleSheetsUrl != ""
    ensures stored.Some? && stored.value.googleSheetsUrl.Some? && stored.value.googleSheetsUrl.value != "" ==>
              r.googleSheetsUrl == stored.value.googleSheetsUrl.value
    ensures stored.None? || stored.value.googleSheetsUrl.None? || stored.value.googleSheetsUrl.value == "" ==>
              r.googleSheetsUrl == DefaultSheetUrl
    ensures stored.Some? && stored.value.webhookUrl.Some? ==> r.webhookUrl == stored.value.webhookUrl.value
    ensures stored.None? ==> r.webhookUrl == ""
    ensures stored.Some? && stored.value.webhookUrl.None? ==> r.webhookUrl == ""
  {
    match stored
    case None => AppSettings(DefaultSheetUrl, "")
    case Some(p) =>
      var sheet := if p.googleSheetsUrl.Some? && p.googleSheetsUrl.value != "" then p.googleSheetsUrl.value else DefaultSheetUrl;
      var hook := if p.webhookUrl.Some? then p.webhookUrl.value else "";
      AppSettings(sheet, hook)
  }

  /** The settings as the storage effect writes them back; the JSON round
      trip of two strings is taken as the identity. */
  function ToStored(st: AppSettings): StoredSettings
  {
    StoredSettings(Some(st.googleSheetsUrl), Some(st.webhookUrl))
  }

  /** Settings written back and read at the next start come back unchanged
      whenever their sheet address is non-empty, which start-up guarantees;
      so loading is stable from the second start on. */
  lemma SettingsReloadRoundTrip(st: AppSettings, stored: Option<StoredSettings>)
    ensures st.googleSheetsUrl != "" ==> InitialSettings(Some(ToStored(st))) == st
    ensures InitialSettings(Some(ToStored(InitialSettings(stored)))) == InitialSettings(stored)
  {
  }

  /** Which await a save in flight is suspended on: the webhook `fetch`, or
      the delay that follows a dispatched (or simulated) sync. */
  datatype SyncPhase = Dispatching | Delaying

  /** A save in flight: the record snapshot it will append, already stamped,
      and where it is suspended. */
  datatype SaveJob = SaveJob(data: TransactionData, phase: SyncPhase)

  /** The state the controller owns. `record` is the record under review,
      `preview` the image shown beside it, `job` the save in flight. */
  datatype AppState = AppState(
    status: ExtractionStatus,
    error: Option<string>,
    record: Option<TransactionData>,
    preview: Option<string>,
    history: seq<TransactionData>,
    log: seq<Log.LogEntry>,
    settings: AppSettings,
    job: Option<SaveJob>)

  /** The state at start-up, from what storage holds. */
  function Init(stored: Option<StoredSettings>, storedHistory: Option<seq<TransactionData>>): (s: AppState)
    ensures s.status == Idle && s.record.None? && s.job.None? && s.log == []
    ensures s.history == (if storedHistory.Some? then storedHistory.value else [])
    ensures s.settings == InitialSettings(stored) && s.error.None? && s.preview.None?
  {
    AppState(Idle, None, None, None,
             if storedHistory.Some? then storedHistory.value else [],
             [], InitialSettings(stored), None)
  }

  /** What can happen to the controller. `FileChosen(None)` is a change of
      the file input with no file. */
  datatype Event =
    | FileChosen(mimeType: Option<string>)
    | ReadCompleted(dataUrl: string)
    | ExtractionSucceeded(data: TransactionData)
    | ExtractionFailed(message: Option<string>)
    | FieldEdited(field: Field, value: string)
    | SaveRequested(timestamp: string)
    | SyncDispatched
    | SyncThrew
    | DelayElapsed
    | Discarded
    | SettingsSaved(newSettings: AppSettings)

  /** The MIME type names an image: "image/" is a prefix of it. */
  predicate IsImageMime(mime: string)
    ensures IsImageMime(mime) <==> "image/" <= mime
  {
    |mime| >= 6 && mime[..6] == "image/"
  }

  /** The `isSaving` flag passed to the review form, which disables its save
      and discard buttons. */
  predicate IsSaving(s: AppState)
  {
    s.status == Saving
  }

  /** A file chosen in the upload input. The input is only on screen while
      no record is under review. No file changes nothing; a file that is not
      an image sets only the error; an image starts the upload and clears
      the error and the record. */
  function OnFileChosen(s: AppState, mime: Option<string>): (t: AppState)
    ensures mime.None? || s.record.Some? ==> t == s
    ensures mime.Some? && s.record.None? && !IsImageMime(mime.value) ==>
              t == s.(error := Some(MsgNotImage))
    ensures mime.Some? && s.record.None? && IsImageMime(mime.value) ==>
              t.status == Uploading && t.error.None? && t.record.None? &&
              t.history == s.history && t.log == s.log && t.job == s.job &&
              t.preview == s.preview && t.settings == s.settings
  {
    if mime.None? || s.record.Some? then s
    else if !IsImageMime(mime.value) then s.(error := Some(MsgNotImage))
    else s.(status := Uploading, error := None, record := None)
  }

  /** The file read finished: the image becomes the preview and extraction
      starts. */
  function OnReadCompleted(s: AppState, dataUrl: string): (t: AppState)
    ensures s.status != Uploading ==> t == s
    ensures s.status == Uploading ==>
              t.status == Extracting && t.preview == Some(dataUrl) &&
              t.log == Log.AddLog(s.log, Log.LogEntry(MsgAnalyzing, Log.Info)) &&
              t.record == s.record && t.history == s.history &&
              t.error == s.error && t.job == s.job && t.settings == s.settings
  {
    if s.status != Uploading then s
    else s.(preview := Some(dataUrl), status := Extracting,
            log := Log.AddLog(s.log, Log.LogEntry(MsgAnalyzing, Log.Info)))
  }

  /** Extraction returned a record. A duplicate id only adds a warning to
      the log: the record is taken for review either way. */
  function OnExtractionSucceeded(s: AppState, d: TransactionData): (t: AppState)
    ensures s.status != Extracting ==> t == s
    ensures s.status == Extracting ==>
              t.status == Success && t.record == Some(d) &&
              t.history == s.history && t.error == s.error && t.job == s.job &&
              t.preview == s.preview && t.settings == s.settings &&
              |t.log| > 0 && t.log[0] == Log.LogEntry(MsgAnalysisDone, Log.Success)
    ensures s.status == Extracting && IsDuplicate(d.transactionId, s.history) ==>
              |t.log| > 1 && t.log[1] == Log.LogEntry(MsgDuplicate, Log.Warning) &&
              t.log == Log.AddLog(Log.AddLog(s.log, Log.LogEntry(MsgDuplicate, Log.Warning)),
                                  Log.LogEntry(MsgAnalysisDone, Log.Success))
    ensures s.status == Extracting && !IsDuplicate(d.transactionId, s.history) ==>
              t.log == Log.AddLog(s.log, Log.LogEntry(MsgAnalysisDone, Log.Success))
  {
    if s.status != Extracting then s
    else
      var warned := if IsDuplicate(d.transactionId, s.history)
                    then Log.AddLog(s.log, Log.LogEntry(MsgDuplicate, Log.Warning))
                    else s.log;
      s.(record := Some(d), status := Success,
         log := Log.AddLog(warned, Log.LogEntry(MsgAnalysisDone, Log.Success)))
  }

  /** The error text shown for a failed extraction: the exception's message,
      or a fixed text when it has none. */
  function FailureText(message: Option<string>): (r: string)
    ensures r != ""
    ensures message.Some? && message.value != "" ==> r == message.value
  {
    if message.Some? && message.value != "" then message.value else MsgExtractionFailed
  }

  /** The message as string concatenation renders it: a missing message
      reads "undefined". The log line and the error text therefore agree
      whenever the exception has a message, and disagree when it has none. */
  function MessageText(message: Option<string>): (r: string)
    ensures message.Some? ==> r == message.value
    ensures message.Some? && message.value != "" ==> r == FailureText(message)
    ensures message.None? ==> r == "undefined" && r != FailureText(message)
    ensures r == FailureText(message) <==> message.Some? && message.value != ""
  {
    if message.Some? then message.value else "undefined"
  }

  /** Extraction threw: the status becomes ERROR with the error set; the
      record is left as it is (cleared when the upload started). */
  function OnExtractionFailed(s: AppState, message: Option<string>): (t: AppState)
    ensures s.status != Extracting ==> t == s
    ensures s.status == Extracting ==>
              t.status == Error && t.error == Some(FailureText(message)) &&
              t.record == s.record && t.history == s.history &&
              t.preview == s.preview && t.job == s.job && t.settings == s.settings &&
              t.log == Log.AddLog(s.log, Log.LogEntry("Error: " + MessageText(message), Log.Error))
  {
    if s.status != Extracting then s
    else s.(status := Error, error := Some(FailureText(message)),
            log := Log.AddLog(s.log, Log.LogEntry("Error: " + MessageText(message), Log.Error)))
  }

  /** An input of the review form changed: the record under review becomes
      the single-field update. The inputs stay enabled while saving. */
  function OnFieldEdited(s: AppState, f: Field, v: string): (t: AppState)
    ensures s.record.None? ==> t == s
    ensures s.record.Some? ==>
              t.record.Some? && FieldValue(t.record.value, f) == v &&
              (forall g :: g != f ==> FieldValue(t.record.value, g) == FieldValue(s.record.value, g)) &&
              t.record.value.confidenceScore == s.record.value.confidenceScore &&
              t.record.value.uploadTimestamp == s.record.value.uploadTimestamp
    ensures t.status == s.status && t.history == s.history && t.job == s.job && t.log == s.log
    ensures t.preview == s.preview && t.error == s.error && t.settings == s.settings
  {
    if s.record.None? then s
    else s.(record := Some(Edit(s.record.value, f, v)))
  }

  /** The record as the history will hold it: the same inputs and score,
      with the upload timestamp set. */
  function Stamped(r: TransactionData, timestamp: string): (d: TransactionData)
    ensures d.uploadTimestamp == Some(timestamp)
    ensures forall f :: FieldValue(d, f) == FieldValue(r, f)
    ensures d.confidenceScore == r.confidenceScore
  {
    r.(uploadTimestamp := Some(timestamp))
  }

  /** Save pressed. Ignored without a record or while saving. Otherwise the
      status becomes SAVING and a stamped snapshot of the record is taken;
      with a webhook configured the save waits for the dispatch, without one
      the sync is only simulated and the save goes straight to the delay. */
  function OnSaveRequested(s: AppState, timestamp: string): (t: AppState)
    ensures s.record.None? || IsSaving(s) ==> t == s
    ensures s.record.Some? && !IsSaving(s) ==>
              t.status == Saving && t.record == s.record && t.history == s.history &&
              t.job.Some? &&
              t.job.value.data == Stamped(s.record.value, timestamp) &&
              (t.job.value.phase == Dispatching <==> s.settings.webhookUrl != "") &&
              t.preview == s.preview && t.error == s.error && t.settings == s.settings
    ensures s.record.Some? && !IsSaving(s) && s.settings.webhookUrl != "" ==>
              t.log == Log.AddLog(s.log, Log.LogEntry(MsgInitiating, Log.Info))
    ensures s.record.Some? && !IsSaving(s) && s.settings.webhookUrl == "" ==>
              t.log == Log.AddLog(Log.AddLog(s.log, Log.LogEntry(MsgInitiating, Log.Info)),
                                  Log.LogEntry(MsgSimulating, Log.Info))
  {
    if s.record.None? || IsSaving(s) then s
    else
      var snapshot := Stamped(s.record.value, timestamp);
      var started := Log.AddLog(s.log, Log.LogEntry(MsgInitiating, Log.Info));
      if s.settings.webhookUrl != "" then
        s.(status := Saving, log := started, job := Some(SaveJob(snapshot, Dispatching)))
      else
        s.(status := Saving, log := Log.AddLog(started, Log.LogEntry(MsgSimulating, Log.Info)),
           job := Some(SaveJob(snapshot, Delaying)))
  }

  /** The save in flight is waiting for the webhook dispatch. */
  predicate AwaitsDispatch(s: AppState)
  {
    s.job.Some? && s.job.value.phase == Dispatching
  }

  /** The save in flight is waiting for the delay. */
  predicate AwaitsDelay(s: AppState)
  {
    s.job.Some? && s.job.value.phase == Delaying
  }

  /** The webhook request went out without a network exception. */
  function OnSyncDispatched(s: AppState): (t: AppState)
    ensures !AwaitsDispatch(s) ==> t == s
    ensures AwaitsDispatch(s) ==>
              AwaitsDelay(t) && t.job.value.data == s.job.value.data &&
              t.status == s.status && t.record == s.record && t.history == s.history &&
              t.preview == s.preview && t.error == s.error && t.settings == s.settings &&
              t.log == Log.AddLog(s.log, Log.LogEntry(MsgDispatched, Log.Success))
  {
    if !AwaitsDispatch(s) then s
    else s.(job := Some(s.job.value.(phase := Delaying)),
            log := Log.AddLog(s.log, Log.LogEntry(MsgDispatched, Log.Success)))
  }

  /** The webhook request threw: nothing is recorded, the record stays under
      review and the status goes back to SUCCESS so the user can retry. */
  function OnSyncThrew(s: AppState): (t: AppState)
    ensures !AwaitsDispatch(s) ==> t == s
    ensures AwaitsDispatch(s) ==>
              t.status == Success && t.job.None? && t.record == s.record &&
              t.preview == s.preview && t.history == s.history &&
              t.error == s.error && t.settings == s.settings &&
              t.log == Log.AddLog(s.log, Log.LogEntry(MsgSyncFailed, Log.Error))
  {
    if !AwaitsDispatch(s) then s
    else s.(status := Success, job := None,
            log := Log.AddLog(s.log, Log.LogEntry(MsgSyncFailed, Log.Error)))
  }

  /** The log line for a recorded transaction: it opens with "Recorded ",
      then the currency and the amount, and ends with " for " and the
      merchant. */
  function RecordedText(d: TransactionData): (r: string)
    ensures |r| == 14 + |d.currency| + |d.amount| + |d.merchant|
    ensures r[..9] == "Recorded "
    ensures r[9..9 + |d.currency| + |d.amount|] == d.currency + d.amount
    ensures r[|r| - |d.merchant|..] == d.merchant
    ensures r[|r| - |d.merchant| - 5..|r| - |d.merchant|] == " for "
  {
    "Recorded " + d.currency + d.amount + " for " + d.merchant
  }

  /** The delay after the sync elapsed: the stamped snapshot goes to the
      front of the history and the review ends. */
  function OnDelayElapsed(s: AppState): (t: AppState)
    ensures !AwaitsDelay(s) ==> t == s
    ensures AwaitsDelay(s) ==>
              |t.history| == |s.history| + 1 && t.history[0] == s.job.value.data &&
              t.history[1..] == s.history &&
              t.record.None? && t.preview.None? && t.status == Idle && t.job.None? &&
              t.settings == s.settings && t.error == s.error &&
              t.log == Log.AddLog(s.log, Log.LogEntry(RecordedText(s.job.value.data), Log.Success))
  {
    if !AwaitsDelay(s) then s
    else
      var d := s.job.value.data;
      s.(history := [d] + s.history,
         log := Log.AddLog(s.log, Log.LogEntry(RecordedText(d), Log.Success)),
         record := None, preview := None, status := Idle, job := None)
  }

  /** Discard pressed: ignored without a record or while saving; otherwise
      the record and preview are cleared and the status is IDLE. */
  function OnDiscarded(s: AppState): (t: AppState)
    ensures s.record.None? || IsSaving(s) ==> t == s
    ensures s.record.Some? && !IsSaving(s) ==>
              t.record.None? && t.preview.None? && t.status == Idle
    ensures t.history == s.history && t.log == s.log && t.job == s.job &&
            t.settings == s.settings && t.error == s.error
  {
    if s.record.None? || IsSaving(s) then s
    else s.(record := None, preview := None, status := Idle)
  }

  /** One event. History changes only when a save completes, and then it
      gains exactly the stamped snapshot at the front. */
  function Step(s: AppState, e: Event): (t: AppState)
    ensures t.history == s.history ||
            (e.DelayElapsed? && AwaitsDelay(s) && t.history == [s.job.value.data] + s.history)
  {
    match e
    case FileChosen(mime) => OnFileChosen(s, mime)
    case ReadCompleted(url) => OnReadCompleted(s, url)
    case ExtractionSucceeded(d) => OnExtractionSucceeded(s, d)
    case ExtractionFailed(m) => OnExtractionFailed(s, m)
    case FieldEdited(f, v) => OnFieldEdited(s, f, v)
    case SaveRequested(ts) => OnSaveRequested(s, ts)
    case SyncDispatched => OnSyncDispatched(s)
    case SyncThrew => OnSyncThrew(s)
    case DelayElapsed => OnDelayElapsed(s)
    case Discarded => OnDiscarded(s)
    case SettingsSaved(ns) => s.(settings := ns)
  }

  /** A run of events, the first one first. */
  function Run(s: AppState, events: seq<Event>): AppState
    decreases |events|
  {
    if |events| == 0 then s else Run(Step(s, events[0]), events[1..])
  }
}
