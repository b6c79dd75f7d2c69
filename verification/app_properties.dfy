/** Properties of the controller over single events and over runs of them:
    the state invariant every event keeps, the append-only history, the
    bounded log and the save flows end to end. */
module AppProperties {
  import opened Types
  import opened Duplicates
  import opened TransactionForm
  import opened App
  import Log = ActivityLog

  /** What holds in every state the controller can reach: a record is under
      review exactly in SUCCESS and SAVING; a save is in flight exactly in
      SAVING and its snapshot is stamped; a record under review, and an
      extraction under way, always have a preview; the log is capped. */
  ghost predicate Inv(s: AppState)
  {
    && (s.record.Some? <==> s.status == Success || s.status == Saving)
    && (s.job.Some? <==> s.status == Saving)
    && (s.job.Some? ==> s.job.value.data.uploadTimestamp.Some?)
    && (s.record.Some? ==> s.preview.Some?)
    && (s.status == Extracting ==> s.preview.Some?)
    && |s.log| <= Log.MaxEntries
  }

  /** `h1` is `h0` with zero or more stamped records put in front of it. */
  ghost predicate GrowsByStamped(h0: seq<TransactionData>, h1: seq<TransactionData>)
  {
    && |h0| <= |h1|
    && h1[|h1| - |h0|..] == h0
    && forall i :: 0 <= i < |h1| - |h0| ==> h1[i].uploadTimestamp.Some?
  }

  lemma InitEstablishesInv(stored: Option<StoredSettings>, storedHistory: Option<seq<TransactionData>>)
    ensures Inv(Init(stored, storedHistory))
  {
  }

  /** Every event keeps the invariant. */
  lemma StepPreservesInv(s: AppState, e: Event)
    requires Inv(s)
    ensures Inv(Step(s, e))
  {
  }

  /** Any run of events keeps the invariant; in particular the log never
      holds more than fifteen entries. */
  lemma {:induction false} RunPreservesInv(s: AppState, events: seq<Event>)
    requires Inv(s)
    ensures Inv(Run(s, events))
    ensures |Run(s, events).log| <= Log.MaxEntries
    decreases |events|
  {
    if |events| > 0 {
      StepPreservesInv(s, events[0]);
      RunPreservesInv(Step(s, events[0]), events[1..]);
    }
  }

  lemma GrowsByStampedTransitive(a: seq<TransactionData>, b: seq<TransactionData>, c: seq<TransactionData>)
    requires GrowsByStamped(a, b) && GrowsByStamped(b, c)
    ensures GrowsByStamped(a, c)
  {
  }

  /** One event leaves the history alone or puts one stamped record in front. */
  lemma StepGrowsHistory(s: AppState, e: Event)
    requires Inv(s)
    ensures GrowsByStamped(s.history, Step(s, e).history)
    ensures |Step(s, e).history| <= |s.history| + 1
  {
  }

  /** The history is append-only at the front: after any run of events the
      old history is still there, in order, behind at most one new record
      per event, and every new record is stamped. */
  lemma {:induction false} RunGrowsHistory(s: AppState, events: seq<Event>)
    requires Inv(s)
    ensures GrowsByStamped(s.history, Run(s, events).history)
    ensures |Run(s, events).history| <= |s.history| + |events|
    decreases |events|
  {
    if |events| == 0 {
      assert s.history[0..] == s.history;
    } else {
      var t := Step(s, events[0]);
      StepGrowsHistory(s, events[0]);
      StepPreservesInv(s, events[0]);
      RunGrowsHistory(t, events[1..]);
      GrowsByStampedTransitive(s.history, t.history, Run(t, events[1..]).history);
    }
  }

  /** A failed extraction leaves no record under review: the upload that
      started it had cleared the record. */
  lemma FailedExtractionLeavesNoRecord(s: AppState, message: Option<string>)
    requires Inv(s) && s.status == Extracting
    ensures Step(s, ExtractionFailed(message)).record.None?
    ensures Step(s, ExtractionFailed(message)).status == Error
  {
  }

  /** While a save is in flight, save and discard do nothing. */
  lemma SavingIgnoresSaveAndDiscard(s: AppState, timestamp: string)
    requires IsSaving(s)
    ensures Step(s, SaveRequested(timestamp)) == s
    ensures Step(s, Discarded) == s
  {
  }

  /** Save without a webhook: the sync is simulated and cannot fail (a
      thrown dispatch has nothing to act on), and after the delay the stamped
      record heads the history and the review is over. */
  lemma SaveWithoutWebhook(s: AppState, timestamp: string)
    requires Inv(s) && s.status == Success && s.settings.webhookUrl == ""
    ensures var t := Step(s, SaveRequested(timestamp));
            Step(t, SyncThrew) == t && Step(t, SyncDispatched) == t
    ensures var u := Run(s, [SaveRequested(timestamp), DelayElapsed]);
            u.history == [Stamped(s.record.value, timestamp)] + s.history &&
            u.record.None? && u.preview.None? && u.status == Idle
  {
    var t := Step(s, SaveRequested(timestamp));
    var u := Step(t, DelayElapsed);
    assert Run(s, [SaveRequested(timestamp), DelayElapsed]) == Run(t, [DelayElapsed]) == Run(u, []);
  }

  /** Save with a webhook that accepts the request: the same outcome as
      without one, once the dispatch and the delay have passed. */
  lemma SaveWithWebhook(s: AppState, timestamp: string)
    requires Inv(s) && s.status == Success && s.settings.webhookUrl != ""
    ensures var u := Run(s, [SaveRequested(timestamp), SyncDispatched, DelayElapsed]);
            u.history == [Stamped(s.record.value, timestamp)] + s.history &&
            u.record.None? && u.preview.None? && u.status == Idle
  {
    var t1 := Step(s, SaveRequested(timestamp));
    var t2 := Step(t1, SyncDispatched);
    var t3 := Step(t2, DelayElapsed);
    assert Run(s, [SaveRequested(timestamp), SyncDispatched, DelayElapsed])
        == Run(t1, [SyncDispatched, DelayElapsed])
        == Run(t2, [DelayElapsed])
        == Run(t3, []);
  }

  /** Save whose dispatch throws: the history is unchanged, the record is
      still under review, the status is back to SUCCESS and the failure is
      the newest log entry. A second save can then be requested. */
  lemma SaveWhoseDispatchThrows(s: AppState, timestamp: string)
    requires Inv(s) && s.status == Success && s.settings.webhookUrl != ""
    ensures var u := Run(s, [SaveRequested(timestamp), SyncThrew]);
            u.history == s.history && u.record == s.record && u.status == Success &&
            u.job.None? && |u.log| > 0 && u.log[0] == Log.LogEntry(MsgSyncFailed, Log.Error) &&
            Step(u, SaveRequested(timestamp)).status == Saving
  {
    var t1 := Step(s, SaveRequested(timestamp));
    var t2 := Step(t1, SyncThrew);
    assert Run(s, [SaveRequested(timestamp), SyncThrew]) == Run(t1, [SyncThrew]) == Run(t2, []);
  }

  /** The snapshot is taken when save is pressed: without a webhook, an edit
      typed while the save is in flight stays on the record under review and
      does not reach the history. */
  lemma EditWhileSavingIsNotSaved(s: AppState, timestamp: string, f: Field, v: string)
    requires Inv(s) && s.status == Success && s.settings.webhookUrl == ""
    ensures var u := Run(s, [SaveRequested(timestamp), FieldEdited(f, v), DelayElapsed]);
            u.history == [Stamped(s.record.value, timestamp)] + s.history
  {
    var t1 := Step(s, SaveRequested(timestamp));
    var t2 := Step(t1, FieldEdited(f, v));
    var t3 := Step(t2, DelayElapsed);
    assert Run(s, [SaveRequested(timestamp), FieldEdited(f, v), DelayElapsed])
        == Run(t1, [FieldEdited(f, v), DelayElapsed])
        == Run(t2, [DelayElapsed])
        == Run(t3, []);
  }

  /** The same with a webhook: edits typed before and after the dispatch
      stay on the record under review, and the history receives the record
      as it was when save was pressed. */
  lemma EditAroundDispatchIsNotSaved(s: AppState, timestamp: string, f: Field, v: string, g: Field, w: string)
    requires Inv(s) && s.status == Success && s.settings.webhookUrl != ""
    ensures var u := Run(s, [SaveRequested(timestamp), FieldEdited(f, v), SyncDispatched, FieldEdited(g, w), DelayElapsed]);
            u.history == [Stamped(s.record.value, timestamp)] + s.history
  {
    var t1 := Step(s, SaveRequested(timestamp));
    var t2 := Step(t1, FieldEdited(f, v));
    var t3 := Step(t2, SyncDispatched);
    var t4 := Step(t3, FieldEdited(g, w));
    var t5 := Step(t4, DelayElapsed);
    assert Run(s, [SaveRequested(timestamp), FieldEdited(f, v), SyncDispatched, FieldEdited(g, w), DelayElapsed])
        == Run(t1, [FieldEdited(f, v), SyncDispatched, FieldEdited(g, w), DelayElapsed])
        == Run(t2, [SyncDispatched, FieldEdited(g, w), DelayElapsed])
        == Run(t3, [FieldEdited(g, w), DelayElapsed])
        == Run(t4, [DelayElapsed])
        == Run(t5, []);
  }

  /** Discard ends the review without touching the history or the log. */
  lemma DiscardKeepsHistory(s: AppState)
    requires Inv(s) && s.status == Success
    ensures var t := Step(s, Discarded);
            t.history == s.history && t.log == s.log &&
            t.record.None? && t.preview.None? && t.status == Idle
  {
  }

  /** Uploading the same receipt again after saving it: the new extraction
      is flagged with a duplicate warning, yet it is still taken for review. */
  lemma ResavedReceiptIsFlaggedNotBlocked(s: AppState, mime: string, dataUrl: string, d: TransactionData)
    requires Inv(s) && s.record.None? && IsImageMime(mime)
    requires s.history != [] && d.transactionId == s.history[0].transactionId
    requires d.transactionId != "" && d.transactionId != NotFoundText
    ensures var u := Run(s, [FileChosen(Some(mime)), ReadCompleted(dataUrl), ExtractionSucceeded(d)]);
            u.status == Success && u.record == Some(d) && u.history == s.history &&
            |u.log| > 1 && u.log[1] == Log.LogEntry(MsgDuplicate, Log.Warning)
  {
    var t1 := Step(s, FileChosen(Some(mime)));
    var t2 := Step(t1, ReadCompleted(dataUrl));
    var t3 := Step(t2, ExtractionSucceeded(d));
    assert s.history == [s.history[0]] + s.history[1..];
    SavedIdIsDuplicate(s.history[0], s.history[1..]);
    assert Run(s, [FileChosen(Some(mime)), ReadCompleted(dataUrl), ExtractionSucceeded(d)])
        == Run(t1, [ReadCompleted(dataUrl), ExtractionSucceeded(d)])
        == Run(t2, [ExtractionSucceeded(d)])
        == Run(t3, []);
  }

  /** The record under review, if any, carries no upload timestamp. */
  ghost predicate ReviewUnstamped(s: AppState)
  {
    s.record.Some? ==> s.record.value.uploadTimestamp.None?
  }

  /** Every extraction outcome in `events` is a record without a timestamp,
      as the response schema of the extraction call has no such property. */
  ghost predicate ExtractionsUnstamped(events: seq<Event>)
  {
    forall i :: 0 <= i < |events| && events[i].ExtractionSucceeded? ==>
      events[i].data.uploadTimestamp.None?
  }

  /** A record taken from an unstamped extraction stays unstamped through
      edits and failed saves: only the saved snapshot is stamped. */
  lemma {:induction false} ReviewStaysUnstamped(s: AppState, events: seq<Event>)
    requires ReviewUnstamped(s) && ExtractionsUnstamped(events)
    ensures ReviewUnstamped(Run(s, events))
    decreases |events|
  {
    if |events| > 0 {
      var t := Step(s, events[0]);
      assert ReviewUnstamped(t);
      assert ExtractionsUnstamped(events[1..]) by {
        forall i | 0 <= i < |events[1..]| && events[1..][i].ExtractionSucceeded?
          ensures events[1..][i].data.uploadTimestamp.None?
        {
          assert events[1..][i] == events[i + 1];
        }
      }
      ReviewStaysUnstamped(t, events[1..]);
    }
  }
}
