/** The duplicate check of the controller (App.tsx:45-48): a new transaction
    id is a duplicate when some saved record already carries it. The empty id
    and the "Not found" sentinel never match. */
module Duplicates {
  import opened Types

  /** True iff some record of `history` carries `id` (the source's `some`). */
  function HasId(history: seq<TransactionData>, id: string): (r: bool)
    ensures r <==> exists i :: 0 <= i < |history| && history[i].transactionId == id
  {
    if |history| == 0 then false
    else history[0].transactionId == id || HasId(history[1..], id)
  }

  /** The duplicate check: never true for the empty id or for the sentinel,
      otherwise true exactly when an earlier record carries the id. */
  function IsDuplicate(id: string, history: seq<TransactionData>): (r: bool)
    ensures id == "" || id == NotFoundText ==> !r
    ensures id != "" && id != NotFoundText ==>
              (r <==> exists i :: 0 <= i < |history| && history[i].transactionId == id)
  {
    if id == "" || id == NotFoundText then false else HasId(history, id)
  }

  /** Once a record is saved at the front of the history, a later record with
      the same (real) id is flagged, whatever the older history holds. */
  lemma SavedIdIsDuplicate(saved: TransactionData, history: seq<TransactionData>)
    requires saved.transactionId != "" && saved.transactionId != NotFoundText
    ensures IsDuplicate(saved.transactionId, [saved] + history)
  {
  }

  /** Saving more records never clears a duplicate flag. */
  lemma DuplicateSurvivesSave(id: string, saved: TransactionData, history: seq<TransactionData>)
    requires IsDuplicate(id, history)
    ensures IsDuplicate(id, [saved] + history)
  {
  }
}
