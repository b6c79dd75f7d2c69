/** Data model of the payment tracker: the extracted payment record, the
    settings pair and the six states of the extraction workflow (types.ts). */
module Types {

  /** An optional value: `None` stands for the source's `null`/`undefined`. */
  datatype Option<+T> = None | Some(value: T)

  /** The sentinel the extractor writes into any field it could not read. */
  const NotFoundText: string := "Not found"

  /** One payment record, as held in review and in the history. Every field
      except the confidence score is text. `status` is kept as the raw text
      the record carries at run time: the review form writes arbitrary text
      into it, so the declared union is only a view (see `ClassifyStatus`).
      `uploadTimestamp` is the one optional field; saving sets it, and a
      record taken from an extraction without one has none until then. */
  datatype TransactionData = TransactionData(
    amount: string,
    currency: string,
    date: string,
    time: string,
    merchant: string,
    sender: string,
    paymentMethod: string,
    transactionId: string,
    status: string,
    platform: string,
    category: string,
    notes: string,
    confidenceScore: real,
    uploadTimestamp: Option<string>)

  /** The closed union declared for `status`, plus `Other` for any text
      outside it. */
  datatype DeclaredStatus = Completed | Pending | Failed | NotFound | Other(text: string)

  /** The text a declared status stands for. */
  function StatusText(d: DeclaredStatus): string
  {
    match d
    case Completed => "completed"
    case Pending => "pending"
    case Failed => "failed"
    case NotFound => NotFoundText
    case Other(t) => t
  }

  /** True iff `s` is one of the four values the type declares. */
  predicate IsDeclaredStatus(s: string)
  {
    s == "completed" || s == "pending" || s == "failed" || s == NotFoundText
  }

  /** A status value is canonical when an `Other` does not hide a declared value. */
  predicate CanonicalStatus(d: DeclaredStatus)
  {
    d.Other? ==> !IsDeclaredStatus(d.text)
  }

  /** Reads a raw status text as the declared union. Nothing is lost: the
      text comes back unchanged, and the result falls outside the union
      exactly when the text is not one of the declared values. */
  function ClassifyStatus(s: string): (d: DeclaredStatus)
    ensures StatusText(d) == s
    ensures CanonicalStatus(d)
    ensures d.Other? <==> !IsDeclaredStatus(s)
  {
    if s == "completed" then Completed
    else if s == "pending" then Pending
    else if s == "failed" then Failed
    else if s == NotFoundText then NotFound
    else Other(s)
  }

  /** The other half of the round trip: a canonical status survives being
      written out as text and read back. */
  lemma StatusRoundTrip(d: DeclaredStatus)
    requires CanonicalStatus(d)
    ensures ClassifyStatus(StatusText(d)) == d
  {
  }

  /** The two strings the settings dialog edits. */
  datatype AppSettings = AppSettings(googleSheetsUrl: string, webhookUrl: string)

  /** The six states of the upload, extraction and save workflow. */
  datatype ExtractionStatus = Idle | Uploading | Extracting | Success | Error | Saving
}
