/** The review form (components/TransactionForm.tsx): the list of editable
    fields, the single-field edit it reports upwards, and the colour class of
    the confidence badge. */
module TransactionForm {
  import opened Types

  /** The keys the form lets the user edit. The confidence score and the
      upload timestamp have no input and therefore no key here. */
  datatype Field =
    | Merchant | Amount | Currency | Date | Time | Sender
    | PaymentMethod | TransactionId | Platform | Category | Status | Notes

  /** One input of the form: its caption (the label shown) and the key it edits. */
  datatype FormField = FormField(caption: string, key: Field)

  /** The inputs in the order the form shows them. */
  function FormFields(): (fs: seq<FormField>)
    ensures |fs| == 12
    ensures forall i :: 0 <= i < |fs| ==> fs[i].caption != ""
  {
    [ FormField("Merchant / Recipient", Merchant),
      FormField("Amount", Amount),
      FormField("Currency", Currency),
      FormField("Date", Date),
      FormField("Time", Time),
      FormField("Sender", Sender),
      FormField("Method", PaymentMethod),
      FormField("Transaction ID", TransactionId),
      FormField("Platform", Platform),
      FormField("Category", Category),
      FormField("Status", Status),
      FormField("Notes", Notes) ]
  }

  /** Where the input for key `f` sits in the form: every key has one. */
  function InputIndex(f: Field): (i: nat)
    ensures i < |FormFields()| && FormFields()[i].key == f
  {
    match f
    case Merchant => 0
    case Amount => 1
    case Currency => 2
    case Date => 3
    case Time => 4
    case Sender => 5
    case PaymentMethod => 6
    case TransactionId => 7
    case Platform => 8
    case Category => 9
    case Status => 10
    case Notes => 11
  }

  /** The form has twelve inputs, and no two of them edit the same key: each
      input is the one `InputIndex` finds for its key. */
  lemma FormFieldsAreDistinct()
    ensures |FormFields()| == 12
    ensures forall i :: 0 <= i < |FormFields()| ==> InputIndex(FormFields()[i].key) == i
    ensures forall i, j :: 0 <= i < j < |FormFields()| ==> FormFields()[i].key != FormFields()[j].key
  {
  }

  /** The text an input shows for its key: always one of the record's twelve
      text fields, never the score or the timestamp. */
  function FieldValue(r: TransactionData, f: Field): (v: string)
    ensures v in {r.merchant, r.amount, r.currency, r.date, r.time, r.sender,
                  r.paymentMethod, r.transactionId, r.platform, r.category, r.status, r.notes}
  {
    match f
    case Merchant => r.merchant
    case Amount => r.amount
    case Currency => r.currency
    case Date => r.date
    case Time => r.time
    case Sender => r.sender
    case PaymentMethod => r.paymentMethod
    case TransactionId => r.transactionId
    case Platform => r.platform
    case Category => r.category
    case Status => r.status
    case Notes => r.notes
  }

  /** The form's change handler: a copy of the record whose `f` now holds the
      raw text `v` and whose other keys, confidence score and upload
      timestamp are as before. */
  function Edit(r: TransactionData, f: Field, v: string): (e: TransactionData)
    ensures FieldValue(e, f) == v
    ensures forall g :: g != f ==> FieldValue(e, g) == FieldValue(r, g)
    ensures e.confidenceScore == r.confidenceScore
    ensures e.uploadTimestamp == r.uploadTimestamp
  {
    match f
    case Merchant => r.(merchant := v)
    case Amount => r.(amount := v)
    case Currency => r.(currency := v)
    case Date => r.(date := v)
    case Time => r.(time := v)
    case Sender => r.(sender := v)
    case PaymentMethod => r.(paymentMethod := v)
    case TransactionId => r.(transactionId := v)
    case Platform => r.(platform := v)
    case Category => r.(category := v)
    case Status => r.(status := v)
    case Notes => r.(notes := v)
  }

  /** A record is determined by what its inputs show, its score and its
      timestamp. */
  lemma SameFieldsSameRecord(a: TransactionData, b: TransactionData)
    requires forall f :: FieldValue(a, f) == FieldValue(b, f)
    requires a.confidenceScore == b.confidenceScore
    requires a.uploadTimestamp == b.uploadTimestamp
    ensures a == b
  {
    assert FieldValue(a, Merchant) == FieldValue(b, Merchant);
    assert FieldValue(a, Amount) == FieldValue(b, Amount);
    assert FieldValue(a, Currency) == FieldValue(b, Currency);
    assert FieldValue(a, Date) == FieldValue(b, Date);
    assert FieldValue(a, Time) == FieldValue(b, Time);
    assert FieldValue(a, Sender) == FieldValue(b, Sender);
    assert FieldValue(a, PaymentMethod) == FieldValue(b, PaymentMethod);
    assert FieldValue(a, TransactionId) == FieldValue(b, TransactionId);
    assert FieldValue(a, Platform) == FieldValue(b, Platform);
    assert FieldValue(a, Category) == FieldValue(b, Category);
    assert FieldValue(a, Status) == FieldValue(b, Status);
    assert FieldValue(a, Notes) == FieldValue(b, Notes);
  }

  /** An edit is the one single-field update: any record that differs from
      `r` only in `f`, and holds `v` there, is the edited record. */
  lemma EditIsTheSingleFieldUpdate(r: TransactionData, f: Field, v: string, e: TransactionData)
    requires FieldValue(e, f) == v
    requires forall g :: g != f ==> FieldValue(e, g) == FieldValue(r, g)
    requires e.confidenceScore == r.confidenceScore
    requires e.uploadTimestamp == r.uploadTimestamp
    ensures e == Edit(r, f, v)
  {
    var x := Edit(r, f, v);
    forall g
      ensures FieldValue(e, g) == FieldValue(x, g)
    {
      if g != f {
        assert FieldValue(x, g) == FieldValue(r, g);
      }
    }
    SameFieldsSameRecord(e, x);
  }

  /** Typing the text an input already shows changes nothing. */
  lemma EditShownValueIsNoOp(r: TransactionData, f: Field)
    ensures Edit(r, f, FieldValue(r, f)) == r
  {
    EditIsTheSingleFieldUpdate(r, f, FieldValue(r, f), r);
  }

  /** Typing twice into one input is typing the second text once. */
  lemma EditOverwrites(r: TransactionData, f: Field, v: string, w: string)
    ensures Edit(Edit(r, f, v), f, w) == Edit(r, f, w)
  {
    EditIsTheSingleFieldUpdate(r, f, w, Edit(Edit(r, f, v), f, w));
  }

  /** Edits of different inputs do not interfere. */
  lemma EditsCommute(r: TransactionData, f: Field, g: Field, v: string, w: string)
    requires f != g
    ensures Edit(Edit(r, f, v), g, w) == Edit(Edit(r, g, w), f, v)
  {
    var b := Edit(Edit(r, f, v), g, w);
    var c := Edit(Edit(r, g, w), f, v);
    forall h
      ensures FieldValue(b, h) == FieldValue(c, h)
    {
    }
    SameFieldsSameRecord(b, c);
  }

  /** An edit of the status input keeps the exact text, so an edited record
      can carry a status outside the declared union. */
  lemma StatusEditCanLeaveTheUnion(r: TransactionData, v: string)
    requires !IsDeclaredStatus(v)
    ensures ClassifyStatus(Edit(r, Status, v).status) == Other(v)
  {
  }

  /** The three colour classes of the confidence badge. */
  datatype Confidence = Green | Yellow | Red

  /** The badge class: above 0.8 is green, above 0.5 yellow, anything else
      red. */
  function ConfidenceLevel(score: real): (c: Confidence)
    ensures c == Green <==> score > 0.8
    ensures c == Yellow <==> 0.5 < score <= 0.8
    ensures c == Red <==> score <= 0.5
  {
    if score > 0.8 then Green else if score > 0.5 then Yellow else Red
  }

  /** Red < yellow < green. */
  function Rank(c: Confidence): nat
  {
    match c
    case Red => 0
    case Yellow => 1
    case Green => 2
  }

  /** A higher score never gets a worse class. */
  lemma ConfidenceMonotone(s: real, t: real)
    requires s <= t
    ensures Rank(ConfidenceLevel(s)) <= Rank(ConfidenceLevel(t))
  {
  }
}
