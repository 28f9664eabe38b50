/**
 * The records the tracker keeps: the entry form the user fills in, and the entries
 * stored once the form is submitted.
 */
module Entries {
  import opened Wrappers

  /**
   * The entry form (`currentEntry`). Every input holds the text typed into it, so the
   * numeric fields are strings and a blank field is the empty string. The receipt is an
   * opaque data URL, or nothing.
   */
  datatype EntryForm = EntryForm(
    date: string,
    standardHours: string,
    overtimeHours: string,
    mileage: string,
    gasExpense: string,
    otherExpense: string,
    expenseDescription: string,
    notes: string,
    receiptImage: Option<string>)

  /** A stored entry: the submitted form plus the id and creation timestamp stamped on it. */
  datatype Entry = Entry(form: EntryForm, id: int, timestamp: string)

  /** The form after a reset: dated `today`, every other field blank, no receipt. */
  function BlankForm(today: string): EntryForm {
    EntryForm(today, "", "", "", "", "", "", "", None)
  }

  /** JavaScript truthiness of a string: only the empty string is falsy. */
  predicate Truthy(s: string) {
    s != ""
  }

  /** `s || 0` in a template string: a blank field is shown as `0`. */
  function OrZero(s: string): (r: string)
    ensures Truthy(r)
    ensures Truthy(s) ==> r == s
    ensures !Truthy(s) ==> r == "0"
  {
    if Truthy(s) then s else "0"
  }
}
