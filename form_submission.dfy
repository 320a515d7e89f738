/**
 * What the two entry forms share: the outcome of the backend insert, given to
 * the model as an input, and the log of effects a submission has outside the
 * form's own state (the insert request, toasts, the refresh event).
 */
module FormSubmission {

  /** How the backend answered the insert; a thrown error carries its message. */
  datatype InsertOutcome = InsertOk | InsertError(message: string)

  /** An effect outside the form's state, with `R` the inserted row type. */
  datatype Effect<R> =
    | Insert(row: R)
    | ToastSuccess(message: string)
    | ToastError(message: string)
    | Dispatch(event: string)

  /** `error.message || fallback`: the error's own message, or the fallback when it is empty. */
  function FailureMessage(message: string, fallback: string): (shown: string)
    ensures message != "" ==> shown == message
    ensures message == "" ==> shown == fallback
    ensures shown == "" ==> message == "" && fallback == ""
  {
    if message != "" then message else fallback
  }
}
