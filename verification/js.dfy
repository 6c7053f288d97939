/** JavaScript thrown values and the toast notices the hooks raise. */
module Js {

  /** What a `catch` clause receives: an `Error` (with its `message`, where
      the empty string also stands for a missing message, both being falsy),
      or some other thrown value. */
  datatype Thrown = ErrorObject(message: string) | NonError

  /** `error.message || fallback`. */
  function MessageOr(e: Thrown, fallback: string): (r: string)
    ensures e.ErrorObject? && |e.message| > 0 ==> r == e.message
    ensures !(e.ErrorObject? && |e.message| > 0) ==> r == fallback
  {
    if e.ErrorObject? && |e.message| > 0 then e.message else fallback
  }

  /** `error instanceof Error ? error.message : fallback`. */
  function InstanceMessage(e: Thrown, fallback: string): (r: string)
    ensures e.ErrorObject? ==> r == e.message
    ensures e.NonError? ==> r == fallback
  {
    match e
    case ErrorObject(m) => m
    case NonError => fallback
  }

  /** The settled value of an async call: what it returned, or what it threw. */
  datatype Outcome<T> = Returned(value: T) | Threw(error: Thrown)

  /** A `toast.error` / `toast.info` / `toast.success` notice. */
  datatype Notice = ErrorToast(text: string) | InfoToast(text: string) | SuccessToast(text: string)
}
