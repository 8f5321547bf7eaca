/**
 * What the browser pages share: the answer of an `axios` request and the toast a page shows.
 */
module Client {
  import opened Wrappers

  /**
   * An `axios` call either resolves with the response body or rejects; a rejection carries the
   * `error` and `message` strings of the JSON body, if there was a response that had them.
   */
  datatype Reply<T> = Resolved(data: T) | Rejected(error: Option<string>, message: Option<string>)

  /** The last `toast.success` or `toast.error` a page raised. */
  datatype Notice = Success(text: string) | Failure(text: string)

  /** `error.response?.data?.message || fallback`: an absent or empty message gives the fallback. */
  function MessageOr(message: Option<string>, fallback: string): (r: string)
    ensures message.Some? && message.value != "" ==> r == message.value
    ensures message.None? || message.value == "" ==> r == fallback
    ensures fallback != "" ==> r != ""
  {
    if message.Some? && message.value != "" then message.value else fallback
  }
}
