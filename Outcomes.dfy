/** Optional values and the abstract outcome of a remote call. */
module Outcomes {

  datatype Option<+T> = None | Some(value: T)

  /** The result of one HTTP request whose server cannot be seen: the response
      body on success; on failure the server's `message` field when it sent one,
      and the error object's own `message` text. */
  datatype Outcome<+T> = Success(value: T) | Failure(message: Option<string>, cause: string)

  /** `err.response?.data?.message || fallback`: the server's message unless it
      is missing or the empty string, which JavaScript treats as false. */
  function MessageOr(message: Option<string>, fallback: string): (r: string)
    ensures message.Some? && message.value != "" ==> r == message.value
    ensures message.None? || message.value == "" ==> r == fallback
    ensures fallback != "" ==> r != ""
  {
    if message.Some? && message.value != "" then message.value else fallback
  }
}
