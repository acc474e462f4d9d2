/** What the pages and providers see of the REST clients (auth, cart, orders,
    materials). The clients themselves are not modelled: every awaited call is
    a parameter that either resolved with a value or rejected with an error. */
module Remote {

  datatype Option<+T> = None | Some(value: T)

  /** The only part of a rejected request the handlers read:
      `err.response?.data?.message` (absent when the server sent none). */
  datatype ApiError = ApiError(message: Option<string>)

  /** The outcome of one awaited client call. */
  datatype Call<+T> = Ok(value: T) | Fail(err: ApiError)

  /** `err.response?.data?.message || fallback`: an absent or empty message is
      falsy, so only a non-empty server message replaces the fallback. */
  function ErrorText(e: ApiError, fallback: string): (text: string)
    ensures text == fallback || (e.message == Some(text) && text != "")
    ensures text == fallback <== e.message.None? || e.message.value == ""
    ensures e.message.Some? && e.message.value != "" ==> text == e.message.value
    ensures fallback != "" ==> text != ""
  {
    match e.message
    case Some(m) => if m != "" then m else fallback
    case None => fallback
  }
}
