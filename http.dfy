/** The messages the pages derive from a reply that is not ok: the
    `Error` a handler throws and the text it keeps or shows. */
module Http {
  import opened Basics
  import opened JsText

  /** The message of `throw new Error(errorData.message || httpFallback)`
      for a response that is not ok, and the message of the network
      error otherwise. */
  function ThrownMessage<T>(reply: Reply<T>, httpFallback: string): (m: string)
    ensures reply.HttpError? && httpFallback != "" ==> m != ""
    ensures reply.HttpError? && Truthy(reply.message) ==> m == reply.message.value
    ensures reply.HttpError? && !Truthy(reply.message) ==> m == httpFallback
    ensures reply.NetworkError? ==> m == reply.reason
  {
    match reply
    case Success(_) => ""
    case HttpError(_, message) => Or(message, httpFallback)
    case NetworkError(reason) => reason
  }

  /** The message of `throw new Error(errorData.message ||
      `HTTP error! status: ${response.status}`)`, the form the detail and
      list pages use. */
  function FetchErrorMessage<T>(reply: Reply<T>): string
  {
    match reply
    case Success(_) => ""
    case HttpError(status, _) => ThrownMessage(reply, "HTTP error! status: " + IntText(status))
    case NetworkError(_) => ThrownMessage(reply, "")
  }

  /** A response that is not ok always leaves a message to show, and the
      fallback names the status. */
  lemma FetchErrorMessageShown<T>(status: int, body: Option<string>)
    ensures FetchErrorMessage<T>(HttpError(status, body)) != ""
    ensures !Truthy(body) ==>
      FetchErrorMessage<T>(HttpError(status, body)) == "HTTP error! status: " + IntText(status)
  {
  }

  /** The text of a catch block's `error.message || fallback`. */
  function CaughtText(message: string, fallback: string): (t: string)
    ensures message != "" ==> t == message
    ensures message == "" ==> t == fallback
  {
    Or(Some(message), fallback)
  }
}
