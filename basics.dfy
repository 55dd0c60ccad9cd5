/** Values shared by every part of the model: optional values, results,
    the JavaScript truthiness of an optional string, and what an awaited
    `fetch` hands back to the component that issued it. */
module Basics {

  /** A value that may be `null` or `undefined` in the client (`None`). */
  datatype Option<+T> = None | Some(value: T)

  /** The outcome of an awaited call: a value, or the error it throws. */
  datatype Result<+T, +E> = Ok(value: T) | Err(error: E)

  /** An optional string used as a JavaScript condition: `null`,
      `undefined` and `""` are falsy, every other string is truthy. */
  predicate Truthy(s: Option<string>)
  {
    s.Some? && s.value != ""
  }

  /** The expression `s || fallback` for an optional string. */
  function Or(s: Option<string>, fallback: string): string
  {
    if Truthy(s) then s.value else fallback
  }

  /** What an awaited `fetch(...)` followed by `response.json()` gives the
      component: the parsed body of an ok response, the `message` of the
      JSON error body of a response that is not ok, or the message of the
      error thrown when no response could be read at all. */
  datatype Reply<+T> =
    | Success(data: T)
    | HttpError(status: int, message: Option<string>)
    | NetworkError(reason: string)

  /** What a page whose body depends on fetched data shows, in priority
      order. */
  datatype Screen = Loading | Failed(message: string) | Unavailable | Ready

  /** The render gate `if (loading) ...; if (error) ...; if (!data) ...;`
      for the page's loading flags, its `error` and whether its data is
      present. */
  function Gate(loading: bool, error: Option<string>, present: bool): (s: Screen)
    ensures s == Loading <==> loading
    ensures s.Failed? <==> !loading && Truthy(error)
    ensures s.Failed? ==> s.message == error.value && s.message != ""
    ensures s == Unavailable <==> !loading && !Truthy(error) && !present
    ensures s == Ready <==> !loading && !Truthy(error) && present
  {
    if loading then Loading
    else if Truthy(error) then Failed(error.value)
    else if !present then Unavailable
    else Ready
  }

  /** The icon of a dialog the client shows. */
  datatype Icon = SuccessIcon | WarningIcon | ErrorIcon

  /** A dialog the client shows: its icon, title and text. Timers and
      buttons are not modelled. */
  datatype Notice = Notice(icon: Icon, title: string, text: string)
}
