/** The route error page of src/pages/ErrorPage.jsx: the heading and the
    message it derives from the error the router reports, and when it
    shows the support note and the details line. */
module ErrorPage {
  import opened Basics
  import opened JsText

  /** The fields of a route error the page reads; a missing `status` is
      `None`. */
  datatype RouteError = RouteError(status: Option<int>, statusText: Option<string>,
                                   message: Option<string>, data: Option<string>)

  const DefaultMessage := "Sorry, an unexpected error has occurred."
  const DefaultStatus := "Error"
  const NotFoundMessage := "Oops! The page you're looking for doesn't exist."
  const NotFoundStatus := "404 - Page Not Found"

  /** The number used as a condition: `undefined` and `0` are falsy. */
  predicate StatusTruthy(status: Option<int>)
  {
    status.Some? && status.value != 0
  }

  /** The two texts of the page: `errorMessage` and `errorStatus`, set
      from their defaults by one `if`/`else if` chain. */
  function Describe(error: Option<RouteError>): (r: (string, string))
  {
    if error.None? then (DefaultMessage, DefaultStatus)
    else
      var e := error.value;
      if e.status == Some(404) then (NotFoundMessage, NotFoundStatus)
      else if Truthy(e.statusText) || Truthy(e.message) then
        (if Truthy(e.statusText) then e.statusText.value else e.message.value,
         if StatusTruthy(e.status) then IntText(e.status.value) + " - Error" else DefaultStatus)
      else (DefaultMessage, DefaultStatus)
  }

  /** The texts in every case: the defaults without an error, the fixed
      404 texts whatever else a 404 carries, otherwise the status text in
      preference to the message with a heading naming the status, and
      the defaults once more when neither text is present. */
  lemma DescribeCases(error: Option<RouteError>)
    ensures error.None? ==> Describe(error) == (DefaultMessage, DefaultStatus)
    ensures error.Some? && error.value.status == Some(404) ==>
      Describe(error) == (NotFoundMessage, NotFoundStatus)
    ensures error.Some? && error.value.status != Some(404) && Truthy(error.value.statusText) ==>
      Describe(error).0 == error.value.statusText.value
    ensures error.Some? && error.value.status != Some(404) && !Truthy(error.value.statusText) &&
            Truthy(error.value.message) ==>
      Describe(error).0 == error.value.message.value
    ensures error.Some? && error.value.status != Some(404) &&
            (Truthy(error.value.statusText) || Truthy(error.value.message)) ==>
      Describe(error).1 == if StatusTruthy(error.value.status)
                           then IntText(error.value.status.value) + " - Error"
                           else DefaultStatus
    ensures error.Some? && error.value.status != Some(404) &&
            !Truthy(error.value.statusText) && !Truthy(error.value.message) ==>
      Describe(error) == (DefaultMessage, DefaultStatus)
  {
  }

  /** Both texts of the page are never empty, and the heading is the
      404 heading exactly for a 404. */
  lemma DescribeShowsText(error: Option<RouteError>)
    ensures Describe(error).0 != "" && Describe(error).1 != ""
    ensures Describe(error).1 == NotFoundStatus <==> error.Some? && error.value.status == Some(404)
  {
    if error.Some? && error.value.status != Some(404) && StatusTruthy(error.value.status) &&
       (Truthy(error.value.statusText) || Truthy(error.value.message)) {
      var n := error.value.status.value;
      var h := IntText(n) + " - Error";
      assert h[|h| - 1] == 'r';
      assert NotFoundStatus[|NotFoundStatus| - 1] == 'd';
    }
  }

  /** The support note `error && error.status !== 404`. */
  predicate ShowsSupportNote(error: Option<RouteError>)
  {
    error.Some? && error.value.status != Some(404)
  }

  /** The details line `error.data && <p>Details: {error.data}</p>`
      inside the support note. */
  function Details(error: Option<RouteError>): (d: Option<string>)
    ensures d.Some? <==> ShowsSupportNote(error) && Truthy(error.value.data)
    ensures d.Some? ==> d.value == error.value.data.value
  {
    if ShowsSupportNote(error) && Truthy(error.value.data) then error.value.data else None
  }

  /** The support note is shown exactly when the page is not the 404
      page and an error exists: a missing error and a 404 both hide it. */
  lemma SupportNoteIffNotNotFound(error: Option<RouteError>)
    ensures ShowsSupportNote(error) <==> error.Some? && Describe(error).1 != NotFoundStatus
  {
    DescribeShowsText(error);
  }
}
