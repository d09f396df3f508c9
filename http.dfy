/**
  The settled outcome of one HTTP request as the pages see it: the response
  body on a 2xx status, or the `detail` the server put in an error body.
*/
module Http {
  import opened Wrappers

  datatype Outcome<+T> = Success(data: T) | Failure(detail: Option<string>)

  /** `err.response?.data?.detail || fallback`: the server's detail when it is a non-empty text. */
  function DetailOr(detail: Option<string>, fallback: string): (r: string)
    ensures detail.Some? && detail.value != "" ==> r == detail.value
    ensures detail.None? || detail.value == "" ==> r == fallback
  {
    if detail.Some? && detail.value != "" then detail.value else fallback
  }

  /** A page that shows DetailOr always shows something, as long as its fallback is not empty. */
  lemma DetailOrNonEmpty(detail: Option<string>, fallback: string)
    requires fallback != ""
    ensures DetailOr(detail, fallback) != ""
  {
  }
}
