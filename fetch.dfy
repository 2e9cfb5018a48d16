/**
 * What the controllers read from a `fetch` response: the status that decides
 * `res.ok`, and the `detail || statusText || fallback` message they show on failure.
 */
module Fetch {
  import opened JsString

  /** `res.ok`: the status is in the range 200-299. */
  predicate Ok(status: int) {
    200 <= status <= 299
  }

  /** The message of `new Error(detail || statusText)` caught by `err.message || fallback`:
      the server's detail if there is one, else the status text, else the stage's fallback. */
  function ErrorMessage(detail: string, statusText: string, fallback: string): (m: string)
    ensures detail != "" ==> m == detail
    ensures detail == "" && statusText != "" ==> m == statusText
    ensures detail == "" && statusText == "" ==> m == fallback
    ensures fallback != "" ==> m != ""
  {
    OrElse(OrElse(detail, statusText), fallback)
  }
}
