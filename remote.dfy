/** The frontend's boundary to the backend. Every awaited call either
    returns a response body or throws the error object that the API
    wrappers normalise; which one happens is an input of the model. */
module Remote {

  /** A value that may be missing (JavaScript `null`, Python `None`). */
  datatype Option<+T> = None | Some(value: T)

  /** The body of a generate or refine response. A missing string field
      is "", which JavaScript's `||` treats as false just like `undefined`. */
  datatype CodeResponse = CodeResponse(status: string, code: string, filename: string, explanation: string)

  /** A thrown error object; a missing `detail` or `message` is "". */
  datatype Thrown = Thrown(detail: string, message: string)

  /** What an awaited call produced. */
  datatype Outcome<+T> = Returned(value: T) | Threw(error: Thrown)

  /** `err.detail || err.message || fallback`. */
  function ErrorText(e: Thrown, fallback: string): (r: string)
    ensures r == e.detail || r == e.message || r == fallback
    ensures e.detail != "" ==> r == e.detail
    ensures r == "" <==> e.detail == "" && e.message == "" && fallback == ""
  {
    if e.detail != "" then e.detail else if e.message != "" then e.message else fallback
  }

  /** `err.detail || fallback`, the form the toasts of the projects page use. */
  function DetailOr(e: Thrown, fallback: string): string {
    if e.detail != "" then e.detail else fallback
  }

  /** A file handed to the browser for saving: its content and its name. */
  datatype Download = Download(content: string, filename: string)
}
