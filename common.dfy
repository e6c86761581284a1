/**
 * Values shared by every page: an optional value (JavaScript `null` / `undefined`)
 * and the outcome of one `fetch` against the remote API, which the model receives
 * as an input instead of performing it.
 */
module Common {

  datatype Option<+T> = None | Some(value: T) {
    function GetOr(default: T): T {
      match this
      case Some(v) => v
      case None => default
    }
  }

  /**
   * The three ways an awaited request ends, as the pages tell them apart:
   * - Failed: something threw before a response could be used (token, network,
   *   JSON parsing); `message` is the error's message, "" when it has none;
   * - NotOk: a response arrived with `ok == false`; `errorMessage` is the
   *   `error.message` of its JSON body when the page reads one;
   * - Ok: a response with `ok == true` and its parsed body.
   */
  datatype Fetched<+T> = Failed(message: string) | NotOk(errorMessage: Option<string>) | Ok(body: T)
}
