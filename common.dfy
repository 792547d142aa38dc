/** Values shared by every part of the model. */
module Common {

  /** A JavaScript value that may be `undefined`. Equality on this type is
      JavaScript's `===` between two values that are each a string or `undefined`. */
  datatype Option<+T> = None | Some(value: T) {

    /** `x || default` for a value whose defined values are all truthy. */
    function GetOr(default: T): T {
      match this
      case Some(v) => v
      case None => default
    }
  }

  /** How an awaited call ends: it returns a value, or it throws an error
      whose `message` the caller may show. */
  datatype Completion<+T> = Returned(value: T) | Threw(message: string)

  /** The `{ success: ... }` object the ledger store answers writes with. */
  datatype Reply = Reply(success: bool)

  /** A stand-in for the message of the `SyntaxError` that `JSON.parse`
      throws on stored text that does not parse; the engine's own wording
      ("Unexpected token ...") is not modelled. */
  const JsonParseError: string := "SyntaxError"

  /** `if (!url)` with `url = CONFIG.getScriptUrl()`: an endpoint counts as
      configured when a non-empty string is stored for it (null and '' are falsy). */
  predicate Configured(url: Option<string>) {
    url.Some? && url.value != ""
  }
}
