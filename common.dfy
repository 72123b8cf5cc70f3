/** Small value types shared by the whole model. */
module Common {

  /** A value that may be absent (`null`, or a key missing from an object). */
  datatype Option<T> = None | Some(value: T) {

    /** The value if present, otherwise `default`. */
    function GetOr(default: T): T
    {
      match this
      case Some(v) => v
      case None => default
    }
  }

  /**
   * The outcome of one request to the order backend, as the calling handler sees it:
   * `Ok(body)` when `res.ok` held and `res.json()` produced `body`; `NotOk` when the
   * response arrived with a non-success status; `Thrown(message)` when `fetch` or
   * `res.json()` threw an error carrying `message`.
   */
  datatype Reply<T> = Ok(body: T) | NotOk | Thrown(message: string) {

    /**
     * The message of the error the handler's `catch` receives: on a non-ok response
     * the handlers throw `new Error(notOkMessage)` themselves.
     */
    function ErrorMessage(notOkMessage: string): string
      requires !Ok?
    {
      if NotOk? then notOkMessage else message
    }
  }
}
