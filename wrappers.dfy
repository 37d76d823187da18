/** Option and Result values shared by every module of the model. */
module Wrappers {

  /** A value that may be absent (JavaScript `undefined`/`null`). */
  datatype Option<+T> = None | Some(value: T) {
    function GetOr(default: T): T {
      match this
      case Some(v) => v
      case None => default
    }
  }

  /**
   * A field of a JSON request body, where JavaScript tells a field the body
   * leaves out (`undefined`) from one it sends as `null`.
   */
  datatype Sent<+T> = Unsent | SentNull | SentValue(value: T) {
    /** The value a store keeps for the field: both `undefined` and `null` keep nothing. */
    function ToOption(): (r: Option<T>)
      ensures r.Some? <==> SentValue?
      ensures SentValue? ==> r.value == value
    {
      match this
      case SentValue(v) => Some(v)
      case _ => None
    }

    /**
     * The value an update that drops `undefined` keys leaves in a field
     * holding `stored`: a left-out field keeps it, `null` clears it.
     */
    function Over(stored: Option<T>): (r: Option<T>)
      ensures Unsent? ==> r == stored
      ensures !Unsent? ==> r == ToOption()
    {
      if Unsent? then stored else ToOption()
    }
  }

  /** The outcome of an operation that can throw. */
  datatype Result<+T, +E> = Ok(value: T) | Err(error: E)
}
