/**
 * The Express error handler of the legacy API, _middleware/error-handler.js:
 * a thrown error becomes a status code and a JSON message.
 */
module LegacyErrorHandler {
  import opened Strings

  /** What the legacy code throws: a plain string, or an Error with a name and message. */
  datatype Thrown = Plain(text: string) | Named(name: string, message: string)

  datatype Reply = Reply(status: int, message: string)

  /** `errorHandler`: the first matching case of the `switch (true)`. */
  function Handle(err: Thrown): (r: Reply)
    ensures err.Plain? ==> r.message == err.text
    ensures err.Plain? ==> (r.status == 404 <==> EndsWith(ToLower(err.text), "not found"))
    ensures err.Plain? && r.status != 404 ==> r.status == 400
    ensures err.Named? && err.name == "ValidationError" ==> r == Reply(400, err.message)
    ensures err.Named? && err.name == "UnauthorizedError" ==> r == Reply(401, "Unauthorized")
    ensures err.Named? && err.name != "ValidationError" && err.name != "UnauthorizedError" ==>
      r == Reply(500, err.message)
  {
    match err
    case Plain(text) => Reply(if EndsWith(ToLower(text), "not found") then 404 else 400, text)
    case Named(name, message) =>
      if name == "ValidationError" then Reply(400, message)
      else if name == "UnauthorizedError" then Reply(401, "Unauthorized")
      else Reply(500, message)
  }

  /** The "not found" test ignores the case of the message: any capitalisation of the suffix gives 404. */
  lemma NotFoundAnyCase(prefix: string, suffix: string)
    requires |suffix| == 9 && ToLower(suffix) == "not found"
    ensures Handle(Plain(prefix + suffix)).status == 404
  {
    var s := prefix + suffix;
    var low := ToLower(s);
    assert low[|low| - 9..] == ToLower(suffix) by {
      forall k | 0 <= k < 9
        ensures low[|low| - 9..][k] == ToLower(suffix)[k]
      {
        assert s[|prefix| + k] == suffix[k];
      }
    }
  }

  /** A status of 404 only ever comes from a string error. */
  lemma NotFoundOnlyForStrings(err: Thrown)
    ensures Handle(err).status == 404 ==> err.Plain?
    ensures Handle(err).status in {400, 401, 404, 500}
  {
  }
}
