/**
 * The Express error handler of the SQL API, src/middleware/errorHandler.js:
 * a thrown Sequelize error becomes a status code and a JSON body that always
 * has `success: false`.
 */
module ErrorHandler {
  /** One entry of a Sequelize validation error. */
  datatype Item = Item(path: string, message: string)

  datatype Thrown = Thrown(name: string, errors: seq<Item>)

  datatype FieldError = FieldError(field: string, message: string)

  datatype Reply = Reply(status: int, success: bool, message: string, errors: seq<FieldError>)

  /** `err.errors.map(e => ({field: e.path, message: e.message}))` */
  function FieldErrors(items: seq<Item>): (r: seq<FieldError>)
    ensures |r| == |items|
    ensures forall k :: 0 <= k < |items| ==> r[k] == FieldError(items[k].path, items[k].message)
  {
    if items == [] then [] else [FieldError(items[0].path, items[0].message)] + FieldErrors(items[1..])
  }

  /** `errorHandler`; a reply without `errors` has the empty list here. */
  function Handle(err: Thrown): (r: Reply)
    ensures !r.success
    ensures err.name == "SequelizeValidationError" ==>
      r.status == 400 && r.message == "Validierungsfehler" && r.errors == FieldErrors(err.errors)
    ensures err.name == "SequelizeUniqueConstraintError" ==> r == Reply(400, false, "Daten bereits vorhanden", [])
    ensures err.name != "SequelizeValidationError" && err.name != "SequelizeUniqueConstraintError" ==>
      r == Reply(500, false, "Interner Server-Fehler", [])
  {
    if err.name == "SequelizeValidationError" then
      Reply(400, false, "Validierungsfehler", FieldErrors(err.errors))
    else if err.name == "SequelizeUniqueConstraintError" then
      Reply(400, false, "Daten bereits vorhanden", [])
    else
      Reply(500, false, "Interner Server-Fehler", [])
  }

  /** Only the two Sequelize error kinds are blamed on the client; everything else is a 500. */
  lemma ClientErrors(err: Thrown)
    ensures Handle(err).status == 400 <==>
      err.name == "SequelizeValidationError" || err.name == "SequelizeUniqueConstraintError"
    ensures Handle(err).status == 400 || Handle(err).status == 500
    ensures Handle(err).errors != [] ==> err.name == "SequelizeValidationError" && err.errors != []
  {
  }
}
