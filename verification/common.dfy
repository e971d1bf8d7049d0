/** Values shared by every route: request-body fields as JSON delivers them,
    JavaScript truthiness, identifiers, the date-parser collaborator and the
    error shape that handlers forward with `next(error)`. */
module Common {

  datatype Option<+T> = None | Some(value: T)

  /** A field read from a JSON request body or query string: missing
      (`undefined`), explicitly `null`, or a value. */
  datatype Field<+T> = Undefined | Null | Val(value: T)

  /** `!!f` for a numeric field: `undefined`, `null` and `0` are falsy. */
  predicate TruthyNum(f: Field<real>)
  {
    f.Val? && f.value != 0.0
  }

  /** `!!f` for a string field: `undefined`, `null` and `""` are falsy. */
  predicate TruthyStr(f: Field<string>)
  {
    f.Val? && f.value != ""
  }

  /** Document ids, including users' ids as carried in the token's `id` claim. */
  type UserId = nat
  type EntryId = nat

  /** Milliseconds since the epoch, as `Date.parse` and `new Date(...)` give them. */
  type Timestamp = int

  /** `Date.parse`: `None` stands for `NaN`. `new Date(s)` denotes the same instant. */
  type DateParser = string -> Option<Timestamp>

  /** `f && isNaN(Date.parse(f))`: a date that was supplied but does not parse. */
  predicate InvalidDate(f: Field<string>, parse: DateParser)
  {
    TruthyStr(f) && parse(f.value).None?
  }

  /** `f ? new Date(f) : fallback` for a field that passed the date check. */
  function DateOr(f: Field<string>, parse: DateParser, fallback: Timestamp): (t: Timestamp)
    requires !InvalidDate(f, parse)
    ensures TruthyStr(f) ==> Some(t) == parse(f.value)
    ensures !TruthyStr(f) ==> t == fallback
  {
    if TruthyStr(f) then parse(f.value).value else fallback
  }

  /** An `Error` as the handlers build it: `statusCode` is unset (`None`) for
      errors that come from a collaborator (database, token verifier). */
  datatype Error = Error(statusCode: Option<nat>, message: string)

  datatype Result<+T> = Ok(value: T) | Fail(error: Error)

  function BadRequest(message: string): Error { Error(Some(400), message) }
  function Unauthorized(message: string): Error { Error(Some(401), message) }
  function Forbidden(message: string): Error { Error(Some(403), message) }
  function NotFound(message: string): Error { Error(Some(404), message) }

  /** A unique-index violation reported by the database, forwarded without a status. */
  function DuplicateKey(field: string): Error { Error(None, "E11000 duplicate key error: " + field) }

  /** The message every user route uses when the path id is not the caller's. */
  const NotAuthorizedMessage: string := "You are not authorized to access this resource"

  /** The final error handler's `err.statusCode || 500`. */
  function HttpStatus(e: Error): (status: nat)
    ensures status != 0
    ensures e.statusCode.Some? && e.statusCode.value != 0 ==> status == e.statusCode.value
    ensures !(e.statusCode.Some? && e.statusCode.value != 0) ==> status == 500
  {
    if e.statusCode.Some? && e.statusCode.value != 0 then e.statusCode.value else 500
  }
}
