/** The responses the controller actions return, and the exceptions that surface as a server error. */
module Http {

  /** Exceptions that escape an action; the host turns each into a 500 response. */
  datatype Fault =
    | NullClaimValue       // a claim built from a null value
    | JwtKeyMissing        // "JWT Key missing!"
    | JwtKeyTooShort       // "JWT key must be at least 256 bits (32 bytes)."
    | DuplicateKey         // inserting a passenger whose key is already stored
    | ConcurrencyConflict  // updating a passenger row that does not exist

  datatype Response<+T> =
    | Ok(body: T)
    | BadRequest(message: string)
    | InvalidModel          // BadRequest(ModelState)
    | Unauthorized
    | NotFound
    | ServerError(fault: Fault)
}
