/** HTTP statuses and responses of the route handlers. */
module Http {

  const OK: int := 200
  const CREATED: int := 201
  const BAD_REQUEST: int := 400
  const UNAUTHORIZED: int := 401
  const SERVER_ERROR: int := 500

  /** A JSON response: a payload with a success status, or an error status
      (the error message text is not modelled). */
  datatype Response<+T> = Ok(status: int, value: T) | Err(status: int)
}
