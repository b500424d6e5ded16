/** Optional values, results with an error side, and the HTTP error the API layer raises. */
module Wrappers {

  /** A cell or field that may be missing (pandas NaN / Python None). */
  datatype Option<T> = None | Some(value: T)

  /** A computation that returns a value or raises an error. */
  datatype Result<T, E> = Ok(value: T) | Err(error: E)

  /** FastAPI's HTTPException, reduced to its status code. */
  datatype HttpError = HttpError(statusCode: int)

  const NotFound: int := 404
  const UnprocessableEntity: int := 422
  /** What FastAPI answers when a handler lets an exception escape. */
  const InternalServerError: int := 500

  /** The text pandas' `fillna("")` gives for a cell. */
  function OrEmpty(o: Option<string>): (s: string)
    ensures o.Some? ==> s == o.value
    ensures o.None? ==> s == ""
  {
    match o
    case Some(v) => v
    case None => ""
  }
}
