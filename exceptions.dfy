/**
 * The failure hierarchy of func/utilities/exceptions.py.
 *
 * `ApiException` carries an HTTP status code, a machine-readable code and a
 * description, each kept exactly as passed; `EntityNotFoundException` is an
 * `ApiException` whose status code is fixed at 404. A subclass that only
 * fixes a field is a subset type of the base datatype, so every not-found
 * failure is, by its type, also a generic API failure.
 */
module Exceptions {

  const NotFound := 404
  const BadRequest := 400

  /** A typed API failure, turned into an HTTP response by the boundary handler. */
  datatype ApiException = ApiException(statusCode: int, code: string, description: string)

  /** The API failures whose status code is 404. */
  type EntityNotFoundException = e: ApiException | e.statusCode == NotFound
    witness ApiException(NotFound, "", "")

  /** The `EntityNotFoundException(code=..., description=...)` constructor. */
  function EntityNotFound(code: string, description: string): (e: EntityNotFoundException)
    ensures e.code == code && e.description == description
  {
    ApiException(NotFound, code, description)
  }
}
