/**
 * What a FastAPI handler produces: a value, or an `HTTPException` with its
 * status code and `detail` text.
 */
module Http {

  const HTTP_400_BAD_REQUEST := 400
  const HTTP_403_FORBIDDEN := 403
  const HTTP_404_NOT_FOUND := 404
  const HTTP_422_UNPROCESSABLE_ENTITY := 422
  const HTTP_500_INTERNAL_SERVER_ERROR := 500

  /** The body of the 500 the framework sends for an exception no handler caught. */
  const INTERNAL_SERVER_ERROR := "Internal Server Error"

  datatype Http<+T> = Ok(value: T) | Raised(status: int, detail: string)
}
