/** The HTTP errors the handlers raise (FastAPI's HTTPException) and the other ways a request can fail. */
module Http {

  const HTTP_200_OK: int := 200
  const HTTP_201_CREATED: int := 201
  const HTTP_400_BAD_REQUEST: int := 400
  const HTTP_401_UNAUTHORIZED: int := 401
  const HTTP_422_UNPROCESSABLE_ENTITY: int := 422
  const HTTP_500_INTERNAL_SERVER_ERROR: int := 500

  /** An HTTPException: a status code and the `detail` message of the JSON error body. */
  datatype HttpException = HttpException(status: int, detail: string)

  /** Why a handler did not return a value. */
  datatype Failure =
    /** The handler raised an HTTPException. */
    | Raised(exception: HttpException)
    /** An exception from the external service that the handler does not catch. */
    | Unhandled(reason: string)
    /** Request validation rejected the named parameters before the handler ran. */
    | Unprocessable(fields: seq<string>)
}
